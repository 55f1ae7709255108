/** `frontend/src/VoiceAssistant.jsx`: the voice session controller. Its four state cells
    are fields; each browser callback and each button is a method. What a callback asks
    of the outside world (an alert, starting or stopping the recognizer, a POST, the
    `onResponse` callback, an utterance) is returned as a list of effects, and the
    asynchronous completions (a POST settling, an utterance ending) are events of their
    own. */
module VoiceUi {
  import opened Wrappers

  datatype Effect =
    | Alert(message: string)
    | StartRecognition
    | StopRecognition
    | PostCommand(text: string)
    | NotifyResponse(response: Option<string>)
    | Utter(utterance: Option<string>)

  /** How a POST to `/voice/command` ended: a parsed body, whose `response` key may be
      missing (`undefined`), or an exception from `fetch` or `json()`. */
  datatype DispatchOutcome = Replied(response: Option<string>) | DispatchThrew

  const ErrorReply := "Sorry, I encountered an error. Please try again."
  const UnsupportedAlert := "Speech recognition is not supported in your browser."
  const ListeningLabel := "Listening..."
  const ReadyLabel := "Ready"

  datatype QuickCommand = QuickCommand(caption: string, command: string)

  const QuickCommands: seq<QuickCommand> := [
    QuickCommand("Car Status", "What's my car status?"),
    QuickCommand("Check Speed", "What's my current speed?"),
    QuickCommand("Fuel Level", "How much fuel do I have?"),
    QuickCommand("Engine Temp", "What's the engine temperature?"),
    QuickCommand("Trip Info", "What's my trip distance?"),
    QuickCommand("Help", "What can you do?")
  ]

  class VoiceAssistant {
    /** Whether the browser offers a recognizer, speech synthesis, and whether the parent
        passed `onResponse`; fixed for the component's life. */
    const hasRecognizer: bool
    const hasSynthesis: bool
    const hasOnResponse: bool

    var isListening: bool
    var command: string
    /** `None` stands for the `undefined` a reply without `response` stores. */
    var response: Option<string>
    var isSpeaking: bool

    /** Commands posted and not yet settled, in posting order; they may settle in any order. */
    ghost var pending: seq<string>
    /** Utterances handed to the synthesizer and not yet ended. */
    ghost var queuedUtterances: nat

    /** What every reachable state satisfies. */
    ghost predicate Valid()
      reads this
    {
      && (isSpeaking ==> queuedUtterances > 0)
      && (!hasSynthesis ==> queuedUtterances == 0)
      && (!hasRecognizer ==> !isListening)
    }

    constructor(hasRecognizer: bool, hasSynthesis: bool, hasOnResponse: bool)
      ensures Valid()
      ensures this.hasRecognizer == hasRecognizer && this.hasSynthesis == hasSynthesis
      ensures this.hasOnResponse == hasOnResponse
      ensures !isListening && command == "" && response == Some("") && !isSpeaking
      ensures pending == [] && queuedUtterances == 0
    {
      this.hasRecognizer := hasRecognizer;
      this.hasSynthesis := hasSynthesis;
      this.hasOnResponse := hasOnResponse;
      isListening := false;
      command := "";
      response := Some("");
      isSpeaking := false;
      pending := [];
      queuedUtterances := 0;
    }

    /** `toggleListening`: asks the recognizer to stop or start and changes no state
        itself; without a recognizer it only alerts. */
    method ToggleListening() returns (effects: seq<Effect>)
      ensures !hasRecognizer ==> effects == [Alert(UnsupportedAlert)]
      ensures hasRecognizer && isListening ==> effects == [StopRecognition]
      ensures hasRecognizer && !isListening ==> effects == [StartRecognition]
    {
      if !hasRecognizer {
        return [Alert(UnsupportedAlert)];
      }
      if isListening {
        effects := [StopRecognition];
      } else {
        effects := [StartRecognition];
      }
    }

    /** `recognition.onstart`: the only place listening begins. */
    method OnStart()
      requires hasRecognizer && Valid()
      modifies this`isListening
      ensures isListening && Valid()
    {
      isListening := true;
    }

    /** `recognition.onerror`. */
    method OnError()
      requires hasRecognizer && Valid()
      modifies this`isListening
      ensures !isListening && Valid()
    {
      isListening := false;
    }

    /** `recognition.onend`. */
    method OnEnd()
      requires hasRecognizer && Valid()
      modifies this`isListening
      ensures !isListening && Valid()
    {
      isListening := false;
    }

    /** `processVoiceCommand`, up to the POST: the text is sent as it is. */
    method ProcessVoiceCommand(text: string) returns (effects: seq<Effect>)
      requires Valid()
      modifies this`pending
      ensures effects == [PostCommand(text)]
      ensures pending == old(pending) + [text]
      ensures Valid()
    {
      pending := pending + [text];
      effects := [PostCommand(text)];
    }

    /** `recognition.onresult`: the first alternative of the first result becomes the
        command and is dispatched; listening is left as it is. */
    method OnResult(results: seq<seq<string>>) returns (effects: seq<Effect>)
      requires hasRecognizer && Valid()
      requires |results| > 0 && |results[0]| > 0
      modifies this`command, this`pending
      ensures command == results[0][0]
      ensures effects == [PostCommand(results[0][0])]
      ensures pending == old(pending) + [results[0][0]]
      ensures isListening == old(isListening) && Valid()
    {
      command := results[0][0];
      effects := ProcessVoiceCommand(command);
    }

    /** `speakText`: with speech synthesis, marks speaking and queues the utterance;
        without it, does nothing. */
    method SpeakText(text: Option<string>) returns (effects: seq<Effect>)
      requires Valid()
      modifies this`isSpeaking, this`queuedUtterances
      ensures hasSynthesis ==> isSpeaking && effects == [Utter(text)]
      ensures hasSynthesis ==> queuedUtterances == old(queuedUtterances) + 1
      ensures !hasSynthesis ==> effects == [] && isSpeaking == old(isSpeaking)
      ensures !hasSynthesis ==> queuedUtterances == old(queuedUtterances)
      ensures Valid()
    {
      if hasSynthesis {
        isSpeaking := true;
        queuedUtterances := queuedUtterances + 1;
        effects := [Utter(text)];
      } else {
        effects := [];
      }
    }

    /** The rest of `processVoiceCommand`, when the `i`-th pending POST settles. A reply
        is stored, passed to `onResponse` if there is one and spoken, all with the same
        text; an exception stores the fixed apology and nothing else happens. The
        command cell is never touched. */
    method OnCommandSettled(i: nat, outcome: DispatchOutcome) returns (effects: seq<Effect>)
      requires i < |pending| && Valid()
      modifies this`response, this`isSpeaking, this`pending, this`queuedUtterances
      ensures pending == old(pending[..i] + pending[i + 1..])
      ensures outcome.Replied? ==>
        && response == outcome.response
        && effects == (if hasOnResponse then [NotifyResponse(outcome.response)] else [])
                      + (if hasSynthesis then [Utter(outcome.response)] else [])
        && (hasSynthesis ==> isSpeaking && queuedUtterances == old(queuedUtterances) + 1)
        && (!hasSynthesis ==> isSpeaking == old(isSpeaking) && queuedUtterances == old(queuedUtterances))
      ensures outcome.DispatchThrew? ==>
        && response == Some(ErrorReply)
        && effects == []
        && isSpeaking == old(isSpeaking) && queuedUtterances == old(queuedUtterances)
      ensures command == old(command) && isListening == old(isListening)
      ensures Valid()
    {
      pending := pending[..i] + pending[i + 1..];
      match outcome {
        case Replied(r) =>
          response := r;
          effects := if hasOnResponse then [NotifyResponse(r)] else [];
          var spoken := SpeakText(r);
          effects := effects + spoken;
        case DispatchThrew =>
          response := Some(ErrorReply);
          effects := [];
      }
    }

    /** `utterance.onend` and `utterance.onerror` alike: speaking is over, even if
        another utterance is still queued. */
    method OnUtteranceSettled()
      requires queuedUtterances > 0 && Valid()
      modifies this`isSpeaking, this`queuedUtterances
      ensures !isSpeaking && queuedUtterances == old(queuedUtterances) - 1
      ensures Valid()
    {
      isSpeaking := false;
      queuedUtterances := queuedUtterances - 1;
    }

    /** The microphone button: disabled while speaking, otherwise `toggleListening`. */
    method ClickMic() returns (effects: seq<Effect>)
      ensures isSpeaking ==> effects == []
      ensures !isSpeaking && !hasRecognizer ==> effects == [Alert(UnsupportedAlert)]
      ensures !isSpeaking && hasRecognizer ==>
                effects == (if isListening then [StopRecognition] else [StartRecognition])
    {
      if isSpeaking {
        effects := [];
      } else {
        effects := ToggleListening();
      }
    }

    /** Whether the assistant's message, and with it the "Speak again" button, is shown. */
    predicate ResponseShown()
      reads this
    {
      response.Some? && response.value != ""
    }

    /** The "Speak again" button, which exists only while a response is shown: disabled
        while speaking, otherwise `speakText(response)`. */
    method ClickSpeakAgain() returns (effects: seq<Effect>)
      requires ResponseShown() && Valid()
      modifies this`isSpeaking, this`queuedUtterances
      ensures old(isSpeaking) ==> effects == [] && isSpeaking
      ensures old(isSpeaking) ==> queuedUtterances == old(queuedUtterances)
      ensures !old(isSpeaking) && hasSynthesis ==> effects == [Utter(response)] && isSpeaking
      ensures !old(isSpeaking) && hasSynthesis ==> queuedUtterances == old(queuedUtterances) + 1
      ensures !old(isSpeaking) && !hasSynthesis ==> effects == [] && !isSpeaking
      ensures Valid()
    {
      if isSpeaking {
        effects := [];
      } else {
        effects := SpeakText(response);
      }
    }

    /** A quick-command button: never disabled, dispatches its fixed text and leaves the
        command cell as it was. */
    method ClickQuickCommand(i: nat) returns (effects: seq<Effect>)
      requires i < |QuickCommands| && Valid()
      modifies this`pending
      ensures effects == [PostCommand(QuickCommands[i].command)]
      ensures pending == old(pending) + [QuickCommands[i].command]
      ensures command == old(command) && Valid()
    {
      effects := ProcessVoiceCommand(QuickCommands[i].command);
    }

    /** The status label in the header. */
    function StatusLabel(): (r: string)
      reads this
      ensures r == ListeningLabel <==> isListening
      ensures r == ReadyLabel <==> !isListening
    {
      if isListening then ListeningLabel else ReadyLabel
    }
  }

  /** Listening and speaking are not exclusive: a recognized command is answered and
      spoken while the recognizer has not yet reported its end. */
  method ListeningWhileSpeaking(reply: string) returns (va: VoiceAssistant)
    ensures va.isListening && va.isSpeaking && va.response == Some(reply)
    ensures va.Valid()
  {
    va := new VoiceAssistant(true, true, false);
    var effects := va.ToggleListening();
    assert effects == [StartRecognition];
    va.OnStart();
    effects := va.OnResult([["what's my speed"]]);
    effects := va.OnCommandSettled(0, Replied(Some(reply)));
    assert effects == [Utter(Some(reply))];
  }

  /** Replies are not ordered by recency: when the earlier of two commands is answered
      last, its reply is the one left on screen. */
  method StaleReplyWins(older: string, newer: string) returns (va: VoiceAssistant)
    ensures va.response == Some(older) && va.pending == []
  {
    va := new VoiceAssistant(true, true, true);
    var effects := va.ClickQuickCommand(0);
    effects := va.ClickQuickCommand(1);
    assert va.pending == [QuickCommands[0].command, QuickCommands[1].command];
    effects := va.OnCommandSettled(1, Replied(Some(newer)));
    effects := va.OnCommandSettled(0, Replied(Some(older)));
  }

  /** The speaking flag does not track the synthesizer's queue: the first of two
      utterances ending clears it while the second is still queued, and the mic button
      is enabled again. */
  method SpeakingClearedEarly() returns (va: VoiceAssistant, effects: seq<Effect>)
    ensures !va.isSpeaking && va.queuedUtterances == 1
    ensures effects == [StartRecognition]
  {
    va := new VoiceAssistant(true, true, false);
    var e := va.ClickQuickCommand(0);
    e := va.ClickQuickCommand(1);
    e := va.OnCommandSettled(0, Replied(Some("first")));
    e := va.OnCommandSettled(0, Replied(Some("second")));
    va.OnUtteranceSettled();
    effects := va.ClickMic();
  }

  /** Nothing stops a new recognition while a command is still being dispatched. */
  method StartWhileDispatching() returns (va: VoiceAssistant, effects: seq<Effect>)
    ensures |va.pending| == 1 && effects == [StartRecognition]
  {
    va := new VoiceAssistant(true, true, false);
    va.OnStart();
    var e := va.OnResult([["how fast am i going"]]);
    va.OnEnd();
    effects := va.ClickMic();
  }

  /** Without a recognizer the mic button only ever alerts. */
  method NoRecognizerOnlyAlerts(hasSynthesis: bool, hasOnResponse: bool) returns (va: VoiceAssistant, effects: seq<Effect>)
    ensures effects == [Alert(UnsupportedAlert)]
    ensures !va.isListening && va.command == "" && va.response == Some("") && !va.isSpeaking
  {
    va := new VoiceAssistant(false, hasSynthesis, hasOnResponse);
    effects := va.ClickMic();
  }
}
