/** The backend's voice processing (`backend/voice_processor.py`): the rule-based
    answer, the provider chain in front of it and the mapping of recognition outcomes
    to text. Speech engines and language-model clients are external; their outcomes are
    parameters. */
module VoiceProcessor {
  import opened Wrappers
  import opened Text
  import opened Telemetry
  import Config

  /** The branches of the rule-based answer, in the order they are tried. */
  datatype Intent = Greeting | SpeedQuery | RpmQuery | TemperatureQuery | FuelQuery | StatusQuery | Help

  datatype Rule = Rule(intent: Intent, keywords: seq<string>)

  /** The `if`/`elif` chain as a table: each branch with the words it looks for. */
  const Rules: seq<Rule> := [
    Rule(Greeting, ["hello", "hey", "hi"]),
    Rule(SpeedQuery, ["speed", "how fast"]),
    Rule(RpmQuery, ["rpm", "engine speed"]),
    Rule(TemperatureQuery, ["temperature", "engine temp", "hot"]),
    Rule(FuelQuery, ["fuel", "gas", "petrol"]),
    Rule(StatusQuery, ["status", "how is the car"])
  ]

  predicate Fires(r: Rule, text: string) { ContainsAny(text, r.keywords) }

  /** The intent of the first rule with a keyword in `text`, or `Help` when none has one. */
  function FirstMatch(rules: seq<Rule>, text: string): Intent
  {
    if rules == [] then Help
    else if Fires(rules[0], text) then rules[0].intent
    else FirstMatch(rules[1..], text)
  }

  /** The first rule that fires decides, whatever the later rules would say. */
  lemma {:induction false} FirstMatchPicks(rules: seq<Rule>, text: string, k: nat)
    requires k < |rules| && Fires(rules[k], text)
    requires forall j :: 0 <= j < k ==> !Fires(rules[j], text)
    ensures FirstMatch(rules, text) == rules[k].intent
  {
    if k > 0 {
      assert !Fires(rules[0], text);
      FirstMatchPicks(rules[1..], text, k - 1);
    }
  }

  /** With no rule firing, the answer falls through to `Help`. */
  lemma {:induction false} FirstMatchNone(rules: seq<Rule>, text: string)
    requires forall j :: 0 <= j < |rules| ==> !Fires(rules[j], text)
    ensures FirstMatch(rules, text) == Help
  {
    if rules != [] {
      assert !Fires(rules[0], text);
      FirstMatchNone(rules[1..], text);
    }
  }

  /** A result other than `Help` comes from a rule that fired, all earlier ones being silent. */
  lemma {:induction false} FirstMatchSource(rules: seq<Rule>, text: string)
    requires FirstMatch(rules, text) != Help
    ensures exists k :: 0 <= k < |rules| && rules[k].intent == FirstMatch(rules, text) && Fires(rules[k], text)
                        && forall j :: 0 <= j < k ==> !Fires(rules[j], text)
  {
    if !Fires(rules[0], text) {
      FirstMatchSource(rules[1..], text);
      var k :| 0 <= k < |rules[1..]| && rules[1..][k].intent == FirstMatch(rules, text) && Fires(rules[1..][k], text)
                && forall j :: 0 <= j < k ==> !Fires(rules[1..][j], text);
      assert rules[k + 1] == rules[1..][k];
      forall j | 0 <= j < k + 1 ensures !Fires(rules[j], text) {
        if j > 0 { assert rules[j] == rules[1..][j - 1]; }
      }
    }
  }

  /** The branch `fallback_response` takes: the text is lower-cased before any test. */
  function Classify(text: string): (i: Intent)
    ensures i == Help <==> forall j :: 0 <= j < |Rules| ==> !Fires(Rules[j], ToLower(text))
  {
    var t := ToLower(text);
    if forall j :: 0 <= j < |Rules| ==> !Fires(Rules[j], t) then
      FirstMatchNone(Rules, t);
      FirstMatch(Rules, t)
    else
      var i := FirstMatch(Rules, t);
      if i == Help then
        FirstMatchHelpFires(Rules, t);
        i
      else
        i
  }

  /** `Help` is the fall-through only: no rule of the table carries it. */
  lemma {:induction false} FirstMatchHelpFires(rules: seq<Rule>, text: string)
    requires forall j :: 0 <= j < |rules| ==> rules[j].intent != Help
    requires FirstMatch(rules, text) == Help
    ensures forall j :: 0 <= j < |rules| ==> !Fires(rules[j], text)
  {
    if rules != [] {
      assert rules[0].intent != Help;
      FirstMatchHelpFires(rules[1..], text);
      forall j | 0 < j < |rules| ensures !Fires(rules[j], text) {
        assert rules[j] == rules[1..][j - 1];
      }
    }
  }

  const GreetingReply := "Hello! I'm your car assistant. How can I help?"
  const HelpReply := "I can help with speed, RPM, temperature, fuel level, or overall car status."

  /** `fallback_response(text, obd_data)`: the sentence of the branch the lower-cased
      text selects, with the snapshot's values in it; never empty, so a caller always has
      something to say. */
  function FallbackResponse(text: string, d: Snapshot): (r: string)
    ensures |r| > 0
    ensures Classify(text) == Help ==> r == HelpReply
    ensures Classify(text) == Greeting ==> r == GreetingReply
    ensures Classify(text) == SpeedQuery ==>
              r == "Current speed is " + IntToString(ValueOr0(d, Speed)) + " km/h."
    ensures Classify(text) == RpmQuery ==>
              r == "Engine RPM is " + IntToString(ValueOr0(d, Rpm)) + "."
    ensures Classify(text) == TemperatureQuery ==>
              r == "Engine temperature is " + IntToString(ValueOr0(d, Temperature)) + "°C."
    ensures Classify(text) == FuelQuery ==>
              r == "Fuel level is " + IntToString(ValueOr0(d, Fuel)) + "%."
    ensures Classify(text) == StatusQuery ==>
              r == "Car status: Speed " + IntToString(ValueOr0(d, Speed))
                   + " km/h, RPM " + IntToString(ValueOr0(d, Rpm))
                   + ", Temperature " + IntToString(ValueOr0(d, Temperature))
                   + "°C, Fuel " + IntToString(ValueOr0(d, Fuel)) + "%."
  {
    match Classify(text)
    case Greeting => GreetingReply
    case SpeedQuery => "Current speed is " + IntToString(ValueOr0(d, Speed)) + " km/h."
    case RpmQuery => "Engine RPM is " + IntToString(ValueOr0(d, Rpm)) + "."
    case TemperatureQuery => "Engine temperature is " + IntToString(ValueOr0(d, Temperature)) + "°C."
    case FuelQuery => "Fuel level is " + IntToString(ValueOr0(d, Fuel)) + "%."
    case StatusQuery =>
      "Car status: Speed " + IntToString(ValueOr0(d, Speed))
      + " km/h, RPM " + IntToString(ValueOr0(d, Rpm))
      + ", Temperature " + IntToString(ValueOr0(d, Temperature))
      + "°C, Fuel " + IntToString(ValueOr0(d, Fuel)) + "%."
    case Help => HelpReply
  }

  /** Letter case does not matter: lower-casing the request first changes nothing. */
  lemma FallbackIgnoresCase(text: string, d: Snapshot)
    ensures FallbackResponse(ToLower(text), d) == FallbackResponse(text, d)
  {
    ToLowerIdempotent(text);
  }

  /** The table is read in order: the first rule with a keyword in the lower-cased text
      decides the intent, whatever the later rules would say. */
  lemma ClassifyPicks(text: string, k: nat)
    requires k < |Rules| && Fires(Rules[k], ToLower(text))
    requires forall j :: 0 <= j < k ==> !Fires(Rules[j], ToLower(text))
    ensures Classify(text) == Rules[k].intent
  {
    FirstMatchPicks(Rules, ToLower(text), k);
  }

  /** A greeting word anywhere, even inside another word, wins over every other rule. */
  lemma GreetingShadowsAll(text: string)
    requires ContainsAny(ToLower(text), ["hello", "hey", "hi"])
    ensures Classify(text) == Greeting
  {
    FirstMatchPicks(Rules, ToLower(text), 0);
  }

  /** "this" greets, through the "hi" inside it. */
  lemma ThisGreets()
    ensures Classify("this") == Greeting
  {
    assert ToLower("this") == "this";
    assert OccursAt("this", "hi", 1);
    ContainsAt("this", "hi", 1);
    assert ["hello", "hey", "hi"][2] == "hi";
    GreetingShadowsAll("this");
  }

  /** The sample request "Is everything okay with the car?" is answered with the greeting,
      through the "hi" inside "everything". */
  lemma EverythingOkayGreets(d: Snapshot)
    ensures FallbackResponse("Is everything okay with the car?", d) == GreetingReply
  {
    var t := "Is everything okay with the car?";
    var lower := ToLower(t);
    assert t[9] == 'h' && t[10] == 'i';
    assert lower[9] == 'h' && lower[10] == 'i';
    assert lower[9..11] == "hi";
    assert OccursAt(lower, "hi", 9);
    ContainsAt(lower, "hi", 9);
    assert ["hello", "hey", "hi"][2] == "hi";
    GreetingShadowsAll(t);
  }

  /** The rpm keyword "engine speed" never decides: any text containing it also contains
      "speed", which an earlier rule claims. So an rpm answer needs "rpm" itself. */
  lemma RpmNeedsRpm(text: string)
    requires Classify(text) == RpmQuery
    ensures Contains(ToLower(text), "rpm")
  {
    var t := ToLower(text);
    FirstMatchSource(Rules, t);
    var k :| 0 <= k < |Rules| && Rules[k].intent == RpmQuery && Fires(Rules[k], t)
             && forall j :: 0 <= j < k ==> !Fires(Rules[j], t);
    assert k == 2;
    assert Rules[1].keywords[0] == "speed";
    assert !Contains(t, "speed");
    assert "engine speed"[7..12] == "speed";
    ContainsAt("engine speed", "speed", 7);
    ContainsTransitive(t, "engine speed", "speed");
    var w :| 0 <= w < 2 && Contains(t, Rules[2].keywords[w]);
    assert w == 0;
  }

  /** Speed is always announced in km/h, whatever unit the snapshot carries. */
  lemma SpeedAnswersSayKmh(text: string, d: Snapshot)
    requires Classify(text) == SpeedQuery || Classify(text) == StatusQuery
    ensures Contains(FallbackResponse(text, d), "km/h")
  {
    var speed := IntToString(ValueOr0(d, Speed));
    var rpm := IntToString(ValueOr0(d, Rpm));
    var temp := IntToString(ValueOr0(d, Temperature));
    var fuel := IntToString(ValueOr0(d, Fuel));
    if Classify(text) == SpeedQuery {
      var k := " km/h.";
      assert k[1..5] == "km/h";
      ContainsAt(k, "km/h", 1);
      ContainsExtend(k, "km/h", "Current speed is " + speed, "");
    } else {
      var k := " km/h, RPM ";
      assert k[1..5] == "km/h";
      ContainsAt(k, "km/h", 1);
      var x := "Car status: Speed " + speed;
      ContainsExtend(k, "km/h", x, "");
      x := x + k;
      ContainsExtend(x, "km/h", "", rpm);
      x := x + rpm;
      ContainsExtend(x, "km/h", "", ", Temperature ");
      x := x + ", Temperature ";
      ContainsExtend(x, "km/h", "", temp);
      x := x + temp;
      ContainsExtend(x, "km/h", "", "°C, Fuel ");
      x := x + "°C, Fuel ";
      ContainsExtend(x, "km/h", "", fuel);
      x := x + fuel;
      ContainsExtend(x, "km/h", "", "%.");
      x := x + "%.";
      assert FallbackResponse(text, d) == x;
    }
  }

  /** A metric missing from the snapshot is reported as 0, in every branch that names it. */
  lemma MissingMetricReadsZero(text: string, d: Snapshot)
    ensures Speed !in d.readings && Classify(text) == SpeedQuery ==>
              FallbackResponse(text, d) == "Current speed is 0 km/h."
    ensures Rpm !in d.readings && Classify(text) == RpmQuery ==>
              FallbackResponse(text, d) == "Engine RPM is 0."
    ensures Temperature !in d.readings && Classify(text) == TemperatureQuery ==>
              FallbackResponse(text, d) == "Engine temperature is 0°C."
    ensures Fuel !in d.readings && Classify(text) == FuelQuery ==>
              FallbackResponse(text, d) == "Fuel level is 0%."
  {
    var z := IntToString(0);
    assert z == "0";
    match Classify(text)
    case SpeedQuery =>
      assert "Current speed is " + z + " km/h." == "Current speed is 0 km/h.";
    case RpmQuery =>
      assert "Engine RPM is " + z + "." == "Engine RPM is 0.";
    case TemperatureQuery =>
      assert "Engine temperature is " + z + "°C." == "Engine temperature is 0°C.";
    case FuelQuery =>
      assert "Fuel level is " + z + "%." == "Fuel level is 0%.";
    case _ =>
  }

  /** A status question on a snapshot without metrics reports every value as 0. */
  lemma EmptySnapshotStatusReadsZero(text: string, d: Snapshot)
    requires d.readings == map[] && Classify(text) == StatusQuery
    ensures FallbackResponse(text, d) == "Car status: Speed 0 km/h, RPM 0, Temperature 0°C, Fuel 0%."
  {
    var z := IntToString(0);
    assert z == "0";
    assert ValueOr0(d, Speed) == ValueOr0(d, Rpm) == ValueOr0(d, Temperature) == ValueOr0(d, Fuel) == 0;
    ZeroStatusSentence(z);
  }

  /** The status sentence with every value written as "0", built up piece by piece. */
  lemma ZeroStatusSentence(z: string)
    requires z == "0"
    ensures "Car status: Speed " + z + " km/h, RPM " + z + ", Temperature " + z + "°C, Fuel " + z + "%."
         == "Car status: Speed 0 km/h, RPM 0, Temperature 0°C, Fuel 0%."
  {
    assert "Car status: Speed " + z == "Car status: Speed 0";
    assert "Car status: Speed 0" + " km/h, RPM " == "Car status: Speed 0 km/h, RPM ";
    assert "Car status: Speed 0 km/h, RPM " + z == "Car status: Speed 0 km/h, RPM 0";
    assert "Car status: Speed 0 km/h, RPM 0" + ", Temperature " == "Car status: Speed 0 km/h, RPM 0, Temperature ";
    assert "Car status: Speed 0 km/h, RPM 0, Temperature " + z == "Car status: Speed 0 km/h, RPM 0, Temperature 0";
    assert "Car status: Speed 0 km/h, RPM 0, Temperature 0" + "°C, Fuel "
        == "Car status: Speed 0 km/h, RPM 0, Temperature 0°C, Fuel ";
    assert "Car status: Speed 0 km/h, RPM 0, Temperature 0°C, Fuel " + z
        == "Car status: Speed 0 km/h, RPM 0, Temperature 0°C, Fuel 0";
  }

  // ---------------------------------------------------------------- provider chain

  /** What a language-model call gives when it is made: its text, or an exception. */
  datatype ProviderOutcome = Completed(text: string) | Failed(message: string)

  /** Python truthiness of an optional API key: present and non-empty. */
  predicate KeySet(key: Option<string>) { key.Some? && key.value != "" }

  /** `process_with_ai`: OpenAI when its key is set, then Gemini when its key is set; a
      provider that raises is passed over, and the rule-based answer is the last resort.
      A provider's text is returned stripped. */
  function ProcessWithAi(text: string, d: Snapshot, cfg: Config.Settings,
                         openai: ProviderOutcome, gemini: ProviderOutcome): (r: string)
    ensures KeySet(cfg.openaiApiKey) && openai.Completed? ==> r == Strip(openai.text)
    ensures (!KeySet(cfg.openaiApiKey) || openai.Failed?) && KeySet(cfg.googleApiKey) && gemini.Completed? ==>
              r == Strip(gemini.text)
    ensures (!KeySet(cfg.openaiApiKey) || openai.Failed?) && (!KeySet(cfg.googleApiKey) || gemini.Failed?) ==>
              r == FallbackResponse(text, d)
  {
    if KeySet(cfg.openaiApiKey) && openai.Completed? then Strip(openai.text)
    else if KeySet(cfg.googleApiKey) && gemini.Completed? then Strip(gemini.text)
    else FallbackResponse(text, d)
  }

  /** A provider that raises behaves exactly as if its key were unset. */
  lemma FailingOpenAiIsSkipped(text: string, d: Snapshot, cfg: Config.Settings, msg: string, gemini: ProviderOutcome)
    ensures ProcessWithAi(text, d, cfg, Failed(msg), gemini)
         == ProcessWithAi(text, d, cfg.(openaiApiKey := None), Failed(msg), gemini)
  {
  }

  /** Only a provider can make the answer empty, by replying with blank text. */
  lemma EmptyAnswerComesFromProvider(text: string, d: Snapshot, cfg: Config.Settings,
                                     openai: ProviderOutcome, gemini: ProviderOutcome)
    requires ProcessWithAi(text, d, cfg, openai, gemini) == ""
    ensures (KeySet(cfg.openaiApiKey) && openai.Completed? && AllSpace(openai.text))
         || (KeySet(cfg.googleApiKey) && gemini.Completed? && AllSpace(gemini.text))
  {
  }

  // ---------------------------------------------------------------- listening

  /** What one attempt gives. `Recognized`: capture and recognition both succeeded.
      `NotUnderstood`: the audio was captured but recognition raised; any exception there
      is swallowed, so this covers them all. `TimedOut`: capturing the audio raised the
      wait-timeout error. `ListenRaised`: capturing the audio raised another exception,
      with its text. */
  datatype ListenOutcome = Recognized(text: string) | NotUnderstood | TimedOut | ListenRaised(message: string)

  const NotUnderstoodReply := "Sorry, I couldn't understand that."
  const NoSpeechReply := "No speech detected."

  /** `listen`: recognised text lower-cased, otherwise a fixed message per failure. */
  function Listen(o: ListenOutcome): (r: string)
    ensures o.Recognized? ==> r == ToLower(o.text) && NoUpper(r)
    ensures o == NotUnderstood ==> r == NotUnderstoodReply
    ensures o == TimedOut ==> r == NoSpeechReply
    ensures o.ListenRaised? ==> r == "Error: " + o.message
  {
    ToLowerIdempotent(if o.Recognized? then o.text else "");
    match o
    case Recognized(t) => ToLower(t)
    case NotUnderstood => NotUnderstoodReply
    case TimedOut => NoSpeechReply
    case ListenRaised(msg) => "Error: " + msg
  }

  /** Recognised text is always lower-case while every failure message starts with a
      capital, so the caller can tell the outcomes apart from the text alone. */
  lemma ListenFailuresAreCapitalised(o: ListenOutcome)
    ensures o.Recognized? <==> NoUpper(Listen(o))
  {
    var r := Listen(o);
    if !o.Recognized? {
      assert IsUpper(r[0]);
    }
  }
}
