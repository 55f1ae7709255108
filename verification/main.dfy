/** The HTTP handlers of `backend/main.py` that hold logic: the command endpoint, the
    speak endpoint and the two `/obd` delegations. The web framework, the WebSocket loop
    and the clock are outside the model; times are passed in. */
module Api {
  import opened Wrappers
  import opened Text
  import opened Telemetry
  import Obd
  import Config
  import VoiceProcessor

  datatype HttpError = HttpError(status: int, detail: string)

  const NoTextError := HttpError(400, "No text provided")

  /** The body `POST /voice/command` answers with. */
  datatype CommandReply = CommandReply(
    originalCommand: string,
    response: string,
    obdData: Snapshot,
    timestamp: string)

  /** `command_data.get("text", "").strip()` and the check that follows: a missing or
      blank text is refused with 400, anything else is passed on stripped. */
  function CommandText(field: Option<string>): (r: Result<string, HttpError>)
    ensures r.Err? <==> AllSpace(field.UnwrapOr(""))
    ensures r.Err? ==> r.error == NoTextError
    ensures r.Ok? ==> field.Some? && r.value == Strip(field.value) && r.value != ""
  {
    var text := Strip(field.UnwrapOr(""));
    if text == "" then Err(NoTextError) else Ok(text)
  }

  /** `POST /voice/command`: a refused request touches neither the OBD service nor a
      provider; an accepted one reads exactly one snapshot, hands that same snapshot to
      the provider chain and echoes it. */
  method ProcessVoiceCommand(svc: Obd.ObdService, field: Option<string>, adapter: Obd.Adapter,
                             cfg: Config.Settings, openai: VoiceProcessor.ProviderOutcome,
                             gemini: VoiceProcessor.ProviderOutcome, readTime: string, replyTime: string)
    returns (r: Result<CommandReply, HttpError>)
    modifies svc
    ensures CommandText(field).Err? ==> r == Err(NoTextError) && unchanged(svc)
    ensures CommandText(field).Ok? ==>
              && r.Ok?
              && r.value.originalCommand == CommandText(field).value
              && r.value.obdData == Obd.AllData(old(svc.isConnected), adapter, readTime)
              && r.value.response == VoiceProcessor.ProcessWithAi(
                   r.value.originalCommand, r.value.obdData, cfg, openai, gemini)
              && r.value.timestamp == replyTime
              && svc.lastData == if svc.isConnected && r.value.obdData.error.None? then r.value.obdData
                                 else old(svc.lastData)
    ensures svc.isConnected == old(svc.isConnected)
  {
    match CommandText(field)
    case Err(e) =>
      r := Err(e);
    case Ok(text) =>
      var obdData := svc.GetAllData(adapter, readTime);
      var response := VoiceProcessor.ProcessWithAi(text, obdData, cfg, openai, gemini);
      r := Ok(CommandReply(text, response, obdData, replyTime));
  }

  /** The body `POST /voice/speak` answers with. */
  datatype SpeakReply = SpeakReply(status: string, text: Option<string>)

  /** `POST /voice/speak`: the reply, paired with the text handed to the speech engine.
      Only the empty (or missing) text is refused; the text is not stripped. */
  function TextToSpeech(field: Option<string>): (r: (SpeakReply, Option<string>))
    ensures r.1.Some? <==> field.Some? && field.value != ""
    ensures r.1.Some? ==> r.1 == field && r.0 == SpeakReply("spoken", field)
    ensures r.1.None? ==> r.0 == SpeakReply("no text provided", None)
  {
    var text := field.UnwrapOr("");
    if text != "" then (SpeakReply("spoken", Some(text)), Some(text))
    else (SpeakReply("no text provided", None), None)
  }

  /** Whitespace is refused as a command but spoken as it is by the speak endpoint. */
  lemma BlankTextDiffersByEndpoint()
    ensures CommandText(Some("  ")) == Err(NoTextError)
    ensures TextToSpeech(Some("  ")) == (SpeakReply("spoken", Some("  ")), Some("  "))
  {
    assert AllSpace("  ") by {
      assert forall i :: 0 <= i < 2 ==> "  "[i] == ' ';
    }
  }

  /** `GET /obd`: the service's full snapshot; one that completed while connected also
      becomes the service's last data. */
  method GetObdData(svc: Obd.ObdService, adapter: Obd.Adapter, readTime: string) returns (data: Snapshot)
    modifies svc
    ensures data == Obd.AllData(old(svc.isConnected), adapter, readTime)
    ensures svc.isConnected == old(svc.isConnected)
    ensures svc.lastData == if svc.isConnected && data.error.None? then data else old(svc.lastData)
  {
    data := svc.GetAllData(adapter, readTime);
  }

  /** `GET /obd/{parameter}`: the service's reply, passed on unchanged. */
  function GetSpecificObdData(svc: Obd.ObdService, parameter: string, adapter: Obd.Adapter): (r: Obd.ParamReply)
    reads svc
    ensures r == svc.GetSpecificData(parameter, adapter)
    ensures ParseMetric(parameter).None? ==> r.error == Some("Unknown parameter: " + parameter)
  {
    svc.GetSpecificData(parameter, adapter)
  }
}
