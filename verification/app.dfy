/** `frontend/src/App.jsx`: the polled snapshot, the header's connection flag and the
    latest assistant response. The two-second timer is outside the model; each poll is
    an event carrying its outcome. */
module App {
  import opened Wrappers
  import opened Telemetry

  /** How one `fetch('/obd')` ended: a parsed body, or an exception (network failure or
      a body that is not JSON). */
  datatype PollOutcome = Fetched(body: Snapshot) | FetchThrew

  /** The `(obdData, isConnected)` pair after one poll. A body is taken as it is, error
      dictionaries included; an exception keeps the old body and reports disconnected. */
  function AfterPoll(obdData: Option<Snapshot>, outcome: PollOutcome): (r: (Option<Snapshot>, bool))
    ensures outcome.Fetched? ==> r.0 == Some(outcome.body)
    ensures outcome.FetchThrew? ==> r.0 == obdData && !r.1
    ensures r.1 <==> outcome.Fetched? && outcome.body.connected != Some(false)
  {
    match outcome
    case Fetched(body) => (Some(body), ReportsConnected(body))
    case FetchThrew => (obdData, false)
  }

  const ConnectedHeader := "OBD-II Connected"
  const DisconnectedHeader := "OBD-II Disconnected"

  class AppState {
    var obdData: Option<Snapshot>
    var isConnected: bool
    /** `None` stands for the JavaScript `undefined` a reply without `response` yields. */
    var latestResponse: Option<string>

    constructor()
      ensures obdData.None? && !isConnected && latestResponse == Some("")
    {
      obdData := None;
      isConnected := false;
      latestResponse := Some("");
    }

    /** `fetchOBDData`. */
    method FetchObdData(outcome: PollOutcome)
      modifies this`obdData, this`isConnected
      ensures (obdData, isConnected) == AfterPoll(old(obdData), outcome)
    {
      match outcome {
        case Fetched(body) =>
          obdData := Some(body);
          isConnected := ReportsConnected(body);
        case FetchThrew =>
          isConnected := false;
      }
    }

    /** The `onResponse` callback handed to the voice assistant. */
    method OnResponse(text: Option<string>)
      modifies this`latestResponse
      ensures latestResponse == text
    {
      latestResponse := text;
    }

    /** The header's status text. */
    function HeaderStatus(): (r: string)
      reads this
      ensures r == ConnectedHeader <==> isConnected
      ensures r == DisconnectedHeader <==> !isConnected
    {
      "OBD-II " + if isConnected then "Connected" else "Disconnected"
    }

    /** The "Latest Response" box: shown only for a non-empty text. */
    function ShownResponse(): (r: Option<string>)
      reads this
      ensures r.Some? <==> latestResponse.Some? && latestResponse.value != ""
      ensures r.Some? ==> r == latestResponse
    {
      if latestResponse.Some? && latestResponse.value != "" then latestResponse else None
    }
  }

  /** The backend's refusal body `{"error": ..., "connected": false}` is still stored as
      the polled snapshot, and the header turns to disconnected. */
  lemma ErrorBodyIsKept(obdData: Option<Snapshot>, message: string)
    ensures AfterPoll(obdData, Fetched(Snapshot(Some(false), None, Some(message), map[])))
            == (Some(Snapshot(Some(false), None, Some(message), map[])), false)
  {
  }

  /** A failed poll after a good one keeps showing the good body while the header says
      disconnected. */
  lemma FailedPollKeepsBody(body: Snapshot)
    requires body.connected == Some(true)
    ensures AfterPoll(AfterPoll(None, Fetched(body)).0, FetchThrew) == (Some(body), false)
  {
  }
}
