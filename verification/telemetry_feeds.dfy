/** The frontend's two telemetry feeds together: `App` polls `GET /obd` and keeps
    `obdData`/`isConnected`, `OBDMonitor` keeps the last pushed snapshot, and the panel
    shows the push if there is one. A run of the page is a sequence of feed events in
    arrival order. */
module TelemetryFeeds {
  import opened Wrappers
  import opened Telemetry
  import App
  import ObdMonitor

  datatype FeedEvent = Poll(outcome: App.PollOutcome) | Push(message: Snapshot)

  /** App's two cells and the monitor's held snapshot. */
  datatype Feeds = Feeds(obdData: Option<Snapshot>, isConnected: bool, realTimeData: Option<Snapshot>)

  /** At page load nothing has been polled, the header says disconnected, and the monitor
      was mounted with App's initial `null`. */
  const Initial := Feeds(None, false, None)

  /** One event: a poll goes to App, a push to the monitor. */
  function Step(f: Feeds, e: FeedEvent): Feeds
  {
    match e
    case Poll(outcome) =>
      var (obdData, isConnected) := App.AfterPoll(f.obdData, outcome);
      f.(obdData := obdData, isConnected := isConnected)
    case Push(message) => f.(realTimeData := Some(message))
  }

  /** The state after the events, in arrival order. */
  function Replay(events: seq<FeedEvent>): Feeds
  {
    if events == [] then Initial else Step(Replay(events[..|events| - 1]), events[|events| - 1])
  }

  /** The snapshot the panel is drawn from. */
  function Chosen(f: Feeds): Option<Snapshot>
  {
    ObdMonitor.Displayed(f.realTimeData, f.obdData)
  }

  /** The last pushed snapshot, if any. */
  function LastPush(events: seq<FeedEvent>): Option<Snapshot>
  {
    if events == [] then None
    else match events[|events| - 1]
      case Push(m) => Some(m)
      case Poll(_) => LastPush(events[..|events| - 1])
  }

  /** The last body a poll returned, if any. */
  function LastBody(events: seq<FeedEvent>): Option<Snapshot>
  {
    if events == [] then None
    else match events[|events| - 1]
      case Poll(Fetched(b)) => Some(b)
      case _ => LastBody(events[..|events| - 1])
  }

  /** The verdict of the last poll: connected only if it returned a body not marked
      `connected: false`; no poll yet means disconnected. */
  function LastPollConnected(events: seq<FeedEvent>): bool
  {
    if events == [] then false
    else match events[|events| - 1]
      case Poll(Fetched(b)) => b.connected != Some(false)
      case Poll(FetchThrew) => false
      case Push(_) => LastPollConnected(events[..|events| - 1])
  }

  /** The page's state is determined by three facts about the history: the last push,
      the last polled body and the last poll's verdict. */
  lemma {:induction false} ReplayState(events: seq<FeedEvent>)
    ensures Replay(events) == Feeds(LastBody(events), LastPollConnected(events), LastPush(events))
  {
    if events != [] {
      ReplayState(events[..|events| - 1]);
    }
  }

  /** The panel shows the last push if there has been one, else the last polled body. */
  lemma ChosenSnapshot(events: seq<FeedEvent>)
    ensures Chosen(Replay(events)) == if LastPush(events).Some? then LastPush(events) else LastBody(events)
    ensures Chosen(Replay(events)).None? <==> LastPush(events).None? && LastBody(events).None?
  {
    ReplayState(events);
  }

  /** Polls after a push do not change which push is the last one. */
  lemma {:induction false} LastPushSurvivesPolls(events: seq<FeedEvent>, m: Snapshot, later: seq<FeedEvent>)
    requires forall i :: 0 <= i < |later| ==> later[i].Poll?
    ensures LastPush(events + [Push(m)] + later) == Some(m)
  {
    var all := events + [Push(m)] + later;
    if later == [] {
      assert all[|all| - 1] == Push(m);
    } else {
      var front := later[..|later| - 1];
      assert all[..|all| - 1] == events + [Push(m)] + front;
      assert all[|all| - 1] == later[|later| - 1];
      LastPushSurvivesPolls(events, m, front);
    }
  }

  /** Once a message has been pushed, polls no longer affect the panel: whatever they
      return, the panel shows the pushed snapshot. */
  lemma PushHidesLaterPolls(events: seq<FeedEvent>, m: Snapshot, later: seq<FeedEvent>)
    requires forall i :: 0 <= i < |later| ==> later[i].Poll?
    ensures Chosen(Replay(events + [Push(m)] + later)) == Some(m)
  {
    LastPushSurvivesPolls(events, m, later);
    ChosenSnapshot(events + [Push(m)] + later);
  }

  /** Of two pushes the later arrival is shown, whichever carries the later timestamp. */
  lemma LaterArrivalWins(events: seq<FeedEvent>, a: Snapshot, b: Snapshot)
    ensures Chosen(Replay(events + [Push(a), Push(b)])) == Some(b)
  {
    assert events + [Push(a), Push(b)] == (events + [Push(a)]) + [Push(b)] + [];
    PushHidesLaterPolls(events + [Push(a)], b, []);
  }

  /** The header follows polls only: a push never changes it. */
  lemma HeaderIgnoresPushes(events: seq<FeedEvent>, m: Snapshot)
    ensures Replay(events + [Push(m)]).isConnected == Replay(events).isConnected
  {
    assert (events + [Push(m)])[..|events|] == events;
  }

  /** The header and the panel can disagree: after a live push and a failed poll the
      header says disconnected while the panel is live. */
  lemma HeaderAndPanelDisagree(s: Snapshot)
    requires s.connected == Some(true)
    ensures !Replay([Push(s), Poll(App.FetchThrew)]).isConnected
    ensures Chosen(Replay([Push(s), Poll(App.FetchThrew)])) == Some(s)
    ensures ObdMonitor.Render(Chosen(Replay([Push(s), Poll(App.FetchThrew)]))).live
  {
    assert [Push(s), Poll(App.FetchThrew)][..1] == [Push(s)];
    assert [Push(s)][..0] == [];
  }
}
