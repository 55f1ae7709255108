/** The OBD-II service (`backend/obd_service.py`): the connection flag, the full snapshot
    and single-parameter reads. The adapter is an oracle: within one request it answers
    each metric's query with a response whose value and unit may each be absent, or it
    raises. */
module Obd {
  import opened Wrappers
  import opened Telemetry

  /** What `connection.query(cmd)` gives: a response, or an exception with its text. */
  datatype Query = Answer(magnitude: Option<int>, unit: Option<string>) | Raised(message: string)

  type Adapter = Metric -> Query

  /** What opening the adapter gives: its own `is_connected()` report, or an exception. */
  datatype ConnectOutcome = Reports(connected: bool) | ConnectRaised

  const NotConnectedError := "OBD not connected"

  /** The metrics `get_all_data` queries, in the order it queries them (no battery). */
  const Polled: seq<Metric> := [Speed, Rpm, Temperature, Fuel, EngineLoad, Throttle]

  /** Each metric's position in `Polled`; battery, which is not polled, comes last. */
  function PollIndex(m: Metric): (i: nat)
    ensures i < |Polled| <==> m != Battery
    ensures i < |Polled| ==> Polled[i] == m
  {
    match m
    case Speed => 0
    case Rpm => 1
    case Temperature => 2
    case Fuel => 3
    case EngineLoad => 4
    case Throttle => 5
    case Battery => 6
  }

  /** Every metric but the battery is polled, and each exactly once. */
  lemma PolledOnce()
    ensures forall j :: 0 <= j < |Polled| ==> PollIndex(Polled[j]) == j
    ensures forall m :: m in Polled <==> m != Battery
  {
    assert forall m :: m != Battery ==> Polled[PollIndex(m)] == m;
  }

  /** `str(unit) if unit else default`: an absent or empty unit falls back to the default. */
  function UnitOr(unit: Option<string>, default: string): (r: string)
    ensures unit.Some? && unit.value != "" ==> r == unit.value
    ensures unit.None? || unit.value == "" ==> r == default
  {
    if unit.Some? && unit.value != "" then unit.value else default
  }

  /** The entry `get_all_data` stores for a metric that answered: speed and temperature
      keep the adapter's unit when it has one, the others have a fixed unit. */
  function Entry(m: Metric, q: Query): (r: Reading)
    requires m != Battery && q.Answer?
    ensures r.value == q.magnitude.UnwrapOr(0)
    ensures m == Speed ==> r.unit == UnitOr(q.unit, "km/h")
    ensures m == Temperature ==> r.unit == UnitOr(q.unit, "°C")
    ensures m == Rpm ==> r.unit == "rpm"
    ensures m == Fuel || m == EngineLoad || m == Throttle ==> r.unit == "%"
  {
    Reading(q.magnitude.UnwrapOr(0),
      match m
      case Speed => UnitOr(q.unit, "km/h")
      case Temperature => UnitOr(q.unit, "°C")
      case Rpm => "rpm"
      case _ => "%")
  }

  /** Where the sequence of queries from position `from` on stops: the first metric whose
      query raises, or `|Polled|` when none does. */
  function FailureIndex(adapter: Adapter, from: nat): (i: nat)
    requires from <= |Polled|
    ensures from <= i <= |Polled|
    ensures forall j :: from <= j < i ==> adapter(Polled[j]).Answer?
    ensures i < |Polled| ==> adapter(Polled[i]).Raised?
    decreases |Polled| - from
  {
    if from == |Polled| || adapter(Polled[from]).Raised? then from
    else FailureIndex(adapter, from + 1)
  }

  /** The entries for the first `n` polled metrics, all of which answered. */
  function ReadingsUpTo(adapter: Adapter, n: nat): (r: map<Metric, Reading>)
    requires n <= |Polled|
    requires forall j :: 0 <= j < n ==> adapter(Polled[j]).Answer?
    ensures r.Keys == set j | 0 <= j < n :: Polled[j]
  {
    if n == 0 then map[]
    else
      var r := ReadingsUpTo(adapter, n - 1)[Polled[n - 1] := Entry(Polled[n - 1], adapter(Polled[n - 1]))];
      assert r.Keys == (set j | 0 <= j < n - 1 :: Polled[j]) + {Polled[n - 1]};
      r
  }

  /** The entry for the metric at position `j` is built from that metric's own answer:
      a later query never overwrites an earlier metric's entry. */
  lemma {:induction false} ReadingsUpToEntry(adapter: Adapter, n: nat, j: nat)
    requires j < n <= |Polled|
    requires forall i :: 0 <= i < n ==> adapter(Polled[i]).Answer?
    ensures ReadingsUpTo(adapter, n)[Polled[j]] == Entry(Polled[j], adapter(Polled[j]))
    decreases n
  {
    if j < n - 1 {
      PolledOnce();
      assert Polled[j] != Polled[n - 1];
      ReadingsUpToEntry(adapter, n - 1, j);
    }
  }

  /** All of the first `n` entries at once. */
  lemma ReadingsUpToEntries(adapter: Adapter, n: nat)
    requires n <= |Polled|
    requires forall j :: 0 <= j < n ==> adapter(Polled[j]).Answer?
    ensures forall j :: 0 <= j < n ==>
              ReadingsUpTo(adapter, n)[Polled[j]] == Entry(Polled[j], adapter(Polled[j]))
  {
    forall j | 0 <= j < n
      ensures ReadingsUpTo(adapter, n)[Polled[j]] == Entry(Polled[j], adapter(Polled[j]))
    {
      ReadingsUpToEntry(adapter, n, j);
    }
  }

  /** The dictionary `get_all_data` returns. */
  function AllData(connected: bool, adapter: Adapter, now: string): (r: Snapshot)
    ensures !connected ==> r == Snapshot(Some(false), None, Some(NotConnectedError), map[])
    ensures connected ==> r.connected == Some(true) && r.timestamp == Some(now)
    ensures connected ==>
              var k := FailureIndex(adapter, 0);
              && r.readings == ReadingsUpTo(adapter, k)
              && r.error == (if k < |Polled| then Some(adapter(Polled[k]).message) else None)
    ensures Battery !in r.readings
  {
    if !connected then
      Snapshot(Some(false), None, Some(NotConnectedError), map[])
    else
      var k := FailureIndex(adapter, 0);
      var readings := ReadingsUpTo(adapter, k);
      assert Battery !in readings by { PolledOnce(); }
      Snapshot(Some(true), Some(now),
        if k < |Polled| then Some(adapter(Polled[k]).message) else None,
        readings)
  }

  /** When every query answers, the snapshot is complete: exactly the six polled metrics,
      no error, with the fixed units for rpm, fuel, engine load and throttle. */
  lemma AllDataComplete(adapter: Adapter, now: string)
    requires forall m :: m in Polled ==> adapter(m).Answer?
    ensures AllData(true, adapter, now).error.None?
    ensures AllData(true, adapter, now).readings.Keys == {Speed, Rpm, Temperature, Fuel, EngineLoad, Throttle}
    ensures AllData(true, adapter, now).readings[Rpm].unit == "rpm"
    ensures AllData(true, adapter, now).readings[Fuel].unit == "%"
    ensures AllData(true, adapter, now).readings[EngineLoad].unit == "%"
    ensures AllData(true, adapter, now).readings[Throttle].unit == "%"
  {
    var k := FailureIndex(adapter, 0);
    assert k == |Polled|;
    ReadingsUpToEntry(adapter, k, 1);
    ReadingsUpToEntry(adapter, k, 3);
    ReadingsUpToEntry(adapter, k, 4);
    ReadingsUpToEntry(adapter, k, 5);
    var keys := set j | 0 <= j < k :: Polled[j];
    forall m | m != Battery
      ensures m in keys
    {
      assert Polled[PollIndex(m)] == m;
    }
    PolledOnce();
    assert keys == {Speed, Rpm, Temperature, Fuel, EngineLoad, Throttle};
  }

  /** When the query at position `k` is the first to raise, the snapshot keeps the `k`
      entries gathered before it and carries that exception's text as its error. */
  lemma AllDataPartial(adapter: Adapter, now: string, k: nat)
    requires k < |Polled| && adapter(Polled[k]).Raised?
    requires forall j :: 0 <= j < k ==> adapter(Polled[j]).Answer?
    ensures AllData(true, adapter, now).error == Some(adapter(Polled[k]).message)
    ensures AllData(true, adapter, now).readings.Keys == set j | 0 <= j < k :: Polled[j]
  {
    StopsAt(adapter, k);
  }

  /** The first position that raises is unique. */
  lemma StopsAt(adapter: Adapter, k: nat)
    requires k <= |Polled|
    requires forall j :: 0 <= j < k ==> adapter(Polled[j]).Answer?
    requires k < |Polled| ==> adapter(Polled[k]).Raised?
    ensures FailureIndex(adapter, 0) == k
  {
  }

  /** One block of `get_all_data`: query the metric at position `n` and either store its
      entry or record the exception's text and stop. */
  method QueryInto(adapter: Adapter, now: string, n: nat, data: Snapshot) returns (next: Snapshot, stopped: bool)
    requires n < |Polled|
    requires forall j :: 0 <= j < n ==> adapter(Polled[j]).Answer?
    requires data == Snapshot(Some(true), Some(now), None, ReadingsUpTo(adapter, n))
    ensures stopped <==> adapter(Polled[n]).Raised?
    ensures stopped ==> FailureIndex(adapter, 0) == n
    ensures stopped ==> next == data.(error := Some(adapter(Polled[n]).message))
    ensures stopped ==> next == AllData(true, adapter, now)
    ensures !stopped ==> forall j :: 0 <= j < n + 1 ==> adapter(Polled[j]).Answer?
    ensures !stopped ==> next == data.(readings := ReadingsUpTo(adapter, n + 1))
  {
    var q := adapter(Polled[n]);
    if q.Raised? {
      StopsAt(adapter, n);
      return data.(error := Some(q.message)), true;
    }
    next := data.(readings := data.readings[Polled[n] := Entry(Polled[n], q)]);
    stopped := false;
  }

  /** The reply of `get_specific_data`: a dictionary with some of these keys. */
  datatype ParamReply = ParamReply(
    value: Option<int>,
    unit: Option<string>,
    connected: Option<bool>,
    error: Option<string>)

  class ObdService {
    var isConnected: bool
    var lastData: Snapshot

    /** `__init__`: an empty `last_data`, then one connection attempt. */
    constructor(outcome: ConnectOutcome)
      ensures isConnected <==> outcome == Reports(true)
      ensures lastData == EmptySnapshot
    {
      lastData := EmptySnapshot;
      isConnected := false;
      new;
      Connect(outcome);
    }

    /** The flag follows the adapter's report; an exception leaves it false. */
    method Connect(outcome: ConnectOutcome)
      modifies this`isConnected
      ensures isConnected <==> outcome == Reports(true)
    {
      match outcome
      case Reports(c) => isConnected := c;
      case ConnectRaised => isConnected := false;
    }

    /** `get_all_data`: queries the six metrics in order and stops at the first exception;
        `last_data` is replaced only by a snapshot that completed without one. */
    method GetAllData(adapter: Adapter, now: string) returns (data: Snapshot)
      modifies this`lastData
      ensures data == AllData(isConnected, adapter, now)
      ensures lastData == if isConnected && data.error.None? then data else old(lastData)
    {
      if !isConnected {
        return Snapshot(Some(false), None, Some(NotConnectedError), map[]);
      }
      data := Snapshot(Some(true), Some(now), None, map[]);
      var stopped := false;
      data, stopped := QueryInto(adapter, now, 0, data);
      if stopped { return; }
      data, stopped := QueryInto(adapter, now, 1, data);
      if stopped { return; }
      data, stopped := QueryInto(adapter, now, 2, data);
      if stopped { return; }
      data, stopped := QueryInto(adapter, now, 3, data);
      if stopped { return; }
      data, stopped := QueryInto(adapter, now, 4, data);
      if stopped { return; }
      data, stopped := QueryInto(adapter, now, 5, data);
      if stopped { return; }
      StopsAt(adapter, 6);
      lastData := data;
    }

    /** `get_specific_data`: the name is checked first, then the connection, and only then
        is the adapter queried. */
    function GetSpecificData(parameter: string, adapter: Adapter): (r: ParamReply)
      reads this
      ensures ParseMetric(parameter).None? ==>
                r == ParamReply(None, None, None, Some("Unknown parameter: " + parameter))
      ensures ParseMetric(parameter).Some? && !isConnected ==>
                r == ParamReply(None, None, Some(false), Some(NotConnectedError))
      ensures r.error.None? <==>
                ParseMetric(parameter).Some? && isConnected && adapter(ParseMetric(parameter).value).Answer?
      ensures r.connected == Some(true) <==> r.error.None?
      ensures ParseMetric(parameter).Some? && isConnected && adapter(ParseMetric(parameter).value).Raised? ==>
                r == ParamReply(None, None, Some(false), Some(adapter(ParseMetric(parameter).value).message))
      ensures r.error.None? ==>
                && r.value == Some(adapter(ParseMetric(parameter).value).magnitude.UnwrapOr(0))
                && r.unit == Some(UnitOr(adapter(ParseMetric(parameter).value).unit, ""))
    {
      match ParseMetric(parameter)
      case None => ParamReply(None, None, None, Some("Unknown parameter: " + parameter))
      case Some(m) =>
        if !isConnected then ParamReply(None, None, Some(false), Some(NotConnectedError))
        else match adapter(m)
          case Answer(v, u) => ParamReply(Some(v.UnwrapOr(0)), Some(UnitOr(u, "")), Some(true), None)
          case Raised(msg) => ParamReply(None, None, Some(false), Some(msg))
    }
  }

  /** A refused request never reaches the adapter: an unknown name, or a known one while
      disconnected, gives the same reply whatever the adapter would have said. */
  lemma RefusedRequestsIgnoreAdapter(svc: ObdService, parameter: string, a1: Adapter, a2: Adapter)
    requires ParseMetric(parameter).None? || !svc.isConnected
    ensures svc.GetSpecificData(parameter, a1) == svc.GetSpecificData(parameter, a2)
  {
  }
}
