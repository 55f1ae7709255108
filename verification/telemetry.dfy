/** The telemetry snapshot: the JSON object that `GET /obd` returns and that every push
    message carries, as both the backend and the frontend see it. */
module Telemetry {
  import opened Wrappers

  /** The metrics the backend knows about. */
  datatype Metric = Speed | Rpm | Temperature | Fuel | EngineLoad | Throttle | Battery

  /** The dictionary key under which a metric travels. */
  function MetricName(m: Metric): string
  {
    match m
    case Speed => "speed"
    case Rpm => "rpm"
    case Temperature => "temperature"
    case Fuel => "fuel"
    case EngineLoad => "engine_load"
    case Throttle => "throttle"
    case Battery => "battery"
  }

  const KnownNames: set<string> :=
    {"speed", "rpm", "temperature", "fuel", "engine_load", "throttle", "battery"}

  /** The lookup `parameter in commands` of the parameter table: a known name gives its metric. */
  function ParseMetric(name: string): (r: Option<Metric>)
    ensures r.Some? <==> name in KnownNames
    ensures r.Some? ==> MetricName(r.value) == name
  {
    if name == "speed" then Some(Speed)
    else if name == "rpm" then Some(Rpm)
    else if name == "temperature" then Some(Temperature)
    else if name == "fuel" then Some(Fuel)
    else if name == "engine_load" then Some(EngineLoad)
    else if name == "throttle" then Some(Throttle)
    else if name == "battery" then Some(Battery)
    else None
  }

  /** Every metric is reachable by its own name, so the table and the names agree. */
  lemma ParseMetricName(m: Metric)
    ensures ParseMetric(MetricName(m)) == Some(m)
    ensures MetricName(m) in KnownNames
  {
  }

  /** One `{"value": ..., "unit": ...}` entry. Values are whole numbers in this model. */
  datatype Reading = Reading(value: int, unit: string)

  /** A snapshot: the optional `connected`, `timestamp` and `error` keys and the metric
      entries present. A metric either has an entry or it has none. */
  datatype Snapshot = Snapshot(
    connected: Option<bool>,
    timestamp: Option<string>,
    error: Option<string>,
    readings: map<Metric, Reading>)

  /** The empty dictionary `{}`. */
  const EmptySnapshot := Snapshot(None, None, None, map[])

  /** The frontend's `snapshot.connected !== false`: only an explicit `false` means offline. */
  function ReportsConnected(s: Snapshot): (r: bool)
    ensures s.connected == Some(false) ==> !r
    ensures s.connected == Some(true) ==> r
    ensures s.connected == None ==> r
  {
    s.connected != Some(false)
  }

  /** A metric's value, 0 when the metric is absent: Python's
      `d.get(name, {}).get('value', 0)` and JavaScript's `d.name?.value || 0` alike. */
  function ValueOr0(s: Snapshot, m: Metric): int
  {
    if m in s.readings then s.readings[m].value else 0
  }
}
