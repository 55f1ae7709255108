/** `frontend/src/OBDMonitor.jsx`: the push-fed snapshot the component holds, the choice
    between it and the polled snapshot, and the view derived from the chosen one. The
    WebSocket itself is outside the model; a push is just "a message arrived". */
module ObdMonitor {
  import opened Wrappers
  import opened Telemetry

  /** `realTimeData || data`: a held push snapshot wins over the polled one. */
  function Displayed(realTime: Option<Snapshot>, data: Option<Snapshot>): (r: Option<Snapshot>)
    ensures realTime.Some? ==> r == realTime
    ensures realTime.None? ==> r == data
    ensures r.None? <==> realTime.None? && data.None?
  {
    if realTime.Some? then realTime else data
  }

  /** The component's state: the last pushed snapshot (initially the `data` prop it was
      mounted with). */
  class Monitor {
    var realTimeData: Option<Snapshot>

    constructor(data: Option<Snapshot>)
      ensures realTimeData == data
    {
      realTimeData := data;
    }

    /** `websocket.onmessage`: the message replaces the held snapshot wholesale, whatever
        its timestamp, and from then on hides every polled snapshot. */
    method OnMessage(msg: Snapshot)
      modifies this`realTimeData
      ensures realTimeData == Some(msg)
      ensures forall data :: Displayed(realTimeData, data) == Some(msg)
    {
      realTimeData := Some(msg);
    }
  }

  /** A gauge as drawn: the number, the unit label and the meter fill in percent. */
  datatype Gauge = Gauge(value: int, unit: string, fill: real)

  /** What the component renders: the spinner, or the panel. */
  datatype View =
    | Loading
    | Panel(live: bool, speed: Gauge, rpm: Gauge, temperature: Gauge, fuel: Gauge,
            lowFuel: bool, engineLoad: int, throttle: int, battery: Option<int>)

  const SpeedMax := 200
  const RpmMax := 8000
  const TemperatureMax := 120

  /** `Math.min(value / max * 100, 100)`, in exact arithmetic: the share of `max` in
      percent, cut off at 100 and not cut off below. */
  function CappedFill(value: int, max: int): (r: real)
    requires max > 0
    ensures r <= 100.0
    ensures value <= max ==> r * (max as real) == (value as real) * 100.0
    ensures value >= max ==> r == 100.0
    ensures value < 0 ==> r < 0.0
  {
    var share := (value as real) / (max as real) * 100.0;
    if share < 100.0 then share else 100.0
  }

  /** A larger value never draws a shorter meter. */
  lemma CappedFillMonotone(v1: int, v2: int, max: int)
    requires max > 0 && v1 <= v2
    ensures CappedFill(v1, max) <= CappedFill(v2, max)
  {
    var m := max as real;
    var d := (v2 as real) / m - (v1 as real) / m;
    assert d * m == (v2 - v1) as real;
  }

  /** `snapshot.metric?.unit || fallback`: a missing metric or an empty unit shows the
      fallback label. */
  function UnitShown(s: Snapshot, m: Metric, fallback: string): (r: string)
    ensures m !in s.readings ==> r == fallback
    ensures m in s.readings && s.readings[m].unit != "" ==> r == s.readings[m].unit
    ensures m in s.readings && s.readings[m].unit == "" ==> r == fallback
    ensures r == "" ==> fallback == ""
  {
    if m in s.readings && s.readings[m].unit != "" then s.readings[m].unit else fallback
  }

  /** The gauge for one metric with a cap. */
  function CappedGauge(s: Snapshot, m: Metric, fallback: string, max: int): Gauge
    requires max > 0
  {
    Gauge(ValueOr0(s, m), UnitShown(s, m, fallback), CappedFill(ValueOr0(s, m), max))
  }

  /** The rendered component for the chosen snapshot. */
  function Render(current: Option<Snapshot>): (v: View)
    ensures v.Loading? <==> current.None?
    ensures v.Panel? ==>
      var s := current.value;
      && (v.live <==> s.connected != Some(false))
      && v.speed.value == ValueOr0(s, Speed) && v.speed.fill <= 100.0
      && v.rpm.value == ValueOr0(s, Rpm) && v.rpm.fill <= 100.0
      && v.temperature.value == ValueOr0(s, Temperature) && v.temperature.fill <= 100.0
      && v.fuel.value == ValueOr0(s, Fuel) && v.fuel.fill == ValueOr0(s, Fuel) as real
      && v.engineLoad == ValueOr0(s, EngineLoad) && v.throttle == ValueOr0(s, Throttle)
      && (v.lowFuel <==> Fuel in s.readings && s.readings[Fuel].value < 20)
      && (v.battery.Some? <==> Battery in s.readings)
      && (v.battery.Some? ==> v.battery.value == s.readings[Battery].value)
      && v.speed.unit == UnitShown(s, Speed, "km/h") && v.speed.fill == CappedFill(v.speed.value, SpeedMax)
      && v.rpm.unit == UnitShown(s, Rpm, "rpm") && v.rpm.fill == CappedFill(v.rpm.value, RpmMax)
      && v.temperature.unit == UnitShown(s, Temperature, "°C")
      && v.temperature.fill == CappedFill(v.temperature.value, TemperatureMax)
      && v.fuel.unit == UnitShown(s, Fuel, "%")
  {
    match current
    case None => Loading
    case Some(s) =>
      Panel(
        ReportsConnected(s),
        CappedGauge(s, Speed, "km/h", SpeedMax),
        CappedGauge(s, Rpm, "rpm", RpmMax),
        CappedGauge(s, Temperature, "°C", TemperatureMax),
        Gauge(ValueOr0(s, Fuel), UnitShown(s, Fuel, "%"), ValueOr0(s, Fuel) as real),
        Fuel in s.readings && s.readings[Fuel].value < 20,
        ValueOr0(s, EngineLoad),
        ValueOr0(s, Throttle),
        if Battery in s.readings then Some(s.readings[Battery].value) else None)
  }

  /** A snapshot without metrics draws empty gauges with the default units, and no
      warning: a missing fuel level reads 0 but is not "low". */
  lemma MissingMetricsShowDefaults(s: Snapshot)
    requires s.readings == map[]
    ensures Render(Some(s)).speed == Gauge(0, "km/h", 0.0)
    ensures Render(Some(s)).rpm == Gauge(0, "rpm", 0.0)
    ensures Render(Some(s)).temperature == Gauge(0, "°C", 0.0)
    ensures Render(Some(s)).fuel == Gauge(0, "%", 0.0)
    ensures !Render(Some(s)).lowFuel && Render(Some(s)).battery.None?
  {
  }

  /** The backend's error snapshot (`connected: false`, no metrics) renders as offline,
      while a snapshot that omits `connected` renders as live. */
  lemma OnlyExplicitFalseIsOffline(s: Snapshot)
    ensures s.connected == Some(false) ==> !Render(Some(s)).live
    ensures s.connected.None? ==> Render(Some(s)).live
  {
  }

  /** Fuel is the one meter without a cap. */
  lemma FuelMeterUncapped(s: Snapshot)
    requires Fuel in s.readings && s.readings[Fuel].value > 100
    ensures Render(Some(s)).fuel.fill > 100.0
  {
  }
}
