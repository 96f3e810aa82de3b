/**
 * The dashboard component file: its own copy of the voltage-to-SOC table
 * and lookup, the battery card's label and colour helpers, and the
 * circular gauge's arc geometry.  Rendering is not modelled; a card is the
 * record of values it would display.
 */
module App {
  import opened Wrappers
  import opened Rounding
  import Utils
  import VrmClient

  /** The component file's copy of the lookup table. */
  const VoltageSocTable: seq<Utils.SocPoint> := [
    Utils.SocPoint(12.70, 100),
    Utils.SocPoint(12.50, 90),
    Utils.SocPoint(12.42, 80),
    Utils.SocPoint(12.32, 70),
    Utils.SocPoint(12.20, 60),
    Utils.SocPoint(12.06, 50),
    Utils.SocPoint(11.90, 40),
    Utils.SocPoint(11.75, 30),
    Utils.SocPoint(11.58, 20),
    Utils.SocPoint(11.31, 10),
    Utils.SocPoint(10.50, 0)
  ]

  /**
   * The copied for loop, from entry i on, with the interpolation written
   * inline: from every starting entry it agrees with the shared helper's loop.
   */
  function Scan(v: real, i: nat): (soc: Option<int>)
    requires i < |VoltageSocTable|
    ensures soc == Utils.Scan(v, i)
    decreases |VoltageSocTable| - i
  {
    assert VoltageSocTable == Utils.VoltageSocTable;
    if i == |VoltageSocTable| - 1 then None
    else
      var upper := VoltageSocTable[i];
      var lower := VoltageSocTable[i + 1];
      if v <= upper.voltage && v > lower.voltage then
        var ratio := (v - lower.voltage) / (upper.voltage - lower.voltage);
        var x := lower.soc as real + ratio * (upper.soc - lower.soc) as real;
        assert x == Utils.Interpolate(v, i);
        Some(MathRound(x))
      else Scan(v, i + 1)
  }

  /** The component file's voltageToSOC: the same function as the shared helper. */
  function VoltageToSoc(voltage: Option<real>): (soc: Option<int>)
    ensures soc == Utils.VoltageToSoc(voltage)
  {
    assert VoltageSocTable == Utils.VoltageSocTable;
    match voltage
    case None => None
    case Some(v) =>
      if v >= VoltageSocTable[0].voltage then Some(100)
      else if v <= VoltageSocTable[|VoltageSocTable| - 1].voltage then Some(0)
      else Scan(v, 0)
  }

  /** BatteryCard's getSOCColor: the same bands as the shared helper. */
  function SocColor(soc: Option<int>): (colour: string)
    ensures colour == Utils.SocColor(if soc.Some? then Some(soc.value as real) else None)
  {
    match soc
    case None => "#9ca3af"
    case Some(s) =>
      if s >= 80 then "#10b981"
      else if s >= 50 then "#f59e0b"
      else if s >= 20 then "#f97316"
      else "#ef4444"
  }

  /** BatteryCard's getStateLabel: the same mapping as the shared helper. */
  function StateLabel(state: Utils.JsValue): (name: string)
    ensures name == Utils.StateLabel(state)
  {
    if state == Utils.JsString("charging") || state == Utils.JsString("1") || state == Utils.JsNumber(1.0) then
      "Charging"
    else if state == Utils.JsString("discharging") || state == Utils.JsString("2") || state == Utils.JsNumber(2.0) then
      "Discharging"
    else if state == Utils.JsString("idle") || state == Utils.JsString("0") || state == Utils.JsNumber(0.0) then
      "Idle"
    else "Unknown"
  }

  const Emerald := "text-emerald-500 bg-emerald-50"
  const Rose := "text-rose-500 bg-rose-50"
  const Neutral := "text-gray-500 bg-gray-100"

  /** getStateColor: emerald for charging, rose for discharging, gray for idle and anything else. */
  function StateColor(state: Utils.JsValue): (classes: string)
    ensures classes == Emerald <==> StateLabel(state) == "Charging"
    ensures classes == Rose <==> StateLabel(state) == "Discharging"
    ensures classes == Neutral <==> StateLabel(state) == "Idle" || StateLabel(state) == "Unknown"
  {
    if state == Utils.JsString("charging") || state == Utils.JsString("1") || state == Utils.JsNumber(1.0) then
      Emerald
    else if state == Utils.JsString("discharging") || state == Utils.JsString("2") || state == Utils.JsNumber(2.0) then
      Rose
    else Neutral
  }

  // ---------------------------------------------------------------------
  // CircularGauge
  // ---------------------------------------------------------------------

  /** Math.PI; the proofs use only that it is positive. */
  const Pi: real := 3.141592653589793

  /** The stroke geometry of the gauge's foreground circle. */
  datatype Arc = Arc(radius: real, circumference: real, percent: real, offset: real)

  function Min(a: real, b: real): real {
    if a <= b then a else b
  }

  /**
   * CircularGauge's radius, circumference, filled fraction and dash
   * offset.  The fraction is 0 for a null value and value/max capped at 1
   * otherwise; the offset is the part of the circumference left unfilled.
   */
  function GaugeArc(value: Option<real>, max: real, size: real, strokeWidth: real): (arc: Arc)
    requires max != 0.0
    ensures arc.percent <= 1.0
    ensures value.None? ==> arc.percent == 0.0 && arc.offset == arc.circumference
    ensures value.Some? && value.value / max >= 1.0 ==> arc.percent == 1.0 && arc.offset == 0.0
    ensures value.Some? && value.value / max < 1.0 ==> arc.percent == value.value / max
    ensures arc.offset == arc.circumference * (1.0 - arc.percent)
  {
    var radius := (size - strokeWidth) / 2.0;
    var circumference := radius * 2.0 * Pi;
    var percent := if value.Some? then Min(value.value / max, 1.0) else 0.0;
    Arc(radius, circumference, percent, circumference - percent * circumference)
  }

  /**
   * The gauge as the battery card draws it: default max 100, size 140,
   * stroke 12, so a radius of 64; an unknown SOC leaves the circle empty.
   */
  function BatteryGauge(soc: Option<int>): (arc: Arc)
    ensures arc.radius == 64.0 && arc.circumference == 128.0 * Pi
    ensures soc.None? ==> arc.percent == 0.0 && arc.offset == arc.circumference
    ensures soc.Some? && soc.value >= 100 ==> arc.percent == 1.0 && arc.offset == 0.0
  {
    GaugeArc(if soc.Some? then Some(soc.value as real) else None, 100.0, 140.0, 12.0)
  }

  /** For a SOC percentage the arc fills soc/100 of a positive circumference. */
  lemma BatteryGaugeFill(soc: Option<int>)
    requires soc.Some? ==> 0 <= soc.value <= 100
    ensures BatteryGauge(soc).circumference == 128.0 * Pi > 0.0
    ensures BatteryGauge(soc).percent == if soc.Some? then soc.value as real / 100.0 else 0.0
    ensures 0.0 <= BatteryGauge(soc).offset <= BatteryGauge(soc).circumference
  {
    var arc := BatteryGauge(soc);
    assert arc.radius == 64.0;
    if soc.Some? {
      PercentWithinUnit(soc.value);
    }
    UnfilledWithin(arc.percent, arc.circumference);
  }

  lemma PercentWithinUnit(s: int)
    requires 0 <= s <= 100
    ensures 0.0 <= s as real / 100.0 <= 1.0
  {
  }

  lemma UnfilledWithin(p: real, c: real)
    requires 0.0 <= p <= 1.0 && c > 0.0
    ensures 0.0 <= c * (1.0 - p) <= c
  {
  }

  /** A higher SOC leaves less of the circle unfilled. */
  lemma BatteryGaugeMonotone(s1: int, s2: int)
    requires 0 <= s1 <= s2 <= 100
    ensures BatteryGauge(Some(s2)).offset <= BatteryGauge(Some(s1)).offset
  {
    BatteryGaugeFill(Some(s1));
    BatteryGaugeFill(Some(s2));
    var c := 128.0 * Pi;
    UnfilledAntitone(s1 as real / 100.0, s2 as real / 100.0, c);
  }

  lemma UnfilledAntitone(p1: real, p2: real, c: real)
    requires p1 <= p2 && c > 0.0
    ensures c * (1.0 - p2) <= c * (1.0 - p1)
  {
  }

  // ---------------------------------------------------------------------
  // BatteryCard
  // ---------------------------------------------------------------------

  /** The battery group of /api/current as the card receives it. */
  datatype BatteryProps = BatteryProps(
    soc: Option<real>, voltage: Option<real>, current: Option<real>,
    power: Option<real>, state: Utils.JsValue)

  /** The values the battery card shows. */
  datatype CardView = CardView(
    voltage: Option<real>, current: real, power: real,
    stateLabel: string, stateColor: string,
    soc: Option<int>, socColor: string, gauge: Arc)

  /** `x ?? fallback` on a possibly missing number. */
  function OrElse(x: Option<real>, fallback: real): real {
    if x.Some? then x.value else fallback
  }

  /**
   * BatteryCard: voltage defaults to null, current and power to 0 and the
   * state to 'unknown'; the gauge SOC is computed from the voltage.
   */
  function BatteryCard(battery: Option<BatteryProps>): (card: CardView)
    ensures card.voltage == (if battery.Some? then battery.value.voltage else None)
    ensures card.soc == Utils.VoltageToSoc(card.voltage)
    ensures card.current == (if battery.Some? then OrElse(battery.value.current, 0.0) else 0.0)
    ensures card.power == (if battery.Some? then OrElse(battery.value.power, 0.0) else 0.0)
    ensures var state :=
              if battery.Some? && !(battery.value.state.JsNull? || battery.value.state.JsUndefined?)
              then battery.value.state else Utils.JsString("unknown");
            card.stateLabel == StateLabel(state) && card.stateColor == StateColor(state)
    ensures battery.None? ==> card.current == 0.0 && card.power == 0.0 && card.stateLabel == "Unknown"
    ensures card.socColor == Utils.SocColor(if card.soc.Some? then Some(card.soc.value as real) else None)
    ensures card.stateColor == Emerald <==> card.stateLabel == "Charging"
    ensures card.gauge == BatteryGauge(card.soc)
    ensures 0.0 <= card.gauge.offset <= card.gauge.circumference
  {
    var voltage := if battery.Some? then battery.value.voltage else None;
    var current := if battery.Some? then OrElse(battery.value.current, 0.0) else 0.0;
    var power := if battery.Some? then OrElse(battery.value.power, 0.0) else 0.0;
    var state :=
      if battery.Some? && !(battery.value.state.JsNull? || battery.value.state.JsUndefined?)
      then battery.value.state else Utils.JsString("unknown");
    var soc := VoltageToSoc(voltage);
    BatteryGaugeFill(soc);
    CardView(voltage, current, power, StateLabel(state), StateColor(state), soc, SocColor(soc), BatteryGauge(soc))
  }

  /** The card never reads the battery's own SOC: two groups differing only there show the same. */
  lemma BatteryCardIgnoresSoc(b: BatteryProps, soc: Option<real>)
    ensures BatteryCard(Some(b)) == BatteryCard(Some(b.(soc := soc)))
  {
  }

  /**
   * A battery state the backend stored from the numeric codes 0, 1 and 2
   * reaches the card as the digit string and gets the matching label.
   */
  lemma StoredStateCodesLabelled(conv: VrmClient.Coercion)
    ensures StateLabel(Utils.JsString(VrmClient.TextOf(VrmClient.JsonInt(0), conv))) == "Idle"
    ensures StateLabel(Utils.JsString(VrmClient.TextOf(VrmClient.JsonInt(1), conv))) == "Charging"
    ensures StateLabel(Utils.JsString(VrmClient.TextOf(VrmClient.JsonInt(2), conv))) == "Discharging"
  {
    VrmClient.TextOfSmallInt();
  }
}
