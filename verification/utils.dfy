/**
 * The dashboard's display helpers: the lead-acid/AGM 12 V rest-voltage to
 * state-of-charge lookup table with piecewise-linear interpolation, the
 * battery-state label and the SOC colour.
 *
 * Voltages and SOC values are exact reals; JavaScript's Math.round is
 * modelled by Rounding.MathRound.
 */
module Utils {
  import opened Wrappers
  import opened Rounding

  /** A JavaScript value as far as the helpers distinguish it. */
  datatype JsValue = JsNull | JsUndefined | JsBool(b: bool) | JsNumber(n: real) | JsString(s: string)

  /** One entry of the lookup table: a rest voltage and the SOC percentage it stands for. */
  datatype SocPoint = SocPoint(voltage: real, soc: int)

  /** VOLTAGE_SOC_TABLE: from full (12.70 V, 100 %) down to empty (10.50 V, 0 %). */
  const VoltageSocTable: seq<SocPoint> := [
    SocPoint(12.70, 100),
    SocPoint(12.50, 90),
    SocPoint(12.42, 80),
    SocPoint(12.32, 70),
    SocPoint(12.20, 60),
    SocPoint(12.06, 50),
    SocPoint(11.90, 40),
    SocPoint(11.75, 30),
    SocPoint(11.58, 20),
    SocPoint(11.31, 10),
    SocPoint(10.50, 0)
  ]

  /** The index of the last (empty) entry; segment k runs from entry k+1 up to entry k. */
  const Last: nat := |VoltageSocTable| - 1

  /** Voltage v lies in segment k: above entry k+1 and at most entry k. */
  predicate InSegment(v: real, k: nat)
    requires k < Last
  {
    VoltageSocTable[k + 1].voltage < v <= VoltageSocTable[k].voltage
  }

  /** Entries further down the table have strictly lower voltage and strictly lower SOC. */
  lemma {:induction false} TableDescending(i: nat, j: nat)
    requires i < j <= Last
    ensures VoltageSocTable[i].voltage > VoltageSocTable[j].voltage
    ensures VoltageSocTable[i].soc > VoltageSocTable[j].soc
  {
    if j > i + 1 {
      TableDescending(i, j - 1);
    }
  }

  /** Every SOC in the table is a percentage. */
  lemma TableSocsArePercentages(k: nat)
    requires k <= Last
    ensures 0 <= VoltageSocTable[k].soc <= 100
  {
    if k > 0 {
      TableDescending(0, k);
    }
    if k < Last {
      TableDescending(k, Last);
    }
  }

  /** lower.soc + ratio * (upper.soc - lower.soc) on segment k, before rounding. */
  function Interpolate(v: real, k: nat): (x: real)
    requires k < Last
    ensures InSegment(v, k) ==> VoltageSocTable[k + 1].soc as real < x <= VoltageSocTable[k].soc as real
    ensures v == VoltageSocTable[k].voltage ==> x == VoltageSocTable[k].soc as real
  {
    var upper := VoltageSocTable[k];
    var lower := VoltageSocTable[k + 1];
    TableDescending(k, k + 1);
    var ratio := (v - lower.voltage) / (upper.voltage - lower.voltage);
    var gain := (upper.soc - lower.soc) as real;
    InterpolationBounds(v - lower.voltage, upper.voltage - lower.voltage, gain);
    lower.soc as real + ratio * gain
  }

  /** A ratio in (0, 1] scales a positive gain into (0, gain]; a ratio of 1 gives the whole gain. */
  lemma InterpolationBounds(a: real, width: real, gain: real)
    requires width > 0.0 && gain > 0.0
    ensures 0.0 < a <= width ==> 0.0 < a / width * gain <= gain
    ensures a == width ==> a / width * gain == gain
  {
    if 0.0 < a <= width {
      RatioWithinUnit(a, width);
      ScaleWithin(a / width, gain);
    }
    if a == width {
      assert a / width == 1.0;
    }
  }

  lemma RatioWithinUnit(a: real, b: real)
    requires 0.0 < a <= b
    ensures 0.0 < a / b <= 1.0
  {
  }

  lemma ScaleWithin(r: real, d: real)
    requires 0.0 < r <= 1.0 && d > 0.0
    ensures 0.0 < r * d <= d
  {
  }

  /** Within one segment the interpolation does not decrease as the voltage rises. */
  lemma InterpolateMonotone(v1: real, v2: real, k: nat)
    requires k < Last && v1 <= v2
    ensures Interpolate(v1, k) <= Interpolate(v2, k)
  {
    var upper := VoltageSocTable[k];
    var lower := VoltageSocTable[k + 1];
    TableDescending(k, k + 1);
    var width := upper.voltage - lower.voltage;
    DivideMonotone(v1 - lower.voltage, v2 - lower.voltage, width);
    MultiplyMonotone((v1 - lower.voltage) / width, (v2 - lower.voltage) / width, (upper.soc - lower.soc) as real);
  }

  lemma DivideMonotone(a: real, b: real, w: real)
    requires a <= b && w > 0.0
    ensures a / w <= b / w
  {
  }

  lemma MultiplyMonotone(a: real, b: real, d: real)
    requires a <= b && d >= 0.0
    ensures a * d <= b * d
  {
  }

  /**
   * The for loop over adjacent entries, from entry i on: the first segment
   * holding v gives the rounded interpolation; running off the end gives null.
   */
  function Scan(v: real, i: nat): (soc: Option<int>)
    requires i <= Last
    ensures soc.Some? ==>
              exists k :: i <= k < Last && InSegment(v, k) && soc.value == MathRound(Interpolate(v, k))
    ensures soc.None? ==> forall k :: i <= k < Last ==> !InSegment(v, k)
    decreases Last - i
  {
    if i == Last then None
    else if v <= VoltageSocTable[i].voltage && v > VoltageSocTable[i + 1].voltage then
      Some(MathRound(Interpolate(v, i)))
    else Scan(v, i + 1)
  }

  /** The scan from entry i reaches the segment k holding v, whatever lies between. */
  lemma {:induction false} ScanFinds(v: real, i: nat, k: nat)
    requires i <= k < Last && InSegment(v, k)
    ensures Scan(v, i) == Some(MathRound(Interpolate(v, k)))
    decreases k - i
  {
    if i < k {
      if i + 1 < k {
        TableDescending(i + 1, k);
      }
      ScanFinds(v, i + 1, k);
    }
  }

  /** Every voltage strictly between the bottom entry and entry i lies in some segment from i on. */
  lemma {:induction false} SegmentFrom(v: real, i: nat) returns (k: nat)
    requires i < Last
    requires VoltageSocTable[Last].voltage < v <= VoltageSocTable[i].voltage
    ensures i <= k < Last && InSegment(v, k)
    decreases Last - i
  {
    if v > VoltageSocTable[i + 1].voltage {
      k := i;
    } else {
      k := SegmentFrom(v, i + 1);
    }
  }

  /** Interpolation results, once rounded, stay within the two entries of their segment. */
  lemma RoundedWithinSegment(v: real, k: nat)
    requires k < Last && InSegment(v, k)
    ensures VoltageSocTable[k + 1].soc <= MathRound(Interpolate(v, k)) <= VoltageSocTable[k].soc
  {
    var lo := VoltageSocTable[k + 1].soc;
    var hi := VoltageSocTable[k].soc;
    MathRoundMonotone(lo as real, Interpolate(v, k));
    MathRoundMonotone(Interpolate(v, k), hi as real);
    MathRoundOfInteger(lo);
    MathRoundOfInteger(hi);
  }

  /** A voltage inside the table's range is always found, and its SOC is a percentage. */
  lemma ScanCovers(v: real)
    requires VoltageSocTable[Last].voltage < v < VoltageSocTable[0].voltage
    ensures Scan(v, 0).Some? && 0 <= Scan(v, 0).value <= 100
  {
    var k := SegmentFrom(v, 0);
    ScanFinds(v, 0, k);
    RoundedWithinSegment(v, k);
    TableSocsArePercentages(k);
    TableSocsArePercentages(k + 1);
  }

  /**
   * voltageToSOC.  None stands for both null and undefined.  The trailing
   * `return null` after the loop is unreachable: a number always yields a SOC.
   */
  function VoltageToSoc(voltage: Option<real>): (soc: Option<int>)
    ensures soc.Some? <==> voltage.Some?
    ensures soc.Some? ==> 0 <= soc.value <= 100
    ensures voltage.Some? && voltage.value >= 12.70 ==> soc == Some(100)
    ensures voltage.Some? && voltage.value <= 10.50 ==> soc == Some(0)
  {
    match voltage
    case None => None
    case Some(v) =>
      if v >= VoltageSocTable[0].voltage then Some(100)
      else if v <= VoltageSocTable[Last].voltage then Some(0)
      else
        ScanCovers(v);
        Scan(v, 0)
  }

  /** Inside segment k the result is Math.round of the linear interpolation, between the segment's two SOCs. */
  lemma VoltageToSocInterpolates(v: real, k: nat)
    requires k < Last && InSegment(v, k)
    ensures VoltageToSoc(Some(v)) == Some(MathRound(Interpolate(v, k)))
    ensures VoltageSocTable[k + 1].soc <= VoltageToSoc(Some(v)).value <= VoltageSocTable[k].soc
  {
    RoundedWithinSegment(v, k);
    if k + 1 < Last {
      TableDescending(k + 1, Last);
    }
    if v >= VoltageSocTable[0].voltage {
      assert k == 0;
      MathRoundOfInteger(100);
    } else {
      ScanFinds(v, 0, k);
    }
  }

  /** At a table voltage the result is exactly that entry's SOC. */
  lemma VoltageToSocAtEntry(i: nat)
    requires i <= Last
    ensures VoltageToSoc(Some(VoltageSocTable[i].voltage)) == Some(VoltageSocTable[i].soc)
  {
    if 0 < i < Last {
      TableDescending(i, i + 1);
      TableDescending(0, i);
      TableDescending(i, Last);
      VoltageToSocInterpolates(VoltageSocTable[i].voltage, i);
      MathRoundOfInteger(VoltageSocTable[i].soc);
    }
  }

  /** A higher voltage never shows a lower SOC. */
  lemma VoltageToSocMonotone(v1: real, v2: real)
    requires v1 <= v2
    ensures VoltageToSoc(Some(v1)).value <= VoltageToSoc(Some(v2)).value
  {
    if v2 < VoltageSocTable[0].voltage && v1 > VoltageSocTable[Last].voltage {
      InteriorMonotone(v1, v2);
    }
  }

  /** Monotonicity strictly inside the table's range, segment against segment. */
  lemma InteriorMonotone(v1: real, v2: real)
    requires VoltageSocTable[Last].voltage < v1 <= v2 < VoltageSocTable[0].voltage
    ensures VoltageToSoc(Some(v1)).value <= VoltageToSoc(Some(v2)).value
  {
    var k1 := SegmentFrom(v1, 0);
    var k2 := SegmentFrom(v2, 0);
    VoltageToSocInterpolates(v1, k1);
    VoltageToSocInterpolates(v2, k2);
    assert k2 <= k1 by {
      if k2 > k1 {
        TableDescending(k1 + 1, k2);
      }
    }
    assert MathRound(Interpolate(v1, k1)) <= MathRound(Interpolate(v2, k2)) by {
      if k2 == k1 {
        InterpolateMonotone(v1, v2, k1);
      } else if k2 + 1 < k1 {
        TableDescending(k2 + 1, k1);
      }
      MathRoundMonotone(Interpolate(v1, k1), Interpolate(v2, k2));
    }
  }

  /** The examples the helper is known by: the table voltages 12.50 V and 12.06 V. */
  lemma VoltageToSocExamples()
    ensures VoltageToSoc(Some(12.50)) == Some(90)
    ensures VoltageToSoc(Some(12.06)) == Some(50)
  {
    VoltageToSocAtEntry(1);
    VoltageToSocAtEntry(5);
  }

  /** Halfway between 12.50 V and 12.70 V the SOC is halfway between 90 and 100. */
  lemma VoltageToSocMidpoint()
    ensures VoltageToSoc(Some(12.60)) == Some(95)
  {
    VoltageToSocInterpolates(12.60, 0);
    assert Interpolate(12.60, 0) == 95.0;
    MathRoundOfInteger(95);
  }

  /** A typical resting voltage and a low one land in the expected bands. */
  lemma VoltageToSocBands()
    ensures 70 <= VoltageToSoc(Some(12.40)).value <= 80
    ensures 10 <= VoltageToSoc(Some(11.50)).value <= 20
  {
    VoltageToSocInterpolates(12.40, 2);
    VoltageToSocInterpolates(11.50, 8);
  }

  // ---------------------------------------------------------------------
  // Battery state label
  // ---------------------------------------------------------------------

  /** The string, digit-string and number forms of each battery state. */
  const ChargingForms: set<JsValue> := {JsString("charging"), JsString("1"), JsNumber(1.0)}
  const DischargingForms: set<JsValue> := {JsString("discharging"), JsString("2"), JsNumber(2.0)}
  const IdleForms: set<JsValue> := {JsString("idle"), JsString("0"), JsNumber(0.0)}

  /** getStateLabel: strict equality against the three forms of each state, Unknown otherwise. */
  function StateLabel(state: JsValue): (name: string)
    ensures name == "Charging" <==> state in ChargingForms
    ensures name == "Discharging" <==> state in DischargingForms
    ensures name == "Idle" <==> state in IdleForms
    ensures name == "Unknown" <==> state !in ChargingForms + DischargingForms + IdleForms
  {
    if state == JsString("charging") || state == JsString("1") || state == JsNumber(1.0) then "Charging"
    else if state == JsString("discharging") || state == JsString("2") || state == JsNumber(2.0) then "Discharging"
    else if state == JsString("idle") || state == JsString("0") || state == JsNumber(0.0) then "Idle"
    else "Unknown"
  }

  /** The recognised forms of different states never overlap, so each label has one meaning. */
  lemma StateFormsDisjoint()
    ensures ChargingForms * DischargingForms == {}
    ensures ChargingForms * IdleForms == {}
    ensures DischargingForms * IdleForms == {}
  {
    assert JsString("charging") != JsString("discharging");
  }

  // ---------------------------------------------------------------------
  // SOC colour
  // ---------------------------------------------------------------------

  const Gray := "#9ca3af"
  const Green := "#10b981"
  const Amber := "#f59e0b"
  const Orange := "#f97316"
  const Red := "#ef4444"

  /** getSOCColor: gray for null, then bands at 80, 50 and 20. */
  function SocColor(soc: Option<real>): (colour: string)
    ensures colour == Gray <==> soc.None?
    ensures colour == Green <==> soc.Some? && soc.value >= 80.0
    ensures colour == Amber <==> soc.Some? && 50.0 <= soc.value < 80.0
    ensures colour == Orange <==> soc.Some? && 20.0 <= soc.value < 50.0
    ensures colour == Red <==> soc.Some? && soc.value < 20.0
  {
    match soc
    case None => Gray
    case Some(s) =>
      if s >= 80.0 then Green
      else if s >= 50.0 then Amber
      else if s >= 20.0 then Orange
      else Red
  }

  /** How healthy a colour says the battery is: red 0, orange 1, amber 2, green 3. */
  function Health(colour: string): nat {
    if colour == Green then 3
    else if colour == Amber then 2
    else if colour == Orange then 1
    else 0
  }

  /** A higher SOC never gets a less healthy colour. */
  lemma SocColorMonotone(s1: real, s2: real)
    requires s1 <= s2
    ensures Health(SocColor(Some(s1))) <= Health(SocColor(Some(s2)))
  {
  }

  /** The SOC shown for a voltage, as an optional number. */
  function VoltageSoc(voltage: real): Option<real> {
    Some(VoltageToSoc(Some(voltage)).value as real)
  }

  /** A higher voltage never gets a less healthy colour. */
  lemma VoltageColorMonotone(v1: real, v2: real)
    requires v1 <= v2
    ensures Health(SocColor(VoltageSoc(v1))) <= Health(SocColor(VoltageSoc(v2)))
  {
    VoltageToSocMonotone(v1, v2);
    SocColorMonotone(VoltageSoc(v1).value, VoltageSoc(v2).value);
  }

  /** From 12.42 V up the colour is green; at 11.31 V and below it is red. */
  lemma VoltageColorThresholds(v: real)
    ensures v >= 12.42 ==> SocColor(VoltageSoc(v)) == Green
    ensures v <= 11.31 ==> SocColor(VoltageSoc(v)) == Red
  {
    if v >= 12.42 {
      VoltageToSocAtEntry(2);
      VoltageToSocMonotone(12.42, v);
    }
    if v <= 11.31 {
      VoltageToSocAtEntry(9);
      VoltageToSocMonotone(v, 11.31);
    }
  }
}
