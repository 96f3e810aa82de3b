/**
 * The diagnostic parser of the VRM client: it turns the vendor's list of
 * {code, rawValue} records into one reading of thirteen nullable fields,
 * and estimates the state of charge from the battery voltage when no
 * battery monitor reported it.
 */
module VrmClient {
  import opened Wrappers
  import opened Rounding

  /** A JSON rawValue as the vendor sends it. */
  datatype RawValue =
    | JsonNull
    | JsonBool(b: bool)
    | JsonInt(i: int)
    | JsonFloat(x: real)
    | JsonString(s: string)

  /**
   * One element of the records list.  `code` is None when the element has
   * no "code" key or its code is not a string; a missing "rawValue" key
   * reads as JsonNull, as item.get does.
   */
  datatype Item = NotAnObject | Entry(code: Option<string>, rawValue: RawValue)

  /**
   * The "records" entry of a payload.  NotIterable is JSON null, a number or
   * a boolean, which the for loop cannot iterate.  A list is Records of its
   * elements; a string or an object iterates as its characters or keys,
   * none of which is an object, so it is Records of that many NotAnObject
   * elements (an empty string or object gives the empty list).
   */
  datatype RecordsValue = Absent | NotIterable | Records(items: seq<Item>)

  /** A decoded diagnostics payload; `otherKeys` counts its keys other than "records". */
  datatype Payload = Payload(records: RecordsValue, otherKeys: nat)

  /** The exceptions parse_diagnostic_data lets escape. */
  datatype ParseError =
    | RecordsNotIterable   // "records" is null, a number or a boolean: iterating it raises TypeError
    | RecordNotAnObject    // item.get on a record that is not an object raises AttributeError

  /**
   * Python's float() applied to text and str() applied to a float; both are
   * outside this model and supplied by the caller.
   */
  datatype Coercion = Coercion(parseFloat: string -> Option<real>, floatText: real -> string)

  /** The thirteen measurement fields of a reading. */
  datatype Field =
    | BatterySoc | BatteryVoltage | BatteryCurrent | BatteryPower | BatteryTemperature
    | SolarPower | SolarVoltage | SolarCurrent | SolarYieldToday
    | ConsumptionPower | Temperature | Humidity | BatteryState

  /** The value of one field: every field holds a number except the battery state. */
  datatype Value = Number(x: real) | Text(s: string)

  /** The parsed dictionary; None is "unknown". */
  datatype Reading = Reading(
    batterySoc: Option<real>,
    batteryVoltage: Option<real>,
    batteryCurrent: Option<real>,
    batteryPower: Option<real>,
    batteryTemperature: Option<real>,
    solarPower: Option<real>,
    solarVoltage: Option<real>,
    solarCurrent: Option<real>,
    solarYieldToday: Option<real>,
    consumptionPower: Option<real>,
    temperature: Option<real>,
    humidity: Option<real>,
    batteryState: Option<string>)

  function NumberOf(x: Option<real>): Option<Value> {
    if x.Some? then Some(Number(x.value)) else None
  }

  /** parsed[f] */
  function Get(r: Reading, f: Field): Option<Value> {
    match f
    case BatterySoc => NumberOf(r.batterySoc)
    case BatteryVoltage => NumberOf(r.batteryVoltage)
    case BatteryCurrent => NumberOf(r.batteryCurrent)
    case BatteryPower => NumberOf(r.batteryPower)
    case BatteryTemperature => NumberOf(r.batteryTemperature)
    case SolarPower => NumberOf(r.solarPower)
    case SolarVoltage => NumberOf(r.solarVoltage)
    case SolarCurrent => NumberOf(r.solarCurrent)
    case SolarYieldToday => NumberOf(r.solarYieldToday)
    case ConsumptionPower => NumberOf(r.consumptionPower)
    case Temperature => NumberOf(r.temperature)
    case Humidity => NumberOf(r.humidity)
    case BatteryState => if r.batteryState.Some? then Some(Text(r.batteryState.value)) else None
  }

  /** parsed[f] = v: the field is set and every other field is kept. */
  function Set(r: Reading, f: Field, v: Value): (r': Reading)
    requires (f == BatteryState) == v.Text?
    ensures Get(r', f) == Some(v)
    ensures forall g :: g != f ==> Get(r', g) == Get(r, g)
  {
    match f
    case BatterySoc => r.(batterySoc := Some(v.x))
    case BatteryVoltage => r.(batteryVoltage := Some(v.x))
    case BatteryCurrent => r.(batteryCurrent := Some(v.x))
    case BatteryPower => r.(batteryPower := Some(v.x))
    case BatteryTemperature => r.(batteryTemperature := Some(v.x))
    case SolarPower => r.(solarPower := Some(v.x))
    case SolarVoltage => r.(solarVoltage := Some(v.x))
    case SolarCurrent => r.(solarCurrent := Some(v.x))
    case SolarYieldToday => r.(solarYieldToday := Some(v.x))
    case ConsumptionPower => r.(consumptionPower := Some(v.x))
    case Temperature => r.(temperature := Some(v.x))
    case Humidity => r.(humidity := Some(v.x))
    case BatteryState => r.(batteryState := Some(v.s))
  }

  /** The fresh parsed dictionary: every field unknown. */
  function AllUnknown(): (r: Reading)
    ensures forall f :: Get(r, f).None?
  {
    Reading(None, None, None, None, None, None, None, None, None, None, None, None, None)
  }

  /** The vendor code table; PVP and ScW both feed the solar power. */
  const CodeMapping: map<string, Field> := map[
    "bv" := BatteryVoltage,
    "bc" := BatteryCurrent,
    "bp" := BatteryPower,
    "SOC" := BatterySoc,
    "bst" := BatteryState,
    "PVP" := SolarPower,
    "ScV" := SolarVoltage,
    "ScI" := SolarCurrent,
    "ScW" := SolarPower,
    "YT" := SolarYieldToday,
    "tsT" := Temperature,
    "tsH" := Humidity,
    "SLI" := ConsumptionPower
  ]

  /** Only "bst" feeds the battery state, and no code feeds the battery temperature. */
  lemma CodeMappingTargets(code: string)
    requires code in CodeMapping
    ensures (CodeMapping[code] == BatteryState) == (code == "bst")
    ensures CodeMapping[code] != BatteryTemperature
  {
  }

  /**
   * float(raw); None stands for the ValueError or TypeError it raises.  It
   * fails only on null and on text float() rejects; a boolean counts as 0 or 1.
   */
  function FloatOf(raw: RawValue, conv: Coercion): (x: Option<real>)
    ensures x.None? <==> raw.JsonNull? || (raw.JsonString? && conv.parseFloat(raw.s).None?)
    ensures raw.JsonBool? ==> x == Some(if raw.b then 1.0 else 0.0)
    ensures raw.JsonInt? ==> x == Some(raw.i as real)
    ensures raw.JsonFloat? ==> x == Some(raw.x)
  {
    match raw
    case JsonNull => None
    case JsonBool(b) => Some(if b then 1.0 else 0.0)
    case JsonInt(i) => Some(i as real)
    case JsonFloat(x) => Some(x)
    case JsonString(s) => conv.parseFloat(s)
  }

  predicate AllDigits(s: string) {
    forall k :: 0 <= k < |s| ==> '0' <= s[k] <= '9'
  }

  /** The number a string of decimal digits denotes. */
  function DecimalValue(s: string): nat
    requires AllDigits(s)
  {
    if s == [] then 0
    else 10 * DecimalValue(s[..|s| - 1]) + (s[|s| - 1] as int - '0' as int)
  }

  function DigitChar(d: nat): (c: char)
    requires d < 10
    ensures '0' <= c <= '9' && c as int - '0' as int == d
  {
    ('0' as int + d) as char
  }

  /** str(n) for a natural number: its decimal digits, with no leading zero. */
  function NatToDecimal(n: nat): (t: string)
    ensures |t| > 0 && AllDigits(t) && DecimalValue(t) == n
    ensures |t| > 1 ==> t[0] != '0'
  {
    if n < 10 then [DigitChar(n)]
    else
      var prefix := NatToDecimal(n / 10);
      var t := prefix + [DigitChar(n % 10)];
      assert t[..|t| - 1] == prefix;
      t
  }

  /**
   * str(raw): text unchanged, an integer as its decimal digits after a minus
   * sign when negative, null and booleans by their Python names.
   */
  function TextOf(raw: RawValue, conv: Coercion): (t: string)
    ensures raw.JsonString? ==> t == raw.s
    ensures raw.JsonInt? && raw.i >= 0 ==> AllDigits(t) && DecimalValue(t) == raw.i
    ensures raw.JsonInt? && raw.i < 0 ==>
              |t| > 1 && t[0] == '-' && AllDigits(t[1..]) && DecimalValue(t[1..]) == -raw.i
    ensures raw.JsonNull? ==> t == "None"
    ensures raw.JsonFloat? ==> t == conv.floatText(raw.x)
  {
    match raw
    case JsonNull => "None"
    case JsonBool(b) => if b then "True" else "False"
    case JsonInt(i) => if i < 0 then "-" + NatToDecimal(-i) else NatToDecimal(i)
    case JsonFloat(x) => conv.floatText(x)
    case JsonString(s) => s
  }

  /** An integer battery state code is stored as its decimal text. */
  lemma TextOfSmallInt()
    ensures forall conv: Coercion :: TextOf(JsonInt(0), conv) == "0"
    ensures forall conv: Coercion :: TextOf(JsonInt(1), conv) == "1"
    ensures forall conv: Coercion :: TextOf(JsonInt(2), conv) == "2"
  {
  }

  /**
   * The assignment one record makes to the parsed dictionary, if any.
   * A record writes only the field its code maps to; the battery state
   * gets text and every other field a number; an unmapped code, a null
   * value and a failed float conversion write nothing.
   */
  function Write(item: Item, conv: Coercion): (w: Option<(Field, Value)>)
    ensures w.Some? ==> item.Entry? && item.code.Some? && item.code.value in CodeMapping
                        && w.value.0 == CodeMapping[item.code.value]
    ensures w.Some? ==> ((w.value.0 == BatteryState) == w.value.1.Text?)
    ensures w.None? <==>
              || item.NotAnObject?
              || item.code.None? || item.code.value !in CodeMapping
              || item.rawValue.JsonNull?
              || (item.code.value != "bst" && FloatOf(item.rawValue, conv).None?)
    ensures item.Entry? && item.code == Some("bst") && !item.rawValue.JsonNull? ==>
              w == Some((BatteryState, Text(TextOf(item.rawValue, conv))))
    ensures w.Some? && w.value.1.Number? ==> Some(w.value.1.x) == FloatOf(item.rawValue, conv)
  {
    match item
    case NotAnObject => None
    case Entry(code, raw) =>
      if code.None? || code.value !in CodeMapping || raw.JsonNull? then None
      else if code.value == "bst" then Some((BatteryState, Text(TextOf(raw, conv))))
      else
        CodeMappingTargets(code.value);
        match FloatOf(raw, conv)
        case None => None
        case Some(x) => Some((CodeMapping[code.value], Number(x)))
  }

  /**
   * One iteration of the records loop: it fails exactly on a record that is
   * not an object, and otherwise applies the record's write, if any.
   */
  function Step(r: Reading, item: Item, conv: Coercion): (next: Result<Reading, ParseError>)
    ensures next.Err? <==> item.NotAnObject?
    ensures next.Ok? ==>
              forall f :: Get(next.value, f) ==
                (if Write(item, conv).Some? && Write(item, conv).value.0 == f
                 then Some(Write(item, conv).value.1) else Get(r, f))
  {
    match item
    case NotAnObject => Err(RecordNotAnObject)
    case Entry(_, _) =>
      match Write(item, conv)
      case None => Ok(r)
      case Some(w) => Ok(Set(r, w.0, w.1))
  }

  /**
   * The value the last effective record for field f assigned, in list
   * order, or None when no record assigned f.
   */
  function LastWrite(items: seq<Item>, f: Field, conv: Coercion): (v: Option<Value>)
    ensures v.Some? ==> ((f == BatteryState) == v.value.Text?)
  {
    if items == [] then None
    else
      var w := Write(items[|items| - 1], conv);
      if w.Some? && w.value.0 == f then Some(w.value.1)
      else LastWrite(items[..|items| - 1], f, conv)
  }

  /**
   * The records loop from the fresh dictionary.  It fails exactly when some
   * record is not an object, and otherwise every field holds the value of
   * the last record that assigned it.
   */
  function Walk(items: seq<Item>, conv: Coercion): (r: Result<Reading, ParseError>)
    ensures r.Err? <==> exists i :: 0 <= i < |items| && items[i].NotAnObject?
    ensures r.Err? ==> r.error == RecordNotAnObject
    ensures r.Ok? ==> forall f :: Get(r.value, f) == LastWrite(items, f, conv)
  {
    if items == [] then Ok(AllUnknown())
    else
      var prefix := items[..|items| - 1];
      assert forall i :: 0 <= i < |prefix| ==> prefix[i] == items[i];
      match Walk(prefix, conv)
      case Err(e) => Err(e)
      case Ok(r) => Step(r, items[|items| - 1], conv)
  }

  /**
   * 12 V lead-acid resting-voltage curve: 100 % at 12.70 V and above, 0 % at
   * 11.90 V and below, linear in between and rounded to one decimal.
   */
  function EstimateSocFromVoltage(voltage: real): (soc: real)
    ensures 0.0 <= soc <= 100.0
    ensures voltage >= 12.70 ==> soc == 100.0
    ensures voltage <= 11.90 ==> soc == 0.0
    ensures 11.90 < voltage < 12.70 ==>
              -0.05 <= soc - (voltage - 11.90) / 0.80 * 100.0 <= 0.05
  {
    if voltage >= 12.70 then 100.0
    else if voltage <= 11.90 then 0.0
    else
      var linear := (voltage - 11.90) / (12.70 - 11.90) * 100.0;
      RoundTenthsMonotone(0.0, linear);
      RoundTenthsMonotone(linear, 100.0);
      RoundTenthsOfExact(0);
      RoundTenthsOfExact(1000);
      RoundTenths(linear)
  }

  lemma EstimateSocMonotone(v1: real, v2: real)
    requires v1 <= v2
    ensures EstimateSocFromVoltage(v1) <= EstimateSocFromVoltage(v2)
  {
    if 11.90 < v1 && v2 < 12.70 {
      RoundTenthsMonotone((v1 - 11.90) / 0.80 * 100.0, (v2 - 11.90) / 0.80 * 100.0);
    }
  }

  /** The post-pass: estimate the SOC from the voltage only when no SOC was read. */
  function WithSocFallback(r: Reading): (r': Reading)
    ensures r.batterySoc.Some? ==> r'.batterySoc == r.batterySoc
    ensures r.batterySoc.None? && r.batteryVoltage.Some? ==>
              r'.batterySoc == Some(EstimateSocFromVoltage(r.batteryVoltage.value))
    ensures r.batteryVoltage.None? ==> r'.batterySoc == r.batterySoc
    ensures forall f :: f != BatterySoc ==> Get(r', f) == Get(r, f)
  {
    if r.batterySoc.None? && r.batteryVoltage.Some? then
      r.(batterySoc := Some(EstimateSocFromVoltage(r.batteryVoltage.value)))
    else r
  }

  /** The reading parse_diagnostic_data returns, or the exception it raises. */
  function Parse(data: Option<Payload>, conv: Coercion): (r: Result<Reading, ParseError>)
    ensures (data.None? || data.value.records.Absent?) ==> r == Ok(AllUnknown())
    ensures r.Err? <==>
              data.Some? &&
              (|| data.value.records.NotIterable?
               || (data.value.records.Records? &&
                   exists i :: 0 <= i < |data.value.records.items| && data.value.records.items[i].NotAnObject?))
    ensures r.Ok? && data.Some? && data.value.records.Records? ==>
              var items := data.value.records.items;
              && (forall f :: f != BatterySoc ==> Get(r.value, f) == LastWrite(items, f, conv))
              && (LastWrite(items, BatterySoc, conv).Some? ==>
                    Get(r.value, BatterySoc) == LastWrite(items, BatterySoc, conv))
              && (LastWrite(items, BatterySoc, conv).None? && LastWrite(items, BatteryVoltage, conv).Some? ==>
                    r.value.batterySoc == Some(EstimateSocFromVoltage(LastWrite(items, BatteryVoltage, conv).value.x)))
              && (LastWrite(items, BatterySoc, conv).None? && LastWrite(items, BatteryVoltage, conv).None? ==>
                    r.value.batterySoc.None?)
  {
    match data
    case None => Ok(AllUnknown())
    case Some(p) =>
      match p.records
      case Absent => Ok(AllUnknown())
      case NotIterable => Err(RecordsNotIterable)
      case Records(items) =>
        match Walk(items, conv)
        case Err(e) => Err(e)
        case Ok(walked) => Ok(WithSocFallback(walked))
  }

  /** parse_diagnostic_data: the records loop, then the SOC fallback. */
  method ParseDiagnosticData(data: Option<Payload>, conv: Coercion) returns (result: Result<Reading, ParseError>)
    ensures result == Parse(data, conv)
  {
    var parsed := AllUnknown();
    if data.None? || data.value.records.Absent? {
      return Ok(parsed);
    }
    if data.value.records.NotIterable? {
      return Err(RecordsNotIterable);
    }
    var items := data.value.records.items;
    for i := 0 to |items|
      invariant Walk(items[..i], conv) == Ok(parsed)
    {
      assert items[..i + 1][..i] == items[..i];
      match items[i]
      case NotAnObject =>
        assert items[..i + 1][i] == items[i];
        return Err(RecordNotAnObject);
      case Entry(code, raw) =>
        if code.Some? && code.value in CodeMapping && !raw.JsonNull? {
          if code.value == "bst" {
            parsed := parsed.(batteryState := Some(TextOf(raw, conv)));
          } else {
            var x := FloatOf(raw, conv);
            if x.Some? {
              CodeMappingTargets(code.value);
              parsed := Set(parsed, CodeMapping[code.value], Number(x.value));
            }
          }
        }
    }
    assert items[..|items|] == items;
    if parsed.batterySoc.None? && parsed.batteryVoltage.Some? {
      parsed := parsed.(batterySoc := Some(EstimateSocFromVoltage(parsed.batteryVoltage.value)));
    }
    return Ok(parsed);
  }

  /** No code feeds battery_temperature, so it is never known after parsing. */
  lemma {:induction false} LastWriteBatteryTemperature(items: seq<Item>, conv: Coercion)
    ensures LastWrite(items, BatteryTemperature, conv).None?
  {
    if items != [] {
      var w := Write(items[|items| - 1], conv);
      if w.Some? {
        CodeMappingTargets(items[|items| - 1].code.value);
      }
      LastWriteBatteryTemperature(items[..|items| - 1], conv);
    }
  }

  lemma BatteryTemperatureAlwaysUnknown(data: Option<Payload>, conv: Coercion)
    ensures Parse(data, conv).Ok? ==> Parse(data, conv).value.batteryTemperature.None?
  {
    if data.Some? && data.value.records.Records? {
      LastWriteBatteryTemperature(data.value.records.items, conv);
      assert Get(Parse(data, conv).value, BatteryTemperature).None? <== Parse(data, conv).Ok?;
    }
  }

  /** PVP and ScW both write the solar power; the later record wins. */
  lemma SolarPowerLastRecordWins(a: real, b: real, conv: Coercion)
    ensures Parse(Some(Payload(Records([Entry(Some("PVP"), JsonFloat(a)), Entry(Some("ScW"), JsonFloat(b))]), 0)), conv)
            == Ok(AllUnknown().(solarPower := Some(b)))
    ensures Parse(Some(Payload(Records([Entry(Some("ScW"), JsonFloat(b)), Entry(Some("PVP"), JsonFloat(a))]), 0)), conv)
            == Ok(AllUnknown().(solarPower := Some(a)))
  {
    var pvp, scw := Entry(Some("PVP"), JsonFloat(a)), Entry(Some("ScW"), JsonFloat(b));
    assert Write(pvp, conv) == Some((SolarPower, Number(a)));
    assert Write(scw, conv) == Some((SolarPower, Number(b)));
    assert [pvp, scw][..1] == [pvp] && [pvp][..0] == [];
    assert Walk([pvp], conv) == Ok(AllUnknown().(solarPower := Some(a)));
    assert Walk([pvp, scw], conv) == Ok(AllUnknown().(solarPower := Some(b)));
    assert [scw, pvp][..1] == [scw] && [scw][..0] == [];
    assert Walk([scw], conv) == Ok(AllUnknown().(solarPower := Some(b)));
    assert Walk([scw, pvp], conv) == Ok(AllUnknown().(solarPower := Some(a)));
  }

  /** A voltage alone yields an estimated SOC: 12.50 V reads as 75 %. */
  lemma VoltageOnlyEstimatesSoc(conv: Coercion)
    ensures Parse(Some(Payload(Records([Entry(Some("bv"), JsonFloat(12.50))]), 0)), conv)
            == Ok(AllUnknown().(batteryVoltage := Some(12.50), batterySoc := Some(75.0)))
  {
    var bv := Entry(Some("bv"), JsonFloat(12.50));
    assert Write(bv, conv) == Some((BatteryVoltage, Number(12.50)));
    assert [bv][..0] == [];
    assert Walk([bv], conv) == Ok(AllUnknown().(batteryVoltage := Some(12.50)));
    RoundTenthsOfExact(750);
    assert EstimateSocFromVoltage(12.50) == RoundTenths(750.0 / 10.0);
  }

  /** A direct SOC record is kept even when a voltage is present. */
  lemma DirectSocNotOverridden(soc: real, voltage: real, conv: Coercion)
    ensures Parse(Some(Payload(Records([Entry(Some("SOC"), JsonFloat(soc)), Entry(Some("bv"), JsonFloat(voltage))]), 0)), conv)
            == Ok(AllUnknown().(batterySoc := Some(soc), batteryVoltage := Some(voltage)))
  {
    var s, v := Entry(Some("SOC"), JsonFloat(soc)), Entry(Some("bv"), JsonFloat(voltage));
    assert Write(s, conv) == Some((BatterySoc, Number(soc)));
    assert Write(v, conv) == Some((BatteryVoltage, Number(voltage)));
    assert [s, v][..1] == [s] && [s][..0] == [];
    assert Walk([s], conv) == Ok(AllUnknown().(batterySoc := Some(soc)));
    assert Walk([s, v], conv) == Ok(AllUnknown().(batterySoc := Some(soc), batteryVoltage := Some(voltage)));
  }

  /** A value float() rejects is skipped: the field stays unknown and no SOC is estimated. */
  lemma UnparsableValueSkipped(text: string, conv: Coercion)
    requires conv.parseFloat(text).None?
    ensures Parse(Some(Payload(Records([Entry(Some("bv"), JsonString(text))]), 1)), conv) == Ok(AllUnknown())
  {
    var bv := Entry(Some("bv"), JsonString(text));
    assert Write(bv, conv).None?;
    assert [bv][..0] == [];
    assert Walk([bv], conv) == Ok(AllUnknown());
    assert WithSocFallback(AllUnknown()) == AllUnknown();
  }
}
