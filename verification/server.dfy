/**
 * The API process: the ingestion step that appends one parsed reading to
 * the store, the three read queries (current, history, stats) and the
 * guard that refuses a manual refresh when no VRM client was configured.
 *
 * The store is a class holding its rows in insertion order; the queries
 * are functions over that sequence of rows, with SQL's rules: ORDER BY
 * timestamp, MAX and AVG skip NULLs, COUNT(id) counts every row.
 */
module Server {
  import opened Wrappers
  import opened Rounding
  import VrmClient

  /** An instant in whole seconds since the Unix epoch, UTC. */
  type Instant = int

  const SecondsPerHour: int := 3600
  const SecondsPerDay: int := 86400

  /** One energy_readings row: the insertion timestamp and the thirteen measurement columns. */
  datatype Row = Row(timestamp: Instant, reading: VrmClient.Reading)

  /** The energy_readings table. */
  class ReadingStore {
    var rows: seq<Row>

    constructor ()
      ensures rows == []
    {
      rows := [];
    }

    /** db.add and db.commit of one row stamped with the current time. */
    method Add(reading: VrmClient.Reading, now: Instant)
      modifies this
      ensures rows == old(rows) + [Row(now, reading)]
    {
      rows := rows + [Row(now, reading)];
    }
  }

  // ---------------------------------------------------------------------
  // Ingestion
  // ---------------------------------------------------------------------

  /** What get_diagnostic_data produced: a decoded payload, None, or an exception. */
  datatype Fetched = FetchRaised | FetchReturned(payload: Option<VrmClient.Payload>)

  /** len() of a decoded payload: its "records" key, if present, and the others. */
  function KeyCount(p: VrmClient.Payload): nat {
    (if p.records.Absent? then 0 else 1) + p.otherKeys
  }

  /** Python truthiness of the decoded payload: None and {} are falsy. */
  predicate PayloadTruthy(p: Option<VrmClient.Payload>)
    ensures PayloadTruthy(p) <==> p.Some? && KeyCount(p.value) > 0
  {
    p.Some? && (!p.value.records.Absent? || p.value.otherKeys > 0)
  }

  /**
   * The rows one fetch_and_store_data call appends: one row equal to the
   * parser output, stamped `now`, when a truthy payload parses and the
   * commit succeeds; none otherwise.
   */
  function Ingested(fetched: Fetched, conv: VrmClient.Coercion, now: Instant, commitSucceeds: bool): (added: seq<Row>)
    ensures |added| <= 1
    ensures |added| == 1 <==>
              && fetched.FetchReturned?
              && PayloadTruthy(fetched.payload)
              && VrmClient.Parse(fetched.payload, conv).Ok?
              && commitSucceeds
    ensures |added| == 1 ==>
              added[0].timestamp == now && added[0].reading == VrmClient.Parse(fetched.payload, conv).value
  {
    if fetched.FetchReturned? && PayloadTruthy(fetched.payload) && commitSucceeds then
      match VrmClient.Parse(fetched.payload, conv)
      case Ok(parsed) => [Row(now, parsed)]
      case Err(_) => []
    else []
  }

  /** The log line a fetch_and_store_data call ends with. */
  datatype FetchOutcome = NoDiagnostics | Stored | Failed

  /**
   * fetch_and_store_data: fetch, parse and append one row.  Every exception
   * (in the fetch, the parse or the commit) is caught and ends the call
   * with no row stored; existing rows are never touched.
   */
  method FetchAndStoreData(store: ReadingStore, fetched: Fetched, conv: VrmClient.Coercion,
                           now: Instant, commitSucceeds: bool)
    returns (outcome: FetchOutcome)
    modifies store
    ensures store.rows == old(store.rows) + Ingested(fetched, conv, now, commitSucceeds)
    ensures outcome == Stored <==> |Ingested(fetched, conv, now, commitSucceeds)| == 1
    ensures outcome == NoDiagnostics <==> fetched.FetchReturned? && !PayloadTruthy(fetched.payload)
  {
    if fetched.FetchRaised? {
      return Failed;
    }
    var diagnostics := fetched.payload;
    if !PayloadTruthy(diagnostics) {
      return NoDiagnostics;
    }
    var parsed := VrmClient.ParseDiagnosticData(diagnostics, conv);
    if parsed.Err? {
      return Failed;
    }
    if !commitSucceeds {
      return Failed;
    }
    store.Add(parsed.value, now);
    return Stored;
  }

  // ---------------------------------------------------------------------
  // GET /api/current
  // ---------------------------------------------------------------------

  datatype BatteryView = BatteryView(
    soc: Option<real>, voltage: Option<real>, current: Option<real>,
    power: Option<real>, state: Option<string>)

  datatype SolarView = SolarView(
    power: Option<real>, voltage: Option<real>, current: Option<real>, yieldToday: Option<real>)

  /** The response body of /api/current: battery, solar, consumption and environment groups. */
  datatype CurrentView = CurrentView(
    timestamp: Instant,
    battery: BatteryView,
    solar: SolarView,
    consumptionPower: Option<real>,
    temperature: Option<real>,
    humidity: Option<real>)

  datatype CurrentResponse = NoDataAvailable | Current(view: CurrentView)

  /** The columns of a row put back together from a view and the one column it omits. */
  function Flatten(v: CurrentView, batteryTemperature: Option<real>): Row {
    Row(v.timestamp, VrmClient.Reading(
      v.battery.soc, v.battery.voltage, v.battery.current, v.battery.power, batteryTemperature,
      v.solar.power, v.solar.voltage, v.solar.current, v.solar.yieldToday,
      v.consumptionPower, v.temperature, v.humidity, v.battery.state))
  }

  /**
   * A row regrouped for the API.  Every value is passed through unchanged
   * and only battery_temperature is left out.
   */
  function Regroup(row: Row): (v: CurrentView)
    ensures Flatten(v, row.reading.batteryTemperature) == row
  {
    var r := row.reading;
    CurrentView(
      row.timestamp,
      BatteryView(r.batterySoc, r.batteryVoltage, r.batteryCurrent, r.batteryPower, r.batteryState),
      SolarView(r.solarPower, r.solarVoltage, r.solarCurrent, r.solarYieldToday),
      r.consumptionPower, r.temperature, r.humidity)
  }

  /** A position of a row with the greatest timestamp. */
  function LatestIndex(rows: seq<Row>): (k: nat)
    requires rows != []
    ensures k < |rows|
    ensures forall j :: 0 <= j < |rows| ==> rows[j].timestamp <= rows[k].timestamp
  {
    if |rows| == 1 then 0
    else
      var k := LatestIndex(rows[..|rows| - 1]);
      if rows[|rows| - 1].timestamp > rows[k].timestamp then |rows| - 1 else k
  }

  /** get_current_data: the latest row by timestamp, or "No data available". */
  function GetCurrentData(rows: seq<Row>): (r: CurrentResponse)
    ensures r.NoDataAvailable? <==> rows == []
    ensures r.Current? ==>
              exists k :: 0 <= k < |rows| && r.view == Regroup(rows[k]) &&
                          forall j :: 0 <= j < |rows| ==> rows[j].timestamp <= rows[k].timestamp
  {
    if rows == [] then NoDataAvailable
    else
      var k := LatestIndex(rows);
      Current(Regroup(rows[k]))
  }

  // ---------------------------------------------------------------------
  // GET /api/history
  // ---------------------------------------------------------------------

  /** One element of the /api/history list (no SOC, consumption or battery temperature). */
  datatype HistoryPoint = HistoryPoint(
    timestamp: Instant,
    batteryVoltage: Option<real>, batteryCurrent: Option<real>, batteryPower: Option<real>,
    batteryState: Option<string>,
    solarPower: Option<real>, solarVoltage: Option<real>, solarCurrent: Option<real>,
    solarYieldToday: Option<real>,
    temperature: Option<real>, humidity: Option<real>)

  /** The columns of a row put back together from a history point and the three it omits. */
  function Unproject(p: HistoryPoint, soc: Option<real>, consumption: Option<real>,
                     batteryTemperature: Option<real>): Row {
    Row(p.timestamp, VrmClient.Reading(
      soc, p.batteryVoltage, p.batteryCurrent, p.batteryPower, batteryTemperature,
      p.solarPower, p.solarVoltage, p.solarCurrent, p.solarYieldToday,
      consumption, p.temperature, p.humidity, p.batteryState))
  }

  /**
   * A row as a history point: every value passed through unchanged, with
   * the SOC, the consumption and the battery temperature left out.
   */
  function Project(row: Row): (p: HistoryPoint)
    ensures Unproject(p, row.reading.batterySoc, row.reading.consumptionPower,
                      row.reading.batteryTemperature) == row
  {
    var r := row.reading;
    HistoryPoint(row.timestamp, r.batteryVoltage, r.batteryCurrent, r.batteryPower, r.batteryState,
                 r.solarPower, r.solarVoltage, r.solarCurrent, r.solarYieldToday, r.temperature, r.humidity)
  }

  /** WHERE timestamp >= since, keeping every such row with its multiplicity. */
  function Recent(rows: seq<Row>, since: Instant): (r: seq<Row>)
    ensures forall x :: x in r <==> x in rows && x.timestamp >= since
    ensures |r| <= |rows|
  {
    if rows == [] then []
    else
      var rest := Recent(rows[1..], since);
      assert forall x :: x in rows <==> x == rows[0] || x in rows[1..];
      if rows[0].timestamp >= since then [rows[0]] + rest else rest
  }

  /** The filter keeps each qualifying row as often as the table holds it, and drops the others. */
  lemma {:induction false} RecentKeepsMultiplicity(rows: seq<Row>, since: Instant, x: Row)
    ensures multiset(Recent(rows, since))[x] == if x.timestamp >= since then multiset(rows)[x] else 0
  {
    if rows != [] {
      RecentKeepsMultiplicity(rows[1..], since, x);
      assert rows == [rows[0]] + rows[1..];
    }
  }

  function ProjectAll(rows: seq<Row>): (ps: seq<HistoryPoint>)
    ensures |ps| == |rows|
    ensures forall i :: 0 <= i < |rows| ==> ps[i] == Project(rows[i])
  {
    if rows == [] then [] else [Project(rows[0])] + ProjectAll(rows[1..])
  }

  predicate SortedByTime(ps: seq<HistoryPoint>) {
    forall i, j :: 0 <= i < j < |ps| ==> ps[i].timestamp <= ps[j].timestamp
  }

  /** Put one point into a time-ordered list. */
  function Insert(p: HistoryPoint, ps: seq<HistoryPoint>): (r: seq<HistoryPoint>)
    requires SortedByTime(ps)
    ensures SortedByTime(r)
    ensures multiset(r) == multiset(ps) + multiset{p}
    ensures r != [] && (r[0] == p || (ps != [] && r[0] == ps[0]))
  {
    if ps == [] then [p]
    else if p.timestamp <= ps[0].timestamp then
      SortedCons(p, ps);
      [p] + ps
    else
      assert SortedByTime(ps[1..]);
      var rest := Insert(p, ps[1..]);
      assert ps == [ps[0]] + ps[1..];
      SortedCons(ps[0], rest);
      [ps[0]] + rest
  }

  /** A point no later than the head of a time-ordered list can go in front of it. */
  lemma SortedCons(p: HistoryPoint, ps: seq<HistoryPoint>)
    requires SortedByTime(ps)
    requires ps != [] ==> p.timestamp <= ps[0].timestamp
    ensures SortedByTime([p] + ps)
  {
    var r := [p] + ps;
    forall i, j | 0 <= i < j < |r| ensures r[i].timestamp <= r[j].timestamp {
      if i > 0 {
        assert r[i] == ps[i - 1] && r[j] == ps[j - 1];
      } else {
        assert r[j] == ps[j - 1];
      }
    }
  }

  /** ORDER BY timestamp: a time-ordered permutation. */
  function SortByTime(ps: seq<HistoryPoint>): (r: seq<HistoryPoint>)
    ensures SortedByTime(r)
    ensures multiset(r) == multiset(ps)
  {
    if ps == [] then []
    else
      assert ps == [ps[0]] + ps[1..];
      Insert(ps[0], SortByTime(ps[1..]))
  }

  const MinHistoryHours: int := 1
  const MaxHistoryHours: int := 168

  /** The request was refused by the query validation (HTTP 422, hours outside 1..168), or the list of readings. */
  datatype HistoryResponse = InvalidHours | History(readings: seq<HistoryPoint>)

  /**
   * get_history: every row whose timestamp is at least `hours` hours before
   * `now`, each exactly once, in ascending timestamp order; no downsampling.
   */
  function GetHistory(rows: seq<Row>, hours: int, now: Instant): (r: HistoryResponse)
    ensures r.InvalidHours? <==> !(MinHistoryHours <= hours <= MaxHistoryHours)
    ensures r.History? ==> SortedByTime(r.readings)
    ensures r.History? ==>
              multiset(r.readings) == multiset(ProjectAll(Recent(rows, now - hours * SecondsPerHour)))
  {
    if !(MinHistoryHours <= hours <= MaxHistoryHours) then InvalidHours
    else History(SortByTime(ProjectAll(Recent(rows, now - hours * SecondsPerHour))))
  }

  /** The history holds exactly the projections of the rows stamped in the last `hours` hours. */
  lemma HistoryMembers(rows: seq<Row>, hours: int, now: Instant)
    requires MinHistoryHours <= hours <= MaxHistoryHours
    ensures forall p :: p in GetHistory(rows, hours, now).readings <==>
              exists i :: 0 <= i < |rows| && rows[i].timestamp >= now - hours * SecondsPerHour && p == Project(rows[i])
  {
    var since := now - hours * SecondsPerHour;
    var points := GetHistory(rows, hours, now).readings;
    var recent := Recent(rows, since);
    var projected := ProjectAll(recent);
    forall p | p in points
      ensures exists i :: 0 <= i < |rows| && rows[i].timestamp >= since && p == Project(rows[i])
    {
      assert p in multiset(projected);
      var j :| 0 <= j < |projected| && projected[j] == p;
      assert recent[j] in recent;
      var i :| 0 <= i < |rows| && rows[i] == recent[j];
    }
    forall i | 0 <= i < |rows| && rows[i].timestamp >= since
      ensures Project(rows[i]) in points
    {
      assert rows[i] in recent;
      var j :| 0 <= j < |recent| && recent[j] == rows[i];
      assert projected[j] == Project(rows[i]);
      assert Project(rows[i]) in multiset(projected);
    }
  }

  // ---------------------------------------------------------------------
  // GET /api/stats
  // ---------------------------------------------------------------------

  /** UTC midnight of the day containing `now`. */
  function TodayStart(now: Instant): (start: Instant)
    ensures start <= now < start + SecondsPerDay
    ensures start % SecondsPerDay == 0
  {
    now - now % SecondsPerDay
  }

  function SolarPowers(rows: seq<Row>): (xs: seq<Option<real>>)
    ensures |xs| == |rows| && forall i :: 0 <= i < |rows| ==> xs[i] == rows[i].reading.solarPower
  {
    if rows == [] then [] else [rows[0].reading.solarPower] + SolarPowers(rows[1..])
  }

  function ConsumptionPowers(rows: seq<Row>): (xs: seq<Option<real>>)
    ensures |xs| == |rows| && forall i :: 0 <= i < |rows| ==> xs[i] == rows[i].reading.consumptionPower
  {
    if rows == [] then [] else [rows[0].reading.consumptionPower] + ConsumptionPowers(rows[1..])
  }

  predicate AllNull(xs: seq<Option<real>>) {
    forall i :: 0 <= i < |xs| ==> xs[i].None?
  }

  /** SQL MAX: the largest non-NULL value, NULL when there is none. */
  function SqlMax(xs: seq<Option<real>>): (m: Option<real>)
    ensures m.None? <==> AllNull(xs)
    ensures m.Some? ==> exists i :: 0 <= i < |xs| && xs[i] == m
    ensures m.Some? ==> forall i :: 0 <= i < |xs| && xs[i].Some? ==> xs[i].value <= m.value
  {
    if xs == [] then None
    else
      var rest := SqlMax(xs[1..]);
      assert forall i :: 1 <= i < |xs| ==> xs[i] == xs[1..][i - 1];
      if xs[0].None? then rest
      else if rest.None? || rest.value < xs[0].value then xs[0]
      else rest
  }

  function NonNullCount(xs: seq<Option<real>>): nat {
    if xs == [] then 0 else (if xs[0].Some? then 1 else 0) + NonNullCount(xs[1..])
  }

  /** SQL counts no value exactly when every value is NULL. */
  lemma {:induction false} NoneCountedIffAllNull(xs: seq<Option<real>>)
    ensures NonNullCount(xs) == 0 <==> AllNull(xs)
  {
    if xs != [] {
      NoneCountedIffAllNull(xs[1..]);
      assert forall i :: 1 <= i < |xs| ==> xs[i] == xs[1..][i - 1];
    }
  }

  function NonNullSum(xs: seq<Option<real>>): real {
    if xs == [] then 0.0 else (if xs[0].Some? then xs[0].value else 0.0) + NonNullSum(xs[1..])
  }

  /** SQL AVG: the mean of the non-NULL values, NULL when there is none. */
  function SqlAvg(xs: seq<Option<real>>): (a: Option<real>)
    ensures a.None? <==> AllNull(xs)
    ensures a.Some? ==> a.value <= SqlMax(xs).value
    ensures a.Some? ==> exists i :: 0 <= i < |xs| && xs[i].Some? && xs[i].value <= a.value
  {
    var n := NonNullCount(xs);
    NoneCountedIffAllNull(xs);
    if n == 0 then None
    else
      var avg := NonNullSum(xs) / n as real;
      assert avg <= SqlMax(xs).value by {
        SumAtMostCountTimesMax(xs, SqlMax(xs).value);
        MeanAtMost(NonNullSum(xs), n as real, SqlMax(xs).value);
      }
      assert exists i :: 0 <= i < |xs| && xs[i].Some? && xs[i].value <= avg by {
        AtMostMean(xs, avg);
      }
      Some(avg)
  }

  /** Every non-NULL value at most m bounds the sum by count * m. */
  lemma {:induction false} SumAtMostCountTimesMax(xs: seq<Option<real>>, m: real)
    requires forall i :: 0 <= i < |xs| && xs[i].Some? ==> xs[i].value <= m
    ensures NonNullSum(xs) <= NonNullCount(xs) as real * m
  {
    if xs != [] {
      var tail := xs[1..];
      forall i | 0 <= i < |tail| && tail[i].Some? ensures tail[i].value <= m {
        assert tail[i] == xs[i + 1];
      }
      SumAtMostCountTimesMax(tail, m);
      if xs[0].Some? {
        AddOneBelow(NonNullSum(tail), NonNullCount(tail) as real, xs[0].value, m);
      }
    }
  }

  /** If every non-NULL value exceeded a, the sum would exceed count * a. */
  lemma {:induction false} SumAboveCountTimes(xs: seq<Option<real>>, a: real)
    requires forall i :: 0 <= i < |xs| && xs[i].Some? ==> xs[i].value > a
    ensures NonNullSum(xs) >= NonNullCount(xs) as real * a
    ensures NonNullCount(xs) > 0 ==> NonNullSum(xs) > NonNullCount(xs) as real * a
  {
    if xs != [] {
      var tail := xs[1..];
      forall i | 0 <= i < |tail| && tail[i].Some? ensures tail[i].value > a {
        assert tail[i] == xs[i + 1];
      }
      SumAboveCountTimes(tail, a);
      var sum, count := NonNullSum(tail), NonNullCount(tail);
      if xs[0].Some? {
        AddOneAbove(sum, count as real, xs[0].value, a);
        assert NonNullSum(xs) == xs[0].value + sum;
        assert NonNullCount(xs) == count + 1;
      } else {
        assert NonNullSum(xs) == sum;
        assert NonNullCount(xs) == count;
      }
    }
  }

  lemma AddOneBelow(s: real, c: real, x: real, m: real)
    requires s <= c * m && x <= m
    ensures x + s <= (c + 1.0) * m
  {
  }

  lemma AddOneAbove(s: real, c: real, x: real, a: real)
    requires s >= c * a
    requires x > a
    ensures x + s > (c + 1.0) * a
  {
  }

  /** Some non-NULL value is at most the mean. */
  lemma AtMostMean(xs: seq<Option<real>>, avg: real)
    requires NonNullCount(xs) > 0
    requires avg == NonNullSum(xs) / NonNullCount(xs) as real
    ensures exists i :: 0 <= i < |xs| && xs[i].Some? && xs[i].value <= avg
  {
    if forall i :: 0 <= i < |xs| && xs[i].Some? ==> xs[i].value > avg {
      SumAboveCountTimes(xs, avg);
      MeanTimesCount(NonNullSum(xs), NonNullCount(xs) as real);
      assert false;
    }
  }

  lemma MeanAtMost(sum: real, n: real, m: real)
    requires n > 0.0 && sum <= n * m
    ensures sum / n <= m
  {
    MeanTimesCount(sum, n);
  }

  lemma MeanTimesCount(sum: real, n: real)
    requires n > 0.0
    ensures n * (sum / n) == sum
  {
  }

  /** The four aggregates of the day, before the response is built. */
  datatype DailyStats = DailyStats(
    solarPeak: Option<real>, solarAvg: Option<real>, consumptionAvg: Option<real>, readingsCount: nat)

  datatype StatsResponse = NoDataForToday | Today(stats: DailyStats)

  /** Python truthiness of an aggregate: NULL and 0.0 are falsy. */
  predicate Truthy(x: Option<real>) {
    x.Some? && x.value != 0.0
  }

  /** `round(avg, 2) if avg else None` */
  function RoundedIfTruthy(avg: Option<real>): (r: Option<real>)
    ensures r.Some? <==> Truthy(avg)
    ensures r.Some? ==> avg.value - 0.005 <= r.value <= avg.value + 0.005
  {
    if Truthy(avg) then Some(RoundHundredths(avg.value)) else None
  }

  /**
   * get_stats: aggregates over the rows stamped since UTC midnight.  A day
   * without rows is "No data for today"; otherwise the peak is the largest
   * known solar power, the averages are rounded to two decimals (and
   * reported as None when they are NULL or exactly zero) and the count
   * includes rows whose measurements are all unknown.
   */
  function GetStats(rows: seq<Row>, now: Instant): (r: StatsResponse)
    ensures r.NoDataForToday? <==> forall i :: 0 <= i < |rows| ==> rows[i].timestamp < TodayStart(now)
    ensures r.Today? ==> r.stats.readingsCount == |Recent(rows, TodayStart(now))| > 0
    ensures r.Today? ==> r.stats.solarPeak == SqlMax(SolarPowers(Recent(rows, TodayStart(now))))
    ensures r.Today? ==> r.stats.solarAvg == RoundedIfTruthy(SqlAvg(SolarPowers(Recent(rows, TodayStart(now)))))
    ensures r.Today? ==>
              r.stats.consumptionAvg == RoundedIfTruthy(SqlAvg(ConsumptionPowers(Recent(rows, TodayStart(now)))))
    ensures r.Today? && r.stats.solarAvg.Some? ==>
              r.stats.solarPeak.Some? && r.stats.solarAvg.value <= r.stats.solarPeak.value + 0.005
  {
    var today := Recent(rows, TodayStart(now));
    var count := |today|;
    if count == 0 then
      assert forall i :: 0 <= i < |rows| && rows[i].timestamp >= TodayStart(now) ==> rows[i] in today;
      NoDataForToday
    else
      assert today[0] in rows;
      var solar := SolarPowers(today);
      Today(DailyStats(
        SqlMax(solar),
        RoundedIfTruthy(SqlAvg(solar)),
        RoundedIfTruthy(SqlAvg(ConsumptionPowers(today))),
        count))
  }

  /** Zero solar power all day gives a peak of 0.0 but an average reported as None. */
  lemma {:induction false} ZeroSolarAverageReportedAsNone(rows: seq<Row>, now: Instant)
    requires exists i :: 0 <= i < |rows| && rows[i].timestamp >= TodayStart(now)
    requires forall i :: 0 <= i < |rows| && rows[i].timestamp >= TodayStart(now) ==>
               rows[i].reading.solarPower == Some(0.0)
    ensures GetStats(rows, now).Today?
    ensures GetStats(rows, now).stats.solarPeak == Some(0.0)
    ensures GetStats(rows, now).stats.solarAvg.None?
  {
    var today := Recent(rows, TodayStart(now));
    var solar := SolarPowers(today);
    var i :| 0 <= i < |rows| && rows[i].timestamp >= TodayStart(now);
    assert rows[i] in today;
    assert forall j :: 0 <= j < |solar| ==> solar[j] == Some(0.0) by {
      forall j | 0 <= j < |solar| ensures solar[j] == Some(0.0) {
        assert today[j] in today;
      }
    }
    SumOfZeros(solar);
    var m := SqlMax(solar);
    assert m.Some?;
  }

  lemma {:induction false} SumOfZeros(xs: seq<Option<real>>)
    requires forall j :: 0 <= j < |xs| ==> xs[j] == Some(0.0)
    ensures NonNullSum(xs) == 0.0
  {
    if xs != [] {
      SumOfZeros(xs[1..]);
    }
  }

  // ---------------------------------------------------------------------
  // Start-up guard and POST /api/refresh
  // ---------------------------------------------------------------------

  /** The response of /api/refresh: HTTP 503 "VRM client not configured", or {"status": "ok"}. */
  datatype RefreshResponse = ServiceUnavailable | RefreshOk

  /** The process-wide state set up at start-up. */
  class Service {
    const clientConfigured: bool
    var fetchJobScheduled: bool
    const store: ReadingStore

    /**
     * Start-up: when the client was constructed, the one-minute fetch job is
     * scheduled and one fetch runs straight away; without a client neither
     * happens and the store is untouched.
     */
    constructor (clientConfigured: bool, store: ReadingStore,
                 fetched: Fetched, conv: VrmClient.Coercion, now: Instant, commitSucceeds: bool)
      modifies store
      ensures this.clientConfigured == clientConfigured && this.store == store
      ensures fetchJobScheduled == clientConfigured
      ensures store.rows == old(store.rows) + (if clientConfigured then Ingested(fetched, conv, now, commitSucceeds) else [])
    {
      this.clientConfigured := clientConfigured;
      this.store := store;
      fetchJobScheduled := clientConfigured;
      new;
      if clientConfigured {
        var _ := FetchAndStoreData(store, fetched, conv, now, commitSucceeds);
      }
    }

    /** refresh_data: 503 without a client; otherwise one fetch_and_store_data call. */
    method RefreshData(fetched: Fetched, conv: VrmClient.Coercion, now: Instant, commitSucceeds: bool)
      returns (response: RefreshResponse)
      modifies store
      ensures response == ServiceUnavailable <==> !clientConfigured
      ensures !clientConfigured ==> store.rows == old(store.rows)
      ensures clientConfigured ==> store.rows == old(store.rows) + Ingested(fetched, conv, now, commitSucceeds)
    {
      if !clientConfigured {
        return ServiceUnavailable;
      }
      var _ := FetchAndStoreData(store, fetched, conv, now, commitSucceeds);
      return RefreshOk;
    }
  }
}
