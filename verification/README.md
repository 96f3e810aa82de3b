# victron-monitor: a Dafny model of the telemetry pipeline and the SOC display

victron-monitor polls a Victron VRM installation once a minute. It turns
the vendor's diagnostic records into one reading of thirteen nullable
measurements, stores the reading in a time-series table, and serves it
through three queries: the current reading, the history over the last
hours, and today's statistics. A React dashboard shows the battery's
state of charge (SOC). It derives that SOC itself from the battery voltage,
using a lookup table with linear interpolation.

The project models these parts:

- `vrm_client.dfy` (module `VrmClient`): `parse_diagnostic_data`.
  - The records loop is an imperative method, `ParseDiagnosticData`. It is
    proved equal to a recursive specification: `Walk` for the loop, then
    `WithSocFallback` for the post-pass.
  - Every field ends up holding the value of the last record that assigned
    it (`LastWrite`).
  - The parse fails, as the Python code raises, exactly when `records`
    cannot be iterated (null, a number or a boolean: TypeError) or one of
    its elements is not an object (AttributeError). A string or an object
    as `records` iterates as its characters or keys, none of them an
    object, so it is modelled as a list of that many non-objects: it fails
    unless it is empty.
  - `_estimate_soc_from_voltage` is modelled as the linear 11.90 V–12.70 V
    curve rounded to one decimal.
- `server.dfy` (module `Server`):
  - The `energy_readings` table is a class whose row sequence
    `fetch_and_store_data` appends to.
  - The three GET handlers are pure functions of the rows and the current
    time. They follow SQL's rules:
    - ORDER BY is a sorted permutation;
    - MAX and AVG skip NULLs;
    - COUNT(id) counts every row.
  - Start-up and `POST /api/refresh` are a small service class. It holds
    the "client configured" flag and its 503 guard.
- `utils.dfy` (module `Utils`): the frontend helpers.
  - `voltageToSOC` over the 11-entry table.
  - `getStateLabel` and `getSOCColor`.
  - Proved: the table is strictly decreasing, every voltage inside its
    range falls into a segment (so the trailing `return null` is
    unreachable), the result is a percentage, and the result is monotone
    in the voltage.
- `app.dfy` (module `App`): the copies of those helpers in the component
  file, proved equal to the shared ones. Also `getStateColor`, the battery
  card's defaults, and the circular gauge's fill fraction and dash offset.
- `rounding.dfy` (module `Rounding`): JavaScript's `Math.round` (half up)
  and Python's `round(x, n)` (half to even), both on exact reals.
- `wrappers.dfy` (module `Wrappers`): `Option` and `Result`.

The backend and the frontend use two different SOC curves, and both are
modelled as written. The backend curve gives 12.50 V → 75 %. The frontend
table gives 12.50 V → 90 %.

Time is an integer number of seconds since the Unix epoch, in UTC. Things
the code obtains from outside are parameters of the model:

- the decoded VRM response, or the exception raised while fetching it;
- whether the database commit succeeds;
- the current time;
- Python's `float()` on text and `str()` on a float, passed as the two
  functions of `Coercion`.

## Model

| member | source | states |
|---|---|---|
| VrmClient.AllUnknown | backend/vrm_client.py:82-96 | the fresh parsed dictionary has all thirteen fields unknown |
| VrmClient.Set | backend/vrm_client.py:131-133 | assigning parsed[f] sets f to the value and leaves every other field as it was |
| VrmClient.FloatOf | backend/vrm_client.py:133 | float() fails exactly on null and on text it cannot parse; a boolean gives 0 or 1, an integer its value, a float itself |
| VrmClient.NatToDecimal | backend/vrm_client.py:131 | str() of a natural number is a non-empty digit string without a leading zero that denotes the number |
| VrmClient.TextOf | backend/vrm_client.py:131 | str() leaves text unchanged, writes an integer as digits denoting it (after a minus sign when negative), and null as "None" |
| VrmClient.CodeMappingTargets | backend/vrm_client.py:102-120 | only the code "bst" maps to the battery state, and no code maps to the battery temperature |
| VrmClient.Write | backend/vrm_client.py:123-135 | a record writes only the field its code maps to. It writes nothing exactly when it is not an object, its code is missing or unmapped, its raw value is null, or float() rejects the raw value of a numeric code. "bst" stores str(raw); every other code stores float(raw) |
| VrmClient.Step | backend/vrm_client.py:124-135 | one loop iteration fails exactly on a record that is not an object; otherwise the record's write, if any, sets its field and every other field is unchanged |
| VrmClient.LastWrite | backend/vrm_client.py:123-135 | the last assignment to a field holds text for the battery state and a number for every other field |
| VrmClient.Walk | backend/vrm_client.py:123-135 | the records loop fails exactly when some record is not an object; otherwise each field holds the value of the last record that assigned it |
| VrmClient.EstimateSocFromVoltage | backend/vrm_client.py:143-162 | 100 at 12.70 V and above, 0 at 11.90 V and below, otherwise within 0.05 of the linear curve; always within [0, 100] |
| VrmClient.EstimateSocMonotone | backend/vrm_client.py:155-162 | the estimated SOC does not decrease as the voltage rises |
| VrmClient.WithSocFallback | backend/vrm_client.py:137-139 | the voltage estimate fills the SOC only when no SOC was read and a voltage was; nothing else changes |
| VrmClient.Parse | backend/vrm_client.py:80-141 | empty data or data without "records" gives all unknown. It fails exactly on records that cannot be iterated or contain a non-object. Otherwise every field is its last write, and the SOC is the direct reading if one was made, else the estimate from the last voltage, else unknown |
| VrmClient.ParseDiagnosticData | backend/vrm_client.py:80-141 | the in-place loop over the records followed by the SOC fallback returns exactly Parse |
| VrmClient.TextOfSmallInt | backend/vrm_client.py:129-131 | the numeric battery-state codes 0, 1 and 2 are stored as "0", "1" and "2" |
| VrmClient.BatteryTemperatureAlwaysUnknown | backend/vrm_client.py:102-120 | a successful parse never knows the battery temperature |
| VrmClient.SolarPowerLastRecordWins | backend/vrm_client.py:110-113 | PVP and ScW both feed the solar power, and whichever record comes later wins |
| VrmClient.VoltageOnlyEstimatesSoc | backend/test_main.py:198-208 | a payload with only a 12.50 V voltage gives a SOC of exactly 75.0 |
| VrmClient.DirectSocNotOverridden | backend/vrm_client.py:137-139 | a SOC read from the records is kept although a voltage is present |
| VrmClient.UnparsableValueSkipped | backend/test_main.py:163-173 | a voltage that float() rejects leaves every field unknown |
| Server.ReadingStore.Add | backend/main.py:36-52 | db.add and db.commit append one row stamped with the current time |
| Server.PayloadTruthy | backend/main.py:28 | a payload is truthy exactly when it is present and has at least one key |
| Server.Ingested | backend/main.py:22-57 | one call appends at most one row. It appends one exactly when the fetch returned a truthy payload, the parse succeeded and the commit succeeded; the row is the parsed reading stamped now |
| Server.FetchAndStoreData | backend/main.py:22-57 | the store becomes its old rows plus Ingested. The call reports "no data" exactly for an empty or missing payload, and "stored" exactly when a row was added; existing rows are never changed |
| Server.Regroup | backend/main.py:115-137 | the current view passes every column through unchanged except battery_temperature, which it omits |
| Server.LatestIndex | backend/main.py:110 | the index of a row whose timestamp is the greatest |
| Server.GetCurrentData | backend/main.py:107-137 | "No data available" exactly when the table is empty; otherwise the regrouped view of a row with the greatest timestamp |
| Server.Project | backend/main.py:150-162 | a history point passes every column of its row through unchanged; only the SOC, the consumption and the battery temperature are left out |
| Server.Recent | backend/main.py:144-146 | the filter keeps exactly the rows stamped at or after the cut-off |
| Server.RecentKeepsMultiplicity | backend/main.py:144-146 | every qualifying row is kept as often as it occurs, and the others are dropped |
| Server.ProjectAll | backend/main.py:148-164 | one history point per row, projected in place |
| Server.Insert | backend/main.py:146 | inserting a point into a time-ordered list keeps it ordered and adds exactly that point |
| Server.SortedCons | backend/main.py:146 | a point no later than the head of a time-ordered list keeps the list ordered when put in front |
| Server.SortByTime | backend/main.py:146 | ORDER BY timestamp returns a time-ordered permutation |
| Server.GetHistory | backend/main.py:140-165 | hours outside 1..168 is refused; otherwise the readings are time-ordered and a permutation of the projections of the rows stamped within the last `hours` hours |
| Server.HistoryMembers | backend/main.py:143-165 | a point is in the history exactly when it projects a row stamped at or after now minus `hours` hours |
| Server.TodayStart | backend/main.py:173 | UTC midnight: a multiple of one day, at most now and less than a day before |
| Server.SolarPowers | backend/main.py:177-178 | the solar_power column, row by row |
| Server.ConsumptionPowers | backend/main.py:179 | the consumption_power column, row by row |
| Server.SqlMax | backend/main.py:177 | MAX is NULL exactly when every value is NULL; otherwise it is one of the values and no value exceeds it |
| Server.NoneCountedIffAllNull | backend/main.py:178-179 | AVG's count of non-NULL values is zero exactly when every value is NULL |
| Server.SqlAvg | backend/main.py:178-179 | AVG is NULL exactly when every value is NULL; otherwise it is at most MAX and at least one value |
| Server.SumAtMostCountTimesMax | backend/main.py:178 | the sum of the non-NULL values is at most their count times any upper bound |
| Server.SumAboveCountTimes | backend/main.py:178 | if every non-NULL value exceeds a, their sum exceeds their count times a |
| Server.AtMostMean | backend/main.py:178 | some non-NULL value is at most the mean |
| Server.Truthy | backend/main.py:191-192 | Python truthiness of an aggregate: false for NULL and for 0.0 |
| Server.RoundedIfTruthy | backend/main.py:191-192 | an average is reported exactly when it is neither NULL nor zero, and then within 0.005 of it |
| Server.GetStats | backend/main.py:168-195 | "No data for today" exactly when no row is stamped since UTC midnight. Otherwise: the count is the number of those rows; the peak is SQL MAX of their solar power; each average is SQL AVG of its column over those rows, rounded to two decimals when truthy and None otherwise; the reported solar average is at most the peak plus the rounding margin |
| Server.ZeroSolarAverageReportedAsNone | backend/main.py:190-191 | a day of zero solar power has peak 0.0 but its average reported as None |
| Server.SumOfZeros | backend/main.py:178 | values that are all 0.0 sum to 0.0 |
| Server.Service.constructor | backend/main.py:68-80 | the fetch job is scheduled exactly when the client was constructed; then one fetch runs at once, and otherwise the store is untouched |
| Server.Service.RefreshData | backend/main.py:198-205 | 503 exactly when no client is configured, leaving the store unchanged; otherwise one fetch_and_store_data is applied |
| Rounding.MathRound | frontend/src/utils.js:26 | Math.round gives an integer within half of x, a half going up |
| Rounding.MathRoundMonotone | frontend/src/utils.js:26 | Math.round does not decrease |
| Rounding.MathRoundOfInteger | frontend/src/utils.js:26 | Math.round leaves an integer unchanged |
| Rounding.RoundHalfEven | backend/vrm_client.py:162 | Python's round to an integer: the floor or the next integer, the strictly nearest one off a tie, the even one on a tie, an integer unchanged |
| Rounding.RoundHalfEvenMonotone | backend/vrm_client.py:162 | rounding to an integer does not decrease |
| Rounding.RoundTenths | backend/vrm_client.py:162 | round(x, 1) is a whole number of tenths within 0.05 of x |
| Rounding.RoundTenthsMonotone | backend/vrm_client.py:162 | round(x, 1) does not decrease |
| Rounding.RoundTenthsOfExact | backend/vrm_client.py:162 | round(x, 1) leaves a whole number of tenths unchanged |
| Rounding.RoundHundredths | backend/main.py:191-192 | round(x, 2) is a whole number of hundredths within 0.005 of x |
| Utils.TableDescending | frontend/src/utils.js:2-14 | later table entries have strictly lower voltage and strictly lower SOC |
| Utils.TableSocsArePercentages | frontend/src/utils.js:2-14 | every table SOC lies in [0, 100] |
| Utils.Interpolate | frontend/src/utils.js:25-26 | inside a segment the interpolated SOC lies above the lower entry's SOC and at most the upper entry's; it equals the upper entry's SOC at its voltage |
| Utils.InterpolationBounds | frontend/src/utils.js:25-26 | a ratio in (0, 1] scales the SOC gain into (0, gain], and a ratio of 1 gives the whole gain |
| Utils.InterpolateMonotone | frontend/src/utils.js:25-26 | within a segment the interpolation does not decrease as the voltage rises |
| Utils.Scan | frontend/src/utils.js:21-28 | a result from entry i on is the rounded interpolation of a segment from i on that holds the voltage; no result means no such segment holds it |
| Utils.ScanFinds | frontend/src/utils.js:21-28 | the loop reaches the segment that holds the voltage and returns its rounded interpolation |
| Utils.SegmentFrom | frontend/src/utils.js:21-28 | every voltage strictly between the last entry and an entry lies in some segment from that entry on |
| Utils.RoundedWithinSegment | frontend/src/utils.js:26 | Math.round keeps the interpolation between the segment's two SOCs |
| Utils.ScanCovers | frontend/src/utils.js:21-29 | for a voltage inside the table's range the loop always returns, with a percentage |
| Utils.VoltageToSoc | frontend/src/utils.js:16-30 | null or undefined gives null, and a number never does (the final `return null` is unreachable). The result is in [0, 100]; 12.70 V and above gives 100; 10.50 V and below gives 0 |
| Utils.VoltageToSocInterpolates | frontend/src/utils.js:21-27 | inside a segment the result is Math.round of the linear interpolation, between the segment's two SOCs |
| Utils.VoltageToSocAtEntry | frontend/src/utils.js:2-27 | at each table voltage the result is that entry's SOC |
| Utils.InteriorMonotone | frontend/src/utils.js:21-28 | inside the table's range a higher voltage never gives a lower SOC, whichever segments the two voltages fall into |
| Utils.VoltageToSocMonotone | frontend/src/utils.js:16-30 | a higher voltage never gives a lower SOC |
| Utils.VoltageToSocExamples | frontend/src/utils.test.js:25-39 | 12.50 V gives 90 and 12.06 V gives 50 |
| Utils.VoltageToSocMidpoint | frontend/src/utils.test.js:25-39 | 12.60 V, halfway between the 90 % and 100 % entries, gives 95 |
| Utils.VoltageToSocBands | frontend/src/utils.test.js:41-51 | 12.40 V gives a SOC in [70, 80], and 11.50 V one in [10, 20] |
| Utils.StateLabel | frontend/src/utils.js:36-41 | Charging, Discharging and Idle exactly for their string, digit-string and number forms; Unknown for everything else |
| Utils.StateFormsDisjoint | frontend/src/utils.js:36-41 | no value is a form of two different states |
| Utils.SocColor | frontend/src/utils.js:43-49 | gray exactly for null; green exactly from 80; amber exactly in [50, 80); orange exactly in [20, 50); red exactly below 20 |
| Utils.SocColorMonotone | frontend/src/utils.js:43-49 | a higher SOC never gets a less healthy colour |
| Utils.VoltageColorMonotone | frontend/src/utils.js:16-49 | a higher voltage never gets a less healthy colour |
| Utils.VoltageColorThresholds | frontend/src/utils.js:2-49 | green from 12.42 V up, red at 11.31 V and below |
| App.Scan | frontend/src/App.jsx:25-32 | the component file's copy of the loop, with the interpolation written inline, agrees with the shared one from every entry |
| App.VoltageToSoc | frontend/src/App.jsx:6-34 | the component file's table and voltageToSOC compute exactly the shared voltageToSOC |
| App.SocColor | frontend/src/App.jsx:108-114 | the card's getSOCColor gives exactly the shared colour bands |
| App.StateLabel | frontend/src/App.jsx:116-121 | the card's getStateLabel gives exactly the shared labels |
| App.StateColor | frontend/src/App.jsx:123-127 | emerald exactly for the charging forms, rose exactly for the discharging forms, gray for idle and everything else |
| App.GaugeArc | frontend/src/App.jsx:37-41 | the fill fraction is 0 for null and value/max capped at 1 otherwise, so never above 1. The dash offset is the unfilled share of the circumference: all of it for null, none once value reaches max |
| App.BatteryGauge | frontend/src/App.jsx:144 | the card's gauge uses the defaults max 100, size 140 and stroke 12: radius 64, circumference 128π; an unknown SOC leaves it empty and 100 or more fills it |
| App.BatteryGaugeFill | frontend/src/App.jsx:37-41 | for a SOC percentage the battery gauge fills soc/100 of a positive circumference, with an offset between 0 and the circumference |
| App.BatteryGaugeMonotone | frontend/src/App.jsx:40-41 | a higher SOC leaves less of the gauge unfilled |
| App.BatteryCard | frontend/src/App.jsx:101-145 | the card's voltage defaults to null and its gauge SOC is voltageToSOC of that voltage. Current and power are the group's values, 0 when missing or without a group. The label and its colour are those of the group's state, with null, undefined or no group read as 'unknown'. The SOC colour follows the SOC bands, emerald goes with Charging, and the gauge is the battery gauge of the SOC, its offset within the circumference |
| App.BatteryCardIgnoresSoc | frontend/src/App.jsx:102-106 | the card never reads the battery group's own SOC |
| App.StoredStateCodesLabelled | frontend/src/App.jsx:116-121 | the states the backend stores from the codes 0, 1 and 2 are labelled Idle, Charging and Discharging |

## Left out

- The VRM network client: constructing it from environment variables, the
  HTTP calls and their timeouts, and closing it. A fetch is a parameter
  (`Fetched`): a payload, no payload, or an exception.
- The scheduler and its timers, the web framework, CORS, the health
  endpoint, the database session plumbing (`database.py`) and the React
  rendering and polling. The job being scheduled is a boolean.
- Binary floating point: every number is an exact real. `round` and
  `Math.round` round exactly, which can differ from the float result near a
  rounding boundary. NaN and the infinities are not represented.
- Python's `float()` on text and `str()` on floats are parameters
  (`Coercion`), not reimplemented.
- JSON arrays and objects as a record's `rawValue` are not represented.
  Neither is a `code` that cannot be hashed, for which the membership test
  raises outside the `try`.
- OverflowError from `float()` on a huge integer is not represented: the
  model converts every integer.
- A retention sweep, history downsampling and `calculate_time_remaining`
  are not part of this model: `backend/main.py` defines none of them.
  `backend/test_main.py` imports `calculate_time_remaining` from `main`,
  which does not define it.
- `Instant` counts whole seconds. The code stamps rows and computes cut-offs
  with `datetime.utcnow()`, to the microsecond; two rows within the same
  second, and rows stamped within a second of a cut-off, are ordered and
  filtered here at whole-second resolution.
- `Server.GetHistory` takes `hours` as an argument; the query's default of
  24 when the parameter is omitted is not represented.
- The order of rows with equal timestamps: SQL leaves it unspecified, so
  `GetHistory` promises a time-ordered permutation and `GetCurrentData`
  returns some row with the greatest timestamp.
- `Server.GetHistory`: the refusal for hours outside 1..168 is the query
  validation's HTTP 422; the validation message is not modelled.
- The row `id` column: `COUNT(id)` equals the number of rows, since `id`
  is a non-null primary key.
- `App.GaugeArc` requires a non-zero `max`. JavaScript's division by zero
  gives Infinity or NaN, which are not represented; the only caller uses
  the default 100.
- `Utils.VoltageToSoc` and `Utils.SocColor` take a number or null
  (undefined counts as null for `voltageToSOC`). JavaScript's coercion of
  strings or booleans in comparisons is not modelled, and neither is
  `getSOCColor(undefined)`.
- `formatTime` (locale formatting) and the card's `toFixed` text.
