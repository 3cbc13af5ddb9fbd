# Snowpack analytics and thermochron, modelled in Dafny

This project models two pieces of code.

**The snowscope analytics pipeline** (`snowscope/app.js`) turns weather data into a daily picture of the snowpack. It takes:
- hourly model data from Open-Meteo;
- hourly observations from National Weather Service stations;
- archive snowfall.

It works in stages:
- It normalises units and maps the hourly payload to records.
- It merges the archive with today's hours, and the model hours with the station hours. Each chart is attributed to the model, the station, or both.
- It picks one station observation per hour.
- It folds the hours into daily records. Each daily record holds the rain/snow phase split, the sun-bake index and the fluff factor.
- It overlays archive snowfall.
- It scores each day for powder.
- It runs four hazard rules: freeze-thaw, rain-on-snow, wind slab and strong sun.
- It rates how far the nearest station can be trusted.
- It chooses which history endpoint to use.

**The cryofront thermochron** (`cryofront/thermochron.py`) has two parts:
- For every streak length k, the curve gives the lowest temperature that some k-day run of daily highs stayed under.
- The winter seasons it is computed for.

Numbers are `real`, and a JavaScript `null` is `None`. `Math.round(x)` is `Floor(x + 1/2)`. Hour keys (`YYYY-MM-DDTHH:00`) and day keys (`YYYY-MM-DD`) are strings, ordered by UTF-16 code units (`Text.StrLess`), as `<` and `sort()` order them. `mergeHourlyRecords` (snowscope/app.js:1985) sorts with `localeCompare` instead. That order agrees with code-unit order only for keys of this one fixed format, so the model relies on every hour key having it. Where the code mutates objects in place, the model does too:
- The per-metric source counters are a class (`SourceMerge.MetricSourceStats`).
- Every loop that builds up state step by step is a method with a loop. It is proved against a specification function, and the lemmas are stated about that function.
- Maps, filters, `some` tests and `reduce` folds are recursive functions. Examples are `StationObservations.ItemChunks`/`WeatherChunks`, `Text.ContainsAny`, `DailyRules.FilterDates`, and the folds at snowscope/app.js:2366 and 2803-2804.

Modules:
- `wrappers`, `text`, `key_order`: shared datatypes and string order.
- `units`, `station_units`: the unit converters.
- `hourly`: `HourlySeries`, mapping, clipping and the archive/today merge.
- `station`: `StationObservations`, weather text, record scoring and best-per-hour.
- `merge`: `SourceMerge`.
- `daily`: `DailyAggregation`.
- `archive_snow`: `ArchiveSnow`.
- `powder`: `PowderScore`.
- `rule_events`: `RuleEvents`, the events and per-rule date lists of a run of day verdicts.
- `rules`: `DailyRules`.
- `confidence`: `StationConfidence`.
- `acquire`: `HistoryFetch`.
- `thermochron`: `Thermochron`.
- `seasons`: `WinterSeasons`.

Where the code and its documented design disagree, the model follows the code:
- **Wind-slab rule.** The design says a day without an active snowpack fires none of the four rules. In the code the wind-slab rule does not test the snowpack. A bare-ground day with strong wind and snow in the previous six days still fires it. `DailyRules.BareGroundOnlyWind` states exactly what the code allows.
- **Default seasons.** The `run_thermochron` docstring says the default is the last 3 seasons. The code builds ten (`cryofront/thermochron.py:389-391`). `WinterSeasons.DefaultSeasons` models ten.

## Model

| member | source | states |
|---|---|---|
| Units.NormalizeUnit | snowscope/app.js:1658-1660 | a missing unit normalises to the empty string; a present one is no longer than the raw code, has no white space at either end and no upper-case letter |
| Units.NormalizeUnitIdempotent | snowscope/app.js:1658-1660 | normalising a unit (trim, lower-case) twice is the same as once |
| Units.ConvertTemperatureToF | snowscope/app.js:1662-1675 | null in, null out; with no unit the value is returned unchanged |
| Units.ConvertLengthToIn | snowscope/app.js:1677-1699 | null in, null out; with no unit the value is returned unchanged |
| Units.ConvertLengthToFt | snowscope/app.js:1701-1727 | null in, null out; with no unit the value is taken as metres and multiplied by 3.280839895 |
| Units.ConvertSpeedToMph | snowscope/app.js:1729-1751 | null in, null out; with no unit the value is returned unchanged |
| Units.TemperatureMonotonic | snowscope/app.js:1662-1675 | for any unit, conversion to °F keeps the order of two values |
| Units.LengthToInMonotonic | snowscope/app.js:1677-1699 | for any unit, conversion to inches keeps the order of two values |
| Units.LengthToFtMonotonic | snowscope/app.js:1701-1727 | for any unit, conversion to feet keeps the order of two values |
| Units.SpeedMonotonic | snowscope/app.js:1729-1751 | for any unit, conversion to mph keeps the order of two values |
| Units.ConvertersSeeNormalUnit | snowscope/app.js:1658-1751 | each converter depends only on the normalised unit |
| StationUnits.ConvertQuantityToF | snowscope/app.js:2498-2523 | null value gives null; no unit code leaves the value unchanged |
| StationUnits.ConvertQuantityToMph | snowscope/app.js:2525-2545 | null value gives null; no unit code leaves the value unchanged |
| StationUnits.StationConversionsMonotonic | snowscope/app.js:2506-2545 | station temperature and speed conversions keep order |
| StationUnits.ConvertQuantityToInAsWritten | snowscope/app.js:2547-2567 | the code as written: null preserved, no unit leaves the value unchanged |
| StationUnits.ConvertQuantityToFtAsWritten | snowscope/app.js:2569-2583 | the code as written: null preserved, no unit leaves the value unchanged |
| StationUnits.PrefixSelectsMetres | snowscope/app.js:2547-2583 | as written, `wmoUnit:in` and `wmoUnit:ft` quantities are multiplied by the metre factors, because the `m` of the prefix matches |
| StationUnits.ConvertQuantityToIn | snowscope/app.js:2547-2567 | corrected: tests only the unit name after the prefix; agrees with the code whenever the code has no prefix |
| StationUnits.ConvertQuantityToFt | snowscope/app.js:2569-2583 | corrected: tests only the unit name after the prefix; agrees with the code whenever the code has no prefix |
| StationUnits.PrefixIgnored | snowscope/app.js:2547-2583 | corrected converters return inch and foot quantities unchanged |
| StationUnits.LengthConversionsMonotonic | snowscope/app.js:2547-2583 | corrected length conversions keep order |
| HourlySeries.MapHourlyPayload | snowscope/app.js:1753-1779 | a missing `hourly` block gives no records; otherwise one record per time stamp, in order |
| HourlySeries.MapHourlyPayloadFields | snowscope/app.js:1753-1779 | each field is the converted value at that index; specific units fall back to the general ones; nulls stay null |
| HourlySeries.ClipRecordsThroughHour | snowscope/app.js:1959-1967 | keeps exactly the records at or before the cutoff hour |
| HourlySeries.ClipConcat | snowscope/app.js:1959-1967 | clipping distributes over concatenation, so the clip keeps the records in their order and with their multiplicity |
| HourlySeries.ClipWithoutCutoff | snowscope/app.js:1963-1965 | without a cutoff every record is kept |
| HourlySeries.IndexByTimeKeepsLast | snowscope/app.js:1969-1986 | the `Map` keyed by time holds, for every time, one of the records with that time |
| HourlySeries.MergeHourlyRecords | snowscope/app.js:1969-1986 | result sorted by time with no duplicates; exactly the archive and today's (clipped) hours; each hour's record is the merged index entry |
| HourlySeries.InKeyOrder | snowscope/app.js:1985 | the map's values in increasing key order |
| HourlySeries.MergePrecedence | snowscope/app.js:1969-1986 | for an hour in today's clipped updates, today's record wins over the archive |
| HourlySeries.MergeSources | snowscope/app.js:1969-1986 | every merged record comes from the archive or from today's updates |
| StationObservations.ExtractObservationWeatherText | snowscope/app.js:3076-3095 | lower-cased text; empty exactly when no weather item and no description contributes text |
| StationObservations.ChunkInWeatherText | snowscope/app.js:3076-3095 | every item and the description appear in the joined text |
| StationObservations.SnowSignalVetoesRain | snowscope/app.js:3097-3107 | any snow signal (snow, flurr, sleet, ice pellet, graupel) means rain is not certain |
| StationObservations.IsObservationRainCertain | snowscope/app.js:3097-3107 | rain is certain exactly when the weather text contains some rain word and no snow word |
| StationObservations.RainCertainNeedsRainWord | snowscope/app.js:3097-3107 | rain is certain only if a rain word is in the text |
| StationObservations.NoTextNoRain | snowscope/app.js:3064-3074 | no weather text, no certain rain |
| StationObservations.ScoreRange | snowscope/app.js:3109-3129 | the record score counts the seven scored fields: 0 iff all null, 7 iff all present |
| StationObservations.ScoreStationRecord | snowscope/app.js:3109-3129 | the loop's count equals the field count |
| StationObservations.ObservationRecord | snowscope/app.js:3131-3170 | hour key and stamp carried over; rain only when rain is certain and equals the precipitation; no shortwave or freezing level |
| StationObservations.BetterTransitive | snowscope/app.js:3168 | "more fields, then later stamp" is a strict order |
| StationObservations.BestByHourIsFirstBest | snowscope/app.js:3160-3172 | the kept record of an hour has no better rival and beats every earlier one of its hour |
| StationObservations.MapStationObservationsToHourly | snowscope/app.js:3131-3187 | one record per hour key that has an observation, sorted by hour, each the best candidate for its hour |
| SourceMerge.MetricSourceStats.constructor | snowscope/app.js:2950-2961 | every metric starts with zero station and zero model counts |
| SourceMerge.MetricSourceStats.ChooseMetricValue | snowscope/app.js:2963-2978 | returns the station value if present, else the model value; only that metric's counter changes, by one iff a value was chosen |
| SourceMerge.Tally | snowscope/app.js:2963-2978 | counts grow by exactly one when a value is chosen, never shrink |
| SourceMerge.MergeHour | snowscope/app.js:2980-3030 | same time; every metric is the station value if present, else the model value |
| SourceMerge.MergeModelAndStationHourly | snowscope/app.js:2980-3030 | one record per model hour in order; counters are the per-metric tallies of the choices |
| SourceMerge.TallyCountsMergedValues | snowscope/app.js:2963-3030 | a metric's station + model count equals the number of merged hours with that metric present |
| SourceMerge.MergeWithoutStation | snowscope/app.js:2980-3030 | with no station hours the model hours come back unchanged and no station count is taken |
| SourceMerge.StationValueWins | snowscope/app.js:2980-3030 | a station value at an hour is the merged value |
| SourceMerge.SourceFor | snowscope/app.js:3032-3054 | a chart is "model" iff it has no metrics or no station counts, "station" iff station counts and no model counts, else "mixed" |
| SourceMerge.MetricSourceStats.GetChartSourceFromMetrics | snowscope/app.js:3032-3054 | the chart's source is that of its metrics' summed counts: model for an unknown chart or no station count, station when there is no model count, else mixed |
| SourceMerge.MetricSourceStats.AttributeSnowfallToModel | snowscope/app.js:4462-4466 | snowfall counts become 0 station and max(total, 1) model; nothing else changes |
| SourceMerge.SnowfallAttributionShowsModel | snowscope/app.js:4462-4466 | after that override the snowfall chart reads "model" |
| DailyAggregation.Clamp | snowscope/app.js:518-520 | result within bounds, equal to the value when it already is |
| DailyAggregation.SplitHourlyPrecipPhase | snowscope/app.js:2058-2082 | rain and snow liquid are non-negative and add up to the total; rain never above the hour's rain; snowfall alone gives snow liquid s/7 |
| DailyAggregation.ComputeSunBakeIndex | snowscope/app.js:2047-2056 | an integer in 0..100; 0 without a max temperature or sunshine |
| DailyAggregation.SunBakeMonotonic | snowscope/app.js:2047-2056 | more sunshine, warmth and thaw hours never lower the index |
| DailyAggregation.ComputeDailyFluffFactor | snowscope/app.js:2084-2092 | defined iff snowfall > 0.05 and snow liquid > 0.01; then snowfall over liquid |
| DailyAggregation.GroupByDay | snowscope/app.js:2094-2184 | one entry per distinct date prefix of the hours, each the fold of that day's hours in order |
| DailyAggregation.AggregateDaily | snowscope/app.js:2094-2184 | one record per distinct date prefix, ascending, each the fold of that day's hours |
| DailyAggregation.FreezePlusThaw | snowscope/app.js:2094-2184 | freeze hours + thaw hours = the day's hours with a temperature |
| DailyAggregation.DaySnowfallSum | snowscope/app.js:2094-2184 | the day's snowfall sum is the sum of its non-null hourly snowfall |
| DailyAggregation.DailyRecordConsistent | snowscope/app.js:2094-2184 | min and max temperature present together, min ≤ max; wind average ≤ wind max; end depth ≤ max depth; snow liquid between 0 and all liquid |
| DailyAggregation.SnowfallConserved | snowscope/app.js:2094-2184 | the daily snowfall sums add up to the hourly snowfall total |
| ArchiveSnow.ApplyArchiveSnowDailyToRecords | snowscope/app.js:1988-2045 | archive daily snow overrides each day's snowfall; today's sum counts the archive hours through the current hour; the last time counted is reported |
| ArchiveSnow.TodaySnowGrowsWithTheHour | snowscope/app.js:2013-2030 | a later current hour never lowers today's archive snow sum |
| PowderScore.ScoreOf | snowscope/app.js:2186-2316 | the powder score is an integer in 0..100 |
| PowderScore.DerivePowderScores | snowscope/app.js:2186-2316 | one scored record per day, carrying the day unchanged, scored with its days-since-snow |
| PowderScore.DaysSinceSnow | snowscope/app.js:2200-2203 | 0 on a snow day (≥ 0.1 in); 30 before the first snow day |
| PowderScore.DaysSinceSnowCounts | snowscope/app.js:2200-2203 | otherwise the distance to the latest snow day |
| PowderScore.AgeNeverHelps | snowscope/app.js:2186-2316 | older snow never scores higher |
| PowderScore.RainNeverHelps | snowscope/app.js:2186-2316 | more recent rain never scores higher |
| PowderScore.PowderBand | snowscope/app.js:3992-4009 | "n/a" exactly for a missing score |
| PowderScore.PowderBandMonotonic | snowscope/app.js:3992-4009 | bands change at 20, 40, 60 and 80 and never get worse as the score rises |
| DailyRules.AnalyzeDailyRules | snowscope/app.js:2318-2393 | events and per-rule date lists are those of the four rules applied day by day in order |
| DailyRules.EvaluateDay | snowscope/app.js:2327-2390 | one day's four rule outcomes and its events, in rule order, are that day's verdict |
| RuleEvents.KindOfEventsOf | snowscope/app.js:2343-2389 | one day's events of a rule carry that day's date exactly when the rule fired |
| RuleEvents.EventsUpToAtMostFour | snowscope/app.js:2327-2390 | at most four events per day |
| RuleEvents.EventsAgreeWithDates | snowscope/app.js:2343-2389 | the dates of each rule's events are exactly its match list |
| DailyRules.BareGroundOnlyWind | snowscope/app.js:2331-2389 | without an active snowpack only the wind-slab rule can fire |
| DailyRules.WindSlabNeedsRecentSnow | snowscope/app.js:2364-2369 | a wind-slab day has snowfall on it or one of the six days before |
| DailyRules.MatchDatesSorted | snowscope/app.js:2318-2393 | with days in date order, every match list is in date order |
| DailyRules.FilterRuleMatches | snowscope/app.js:1062-1069 | each list keeps exactly its dates within the window, in order |
| DailyRules.GetLastQualifiedDate | snowscope/app.js:2395-2401 | null for an empty list; otherwise a member, the latest when the list is sorted |
| DailyRules.FindPeakSnowDepth | snowscope/app.js:2413-2424 | null iff no day has a max depth; otherwise the greatest depth and the first day that reached it |
| StationConfidence.ClassifyConfidence | snowscope/app.js:2597-2608 | Unknown iff no score; High iff ≥ 78; Low iff < 58 |
| StationConfidence.ClassifyMonotonic | snowscope/app.js:2597-2608 | a higher score never gets a lower label |
| StationConfidence.DistanceScore | snowscope/app.js:2709-2724 | present iff the distance is; between 22 and 100 |
| StationConfidence.ElevationScore | snowscope/app.js:2726-2738 | present iff the elevation difference is; between 30 and 95 |
| StationConfidence.AgeScore | snowscope/app.js:2740-2755 | present iff the age is; between 18 and 100 |
| StationConfidence.TemperatureScore | snowscope/app.js:2757-2770 | present iff the temperature difference is; between 28 and 100 |
| StationConfidence.WindScore | snowscope/app.js:2772-2785 | present iff the wind difference is; between 25 and 100 |
| StationConfidence.PrecipScore | snowscope/app.js:2787-2800 | present iff the precipitation difference is; between 25 and 100 |
| StationConfidence.DistanceScoreNonIncreasing | snowscope/app.js:2709-2724 | a nearer station never gets a lower distance score |
| StationConfidence.ElevationScoreNonIncreasing | snowscope/app.js:2726-2738 | a smaller elevation difference never gets a lower score |
| StationConfidence.AgeScoreNonIncreasing | snowscope/app.js:2740-2755 | a fresher observation never gets a lower age score |
| StationConfidence.TemperatureScoreNonIncreasing | snowscope/app.js:2757-2770 | a closer temperature never gets a lower score |
| StationConfidence.WindScoreNonIncreasing | snowscope/app.js:2772-2785 | a closer wind speed never gets a lower score |
| StationConfidence.PrecipScoreNonIncreasing | snowscope/app.js:2787-2800 | a closer precipitation never gets a lower score |
| StationConfidence.WeightTotalPositive | snowscope/app.js:2801-2804 | the weight total is positive iff some part has a score |
| StationConfidence.WeightedScoreWithin | snowscope/app.js:2801-2804 | the weighted mean over available parts exists iff some part exists and lies within the parts' range |
| StationConfidence.WeightedScoreMonotonic | snowscope/app.js:2801-2804 | better sub-scores never lower the confidence score |
| StationConfidence.BuildStationConfidencePayloadAsWritten | snowscope/app.js:2693-2817 | the code as written fails exactly when there is no model snapshot and the station has a temperature or wind |
| StationConfidence.MissingSnapshotFails | snowscope/app.js:2695-2700 | a concrete station for which the code as written fails and the corrected version scores 100 |
| StationConfidence.BuildStationConfidencePayload | snowscope/app.js:2693-2817 | corrected: deltas exist iff both sides do; score in 18..100, missing iff no part exists; label from the score |
| StationConfidence.AsWrittenAgreesOtherwise | snowscope/app.js:2693-2817 | with a snapshot, or nothing to compare, both versions give the same payload |
| StationConfidence.BetterMatchNeverLessConfident | snowscope/app.js:2709-2804 | a station at least as close, fresh and well matched never gets a lower score |
| HistoryFetch.FetchSeasonHistory | snowscope/app.js:1601-1635 | the loop's outcome is the first candidate's usable payload, an abort, or the failure message |
| HistoryFetch.FoundIsFirstUsable | snowscope/app.js:1605-1624 | a payload is returned only if its hourly time axis is non-empty and no earlier candidate was usable or aborted |
| HistoryFetch.FailedMeansEveryCandidateFailed | snowscope/app.js:1605-1635 | the request fails iff no candidate was usable or aborted |
| HistoryFetch.AbortIsPassedOn | snowscope/app.js:1625-1628 | an abort ends the loop whatever later candidates would do |
| HistoryFetch.FailedMessageNamesLastFour | snowscope/app.js:1632-1634 | the failure message names the source of each of the last four failures |
| Thermochron.ComputeThermochron | cryofront/thermochron.py:249-287 | k values are 1..n; value k is the minimum over k-day windows of the window maximum; empty input gives two empty lists |
| Thermochron.ThermochronIsLowestStreakThreshold | cryofront/thermochron.py:252-259 | some k-day streak stays at or below T iff T ≥ thermochron(k) |
| Thermochron.ThermochronNonDecreasing | cryofront/thermochron.py:261-262 | the curve never decreases in k |
| Thermochron.ThermochronEnds | cryofront/thermochron.py:275-283 | thermochron(1) is the lowest high and thermochron(n) the highest |
| WinterSeasons.MakeWinterSeason | cryofront/thermochron.py:226-242 | an error iff October 1 is after the reference date or a year is out of range; else October 1 to the earlier of March 31 and the reference date, start ≤ end |
| WinterSeasons.SeasonWithinBounds | cryofront/thermochron.py:233-241 | the end is never after March 31 or the reference date, and a finished season ends on March 31 |
| WinterSeasons.CurrentSeasonYear | cryofront/thermochron.py:386-389 | the season year's October 1 is on or before the reference date, the next one after it |
| WinterSeasons.DefaultSeasons | cryofront/thermochron.py:386-391 | ten consecutive start years ending with the current season year |
| WinterSeasons.DefaultSeasonsHaveStarted | cryofront/thermochron.py:386-391 | no default season is refused as not started |

## Left out

- HTTP, `fetch`, JSON parsing, URL building, pagination, the DOM, charts and text formatting are I/O or display. Each history candidate's outcome is a parameter (`HistoryFetch.Attempt`), and so is the reference date (`date.today()`).
- Time-zone formatting, `Date` arithmetic and `findLatestHourlySnapshot` are left out. Hour and day keys are given strings.
- Station candidate ranking by haversine distance (`Math.hypot`) is trigonometric floating point and is not modelled.
- IEEE-754 floating point is not modelled: numbers are unbounded reals. NaN and infinities do not arise, so the `Number.isFinite` guards are modelled as presence tests. `toFixed` display rounding is not modelled.
- `toLowerCase` is modelled on ASCII letters only, and `trim` on a fixed set of white-space characters.
- Event `detail` strings are formatted numbers for display and are left out. Events keep date, type and title.
- Concurrency, abort signals and stale-run discarding in the `loadSeason` orchestration are not modelled.
- `mapStationObservationsToHourly`: time-zone conversion of observation timestamps to hour keys is not modelled. Each observation's hour key is given (None when it cannot be formed).
- StationObservations.ObservationRecord: converts precipitation, snowfall and snow depth with the corrected length converters (`StationUnits.ConvertQuantityToIn`/`ConvertQuantityToFt`), not the as-written ones. So a `wmoUnit:in` value is kept where the code multiplies it by 39.37. The as-written behaviour is the first row under "## Findings". The same holds for `StationObservations.MapStationObservationsToHourly`, which builds its records with `ObservationRecord`.
- `compute_thermochron`: numpy `stride_tricks` windows are plain loops, and the plotting is not modelled.
- `WinterSeasons.MakeWinterSeason`: a reference date is not checked to be a real calendar date, because Python `date` guarantees that.

## Findings

| source | as written | input that shows it | evidently intended | confidence | as-written member | corrected member |
|---|---|---|---|---|---|---|
| snowscope/app.js:2547-2583 | `convertQuantityToIn`/`convertQuantityToFt` test `unit.includes("m")` on the whole normalised code, and NWS codes carry a `wmounit:` prefix that contains `m` | a quantity `{value: 2, unitCode: "wmoUnit:in"}` becomes 78.74 in; `"wmoUnit:ft"` is multiplied by 3.28 | inches and feet pass through unchanged; only metre units are converted | medium, not executed | StationUnits.PrefixSelectsMetres | StationUnits.PrefixIgnored |
| snowscope/app.js:2695-2700 | `modelNow?.temperature_f !== null` is true when `modelNow` is null (`undefined !== null`), so `modelNow.temperature_f` is then read from `null` | no model snapshot (`findLatestHourlySnapshot` found none) and a station reporting 30 °F: a `TypeError`, and the cross-check reports failure instead of a confidence | a missing snapshot gives missing temperature and wind deltas, as it already does for precipitation | high, not executed | StationConfidence.MissingSnapshotFails | StationConfidence.BuildStationConfidencePayload |
