/**
 * Station mode: the hourly model series with station values laid over it,
 * metric by metric, and the per-metric tally of which source supplied each
 * value, from which every chart derives its source label.
 */
module SourceMerge {
  import opened Wrappers
  import opened HourlySeries

  /** The metrics whose source is tallied. */
  datatype Metric = Temperature | Snowfall | Rain | Precip | Wind | Shortwave | SnowDepth | FreezingLevel

  /** How many merged hours took a metric from the station and how many from the model. */
  datatype Counts = Counts(station: nat, model: nat)

  /** The value of a metric in an hourly record. */
  function MetricValue(r: HourlyRecord, m: Metric): Option<real> {
    match m
    case Temperature => r.temperatureF
    case Snowfall => r.snowfallIn
    case Rain => r.rainIn
    case Precip => r.precipLweIn
    case Wind => r.windMph
    case Shortwave => r.shortwaveWm2
    case SnowDepth => r.snowDepthIn
    case FreezingLevel => r.freezingLevelFt
  }

  /** The station value when there is one, otherwise the model value. */
  function Pick(stationValue: Option<real>, modelValue: Option<real>): (r: Option<real>)
    ensures stationValue.Some? ==> r == stationValue
    ensures stationValue.None? ==> r == modelValue
  {
    if stationValue.Some? then stationValue else modelValue
  }

  /** The tally after one choice: a station value counts for the station, else a model value for the model. */
  function Tally(c: Counts, stationValue: Option<real>, modelValue: Option<real>): (r: Counts)
    ensures r.station + r.model == c.station + c.model + (if Pick(stationValue, modelValue).Some? then 1 else 0)
    ensures r.station >= c.station && r.model >= c.model
  {
    if stationValue.Some? then Counts(c.station + 1, c.model)
    else if modelValue.Some? then Counts(c.station, c.model + 1)
    else c
  }

  /** The per-metric source tally that the merge fills and the charts read. */
  class MetricSourceStats {
    var counts: map<Metric, Counts>

    /** Every metric has a tally. */
    predicate Valid()
      reads this
    {
      forall m: Metric :: m in counts
    }

    /** `createEmptyMetricSourceStats`: every metric at zero for both sources. */
    constructor ()
      ensures Valid()
      ensures forall m: Metric :: counts[m] == Counts(0, 0)
    {
      counts := map[Temperature := Counts(0, 0), Snowfall := Counts(0, 0), Rain := Counts(0, 0),
                    Precip := Counts(0, 0), Wind := Counts(0, 0), Shortwave := Counts(0, 0),
                    SnowDepth := Counts(0, 0), FreezingLevel := Counts(0, 0)];
      new;
      forall m: Metric ensures m in counts {
        match m
        case Temperature =>
        case Snowfall =>
        case Rain =>
        case Precip =>
        case Wind =>
        case Shortwave =>
        case SnowDepth =>
        case FreezingLevel =>
      }
    }

    /** `chooseMetricValue`: the station value wins over the model value, and the source used is tallied. */
    method ChooseMetricValue(metric: Metric, stationValue: Option<real>, modelValue: Option<real>)
      returns (v: Option<real>)
      requires Valid()
      modifies this
      ensures Valid()
      ensures v == Pick(stationValue, modelValue)
      ensures counts == old(counts)[metric := Tally(old(counts)[metric], stationValue, modelValue)]
    {
      v := None;
      if stationValue.Some? {
        counts := counts[metric := Counts(counts[metric].station + 1, counts[metric].model)];
        v := stationValue;
      } else if modelValue.Some? {
        counts := counts[metric := Counts(counts[metric].station, counts[metric].model + 1)];
        v := modelValue;
      }
    }

    /**
     * After the merge in station mode the snowfall tally is credited to the
     * model as a whole: station 0, model the old total but at least 1.
     */
    method AttributeSnowfallToModel()
      requires Valid()
      modifies this
      ensures Valid()
      ensures counts == old(counts)[Snowfall := Counts(0, Max1(old(counts)[Snowfall].station + old(counts)[Snowfall].model))]
    {
      var total := counts[Snowfall].station + counts[Snowfall].model;
      counts := counts[Snowfall := Counts(0, Max1(total))];
    }

    /** `getChartSourceFromMetrics`: adds up the tallies of a chart's metrics. */
    method GetChartSourceFromMetrics(chartId: string) returns (source: ChartSource)
      ensures source == SourceFor(counts, ChartMetrics(chartId))
    {
      var metrics := ChartMetrics(chartId);
      if |metrics| == 0 {
        return Model;
      }
      var stationCount := 0;
      var modelCount := 0;
      for k := 0 to |metrics|
        invariant stationCount == StationTotal(counts, metrics[..k])
        invariant modelCount == ModelTotal(counts, metrics[..k])
      {
        assert metrics[..k + 1][..k] == metrics[..k];
        if metrics[k] !in counts {
          continue;
        }
        stationCount := stationCount + counts[metrics[k]].station;
        modelCount := modelCount + counts[metrics[k]].model;
      }
      assert metrics[..|metrics|] == metrics;
      if stationCount <= 0 {
        return Model;
      }
      if modelCount <= 0 {
        return Station;
      }
      return Mixed;
    }
  }

  function Max1(n: nat): (r: nat)
    ensures r >= 1 && r >= n && (n >= 1 ==> r == n)
  {
    if n >= 1 then n else 1
  }

  // ---------------------------------------------------------------------------
  // Chart sources
  // ---------------------------------------------------------------------------

  datatype ChartSource = Model | Station | Mixed

  /** The metrics each chart draws; an unknown chart draws none. */
  function ChartMetrics(chartId: string): seq<Metric> {
    if chartId == "events-timeline-chart" then [Temperature, Wind, Snowfall, Rain, SnowDepth, Shortwave]
    else if chartId == "temperature-chart" then [Temperature]
    else if chartId == "freezing-level-chart" then [FreezingLevel]
    else if chartId == "precip-chart" then [Snowfall, Rain]
    else if chartId == "fluff-chart" then [Snowfall, Precip, Rain]
    else if chartId == "powder-chart" then [Temperature, Wind, Snowfall, Rain, Precip, SnowDepth, Shortwave]
    else if chartId == "snowpack-chart" then [SnowDepth]
    else if chartId == "wind-chart" then [Wind]
    else if chartId == "sun-chart" then [Shortwave]
    else []
  }

  /** The station tallies of the listed metrics; a metric without a tally adds nothing. */
  function StationTotal(counts: map<Metric, Counts>, metrics: seq<Metric>): nat {
    if metrics == [] then 0
    else
      var m := metrics[|metrics| - 1];
      StationTotal(counts, metrics[..|metrics| - 1]) + (if m in counts then counts[m].station else 0)
  }

  function ModelTotal(counts: map<Metric, Counts>, metrics: seq<Metric>): nat {
    if metrics == [] then 0
    else
      var m := metrics[|metrics| - 1];
      ModelTotal(counts, metrics[..|metrics| - 1]) + (if m in counts then counts[m].model else 0)
  }

  /** A chart is "model" when no station value fed it, "station" when only station values did, else "mixed". */
  function SourceFor(counts: map<Metric, Counts>, metrics: seq<Metric>): (r: ChartSource)
    ensures r == Model <==> metrics == [] || StationTotal(counts, metrics) == 0
    ensures r == Station <==> metrics != [] && StationTotal(counts, metrics) > 0 && ModelTotal(counts, metrics) == 0
  {
    if metrics == [] then Model
    else if StationTotal(counts, metrics) == 0 then Model
    else if ModelTotal(counts, metrics) == 0 then Station
    else Mixed
  }

  /** Some listed metric has a station tally exactly when the station total is positive. */
  lemma {:induction false} StationTotalPositive(counts: map<Metric, Counts>, metrics: seq<Metric>)
    ensures StationTotal(counts, metrics) > 0 <==>
              exists k :: 0 <= k < |metrics| && metrics[k] in counts && counts[metrics[k]].station > 0
  {
    if metrics != [] {
      var init := metrics[..|metrics| - 1];
      StationTotalPositive(counts, init);
      if StationTotal(counts, init) > 0 {
        var k :| 0 <= k < |init| && init[k] in counts && counts[init[k]].station > 0;
        assert metrics[k] == init[k];
      }
      if exists k :: 0 <= k < |metrics| && metrics[k] in counts && counts[metrics[k]].station > 0 {
        var k :| 0 <= k < |metrics| && metrics[k] in counts && counts[metrics[k]].station > 0;
        if k < |init| {
          assert init[k] == metrics[k];
        }
      }
    }
  }

  lemma {:induction false} ModelTotalPositive(counts: map<Metric, Counts>, metrics: seq<Metric>)
    ensures ModelTotal(counts, metrics) > 0 <==>
              exists k :: 0 <= k < |metrics| && metrics[k] in counts && counts[metrics[k]].model > 0
  {
    if metrics != [] {
      var init := metrics[..|metrics| - 1];
      ModelTotalPositive(counts, init);
      if ModelTotal(counts, init) > 0 {
        var k :| 0 <= k < |init| && init[k] in counts && counts[init[k]].model > 0;
        assert metrics[k] == init[k];
      }
      if exists k :: 0 <= k < |metrics| && metrics[k] in counts && counts[metrics[k]].model > 0 {
        var k :| 0 <= k < |metrics| && metrics[k] in counts && counts[metrics[k]].model > 0;
        if k < |init| {
          assert init[k] == metrics[k];
        }
      }
    }
  }

  /**
   * Once the snowfall tally is credited to the model, a chart drawing only
   * snowfall reads "model", and the snowfall metric alone never makes a chart
   * "station".
   */
  lemma SnowfallAttributionShowsModel(counts: map<Metric, Counts>, total: nat)
    ensures SourceFor(counts[Snowfall := Counts(0, Max1(total))], [Snowfall]) == Model
    ensures (SourceFor(counts[Snowfall := Counts(0, Max1(total))], ChartMetrics("precip-chart")) == Station)
              ==> Rain in counts && counts[Rain].station > 0
  {
    var c := counts[Snowfall := Counts(0, Max1(total))];
    assert [Snowfall][..0] == [];
    assert StationTotal(c, [Snowfall]) == 0;
    var ms := ChartMetrics("precip-chart");
    assert ms == [Snowfall, Rain];
    assert ms[..1] == [Snowfall] && ms[..1][..0] == [];
  }

  // ---------------------------------------------------------------------------
  // The merge
  // ---------------------------------------------------------------------------

  /** The station record of each hour: records without a time are skipped, and a later record replaces an earlier one. */
  function StationIndex(station: seq<HourlyRecord>): map<string, HourlyRecord> {
    if station == [] then map[]
    else
      var r := station[|station| - 1];
      var m := StationIndex(station[..|station| - 1]);
      if r.time != "" then m[r.time := r] else m
  }

  /** The station value of a metric at an hour, None when the station has no record for the hour. */
  function StationValue(st: Option<HourlyRecord>, m: Metric): Option<real> {
    if st.Some? then MetricValue(st.value, m) else None
  }

  function Lookup(index: map<string, HourlyRecord>, t: string): Option<HourlyRecord> {
    if t in index then Some(index[t]) else None
  }

  /** One merged hour: the model hour with every station value that exists laid over it. */
  function MergeHour(model: HourlyRecord, st: Option<HourlyRecord>): (r: HourlyRecord)
    ensures r.time == model.time
    ensures forall m: Metric :: MetricValue(r, m) == Pick(StationValue(st, m), MetricValue(model, m))
    ensures r.gustMph == Pick(if st.Some? then st.value.gustMph else None, model.gustMph)
  {
    HourlyRecord(
      model.time,
      Pick(StationValue(st, Temperature), model.temperatureF),
      Pick(StationValue(st, Snowfall), model.snowfallIn),
      Pick(StationValue(st, Rain), model.rainIn),
      Pick(StationValue(st, Precip), model.precipLweIn),
      Pick(StationValue(st, Wind), model.windMph),
      Pick(if st.Some? then st.value.gustMph else None, model.gustMph),
      Pick(StationValue(st, Shortwave), model.shortwaveWm2),
      Pick(StationValue(st, SnowDepth), model.snowDepthIn),
      Pick(StationValue(st, FreezingLevel), model.freezingLevelFt))
  }

  /** The tally of one metric over a run of model hours. */
  function TallyAll(model: seq<HourlyRecord>, index: map<string, HourlyRecord>, m: Metric): Counts {
    if model == [] then Counts(0, 0)
    else
      var r := model[|model| - 1];
      Tally(TallyAll(model[..|model| - 1], index, m), StationValue(Lookup(index, r.time), m), MetricValue(r, m))
  }

  /** The merged records: one per model hour, in model order. */
  function MergedHours(model: seq<HourlyRecord>, index: map<string, HourlyRecord>): (r: seq<HourlyRecord>)
    ensures |r| == |model|
  {
    seq(|model|, i requires 0 <= i < |model| => MergeHour(model[i], Lookup(index, model[i].time)))
  }

  /**
   * `mergeModelAndStationHourly`: the model hours in order, each with the
   * station values of its hour laid over it, and a fresh tally counting, per
   * metric, the hours that took the station value and the hours that took
   * the model value.
   */
  method MergeModelAndStationHourly(model: seq<HourlyRecord>, station: seq<HourlyRecord>)
    returns (merged: seq<HourlyRecord>, stats: MetricSourceStats)
    ensures fresh(stats) && stats.Valid()
    ensures merged == MergedHours(model, StationIndex(station))
    ensures forall m: Metric :: stats.counts[m] == TallyAll(model, StationIndex(station), m)
  {
    stats := new MetricSourceStats();
    var stationByHour := IndexStation(station);
    merged := [];
    for i := 0 to |model|
      invariant stats.Valid()
      invariant merged == MergedHours(model[..i], stationByHour)
      invariant forall m: Metric :: stats.counts[m] == TallyAll(model[..i], stationByHour, m)
    {
      var r := model[i];
      var st := Lookup(stationByHour, r.time);
      var hour := MergeOneHour(stats, r, st);
      MergedStep(model, stationByHour, i);
      merged := merged + [hour];
    }
    assert model[..|model|] == model;
  }

  /** The station records keyed by hour, built by one pass over them. */
  method IndexStation(station: seq<HourlyRecord>) returns (byHour: map<string, HourlyRecord>)
    ensures byHour == StationIndex(station)
  {
    byHour := map[];
    for i := 0 to |station|
      invariant byHour == StationIndex(station[..i])
    {
      assert station[..i + 1][..i] == station[..i];
      if station[i].time != "" {
        byHour := byHour[station[i].time := station[i]];
      }
    }
    assert station[..|station|] == station;
  }

  /** One more model hour: one more merged record, and every tally moves by that hour's choice. */
  lemma MergedStep(model: seq<HourlyRecord>, index: map<string, HourlyRecord>, i: nat)
    requires i < |model|
    ensures MergedHours(model[..i + 1], index)
            == MergedHours(model[..i], index) + [MergeHour(model[i], Lookup(index, model[i].time))]
    ensures forall m: Metric ::
              TallyAll(model[..i + 1], index, m) == Tally(TallyAll(model[..i], index, m), StationValue(Lookup(index, model[i].time), m), MetricValue(model[i], m))
  {
    assert model[..i + 1][..i] == model[..i];
  }

  /** The tallies after one hour's eight choices, in the order the merge makes them. */
  function TallyHour(c: map<Metric, Counts>, st: Option<HourlyRecord>, r: HourlyRecord): map<Metric, Counts>
    requires forall m: Metric :: m in c
  {
    var c1 := c[Temperature := Tally(c[Temperature], StationValue(st, Temperature), r.temperatureF)];
    var c2 := c1[Snowfall := Tally(c1[Snowfall], StationValue(st, Snowfall), r.snowfallIn)];
    var c3 := c2[Rain := Tally(c2[Rain], StationValue(st, Rain), r.rainIn)];
    var c4 := c3[Precip := Tally(c3[Precip], StationValue(st, Precip), r.precipLweIn)];
    var c5 := c4[Wind := Tally(c4[Wind], StationValue(st, Wind), r.windMph)];
    var c6 := c5[Shortwave := Tally(c5[Shortwave], StationValue(st, Shortwave), r.shortwaveWm2)];
    var c7 := c6[SnowDepth := Tally(c6[SnowDepth], StationValue(st, SnowDepth), r.snowDepthIn)];
    c7[FreezingLevel := Tally(c7[FreezingLevel], StationValue(st, FreezingLevel), r.freezingLevelFt)]
  }

  /** Each metric is chosen once per hour, so each tally moves by that metric's own choice only. */
  lemma TallyHourPerMetric(c: map<Metric, Counts>, st: Option<HourlyRecord>, r: HourlyRecord)
    requires forall m: Metric :: m in c
    ensures forall m: Metric :: m in TallyHour(c, st, r)
    ensures forall m: Metric :: TallyHour(c, st, r)[m] == Tally(c[m], StationValue(st, m), MetricValue(r, m))
  {
    var after := TallyHour(c, st, r);
    forall m: Metric ensures m in after && after[m] == Tally(c[m], StationValue(st, m), MetricValue(r, m)) {
      match m
      case Temperature =>
      case Snowfall =>
      case Rain =>
      case Precip =>
      case Wind =>
      case Shortwave =>
      case SnowDepth =>
      case FreezingLevel =>
    }
  }

  /** The body of the merge's map callback: eight metric choices, then the gust fallback. */
  method MergeOneHour(stats: MetricSourceStats, r: HourlyRecord, st: Option<HourlyRecord>) returns (hour: HourlyRecord)
    requires stats.Valid()
    modifies stats
    ensures stats.Valid()
    ensures hour == MergeHour(r, st)
    ensures forall m: Metric :: stats.counts[m] == Tally(old(stats.counts)[m], StationValue(st, m), MetricValue(r, m))
  {
    ghost var c0 := stats.counts;
    var temperature := stats.ChooseMetricValue(Temperature, StationValue(st, Temperature), r.temperatureF);
    var snowfall := stats.ChooseMetricValue(Snowfall, StationValue(st, Snowfall), r.snowfallIn);
    var rain := stats.ChooseMetricValue(Rain, StationValue(st, Rain), r.rainIn);
    var precip := stats.ChooseMetricValue(Precip, StationValue(st, Precip), r.precipLweIn);
    var wind := stats.ChooseMetricValue(Wind, StationValue(st, Wind), r.windMph);
    var shortwave := stats.ChooseMetricValue(Shortwave, StationValue(st, Shortwave), r.shortwaveWm2);
    var snowDepth := stats.ChooseMetricValue(SnowDepth, StationValue(st, SnowDepth), r.snowDepthIn);
    var freezingLevel := stats.ChooseMetricValue(FreezingLevel, StationValue(st, FreezingLevel), r.freezingLevelFt);
    assert stats.counts == TallyHour(c0, st, r);
    TallyHourPerMetric(c0, st, r);
    var gust := Pick(if st.Some? then st.value.gustMph else None, r.gustMph);
    hour := HourlyRecord(r.time, temperature, snowfall, rain, precip, wind, gust, shortwave, snowDepth, freezingLevel);
  }

  /** The number of hours in which a metric has a value. */
  function ValueCount(hours: seq<HourlyRecord>, m: Metric): nat {
    if hours == [] then 0
    else ValueCount(hours[..|hours| - 1], m) + (if MetricValue(hours[|hours| - 1], m).Some? then 1 else 0)
  }

  /** Every merged value is tallied exactly once: station plus model hits is the number of merged hours with a value. */
  lemma {:induction false} TallyCountsMergedValues(model: seq<HourlyRecord>, index: map<string, HourlyRecord>, m: Metric)
    ensures TallyAll(model, index, m).station + TallyAll(model, index, m).model == ValueCount(MergedHours(model, index), m)
  {
    if model != [] {
      var init := model[..|model| - 1];
      var merged := MergedHours(model, index);
      var last := model[|model| - 1];
      var st := Lookup(index, last.time);
      TallyCountsMergedValues(init, index, m);
      assert merged[..|model| - 1] == MergedHours(init, index);
      assert merged[|model| - 1] == MergeHour(last, st);
      assert MetricValue(merged[|model| - 1], m) == Pick(StationValue(st, m), MetricValue(last, m));
    }
  }

  /** Without station records the merge returns the model hours unchanged and tallies no station value. */
  lemma {:induction false} MergeWithoutStation(model: seq<HourlyRecord>, m: Metric)
    ensures MergedHours(model, StationIndex([])) == model
    ensures TallyAll(model, StationIndex([]), m).station == 0
  {
    var merged := MergedHours(model, StationIndex([]));
    forall i | 0 <= i < |model| ensures merged[i] == model[i] {
      var r := model[i];
      assert MergeHour(r, None) == r;
    }
    if model != [] {
      MergeWithoutStation(model[..|model| - 1], m);
    }
  }

  /** A model hour with a station record at the same hour takes every value the station has. */
  lemma StationValueWins(model: seq<HourlyRecord>, station: seq<HourlyRecord>, i: nat, m: Metric)
    requires i < |model| && model[i].time in StationIndex(station)
    requires MetricValue(StationIndex(station)[model[i].time], m).Some?
    ensures MetricValue(MergedHours(model, StationIndex(station))[i], m)
            == MetricValue(StationIndex(station)[model[i].time], m)
  {
  }
}
