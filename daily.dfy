/**
 * Daily aggregation: each hour's precipitation split into rain and snow
 * water, the sun-bake index, the fluff factor, and the reduction of an
 * hourly series to one record per calendar day.
 */
module DailyAggregation {
  import opened Wrappers
  import opened KeyOrder
  import opened HourlySeries

  /** The temperature (°F) at or below which an hour counts as freezing. */
  const FreezeF: real := 32.0

  function Max(a: real, b: real): real { if a >= b then a else b }
  function Min(a: real, b: real): real { if a <= b then a else b }

  /** `clamp(v, lo, hi)` = `Math.max(lo, Math.min(hi, v))`. */
  function Clamp(v: real, lo: real, hi: real): (r: real)
    requires lo <= hi
    ensures lo <= r <= hi
    ensures lo <= v <= hi ==> r == v
  {
    Max(lo, Min(hi, v))
  }

  /** `Math.round`: the nearest integer, halves rounded up. */
  function Round(x: real): (n: int)
    ensures x - 0.5 < n as real <= x + 0.5
  {
    (x + 0.5).Floor
  }

  lemma RoundMonotonic(x: real, y: real)
    requires x <= y
    ensures Round(x) <= Round(y)
  {
  }

  function OrZero(x: Option<real>): real {
    if x.Some? then x.value else 0.0
  }

  // ---------------------------------------------------------------------------
  // Per-hour helpers
  // ---------------------------------------------------------------------------

  /** The liquid-water split of one hour, in inches. */
  datatype Phase = Phase(rainLwe: real, snowLwe: real, totalLwe: real)

  /**
   * `splitHourlyPrecipPhase`: reported rain is taken as rain and the rest of
   * the precipitation as snow water; with rain but no precipitation total all
   * of it is rain; with neither, snowfall depth at a 7:1 ratio is snow water.
   */
  function SplitHourlyPrecipPhase(r: HourlyRecord): (p: Phase)
    ensures 0.0 <= p.rainLwe && 0.0 <= p.snowLwe
    ensures p.rainLwe + p.snowLwe == p.totalLwe
    ensures Max(0.0, OrZero(r.precipLweIn)) > 0.0 ==> p.totalLwe == OrZero(r.precipLweIn)
    ensures p.rainLwe <= Max(0.0, OrZero(r.rainIn))
    ensures Max(0.0, OrZero(r.precipLweIn)) <= 0.0 && Max(0.0, OrZero(r.rainIn)) <= 0.0 ==>
              p.rainLwe == 0.0 && p.snowLwe == Max(0.0, OrZero(r.snowfallIn)) / 7.0
  {
    var rain := Max(0.0, OrZero(r.rainIn));
    var precip := Max(0.0, OrZero(r.precipLweIn));
    if precip > 0.0 then
      var rainLwe := Clamp(rain, 0.0, precip);
      var snowLwe := Clamp(precip - rainLwe, 0.0, precip);
      Phase(rainLwe, snowLwe, precip)
    else if rain > 0.0 then
      Phase(rain, 0.0, rain)
    else
      var snowfallDepth := Max(0.0, OrZero(r.snowfallIn));
      if snowfallDepth > 0.0 then Phase(0.0, snowfallDepth / 7.0, snowfallDepth / 7.0)
      else Phase(0.0, 0.0, 0.0)
  }

  /** The sun factor: shortwave energy over 18 MJ/m², clamped to [0, 1]. */
  function SunFactor(shortwaveMjM2Sum: real): (r: real)
    ensures 0.0 <= r <= 1.0
    ensures shortwaveMjM2Sum <= 0.0 ==> r == 0.0
  {
    Clamp(shortwaveMjM2Sum / 18.0, 0.0, 1.0)
  }

  /**
   * The heat-and-thaw blend: 0.65 of the heat factor (maximum temperature
   * from 28 to 40 °F) and 0.35 of the thaw factor (up to 8 thaw hours), each
   * clamped to [0, 1].
   */
  function HeatBlend(tempMaxF: real, thawHours: nat): (r: real)
    ensures 0.0 <= r <= 1.0
  {
    0.65 * Clamp((tempMaxF - 28.0) / 12.0, 0.0, 1.0) + 0.35 * Clamp(thawHours as real / 8.0, 0.0, 1.0)
  }

  /** The unrounded sun-bake fraction: the sun factor times the heat-and-thaw blend. */
  function SunBakeFraction(shortwaveMjM2Sum: real, tempMaxF: real, thawHours: nat): (f: real)
    ensures 0.0 <= f <= 1.0
    ensures shortwaveMjM2Sum <= 0.0 ==> f == 0.0
  {
    var sun := SunFactor(shortwaveMjM2Sum);
    var blend := HeatBlend(tempMaxF, thawHours);
    MulMonotonic(sun, 1.0, blend, 1.0);
    assert sun == 0.0 ==> sun * blend == 0.0;
    sun * blend
  }

  /** `computeSunBakeIndex`: the sun-bake fraction as a rounded percentage; 0 without a maximum temperature. */
  function ComputeSunBakeIndex(shortwaveMjM2Sum: real, tempMaxF: Option<real>, thawHours: nat): (r: int)
    ensures 0 <= r <= 100
    ensures tempMaxF.None? || shortwaveMjM2Sum <= 0.0 ==> r == 0
  {
    if tempMaxF.None? then 0
    else Round(100.0 * SunBakeFraction(shortwaveMjM2Sum, tempMaxF.value, thawHours))
  }

  lemma MulMonotonic(a: real, b: real, c: real, d: real)
    requires 0.0 <= a <= b && 0.0 <= c <= d
    ensures a * c <= b * d
  {
    assert a * c <= b * c;
  }

  lemma SunFactorMonotonic(s1: real, s2: real)
    requires s1 <= s2
    ensures SunFactor(s1) <= SunFactor(s2)
  {
    assert s1 / 18.0 <= s2 / 18.0;
  }

  lemma HeatBlendMonotonic(t1: real, t2: real, h1: nat, h2: nat)
    requires t1 <= t2 && h1 <= h2
    ensures HeatBlend(t1, h1) <= HeatBlend(t2, h2)
  {
    assert (t1 - 28.0) / 12.0 <= (t2 - 28.0) / 12.0;
    assert h1 as real / 8.0 <= h2 as real / 8.0;
  }

  /** More sun, more heat or more thaw hours never lower the sun-bake index. */
  lemma SunBakeMonotonic(s1: real, s2: real, t1: real, t2: real, h1: nat, h2: nat)
    requires s1 <= s2 && t1 <= t2 && h1 <= h2
    ensures ComputeSunBakeIndex(s1, Some(t1), h1) <= ComputeSunBakeIndex(s2, Some(t2), h2)
  {
    var f1 := SunBakeFraction(s1, t1, h1);
    var f2 := SunBakeFraction(s2, t2, h2);
    assert f1 <= f2 by {
      SunFactorMonotonic(s1, s2);
      HeatBlendMonotonic(t1, t2, h1, h2);
      MulMonotonic(SunFactor(s1), SunFactor(s2), HeatBlend(t1, h1), HeatBlend(t2, h2));
    }
    RoundMonotonic(100.0 * f1, 100.0 * f2);
  }

  /**
   * `computeDailyFluffFactor`: inches of snow per inch of snow water, only
   * when the day has more than 0.05 in of snowfall and more than 0.01 in of
   * snow water.
   */
  function ComputeDailyFluffFactor(snowfallIn: real, snowLweIn: real): (r: Option<real>)
    ensures r.Some? <==> snowfallIn > 0.05 && snowLweIn > 0.01
    ensures r.Some? ==> r.value > 0.0 && r.value * snowLweIn == snowfallIn
  {
    if snowfallIn <= 0.05 then None
    else if snowLweIn <= 0.01 then None
    else Some(snowfallIn / snowLweIn)
  }

  // ---------------------------------------------------------------------------
  // The day accumulator
  // ---------------------------------------------------------------------------

  /** The running totals of one day, as `aggregateDaily` keeps them before formatting. */
  datatype DayAcc = DayAcc(
    date: string,
    snowfallSum: real,
    rainRawSum: real,
    rainSum: real,
    snowLweSum: real,
    lweSum: real,
    windSum: real,
    windCount: nat,
    windMax: Option<real>,
    tempMin: Option<real>,
    tempMax: Option<real>,
    freezeHours: nat,
    thawHours: nat,
    shortwaveMjM2Sum: real,
    snowDepthEnd: Option<real>,
    snowDepthMax: Option<real>)

  function EmptyAcc(date: string): DayAcc {
    DayAcc(date, 0.0, 0.0, 0.0, 0.0, 0.0, 0.0, 0, None, None, None, 0, 0, 0.0, None, None)
  }

  function MaxOpt(acc: Option<real>, v: real): real {
    if acc.None? then v else Max(acc.value, v)
  }

  function MinOpt(acc: Option<real>, v: real): real {
    if acc.None? then v else Min(acc.value, v)
  }

  /** One hour folded into its day. */
  function Step(d: DayAcc, r: HourlyRecord): DayAcc {
    var phase := SplitHourlyPrecipPhase(r);
    d.(
      snowfallSum := d.snowfallSum + OrZero(r.snowfallIn),
      rainRawSum := d.rainRawSum + OrZero(r.rainIn),
      rainSum := d.rainSum + OrZero(r.rainIn),
      snowLweSum := d.snowLweSum + phase.snowLwe,
      lweSum := d.lweSum + phase.totalLwe,
      windSum := if r.windMph.Some? then d.windSum + r.windMph.value else d.windSum,
      windCount := if r.windMph.Some? then d.windCount + 1 else d.windCount,
      windMax := if r.windMph.Some? then Some(MaxOpt(d.windMax, r.windMph.value)) else d.windMax,
      tempMin := if r.temperatureF.Some? then Some(MinOpt(d.tempMin, r.temperatureF.value)) else d.tempMin,
      tempMax := if r.temperatureF.Some? then Some(MaxOpt(d.tempMax, r.temperatureF.value)) else d.tempMax,
      freezeHours := if r.temperatureF.Some? && r.temperatureF.value <= FreezeF then d.freezeHours + 1 else d.freezeHours,
      thawHours := if r.temperatureF.Some? && r.temperatureF.value > FreezeF then d.thawHours + 1 else d.thawHours,
      shortwaveMjM2Sum := d.shortwaveMjM2Sum + OrZero(r.shortwaveWm2) * 0.0036,
      snowDepthEnd := if r.snowDepthIn.Some? then r.snowDepthIn else d.snowDepthEnd,
      snowDepthMax := if r.snowDepthIn.Some? then Some(MaxOpt(d.snowDepthMax, r.snowDepthIn.value)) else d.snowDepthMax)
  }

  /** The accumulator of one day after every hour of the series that falls on it, in order. */
  function FoldDay(hours: seq<HourlyRecord>, date: string): (d: DayAcc)
    ensures d.date == date
  {
    if hours == [] then EmptyAcc(date)
    else
      var d := FoldDay(hours[..|hours| - 1], date);
      if DayKey(hours[|hours| - 1].time) == date then Step(d, hours[|hours| - 1]) else d
  }

  /** The days that have at least one hour. */
  function DayKeys(hours: seq<HourlyRecord>): set<string> {
    if hours == [] then {} else DayKeys(hours[..|hours| - 1]) + {DayKey(hours[|hours| - 1].time)}
  }

  lemma {:induction false} FoldDayAbsent(hours: seq<HourlyRecord>, date: string)
    requires date !in DayKeys(hours)
    ensures FoldDay(hours, date) == EmptyAcc(date)
  {
    if hours != [] {
      FoldDayAbsent(hours[..|hours| - 1], date);
    }
  }

  lemma FoldDayStep(hours: seq<HourlyRecord>, i: nat)
    requires i < |hours|
    ensures DayKeys(hours[..i + 1]) == DayKeys(hours[..i]) + {DayKey(hours[i].time)}
    ensures forall x :: FoldDay(hours[..i + 1], x)
              == if DayKey(hours[i].time) == x then Step(FoldDay(hours[..i], x), hours[i]) else FoldDay(hours[..i], x)
  {
    assert hours[..i + 1][..i] == hours[..i];
  }

  /** One record per day, as `aggregateDaily` returns it (display rounding aside). */
  datatype DailyRecord = DailyRecord(
    date: string,
    snowfallInSum: real,
    rainRawInSum: real,
    rainInSum: real,
    snowLweInSum: real,
    lweInSum: real,
    windAvgMph: Option<real>,
    windMaxMph: Option<real>,
    tempMinF: Option<real>,
    tempMaxF: Option<real>,
    freezeHours: nat,
    thawHours: nat,
    shortwaveMjM2Sum: real,
    snowDepthEndIn: Option<real>,
    snowDepthMaxIn: Option<real>,
    sunBakeIndex: int,
    fluffFactor: Option<real>)

  function Finalize(d: DayAcc): (r: DailyRecord)
    ensures r.date == d.date
  {
    DailyRecord(
      d.date, d.snowfallSum, d.rainRawSum, d.rainSum, d.snowLweSum, d.lweSum,
      if d.windCount > 0 then Some(d.windSum / d.windCount as real) else None,
      d.windMax, d.tempMin, d.tempMax, d.freezeHours, d.thawHours, d.shortwaveMjM2Sum,
      d.snowDepthEnd, d.snowDepthMax,
      ComputeSunBakeIndex(d.shortwaveMjM2Sum, d.tempMax, d.thawHours),
      ComputeDailyFluffFactor(d.snowfallSum, d.snowLweSum))
  }

  function Dates(days: seq<DailyRecord>): (r: seq<string>)
    ensures |r| == |days| && forall j :: 0 <= j < |days| ==> r[j] == days[j].date
  {
    seq(|days|, j requires 0 <= j < |days| => days[j].date)
  }

  /** The grouping loop of `aggregateDaily`: each day's accumulator after all of its hours, in series order. */
  method GroupByDay(hours: seq<HourlyRecord>) returns (byDay: map<string, DayAcc>)
    ensures byDay.Keys == DayKeys(hours)
    ensures forall day :: day in byDay ==> byDay[day] == FoldDay(hours, day)
  {
    byDay := map[];
    for i := 0 to |hours|
      invariant byDay.Keys == DayKeys(hours[..i])
      invariant forall day :: day in byDay ==> byDay[day] == FoldDay(hours[..i], day)
    {
      var r := hours[i];
      var day := DayKey(r.time);
      FoldDayStep(hours, i);
      if day !in byDay {
        FoldDayAbsent(hours[..i], day);
        byDay := byDay[day := EmptyAcc(day)];
      }
      byDay := byDay[day := Step(byDay[day], r)];
    }
    assert hours[..|hours|] == hours;
  }

  /**
   * `aggregateDaily`: one record per calendar day that has an hour, in
   * increasing date order, each the day's accumulator after all of its hours
   * in series order.
   */
  method AggregateDaily(hours: seq<HourlyRecord>) returns (days: seq<DailyRecord>)
    ensures StrictlySorted(Dates(days))
    ensures forall x :: x in Dates(days) <==> x in DayKeys(hours)
    ensures forall j :: 0 <= j < |days| ==> days[j] == Finalize(FoldDay(hours, days[j].date))
  {
    var byDay := GroupByDay(hours);
    var keys := SortKeys(byDay.Keys);
    days := seq(|keys|, j requires 0 <= j < |keys| => Finalize(byDay[keys[j]]));
    assert Dates(days) == keys;
  }

  // ---------------------------------------------------------------------------
  // What a day's figures satisfy
  // ---------------------------------------------------------------------------

  /** The consistency a day's accumulator keeps hour after hour. */
  predicate Consistent(d: DayAcc) {
    && (d.tempMin.Some? <==> d.tempMax.Some?)
    && (d.tempMin.Some? ==> d.tempMin.value <= d.tempMax.value)
    && (d.windMax.Some? <==> d.windCount > 0)
    && (d.windCount == 0 ==> d.windSum == 0.0)
    && (d.windCount > 0 ==> d.windSum <= d.windCount as real * d.windMax.value)
    && (d.snowDepthEnd.Some? <==> d.snowDepthMax.Some?)
    && (d.snowDepthEnd.Some? ==> d.snowDepthEnd.value <= d.snowDepthMax.value)
    && 0.0 <= d.snowLweSum <= d.lweSum
  }

  /** A running sum of `n` values each at most `dm` stays within the count times a larger maximum `m`. */
  lemma SumWithinBound(sum: real, n: real, dm: real, w: real, m: real)
    requires 0.0 <= n && sum <= n * dm && dm <= m && w <= m
    ensures sum + w <= (n + 1.0) * m
  {
    assert n * dm <= n * m;
  }

  lemma StepConsistent(d: DayAcc, r: HourlyRecord)
    requires Consistent(d)
    ensures Consistent(Step(d, r))
  {
    var s := Step(d, r);
    if r.windMph.Some? && d.windCount > 0 {
      var w := r.windMph.value;
      var m := s.windMax.value;
      assert s.windCount as real == d.windCount as real + 1.0;
      assert s.windSum == d.windSum + w;
      SumWithinBound(d.windSum, d.windCount as real, d.windMax.value, w, m);
    } else if r.windMph.Some? {
      assert s.windCount == 1 && s.windMax == r.windMph && s.windSum == r.windMph.value;
    }
  }

  /** The hours of a day that have a temperature. */
  function TempHours(hours: seq<HourlyRecord>, date: string): nat {
    if hours == [] then 0
    else
      var r := hours[|hours| - 1];
      TempHours(hours[..|hours| - 1], date) + (if DayKey(r.time) == date && r.temperatureF.Some? then 1 else 0)
  }

  /** The snowfall of a day's hours, null counted as zero. */
  function DaySnowfall(hours: seq<HourlyRecord>, date: string): real {
    if hours == [] then 0.0
    else
      var r := hours[|hours| - 1];
      DaySnowfall(hours[..|hours| - 1], date) + (if DayKey(r.time) == date then OrZero(r.snowfallIn) else 0.0)
  }

  /** Every day's accumulator stays consistent, whatever its hours. */
  lemma {:induction false} FoldDayConsistent(hours: seq<HourlyRecord>, date: string)
    ensures Consistent(FoldDay(hours, date))
  {
    if hours != [] {
      var init := hours[..|hours| - 1];
      FoldDayConsistent(init, date);
      if DayKey(hours[|hours| - 1].time) == date {
        StepConsistent(FoldDay(init, date), hours[|hours| - 1]);
      }
    }
  }

  /** Every hour of a day that has a temperature is either a freeze hour or a thaw hour. */
  lemma {:induction false} FreezePlusThaw(hours: seq<HourlyRecord>, date: string)
    ensures FoldDay(hours, date).freezeHours + FoldDay(hours, date).thawHours == TempHours(hours, date)
  {
    if hours != [] {
      FreezePlusThaw(hours[..|hours| - 1], date);
    }
  }

  /** A day's snowfall sum is the snowfall of its hours. */
  lemma {:induction false} DaySnowfallSum(hours: seq<HourlyRecord>, date: string)
    ensures FoldDay(hours, date).snowfallSum == DaySnowfall(hours, date)
  {
    if hours != [] {
      DaySnowfallSum(hours[..|hours| - 1], date);
    }
  }

  /**
   * Every day's figures hang together: the minimum temperature is at most the
   * maximum, the average wind at most the maximum wind, the closing snow depth
   * at most the day's maximum and snow water at most all water.
   */
  lemma DailyRecordConsistent(hours: seq<HourlyRecord>, date: string)
    ensures var day := Finalize(FoldDay(hours, date));
      && (day.tempMinF.Some? <==> day.tempMaxF.Some?)
      && (day.tempMinF.Some? ==> day.tempMinF.value <= day.tempMaxF.value)
      && (day.windAvgMph.Some? <==> day.windMaxMph.Some?)
      && (day.windAvgMph.Some? ==> day.windAvgMph.value <= day.windMaxMph.value)
      && (day.snowDepthEndIn.Some? ==> day.snowDepthMaxIn.Some? && day.snowDepthEndIn.value <= day.snowDepthMaxIn.value)
      && 0.0 <= day.snowLweInSum <= day.lweInSum
  {
    FoldDayConsistent(hours, date);
    FinalizeConsistent(FoldDay(hours, date));
  }

  /** The figures of a finished day hang together (see `DailyRecordConsistent`). */
  predicate RecordConsistent(day: DailyRecord) {
    && (day.tempMinF.Some? <==> day.tempMaxF.Some?)
    && (day.tempMinF.Some? ==> day.tempMinF.value <= day.tempMaxF.value)
    && (day.windAvgMph.Some? <==> day.windMaxMph.Some?)
    && (day.windAvgMph.Some? ==> day.windAvgMph.value <= day.windMaxMph.value)
    && (day.snowDepthEndIn.Some? ==> day.snowDepthMaxIn.Some? && day.snowDepthEndIn.value <= day.snowDepthMaxIn.value)
    && 0.0 <= day.snowLweInSum <= day.lweInSum
  }

  /** Finishing a consistent accumulator gives a consistent day; the average wind is the sum over the count. */
  lemma FinalizeConsistent(d: DayAcc)
    requires Consistent(d)
    ensures RecordConsistent(Finalize(d))
  {
    var day := Finalize(d);
    assert day.tempMinF == d.tempMin && day.tempMaxF == d.tempMax && day.windMaxMph == d.windMax;
    assert day.snowDepthEndIn == d.snowDepthEnd && day.snowDepthMaxIn == d.snowDepthMax;
    assert day.snowLweInSum == d.snowLweSum && day.lweInSum == d.lweSum;
    if d.windCount > 0 {
      var n := d.windCount as real;
      assert day.windAvgMph == Some(d.windSum / n);
      DivAtMost(d.windSum, n, d.windMax.value);
    }
  }

  lemma DivAtMost(s: real, n: real, m: real)
    requires n > 0.0 && s <= n * m
    ensures s / n <= m
  {
    assert s / n * n == s;
  }

  /** The snowfall of all the hours on a list of days, each day counted once. */
  function SnowfallOverDays(hours: seq<HourlyRecord>, dates: seq<string>): real {
    if dates == [] then 0.0 else DaySnowfall(hours, dates[0]) + SnowfallOverDays(hours, dates[1..])
  }

  function TotalSnowfall(hours: seq<HourlyRecord>): real {
    if hours == [] then 0.0 else TotalSnowfall(hours[..|hours| - 1]) + OrZero(hours[|hours| - 1].snowfallIn)
  }

  /** Adding one hour adds its snowfall to exactly the one listed day it falls on. */
  lemma {:induction false} SnowfallOverDaysStep(hours: seq<HourlyRecord>, dates: seq<string>)
    requires hours != []
    requires forall i, j :: 0 <= i < j < |dates| ==> dates[i] != dates[j]
    ensures var r := hours[|hours| - 1];
      SnowfallOverDays(hours, dates)
      == SnowfallOverDays(hours[..|hours| - 1], dates) + (if DayKey(r.time) in dates then OrZero(r.snowfallIn) else 0.0)
  {
    if dates != [] {
      SnowfallOverDaysStep(hours, dates[1..]);
      var r := hours[|hours| - 1];
      if DayKey(r.time) == dates[0] {
        assert DayKey(r.time) !in dates[1..];
      }
    }
  }

  /**
   * Daily snowfall is conserved: over distinct days that include every day of
   * the series, the daily sums add up to the snowfall of all hours.
   */
  lemma {:induction false} SnowfallConserved(hours: seq<HourlyRecord>, dates: seq<string>)
    requires forall i, j :: 0 <= i < j < |dates| ==> dates[i] != dates[j]
    requires forall x :: x in DayKeys(hours) ==> x in dates
    ensures SnowfallOverDays(hours, dates) == TotalSnowfall(hours)
  {
    if hours == [] {
      SnowfallOverDaysEmpty(dates);
    } else {
      var init := hours[..|hours| - 1];
      assert forall x :: x in DayKeys(init) ==> x in dates;
      SnowfallConserved(init, dates);
      SnowfallOverDaysStep(hours, dates);
    }
  }

  lemma {:induction false} SnowfallOverDaysEmpty(dates: seq<string>)
    ensures SnowfallOverDays([], dates) == 0.0
  {
    if dates != [] {
      SnowfallOverDaysEmpty(dates[1..]);
    }
  }
}
