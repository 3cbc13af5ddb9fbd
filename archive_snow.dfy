/**
 * The archive snowfall overlay: daily snowfall totals replaced by the
 * archive's daily values, and today's total replaced by the sum of the
 * archive's hourly snowfall up to the current hour.
 */
module ArchiveSnow {
  import opened Wrappers
  import opened Text
  import opened DailyAggregation

  /** One archive hour; `time` is None when the entry has no string time. */
  datatype SnowHour = SnowHour(time: Option<string>, snowfallIn: Option<real>)

  /** The archive snow history: daily totals by date and the hourly series. */
  datatype ArchiveSnowHistory = ArchiveSnowHistory(dailySnowByDay: map<string, real>, hourlySnowRecords: seq<SnowHour>)

  datatype ArchiveSnowApplied = ArchiveSnowApplied(
    dailyRecords: seq<DailyRecord>,
    todaySnowSumIn: Option<real>,
    todaySnowThroughTime: Option<string>,
    todaySnowDay: Option<string>)

  predicate StartsWith(s: string, prefix: string) {
    |prefix| <= |s| && s[..|prefix|] == prefix
  }

  /** Today's date: the first ten characters of the current hour key, when it has ten. */
  function TodaySnowDay(currentHourKey: Option<string>): (r: Option<string>)
    ensures r.Some? <==> currentHourKey.Some? && |currentHourKey.value| >= 10
    ensures r.Some? ==> |r.value| == 10 && StartsWith(currentHourKey.value, r.value)
  {
    if currentHourKey.Some? && |currentHourKey.value| >= 10 then Some(currentHourKey.value[..10]) else None
  }

  /** An archive hour counted for today: it is on today's date and not after the current hour. */
  predicate CountsToday(h: SnowHour, day: string, currentHourKey: string) {
    h.time.Some? && StartsWith(h.time.value, day) && !StrLess(currentHourKey, h.time.value)
  }

  function Nonneg(x: Option<real>): (r: real)
    ensures r >= 0.0
  {
    if x.Some? && x.value > 0.0 then x.value else 0.0
  }

  /** The snowfall of today's counted hours, negative and missing values counted as zero. */
  function TodaySnow(hours: seq<SnowHour>, day: string, currentHourKey: string): (r: real)
    ensures r >= 0.0
  {
    if hours == [] then 0.0
    else
      var h := hours[|hours| - 1];
      TodaySnow(hours[..|hours| - 1], day, currentHourKey) + (if CountsToday(h, day, currentHourKey) then Nonneg(h.snowfallIn) else 0.0)
  }

  /** The time of the last counted hour, if any. */
  function LastTodayTime(hours: seq<SnowHour>, day: string, currentHourKey: string): (r: Option<string>)
    ensures r.Some? ==> exists j :: 0 <= j < |hours| && CountsToday(hours[j], day, currentHourKey) && hours[j].time == r
    ensures r.None? ==> forall j :: 0 <= j < |hours| ==> !CountsToday(hours[j], day, currentHourKey)
  {
    if hours == [] then None
    else
      var h := hours[|hours| - 1];
      if CountsToday(h, day, currentHourKey) then h.time
      else
        var r := LastTodayTime(hours[..|hours| - 1], day, currentHourKey);
        assert forall j :: 0 <= j < |hours| - 1 ==> hours[..|hours| - 1][j] == hours[j];
        r
  }

  /** The snowfall a daily record ends up with: today's hourly sum, else the archive's value, else its own. */
  function OverlaidSnowfall(d: DailyRecord, history: ArchiveSnowHistory, today: Option<string>,
                            todaySum: Option<real>): real
  {
    if today.Some? && d.date == today.value then (if todaySum.Some? then todaySum.value else 0.0)
    else if d.date in history.dailySnowByDay then history.dailySnowByDay[d.date]
    else d.snowfallInSum
  }

  /**
   * `applyArchiveSnowDailyToRecords`. Today's sum exists exactly when the
   * current hour key gives a date and the archive has an hour counted for
   * today; each daily record keeps every field but its snowfall, which
   * `OverlaidSnowfall` decides.
   */
  method ApplyArchiveSnowDailyToRecords(daily: seq<DailyRecord>, history: ArchiveSnowHistory,
                                        currentHourKey: Option<string>)
    returns (applied: ArchiveSnowApplied)
    ensures applied.todaySnowDay == TodaySnowDay(currentHourKey)
    ensures applied.todaySnowSumIn.Some? <==>
              applied.todaySnowDay.Some?
              && LastTodayTime(history.hourlySnowRecords, applied.todaySnowDay.value, currentHourKey.value).Some?
    ensures applied.todaySnowSumIn.Some? ==>
              applied.todaySnowSumIn.value == TodaySnow(history.hourlySnowRecords, applied.todaySnowDay.value, currentHourKey.value)
    ensures applied.todaySnowDay.Some? ==>
              applied.todaySnowThroughTime == LastTodayTime(history.hourlySnowRecords, applied.todaySnowDay.value, currentHourKey.value)
    ensures applied.todaySnowDay.None? ==> applied.todaySnowThroughTime.None?
    ensures |applied.dailyRecords| == |daily|
    ensures forall j :: 0 <= j < |daily| ==>
              applied.dailyRecords[j]
              == daily[j].(snowfallInSum := OverlaidSnowfall(daily[j], history, applied.todaySnowDay, applied.todaySnowSumIn))
  {
    var today := TodaySnowDay(currentHourKey);
    var todaySum: Option<real> := None;
    var through: Option<string> := None;
    if today.Some? {
      var key := currentHourKey.value;
      var hours := history.hourlySnowRecords;
      var sum := 0.0;
      var hasTodaySamples := false;
      for i := 0 to |hours|
        invariant sum == TodaySnow(hours[..i], today.value, key)
        invariant through == LastTodayTime(hours[..i], today.value, key)
        invariant hasTodaySamples <==> through.Some?
      {
        var h := hours[i];
        assert hours[..i + 1][..i] == hours[..i];
        if h.time.None? {
          continue;
        }
        if !StartsWith(h.time.value, today.value) || StrLess(key, h.time.value) {
          continue;
        }
        sum := sum + Nonneg(h.snowfallIn);
        through := h.time;
        hasTodaySamples := true;
      }
      assert hours[..|hours|] == hours;
      if hasTodaySamples {
        todaySum := Some(sum);
      }
    }
    var next: seq<DailyRecord> := [];
    for j := 0 to |daily|
      invariant |next| == j
      invariant forall k :: 0 <= k < j ==>
                  next[k] == daily[k].(snowfallInSum := OverlaidSnowfall(daily[k], history, today, todaySum))
    {
      var d := daily[j];
      var snowfall: Option<real> := if d.date in history.dailySnowByDay then Some(history.dailySnowByDay[d.date]) else None;
      if today.Some? && d.date == today.value {
        snowfall := Some(if todaySum.None? then 0.0 else todaySum.value);
      }
      if snowfall.None? {
        snowfall := Some(d.snowfallInSum);
      }
      next := next + [d.(snowfallInSum := snowfall.value)];
    }
    applied := ArchiveSnowApplied(next, todaySum, through, today);
  }

  /** Today's hourly sum never decreases as the current hour moves later in the day. */
  lemma {:induction false} TodaySnowGrowsWithTheHour(hours: seq<SnowHour>, day: string, key1: string, key2: string)
    requires StrLeq(key1, key2)
    ensures TodaySnow(hours, day, key1) <= TodaySnow(hours, day, key2)
  {
    if hours != [] {
      TodaySnowGrowsWithTheHour(hours[..|hours| - 1], day, key1, key2);
      var h := hours[|hours| - 1];
      if CountsToday(h, day, key1) && key1 != key2 {
        StrLessTotal(key2, h.time.value);
        if StrLess(key2, h.time.value) {
          StrLessTransitive(key1, key2, h.time.value);
        }
        assert CountsToday(h, day, key2);
      }
    }
  }
}
