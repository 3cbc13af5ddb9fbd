/**
 * Hourly series building: canonical hourly records from a model payload of
 * parallel arrays, the clipping of a same-day series at the current hour and
 * the merge of an archive series with a "today" series keyed by hour.
 */
module HourlySeries {
  import opened Wrappers
  import opened Text
  import opened KeyOrder
  import opened Units

  /** One canonical hour: every field is independently nullable. */
  datatype HourlyRecord = HourlyRecord(
    time: string,
    temperatureF: Option<real>,
    snowfallIn: Option<real>,
    rainIn: Option<real>,
    precipLweIn: Option<real>,
    windMph: Option<real>,
    gustMph: Option<real>,
    shortwaveWm2: Option<real>,
    snowDepthIn: Option<real>,
    freezingLevelFt: Option<real>)

  /** The declared unit of each hourly array; None when the key is absent. */
  datatype HourlyUnits = HourlyUnits(
    temperature: Option<string>,
    precipitation: Option<string>,
    snowfall: Option<string>,
    rain: Option<string>,
    windSpeed: Option<string>,
    windGusts: Option<string>,
    snowDepth: Option<string>,
    freezingLevelHeight: Option<string>)

  /**
   * The `hourly` object of a payload: the time array and one array per field.
   * An absent field array is empty, and a non-numeric entry is None.
   */
  datatype HourlyPayload = HourlyPayload(
    time: seq<string>,
    temperature: seq<Option<real>>,
    snowfall: seq<Option<real>>,
    rain: seq<Option<real>>,
    precipitation: seq<Option<real>>,
    windSpeed: seq<Option<real>>,
    windGusts: seq<Option<real>>,
    shortwave: seq<Option<real>>,
    snowDepth: seq<Option<real>>,
    freezingLevelHeight: seq<Option<real>>)

  /** `array?.[i]` followed by `toNum`: a missing entry reads as null. */
  function At(xs: seq<Option<real>>, i: nat): Option<real> {
    if i < |xs| then xs[i] else None
  }

  /** `specific || fallback` on unit strings: an absent or empty unit falls back. */
  function UnitOr(specific: Option<string>, fallback: Option<string>): Option<string> {
    if specific.None? || specific.value == "" then fallback else specific
  }

  function Times(recs: seq<HourlyRecord>): (r: seq<string>)
    ensures |r| == |recs| && forall i :: 0 <= i < |recs| ==> r[i] == recs[i].time
  {
    seq(|recs|, i requires 0 <= i < |recs| => recs[i].time)
  }

  /** The hour `i` of a payload, every field converted with its declared unit. */
  function MapHour(h: HourlyPayload, u: HourlyUnits, i: nat): HourlyRecord
    requires i < |h.time|
  {
    HourlyRecord(
      h.time[i],
      ConvertTemperatureToF(At(h.temperature, i), u.temperature),
      ConvertLengthToIn(At(h.snowfall, i), UnitOr(u.snowfall, u.precipitation)),
      ConvertLengthToIn(At(h.rain, i), UnitOr(u.rain, u.precipitation)),
      ConvertLengthToIn(At(h.precipitation, i), u.precipitation),
      ConvertSpeedToMph(At(h.windSpeed, i), u.windSpeed),
      ConvertSpeedToMph(At(h.windGusts, i), UnitOr(u.windGusts, u.windSpeed)),
      At(h.shortwave, i),
      ConvertLengthToIn(At(h.snowDepth, i), u.snowDepth),
      ConvertLengthToFt(At(h.freezingLevelHeight, i), u.freezingLevelHeight))
  }

  /** `mapHourlyPayload`: one record per entry of the time array; no payload (or no time array) gives none. */
  function MapHourlyPayload(hourly: Option<HourlyPayload>, units: HourlyUnits): (r: seq<HourlyRecord>)
    ensures hourly.None? ==> r == []
    ensures hourly.Some? ==> Times(r) == hourly.value.time
  {
    match hourly
    case None => []
    case Some(h) => seq(|h.time|, i requires 0 <= i < |h.time| => MapHour(h, units, i))
  }

  /**
   * Snowfall and rain without a unit of their own are read in the
   * precipitation unit, gusts in the wind unit; every field of an hour is null
   * exactly when its array entry is missing, and radiation is passed through.
   */
  lemma MapHourlyPayloadFields(h: HourlyPayload, units: HourlyUnits, i: nat)
    requires i < |h.time|
    ensures var r := MapHourlyPayload(Some(h), units)[i];
      && (units.snowfall.None? || units.snowfall == Some("") ==>
            r.snowfallIn == ConvertLengthToIn(At(h.snowfall, i), units.precipitation))
      && (units.snowfall.Some? && units.snowfall != Some("") ==>
            r.snowfallIn == ConvertLengthToIn(At(h.snowfall, i), units.snowfall))
      && (units.rain.None? || units.rain == Some("") ==>
            r.rainIn == ConvertLengthToIn(At(h.rain, i), units.precipitation))
      && (units.windGusts.None? || units.windGusts == Some("") ==>
            r.gustMph == ConvertSpeedToMph(At(h.windGusts, i), units.windSpeed))
      && (r.temperatureF.Some? <==> At(h.temperature, i).Some?)
      && (r.snowfallIn.Some? <==> At(h.snowfall, i).Some?)
      && (r.precipLweIn.Some? <==> At(h.precipitation, i).Some?)
      && (r.snowDepthIn.Some? <==> At(h.snowDepth, i).Some?)
      && (r.freezingLevelFt.Some? <==> At(h.freezingLevelHeight, i).Some?)
      && r.shortwaveWm2 == At(h.shortwave, i)
  {
  }

  /** The calendar day of an hour key: `time.slice(0, 10)`. */
  function DayKey(t: string): (d: string)
    ensures |d| <= 10
  {
    if |t| <= 10 then t else t[..10]
  }

  /** `typeof maxHourKey !== "string" || !maxHourKey || time <= maxHourKey`. */
  predicate WithinCutoff(t: string, maxHourKey: Option<string>) {
    maxHourKey.None? || maxHourKey.value == "" || StrLeq(t, maxHourKey.value)
  }

  /** `clipRecordsThroughHour`: the records at or before the cutoff hour, in their order. */
  function ClipRecordsThroughHour(records: seq<HourlyRecord>, maxHourKey: Option<string>): (r: seq<HourlyRecord>)
    ensures |r| <= |records|
    ensures forall x :: x in r <==> x in records && WithinCutoff(x.time, maxHourKey)
  {
    if records == [] then []
    else
      var last := records[|records| - 1];
      ClipRecordsThroughHour(records[..|records| - 1], maxHourKey)
        + (if WithinCutoff(last.time, maxHourKey) then [last] else [])
  }

  /** Clipping one more record appends it when it is within the cutoff. */
  lemma ClipSnoc(xs: seq<HourlyRecord>, x: HourlyRecord, maxHourKey: Option<string>)
    ensures ClipRecordsThroughHour(xs + [x], maxHourKey)
            == ClipRecordsThroughHour(xs, maxHourKey) + (if WithinCutoff(x.time, maxHourKey) then [x] else [])
  {
    assert (xs + [x])[..|xs|] == xs;
  }

  lemma ConcatAssoc<T>(p: seq<T>, q: seq<T>, r: seq<T>)
    ensures p + q + r == p + (q + r)
  {
  }

  /** The clip is a filter: clipping a concatenation clips each part and keeps them in order. */
  lemma {:induction false} ClipConcat(a: seq<HourlyRecord>, b: seq<HourlyRecord>, maxHourKey: Option<string>)
    ensures ClipRecordsThroughHour(a + b, maxHourKey)
            == ClipRecordsThroughHour(a, maxHourKey) + ClipRecordsThroughHour(b, maxHourKey)
  {
    if b == [] {
      assert a + b == a;
    } else {
      var init := b[..|b| - 1];
      var last := b[|b| - 1];
      var tail := if WithinCutoff(last.time, maxHourKey) then [last] else [];
      var ca, ci := ClipRecordsThroughHour(a, maxHourKey), ClipRecordsThroughHour(init, maxHourKey);
      assert b == init + [last];
      assert a + b == (a + init) + [last];
      ClipSnoc(a + init, last, maxHourKey);
      ClipSnoc(init, last, maxHourKey);
      ClipConcat(a, init, maxHourKey);
      ConcatAssoc(ca, ci, tail);
    }
  }

  /** Without a cutoff the clip keeps every record. */
  lemma {:induction false} ClipWithoutCutoff(records: seq<HourlyRecord>, maxHourKey: Option<string>)
    requires maxHourKey.None? || maxHourKey.value == ""
    ensures ClipRecordsThroughHour(records, maxHourKey) == records
  {
    if records != [] {
      ClipWithoutCutoff(records[..|records| - 1], maxHourKey);
      assert records == records[..|records| - 1] + [records[|records| - 1]];
    }
  }

  /** The record kept for each hour when the records are written one after another into a map. */
  function IndexByTime(recs: seq<HourlyRecord>): (m: map<string, HourlyRecord>)
    ensures forall t :: t in m ==> m[t].time == t
  {
    if recs == [] then map[]
    else
      var last := recs[|recs| - 1];
      IndexByTime(recs[..|recs| - 1])[last.time := last]
  }

  lemma IndexByTimeSnoc(recs: seq<HourlyRecord>, r: HourlyRecord)
    ensures IndexByTime(recs + [r]) == IndexByTime(recs)[r.time := r]
  {
    assert (recs + [r])[..|recs|] == recs;
  }

  /** An hour has a record in the index exactly when some record carries it. */
  lemma {:induction false} IndexByTimeKeys(recs: seq<HourlyRecord>, t: string)
    ensures t in IndexByTime(recs) <==> t in Times(recs)
  {
    if recs != [] {
      IndexByTimeKeys(recs[..|recs| - 1], t);
      assert Times(recs) == Times(recs[..|recs| - 1]) + [recs[|recs| - 1].time];
    }
  }

  /** The record an hour keeps is the last one written for that hour. */
  lemma {:induction false} IndexByTimeKeepsLast(recs: seq<HourlyRecord>, t: string)
    requires t in IndexByTime(recs)
    ensures exists j :: 0 <= j < |recs| && IndexByTime(recs)[t] == recs[j]
                        && forall k :: j < k < |recs| ==> recs[k].time != t
  {
    var last := recs[|recs| - 1];
    var init := recs[..|recs| - 1];
    assert IndexByTime(recs) == IndexByTime(init)[last.time := last];
    if last.time != t {
      assert t in IndexByTime(init) && IndexByTime(recs)[t] == IndexByTime(init)[t];
      IndexByTimeKeepsLast(init, t);
      var j :| 0 <= j < |init| && IndexByTime(init)[t] == init[j]
               && forall k :: j < k < |init| ==> init[k].time != t;
      forall k | j < k < |recs|
        ensures recs[k].time != t
      {
        if k < |init| {
          assert recs[k] == init[k];
        }
      }
      assert recs[j] == init[j];
    } else {
      assert IndexByTime(recs)[t] == recs[|recs| - 1];
    }
  }

  /** Writing `b` after `a`: an hour present in `b` takes `b`'s record, otherwise `a`'s. */
  lemma {:induction false} IndexByTimeAppend(a: seq<HourlyRecord>, b: seq<HourlyRecord>, t: string)
    ensures t in IndexByTime(a + b) <==> t in IndexByTime(a) || t in IndexByTime(b)
    ensures t in IndexByTime(b) ==> IndexByTime(a + b)[t] == IndexByTime(b)[t]
    ensures t !in IndexByTime(b) && t in IndexByTime(a) ==> IndexByTime(a + b)[t] == IndexByTime(a)[t]
  {
    if b == [] {
      assert a + b == a;
    } else {
      var init := b[..|b| - 1];
      IndexByTimeAppend(a, init, t);
      assert (a + b)[..|a + b| - 1] == a + init;
    }
  }

  /** A "today" record that overrides the archive: it is on today's date and not past the cutoff hour. */
  predicate IsTodayUpdate(r: HourlyRecord, todayDate: string, maxHourKey: Option<string>) {
    DayKey(r.time) == todayDate && WithinCutoff(r.time, maxHourKey)
  }

  function TodayUpdates(today: seq<HourlyRecord>, todayDate: string, maxHourKey: Option<string>): (r: seq<HourlyRecord>)
    ensures forall x :: x in r <==> x in today && IsTodayUpdate(x, todayDate, maxHourKey)
  {
    if today == [] then []
    else
      var last := today[|today| - 1];
      TodayUpdates(today[..|today| - 1], todayDate, maxHourKey)
        + (if IsTodayUpdate(last, todayDate, maxHourKey) then [last] else [])
  }

  lemma TodayUpdatesStep(today: seq<HourlyRecord>, j: nat, todayDate: string, maxHourKey: Option<string>)
    requires j < |today|
    ensures TodayUpdates(today[..j + 1], todayDate, maxHourKey)
            == TodayUpdates(today[..j], todayDate, maxHourKey)
               + (if IsTodayUpdate(today[j], todayDate, maxHourKey) then [today[j]] else [])
  {
    assert today[..j + 1][..j] == today[..j];
  }

  /** One more "today" record: the index changes only when the record qualifies, and then only at its hour. */
  lemma MergedIndexStep(archive: seq<HourlyRecord>, today: seq<HourlyRecord>, j: nat, todayDate: string,
                        maxHourKey: Option<string>)
    requires j < |today|
    ensures var before := IndexByTime(archive + TodayUpdates(today[..j], todayDate, maxHourKey));
            IndexByTime(archive + TodayUpdates(today[..j + 1], todayDate, maxHourKey))
            == if IsTodayUpdate(today[j], todayDate, maxHourKey) then before[today[j].time := today[j]] else before
  {
    var u := TodayUpdates(today[..j], todayDate, maxHourKey);
    TodayUpdatesStep(today, j, todayDate, maxHourKey);
    if IsTodayUpdate(today[j], todayDate, maxHourKey) {
      assert archive + (u + [today[j]]) == (archive + u) + [today[j]];
      IndexByTimeSnoc(archive + u, today[j]);
    } else {
      assert u + [] == u;
    }
  }

  /** The map the merge builds: the archive, then the qualifying "today" records, written in order. */
  function MergedIndex(archive: seq<HourlyRecord>, today: seq<HourlyRecord>, todayDate: string,
                       maxHourKey: Option<string>): map<string, HourlyRecord>
  {
    IndexByTime(archive + TodayUpdates(today, todayDate, maxHourKey))
  }

  /**
   * `mergeHourlyRecords`: one record per hour key in increasing key order;
   * the map `MergedIndex` (archive first, then today's records up to the
   * cutoff) decides which record an hour keeps.
   */
  method MergeHourlyRecords(archive: seq<HourlyRecord>, today: seq<HourlyRecord>, todayDate: string,
                            maxHourKey: Option<string>) returns (merged: seq<HourlyRecord>)
    ensures StrictlySorted(Times(merged))
    ensures forall t :: t in Times(merged) <==> t in MergedIndex(archive, today, todayDate, maxHourKey)
    ensures forall i :: 0 <= i < |merged| ==>
              merged[i] == MergedIndex(archive, today, todayDate, maxHourKey)[merged[i].time]
  {
    var byHour := IndexArchive(archive);
    byHour := ApplyTodayUpdates(archive, today, todayDate, maxHourKey, byHour);
    merged := InKeyOrder(byHour);
  }

  /** Writes every archive record into an empty hour-keyed map, in order. */
  method IndexArchive(archive: seq<HourlyRecord>) returns (byHour: map<string, HourlyRecord>)
    ensures byHour == IndexByTime(archive)
  {
    byHour := map[];
    ghost var written: seq<HourlyRecord> := [];
    for i := 0 to |archive|
      invariant written == archive[..i] && byHour == IndexByTime(written)
    {
      assert archive[..i + 1] == written + [archive[i]];
      IndexByTimeSnoc(written, archive[i]);
      written := written + [archive[i]];
      byHour := byHour[archive[i].time := archive[i]];
    }
    assert archive[..|archive|] == archive;
  }

  /** Writes today's records of `todayDate` up to the cutoff hour over the archive's map, in order. */
  method ApplyTodayUpdates(archive: seq<HourlyRecord>, today: seq<HourlyRecord>, todayDate: string,
                           maxHourKey: Option<string>, byArchive: map<string, HourlyRecord>)
    returns (byHour: map<string, HourlyRecord>)
    requires byArchive == IndexByTime(archive)
    ensures byHour == MergedIndex(archive, today, todayDate, maxHourKey)
  {
    byHour := byArchive;
    assert today[..0] == [] && archive + TodayUpdates(today[..0], todayDate, maxHourKey) == archive;
    for j := 0 to |today|
      invariant byHour == IndexByTime(archive + TodayUpdates(today[..j], todayDate, maxHourKey))
    {
      var r := today[j];
      MergedIndexStep(archive, today, j, todayDate, maxHourKey);
      if DayKey(r.time) == todayDate && WithinCutoff(r.time, maxHourKey) {
        byHour := byHour[r.time := r];
      }
    }
    assert today[..|today|] == today;
  }

  /** The records of an hour-keyed map, listed by increasing hour key. */
  method InKeyOrder(byHour: map<string, HourlyRecord>) returns (out: seq<HourlyRecord>)
    requires forall t :: t in byHour ==> byHour[t].time == t
    ensures StrictlySorted(Times(out))
    ensures forall t :: t in Times(out) <==> t in byHour
    ensures forall i :: 0 <= i < |out| ==> out[i] == byHour[out[i].time]
  {
    var keys := SortKeys(byHour.Keys);
    out := seq(|keys|, i requires 0 <= i < |keys| => byHour[keys[i]]);
    assert Times(out) == keys;
  }

  /**
   * What the merge keeps for an hour: today's last qualifying record when one
   * exists, otherwise the archive's last record for that hour.
   */
  lemma MergePrecedence(archive: seq<HourlyRecord>, today: seq<HourlyRecord>, todayDate: string,
                        maxHourKey: Option<string>, t: string)
    ensures var u := TodayUpdates(today, todayDate, maxHourKey);
      && (t in MergedIndex(archive, today, todayDate, maxHourKey) <==> t in IndexByTime(archive) || t in IndexByTime(u))
      && (t in IndexByTime(u) ==> MergedIndex(archive, today, todayDate, maxHourKey)[t] == IndexByTime(u)[t])
      && (t !in IndexByTime(u) && t in IndexByTime(archive) ==>
            MergedIndex(archive, today, todayDate, maxHourKey)[t] == IndexByTime(archive)[t])
  {
    IndexByTimeAppend(archive, TodayUpdates(today, todayDate, maxHourKey), t);
  }

  /** Every merged hour comes from the archive or is a "today" record of today's date within the cutoff. */
  lemma MergeSources(archive: seq<HourlyRecord>, today: seq<HourlyRecord>, todayDate: string,
                     maxHourKey: Option<string>, t: string)
    requires t in MergedIndex(archive, today, todayDate, maxHourKey)
    ensures var r := MergedIndex(archive, today, todayDate, maxHourKey)[t];
      r in archive || (r in today && DayKey(r.time) == todayDate && WithinCutoff(r.time, maxHourKey))
  {
    var all := archive + TodayUpdates(today, todayDate, maxHourKey);
    IndexByTimeKeepsLast(all, t);
  }
}
