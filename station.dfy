/**
 * Station observations: the present-weather text, the rain-certainty test,
 * the completeness score of a station hour and the reduction of many
 * observations to one record per hour.
 */
module StationObservations {
  import opened Wrappers
  import opened Text
  import opened KeyOrder
  import opened StationUnits
  import opened HourlySeries

  /** A `{value, unitCode}` quantity; an absent quantity has neither. */
  datatype Quantity = Quantity(value: Option<real>, unitCode: Option<string>)

  /** One present-weather entry; each field is a string or absent. */
  datatype WeatherItem = WeatherItem(
    weather: Option<string>,
    rawString: Option<string>,
    intensity: Option<string>,
    modifier: Option<string>,
    coverage: Option<string>)

  /**
   * The properties of one observation feature that the pipeline reads.
   * `hourKey` is the observation timestamp formatted as an hour key in the
   * forecast time zone (None when the timestamp is missing or unparseable);
   * `timestampMs` is the timestamp in epoch milliseconds. A present-weather
   * entry that is not an object is None.
   */
  datatype Observation = Observation(
    hourKey: Option<string>,
    timestampMs: Option<real>,
    temperature: Quantity,
    precipitationLastHour: Quantity,
    quantitativePrecipitation: Quantity,
    snowfallLastHour: Quantity,
    windSpeed: Quantity,
    windGust: Quantity,
    snowDepth: Quantity,
    presentWeather: seq<Option<WeatherItem>>,
    textDescription: Option<string>)

  // ---------------------------------------------------------------------------
  // Weather text
  // ---------------------------------------------------------------------------

  /** Every character is already lower-case. */
  predicate LowerCased(s: string) {
    forall i :: 0 <= i < |s| ==> LowerChar(s[i]) == s[i]
  }

  /** A non-empty string field contributes its lower-cased text. */
  function TextChunk(raw: Option<string>): (r: seq<string>)
    ensures |r| <= 1
    ensures forall c :: c in r ==> c != "" && LowerCased(c)
  {
    if raw.Some? && raw.value != "" then [ToLower(raw.value)] else []
  }

  function ItemChunks(item: Option<WeatherItem>): (r: seq<string>)
    ensures forall c :: c in r ==> c != "" && LowerCased(c)
  {
    match item
    case None => []
    case Some(w) =>
      TextChunk(w.weather) + TextChunk(w.rawString) + TextChunk(w.intensity)
        + TextChunk(w.modifier) + TextChunk(w.coverage)
  }

  /** The chunks in the order the code collects them: each item's fields, then the description. */
  function WeatherChunks(items: seq<Option<WeatherItem>>, description: Option<string>): (r: seq<string>)
    ensures forall c :: c in r ==> c != "" && LowerCased(c)
  {
    if items == [] then TextChunk(description)
    else ItemChunks(items[0]) + WeatherChunks(items[1..], description)
  }

  lemma {:induction false} JoinLowerCased(chunks: seq<string>)
    requires forall c :: c in chunks ==> LowerCased(c)
    ensures LowerCased(Join(chunks, " "))
  {
    if |chunks| == 1 {
      assert chunks[0] in chunks;
    } else if |chunks| > 1 {
      assert chunks[0] in chunks;
      JoinLowerCased(chunks[1..]);
      var rest := Join(chunks[1..], " ");
      var whole := chunks[0] + " " + rest;
      forall i | 0 <= i < |whole| ensures LowerChar(whole[i]) == whole[i] {
        if i < |chunks[0]| {
          assert whole[i] == chunks[0][i];
        } else if i > |chunks[0]| {
          assert whole[i] == rest[i - |chunks[0]| - 1];
        }
      }
    }
  }

  lemma JoinNonEmpty(chunks: seq<string>)
    requires forall c :: c in chunks ==> c != ""
    ensures Join(chunks, " ") == "" <==> chunks == []
  {
    if chunks != [] {
      assert chunks[0] in chunks;
    }
  }

  /**
   * `extractObservationWeatherText`: the non-empty strings lower-cased and
   * joined with spaces; empty exactly when there is no such string.
   */
  function ExtractObservationWeatherText(items: seq<Option<WeatherItem>>, description: Option<string>): (r: string)
    ensures r == "" <==> WeatherChunks(items, description) == []
    ensures LowerCased(r)
  {
    var chunks := WeatherChunks(items, description);
    JoinLowerCased(chunks);
    JoinNonEmpty(chunks);
    Join(chunks, " ")
  }

  const SnowSignals: seq<string> := ["snow", "flurr", "sleet", "ice pellet", "graupel"]
  const RainSignals: seq<string> := ["rain", "drizzle", "showers", "shower"]

  /** `isObservationRainCertain`: some rain word and no snow word in the weather text. */
  function IsObservationRainCertain(items: seq<Option<WeatherItem>>, description: Option<string>): (certain: bool)
    ensures certain <==>
              (exists w | 0 <= w < |RainSignals| :: Contains(ExtractObservationWeatherText(items, description), RainSignals[w]))
              && (forall w | 0 <= w < |SnowSignals| :: !Contains(ExtractObservationWeatherText(items, description), SnowSignals[w]))
  {
    var text := ExtractObservationWeatherText(items, description);
    if text == "" then false
    else if ContainsAny(text, SnowSignals) then false
    else ContainsAny(text, RainSignals)
  }

  lemma ContainsSelf(s: string)
    ensures Contains(s, s)
  {
    assert MatchesAt(s, s, 0);
  }

  /** Any string field of the observation shows up, lower-cased, in the weather text. */
  lemma {:induction false} ChunkInWeatherText(items: seq<Option<WeatherItem>>, description: Option<string>, k: nat)
    requires k < |WeatherChunks(items, description)|
    ensures Contains(ExtractObservationWeatherText(items, description), WeatherChunks(items, description)[k])
  {
    var chunks := WeatherChunks(items, description);
    ContainsSelf(chunks[k]);
    ContainsInJoin(chunks, " ", k, chunks[k]);
  }

  /** A snow word in any single field vetoes rain certainty, whatever else the text says. */
  lemma SnowSignalVetoesRain(items: seq<Option<WeatherItem>>, description: Option<string>, k: nat, w: nat)
    requires k < |WeatherChunks(items, description)| && w < |SnowSignals|
    requires Contains(WeatherChunks(items, description)[k], SnowSignals[w])
    ensures !IsObservationRainCertain(items, description)
  {
    var chunks := WeatherChunks(items, description);
    ContainsInJoin(chunks, " ", k, SnowSignals[w]);
  }

  /** Rain certainty needs a rain word somewhere in the weather text. */
  lemma RainCertainNeedsRainWord(items: seq<Option<WeatherItem>>, description: Option<string>)
    requires IsObservationRainCertain(items, description)
    ensures exists w | 0 <= w < |RainSignals| :: Contains(ExtractObservationWeatherText(items, description), RainSignals[w])
    ensures WeatherChunks(items, description) != []
  {
  }

  /** Without any present weather or description nothing is certain. */
  lemma NoTextNoRain(items: seq<Option<WeatherItem>>)
    requires forall i :: 0 <= i < |items| ==> items[i].None?
    ensures !IsObservationRainCertain(items, None)
  {
    NoItemChunks(items);
  }

  lemma {:induction false} NoItemChunks(items: seq<Option<WeatherItem>>)
    requires forall i :: 0 <= i < |items| ==> items[i].None?
    ensures WeatherChunks(items, None) == []
  {
    if items != [] {
      NoItemChunks(items[1..]);
    }
  }

  // ---------------------------------------------------------------------------
  // Records and their score
  // ---------------------------------------------------------------------------

  /** The fields whose presence `scoreStationRecord` counts. */
  function ScoredFields(r: HourlyRecord): seq<Option<real>> {
    [r.temperatureF, r.snowfallIn, r.rainIn, r.precipLweIn, r.windMph, r.gustMph, r.snowDepthIn]
  }

  function Present(x: Option<real>): nat {
    if x.Some? then 1 else 0
  }

  /** The number of present values among the first `k` fields. */
  function PresentSum(fields: seq<Option<real>>, k: nat): nat
    requires k <= |fields|
  {
    if k == 0 then 0 else PresentSum(fields, k - 1) + Present(fields[k - 1])
  }

  /** The completeness score of a station hour: how many of its seven measured fields are present. */
  function Score(r: HourlyRecord): nat {
    Present(r.temperatureF) + Present(r.snowfallIn) + Present(r.rainIn) + Present(r.precipLweIn)
      + Present(r.windMph) + Present(r.gustMph) + Present(r.snowDepthIn)
  }

  /** The score is at most seven, zero exactly for an empty hour and seven exactly for a complete one. */
  lemma ScoreRange(r: HourlyRecord)
    ensures Score(r) <= 7
    ensures Score(r) == 0 <==> forall i :: 0 <= i < 7 ==> ScoredFields(r)[i].None?
    ensures Score(r) == 7 <==> forall i :: 0 <= i < 7 ==> ScoredFields(r)[i].Some?
  {
    var f := ScoredFields(r);
    assert f[0] == r.temperatureF && f[1] == r.snowfallIn && f[2] == r.rainIn && f[3] == r.precipLweIn;
    assert f[4] == r.windMph && f[5] == r.gustMph && f[6] == r.snowDepthIn;
  }

  /** `scoreStationRecord`: counts the present fields one by one. */
  method ScoreStationRecord(r: HourlyRecord) returns (score: nat)
    ensures score == Score(r)
  {
    var fields := ScoredFields(r);
    score := 0;
    for k := 0 to |fields|
      invariant score == PresentSum(fields, k)
    {
      score := score + Present(fields[k]);
    }
    assert PresentSum(fields, 1) == Present(r.temperatureF);
    assert PresentSum(fields, 2) == PresentSum(fields, 1) + Present(r.snowfallIn);
    assert PresentSum(fields, 3) == PresentSum(fields, 2) + Present(r.rainIn);
    assert PresentSum(fields, 4) == PresentSum(fields, 3) + Present(r.precipLweIn);
    assert PresentSum(fields, 5) == PresentSum(fields, 4) + Present(r.windMph);
    assert PresentSum(fields, 6) == PresentSum(fields, 5) + Present(r.gustMph);
  }

  /** A station hour with the observation time it came from, as the reduction compares them. */
  datatype Candidate = Candidate(record: HourlyRecord, timestampMs: Option<real>)

  /** The precipitation of the last hour, or else the quantitative precipitation, in inches. */
  function PrecipIn(o: Observation): Option<real> {
    var last := ConvertQuantityToIn(o.precipitationLastHour.value, o.precipitationLastHour.unitCode);
    if last.Some? then last
    else ConvertQuantityToIn(o.quantitativePrecipitation.value, o.quantitativePrecipitation.unitCode)
  }

  /** The station hour built from one observation with an hour key. */
  function ObservationRecord(o: Observation): (c: Candidate)
    requires o.hourKey.Some?
    ensures c.record.time == o.hourKey.value && c.timestampMs == o.timestampMs
    ensures c.record.precipLweIn == PrecipIn(o)
    ensures c.record.rainIn.Some? <==>
              PrecipIn(o).Some? && IsObservationRainCertain(o.presentWeather, o.textDescription)
    ensures c.record.rainIn.Some? ==> c.record.rainIn == c.record.precipLweIn
    ensures c.record.shortwaveWm2.None? && c.record.freezingLevelFt.None?
  {
    var precip := PrecipIn(o);
    var rainCertain := IsObservationRainCertain(o.presentWeather, o.textDescription);
    Candidate(
      HourlyRecord(
        o.hourKey.value,
        ConvertQuantityToF(o.temperature.value, o.temperature.unitCode),
        ConvertQuantityToIn(o.snowfallLastHour.value, o.snowfallLastHour.unitCode),
        if rainCertain && precip.Some? then precip else None,
        precip,
        ConvertQuantityToMph(o.windSpeed.value, o.windSpeed.unitCode),
        ConvertQuantityToMph(o.windGust.value, o.windGust.unitCode),
        None,
        ConvertQuantityToIn(o.snowDepth.value, o.snowDepth.unitCode),
        None),
      o.timestampMs)
  }

  predicate HasHourKey(o: Observation) {
    o.hourKey.Some? && o.hourKey.value != ""
  }

  /** The candidates of the observations that have an hour key, in feature order. */
  function Candidates(features: seq<Observation>): (r: seq<Candidate>)
    ensures |r| <= |features|
  {
    if features == [] then []
    else
      var last := features[|features| - 1];
      Candidates(features[..|features| - 1])
        + (if HasHourKey(last) then [ObservationRecord(last)] else [])
  }

  /** A missing timestamp compares as minus infinity. */
  predicate LaterStamp(a: Option<real>, b: Option<real>) {
    a.Some? && (b.None? || a.value > b.value)
  }

  /** `nextScore > prevScore || (nextScore === prevScore && nextTs > prevTs)`. */
  predicate Better(next: Candidate, prev: Candidate) {
    Score(next.record) > Score(prev.record)
    || (Score(next.record) == Score(prev.record) && LaterStamp(next.timestampMs, prev.timestampMs))
  }

  lemma BetterTransitive(a: Candidate, b: Candidate, c: Candidate)
    requires Better(a, b) && Better(b, c)
    ensures Better(a, c)
  {
  }

  /** Beating `b` also beats anything that does not beat `b`. */
  lemma BetterNegativelyTransitive(a: Candidate, b: Candidate, c: Candidate)
    requires Better(a, b) && !Better(c, b)
    ensures Better(a, c)
  {
  }

  function CandidateTimes(cs: seq<Candidate>): (r: seq<string>)
    ensures |r| == |cs| && forall i :: 0 <= i < |cs| ==> r[i] == cs[i].record.time
  {
    seq(|cs|, i requires 0 <= i < |cs| => cs[i].record.time)
  }

  /** The per-hour map the reduction builds: a later candidate replaces the kept one only when it is Better. */
  function BestByHour(cs: seq<Candidate>): (m: map<string, Candidate>)
    ensures forall t :: t in m ==> m[t].record.time == t
  {
    if cs == [] then map[]
    else
      var c := cs[|cs| - 1];
      var m := BestByHour(cs[..|cs| - 1]);
      if c.record.time in m && !Better(c, m[c.record.time]) then m else m[c.record.time := c]
  }

  lemma {:induction false} BestByHourKeys(cs: seq<Candidate>, t: string)
    ensures t in BestByHour(cs) <==> t in CandidateTimes(cs)
  {
    if cs != [] {
      BestByHourKeys(cs[..|cs| - 1], t);
      assert CandidateTimes(cs) == CandidateTimes(cs[..|cs| - 1]) + [cs[|cs| - 1].record.time];
    }
  }

  /** `cs[j]` is of hour `t`, no candidate of that hour beats it and it beats every earlier one of that hour. */
  predicate IsFirstBest(cs: seq<Candidate>, t: string, j: nat) {
    j < |cs| && cs[j].record.time == t
    && (forall k :: 0 <= k < |cs| && cs[k].record.time == t ==> !Better(cs[k], cs[j]))
    && (forall k :: 0 <= k < j && cs[k].record.time == t ==> Better(cs[j], cs[k]))
  }

  /** A last candidate that does not beat the kept one leaves it the first best. */
  lemma FirstBestKept(cs: seq<Candidate>, t: string, j: nat)
    requires |cs| > 0 && IsFirstBest(cs[..|cs| - 1], t, j)
    requires cs[|cs| - 1].record.time == t ==> !Better(cs[|cs| - 1], cs[j])
    ensures IsFirstBest(cs, t, j)
  {
    var init := cs[..|cs| - 1];
    assert cs[j] == init[j];
    forall k | 0 <= k < |cs| - 1 ensures cs[k] == init[k] { }
  }

  /** A last candidate that beats the kept one becomes the first best. */
  lemma FirstBestReplaced(cs: seq<Candidate>, t: string, j0: nat)
    requires |cs| > 0 && IsFirstBest(cs[..|cs| - 1], t, j0)
    requires cs[|cs| - 1].record.time == t && Better(cs[|cs| - 1], cs[j0])
    ensures IsFirstBest(cs, t, |cs| - 1)
  {
    var n := |cs|;
    var init := cs[..n - 1];
    var c := cs[n - 1];
    assert cs[j0] == init[j0];
    forall k | 0 <= k < n - 1 && cs[k].record.time == t
      ensures Better(c, cs[k]) && !Better(cs[k], c)
    {
      assert init[k] == cs[k];
      if k < j0 {
        BetterTransitive(c, cs[j0], cs[k]);
      } else {
        BetterNegativelyTransitive(c, cs[j0], cs[k]);
      }
    }
  }

  /** The first candidate of an hour is its first best. */
  lemma FirstBestFirst(cs: seq<Candidate>, t: string)
    requires |cs| > 0 && cs[|cs| - 1].record.time == t && t !in CandidateTimes(cs[..|cs| - 1])
    ensures IsFirstBest(cs, t, |cs| - 1)
  {
    var init := cs[..|cs| - 1];
    forall k | 0 <= k < |cs| - 1 ensures cs[k].record.time != t {
      assert CandidateTimes(init)[k] == cs[k].record.time;
    }
  }

  /**
   * The candidate an hour keeps is the first best one: no candidate of that
   * hour is Better than it, and it is Better than every candidate of that
   * hour that came before it.
   */
  lemma {:induction false} BestByHourIsFirstBest(cs: seq<Candidate>, t: string) returns (j: nat)
    requires t in BestByHour(cs)
    ensures j < |cs| && BestByHour(cs)[t] == cs[j]
    ensures forall k :: 0 <= k < |cs| && cs[k].record.time == t ==> !Better(cs[k], cs[j])
    ensures forall k :: 0 <= k < j && cs[k].record.time == t ==> Better(cs[j], cs[k])
  {
    var n := |cs|;
    var c := cs[n - 1];
    var init := cs[..n - 1];
    var m0 := BestByHour(init);
    if c.record.time != t {
      j := BestByHourIsFirstBest(init, t);
      assert IsFirstBest(init, t, j);
      FirstBestKept(cs, t, j);
    } else if t !in m0 {
      BestByHourKeys(init, t);
      FirstBestFirst(cs, t);
      j := n - 1;
    } else {
      var j0 := BestByHourIsFirstBest(init, t);
      assert IsFirstBest(init, t, j0);
      if Better(c, cs[j0]) {
        FirstBestReplaced(cs, t, j0);
        j := n - 1;
      } else {
        FirstBestKept(cs, t, j0);
        j := j0;
      }
    }
    assert IsFirstBest(cs, t, j);
  }

  lemma CandidatesStep(features: seq<Observation>, i: nat)
    requires i < |features|
    ensures Candidates(features[..i + 1]) == Candidates(features[..i])
      + (if HasHourKey(features[i]) then [ObservationRecord(features[i])] else [])
  {
    assert features[..i + 1][..i] == features[..i];
  }

  lemma BestByHourStep(cs: seq<Candidate>, c: Candidate)
    ensures var m := BestByHour(cs);
      BestByHour(cs + [c]) == if c.record.time in m && !Better(c, m[c.record.time]) then m else m[c.record.time := c]
  {
    assert (cs + [c])[..|cs|] == cs;
  }

  /** The kept candidate of every hour, as a map from hour key to station record. */
  function KeptRecords(features: seq<Observation>): (m: map<string, HourlyRecord>)
    ensures forall t :: t in m ==> m[t].time == t
    ensures forall t :: t in m <==> t in CandidateTimes(Candidates(features))
  {
    var best := BestByHour(Candidates(features));
    assert forall t :: t in best <==> t in CandidateTimes(Candidates(features)) by {
      forall t ensures t in best <==> t in CandidateTimes(Candidates(features)) {
        BestByHourKeys(Candidates(features), t);
      }
    }
    map t | t in best :: best[t].record
  }

  /**
   * `mapStationObservationsToHourly`: one record per hour that has an
   * observation, in increasing hour order; each is the record of the first
   * best-scored observation of its hour (`BestByHourIsFirstBest`), without
   * the observation time.
   */
  method MapStationObservationsToHourly(features: seq<Observation>) returns (hours: seq<HourlyRecord>)
    ensures StrictlySorted(Times(hours))
    ensures forall t :: t in Times(hours) <==> t in CandidateTimes(Candidates(features))
    ensures forall i :: 0 <= i < |hours| ==> hours[i] == KeptRecords(features)[hours[i].time]
  {
    var byHour := ReduceBestByHour(features);
    var kept := map t | t in byHour :: byHour[t].record;
    assert kept == KeptRecords(features);
    hours := InKeyOrder(kept);
  }

  /** The reduction over the observations: for each hour key, the candidate kept so far. */
  method ReduceBestByHour(features: seq<Observation>) returns (byHour: map<string, Candidate>)
    ensures byHour == BestByHour(Candidates(features))
  {
    byHour := map[];
    ghost var written: seq<Candidate> := [];
    for i := 0 to |features|
      invariant written == Candidates(features[..i])
      invariant byHour == BestByHour(written)
    {
      var o := features[i];
      CandidatesStep(features, i);
      if o.hourKey.None? || o.hourKey.value == "" {
        continue;
      }
      var next := ObservationRecord(o);
      BestByHourStep(written, next);
      written := written + [next];
      byHour := KeepBetter(byHour, next);
    }
    assert features[..|features|] == features;
  }

  /** One step of the reduction: `next` takes its hour when the hour is new or `next` scores better. */
  method KeepBetter(byHour: map<string, Candidate>, next: Candidate) returns (m: map<string, Candidate>)
    ensures m == if next.record.time in byHour && !Better(next, byHour[next.record.time]) then byHour
                 else byHour[next.record.time := next]
  {
    var key := next.record.time;
    if key !in byHour {
      return byHour[key := next];
    }
    var prev := byHour[key];
    var prevScore := ScoreStationRecord(prev.record);
    var nextScore := ScoreStationRecord(next.record);
    if nextScore > prevScore || (nextScore == prevScore && LaterStamp(next.timestampMs, prev.timestampMs)) {
      m := byHour[key := next];
    } else {
      m := byHour;
    }
  }
}
