/**
 * Station cross-check confidence: six step-function sub-scores (distance,
 * elevation difference, observation age and the temperature, wind and
 * precipitation differences between the model's current snapshot and the
 * station) averaged with fixed weights over the sub-scores that exist, then
 * rounded and classified as High, Medium or Low.
 */
module StationConfidence {
  import opened Wrappers
  import opened DailyAggregation

  /** `classifyConfidence`'s result. */
  datatype Confidence = Confidence(level: string, className: string)

  /** What the cross-check knows about the chosen station. */
  datatype StationSnapshot = StationSnapshot(
    temperatureF: Option<real>, windMph: Option<real>, precipIn: Option<real>,
    elevationFt: Option<real>, distanceMi: Option<real>, obsAgeMin: Option<real>)

  /** The model's current-conditions snapshot. */
  datatype ModelNow = ModelNow(temperatureF: Option<real>, windMph: Option<real>, precipLweIn: Option<real>)

  datatype ConfidencePayload = ConfidencePayload(
    station: StationSnapshot, confidenceScore: Option<int>, confidence: Confidence,
    tempDelta: Option<real>, windDelta: Option<real>, precipDelta: Option<real>, elevationDeltaFt: Option<real>)

  /** The outcome of the code as written: a payload, or the `TypeError` of reading a field of `null`. */
  datatype Outcome = Built(payload: ConfidencePayload) | TypeError

  const FeetPerMetre: real := 3.280839895

  /** `classifyConfidence`: no score is Unknown (styled medium); 78 and up High, 58 and up Medium, else Low. */
  function ClassifyConfidence(score: Option<int>): (c: Confidence)
    ensures c.level == "Unknown" <==> score.None?
    ensures c.level == "High" <==> score.Some? && score.value >= 78
    ensures c.level == "Low" <==> score.Some? && score.value < 58
  {
    if score.None? then Confidence("Unknown", "medium")
    else if score.value >= 78 then Confidence("High", "high")
    else if score.value >= 58 then Confidence("Medium", "medium")
    else Confidence("Low", "low")
  }

  function LabelRank(c: Confidence): int {
    if c.level == "High" then 2 else if c.level == "Medium" then 1 else 0
  }

  /** A higher score never gets a lower label. */
  lemma ClassifyMonotonic(a: int, b: int)
    requires a <= b
    ensures LabelRank(ClassifyConfidence(Some(a))) <= LabelRank(ClassifyConfidence(Some(b)))
  {
  }

  function Abs(x: real): (r: real)
    ensures r >= 0.0 && (r == x || r == -x)
  {
    if x < 0.0 then -x else x
  }

  function AbsOpt(x: Option<real>): Option<real> {
    if x.None? then None else Some(Abs(x.value))
  }

  /** `model - station` when both are present. */
  function Delta(model: Option<real>, station: Option<real>): (r: Option<real>)
    ensures r.Some? <==> model.Some? && station.Some?
    ensures r.Some? ==> r.value + station.value == model.value
  {
    if station.Some? && model.Some? then Some(model.value - station.value) else None
  }

  // ---------------------------------------------------------------------------
  // Sub-scores
  // ---------------------------------------------------------------------------

  function DistanceScore(mi: Option<real>): (r: Option<int>)
    ensures r.Some? <==> mi.Some?
    ensures r.Some? ==> 22 <= r.value <= 100
  {
    if mi.None? then None
    else var d := mi.value;
      Some(if d <= 5.0 then 100 else if d <= 15.0 then 88 else if d <= 30.0 then 72
           else if d <= 50.0 then 55 else if d <= 80.0 then 38 else 22)
  }

  function ElevationScore(ft: Option<real>): (r: Option<int>)
    ensures r.Some? <==> ft.Some?
    ensures r.Some? ==> 30 <= r.value <= 95
  {
    if ft.None? then None
    else var e := ft.value;
      Some(if e <= 500.0 then 95 else if e <= 1000.0 then 82 else if e <= 2000.0 then 65
           else if e <= 3000.0 then 45 else 30)
  }

  function AgeScore(mins: Option<real>): (r: Option<int>)
    ensures r.Some? <==> mins.Some?
    ensures r.Some? ==> 18 <= r.value <= 100
  {
    if mins.None? then None
    else var a := mins.value;
      Some(if a <= 30.0 then 100 else if a <= 90.0 then 85 else if a <= 180.0 then 68
           else if a <= 360.0 then 52 else if a <= 720.0 then 32 else 18)
  }

  function TemperatureScore(absDelta: Option<real>): (r: Option<int>)
    ensures r.Some? <==> absDelta.Some?
    ensures r.Some? ==> 28 <= r.value <= 100
  {
    if absDelta.None? then None
    else var t := absDelta.value;
      Some(if t <= 2.0 then 100 else if t <= 4.0 then 86 else if t <= 7.0 then 68
           else if t <= 10.0 then 48 else 28)
  }

  function WindScore(absDelta: Option<real>): (r: Option<int>)
    ensures r.Some? <==> absDelta.Some?
    ensures r.Some? ==> 25 <= r.value <= 100
  {
    if absDelta.None? then None
    else var w := absDelta.value;
      Some(if w <= 3.0 then 100 else if w <= 6.0 then 84 else if w <= 10.0 then 66
           else if w <= 15.0 then 46 else 25)
  }

  function PrecipScore(absDelta: Option<real>): (r: Option<int>)
    ensures r.Some? <==> absDelta.Some?
    ensures r.Some? ==> 25 <= r.value <= 100
  {
    if absDelta.None? then None
    else var p := absDelta.value;
      Some(if p <= 0.03 then 100 else if p <= 0.08 then 80 else if p <= 0.15 then 60
           else if p <= 0.25 then 40 else 25)
  }

  /** Both present with the first no larger, or both absent. */
  predicate SameOrCloser(x: Option<real>, y: Option<real>) {
    x.Some? == y.Some? && (x.Some? ==> x.value <= y.value)
  }

  /** Present together, the first at least as high. */
  predicate ScoreAtLeast(a: Option<int>, b: Option<int>) {
    a.Some? == b.Some? && (a.Some? ==> a.value >= b.value)
  }

  /** Every sub-score is a non-increasing step function of its distance, gap or age. */
  lemma DistanceScoreNonIncreasing(x: Option<real>, y: Option<real>)
    requires SameOrCloser(x, y)
    ensures ScoreAtLeast(DistanceScore(x), DistanceScore(y))
  {
  }

  lemma ElevationScoreNonIncreasing(x: Option<real>, y: Option<real>)
    requires SameOrCloser(x, y)
    ensures ScoreAtLeast(ElevationScore(x), ElevationScore(y))
  {
  }

  lemma AgeScoreNonIncreasing(x: Option<real>, y: Option<real>)
    requires SameOrCloser(x, y)
    ensures ScoreAtLeast(AgeScore(x), AgeScore(y))
  {
  }

  lemma TemperatureScoreNonIncreasing(x: Option<real>, y: Option<real>)
    requires SameOrCloser(x, y)
    ensures ScoreAtLeast(TemperatureScore(x), TemperatureScore(y))
  {
  }

  lemma WindScoreNonIncreasing(x: Option<real>, y: Option<real>)
    requires SameOrCloser(x, y)
    ensures ScoreAtLeast(WindScore(x), WindScore(y))
  {
  }

  lemma PrecipScoreNonIncreasing(x: Option<real>, y: Option<real>)
    requires SameOrCloser(x, y)
    ensures ScoreAtLeast(PrecipScore(x), PrecipScore(y))
  {
  }

  // ---------------------------------------------------------------------------
  // Weighted average over the parts that exist
  // ---------------------------------------------------------------------------

  datatype Part = Part(score: Option<int>, weight: real)

  predicate PositiveWeights(parts: seq<Part>) {
    forall i :: 0 <= i < |parts| ==> parts[i].weight > 0.0
  }

  /** A part's contribution to the weighted sum: its score times its weight, or nothing. */
  function Term(p: Part): real {
    if p.score.Some? then p.score.value as real * p.weight else 0.0
  }

  /** A part's contribution to the weight total: its weight when it has a score. */
  function Weight(p: Part): real {
    if p.score.Some? then p.weight else 0.0
  }

  /** Sum of `score * weight` over the parts with a score. */
  function WeightedSum(parts: seq<Part>): real {
    if parts == [] then 0.0 else WeightedSum(parts[..|parts| - 1]) + Term(parts[|parts| - 1])
  }

  /** Sum of the weights of the parts with a score. */
  function WeightTotal(parts: seq<Part>): real {
    if parts == [] then 0.0 else WeightTotal(parts[..|parts| - 1]) + Weight(parts[|parts| - 1])
  }

  /** The rounded weighted mean, None when no part has a score. */
  function WeightedScore(parts: seq<Part>): Option<int> {
    var total := WeightTotal(parts);
    if total > 0.0 then Some(Round(WeightedSum(parts) / total)) else None
  }

  /** The weight total is positive exactly when some part has a score. */
  lemma {:induction false} WeightTotalPositive(parts: seq<Part>)
    requires PositiveWeights(parts)
    ensures WeightTotal(parts) >= 0.0
    ensures WeightTotal(parts) > 0.0 <==> exists i :: 0 <= i < |parts| && parts[i].score.Some?
  {
    if parts != [] {
      var init := parts[..|parts| - 1];
      WeightTotalPositive(init);
      if exists i :: 0 <= i < |init| && init[i].score.Some? {
        var i :| 0 <= i < |init| && init[i].score.Some?;
        assert parts[i].score.Some?;
      }
      if exists i :: 0 <= i < |parts| && parts[i].score.Some? {
        var i :| 0 <= i < |parts| && parts[i].score.Some?;
        if i < |init| {
          assert init[i].score.Some?;
        }
      }
    }
  }

  predicate ScoresWithin(parts: seq<Part>, lo: int, hi: int) {
    forall i :: 0 <= i < |parts| && parts[i].score.Some? ==> lo <= parts[i].score.value <= hi
  }

  lemma {:induction false} WeightedSumAtLeast(parts: seq<Part>, lo: int)
    requires PositiveWeights(parts) && ScoresWithin(parts, lo, 100)
    ensures lo as real * WeightTotal(parts) <= WeightedSum(parts)
  {
    if parts != [] {
      var init, p := parts[..|parts| - 1], parts[|parts| - 1];
      assert PositiveWeights(init) && ScoresWithin(init, lo, 100) by {
        assert forall i :: 0 <= i < |init| ==> init[i] == parts[i];
      }
      assert lo as real * WeightTotal(init) <= WeightedSum(init) by {
        WeightedSumAtLeast(init, lo);
      }
      assert lo as real * Weight(p) <= Term(p) by {
        TermAtLeast(p, lo as real);
      }
      AddScaled(lo as real, WeightTotal(init), Weight(p), WeightedSum(init), Term(p));
    }
  }

  lemma TermAtLeast(p: Part, lo: real)
    requires p.weight > 0.0 && (p.score.Some? ==> lo <= p.score.value as real)
    ensures lo * Weight(p) <= Term(p)
  {
    if p.score.Some? {
      MulMonotonicReal(lo, p.score.value as real, p.weight);
    }
  }

  /** `c * t0 <= s0` and `c * t1 <= s1` add up. */
  lemma AddScaled(c: real, t0: real, t1: real, s0: real, s1: real)
    requires c * t0 <= s0 && c * t1 <= s1
    ensures c * (t0 + t1) <= s0 + s1
  {
    assert c * (t0 + t1) == c * t0 + c * t1;
  }

  lemma {:induction false} WeightedSumAtMost(parts: seq<Part>, hi: int)
    requires PositiveWeights(parts) && ScoresWithin(parts, 0, hi)
    ensures WeightedSum(parts) <= hi as real * WeightTotal(parts)
  {
    if parts != [] {
      var init, p := parts[..|parts| - 1], parts[|parts| - 1];
      assert PositiveWeights(init) && ScoresWithin(init, 0, hi) by {
        assert forall i :: 0 <= i < |init| ==> init[i] == parts[i];
      }
      assert WeightedSum(init) <= hi as real * WeightTotal(init) by {
        WeightedSumAtMost(init, hi);
      }
      assert Term(p) <= hi as real * Weight(p) by {
        TermAtMost(p, hi as real);
      }
      AddScaledAbove(hi as real, WeightTotal(init), Weight(p), WeightedSum(init), Term(p));
    }
  }

  lemma TermAtMost(p: Part, hi: real)
    requires p.weight > 0.0 && (p.score.Some? ==> p.score.value as real <= hi)
    ensures Term(p) <= hi * Weight(p)
  {
    if p.score.Some? {
      MulMonotonicReal(p.score.value as real, hi, p.weight);
    }
  }

  /** `s0 <= c * t0` and `s1 <= c * t1` add up. */
  lemma AddScaledAbove(c: real, t0: real, t1: real, s0: real, s1: real)
    requires s0 <= c * t0 && s1 <= c * t1
    ensures s0 + s1 <= c * (t0 + t1)
  {
    assert c * (t0 + t1) == c * t0 + c * t1;
  }

  /** The confidence score is a weighted mean, so it lies within the range of the sub-scores. */
  lemma WeightedScoreWithin(parts: seq<Part>, lo: int, hi: int)
    requires 0 <= lo <= hi <= 100
    requires PositiveWeights(parts) && ScoresWithin(parts, lo, hi)
    ensures WeightedScore(parts).Some? <==> exists i :: 0 <= i < |parts| && parts[i].score.Some?
    ensures WeightedScore(parts).Some? ==> lo <= WeightedScore(parts).value <= hi
  {
    WeightTotalPositive(parts);
    var total := WeightTotal(parts);
    if total > 0.0 {
      assert ScoresWithin(parts, lo, 100) && ScoresWithin(parts, 0, hi);
      WeightedSumAtLeast(parts, lo);
      WeightedSumAtMost(parts, hi);
      var mean := WeightedSum(parts) / total;
      DivBetween(WeightedSum(parts), lo as real, hi as real, total);
      assert lo as real <= mean <= hi as real;
    }
  }

  lemma DivBetween(sum: real, lo: real, hi: real, total: real)
    requires total > 0.0 && lo * total <= sum <= hi * total
    ensures lo <= sum / total <= hi
  {
    assert sum / total * total == sum;
    if sum / total < lo {
      MulStrict(sum / total, lo, total);
    }
    if sum / total > hi {
      MulStrict(hi, sum / total, total);
    }
  }

  lemma MulStrict(a: real, b: real, c: real)
    requires a < b && c > 0.0
    ensures a * c < b * c
  {
  }

  /** Two part lists that differ only in their scores, the first scoring at least as well everywhere. */
  predicate Dominates(a: seq<Part>, b: seq<Part>) {
    |a| == |b| && forall i :: 0 <= i < |a| ==> a[i].weight == b[i].weight && ScoreAtLeast(a[i].score, b[i].score)
  }

  lemma {:induction false} DominatesSums(a: seq<Part>, b: seq<Part>)
    requires Dominates(a, b) && PositiveWeights(a)
    ensures WeightTotal(a) == WeightTotal(b)
    ensures WeightedSum(a) >= WeightedSum(b)
  {
    if a != [] {
      var n := |a| - 1;
      assert Dominates(a[..n], b[..n]) && PositiveWeights(a[..n]) by {
        forall i | 0 <= i < n ensures a[..n][i] == a[i] && b[..n][i] == b[i] { }
      }
      DominatesSums(a[..n], b[..n]);
      TermDominates(a[n], b[n]);
    }
  }

  lemma TermDominates(p: Part, q: Part)
    requires p.weight == q.weight && p.weight > 0.0 && ScoreAtLeast(p.score, q.score)
    ensures Weight(p) == Weight(q) && Term(p) >= Term(q)
  {
    if p.score.Some? {
      MulMonotonicReal(q.score.value as real, p.score.value as real, p.weight);
    }
  }

  lemma MulMonotonicReal(x: real, y: real, w: real)
    requires x <= y && w > 0.0
    ensures x * w <= y * w
  {
  }

  /** Better sub-scores never lower the confidence score. */
  lemma WeightedScoreMonotonic(a: seq<Part>, b: seq<Part>)
    requires Dominates(a, b) && PositiveWeights(a)
    ensures WeightedScore(a).Some? == WeightedScore(b).Some?
    ensures WeightedScore(a).Some? ==> WeightedScore(a).value >= WeightedScore(b).value
  {
    DominatesSums(a, b);
    var total := WeightTotal(a);
    if total > 0.0 {
      DivMonotonic(WeightedSum(b), WeightedSum(a), total);
      RoundMonotonic(WeightedSum(b) / total, WeightedSum(a) / total);
    }
  }

  lemma DivMonotonic(x: real, y: real, t: real)
    requires x <= y && t > 0.0
    ensures x / t <= y / t
  {
  }

  // ---------------------------------------------------------------------------
  // The payload
  // ---------------------------------------------------------------------------

  function ElevationDelta(station: StationSnapshot, modelElevationM: Option<real>): Option<real> {
    var modelFt := if modelElevationM.None? then None else Some(modelElevationM.value * FeetPerMetre);
    Delta(modelFt, station.elevationFt)
  }

  /** The six parts in the source's order with its weights. */
  function Parts(station: StationSnapshot, tempDelta: Option<real>, windDelta: Option<real>,
                 precipDelta: Option<real>, elevationDeltaFt: Option<real>): (r: seq<Part>)
    ensures |r| == 6 && PositiveWeights(r)
    ensures ScoresWithin(r, 18, 100)
  {
    [Part(DistanceScore(station.distanceMi), 1.4),
     Part(ElevationScore(AbsOpt(elevationDeltaFt)), 1.0),
     Part(AgeScore(station.obsAgeMin), 1.2),
     Part(TemperatureScore(AbsOpt(tempDelta)), 1.2),
     Part(WindScore(AbsOpt(windDelta)), 0.9),
     Part(PrecipScore(AbsOpt(precipDelta)), 0.6)]
  }

  function Assemble(station: StationSnapshot, tempDelta: Option<real>, windDelta: Option<real>,
                    precipDelta: Option<real>, elevationDeltaFt: Option<real>): ConfidencePayload
  {
    var score := WeightedScore(Parts(station, tempDelta, windDelta, precipDelta, elevationDeltaFt));
    ConfidencePayload(station, score, ClassifyConfidence(score), tempDelta, windDelta, precipDelta, elevationDeltaFt)
  }

  /**
   * `buildStationConfidencePayload` as written: with no model snapshot,
   * `modelNow?.temperature_f !== null` holds (undefined is not null), so a
   * station temperature or wind leads to reading a field of `null`.
   */
  function BuildStationConfidencePayloadAsWritten(station: StationSnapshot, modelNow: Option<ModelNow>,
                                                  modelElevationM: Option<real>): (r: Outcome)
    ensures r.TypeError? <==> modelNow.None? && (station.temperatureF.Some? || station.windMph.Some?)
  {
    if modelNow.None? && (station.temperatureF.Some? || station.windMph.Some?) then TypeError
    else
      var tempDelta := if modelNow.None? then None else Delta(modelNow.value.temperatureF, station.temperatureF);
      var windDelta := if modelNow.None? then None else Delta(modelNow.value.windMph, station.windMph);
      var precipModel := if modelNow.None? then None else modelNow.value.precipLweIn;
      Built(Assemble(station, tempDelta, windDelta, Delta(precipModel, station.precipIn),
                     ElevationDelta(station, modelElevationM)))
  }

  /** A missing snapshot makes the model-side differences missing. */
  function Snapshot(modelNow: Option<ModelNow>): ModelNow {
    modelNow.GetOr(ModelNow(None, None, None))
  }

  /**
   * `buildStationConfidencePayload` with a missing model snapshot treated as
   * a snapshot with no values.
   */
  function BuildStationConfidencePayload(station: StationSnapshot, modelNow: Option<ModelNow>,
                                         modelElevationM: Option<real>): (p: ConfidencePayload)
    ensures p.station == station
    ensures p.tempDelta.Some? <==> station.temperatureF.Some? && Snapshot(modelNow).temperatureF.Some?
    ensures p.windDelta.Some? <==> station.windMph.Some? && Snapshot(modelNow).windMph.Some?
    ensures p.precipDelta.Some? <==> station.precipIn.Some? && Snapshot(modelNow).precipLweIn.Some?
    ensures p.confidenceScore.Some? ==> 18 <= p.confidenceScore.value <= 100
    ensures p.confidenceScore.None? <==>
              station.distanceMi.None? && station.obsAgeMin.None? && p.elevationDeltaFt.None?
              && p.tempDelta.None? && p.windDelta.None? && p.precipDelta.None?
    ensures p.confidence == ClassifyConfidence(p.confidenceScore)
    ensures p == Assemble(station, p.tempDelta, p.windDelta, p.precipDelta, p.elevationDeltaFt)
  {
    var m := Snapshot(modelNow);
    var tempDelta := Delta(m.temperatureF, station.temperatureF);
    var windDelta := Delta(m.windMph, station.windMph);
    var precipDelta := Delta(m.precipLweIn, station.precipIn);
    var elevationDeltaFt := ElevationDelta(station, modelElevationM);
    var parts := Parts(station, tempDelta, windDelta, precipDelta, elevationDeltaFt);
    WeightedScoreWithin(parts, 18, 100);
    assert parts[0].score.None? <==> station.distanceMi.None?;
    assert parts[1].score.None? <==> elevationDeltaFt.None?;
    assert parts[2].score.None? <==> station.obsAgeMin.None?;
    assert parts[3].score.None? <==> tempDelta.None?;
    assert parts[4].score.None? <==> windDelta.None?;
    assert parts[5].score.None? <==> precipDelta.None?;
    Assemble(station, tempDelta, windDelta, precipDelta, elevationDeltaFt)
  }

  /** With a model snapshot, or with nothing to compare it to, the code as written builds the same payload. */
  lemma AsWrittenAgreesOtherwise(station: StationSnapshot, modelNow: Option<ModelNow>, modelElevationM: Option<real>)
    requires modelNow.Some? || (station.temperatureF.None? && station.windMph.None?)
    ensures BuildStationConfidencePayloadAsWritten(station, modelNow, modelElevationM)
            == Built(BuildStationConfidencePayload(station, modelNow, modelElevationM))
  {
  }

  /** A station reporting a temperature, with no model snapshot: the code as written fails. */
  lemma MissingSnapshotFails()
    ensures BuildStationConfidencePayloadAsWritten(
              StationSnapshot(Some(30.0), None, None, None, Some(3.0), Some(20.0)), None, None) == TypeError
    ensures BuildStationConfidencePayload(
              StationSnapshot(Some(30.0), None, None, None, Some(3.0), Some(20.0)), None, None).confidenceScore == Some(100)
  {
    var station := StationSnapshot(Some(30.0), None, None, None, Some(3.0), Some(20.0));
    var parts := Parts(station, None, None, None, None);
    var p0, p1, p2, p3, p4, p5 := Part(Some(100), 1.4), Part(None, 1.0), Part(Some(100), 1.2),
                                  Part(None, 1.2), Part(None, 0.9), Part(None, 0.6);
    assert parts == [p0, p1, p2, p3, p4, p5];
    assert parts[..5] == [p0, p1, p2, p3, p4];
    assert [p0, p1, p2, p3, p4][..4] == [p0, p1, p2, p3];
    assert [p0, p1, p2, p3][..3] == [p0, p1, p2];
    assert [p0, p1, p2][..2] == [p0, p1];
    assert [p0, p1][..1] == [p0];
    assert [p0][..0] == [];
    assert WeightTotal([p0]) == 1.4 && WeightedSum([p0]) == 140.0;
    assert WeightTotal([p0, p1]) == 1.4 && WeightedSum([p0, p1]) == 140.0;
    assert WeightTotal([p0, p1, p2]) == 2.6 && WeightedSum([p0, p1, p2]) == 260.0;
    assert WeightTotal([p0, p1, p2, p3]) == 2.6 && WeightedSum([p0, p1, p2, p3]) == 260.0;
    assert WeightTotal([p0, p1, p2, p3, p4]) == 2.6 && WeightedSum([p0, p1, p2, p3, p4]) == 260.0;
    assert WeightTotal(parts) == 2.6 && WeightedSum(parts) == 260.0;
  }

  /**
   * A station at least as close, as fresh and as well matched to the model
   * in every respect, with the same values present, never gets a lower
   * confidence score.
   */
  lemma BetterMatchNeverLessConfident(a: StationSnapshot, ta: Option<real>, wa: Option<real>, pa: Option<real>, ea: Option<real>,
                                      b: StationSnapshot, tb: Option<real>, wb: Option<real>, pb: Option<real>, eb: Option<real>)
    requires SameOrCloser(a.distanceMi, b.distanceMi) && SameOrCloser(a.obsAgeMin, b.obsAgeMin)
    requires SameOrCloser(AbsOpt(ta), AbsOpt(tb)) && SameOrCloser(AbsOpt(wa), AbsOpt(wb))
    requires SameOrCloser(AbsOpt(pa), AbsOpt(pb)) && SameOrCloser(AbsOpt(ea), AbsOpt(eb))
    ensures Assemble(a, ta, wa, pa, ea).confidenceScore.Some? == Assemble(b, tb, wb, pb, eb).confidenceScore.Some?
    ensures Assemble(a, ta, wa, pa, ea).confidenceScore.Some? ==>
              Assemble(a, ta, wa, pa, ea).confidenceScore.value >= Assemble(b, tb, wb, pb, eb).confidenceScore.value
  {
    var partsA := Parts(a, ta, wa, pa, ea);
    var partsB := Parts(b, tb, wb, pb, eb);
    DistanceScoreNonIncreasing(a.distanceMi, b.distanceMi);
    ElevationScoreNonIncreasing(AbsOpt(ea), AbsOpt(eb));
    AgeScoreNonIncreasing(a.obsAgeMin, b.obsAgeMin);
    TemperatureScoreNonIncreasing(AbsOpt(ta), AbsOpt(tb));
    WindScoreNonIncreasing(AbsOpt(wa), AbsOpt(wb));
    PrecipScoreNonIncreasing(AbsOpt(pa), AbsOpt(pb));
    assert Dominates(partsA, partsB);
    WeightedScoreMonotonic(partsA, partsB);
  }
}
