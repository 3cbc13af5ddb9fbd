/**
 * The powder score of each day: weighted recent snowfall, temperature,
 * thaw, rain, sun, wind, snow density and coverage over the last days,
 * combined into a 0-100 score, and the band label of a score.
 */
module PowderScore {
  import opened Wrappers
  import opened DailyAggregation

  /** The weighted inputs of one day's score, read from the day and up to three days before it. */
  datatype PowderInputs = PowderInputs(
    recentSnow: real,
    recentSnowLwe: real,
    warmTemp: real,
    thawHours: real,
    recentRain: real,
    sun: real,
    wind: real,
    dailyFluff: Option<real>,
    snowDepth: real)

  /** The score's terms, as the day record carries them. */
  datatype PowderTerms = PowderTerms(
    freshBoost: real,
    qualityBonus: real,
    agePenalty: real,
    thawPenalty: real,
    rainPenalty: real,
    sunPenalty: real,
    windPenalty: real,
    densityLwePerIn: Option<real>,
    fluffRatio: Option<real>,
    densityPenalty: real,
    fluffBonus: real,
    coveragePenalty: real)

  /** A day with its powder score and the figures behind it. */
  datatype PowderDay = PowderDay(day: DailyRecord, score: int, recentSnowIn: real, daysSinceSnow: nat, terms: PowderTerms)

  function Snow(d: DailyRecord): real { Max(0.0, d.snowfallInSum) }
  function SnowLwe(d: DailyRecord): real { Max(0.0, d.snowLweInSum) }
  function RainRaw(d: DailyRecord): real { Max(0.0, d.rainRawInSum) }
  function Sun(d: DailyRecord): real { Max(0.0, d.shortwaveMjM2Sum) }
  function WindMax(d: DailyRecord): real { Max(0.0, OrZero(d.windMaxMph)) }

  /** The value of `f` on the day `back` days before `idx`, or 0 when there is no such day. */
  function Back(days: seq<DailyRecord>, idx: nat, back: nat, f: DailyRecord -> real): real
    requires idx < |days|
  {
    if idx >= back then f(days[idx - back]) else 0.0
  }

  /** A day whose snowfall reaches 0.1 in counts as a snow day. */
  predicate IsSnowDay(d: DailyRecord) {
    Snow(d) >= 0.1
  }

  function PowderInputsOf(days: seq<DailyRecord>, idx: nat): PowderInputs
    requires idx < |days|
  {
    var d := days[idx];
    var tempMax0 := if d.tempMaxF.Some? then d.tempMaxF.value else 28.0;
    var tempMax1 := if idx >= 1 && days[idx - 1].tempMaxF.Some? then days[idx - 1].tempMaxF.value else tempMax0;
    var tempMax2 := if idx >= 2 && days[idx - 2].tempMaxF.Some? then days[idx - 2].tempMaxF.value else tempMax1;
    var thaw1 := if idx >= 1 then days[idx - 1].thawHours as real else 0.0;
    var thaw2 := if idx >= 2 then days[idx - 2].thawHours as real else 0.0;
    PowderInputs(
      Snow(d) + Back(days, idx, 1, Snow) * 0.65 + Back(days, idx, 2, Snow) * 0.4 + Back(days, idx, 3, Snow) * 0.2,
      SnowLwe(d) + Back(days, idx, 1, SnowLwe) * 0.65 + Back(days, idx, 2, SnowLwe) * 0.4 + Back(days, idx, 3, SnowLwe) * 0.2,
      tempMax0 * 0.55 + tempMax1 * 0.3 + tempMax2 * 0.15,
      d.thawHours as real + thaw1 * 0.45 + thaw2 * 0.2,
      RainRaw(d) + Back(days, idx, 1, RainRaw) * 0.65 + Back(days, idx, 2, RainRaw) * 0.35,
      Sun(d) + Back(days, idx, 1, Sun) * 0.55,
      WindMax(d) + Back(days, idx, 1, WindMax) * 0.5,
      d.fluffFactor,
      if d.snowDepthEndIn.Some? then d.snowDepthEndIn.value
      else if d.snowDepthMaxIn.Some? then d.snowDepthMaxIn.value else 0.0)
  }

  /** The snow-water per inch of recent snow, when there is enough recent snow to judge. */
  function DensityLwePerIn(p: PowderInputs): Option<real> {
    if p.recentSnow >= 0.25 && p.recentSnowLwe > 0.0 then Some(p.recentSnowLwe / p.recentSnow) else None
  }

  /** The day's own fluff factor, else the one implied by recent snow density. */
  function FluffRatio(p: PowderInputs): Option<real> {
    if p.dailyFluff.Some? then p.dailyFluff
    else
      var density := DensityLwePerIn(p);
      if density.Some? && density.value > 0.0 then Some(1.0 / density.value) else None
  }

  function DensityPenalty(fluff: Option<real>): (r: real)
    ensures 0.0 <= r <= 20.0
  {
    if fluff.None? then 0.0
    else if fluff.value >= 9.0 then 0.0
    else if fluff.value >= 6.0 then Clamp((9.0 - fluff.value) / 3.0, 0.0, 1.0) * 8.0
    else 8.0 + Clamp((6.0 - fluff.value) / 3.0, 0.0, 1.0) * 12.0
  }

  function FluffBonus(recentSnow: real, fluff: Option<real>): (r: real)
    ensures 0.0 <= r <= 20.0
  {
    if recentSnow < 0.5 || fluff.None? then 0.0
    else if fluff.value <= 10.0 then 0.0
    else if fluff.value <= 15.0 then Clamp((fluff.value - 10.0) / 5.0, 0.0, 1.0) * 8.0
    else if fluff.value <= 20.0 then 8.0 + Clamp((fluff.value - 15.0) / 5.0, 0.0, 1.0) * 8.0
    else 16.0 + Clamp((fluff.value - 20.0) / 8.0, 0.0, 1.0) * 4.0
  }

  function ThawPenalty(p: PowderInputs): (r: real)
    ensures 0.0 <= r <= 24.0
  {
    (0.6 * Clamp((p.warmTemp - 32.0) / 14.0, 0.0, 1.0) + 0.4 * Clamp(p.thawHours / 12.0, 0.0, 1.0)) * 24.0
  }

  function RainPenalty(p: PowderInputs): (r: real)
    ensures 0.0 <= r <= 56.0
  {
    Clamp(p.recentRain / 0.45, 0.0, 1.0) * 56.0
  }

  function SunPenalty(p: PowderInputs): (r: real)
    ensures 0.0 <= r <= 18.0
  {
    var sunFactor := Clamp(p.sun / 24.0, 0.0, 1.0);
    var tempFactor := 0.4 + 0.6 * Clamp((p.warmTemp - 30.0) / 10.0, 0.0, 1.0);
    MulMonotonic(sunFactor, 1.0, tempFactor, 1.0);
    sunFactor * tempFactor * 18.0
  }

  function WindPenalty(p: PowderInputs): (r: real)
    ensures 0.0 <= r <= 17.5
  {
    var base := Clamp((p.wind - 15.0) / 35.0, 0.0, 1.0) * 14.0;
    if p.recentSnow > 2.0 then base * 1.25 else base
  }

  function AgePenalty(daysSinceSnow: nat): (r: real)
    ensures 0.0 <= r <= 22.0
  {
    Clamp((daysSinceSnow as real - 1.0) / 6.0, 0.0, 1.0) * 22.0
  }

  function DryFactor(recentRain: real): (r: real)
    ensures 0.0 <= r <= 1.0
  {
    Clamp(1.0 - recentRain / 0.12, 0.0, 1.0)
  }

  /** The quality bonus given its dryness factor: a weighted blend of six factors, each in [0, 1], times 14. */
  function QualityBlend(p: PowderInputs, dryFactor: real): (r: real)
    requires 0.0 <= dryFactor <= 1.0
    ensures 0.0 <= r <= 14.0
  {
    var fluff := FluffRatio(p);
    var coldFactor := Clamp((35.0 - p.warmTemp) / 10.0, 0.0, 1.0);
    var lowSunFactor := Clamp(1.0 - p.sun / 20.0, 0.0, 1.0);
    var lightWindFactor := Clamp(1.0 - Max(0.0, p.wind - 10.0) / 25.0, 0.0, 1.0);
    var fluffQualityFactor := if fluff.None? then 0.5 else Clamp((fluff.value - 7.0) / 10.0, 0.0, 1.0);
    var freshFactor := Clamp(p.recentSnow / 8.0, 0.0, 1.0);
    (0.34 * freshFactor + 0.24 * coldFactor + 0.16 * dryFactor + 0.1 * lowSunFactor
      + 0.08 * lightWindFactor + 0.08 * fluffQualityFactor) * 14.0
  }

  function QualityBonus(p: PowderInputs): (r: real)
    ensures 0.0 <= r <= 14.0
  {
    if p.recentSnow < 0.5 then 0.0 else QualityBlend(p, DryFactor(p.recentRain))
  }

  /** Less than 8 in of snow on the ground costs 8, 16 or 24 points as cover thins. */
  function CoveragePenalty(snowDepth: real): (r: real)
    ensures r == 0.0 || r == 8.0 || r == 16.0 || r == 24.0
    ensures snowDepth >= 8.0 <==> r == 0.0
    ensures snowDepth < 2.0 <==> r == 24.0
  {
    if snowDepth >= 8.0 then 0.0 else if snowDepth >= 4.0 then 8.0 else if snowDepth >= 2.0 then 16.0 else 24.0
  }

  function Terms(p: PowderInputs, daysSinceSnow: nat): PowderTerms {
    var fluff := FluffRatio(p);
    PowderTerms(
      Clamp(p.recentSnow / 9.0, 0.0, 1.0) * 58.0,
      QualityBonus(p),
      AgePenalty(daysSinceSnow),
      ThawPenalty(p),
      RainPenalty(p),
      SunPenalty(p),
      WindPenalty(p),
      DensityLwePerIn(p),
      fluff,
      DensityPenalty(fluff),
      FluffBonus(p.recentSnow, fluff),
      CoveragePenalty(p.snowDepth))
  }

  /** The unclamped score: 32 plus the boosts and bonuses, minus the penalties. */
  function RawScore(t: PowderTerms): real {
    32.0 + t.freshBoost + t.qualityBonus - t.agePenalty - t.thawPenalty - t.rainPenalty - t.sunPenalty
      - t.windPenalty - t.densityPenalty - t.coveragePenalty + t.fluffBonus
  }

  /** The score: the raw score clamped to [0, 100] and rounded. */
  function ScoreOf(p: PowderInputs, daysSinceSnow: nat): (s: int)
    ensures 0 <= s <= 100
  {
    Round(Clamp(RawScore(Terms(p, daysSinceSnow)), 0.0, 100.0))
  }

  /** One day of `derivePowderScores`, given the days since the last snow day. */
  function ScoreDay(days: seq<DailyRecord>, idx: nat, daysSinceSnow: nat): (r: PowderDay)
    requires idx < |days|
    ensures r.day == days[idx] && r.daysSinceSnow == daysSinceSnow
    ensures 0 <= r.score <= 100
  {
    var p := PowderInputsOf(days, idx);
    PowderDay(days[idx], ScoreOf(p, daysSinceSnow), p.recentSnow, daysSinceSnow, Terms(p, daysSinceSnow))
  }

  /** The latest snow day at or before `idx`. */
  function LastSnowIdx(days: seq<DailyRecord>, idx: nat): (r: Option<nat>)
    requires idx < |days|
    ensures r.Some? ==> r.value <= idx && IsSnowDay(days[r.value])
                        && forall j :: r.value < j <= idx ==> !IsSnowDay(days[j])
    ensures r.None? ==> forall j :: 0 <= j <= idx ==> !IsSnowDay(days[j])
  {
    if IsSnowDay(days[idx]) then Some(idx)
    else if idx == 0 then None
    else LastSnowIdx(days, idx - 1)
  }

  /** Days since the latest snow day, or 30 when no day so far was a snow day. */
  function DaysSinceSnow(days: seq<DailyRecord>, idx: nat): (n: nat)
    requires idx < |days|
    ensures IsSnowDay(days[idx]) ==> n == 0
    ensures (forall j :: 0 <= j <= idx ==> !IsSnowDay(days[j])) ==> n == 30
  {
    var last := LastSnowIdx(days, idx);
    if last.None? then 30 else idx - last.value
  }

  /**
   * `derivePowderScores`: every day in order with its score, tracking the
   * latest snow day as it goes.
   */
  method DerivePowderScores(days: seq<DailyRecord>) returns (scored: seq<PowderDay>)
    ensures |scored| == |days|
    ensures forall i :: 0 <= i < |days| ==> scored[i] == ScoreDay(days, i, DaysSinceSnow(days, i))
  {
    var lastSnowIdx: Option<nat> := None;
    scored := [];
    for idx := 0 to |days|
      invariant |scored| == idx
      invariant forall i :: 0 <= i < idx ==> scored[i] == ScoreDay(days, i, DaysSinceSnow(days, i))
      invariant idx > 0 ==> lastSnowIdx == LastSnowIdx(days, idx - 1)
      invariant idx == 0 ==> lastSnowIdx.None?
    {
      var day;
      day, lastSnowIdx := ScoreNextDay(days, idx, lastSnowIdx);
      scored := scored + [day];
    }
  }

  /** One step of the scan: update the latest snow day with day `idx`, then score the day. */
  method ScoreNextDay(days: seq<DailyRecord>, idx: nat, lastSnowIdx: Option<nat>)
    returns (day: PowderDay, latest: Option<nat>)
    requires idx < |days|
    requires idx > 0 ==> lastSnowIdx == LastSnowIdx(days, idx - 1)
    requires idx == 0 ==> lastSnowIdx.None?
    ensures latest == LastSnowIdx(days, idx)
    ensures day == ScoreDay(days, idx, DaysSinceSnow(days, idx))
  {
    latest := lastSnowIdx;
    if Snow(days[idx]) >= 0.1 {
      latest := Some(idx);
    }
    var daysSinceSnow: nat := if latest.None? then 30 else idx - latest.value;
    day := ScoreDay(days, idx, daysSinceSnow);
  }

  /** A day `k` days after the latest snow day (and no snow since) reads `k` days since snow. */
  lemma {:induction false} DaysSinceSnowCounts(days: seq<DailyRecord>, s: nat, idx: nat)
    requires s <= idx < |days| && IsSnowDay(days[s])
    requires forall j :: s < j <= idx ==> !IsSnowDay(days[j])
    ensures LastSnowIdx(days, idx) == Some(s)
    ensures DaysSinceSnow(days, idx) == idx - s
    decreases idx
  {
    if idx > s {
      DaysSinceSnowCounts(days, s, idx - 1);
    }
  }

  lemma ClampMonotonic(x: real, y: real, lo: real, hi: real)
    requires lo <= hi && x <= y
    ensures Clamp(x, lo, hi) <= Clamp(y, lo, hi)
  {
  }

  /** Rounding a clamped value keeps the order of the values. */
  lemma ScoreOrder(x: real, y: real)
    requires x <= y
    ensures Round(Clamp(x, 0.0, 100.0)) <= Round(Clamp(y, 0.0, 100.0))
  {
    ClampMonotonic(x, y, 0.0, 100.0);
    RoundMonotonic(Clamp(x, 0.0, 100.0), Clamp(y, 0.0, 100.0));
  }

  /** The longer since the last snow day, the lower (or equal) the score, all else equal. */
  lemma AgeNeverHelps(p: PowderInputs, sooner: nat, later: nat)
    requires sooner <= later
    ensures ScoreOf(p, later) <= ScoreOf(p, sooner)
  {
    ClampMonotonic((sooner as real - 1.0) / 6.0, (later as real - 1.0) / 6.0, 0.0, 1.0);
    var t := Terms(p, sooner);
    assert Terms(p, later) == t.(agePenalty := AgePenalty(later));
    ScoreOrder(RawScore(Terms(p, later)), RawScore(t));
  }

  /** A drier factor never lowers the blend, and the blend does not read the rain itself. */
  lemma QualityBlendDrier(p: PowderInputs, wetter: real, d1: real, d2: real)
    requires 0.0 <= d1 <= d2 <= 1.0
    ensures QualityBlend(p.(recentRain := wetter), d1) <= QualityBlend(p, d2)
  {
    assert FluffRatio(p.(recentRain := wetter)) == FluffRatio(p);
  }

  lemma RainTermsMonotonic(p: PowderInputs, wetter: real)
    requires wetter >= p.recentRain
    ensures QualityBonus(p.(recentRain := wetter)) <= QualityBonus(p)
    ensures RainPenalty(p.(recentRain := wetter)) >= RainPenalty(p)
  {
    assert RainPenalty(p.(recentRain := wetter)) >= RainPenalty(p) by {
      ClampMonotonic(p.recentRain / 0.45, wetter / 0.45, 0.0, 1.0);
    }
    assert DryFactor(wetter) <= DryFactor(p.recentRain) by {
      ClampMonotonic(1.0 - wetter / 0.12, 1.0 - p.recentRain / 0.12, 0.0, 1.0);
    }
    if p.recentSnow >= 0.5 {
      QualityBlendDrier(p, wetter, DryFactor(wetter), DryFactor(p.recentRain));
    }
  }

  /** More recent rain lowers (or keeps) the score, all else equal. */
  lemma RainNeverHelps(p: PowderInputs, wetter: real, daysSinceSnow: nat)
    requires wetter >= p.recentRain
    ensures ScoreOf(p.(recentRain := wetter), daysSinceSnow) <= ScoreOf(p, daysSinceSnow)
  {
    var q := p.(recentRain := wetter);
    RainTermsMonotonic(p, wetter);
    var t := Terms(p, daysSinceSnow);
    assert Terms(q, daysSinceSnow) == t.(qualityBonus := QualityBonus(q), rainPenalty := RainPenalty(q)) by {
      assert FluffRatio(q) == FluffRatio(p);
      assert ThawPenalty(q) == ThawPenalty(p) && SunPenalty(q) == SunPenalty(p) && WindPenalty(q) == WindPenalty(p);
    }
    ScoreOrder(RawScore(Terms(q, daysSinceSnow)), RawScore(t));
  }

  // ---------------------------------------------------------------------------
  // Bands
  // ---------------------------------------------------------------------------

  /** `powderBand`: the label of a score; a missing score reads "n/a". */
  function PowderBand(score: Option<real>): (band: string)
    ensures score.None? <==> band == "n/a"
  {
    if score.None? then "n/a"
    else if score.value >= 80.0 then "Excellent"
    else if score.value >= 60.0 then "Good"
    else if score.value >= 40.0 then "Variable"
    else if score.value >= 20.0 then "Poor"
    else "Very Poor"
  }

  /** The place of a band from worst to best. */
  function BandRank(band: string): int {
    if band == "Excellent" then 4
    else if band == "Good" then 3
    else if band == "Variable" then 2
    else if band == "Poor" then 1
    else 0
  }

  /** A higher score never gets a worse band, and bands change exactly at 20, 40, 60 and 80. */
  lemma PowderBandMonotonic(a: real, b: real)
    requires a <= b
    ensures BandRank(PowderBand(Some(a))) <= BandRank(PowderBand(Some(b)))
    ensures BandRank(PowderBand(Some(a))) == if a >= 80.0 then 4 else if a >= 60.0 then 3 else if a >= 40.0 then 2 else if a >= 20.0 then 1 else 0
  {
  }
}
