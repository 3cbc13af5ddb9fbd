/**
 * Daily hazard rules (freeze-thaw, rain-on-snow, wind slab, strong sun-bake),
 * the per-rule lists of matching dates, their filtering to a date window, the
 * last matching date of a rule and the day of peak snow depth.
 */
module DailyRules {
  import opened Wrappers
  import opened Text
  import opened KeyOrder
  import opened DailyAggregation
  import opened RuleEvents

  /** Snow depth (in) from which a snowpack counts as active. */
  const MinSnowpackForSurfaceEffectsIn: real := 2.0
  /** Daily rain (in) that counts as rain on snow. */
  const RainOnSnowIn: real := 0.1
  /** Maximum wind (mph) that can build a slab. */
  const SlabWindMph: real := 25.0
  /** How many days (today included) count as recent for the wind-slab rule. */
  const WindRecentSnowDays: nat := 7
  /** Daily snowfall (in) that makes a snowpack active by itself. */
  const SlabSnowfallIn: real := 2.0
  /** Sun-bake index from which the sun rule fires. */
  const StrongSunBakeIndex: int := 55

  predicate DeepEnough(depth: Option<real>) {
    depth.Some? && depth.value >= MinSnowpackForSurfaceEffectsIn
  }

  /** Snow on the ground today or yesterday, or a slab-sized snowfall today. */
  predicate ActiveSnowpack(days: seq<DailyRecord>, i: nat)
    requires i < |days|
  {
    DeepEnough(days[i].snowDepthEndIn)
    || (i > 0 && DeepEnough(days[i - 1].snowDepthEndIn))
    || days[i].snowfallInSum >= SlabSnowfallIn
  }

  predicate FreezeThaw(days: seq<DailyRecord>, i: nat)
    requires i < |days|
  {
    var d := days[i];
    ActiveSnowpack(days, i) && d.tempMinF.Some? && d.tempMaxF.Some? && d.tempMinF.value <= 31.0 && d.tempMaxF.value >= 33.0
  }

  predicate RainOnSnow(days: seq<DailyRecord>, i: nat)
    requires i < |days|
  {
    ActiveSnowpack(days, i) && days[i].rainRawInSum >= RainOnSnowIn
  }

  /** The snowfall of days `lo` up to (not including) `hi`, negative values counted as zero. */
  function SnowfallBetween(days: seq<DailyRecord>, lo: nat, hi: nat): (r: real)
    requires lo <= hi <= |days|
    ensures r >= 0.0
    decreases hi - lo
  {
    if lo == hi then 0.0 else Max(0.0, days[lo].snowfallInSum) + SnowfallBetween(days, lo + 1, hi)
  }

  /** The first day of the recent-snow window that ends on day `i`. */
  function WindowStart(i: nat): nat {
    if i >= WindRecentSnowDays - 1 then i - (WindRecentSnowDays - 1) else 0
  }

  function RecentSnowfall(days: seq<DailyRecord>, i: nat): real
    requires i < |days|
  {
    SnowfallBetween(days, WindowStart(i), i + 1)
  }

  predicate WindSlab(days: seq<DailyRecord>, i: nat)
    requires i < |days|
  {
    days[i].windMaxMph.Some? && days[i].windMaxMph.value >= SlabWindMph && RecentSnowfall(days, i) > 0.0
  }

  predicate StrongSun(days: seq<DailyRecord>, i: nat)
    requires i < |days|
  {
    ActiveSnowpack(days, i) && days[i].sunBakeIndex >= StrongSunBakeIndex
  }

  /** Whether the rule of `kind` fires on day `i`. */
  predicate Fires(days: seq<DailyRecord>, i: nat, kind: RuleKind)
    requires i < |days|
  {
    Fired(Verdict(days, i), kind)
  }

  function RainTitle(d: DailyRecord): string {
    if d.tempMaxF.Some? && d.tempMaxF.value > 34.0 then "Rain-on-snow with crust potential" else "Rain-on-snow"
  }

  /** The four rules' decisions on day `i`. */
  function Verdict(days: seq<DailyRecord>, i: nat): DayVerdict
    requires i < |days|
  {
    DayVerdict(days[i].date, RainTitle(days[i]), FreezeThaw(days, i), RainOnSnow(days, i), WindSlab(days, i), StrongSun(days, i))
  }

  function Verdicts(days: seq<DailyRecord>): seq<DayVerdict> {
    seq(|days|, i requires 0 <= i < |days| => Verdict(days, i))
  }

  /** The events of day `i`, in rule order. */
  function DayEvents(days: seq<DailyRecord>, i: nat): seq<Event>
    requires i < |days|
  {
    VerdictEvents(Verdict(days, i))
  }

  /** The events of the first `n` days. */
  function AllEvents(days: seq<DailyRecord>, n: nat): seq<Event>
    requires n <= |days|
  {
    EventsUpTo(Verdicts(days), n)
  }

  /** The dates among the first `n` days on which a rule fires. */
  function MatchDates(days: seq<DailyRecord>, n: nat, kind: RuleKind): seq<string>
    requires n <= |days|
  {
    DatesUpTo(Verdicts(days), n, kind)
  }

  /**
   * One day of `analyzeDailyRules`: the four rules tested in turn, each match
   * adding its event; the events are `DayEvents` and the flags say which
   * rules fired.
   */
  method EvaluateDay(days: seq<DailyRecord>, i: nat) returns (dayEvents: seq<Event>, freezes: bool, rains: bool, winds: bool, suns: bool)
    requires i < |days|
    ensures DayVerdict(days[i].date, RainTitle(days[i]), freezes, rains, winds, suns) == Verdict(days, i)
    ensures dayEvents == DayEvents(days, i)
  {
    var d := days[i];
    freezes := FreezeThaw(days, i);
    rains := RainOnSnow(days, i);
    var recent := SnowfallBetween(days, WindowStart(i), i + 1);
    winds := d.windMaxMph.Some? && d.windMaxMph.value >= SlabWindMph && recent > 0.0;
    suns := ActiveSnowpack(days, i) && d.sunBakeIndex >= StrongSunBakeIndex;
    dayEvents := [];
    if freezes {
      dayEvents := dayEvents + [Event(d.date, Freeze, "Freeze-thaw cycle")];
    }
    ghost var e1 := EventIf(freezes, d.date, Freeze, "Freeze-thaw cycle");
    assert dayEvents == e1;
    if rains {
      dayEvents := dayEvents + [Event(d.date, Rain, RainTitle(d))];
    }
    ghost var e2 := EventIf(rains, d.date, Rain, RainTitle(d));
    assert dayEvents == e1 + e2;
    if winds {
      dayEvents := dayEvents + [Event(d.date, Wind, "Wind slab risk window")];
    }
    ghost var e3 := EventIf(winds, d.date, Wind, "Wind slab risk window");
    assert dayEvents == e1 + e2 + e3;
    if suns {
      dayEvents := dayEvents + [Event(d.date, Sun, "Strong sun-bake signal")];
    }
    assert dayEvents == EventsOf(d.date, RainTitle(d), freezes, rains, winds, suns);
  }

  /**
   * `analyzeDailyRules`: every day in order, each rule tested in turn; the
   * events and the per-rule date lists are those of `AllEvents` and
   * `MatchDates`.
   */
  method AnalyzeDailyRules(days: seq<DailyRecord>) returns (events: seq<Event>, matches: RuleMatches)
    ensures events == AllEvents(days, |days|)
    ensures forall kind :: MatchesOf(matches, kind) == MatchDates(days, |days|, kind)
  {
    events := [];
    var freeze, rain, wind, sun := [], [], [], [];
    ghost var vs := Verdicts(days);
    for i := 0 to |days|
      invariant events == EventsUpTo(vs, i)
      invariant freeze == DatesUpTo(vs, i, Freeze) && rain == DatesUpTo(vs, i, Rain)
      invariant wind == DatesUpTo(vs, i, Wind) && sun == DatesUpTo(vs, i, Sun)
    {
      var dayEvents, freezes, rains, winds, suns := EvaluateDay(days, i);
      var date := days[i].date;
      assert vs[i] == DayVerdict(date, RainTitle(days[i]), freezes, rains, winds, suns);
      if freezes {
        freeze := freeze + [date];
      }
      assert freeze == DatesUpTo(vs, i + 1, Freeze);
      if rains {
        rain := rain + [date];
      }
      assert rain == DatesUpTo(vs, i + 1, Rain);
      if winds {
        wind := wind + [date];
      }
      assert wind == DatesUpTo(vs, i + 1, Wind);
      if suns {
        sun := sun + [date];
      }
      assert sun == DatesUpTo(vs, i + 1, Sun);
      events := events + dayEvents;
    }
    matches := RuleMatches(freeze, rain, wind, sun);
    forall kind ensures MatchesOf(matches, kind) == MatchDates(days, |days|, kind) {
      match kind
      case Freeze =>
      case Rain =>
      case Wind =>
      case Sun =>
    }
  }

  // ---------------------------------------------------------------------------
  // What the rules guarantee
  // ---------------------------------------------------------------------------

  /** Without an active snowpack only the wind-slab rule can fire on a day. */
  lemma BareGroundOnlyWind(days: seq<DailyRecord>, i: nat)
    requires i < |days| && !ActiveSnowpack(days, i)
    ensures forall e :: e in DayEvents(days, i) ==> e.kind == Wind
  {
  }

  /** A sum of non-negative terms is positive only if some term is. */
  lemma {:induction false} PositiveSnowfallHasSnowDay(days: seq<DailyRecord>, lo: nat, hi: nat) returns (j: nat)
    requires lo <= hi <= |days| && SnowfallBetween(days, lo, hi) > 0.0
    ensures lo <= j < hi && days[j].snowfallInSum > 0.0
    decreases hi - lo
  {
    if days[lo].snowfallInSum > 0.0 {
      j := lo;
    } else {
      j := PositiveSnowfallHasSnowDay(days, lo + 1, hi);
    }
  }

  /** A wind-slab day has a day with snowfall among it and the six days before it. */
  lemma WindSlabNeedsRecentSnow(days: seq<DailyRecord>, i: nat) returns (j: nat)
    requires i < |days| && WindSlab(days, i)
    ensures i - 6 <= j <= i && days[j].snowfallInSum > 0.0
  {
    j := PositiveSnowfallHasSnowDay(days, WindowStart(i), i + 1);
  }

  lemma SortedSnoc(s: seq<string>, x: string)
    requires StrictlySorted(s) && forall y :: y in s ==> StrLess(y, x)
    ensures StrictlySorted(s + [x])
  {
    forall i, j | 0 <= i < j < |s + [x]| ensures StrLess((s + [x])[i], (s + [x])[j]) {
      if j == |s| {
        assert (s + [x])[i] == s[i] && s[i] in s;
      }
    }
  }

  /** With the days in increasing date order, every rule's date list is increasing too. */
  lemma {:induction false} MatchDatesSorted(days: seq<DailyRecord>, n: nat, kind: RuleKind)
    requires n <= |days| && StrictlySorted(Dates(days))
    ensures StrictlySorted(MatchDates(days, n, kind))
    ensures forall x :: x in MatchDates(days, n, kind) ==> exists i :: 0 <= i < n && days[i].date == x
  {
    if n > 0 {
      MatchDatesSorted(days, n - 1, kind);
      var prev := MatchDates(days, n - 1, kind);
      forall x | x in prev ensures StrLess(x, days[n - 1].date) {
        var i :| 0 <= i < n - 1 && days[i].date == x;
        assert Dates(days)[i] == x && Dates(days)[n - 1] == days[n - 1].date;
      }
      if Fired(Verdicts(days)[n - 1], kind) {
        SortedSnoc(prev, days[n - 1].date);
      }
    }
  }

  // ---------------------------------------------------------------------------
  // Window filter, last match and peak depth
  // ---------------------------------------------------------------------------

  predicate InWindow(day: string, startDay: string, endDay: string) {
    StrLeq(startDay, day) && StrLeq(day, endDay)
  }

  /** The dates within `[startDay, endDay]`, in their order. */
  function FilterDates(dates: seq<string>, startDay: string, endDay: string): (r: seq<string>)
    ensures |r| <= |dates|
    ensures forall x :: x in r <==> x in dates && InWindow(x, startDay, endDay)
    ensures StrictlySorted(dates) ==> StrictlySorted(r)
  {
    if dates == [] then []
    else
      var rest := FilterDates(dates[1..], startDay, endDay);
      if InWindow(dates[0], startDay, endDay) then
        assert StrictlySorted(dates) ==> forall x :: x in rest ==> StrLess(dates[0], x) by {
          if StrictlySorted(dates) {
            forall x | x in rest ensures StrLess(dates[0], x) {
              var k :| 0 <= k < |dates[1..]| && dates[1..][k] == x;
              assert dates[k + 1] == x;
            }
          }
        }
        [dates[0]] + rest
      else rest
  }

  /** `filterRuleMatches`: every rule's dates restricted to the window. */
  function FilterRuleMatches(m: RuleMatches, startDay: string, endDay: string): (r: RuleMatches)
    ensures forall kind :: MatchesOf(r, kind) == FilterDates(MatchesOf(m, kind), startDay, endDay)
  {
    RuleMatches(
      FilterDates(m.freeze, startDay, endDay),
      FilterDates(m.rain, startDay, endDay),
      FilterDates(m.wind, startDay, endDay),
      FilterDates(m.sun, startDay, endDay))
  }

  /** `getLastQualifiedDate`: the last date of a rule's list, None for an empty list. */
  function GetLastQualifiedDate(m: RuleMatches, kind: RuleKind): (r: Option<string>)
    ensures r.None? <==> MatchesOf(m, kind) == []
    ensures r.Some? ==> r.value in MatchesOf(m, kind)
    ensures r.Some? && StrictlySorted(MatchesOf(m, kind)) ==>
              forall x :: x in MatchesOf(m, kind) ==> StrLeq(x, r.value)
  {
    var dates := MatchesOf(m, kind);
    if dates == [] then None else Some(dates[|dates| - 1])
  }

  datatype Peak = Peak(depth: real, date: string)

  /**
   * `findPeakSnowDepth`: the greatest daily maximum snow depth and the first
   * day that reached it; None when no day has a depth.
   */
  method FindPeakSnowDepth(days: seq<DailyRecord>) returns (peak: Option<Peak>)
    ensures peak.None? <==> forall j :: 0 <= j < |days| ==> days[j].snowDepthMaxIn.None?
    ensures peak.Some? ==> forall j :: 0 <= j < |days| && days[j].snowDepthMaxIn.Some? ==>
                             days[j].snowDepthMaxIn.value <= peak.value.depth
    ensures peak.Some? ==> exists j :: 0 <= j < |days| && days[j].snowDepthMaxIn == Some(peak.value.depth)
                             && days[j].date == peak.value.date
                             && forall k :: 0 <= k < j && days[k].snowDepthMaxIn.Some? ==>
                                  days[k].snowDepthMaxIn.value < peak.value.depth
  {
    peak := None;
    ghost var at: nat := 0;
    for i := 0 to |days|
      invariant peak.None? <==> forall j :: 0 <= j < i ==> days[j].snowDepthMaxIn.None?
      invariant peak.Some? ==> forall j :: 0 <= j < i && days[j].snowDepthMaxIn.Some? ==>
                                 days[j].snowDepthMaxIn.value <= peak.value.depth
      invariant peak.Some? ==> at < i && days[at].snowDepthMaxIn == Some(peak.value.depth)
                                 && days[at].date == peak.value.date
                                 && forall k :: 0 <= k < at && days[k].snowDepthMaxIn.Some? ==>
                                      days[k].snowDepthMaxIn.value < peak.value.depth
    {
      var d := days[i];
      if d.snowDepthMaxIn.None? {
        continue;
      }
      if peak.None? || d.snowDepthMaxIn.value > peak.value.depth {
        peak := Some(Peak(d.snowDepthMaxIn.value, d.date));
        at := i;
      }
    }
  }
}
