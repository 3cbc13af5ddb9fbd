/**
 * The events and per-rule date lists produced by the daily hazard rules, and
 * how the dates of one rule are read back from an event list.
 */
module RuleEvents {
  datatype RuleKind = Freeze | Rain | Wind | Sun

  /** One timeline event; the display detail text is not modelled. */
  datatype Event = Event(date: string, kind: RuleKind, title: string)

  datatype RuleMatches = RuleMatches(freeze: seq<string>, rain: seq<string>, wind: seq<string>, sun: seq<string>)

  function MatchesOf(m: RuleMatches, kind: RuleKind): seq<string> {
    match kind
    case Freeze => m.freeze
    case Rain => m.rain
    case Wind => m.wind
    case Sun => m.sun
  }

  function EventIf(fires: bool, date: string, kind: RuleKind, title: string): seq<Event> {
    if fires then [Event(date, kind, title)] else []
  }

  /** The events of one day, in rule order, given which rules fired. */
  function EventsOf(date: string, rainTitle: string, freezes: bool, rains: bool, winds: bool, suns: bool): seq<Event> {
    EventIf(freezes, date, Freeze, "Freeze-thaw cycle")
      + EventIf(rains, date, Rain, rainTitle)
      + EventIf(winds, date, Wind, "Wind slab risk window")
      + EventIf(suns, date, Sun, "Strong sun-bake signal")
  }

  /** At most one event per rule on a day. */
  lemma EventsOfAtMostFour(date: string, rainTitle: string, freezes: bool, rains: bool, winds: bool, suns: bool)
    ensures |EventsOf(date, rainTitle, freezes, rains, winds, suns)| <= 4
  {
  }

  /** The dates of the events of one rule among the first `n` events. */
  function KindOfUpTo(events: seq<Event>, n: nat, kind: RuleKind): seq<string>
    requires n <= |events|
  {
    if n == 0 then []
    else KindOfUpTo(events, n - 1, kind) + (if events[n - 1].kind == kind then [events[n - 1].date] else [])
  }

  /** The dates of the events of one rule, in event order. */
  function KindOf(events: seq<Event>, kind: RuleKind): seq<string> {
    KindOfUpTo(events, |events|, kind)
  }

  lemma {:induction false} KindOfUpToPrefix(a: seq<Event>, b: seq<Event>, j: nat, kind: RuleKind)
    requires j <= |a|
    ensures KindOfUpTo(a + b, j, kind) == KindOfUpTo(a, j, kind)
  {
    if j > 0 {
      KindOfUpToPrefix(a, b, j - 1, kind);
      assert (a + b)[j - 1] == a[j - 1];
    }
  }

  lemma {:induction false} KindOfUpToSuffix(a: seq<Event>, b: seq<Event>, k: nat, kind: RuleKind)
    requires k <= |b|
    ensures KindOfUpTo(a + b, |a| + k, kind) == KindOf(a, kind) + KindOfUpTo(b, k, kind)
  {
    if k == 0 {
      KindOfUpToPrefix(a, b, |a|, kind);
    } else {
      KindOfUpToSuffix(a, b, k - 1, kind);
      assert (a + b)[|a| + k - 1] == b[k - 1];
    }
  }

  lemma KindOfConcat(a: seq<Event>, b: seq<Event>, kind: RuleKind)
    ensures KindOf(a + b, kind) == KindOf(a, kind) + KindOf(b, kind)
  {
    KindOfUpToSuffix(a, b, |b|, kind);
  }

  /** Whether the rule of `kind` is among those that fired. */
  function Pick(kind: RuleKind, freezes: bool, rains: bool, winds: bool, suns: bool): bool {
    match kind
    case Freeze => freezes
    case Rain => rains
    case Wind => winds
    case Sun => suns
  }

  lemma KindOfSingle(e: Event, kind: RuleKind)
    ensures KindOf([e], kind) == if e.kind == kind then [e.date] else []
  {
    assert KindOfUpTo([e], 0, kind) == [];
    assert [e][0] == e;
  }

  lemma KindOfEventIf(fires: bool, date: string, k: RuleKind, title: string, kind: RuleKind)
    ensures KindOf(EventIf(fires, date, k, title), kind) == if fires && k == kind then [date] else []
  {
    if fires {
      KindOfSingle(Event(date, k, title), kind);
    }
  }

  /** Four per-rule date lists of which only the one of `kind` can be non-empty. */
  lemma PickOne(k1: seq<string>, k2: seq<string>, k3: seq<string>, k4: seq<string>, date: string,
                freezes: bool, rains: bool, winds: bool, suns: bool, kind: RuleKind)
    requires k1 == (if freezes && Freeze == kind then [date] else [])
    requires k2 == (if rains && Rain == kind then [date] else [])
    requires k3 == (if winds && Wind == kind then [date] else [])
    requires k4 == (if suns && Sun == kind then [date] else [])
    ensures k1 + k2 + k3 + k4 == if Pick(kind, freezes, rains, winds, suns) then [date] else []
  {
    match kind
    case Freeze => assert k1 + k2 + k3 + k4 == k1;
    case Rain => assert k1 + k2 + k3 + k4 == k2;
    case Wind => assert k1 + k2 + k3 + k4 == k3;
    case Sun => assert k1 + k2 + k3 + k4 == k4;
  }

  /** The dates of one rule's events among one day's events. */
  lemma KindOfEventsOf(date: string, rainTitle: string, freezes: bool, rains: bool, winds: bool, suns: bool, kind: RuleKind)
    ensures KindOf(EventsOf(date, rainTitle, freezes, rains, winds, suns), kind)
            == if Pick(kind, freezes, rains, winds, suns) then [date] else []
  {
    var e1 := EventIf(freezes, date, Freeze, "Freeze-thaw cycle");
    var e2 := EventIf(rains, date, Rain, rainTitle);
    var e3 := EventIf(winds, date, Wind, "Wind slab risk window");
    var e4 := EventIf(suns, date, Sun, "Strong sun-bake signal");
    KindOfConcat(e1 + e2 + e3, e4, kind);
    KindOfConcat(e1 + e2, e3, kind);
    KindOfConcat(e1, e2, kind);
    KindOfEventIf(freezes, date, Freeze, "Freeze-thaw cycle", kind);
    KindOfEventIf(rains, date, Rain, rainTitle, kind);
    KindOfEventIf(winds, date, Wind, "Wind slab risk window", kind);
    KindOfEventIf(suns, date, Sun, "Strong sun-bake signal", kind);
    PickOne(KindOf(e1, kind), KindOf(e2, kind), KindOf(e3, kind), KindOf(e4, kind), date, freezes, rains, winds, suns, kind);
  }

  // ---------------------------------------------------------------------------
  // Per-day verdicts, and the events and date lists they produce
  // ---------------------------------------------------------------------------

  /** What the four rules decided on one day, with the day's date and the title a rain event would carry. */
  datatype DayVerdict = DayVerdict(date: string, rainTitle: string, freezes: bool, rains: bool, winds: bool, suns: bool)

  predicate Fired(v: DayVerdict, kind: RuleKind) {
    Pick(kind, v.freezes, v.rains, v.winds, v.suns)
  }

  function VerdictEvents(v: DayVerdict): seq<Event> {
    EventsOf(v.date, v.rainTitle, v.freezes, v.rains, v.winds, v.suns)
  }

  /** The events of the first `n` days, day after day. */
  function EventsUpTo(vs: seq<DayVerdict>, n: nat): seq<Event>
    requires n <= |vs|
  {
    if n == 0 then [] else EventsUpTo(vs, n - 1) + VerdictEvents(vs[n - 1])
  }

  /** The dates among the first `n` days on which the rule of `kind` fired. */
  function DatesUpTo(vs: seq<DayVerdict>, n: nat, kind: RuleKind): seq<string>
    requires n <= |vs|
  {
    if n == 0 then [] else DatesUpTo(vs, n - 1, kind) + (if Fired(vs[n - 1], kind) then [vs[n - 1].date] else [])
  }

  /** At most one event per rule per day. */
  lemma {:induction false} EventsUpToAtMostFour(vs: seq<DayVerdict>, n: nat)
    requires n <= |vs|
    ensures |EventsUpTo(vs, n)| <= 4 * n
  {
    if n > 0 {
      EventsUpToAtMostFour(vs, n - 1);
      var v := vs[n - 1];
      EventsOfAtMostFour(v.date, v.rainTitle, v.freezes, v.rains, v.winds, v.suns);
    }
  }

  /** The events and the date lists agree: the dates of each rule's events are its date list. */
  lemma {:induction false} EventsAgreeWithDates(vs: seq<DayVerdict>, n: nat, kind: RuleKind)
    requires n <= |vs|
    ensures KindOf(EventsUpTo(vs, n), kind) == DatesUpTo(vs, n, kind)
  {
    if n > 0 {
      var v := vs[n - 1];
      EventsAgreeWithDates(vs, n - 1, kind);
      KindOfConcat(EventsUpTo(vs, n - 1), VerdictEvents(v), kind);
      KindOfEventsOf(v.date, v.rainTitle, v.freezes, v.rains, v.winds, v.suns, kind);
    }
  }
}
