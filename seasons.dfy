/**
 * Winter seasons: October 1 of a start year through March 31 of the next,
 * cut short at the reference date while the season is still running; and
 * the ten seasons analysed by default.
 */
module WinterSeasons {
  import opened Text

  /** The Python `date` range. */
  const MinYear: int := 1
  const MaxYear: int := 9999

  /** A calendar date, ordered as `date` objects are: by year, then month, then day. */
  datatype Date = Date(year: int, month: int, day: int)

  /** Month and day in their ranges (days of short months are not checked). */
  predicate Plausible(d: Date) {
    1 <= d.month <= 12 && 1 <= d.day <= 31
  }

  predicate DateLess(a: Date, b: Date) {
    a.year < b.year || (a.year == b.year && (a.month < b.month || (a.month == b.month && a.day < b.day)))
  }

  predicate DateLeq(a: Date, b: Date) {
    DateLess(a, b) || a == b
  }

  function DateMin(a: Date, b: Date): (r: Date)
    ensures DateLeq(r, a) && DateLeq(r, b)
    ensures r == a || r == b
  {
    if DateLess(b, a) then b else a
  }

  datatype Season = Season(seasonLabel: string, start: Date, end: Date)

  /** The `ValueError`s `make_winter_season` raises. */
  datatype SeasonError =
    | YearOutOfRange          // `date(...)` refuses a year outside 1..9999
    | NotStarted(message: string)

  datatype SeasonResult = Ok(season: Season) | Err(error: SeasonError)

  /** `n` in decimal, left-padded with zeros to `width` digits. */
  function ZeroPad(n: nat, width: nat): (r: string)
    ensures |r| >= width
  {
    var digits := NatToString(n);
    if |digits| >= width then digits else seq(width - |digits|, _ => '0') + digits
  }

  /** `str(date)`: `YYYY-MM-DD`. */
  function IsoDate(d: Date): string
    requires d.year >= 0 && d.month >= 0 && d.day >= 0
  {
    ZeroPad(d.year, 4) + "-" + ZeroPad(d.month, 2) + "-" + ZeroPad(d.day, 2)
  }

  function October1(year: int): Date { Date(year, 10, 1) }
  function March31(year: int): Date { Date(year, 3, 31) }

  /** `Winter 2023-24`: the start year, then the two last digits of the next year. */
  function SeasonLabel(year: int): string
    requires year >= MinYear
  {
    "Winter " + IntToString(year) + "-" + ZeroPad((year + 1) % 100, 2)
  }

  /**
   * `make_winter_season`: an error when October 1 of `year` is after the
   * reference date; otherwise from that October 1 to the earlier of the
   * next March 31 and the reference date. The reference date defaults to
   * today, which is a parameter here.
   */
  function MakeWinterSeason(year: int, reference: Date): (r: SeasonResult)
    ensures r.Err? && r.error.YearOutOfRange? <==> !(MinYear <= year && year + 1 <= MaxYear)
    ensures r.Err? && r.error.NotStarted? <==>
              MinYear <= year && year + 1 <= MaxYear && DateLess(reference, October1(year))
    ensures r.Ok? ==> r.season.start == October1(year)
                      && r.season.end == DateMin(March31(year + 1), reference)
                      && DateLeq(r.season.start, r.season.end)
  {
    if !(MinYear <= year <= MaxYear) || !(MinYear <= year + 1 <= MaxYear) then Err(YearOutOfRange)
    else
      var start := October1(year);
      var nominalEnd := March31(year + 1);
      if DateLess(reference, start) then
        Err(NotStarted("Season " + IntToString(year) + " hasn't started yet (starts " + IsoDate(start) + ")"))
      else
        Ok(Season(SeasonLabel(year), start, DateMin(nominalEnd, reference)))
  }

  /** A season is never longer than October 1 through March 31 and never ends after the reference date. */
  lemma SeasonWithinBounds(year: int, reference: Date)
    requires MakeWinterSeason(year, reference).Ok?
    ensures var s := MakeWinterSeason(year, reference).season;
            DateLeq(s.end, March31(year + 1)) && DateLeq(s.end, reference)
            && (DateLeq(March31(year + 1), reference) ==> s.end == March31(year + 1))
  {
  }

  /** The start year of the season the reference date falls in (the season containing October 1 to December 31 of its year). */
  function CurrentSeasonYear(reference: Date): (y: int)
    ensures Plausible(reference) ==> DateLeq(October1(y), reference)
    ensures Plausible(reference) ==> DateLess(reference, October1(y + 1))
  {
    if reference.month >= 10 then reference.year else reference.year - 1
  }

  /** The default seasons: the ten start years ending with the current season's. */
  function DefaultSeasons(reference: Date): (years: seq<int>)
    ensures |years| == 10
    ensures years[9] == CurrentSeasonYear(reference)
    ensures forall i :: 0 <= i < 9 ==> years[i + 1] == years[i] + 1
  {
    var current := CurrentSeasonYear(reference);
    seq(10, i => current - 9 + i)
  }

  /** No default season is refused as not yet started. */
  lemma DefaultSeasonsHaveStarted(reference: Date, i: nat)
    requires Plausible(reference) && i < 10
    ensures !(MakeWinterSeason(DefaultSeasons(reference)[i], reference).Err?
              && MakeWinterSeason(DefaultSeasons(reference)[i], reference).error.NotStarted?)
  {
    var y := DefaultSeasons(reference)[i];
    assert y <= CurrentSeasonYear(reference);
  }

  /** Every default season but the current one has ended, so it runs to March 31. */
  lemma PastDefaultSeasonsAreWhole(reference: Date, i: nat)
    requires Plausible(reference) && i < 9
    requires MakeWinterSeason(DefaultSeasons(reference)[i], reference).Ok?
    ensures MakeWinterSeason(DefaultSeasons(reference)[i], reference).season.end == March31(DefaultSeasons(reference)[i] + 1)
  {
    var y := DefaultSeasons(reference)[i];
    assert y + 1 <= CurrentSeasonYear(reference);
  }
}
