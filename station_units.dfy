/**
 * Conversions of the weather-station quantities (`{value, unitCode}` pairs)
 * to °F, mph, inches and feet. Station unit codes carry a vocabulary prefix,
 * as in "wmoUnit:mm" or "wmoUnit:degC".
 */
module StationUnits {
  import opened Wrappers
  import opened Text
  import opened Units

  /** `convertQuantityToF`: "degf"/"fahrenheit" kept, "degc"/"celsius" and "kelvin" converted, anything else kept. */
  function ConvertQuantityToF(value: Option<real>, unitCode: Option<string>): (r: Option<real>)
    ensures r.Some? <==> value.Some?
    ensures NormalizeUnit(unitCode) == "" ==> r == value
  {
    match value
    case None => None
    case Some(v) =>
      var unit := NormalizeUnit(unitCode);
      if Contains(unit, "degf") || Contains(unit, "fahrenheit") then Some(v)
      else if Contains(unit, "degc") || Contains(unit, "celsius") then Some(v * (9.0 / 5.0) + 32.0)
      else if Contains(unit, "kelvin") then Some((v - 273.15) * (9.0 / 5.0) + 32.0)
      else Some(v)
  }

  /** `convertQuantityToMph`: metres per second, km/h and knots converted; anything else taken as mph. */
  function ConvertQuantityToMph(value: Option<real>, unitCode: Option<string>): (r: Option<real>)
    ensures r.Some? <==> value.Some?
    ensures NormalizeUnit(unitCode) == "" ==> r == value
  {
    match value
    case None => None
    case Some(v) =>
      var unit := NormalizeUnit(unitCode);
      if Contains(unit, "m_s-1") || Contains(unit, "m/s") then Some(v * 2.23693629)
      else if Contains(unit, "km_h-1") || Contains(unit, "km/h") then Some(v * 0.621371192)
      else if Contains(unit, "knot") then Some(v * 1.15077945)
      else Some(v)
  }

  lemma TemperatureConversionMonotonic(v1: real, v2: real, unitCode: Option<string>)
    requires v1 <= v2
    ensures OrderKept(ConvertQuantityToF(Some(v1), unitCode), ConvertQuantityToF(Some(v2), unitCode))
  {
    ScaledOrder(v1, v2, 9.0 / 5.0, 32.0);
    ScaledOrder(v1 - 273.15, v2 - 273.15, 9.0 / 5.0, 32.0);
  }

  lemma SpeedConversionMonotonic(v1: real, v2: real, unitCode: Option<string>)
    requires v1 <= v2
    ensures OrderKept(ConvertQuantityToMph(Some(v1), unitCode), ConvertQuantityToMph(Some(v2), unitCode))
  {
    ScaledOrder(v1, v2, 2.23693629, 0.0);
    ScaledOrder(v1, v2, 0.621371192, 0.0);
    ScaledOrder(v1, v2, 1.15077945, 0.0);
  }

  /** The station temperature and speed conversions keep the order of values. */
  lemma StationConversionsMonotonic(v1: real, v2: real, unitCode: Option<string>)
    requires v1 <= v2
    ensures OrderKept(ConvertQuantityToF(Some(v1), unitCode), ConvertQuantityToF(Some(v2), unitCode))
    ensures OrderKept(ConvertQuantityToMph(Some(v1), unitCode), ConvertQuantityToMph(Some(v2), unitCode))
  {
    TemperatureConversionMonotonic(v1, v2, unitCode);
    SpeedConversionMonotonic(v1, v2, unitCode);
  }

  lemma ScaledOrder(v1: real, v2: real, factor: real, offset: real)
    requires v1 <= v2 && factor > 0.0
    ensures v1 * factor + offset <= v2 * factor + offset
  {
  }

  // ---------------------------------------------------------------------------
  // Lengths. The code tests `unit.includes("m")` on the whole unit code, and
  // the "wmoUnit:" prefix itself contains an "m"; the functions below keep
  // that behaviour apart from the corrected conversions that the rest of the
  // model uses.
  // ---------------------------------------------------------------------------

  /** `convertQuantityToIn` exactly as the code tests the whole code string. */
  function ConvertQuantityToInAsWritten(value: Option<real>, unitCode: Option<string>): (r: Option<real>)
    ensures r.Some? <==> value.Some?
    ensures NormalizeUnit(unitCode) == "" ==> r == value
  {
    match value
    case None => None
    case Some(v) => Some(StationInchesFromUnit(v, NormalizeUnit(unitCode)))
  }

  /** `convertQuantityToFt` exactly as the code tests the whole code string. */
  function ConvertQuantityToFtAsWritten(value: Option<real>, unitCode: Option<string>): (r: Option<real>)
    ensures r.Some? <==> value.Some?
    ensures NormalizeUnit(unitCode) == "" ==> r == value
  {
    match value
    case None => None
    case Some(v) => Some(StationFeetFromUnit(v, NormalizeUnit(unitCode)))
  }

  /** The inch conversion chain of the code applied to a unit name. */
  function StationInchesFromUnit(v: real, unit: string): real {
    if Contains(unit, "mm") then v / 25.4
    else if Contains(unit, "cm") then v / 2.54
    else if Contains(unit, "m") then v * 39.37007874
    else v
  }

  /** The feet conversion chain of the code applied to a unit name. */
  function StationFeetFromUnit(v: real, unit: string): real {
    if Contains(unit, "m") then v * 3.280839895 else v
  }

  /** The unit name after the last ':' of a unit code ("wmounit:mm" names "mm"); a code without ':' is its own name. */
  function UnitName(code: string): (r: string)
    ensures |r| <= |code|
    ensures ':' !in r
    ensures ':' !in code ==> r == code
  {
    if code == [] then []
    else if code[|code| - 1] == ':' then []
    else UnitName(code[..|code| - 1]) + [code[|code| - 1]]
  }

  /** Corrected `convertQuantityToIn`: the conversion is chosen by the unit name, not by the vocabulary prefix. */
  function ConvertQuantityToIn(value: Option<real>, unitCode: Option<string>): (r: Option<real>)
    ensures r.Some? <==> value.Some?
    ensures NormalizeUnit(unitCode) == "" ==> r == value
    ensures ':' !in NormalizeUnit(unitCode) ==> r == ConvertQuantityToInAsWritten(value, unitCode)
  {
    match value
    case None => None
    case Some(v) => Some(StationInchesFromUnit(v, UnitName(NormalizeUnit(unitCode))))
  }

  /** Corrected `convertQuantityToFt`: the conversion is chosen by the unit name, not by the vocabulary prefix. */
  function ConvertQuantityToFt(value: Option<real>, unitCode: Option<string>): (r: Option<real>)
    ensures r.Some? <==> value.Some?
    ensures NormalizeUnit(unitCode) == "" ==> r == value
    ensures ':' !in NormalizeUnit(unitCode) ==> r == ConvertQuantityToFtAsWritten(value, unitCode)
  {
    match value
    case None => None
    case Some(v) => Some(StationFeetFromUnit(v, UnitName(NormalizeUnit(unitCode))))
  }

  /** Every inch and feet conversion factor is positive. */
  lemma LengthConversionsMonotonic(v1: real, v2: real, unitCode: Option<string>)
    requires v1 <= v2
    ensures OrderKept(ConvertQuantityToIn(Some(v1), unitCode), ConvertQuantityToIn(Some(v2), unitCode))
    ensures OrderKept(ConvertQuantityToFt(Some(v1), unitCode), ConvertQuantityToFt(Some(v2), unitCode))
  {
    var name := UnitName(NormalizeUnit(unitCode));
    UnitLengthsMonotonic(v1, v2, name);
  }

  lemma UnitLengthsMonotonic(v1: real, v2: real, unit: string)
    requires v1 <= v2
    ensures StationInchesFromUnit(v1, unit) <= StationInchesFromUnit(v2, unit)
    ensures StationFeetFromUnit(v1, unit) <= StationFeetFromUnit(v2, unit)
  {
  }

  // Evaluation of the unit codes used in the finding.

  /** Lower-cases a ten-character code that has no surrounding space. */
  lemma LowerTen(s: string, l: string)
    requires |s| == 10 && |l| == 10 && !IsSpace(s[0]) && !IsSpace(s[9])
    requires forall i | 0 <= i < 10 :: LowerChar(s[i]) == l[i]
    ensures NormalizeUnit(Some(s)) == l
  {
    assert TrimStart(s) == s;
    assert TrimEnd(s) == s;
    assert ToLower(s) == l;
  }

  lemma NormalizeWmoIn()
    ensures NormalizeUnit(Some("wmoUnit:in")) == "wmounit:in"
  {
    var s, l := "wmoUnit:in", "wmounit:in";
    forall i | 0 <= i < 10 ensures LowerChar(s[i]) == l[i] {
      assert i == 0 || i == 1 || i == 2 || i == 3 || i == 4 || i == 5 || i == 6 || i == 7 || i == 8 || i == 9;
    }
    LowerTen(s, l);
  }

  lemma NormalizeWmoFt()
    ensures NormalizeUnit(Some("wmoUnit:ft")) == "wmounit:ft"
  {
    var s, l := "wmoUnit:ft", "wmounit:ft";
    forall i | 0 <= i < 10 ensures LowerChar(s[i]) == l[i] {
      assert i == 0 || i == 1 || i == 2 || i == 3 || i == 4 || i == 5 || i == 6 || i == 7 || i == 8 || i == 9;
    }
    LowerTen(s, l);
  }

  /** "wmounit:" followed by a two-letter name: 'm' appears once, in the prefix, and there is no 'c'. */
  lemma WmoCodeWindows(s: string)
    requires |s| == 10 && s[..8] == "wmounit:" && s[8] != 'm' && s[8] != 'c' && s[9] != 'm' && s[9] != 'c'
    ensures Contains(s, "m") && !Contains(s, "mm") && !Contains(s, "cm")
  {
    assert s[1] == "wmounit:"[1];
    assert MatchesAt(s, "m", 1);
    forall i | 0 <= i <= |s| - 2 ensures !MatchesAt(s, "mm", i) && !MatchesAt(s, "cm", i) {
      WindowChars(s, "mm", i);
      WindowChars(s, "cm", i);
      assert i == 0 || i == 1 || i == 2 || i == 3 || i == 4 || i == 5 || i == 6 || i == 7 || i == 8;
      assert i < 8 ==> s[i] == "wmounit:"[i];
      assert i < 7 ==> s[i + 1] == "wmounit:"[i + 1];
      assert s[i + 0] != "mm"[0] || s[i + 1] != "mm"[1];
      assert s[i + 0] != "cm"[0] || s[i + 1] != "cm"[1];
    }
  }

  /** A two-letter unit name without 'm' or 'c' matches none of the metric windows. */
  lemma ShortNameWindows(u: string)
    requires |u| == 2 && u[0] != 'm' && u[0] != 'c' && u[1] != 'm' && u[1] != 'c'
    ensures !Contains(u, "m") && !Contains(u, "mm") && !Contains(u, "cm")
  {
    forall i | 0 <= i <= |u| - 1 ensures !MatchesAt(u, "m", i) {
      WindowChars(u, "m", i);
      assert u[i + 0] != "m"[0];
    }
    forall i | 0 <= i <= |u| - 2 ensures !MatchesAt(u, "mm", i) && !MatchesAt(u, "cm", i) {
      WindowChars(u, "mm", i);
      WindowChars(u, "cm", i);
      assert u[i + 0] != "mm"[0] && u[i + 0] != "cm"[0];
    }
  }

  lemma UnitNameOfWmo(s: string)
    requires |s| == 10 && s[..8] == "wmounit:" && s[8] != ':' && s[9] != ':'
    ensures UnitName(s) == s[8..]
  {
    assert s[7] == "wmounit:"[7];
    assert s[..9][..8] == s[..8];
    assert UnitName(s[..8]) == [];
    assert UnitName(s[..9]) == [s[8]];
    assert UnitName(s) == [s[8], s[9]];
  }

  /** The windows of the two codes: each has its 'm' in the prefix only. */
  lemma WmoLengthCodeWindows()
    ensures Contains("wmounit:in", "m") && !Contains("wmounit:in", "mm") && !Contains("wmounit:in", "cm")
    ensures Contains("wmounit:ft", "m") && !Contains("wmounit:ft", "mm") && !Contains("wmounit:ft", "cm")
  {
    WmoCodeWindows("wmounit:in");
    WmoCodeWindows("wmounit:ft");
  }

  lemma WmoInName()
    ensures UnitName("wmounit:in") == "in"
  {
    UnitNameOfWmo("wmounit:in");
    assert "wmounit:in"[8..] == "in";
  }

  lemma WmoFtName()
    ensures UnitName("wmounit:ft") == "ft"
  {
    UnitNameOfWmo("wmounit:ft");
    assert "wmounit:ft"[8..] == "ft";
  }

  /** Both length conversions of a code, in terms of its normalised unit. */
  lemma LengthsByCode(v: real, code: string, unit: string)
    requires NormalizeUnit(Some(code)) == unit
    ensures ConvertQuantityToInAsWritten(Some(v), Some(code)) == Some(StationInchesFromUnit(v, unit))
    ensures ConvertQuantityToFtAsWritten(Some(v), Some(code)) == Some(StationFeetFromUnit(v, unit))
    ensures ConvertQuantityToIn(Some(v), Some(code)) == Some(StationInchesFromUnit(v, UnitName(unit)))
    ensures ConvertQuantityToFt(Some(v), Some(code)) == Some(StationFeetFromUnit(v, UnitName(unit)))
  {
  }

  /** A unit with an 'm' but neither "mm" nor "cm" takes the metre branch of both chains. */
  lemma MetreBranch(v: real, unit: string)
    requires Contains(unit, "m") && !Contains(unit, "mm") && !Contains(unit, "cm")
    ensures StationInchesFromUnit(v, unit) == v * 39.37007874
    ensures StationFeetFromUnit(v, unit) == v * 3.280839895
  {
  }

  /** A unit without 'm' (and so without "mm" or "cm") is left as it is by both chains. */
  lemma NoMetricBranch(v: real, unit: string)
    requires !Contains(unit, "m") && !Contains(unit, "mm") && !Contains(unit, "cm")
    ensures StationInchesFromUnit(v, unit) == v
    ensures StationFeetFromUnit(v, unit) == v
  {
  }

  lemma InchesPrefixSelectsMetres(v: real)
    ensures ConvertQuantityToInAsWritten(Some(v), Some("wmoUnit:in")) == Some(v * 39.37007874)
  {
    NormalizeWmoIn();
    LengthsByCode(v, "wmoUnit:in", "wmounit:in");
    WmoLengthCodeWindows();
    MetreBranch(v, "wmounit:in");
  }

  lemma FeetPrefixSelectsMetres(v: real)
    ensures ConvertQuantityToFtAsWritten(Some(v), Some("wmoUnit:ft")) == Some(v * 3.280839895)
  {
    NormalizeWmoFt();
    LengthsByCode(v, "wmoUnit:ft", "wmounit:ft");
    WmoLengthCodeWindows();
    MetreBranch(v, "wmounit:ft");
  }

  /**
   * As written, a station length already in inches ("wmoUnit:in") is
   * multiplied by 39.37 and one already in feet ("wmoUnit:ft") by 3.28,
   * because the "m" of the "wmoUnit" prefix selects the metre branch.
   */
  lemma PrefixSelectsMetres(v: real)
    ensures ConvertQuantityToInAsWritten(Some(v), Some("wmoUnit:in")) == Some(v * 39.37007874)
    ensures ConvertQuantityToFtAsWritten(Some(v), Some("wmoUnit:ft")) == Some(v * 3.280839895)
  {
    InchesPrefixSelectsMetres(v);
    FeetPrefixSelectsMetres(v);
  }

  lemma InchesPrefixIgnored(v: real)
    ensures ConvertQuantityToIn(Some(v), Some("wmoUnit:in")) == Some(v)
  {
    NormalizeWmoIn();
    LengthsByCode(v, "wmoUnit:in", "wmounit:in");
    WmoInName();
    ShortNameWindows("in");
    NoMetricBranch(v, "in");
  }

  lemma FeetPrefixIgnored(v: real)
    ensures ConvertQuantityToFt(Some(v), Some("wmoUnit:ft")) == Some(v)
  {
    NormalizeWmoFt();
    LengthsByCode(v, "wmoUnit:ft", "wmounit:ft");
    WmoFtName();
    ShortNameWindows("ft");
    NoMetricBranch(v, "ft");
  }

  /** Corrected: a station length already in inches or feet comes back unchanged. */
  lemma PrefixIgnored(v: real)
    ensures ConvertQuantityToIn(Some(v), Some("wmoUnit:in")) == Some(v)
    ensures ConvertQuantityToFt(Some(v), Some("wmoUnit:ft")) == Some(v)
  {
    InchesPrefixIgnored(v);
    FeetPrefixIgnored(v);
  }
}
