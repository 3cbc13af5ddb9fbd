/**
 * Unit normalisation: every hourly field arrives as a number plus a free-text
 * unit string and is converted to the pipeline's canonical unit (°F, inches,
 * feet, mph). A null value stays null; an empty or unknown unit falls back to
 * a per-quantity assumption.
 */
module Units {
  import opened Wrappers
  import opened Text

  /** `normalizeUnit`: a string unit trimmed and lower-cased; anything else (undefined) becomes "". */
  function NormalizeUnit(unit: Option<string>): (r: string)
    ensures unit.None? ==> r == ""
    ensures unit.Some? ==> |r| <= |unit.value|
    ensures r == [] || (!IsSpace(r[0]) && !IsSpace(r[|r| - 1]))
    ensures forall i :: 0 <= i < |r| ==> !('A' <= r[i] <= 'Z')
  {
    match unit
    case Some(u) =>
      TrimmedEnds(u);
      LowerShape(Trim(u));
      ToLower(Trim(u))
    case None => ""
  }

  /** A trimmed string neither starts nor ends with white space. */
  lemma TrimmedEnds(s: string)
    ensures |Trim(s)| <= |s|
    ensures Trim(s) == [] || (!IsSpace(Trim(s)[0]) && !IsSpace(Trim(s)[|Trim(s)| - 1]))
  {
    var st := TrimStart(s);
    var t := Trim(s);
    if t != [] {
      assert t == st[..|t|];
      assert t[0] == st[0];
    }
  }

  /** Lower-casing leaves no upper-case letter and keeps white space at the ends as it was. */
  lemma LowerShape(t: string)
    requires t == [] || (!IsSpace(t[0]) && !IsSpace(t[|t| - 1]))
    ensures var l := ToLower(t);
      && (l == [] || (!IsSpace(l[0]) && !IsSpace(l[|l| - 1])))
      && forall i :: 0 <= i < |l| ==> !('A' <= l[i] <= 'Z')
  {
    if t != [] {
      LowerKeepsSpace(t[0]);
      LowerKeepsSpace(t[|t| - 1]);
    }
  }

  lemma LowerKeepsSpace(c: char)
    ensures IsSpace(LowerChar(c)) <==> IsSpace(c)
  {
  }

  lemma {:induction false} LowerIdempotent(s: string)
    ensures ToLower(ToLower(s)) == ToLower(s)
  {
    if s != [] {
      LowerIdempotent(s[1..]);
    }
  }

  lemma TrimmedIsFixed(s: string)
    requires s == [] || (!IsSpace(s[0]) && !IsSpace(s[|s| - 1]))
    ensures Trim(s) == s
  {
  }

  /** Normalising twice is normalising once: every converter sees the same unit either way. */
  lemma {:induction false} NormalizeUnitIdempotent(unit: Option<string>)
    ensures NormalizeUnit(Some(NormalizeUnit(unit))) == NormalizeUnit(unit)
  {
    if unit.Some? {
      var t := Trim(unit.value);
      var l := ToLower(t);
      TrimmedIsFixed(l);
      LowerIdempotent(t);
    }
  }

  /** `convertTemperatureToF`: a unit mentioning "f" is already Fahrenheit, one mentioning "c" is Celsius. */
  function ConvertTemperatureToF(value: Option<real>, unitRaw: Option<string>): (r: Option<real>)
    ensures r.Some? <==> value.Some?
    ensures NormalizeUnit(unitRaw) == "" ==> r == value
  {
    match value
    case None => None
    case Some(v) => Some(FahrenheitFromUnit(v, NormalizeUnit(unitRaw)))
  }

  function FahrenheitFromUnit(v: real, unit: string): real {
    if Contains(unit, "f") then v
    else if Contains(unit, "c") then v * (9.0 / 5.0) + 32.0
    else v
  }

  /** `convertLengthToIn`: an empty unit is already inches. */
  function ConvertLengthToIn(value: Option<real>, unitRaw: Option<string>): (r: Option<real>)
    ensures r.Some? <==> value.Some?
    ensures NormalizeUnit(unitRaw) == "" ==> r == value
  {
    match value
    case None => None
    case Some(v) => Some(InchesFromUnit(v, NormalizeUnit(unitRaw)))
  }

  function InchesFromUnit(v: real, unit: string): real {
    if unit == "" || unit == "in" || Contains(unit, "inch") then v
    else if unit == "mm" || Contains(unit, "millimeter") then v / 25.4
    else if unit == "cm" || Contains(unit, "centimeter") then v / 2.54
    else if unit == "m" || unit == "meter" || unit == "metre" then v * 39.37007874
    else if unit == "ft" || Contains(unit, "foot") || Contains(unit, "feet") then v * 12.0
    else v
  }

  /** `convertLengthToFt`: an empty unit is taken to be metres (freezing-level heights often come without one). */
  function ConvertLengthToFt(value: Option<real>, unitRaw: Option<string>): (r: Option<real>)
    ensures r.Some? <==> value.Some?
    ensures NormalizeUnit(unitRaw) == "" && value.Some? ==> r == Some(value.value * 3.280839895)
  {
    match value
    case None => None
    case Some(v) => Some(FeetFromUnit(v, NormalizeUnit(unitRaw)))
  }

  function FeetFromUnit(v: real, unit: string): real {
    if unit == "" then v * 3.280839895
    else if unit == "ft" || Contains(unit, "foot") || Contains(unit, "feet") then v
    else if unit == "m" || unit == "meter" || unit == "metre" then v * 3.280839895
    else if unit == "cm" || Contains(unit, "centimeter") then v / 30.48
    else if unit == "mm" || Contains(unit, "millimeter") then v / 304.8
    else if unit == "in" || Contains(unit, "inch") then v / 12.0
    else v
  }

  /** `convertSpeedToMph`: an empty unit is already mph. */
  function ConvertSpeedToMph(value: Option<real>, unitRaw: Option<string>): (r: Option<real>)
    ensures r.Some? <==> value.Some?
    ensures NormalizeUnit(unitRaw) == "" ==> r == value
  {
    match value
    case None => None
    case Some(v) => Some(MphFromUnit(v, NormalizeUnit(unitRaw)))
  }

  function MphFromUnit(v: real, unit: string): real {
    if unit == "" || Contains(unit, "mph") || Contains(unit, "mp/h") then v
    else if Contains(unit, "km/h") || Contains(unit, "kmh") then v * 0.621371192
    else if Contains(unit, "m/s") then v * 2.23693629
    else if unit == "kn" || Contains(unit, "knot") then v * 1.15077945
    else if Contains(unit, "ft/s") then v * 0.681818182
    else v
  }

  /** Order between two present values, as the converters must keep it. */
  predicate OrderKept(a: Option<real>, b: Option<real>) {
    a.Some? && b.Some? ==> a.value <= b.value
  }

  /** Celsius-to-Fahrenheit and the identity both keep the order of values. */
  lemma TemperatureMonotonic(v1: real, v2: real, unit: Option<string>)
    requires v1 <= v2
    ensures OrderKept(ConvertTemperatureToF(Some(v1), unit), ConvertTemperatureToF(Some(v2), unit))
  {
  }

  /** Every length-to-inches factor is positive. */
  lemma LengthToInMonotonic(v1: real, v2: real, unit: Option<string>)
    requires v1 <= v2
    ensures OrderKept(ConvertLengthToIn(Some(v1), unit), ConvertLengthToIn(Some(v2), unit))
  {
  }

  /** Every length-to-feet factor is positive. */
  lemma LengthToFtMonotonic(v1: real, v2: real, unit: Option<string>)
    requires v1 <= v2
    ensures OrderKept(ConvertLengthToFt(Some(v1), unit), ConvertLengthToFt(Some(v2), unit))
  {
  }

  /** Every speed factor is positive. */
  lemma SpeedMonotonic(v1: real, v2: real, unit: Option<string>)
    requires v1 <= v2
    ensures OrderKept(ConvertSpeedToMph(Some(v1), unit), ConvertSpeedToMph(Some(v2), unit))
  {
  }

  /** Re-normalising the unit string changes no conversion. */
  lemma ConvertersSeeNormalUnit(value: Option<real>, unit: Option<string>)
    ensures ConvertTemperatureToF(value, Some(NormalizeUnit(unit))) == ConvertTemperatureToF(value, unit)
    ensures ConvertLengthToIn(value, Some(NormalizeUnit(unit))) == ConvertLengthToIn(value, unit)
    ensures ConvertLengthToFt(value, Some(NormalizeUnit(unit))) == ConvertLengthToFt(value, unit)
    ensures ConvertSpeedToMph(value, Some(NormalizeUnit(unit))) == ConvertSpeedToMph(value, unit)
  {
    NormalizeUnitIdempotent(unit);
  }
}
