/**
 * Field validators of the RIPS flat files (ErroresJSON/src/validators.py).
 * Each validator answers `(True, None)` or `(False, message)`; the model
 * writes that pair as `Option<Msg>`, `None` meaning valid, so a failure
 * always carries its message.  The message texts are modelled by their
 * kind and the values they quote.  The clock read `datetime.now()` is the
 * parameter `today`.
 */
module Validators {
  import opened Wrappers
  import opened Text
  import opened Dates
  import opened Patterns

  datatype Msg =
    | Mandatory(field: string)
    | Required(field: string)
    | NumericRequired(field: string)
    | DiagnosisRequired(field: string)
    | DateFormat(field: string, value: string)
    | FutureDate(field: string, value: string)
    | Before1900(field: string, value: string)
    | InvalidDate(field: string, value: string)
    | RangeOrder(startField: string, start: string, endField: string, end: string)
    | BirthAfterAttention(birth: string, attention: string)
    | BelowMin(field: string, bound: real, value: string)
    | AboveMax(field: string, bound: real, value: string)
    | NotInteger(field: string, value: string)
    | NotDecimal(field: string, value: string)
    | TooLong(field: string, max: int, len: int)
    | WrongLength(field: string, exact: int, len: int)
    | BadDocumentType(field: string, value: string)
    | BadSex(field: string, value: string)
    | BadAgeUnit(field: string, value: string)
    | BadZone(field: string, value: string)
    | BadUserType(field: string, value: string)
    | BadCie10(field: string, value: string)
    | BadCups(field: string, value: string)

  /** A validator's answer: `None` is `(True, None)`, `Some(m)` is `(False, m)`. */
  type Verdict = Option<Msg>

  /** `BaseValidator.is_empty`: `None`, or only whitespace. */
  predicate IsEmpty(value: Option<string>)
  {
    value.None? || Strip(value.value) == []
  }

  /** `is_empty` of a text that is present. */
  predicate Empty(s: string)
  {
    IsEmpty(Some(s))
  }

  /** `is_empty` holds exactly for `None` and for texts made only of whitespace. */
  lemma IsEmptyIff(value: Option<string>)
    ensures IsEmpty(value) <==> value.None? || Blank(value.value)
  {
    if value.Some? {
      StripEmptyIff(value.value);
    }
  }

  /** `BaseValidator.validate_required`. */
  function ValidateRequired(value: string, field: string): (r: Verdict)
    ensures r.None? <==> !Blank(value)
    ensures r.Some? ==> r.value == Mandatory(field)
  {
    StripEmptyIff(value);
    if Empty(value) then Some(Mandatory(field)) else None
  }

  // ---------------------------------------------------------------------
  // Dates
  // ---------------------------------------------------------------------

  /** `validate_format`'s triple: accepted with the parsed date (absent for an optional empty field), or rejected. */
  datatype DateResult = Accepted(date: Option<Date>) | Rejected(msg: Msg)

  /** The dates `validate_format` accepts: shape `dd/mm/yyyy`, a real day, not after today, year 1900 or later. */
  predicate GoodDmy(s: string, today: Date)
  {
    DmyShape(s) && Valid(DmyFields(s)) && !Before(today, DmyFields(s)) && DmyFields(s).year >= 1900
  }

  /**
   * `DateValidator.validate_format`: emptiness first, then the shape
   * `^\d{2}/\d{2}/\d{4}$`, then `strptime('%d/%m/%Y')`, then the future and
   * the 1900 bounds.  The shape and the parse are written through `DmyShape`
   * and `DmyFields`; `FormatFollowsRegexAndStrptime` shows this is the
   * regular expression and `strptime` of the source.
   */
  function ValidateFormat(s: string, field: string, required: bool, today: Date): (r: DateResult)
    ensures r == Accepted(None) <==> Empty(s) && !required
    ensures r.Accepted? && r.date.Some? <==> GoodDmy(s, today)
    ensures GoodDmy(s, today) ==> r == Accepted(Some(DmyFields(s)))
    ensures r.Rejected? && Empty(s) ==> r.msg == Required(field)
  {
    if Empty(s) then
      StripEmptyIff(s);
      assert !DmyShape(s) by { if |s| > 0 { assert IsSpace(s[0]); } }
      if required then Rejected(Required(field)) else Accepted(None)
    else if !DmyShape(s) then Rejected(DateFormat(field, s))
    else if !Valid(DmyFields(s)) then Rejected(InvalidDate(field, s))
    else if Before(today, DmyFields(s)) then Rejected(FutureDate(field, s))
    else if DmyFields(s).year < 1900 then Rejected(Before1900(field, s))
    else Accepted(Some(DmyFields(s)))
  }

  /** `validate_format` step by step: the regular expression, then `strptime`, then the two bounds. */
  lemma FormatFollowsRegexAndStrptime(s: string, field: string, required: bool, today: Date)
    requires !Empty(s)
    ensures !FullMatch(DmyPattern, s) ==> ValidateFormat(s, field, required, today) == Rejected(DateFormat(field, s))
    ensures FullMatch(DmyPattern, s) && StrptimeDmy(s).None? ==>
              ValidateFormat(s, field, required, today) == Rejected(InvalidDate(field, s))
    ensures FullMatch(DmyPattern, s) && StrptimeDmy(s).Some? ==>
              var d := StrptimeDmy(s).value;
              ValidateFormat(s, field, required, today)
              == if Before(today, d) then Rejected(FutureDate(field, s))
                 else if d.year < 1900 then Rejected(Before1900(field, s))
                 else Accepted(Some(d))
  {
    DmyShapeIff(s);
    if DmyShape(s) { DmyOnShape(s); }
  }

  /** `DateValidator.validate_date_range`: both ends are required dates and the start may not come after the end. */
  function ValidateDateRange(start: string, end: string, fieldStart: string, fieldEnd: string, today: Date): (r: Verdict)
    ensures ValidateFormat(start, fieldStart, true, today).Rejected? ==>
              r == Some(ValidateFormat(start, fieldStart, true, today).msg)
    ensures GoodDmy(start, today) && !GoodDmy(end, today) ==>
              r == Some(ValidateFormat(end, fieldEnd, true, today).msg)
    ensures GoodDmy(start, today) && GoodDmy(end, today) ==>
              (r.None? <==> !Before(DmyFields(end), DmyFields(start)))
    ensures r.None? <==> GoodDmy(start, today) && GoodDmy(end, today) && !Before(DmyFields(end), DmyFields(start))
  {
    var a := ValidateFormat(start, fieldStart, true, today);
    var b := ValidateFormat(end, fieldEnd, true, today);
    if a.Rejected? then Some(a.msg)
    else if b.Rejected? then Some(b.msg)
    else if a.date.Some? && b.date.Some? && Before(b.date.value, a.date.value) then
      Some(RangeOrder(fieldStart, start, fieldEnd, end))
    else None
  }

  /** A range whose two ends are the same good date is accepted. */
  lemma RangeAcceptsEqualEnds(s: string, f1: string, f2: string, today: Date)
    requires GoodDmy(s, today)
    ensures ValidateDateRange(s, s, f1, f2, today) == None
  {
  }

  /** `DateValidator.validate_age_consistency`: fails only for two good dates with the birth after the attention. */
  function ValidateAgeConsistency(birth: string, attention: string, age: string, ageUnit: string, today: Date): (r: Verdict)
    ensures r.Some? <==> GoodDmy(birth, today) && GoodDmy(attention, today)
                         && Before(DmyFields(attention), DmyFields(birth))
    ensures r.Some? ==> r.value == BirthAfterAttention(birth, attention)
  {
    var a := ValidateFormat(birth, "fecha_nacimiento", true, today);
    var b := ValidateFormat(attention, "fecha_atencion", true, today);
    if a.Rejected? || b.Rejected? then None
    else if a.date.Some? && b.date.Some? && Before(b.date.value, a.date.value) then
      Some(BirthAfterAttention(birth, attention))
    else None
  }

  // ---------------------------------------------------------------------
  // Numbers
  // ---------------------------------------------------------------------

  predicate IntInBounds(n: int, min: Option<int>, max: Option<int>)
  {
    (min.None? || min.value <= n) && (max.None? || n <= max.value)
  }

  /** `NumericValidator.validate_integer`. */
  function ValidateInteger(value: string, field: string, required: bool, min: Option<int>, max: Option<int>): (r: Verdict)
    ensures r.None? <==> (Empty(value) && !required)
                         || (!Empty(value) && PyInt(value).Some? && IntInBounds(PyInt(value).value, min, max))
    ensures Empty(value) && required ==> r == Some(NumericRequired(field))
    ensures !Empty(value) && PyInt(value).None? ==> r == Some(NotInteger(field, value))
  {
    if Empty(value) then
      if required then Some(NumericRequired(field)) else None
    else
      match PyInt(value)
      case None => Some(NotInteger(field, value))
      case Some(n) =>
        if min.Some? && n < min.value then Some(BelowMin(field, min.value as real, value))
        else if max.Some? && n > max.value then Some(AboveMax(field, max.value as real, value))
        else None
  }

  lemma ShowNotEmpty(n: int)
    ensures !Empty(ShowInt(n))
  {
    ShowIntParts(n);
    var m: nat := if n < 0 then -n else n;
    assert Show(m) != [];
  }

  /** The bounds are inclusive: `str(n)` is accepted exactly when `lo <= n <= hi`. */
  lemma IntegerBoundsInclusive(n: int, field: string, required: bool, lo: int, hi: int)
    ensures ValidateInteger(ShowInt(n), field, required, Some(lo), Some(hi)) == None <==> lo <= n <= hi
  {
    ShowNotEmpty(n);
    PyIntShow(n);
  }

  predicate FloatInBounds(x: Float, min: Option<real>, max: Option<real>)
  {
    (min.None? || !x.Below(min.value)) && (max.None? || !x.Above(max.value))
  }

  /** `NumericValidator.validate_decimal`; NaN is compared as Python compares it (never below, never above). */
  function ValidateDecimal(value: string, field: string, required: bool, min: Option<real>, max: Option<real>): (r: Verdict)
    ensures r.None? <==> (Empty(value) && !required)
                         || (!Empty(value) && PyFloat(value).Some? && FloatInBounds(PyFloat(value).value, min, max))
    ensures Empty(value) && required ==> r == Some(NumericRequired(field))
    ensures !Empty(value) && PyFloat(value).None? ==> r == Some(NotDecimal(field, value))
  {
    if Empty(value) then
      if required then Some(NumericRequired(field)) else None
    else
      match PyFloat(value)
      case None => Some(NotDecimal(field, value))
      case Some(x) =>
        if min.Some? && x.Below(min.value) then Some(BelowMin(field, min.value, value))
        else if max.Some? && x.Above(max.value) then Some(AboveMax(field, max.value, value))
        else None
  }

  /** The minimum is inclusive: an integer text is accepted with minimum `lo` exactly when it is at least `lo`. */
  lemma DecimalMinInclusive(n: int, field: string, required: bool, lo: real)
    ensures ValidateDecimal(ShowInt(n), field, required, Some(lo), None) == None <==> lo <= n as real
  {
    ShowNotEmpty(n);
    PyFloatShow(n);
  }

  // ---------------------------------------------------------------------
  // Lengths
  // ---------------------------------------------------------------------

  /** `LengthValidator.validate_length`: the raw length (not the stripped one) may not exceed `maxLength`. */
  function ValidateLength(value: string, field: string, maxLength: int, required: bool): (r: Verdict)
    ensures r.None? <==> (Empty(value) && !required) || (!Empty(value) && |value| <= maxLength)
    ensures !Empty(value) && |value| > maxLength ==> r == Some(TooLong(field, maxLength, |value|))
  {
    if Empty(value) then
      if required then Some(Required(field)) else None
    else if |value| > maxLength then Some(TooLong(field, maxLength, |value|))
    else None
  }

  /** `LengthValidator.validate_exact_length`. */
  function ValidateExactLength(value: string, field: string, exactLength: int, required: bool): (r: Verdict)
    ensures r.None? <==> (Empty(value) && !required) || (!Empty(value) && |value| == exactLength)
    ensures !Empty(value) && |value| != exactLength ==> r == Some(WrongLength(field, exactLength, |value|))
  {
    if Empty(value) then
      if required then Some(Required(field)) else None
    else if |value| != exactLength then Some(WrongLength(field, exactLength, |value|))
    else None
  }

  // ---------------------------------------------------------------------
  // Code sets
  // ---------------------------------------------------------------------

  const DocumentTypes: seq<string> := ["CC", "TI", "RC", "CE", "PA", "MS", "AS", "CD", "SC", "PE", "PT", "NI"]
  const Sexes: seq<string> := ["M", "F"]
  const AgeUnits: seq<string> := ["1", "2", "3"]
  const Zones: seq<string> := ["U", "R"]
  const UserTypes: seq<string> := ["1", "2", "3", "4"]

  /** Every code of a code set starts with a letter or a digit, so no code is blank. */
  predicate NoBlankCode(codes: seq<string>)
  {
    forall i :: 0 <= i < |codes| ==> codes[i] != [] && !IsSpace(codes[i][0])
  }

  lemma BlankNotCode(v: string, codes: seq<string>)
    requires NoBlankCode(codes) && Empty(v)
    ensures v !in codes
  {
    StripEmptyIff(v);
    forall i | 0 <= i < |codes|
      ensures codes[i] != v
    {
      if v != [] { assert IsSpace(v[0]); }
    }
  }

  /** The shared shape of the code-set validators: empty first, then membership. */
  function CodeIn(v: string, codes: seq<string>, missing: Msg, bad: Msg): (r: Verdict)
    requires NoBlankCode(codes)
    ensures r.None? <==> v in codes
    ensures Empty(v) ==> r == Some(missing)
    ensures !Empty(v) && v !in codes ==> r == Some(bad)
  {
    if Empty(v) then BlankNotCode(v, codes); Some(missing)
    else if v !in codes then Some(bad)
    else None
  }

  /** `CodeValidator.validate_document_type`: one of the twelve document types; empty always fails. */
  function ValidateDocumentType(v: string, field: string): (r: Verdict)
    ensures r.None? <==> v in DocumentTypes
    ensures Empty(v) ==> r == Some(Required(field))
    ensures r.Some? && !Empty(v) ==> r == Some(BadDocumentType(field, v))
  {
    CodeIn(v, DocumentTypes, Required(field), BadDocumentType(field, v))
  }

  /** `CodeValidator.validate_sex`: `M` or `F`. */
  function ValidateSex(v: string, field: string): (r: Verdict)
    ensures r.None? <==> v == "M" || v == "F"
    ensures Empty(v) ==> r == Some(Required(field))
    ensures r.Some? && !Empty(v) ==> r == Some(BadSex(field, v))
  {
    CodeIn(v, Sexes, Required(field), BadSex(field, v))
  }

  /** `CodeValidator.validate_age_unit`: `1` years, `2` months, `3` days. */
  function ValidateAgeUnit(v: string, field: string): (r: Verdict)
    ensures r.None? <==> v == "1" || v == "2" || v == "3"
    ensures Empty(v) ==> r == Some(Required(field))
    ensures r.Some? && !Empty(v) ==> r == Some(BadAgeUnit(field, v))
  {
    CodeIn(v, AgeUnits, Required(field), BadAgeUnit(field, v))
  }

  /** `CodeValidator.validate_zone`: `U` urban or `R` rural. */
  function ValidateZone(v: string, field: string): (r: Verdict)
    ensures r.None? <==> v == "U" || v == "R"
    ensures Empty(v) ==> r == Some(Required(field))
    ensures r.Some? && !Empty(v) ==> r == Some(BadZone(field, v))
  {
    CodeIn(v, Zones, Required(field), BadZone(field, v))
  }

  /** `CodeValidator.validate_user_type`: `1` to `4`. */
  function ValidateUserType(v: string, field: string): (r: Verdict)
    ensures r.None? <==> v == "1" || v == "2" || v == "3" || v == "4"
    ensures Empty(v) ==> r == Some(Required(field))
    ensures r.Some? && !Empty(v) ==> r == Some(BadUserType(field, v))
  {
    CodeIn(v, UserTypes, Required(field), BadUserType(field, v))
  }

  /** The ICD-10 format spelled out: a capital letter, two digits, optionally a digit or `X`. */
  predicate Cie10Chars(s: string)
  {
    (|s| == 3 || |s| == 4) && IsUpper(s[0]) && IsDigit(s[1]) && IsDigit(s[2])
    && (|s| == 4 ==> IsDigit(s[3]) || s[3] == 'X')
  }

  /** `CodeValidator.validate_cie10_format`. */
  function ValidateCie10Format(code: string, field: string, required: bool): (r: Verdict)
    ensures r.None? <==> (Empty(code) && !required) || Cie10Chars(code)
    ensures Empty(code) && required ==> r == Some(DiagnosisRequired(field))
    ensures r.Some? && !Empty(code) ==> r == Some(BadCie10(field, code))
  {
    Cie10Shape(code);
    if Empty(code) then
      StripEmptyIff(code);
      assert !Cie10Chars(code) by { if |code| > 0 { assert IsSpace(code[0]); } }
      if required then Some(DiagnosisRequired(field)) else None
    else if !FullMatch(Cie10Pattern, code) then Some(BadCie10(field, code))
    else None
  }

  /** `CodeValidator.validate_cups_format`. */
  function ValidateCupsFormat(code: string, field: string, required: bool): (r: Verdict)
    ensures r.None? <==> (Empty(code) && !required) || (|code| == 6 && AllDigits(code))
    ensures Empty(code) && required ==> r == Some(Required(field))
    ensures r.Some? && !Empty(code) ==> r == Some(BadCups(field, code))
  {
    CupsShape(code);
    if Empty(code) then
      StripEmptyIff(code);
      assert !(|code| == 6 && AllDigits(code)) by { if |code| > 0 { assert IsSpace(code[0]); } }
      if required then Some(Required(field)) else None
    else if !FullMatch(CupsPattern, code) then Some(BadCups(field, code))
    else None
  }

  /** With `required=False`, every validator that has the flag accepts an empty value. */
  lemma OptionalAcceptsEmpty(v: string, field: string, n: int, min: Option<int>, max: Option<int>,
                             fmin: Option<real>, fmax: Option<real>, today: Date)
    requires Blank(v)
    ensures ValidateFormat(v, field, false, today) == Accepted(None)
    ensures ValidateInteger(v, field, false, min, max) == None
    ensures ValidateDecimal(v, field, false, fmin, fmax) == None
    ensures ValidateLength(v, field, n, false) == None
    ensures ValidateExactLength(v, field, n, false) == None
    ensures ValidateCie10Format(v, field, false) == None
    ensures ValidateCupsFormat(v, field, false) == None
  {
    StripEmptyIff(v);
  }
}
