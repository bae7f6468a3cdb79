/**
 * The automatic corrector of RIPS field values: six field-level
 * corrections (dates, free text, numbers, CIE-10 codes, CUPS codes and
 * document types), each returning the value to use and, when it changed
 * the value, a correction record that the corrector keeps; the summary of
 * the kept records; and the pass that runs the safe corrections over the
 * fields of one US or AC line.
 */
module Corrector {
  import opened Wrappers
  import opened Text
  import opened Dates
  import opened Validators
  import opened Cie10
  import opened Counters
  import Rules

  // ---------------------------------------------------------------------
  // Correction records
  // ---------------------------------------------------------------------

  /** The confidence levels `'alta'`, `'media'` and `'baja'`. */
  datatype Confidence = Alta | Media | Baja

  /** The `correction_type` tags. */
  datatype CorrectionType = FormatoFecha | NormalizacionTexto | FormatoNumerico | SugerenciaCie10 | FormatoCups | TipoDocumento
  {
    function Name(): string
    {
      match this
      case FormatoFecha => "formato_fecha"
      case NormalizacionTexto => "normalizacion_texto"
      case FormatoNumerico => "formato_numerico"
      case SugerenciaCie10 => "sugerencia_cie10"
      case FormatoCups => "formato_cups"
      case TipoDocumento => "tipo_documento"
    }
  }

  /** Why a record was made; `Message` is the text the record carries. */
  datatype Reason =
    | DateReformatted(original: string, corrected: string)
    | TextNormalized
    | NumberReformatted
    | Cie10Suggested(code: string, suggested: string)
    | CupsAdjusted
    | DocumentTypeStandardized(original: string, corrected: string)
  {
    function Message(): string
    {
      match this
      case DateReformatted(o, c) => "Formato de fecha corregido de '" + o + "' a '" + c + "' (DD/MM/YYYY)"
      case TextNormalized => "Texto normalizado: espacios eliminados y/o convertido a mayúsculas"
      case NumberReformatted => "Formato numérico corregido"
      case Cie10Suggested(o, c) =>
        "Código CIE10 '" + o + "' no válido. Sugerencia basada en similitud: '" + c
        + "'. REQUIERE VALIDACIÓN MÉDICA antes de aplicar."
      case CupsAdjusted => "Código CUPS ajustado a 6 dígitos. REQUIERE VALIDACIÓN."
      case DocumentTypeStandardized(o, c) => "Tipo de documento estandarizado de '" + o + "' a '" + c + "'"
    }
  }

  /** `CorrectionRecord`, without its wall-clock timestamp. */
  datatype CorrectionRecord = CorrectionRecord(
    fileName: string,
    lineNumber: int,
    fieldName: string,
    originalValue: string,
    correctedValue: string,
    correctionType: CorrectionType,
    confidence: Confidence,
    reason: Reason)

  /** What a correction returns: the value to use and the record, if it made one. */
  datatype Corrected = Corrected(value: string, record: Option<CorrectionRecord>)

  /** The records a correction appends to the corrector's list. */
  function Recorded(o: Option<CorrectionRecord>): (r: seq<CorrectionRecord>)
    ensures o.None? ==> r == []
    ensures o.Some? ==> r == [o.value]
  {
    if o.Some? then [o.value] else []
  }

  /**
   * The contract every correction keeps: an unrecorded correction hands the
   * value back untouched, and a record carries the value handed back and
   * the place it came from.
   */
  predicate Accountable(input: string, r: Corrected, fieldName: string, fileName: string, lineNumber: int)
  {
    match r.record
    case None => r.value == input
    case Some(c) =>
      c.correctedValue == r.value && c.fieldName == fieldName
      && c.fileName == fileName && c.lineNumber == lineNumber
  }

  // ---------------------------------------------------------------------
  // Dates
  // ---------------------------------------------------------------------

  predicate DateSep(c: char) { c == '-' || c == '/' }

  /** `^(\d{4})[-/](\d{2})[-/](\d{2})$`. */
  predicate YearFirst(s: string)
  {
    |s| == 10 && AllDigits(s[..4]) && DateSep(s[4]) && AllDigits(s[5..7])
    && DateSep(s[7]) && AllDigits(s[8..])
  }

  /** `^(\d{2})-(\d{2})-(\d{4})$`. */
  predicate DayFirst(s: string)
  {
    |s| == 10 && AllDigits(s[..2]) && s[2] == '-' && AllDigits(s[3..5])
    && s[5] == '-' && AllDigits(s[6..])
  }

  /** The text after both substitutions: year-first dates are turned round, day-first ones get slashes. */
  function Reordered(s: string): string
  {
    var c1 := if YearFirst(s) then s[8..] + "/" + s[5..7] + "/" + s[..4] else s;
    if DayFirst(s) then s[..2] + "/" + s[3..5] + "/" + s[6..] else c1
  }

  /** `correct_date_format`. */
  function DateCorrection(s: string, fieldName: string, fileName: string, lineNumber: int): Corrected
  {
    if s == [] || Strip(s) == [] then Corrected(s, None)
    else
      var corrected := Reordered(s);
      if corrected != s then
        Corrected(corrected, Some(CorrectionRecord(
          fileName, lineNumber, fieldName, s, corrected, FormatoFecha, Alta,
          DateReformatted(s, corrected))))
      else Corrected(s, None)
  }

  /** A year-first date is turned round into `dd/mm/yyyy`. */
  lemma ReorderedYearFirst(s: string)
    requires YearFirst(s)
    ensures var c := Reordered(s);
      DmyShape(c) && c != s
      && c[..2] == s[8..] && c[3..5] == s[5..7] && c[6..] == s[..4]
  {
    assert !DayFirst(s) by { assert s[2] == s[..4][2]; }
    var c := s[8..] + "/" + s[5..7] + "/" + s[..4];
    assert c[4] == s[5..7][1];
    assert c[..2] == s[8..] && c[3..5] == s[5..7] && c[6..] == s[..4];
  }

  /** A day-first date with dashes gets slashes instead. */
  lemma ReorderedDayFirst(s: string)
    requires DayFirst(s)
    ensures var c := Reordered(s);
      DmyShape(c) && c != s
      && c[..2] == s[..2] && c[3..5] == s[3..5] && c[6..] == s[6..]
  {
    assert !YearFirst(s) by { assert s[2] == s[..2][1] || s[2] == '-'; }
    var c := s[..2] + "/" + s[3..5] + "/" + s[6..];
    assert c[2] != s[2];
    assert c[..2] == s[..2] && c[3..5] == s[3..5] && c[6..] == s[6..];
  }

  /** A text that starts with a digit is not blank. */
  lemma DigitLedNotBlank(s: string)
    requires s != [] && IsDigit(s[0])
    ensures s != [] && Strip(s) != []
  {
    StripEmptyIff(s);
  }

  /**
   * A date is rewritten exactly when it is written year first (with `-` or
   * `/`) or day first with dashes.
   */
  lemma DateRecordedIff(s: string, fieldName: string, fileName: string, lineNumber: int)
    ensures var r := DateCorrection(s, fieldName, fileName, lineNumber);
      Accountable(s, r, fieldName, fileName, lineNumber)
      && (r.record.Some? <==> YearFirst(s) || DayFirst(s))
  {
    if YearFirst(s) {
      assert s[0] == s[..4][0];
      DigitLedNotBlank(s);
      ReorderedYearFirst(s);
    } else if DayFirst(s) {
      assert s[0] == s[..2][0];
      DigitLedNotBlank(s);
      ReorderedDayFirst(s);
    }
  }

  /**
   * A rewritten date has the `dd/mm/yyyy` shape and carries the day, month
   * and year digits of the original.
   */
  lemma DateCorrected(s: string, fieldName: string, fileName: string, lineNumber: int)
    ensures var r := DateCorrection(s, fieldName, fileName, lineNumber);
      r.record.Some? ==>
        DmyShape(r.value) && r.record.value.originalValue == s
        && r.record.value.confidence == Alta
        && (YearFirst(s) ==> r.value[..2] == s[8..] && r.value[3..5] == s[5..7] && r.value[6..] == s[..4])
        && (DayFirst(s) ==> r.value[..2] == s[..2] && r.value[3..5] == s[3..5] && r.value[6..] == s[6..])
  {
    DateRecordedIff(s, fieldName, fileName, lineNumber);
    if YearFirst(s) {
      ReorderedYearFirst(s);
    } else if DayFirst(s) {
      ReorderedDayFirst(s);
    }
  }

  /** A corrected date is left alone by a second pass. */
  lemma DateIdempotent(s: string, fieldName: string, fileName: string, lineNumber: int)
    ensures var v := DateCorrection(s, fieldName, fileName, lineNumber).value;
      DateCorrection(v, fieldName, fileName, lineNumber) == Corrected(v, None)
  {
    var r := DateCorrection(s, fieldName, fileName, lineNumber);
    DateRecordedIff(s, fieldName, fileName, lineNumber);
    if r.record.Some? {
      DateCorrected(s, fieldName, fileName, lineNumber);
      var v := r.value;
      assert v[4] == v[3..5][1];
      assert !YearFirst(v) && !DayFirst(v);
      DateRecordedIff(v, fieldName, fileName, lineNumber);
    }
  }

  // ---------------------------------------------------------------------
  // Free text
  // ---------------------------------------------------------------------

  /** `'nombre' in field_name.lower() or 'apellido' in field_name.lower()`. */
  predicate NameField(fieldName: string)
  {
    Contains(Lower(fieldName), "nombre") || Contains(Lower(fieldName), "apellido")
  }

  /** `re.sub(r'\s+', ' ', text.strip())`, then `.upper()` for name fields. */
  function Normalized(text: string, upper: bool): string
  {
    var c := CollapseSpaces(Strip(text));
    if upper then Upper(c) else c
  }

  /** `correct_text_normalization`. */
  function TextCorrection(text: string, fieldName: string, fileName: string, lineNumber: int): Corrected
  {
    if text == [] then Corrected(text, None)
    else
      var corrected := Normalized(text, NameField(fieldName));
      if corrected != text then
        Corrected(corrected, Some(CorrectionRecord(
          fileName, lineNumber, fieldName, text, corrected, NormalizacionTexto, Alta,
          TextNormalized)))
      else Corrected(text, None)
  }

  /** A text already in normal form: trimmed, single blanks, and upper case in name fields. */
  predicate NormalText(t: string, upper: bool)
  {
    Trimmed(t) && Collapsed(t) && (upper ==> Upper(t) == t)
  }

  lemma NormalizedIsNormal(text: string, upper: bool)
    ensures NormalText(Normalized(text, upper), upper)
  {
    var s := Strip(text);
    StripTrimmed(text);
    CollapseIsCollapsed(s);
    CollapseKeepsEnds(s);
    var c := CollapseSpaces(s);
    UpperKeepsShape(c);
    UpperIdempotent(c);
  }

  lemma NormalFixed(t: string, upper: bool)
    requires NormalText(t, upper)
    ensures Normalized(t, upper) == t
  {
    TrimmedStrip(t);
    CollapsedFixed(t);
  }

  /**
   * The text comes back in normal form: trimmed, with no run of whitespace,
   * and upper-cased in name fields; it is recorded exactly when the input
   * was not already in that form.
   */
  lemma TextCorrected(text: string, fieldName: string, fileName: string, lineNumber: int)
    ensures var r := TextCorrection(text, fieldName, fileName, lineNumber);
      Accountable(text, r, fieldName, fileName, lineNumber)
      && NormalText(r.value, NameField(fieldName))
      && (r.record.None? <==> NormalText(text, NameField(fieldName)))
      && (r.record.Some? ==> r.record.value.originalValue == text && r.record.value.confidence == Alta)
  {
    var upper := NameField(fieldName);
    NormalizedIsNormal(text, upper);
    if NormalText(text, upper) {
      NormalFixed(text, upper);
    }
  }

  /** Normalized text is left alone by a second pass. */
  lemma TextIdempotent(text: string, fieldName: string, fileName: string, lineNumber: int)
    ensures var v := TextCorrection(text, fieldName, fileName, lineNumber).value;
      TextCorrection(v, fieldName, fileName, lineNumber) == Corrected(v, None)
  {
    TextCorrected(text, fieldName, fileName, lineNumber);
    var v := TextCorrection(text, fieldName, fileName, lineNumber).value;
    TextCorrected(v, fieldName, fileName, lineNumber);
  }

  /** Normalizing brings in no character other than blanks and upper-case letters. */
  lemma TextChars(text: string, fieldName: string, fileName: string, lineNumber: int, c: char)
    requires !IsSpace(c) && !IsUpper(c)
    ensures c in TextCorrection(text, fieldName, fileName, lineNumber).value ==> c in text
  {
    var v := TextCorrection(text, fieldName, fileName, lineNumber).value;
    if v != text && c in v {
      var n := CollapseSpaces(Strip(text));
      if NameField(fieldName) {
        UpperChars(n, c);
      }
      CollapseChars(Strip(text), c);
      StripChars(text, c);
    }
  }

  // ---------------------------------------------------------------------
  // Numbers
  // ---------------------------------------------------------------------

  /** `s.replace(c, '')`. */
  function Without(s: string, c: char): (r: string)
    ensures c !in r
    ensures forall x :: x in r ==> x in s
    ensures c !in s ==> r == s
  {
    if s == [] then []
    else if s[0] == c then Without(s[1..], c)
    else [s[0]] + Without(s[1..], c)
  }

  /** `s.replace(a, b)`. */
  function Replace(s: string, a: char, b: char): (r: string)
    ensures |r| == |s|
    ensures forall i :: 0 <= i < |s| ==> r[i] == if s[i] == a then b else s[i]
  {
    seq(|s|, i requires 0 <= i < |s| => if s[i] == a then b else s[i])
  }

  /** The characters `[\d.-]` (decimal) or `[\d-]` (integer). */
  predicate NumericChar(c: char, decimal: bool)
  {
    IsDigit(c) || c == '-' || (decimal && c == '.')
  }

  predicate AllNumeric(s: string, decimal: bool)
  {
    forall i :: 0 <= i < |s| ==> NumericChar(s[i], decimal)
  }

  /** `re.sub(r'[^\d.-]', '', s)` or `re.sub(r'[^\d-]', '', s)`. */
  function KeepNumeric(s: string, decimal: bool): (r: string)
    ensures AllNumeric(r, decimal)
    ensures AllNumeric(s, decimal) ==> r == s
  {
    if s == [] then []
    else if NumericChar(s[0], decimal) then [s[0]] + KeepNumeric(s[1..], decimal)
    else KeepNumeric(s[1..], decimal)
  }

  /** The cleaning steps of `correct_numeric_format`, before the parse check. */
  function NumericCleaned(value: string, decimal: bool): string
  {
    var c0 := Without(Strip(value), ' ');
    var c1 := if decimal && ',' in c0 then Replace(c0, ',', '.') else c0;
    KeepNumeric(c1, decimal)
  }

  /** `float(s)` or `int(s)` succeeds. */
  predicate Parses(s: string, decimal: bool)
  {
    if decimal then PyFloat(s).Some? else PyInt(s).Some?
  }

  /** `correct_numeric_format`. */
  function NumericCorrection(value: string, fieldName: string, fileName: string, lineNumber: int, decimal: bool): Corrected
  {
    if value == [] || Strip(value) == [] then Corrected(value, None)
    else
      var corrected := NumericCleaned(value, decimal);
      if !Parses(corrected, decimal) then Corrected(value, None)
      else if corrected != value then
        Corrected(corrected, Some(CorrectionRecord(
          fileName, lineNumber, fieldName, value, corrected, FormatoNumerico, Alta,
          NumberReformatted)))
      else Corrected(value, None)
  }

  lemma NumericSolid(s: string, decimal: bool)
    requires AllNumeric(s, decimal)
    ensures forall i :: 0 <= i < |s| ==> !IsSpace(s[i])
    ensures ' ' !in s && ',' !in s
  {
    assert forall i :: 0 <= i < |s| ==> NumericChar(s[i], decimal);
  }

  /** A text of numeric characters only is its own cleaned form. */
  lemma CleanedFixed(s: string, decimal: bool)
    requires AllNumeric(s, decimal)
    ensures NumericCleaned(s, decimal) == s
  {
    NumericSolid(s, decimal);
    StripOfSolid(s);
  }

  /**
   * A recorded number is made of numeric characters only and parses with
   * `float()` or `int()`; a number that does not parse once cleaned is left
   * as it was; and a parseable number of numeric characters only is never
   * touched.
   */
  lemma NumericCorrected(value: string, fieldName: string, fileName: string, lineNumber: int, decimal: bool)
    ensures var r := NumericCorrection(value, fieldName, fileName, lineNumber, decimal);
      Accountable(value, r, fieldName, fileName, lineNumber)
      && (r.record.Some? ==>
            AllNumeric(r.value, decimal) && Parses(r.value, decimal)
            && r.record.value.originalValue == value && r.record.value.confidence == Alta)
      && (!Parses(NumericCleaned(value, decimal), decimal) ==> r.record.None?)
      && (AllNumeric(value, decimal) ==> r.record.None?)
  {
    if AllNumeric(value, decimal) {
      CleanedFixed(value, decimal);
    }
  }

  /** A corrected number is left alone by a second pass. */
  lemma NumericIdempotent(value: string, fieldName: string, fileName: string, lineNumber: int, decimal: bool)
    ensures var v := NumericCorrection(value, fieldName, fileName, lineNumber, decimal).value;
      NumericCorrection(v, fieldName, fileName, lineNumber, decimal) == Corrected(v, None)
  {
    NumericCorrected(value, fieldName, fileName, lineNumber, decimal);
    var v := NumericCorrection(value, fieldName, fileName, lineNumber, decimal).value;
    NumericCorrected(v, fieldName, fileName, lineNumber, decimal);
  }

  // ---------------------------------------------------------------------
  // CUPS codes
  // ---------------------------------------------------------------------

  /** `re.sub(r'[^\d]', '', s)`. */
  function DigitsOf(s: string): (r: string)
    ensures AllDigits(r) && |r| <= |s|
    ensures r == [] <==> forall i :: 0 <= i < |s| ==> !IsDigit(s[i])
    ensures AllDigits(s) ==> r == s
  {
    if s == [] then []
    else if IsDigit(s[0]) then [s[0]] + DigitsOf(s[1..])
    else
      var r := DigitsOf(s[1..]);
      assert forall i :: 1 <= i < |s| ==> s[i] == s[1..][i - 1];
      r
  }

  /** `'0' * n`. */
  function Zeros(n: nat): (r: string)
    ensures |r| == n && forall i :: 0 <= i < n ==> r[i] == '0'
  {
    seq(n, i => '0')
  }

  /** `ljust(6, '0')` on a short code, then `[:6]` on a long one. */
  function SixDigits(d: string): (r: string)
    ensures 0 < |d| ==> |r| == 6
    ensures |d| <= 6 ==> r == d + Zeros(6 - |d|) || d == []
    ensures |d| > 6 ==> r == d[..6]
    ensures AllDigits(d) ==> AllDigits(r)
  {
    var p := if 0 < |d| < 6 then d + Zeros(6 - |d|) else d;
    if |p| > 6 then p[..6] else p
  }

  /** `correct_cups_format`. */
  function CupsCorrection(code: string, fieldName: string, fileName: string, lineNumber: int): Corrected
  {
    if code == [] || Strip(code) == [] then Corrected(code, None)
    else
      var original := Strip(code);
      var corrected := SixDigits(DigitsOf(original));
      if corrected != original && |corrected| == 6 then
        Corrected(corrected, Some(CorrectionRecord(
          fileName, lineNumber, fieldName, original, corrected, FormatoCups, Media,
          CupsAdjusted)))
      else Corrected(code, None)
  }

  predicate HasDigit(s: string)
  {
    exists i :: 0 <= i < |s| && IsDigit(s[i])
  }

  /**
   * A CUPS code is rewritten exactly when, once stripped, it holds a digit
   * but is not already six digits; the rewrite keeps its digits in order,
   * padded with zeros or cut to six, and passes the CUPS format rule.
   */
  lemma CupsCorrected(code: string, fieldName: string, fileName: string, lineNumber: int)
    ensures var r := CupsCorrection(code, fieldName, fileName, lineNumber);
      var o := Strip(code);
      Accountable(code, r, fieldName, fileName, lineNumber)
      && (r.record.Some? <==> HasDigit(o) && !Rules.Cups(o))
      && (r.record.Some? ==>
            Rules.Cups(r.value) && r.record.value.originalValue == o
            && r.record.value.confidence == Media
            && r.value == SixDigits(DigitsOf(o)))
  {
    var o := Strip(code);
    if HasDigit(o) {
      assert !Blank(code) by { StripEmptyIff(code); }
      StripEmptyIff(code);
    }
  }

  /** A corrected CUPS code is left alone by a second pass. */
  lemma CupsIdempotent(code: string, fieldName: string, fileName: string, lineNumber: int)
    ensures var v := CupsCorrection(code, fieldName, fileName, lineNumber).value;
      CupsCorrection(v, fieldName, fileName, lineNumber) == Corrected(v, None)
  {
    CupsCorrected(code, fieldName, fileName, lineNumber);
    var v := CupsCorrection(code, fieldName, fileName, lineNumber).value;
    if v != code {
      DigitsSolid(v);
      StripOfSolid(v);
      CupsCorrected(v, fieldName, fileName, lineNumber);
    }
  }

  // ---------------------------------------------------------------------
  // Document types
  // ---------------------------------------------------------------------

  /** The `corrections_map` of common spellings of the document types: the standard spelling, if `s` is a key. */
  function Synonym(s: string): Option<string>
  {
    if s == "CI" || s == "C.C" || s == "C.C." || s == "DN" then Some("CC")
    else if s == "T.I" || s == "T.I." then Some("TI")
    else if s == "R.C" || s == "R.C." then Some("RC")
    else if s == "C.E" || s == "C.E." then Some("CE")
    else None
  }

  /** `correct_document_type`. */
  function DocumentTypeCorrection(docType: string, fieldName: string, fileName: string, lineNumber: int): Corrected
  {
    if docType == [] then Corrected(docType, None)
    else
      var original := Upper(Strip(docType));
      var corrected := if Synonym(original).Some? then Synonym(original).value else original;
      if corrected != original then
        Corrected(corrected, Some(CorrectionRecord(
          fileName, lineNumber, fieldName, original, corrected, TipoDocumento, Alta,
          DocumentTypeStandardized(original, corrected))))
      else Corrected(docType, None)
  }

  /** No standard spelling is itself a key, and every standard spelling is a document type. */
  lemma SynonymsStandard(s: string)
    requires Synonym(s).Some?
    ensures var t := Synonym(s).value;
      t != s && Synonym(t).None? && t in DocumentTypes && t in ["CC", "TI", "RC", "CE"]
  {
    assert DocumentTypes[0] == "CC" && DocumentTypes[1] == "TI";
    assert DocumentTypes[2] == "RC" && DocumentTypes[3] == "CE";
  }

  /**
   * A document type is rewritten exactly when its stripped, upper-cased
   * form is one of the known synonyms, and the rewrite is a valid document
   * type; any other value, even one in lower case, comes back untouched.
   */
  lemma DocumentTypeCorrected(docType: string, fieldName: string, fileName: string, lineNumber: int)
    ensures var r := DocumentTypeCorrection(docType, fieldName, fileName, lineNumber);
      var o := Upper(Strip(docType));
      Accountable(docType, r, fieldName, fileName, lineNumber)
      && (r.record.Some? <==> Synonym(o).Some?)
      && (r.record.Some? ==>
            r.value in DocumentTypes && r.value == Synonym(o).value
            && r.record.value.originalValue == o && r.record.value.confidence == Alta)
  {
    var o := Upper(Strip(docType));
    if Synonym(o).Some? {
      SynonymsStandard(o);
    }
    if docType == [] {
      assert o == [];
    }
  }

  /** A two-letter upper-case spelling survives `strip().upper()`. */
  lemma TwoLettersFixed(t: string)
    requires |t| == 2 && IsUpper(t[0]) && IsUpper(t[1])
    ensures Upper(Strip(t)) == t
  {
    StripOfSolid(t);
  }

  /** A standard spelling survives `strip().upper()` and is no key of the map. */
  lemma StandardUntouched(v: string)
    requires v in ["CC", "TI", "RC", "CE"]
    ensures Upper(Strip(v)) == v && Synonym(v).None?
  {
    assert |v| == 2 && IsUpper(v[0]) && IsUpper(v[1]);
    assert v[1] != 'I' || v[0] != 'C';
    assert v[0] != 'D';
    TwoLettersFixed(v);
    assert Synonym(v).None? by {
      assert v != "CI" && v != "DN";
      assert |"C.C"| == 3 && |"C.C."| == 4 && |"T.I"| == 3 && |"T.I."| == 4;
      assert |"R.C"| == 3 && |"R.C."| == 4 && |"C.E"| == 3 && |"C.E."| == 4;
    }
  }

  /** A standardized document type is left alone by a second pass. */
  lemma DocumentTypeIdempotent(docType: string, fieldName: string, fileName: string, lineNumber: int)
    ensures var v := DocumentTypeCorrection(docType, fieldName, fileName, lineNumber).value;
      DocumentTypeCorrection(v, fieldName, fileName, lineNumber) == Corrected(v, None)
  {
    var r := DocumentTypeCorrection(docType, fieldName, fileName, lineNumber);
    if r.record.Some? {
      var o := Upper(Strip(docType));
      SynonymsStandard(o);
      StandardUntouched(r.value);
    }
  }

  // ---------------------------------------------------------------------
  // CIE-10 codes
  // ---------------------------------------------------------------------

  /** `suggest_cie10_correction`, given the suggestions `validate_with_suggestion` would offer. */
  function Cie10Suggestion(c: Catalog, code: string, fieldName: string, fileName: string, lineNumber: int): Corrected
  {
    if code == [] || Strip(code) == [] then Corrected(code, None)
    else
      var original := Upper(Strip(code));
      if c.IsValidCode(original) then Corrected(code, None)
      else
        var suggestions := Suggestions(c.codes, original, 5);
        if suggestions != [] then
          var suggested := suggestions[0];
          Corrected(suggested, Some(CorrectionRecord(
            fileName, lineNumber, fieldName, original, suggested, SugerenciaCie10, Media,
            Cie10Suggested(original, suggested))))
        else Corrected(code, None)
  }

  /**
   * With a well-formed catalog no CIE-10 suggestion is ever made: a code
   * the catalog rejects starts with no chapter letter, so no catalog code
   * shares its prefix.
   */
  lemma Cie10NeverSuggests(c: Catalog, code: string, fieldName: string, fileName: string, lineNumber: int)
    requires c.Valid()
    ensures Cie10Suggestion(c, code, fieldName, fileName, lineNumber) == Corrected(code, None)
  {
    if code != [] && Strip(code) != [] {
      var original := Upper(Strip(code));
      if !c.IsValidCode(original) {
        RejectedHasNoSuggestions(c, original, 5);
      }
    }
  }

  // ---------------------------------------------------------------------
  // The corrector and its records
  // ---------------------------------------------------------------------

  /** `[c for c in corrections if c.confidence == confidence]`. */
  function WithConfidence(cs: seq<CorrectionRecord>, confidence: Confidence): (r: seq<CorrectionRecord>)
    ensures |r| <= |cs|
  {
    if cs == [] then []
    else
      var rest := WithConfidence(cs[..|cs| - 1], confidence);
      if cs[|cs| - 1].confidence == confidence then rest + [cs[|cs| - 1]] else rest
  }

  /** The filter keeps exactly the records of the given confidence. */
  lemma {:induction false} WithConfidenceMembers(cs: seq<CorrectionRecord>, confidence: Confidence, x: CorrectionRecord)
    ensures x in WithConfidence(cs, confidence) <==> x in cs && x.confidence == confidence
  {
    if cs != [] {
      WithConfidenceMembers(cs[..|cs| - 1], confidence, x);
      assert cs == cs[..|cs| - 1] + [cs[|cs| - 1]];
    }
  }

  /** Every record has exactly one of the three confidence levels. */
  lemma {:induction false} ConfidencePartition(cs: seq<CorrectionRecord>)
    ensures |WithConfidence(cs, Alta)| + |WithConfidence(cs, Media)| + |WithConfidence(cs, Baja)| == |cs|
  {
    if cs != [] {
      ConfidencePartition(cs[..|cs| - 1]);
    }
  }

  /** The correction types of the records, in order. */
  function TypesOf(cs: seq<CorrectionRecord>): (r: seq<CorrectionType>)
    ensures |r| == |cs|
  {
    if cs == [] then [] else TypesOf(cs[..|cs| - 1]) + [cs[|cs| - 1].correctionType]
  }

  lemma TypesOfCount(cs: seq<CorrectionRecord>, t: CorrectionType)
    ensures multiset(TypesOf(cs))[t] == |WithType(cs, t)|
    decreases |cs|
  {
    if cs != [] {
      TypesOfCount(cs[..|cs| - 1], t);
    }
  }

  /** The records of one correction type. */
  function WithType(cs: seq<CorrectionRecord>, t: CorrectionType): (r: seq<CorrectionRecord>)
    ensures |r| <= |cs|
  {
    if cs == [] then []
    else
      var rest := WithType(cs[..|cs| - 1], t);
      if cs[|cs| - 1].correctionType == t then rest + [cs[|cs| - 1]] else rest
  }

  /** The dictionary `get_corrections_summary` returns. */
  datatype CorrectionSummary = CorrectionSummary(
    totalCorrecciones: nat,
    porTipo: seq<Entry<CorrectionType>>,
    alta: nat,
    media: nat,
    baja: nat,
    altaConfianza: nat,
    requierenRevision: nat)

  /** `AutoCorrector`: the records kept so far and the catalog it was built with. */
  class AutoCorrector {
    const autoMode: bool
    const catalog: Catalog
    var corrections: seq<CorrectionRecord>

    /** `__init__`: no records yet, and the module-wide catalog. */
    constructor (autoMode: bool, registry: Registry)
      requires registry.Valid()
      modifies registry
      ensures this.autoMode == autoMode && corrections == []
      ensures catalog.Valid() && catalog.Standard()
      ensures registry.Valid() && registry.instance == catalog
      ensures old(registry.instance) != null ==> catalog == old(registry.instance)
    {
      var c := registry.GetCatalog();
      this.autoMode := autoMode;
      catalog := c;
      corrections := [];
    }

    /** Keeps the record of a correction, if it made one. */
    method Keep(r: Corrected) returns (value: string, record: Option<CorrectionRecord>)
      modifies this
      ensures value == r.value && record == r.record
      ensures corrections == old(corrections) + Recorded(record)
    {
      value, record := r.value, r.record;
      corrections := corrections + Recorded(record);
    }

    /** `correct_date_format`. */
    method CorrectDateFormat(dateStr: string, fieldName: string, fileName: string, lineNumber: int)
      returns (value: string, record: Option<CorrectionRecord>)
      modifies this
      ensures Corrected(value, record) == DateCorrection(dateStr, fieldName, fileName, lineNumber)
      ensures corrections == old(corrections) + Recorded(record)
    {
      value, record := Keep(DateCorrection(dateStr, fieldName, fileName, lineNumber));
    }

    /** `correct_text_normalization`. */
    method CorrectTextNormalization(text: string, fieldName: string, fileName: string, lineNumber: int)
      returns (value: string, record: Option<CorrectionRecord>)
      modifies this
      ensures Corrected(value, record) == TextCorrection(text, fieldName, fileName, lineNumber)
      ensures corrections == old(corrections) + Recorded(record)
    {
      value, record := Keep(TextCorrection(text, fieldName, fileName, lineNumber));
    }

    /** `correct_numeric_format`. */
    method CorrectNumericFormat(v: string, fieldName: string, fileName: string, lineNumber: int, isDecimal: bool)
      returns (value: string, record: Option<CorrectionRecord>)
      modifies this
      ensures Corrected(value, record) == NumericCorrection(v, fieldName, fileName, lineNumber, isDecimal)
      ensures corrections == old(corrections) + Recorded(record)
    {
      value, record := Keep(NumericCorrection(v, fieldName, fileName, lineNumber, isDecimal));
    }

    /**
     * `suggest_cie10_correction`: the catalog's verdict on the stripped,
     * upper-cased code; a rejected code comes back with no suggestion, so
     * nothing is ever recorded.
     */
    method SuggestCie10Correction(code: string, fieldName: string, fileName: string, lineNumber: int)
      returns (value: string, record: Option<CorrectionRecord>)
      requires catalog.Valid()
      modifies this
      ensures Corrected(value, record) == Cie10Suggestion(catalog, code, fieldName, fileName, lineNumber)
      ensures corrections == old(corrections) + Recorded(record)
    {
      value, record := code, None;
      if code != [] && Strip(code) != [] {
        var original := Upper(Strip(code));
        var v := catalog.ValidateWithSuggestion(original);
        if !v.isValid {
          assert v.suggestions == [];
        }
      }
      Cie10NeverSuggests(catalog, code, fieldName, fileName, lineNumber);
    }

    /** `correct_cups_format`. */
    method CorrectCupsFormat(code: string, fieldName: string, fileName: string, lineNumber: int)
      returns (value: string, record: Option<CorrectionRecord>)
      modifies this
      ensures Corrected(value, record) == CupsCorrection(code, fieldName, fileName, lineNumber)
      ensures corrections == old(corrections) + Recorded(record)
    {
      value, record := Keep(CupsCorrection(code, fieldName, fileName, lineNumber));
    }

    /** `correct_document_type`. */
    method CorrectDocumentType(docType: string, fieldName: string, fileName: string, lineNumber: int)
      returns (value: string, record: Option<CorrectionRecord>)
      modifies this
      ensures Corrected(value, record) == DocumentTypeCorrection(docType, fieldName, fileName, lineNumber)
      ensures corrections == old(corrections) + Recorded(record)
    {
      value, record := Keep(DocumentTypeCorrection(docType, fieldName, fileName, lineNumber));
    }

    /** `get_corrections_by_confidence`. */
    function CorrectionsByConfidence(confidence: Confidence): seq<CorrectionRecord>
      reads this
    {
      WithConfidence(corrections, confidence)
    }

    /**
     * `get_corrections_summary`: the number of records, the records per
     * correction type (the types counted in the records' order), and the
     * records per confidence level; the high-confidence ones and the ones needing
     * review together are all of them.
     */
    method GetCorrectionsSummary() returns (s: CorrectionSummary)
      ensures s.totalCorrecciones == |corrections|
      ensures s.porTipo == BumpAll([], TypesOf(corrections))
      ensures DistinctKeys(s.porTipo)
      ensures forall t :: CountOf(s.porTipo, t) == |WithType(corrections, t)|
      ensures s.alta == |WithConfidence(corrections, Alta)|
      ensures s.media == |WithConfidence(corrections, Media)|
      ensures s.baja == |WithConfidence(corrections, Baja)|
      ensures s.altaConfianza == s.alta && s.requierenRevision == s.media + s.baja
      ensures s.altaConfianza + s.requierenRevision == s.totalCorrecciones
    {
      var byType, alta, media, baja := Tally(corrections);
      ConfidencePartition(corrections);
      forall t ensures CountOf(byType, t) == |WithType(corrections, t)| {
        BumpAllCounts([], TypesOf(corrections), t);
        TypesOfCount(corrections, t);
      }
      s := CorrectionSummary(|corrections|, byType, alta, media, baja, alta, media + baja);
    }
  }

  /** The loop of `get_corrections_summary`: per-type and per-confidence tallies. */
  method Tally(cs: seq<CorrectionRecord>) returns (byType: seq<Entry<CorrectionType>>, alta: nat, media: nat, baja: nat)
    ensures byType == BumpAll([], TypesOf(cs))
    ensures alta == |WithConfidence(cs, Alta)|
    ensures media == |WithConfidence(cs, Media)|
    ensures baja == |WithConfidence(cs, Baja)|
  {
    byType, alta, media, baja := [], 0, 0, 0;
    for i := 0 to |cs|
      invariant byType == BumpAll([], TypesOf(cs[..i]))
      invariant alta == |WithConfidence(cs[..i], Alta)|
      invariant media == |WithConfidence(cs[..i], Media)|
      invariant baja == |WithConfidence(cs[..i], Baja)|
    {
      var c := cs[i];
      assert cs[..i + 1][..i] == cs[..i];
      BumpAllSnoc([], TypesOf(cs[..i]), c.correctionType);
      byType := Bump(byType, c.correctionType);
      match c.confidence
      case Alta => alta := alta + 1;
      case Media => media := media + 1;
      case Baja => baja := baja + 1;
    }
    assert cs[..|cs|] == cs;
  }

  // ---------------------------------------------------------------------
  // Safe corrections over one line
  // ---------------------------------------------------------------------

  /** The correction `apply_safe_corrections` runs on field `idx` of a line of `fileType`. */
  function SafeCorrection(fileType: string, idx: nat, field: string, fileName: string, lineNumber: int): Corrected
  {
    if fileType == "US" then
      if idx == 0 then DocumentTypeCorrection(field, "tipo_documento", fileName, lineNumber)
      else if 4 <= idx <= 7 then TextCorrection(field, "nombre_" + Show(idx), fileName, lineNumber)
      else if idx == 8 then NumericCorrection(field, "edad", fileName, lineNumber, false)
      else Corrected(field, None)
    else if fileType == "AC" then
      if idx == 2 then DocumentTypeCorrection(field, "tipo_documento", fileName, lineNumber)
      else if idx == 4 then DateCorrection(field, "fecha_consulta", fileName, lineNumber)
      else if idx == 6 then CupsCorrection(field, "cod_consulta", fileName, lineNumber)
      else if 16 <= idx <= 18 then NumericCorrection(field, "valor_" + Show(idx), fileName, lineNumber, true)
      else Corrected(field, None)
    else Corrected(field, None)
  }

  /** The outcome of the corrections for each field of a line. */
  function Outcomes(fileType: string, fields: seq<string>, fileName: string, lineNumber: int): (os: seq<Corrected>)
    ensures |os| == |fields|
  {
    seq(|fields|, i requires 0 <= i < |fields| => SafeCorrection(fileType, i, fields[i], fileName, lineNumber))
  }

  function Values(os: seq<Corrected>): (vs: seq<string>)
    ensures |vs| == |os|
  {
    seq(|os|, i requires 0 <= i < |os| => os[i].value)
  }

  /** The records of the first `n` outcomes, in order. */
  function Records(os: seq<Corrected>, n: nat): seq<CorrectionRecord>
    requires n <= |os|
  {
    if n == 0 then [] else Records(os, n - 1) + Recorded(os[n - 1].record)
  }

  /** The corrected fields of a line. */
  function SafeValues(fileType: string, fields: seq<string>, fileName: string, lineNumber: int): (r: seq<string>)
    ensures |r| == |fields|
  {
    Values(Outcomes(fileType, fields, fileName, lineNumber))
  }

  /** The records made for the first `n` fields of a line, in field order. */
  function SafeRecords(fileType: string, fields: seq<string>, n: nat, fileName: string, lineNumber: int): seq<CorrectionRecord>
    requires n <= |fields|
  {
    Records(Outcomes(fileType, fields, fileName, lineNumber), n)
  }

  /** The fields of a line: `line.strip().split(',')`. */
  function LineFields(line: string): seq<string>
  {
    Split(Strip(line), ',')
  }

  /** The corrected line `apply_safe_corrections` returns. */
  function SafeLine(line: string, lineNumber: int, fileName: string, fileType: string): string
  {
    Join(SafeValues(fileType, LineFields(line), fileName, lineNumber), ',')
  }

  /** One step of the loop of `apply_safe_corrections`: the correction for field `idx`, kept by the corrector. */
  method CorrectField(fileType: string, idx: nat, field: string, fileName: string, lineNumber: int, autoCorrector: AutoCorrector)
    returns (value: string, record: Option<CorrectionRecord>)
    requires fileType == "US" || fileType == "AC"
    modifies autoCorrector
    ensures Corrected(value, record) == SafeCorrection(fileType, idx, field, fileName, lineNumber)
    ensures autoCorrector.corrections == old(autoCorrector.corrections) + Recorded(record)
  {
    value, record := field, None;
    if fileType == "US" {
      if idx == 0 {
        value, record := autoCorrector.CorrectDocumentType(field, "tipo_documento", fileName, lineNumber);
      } else if 4 <= idx <= 7 {
        value, record := autoCorrector.CorrectTextNormalization(field, "nombre_" + Show(idx), fileName, lineNumber);
      } else if idx == 8 {
        value, record := autoCorrector.CorrectNumericFormat(field, "edad", fileName, lineNumber, false);
      }
    } else {
      if idx == 2 {
        value, record := autoCorrector.CorrectDocumentType(field, "tipo_documento", fileName, lineNumber);
      } else if idx == 4 {
        value, record := autoCorrector.CorrectDateFormat(field, "fecha_consulta", fileName, lineNumber);
      } else if idx == 6 {
        value, record := autoCorrector.CorrectCupsFormat(field, "cod_consulta", fileName, lineNumber);
      } else if 16 <= idx <= 18 {
        value, record := autoCorrector.CorrectNumericFormat(field, "valor_" + Show(idx), fileName, lineNumber, true);
      }
    }
  }

  /**
   * `apply_safe_corrections`: runs, field by field, the document-type,
   * name, age, date, CUPS and amount corrections of US and AC lines, and
   * joins the results back with commas; the corrector keeps every record.
   */
  method ApplySafeCorrections(line: string, lineNumber: int, fileName: string, fileType: string, autoCorrector: AutoCorrector)
    returns (correctedLine: string, corrections: seq<CorrectionRecord>)
    modifies autoCorrector
    ensures correctedLine == SafeLine(line, lineNumber, fileName, fileType)
    ensures corrections == SafeRecords(fileType, LineFields(line), |LineFields(line)|, fileName, lineNumber)
    ensures autoCorrector.corrections == old(autoCorrector.corrections) + corrections
  {
    var fields := Split(Strip(line), ',');
    assert fields == LineFields(line);
    var correctedFields;
    correctedFields, corrections := SafeFields(fileType, fields, fileName, lineNumber, autoCorrector);
    correctedLine := Join(correctedFields, ',');
  }

  /** The fields of a line after `apply_safe_corrections`: corrected for US and AC lines, as they are otherwise. */
  method SafeFields(fileType: string, fields: seq<string>, fileName: string, lineNumber: int, autoCorrector: AutoCorrector)
    returns (correctedFields: seq<string>, corrections: seq<CorrectionRecord>)
    modifies autoCorrector
    ensures correctedFields == SafeValues(fileType, fields, fileName, lineNumber)
    ensures corrections == SafeRecords(fileType, fields, |fields|, fileName, lineNumber)
    ensures autoCorrector.corrections == old(autoCorrector.corrections) + corrections
  {
    if fileType == "US" || fileType == "AC" {
      correctedFields, corrections := CorrectFields(fileType, fields, fileName, lineNumber, autoCorrector);
    } else {
      correctedFields, corrections := fields, [];
      OtherTypesUntouched(fileType, fields, |fields|, fileName, lineNumber);
      assert autoCorrector.corrections == old(autoCorrector.corrections) + corrections;
    }
  }

  /** The loop of `apply_safe_corrections` over the fields of a US or AC line. */
  method CorrectFields(fileType: string, fields: seq<string>, fileName: string, lineNumber: int, autoCorrector: AutoCorrector)
    returns (correctedFields: seq<string>, corrections: seq<CorrectionRecord>)
    requires fileType == "US" || fileType == "AC"
    modifies autoCorrector
    ensures correctedFields == SafeValues(fileType, fields, fileName, lineNumber)
    ensures corrections == SafeRecords(fileType, fields, |fields|, fileName, lineNumber)
    ensures autoCorrector.corrections == old(autoCorrector.corrections) + corrections
  {
    ghost var os := Outcomes(fileType, fields, fileName, lineNumber);
    correctedFields, corrections := [], [];
    for idx := 0 to |fields|
      invariant correctedFields == Values(os)[..idx]
      invariant corrections == Records(os, idx)
      invariant autoCorrector.corrections == old(autoCorrector.corrections) + corrections
    {
      var correctedField, correction := CorrectField(fileType, idx, fields[idx], fileName, lineNumber, autoCorrector);
      assert os[idx] == Corrected(correctedField, correction);
      ValuesStep(os, idx);
      RecordsAssoc(old(autoCorrector.corrections), corrections, Recorded(correction));
      correctedFields := correctedFields + [correctedField];
      corrections := corrections + Recorded(correction);
    }
    assert Values(os)[..|fields|] == Values(os);
  }

  /** Appending in two steps appends the concatenation. */
  lemma RecordsAssoc(a: seq<CorrectionRecord>, b: seq<CorrectionRecord>, c: seq<CorrectionRecord>)
    ensures a + b + c == a + (b + c)
  {
  }

  lemma ValuesStep(os: seq<Corrected>, idx: nat)
    requires idx < |os|
    ensures Values(os)[..idx + 1] == Values(os)[..idx] + [os[idx].value]
  {
    assert Values(os)[..idx + 1] == Values(os)[..idx] + [Values(os)[idx]];
  }

  /** Outcomes that hand every field back unrecorded leave the fields as they were. */
  lemma {:induction false} Unrecorded(os: seq<Corrected>, fields: seq<string>, n: nat)
    requires |os| == |fields| && n <= |os|
    requires forall i :: 0 <= i < |os| ==> os[i] == Corrected(fields[i], None)
    ensures Records(os, n) == [] && Values(os) == fields
  {
    if n > 0 {
      Unrecorded(os, fields, n - 1);
    }
  }

  /** Lines of any file type other than US and AC are only stripped, and nothing is recorded. */
  lemma OtherTypesUntouched(fileType: string, fields: seq<string>, n: nat, fileName: string, lineNumber: int)
    requires fileType != "US" && fileType != "AC" && n <= |fields|
    ensures SafeRecords(fileType, fields, n, fileName, lineNumber) == []
    ensures SafeValues(fileType, fields, fileName, lineNumber) == fields
  {
    Unrecorded(Outcomes(fileType, fields, fileName, lineNumber), fields, n);
  }

  lemma OtherLinesStripped(line: string, lineNumber: int, fileName: string, fileType: string)
    requires fileType != "US" && fileType != "AC"
    ensures SafeLine(line, lineNumber, fileName, fileType) == Strip(line)
    ensures SafeRecords(fileType, LineFields(line), |LineFields(line)|, fileName, lineNumber) == []
  {
    OtherTypesUntouched(fileType, LineFields(line), |LineFields(line)|, fileName, lineNumber);
    JoinSplit(Strip(line), ',');
  }

  // ---------------------------------------------------------------------
  // Properties of the line pass
  // ---------------------------------------------------------------------

  /** A value a correction writes: no comma, and no whitespace at either end. */
  predicate CleanValue(v: string)
  {
    ',' !in v && Trimmed(v)
  }

  lemma SolidClean(v: string)
    requires forall i :: 0 <= i < |v| ==> !IsSpace(v[i]) && v[i] != ','
    ensures CleanValue(v)
  {
  }

  lemma DmyClean(v: string)
    requires DmyShape(v)
    ensures CleanValue(v)
  {
    forall i | 0 <= i < |v|
      ensures IsDigit(v[i]) || v[i] == '/'
    {
      if i < 2 {
        assert v[i] == v[..2][i];
      } else if 3 <= i < 5 {
        assert v[i] == v[3..5][i - 3];
      } else if i >= 6 {
        assert v[i] == v[6..][i - 6];
      }
    }
    SolidClean(v);
  }

  lemma StandardClean(v: string)
    requires v in ["CC", "TI", "RC", "CE"]
    ensures CleanValue(v)
  {
    assert |v| == 2 && IsUpper(v[0]) && IsUpper(v[1]);
    SolidClean(v);
  }

  /**
   * A correction either hands the field back as it was, with no record, or
   * records a clean value together with the file and line it came from.
   */
  predicate Traced(field: string, r: Corrected, fileName: string, lineNumber: int)
  {
    (r.record.None? ==> r.value == field)
    && (r.record.Some? ==>
          CleanValue(r.value) && r.record.value.correctedValue == r.value
          && r.record.value.fileName == fileName && r.record.value.lineNumber == lineNumber)
  }

  lemma DocumentTypeTraced(field: string, fieldName: string, fileName: string, lineNumber: int)
    ensures Traced(field, DocumentTypeCorrection(field, fieldName, fileName, lineNumber), fileName, lineNumber)
  {
    var r := DocumentTypeCorrection(field, fieldName, fileName, lineNumber);
    DocumentTypeCorrected(field, fieldName, fileName, lineNumber);
    if r.record.Some? {
      SynonymsStandard(Upper(Strip(field)));
      StandardClean(r.value);
    }
  }

  lemma TextTraced(field: string, fieldName: string, fileName: string, lineNumber: int)
    requires ',' !in field
    ensures Traced(field, TextCorrection(field, fieldName, fileName, lineNumber), fileName, lineNumber)
  {
    TextCorrected(field, fieldName, fileName, lineNumber);
    TextChars(field, fieldName, fileName, lineNumber, ',');
  }

  lemma NumericTraced(field: string, fieldName: string, fileName: string, lineNumber: int, decimal: bool)
    ensures Traced(field, NumericCorrection(field, fieldName, fileName, lineNumber, decimal), fileName, lineNumber)
  {
    var r := NumericCorrection(field, fieldName, fileName, lineNumber, decimal);
    NumericCorrected(field, fieldName, fileName, lineNumber, decimal);
    if r.record.Some? {
      NumericSolid(r.value, decimal);
      SolidClean(r.value);
    }
  }

  lemma DateTraced(field: string, fieldName: string, fileName: string, lineNumber: int)
    ensures Traced(field, DateCorrection(field, fieldName, fileName, lineNumber), fileName, lineNumber)
  {
    var r := DateCorrection(field, fieldName, fileName, lineNumber);
    DateRecordedIff(field, fieldName, fileName, lineNumber);
    DateCorrected(field, fieldName, fileName, lineNumber);
    if r.record.Some? {
      DmyClean(r.value);
    }
  }

  lemma CupsTraced(field: string, fieldName: string, fileName: string, lineNumber: int)
    ensures Traced(field, CupsCorrection(field, fieldName, fileName, lineNumber), fileName, lineNumber)
  {
    var r := CupsCorrection(field, fieldName, fileName, lineNumber);
    CupsCorrected(field, fieldName, fileName, lineNumber);
    if r.record.Some? {
      DigitsSolid(r.value);
      SolidClean(r.value);
    }
  }

  /** Every correction of the line pass is traced. */
  lemma SafeCorrectionTraced(fileType: string, idx: nat, field: string, fileName: string, lineNumber: int)
    requires ',' !in field
    ensures Traced(field, SafeCorrection(fileType, idx, field, fileName, lineNumber), fileName, lineNumber)
  {
    if (fileType == "US" && idx == 0) || (fileType == "AC" && idx == 2) {
      DocumentTypeTraced(field, "tipo_documento", fileName, lineNumber);
    } else if fileType == "US" && 4 <= idx <= 7 {
      TextTraced(field, "nombre_" + Show(idx), fileName, lineNumber);
    } else if fileType == "US" && idx == 8 {
      NumericTraced(field, "edad", fileName, lineNumber, false);
    } else if fileType == "AC" && idx == 4 {
      DateTraced(field, "fecha_consulta", fileName, lineNumber);
    } else if fileType == "AC" && idx == 6 {
      CupsTraced(field, "cod_consulta", fileName, lineNumber);
    } else if fileType == "AC" && 16 <= idx <= 18 {
      NumericTraced(field, "valor_" + Show(idx), fileName, lineNumber, true);
    }
  }

  /** A field the line pass has corrected is left alone by a second pass. */
  lemma SafeCorrectionIdempotent(fileType: string, idx: nat, field: string, fileName: string, lineNumber: int)
    ensures var v := SafeCorrection(fileType, idx, field, fileName, lineNumber).value;
      SafeCorrection(fileType, idx, v, fileName, lineNumber) == Corrected(v, None)
  {
    if (fileType == "US" && idx == 0) || (fileType == "AC" && idx == 2) {
      DocumentTypeIdempotent(field, "tipo_documento", fileName, lineNumber);
    } else if fileType == "US" && 4 <= idx <= 7 {
      TextIdempotent(field, "nombre_" + Show(idx), fileName, lineNumber);
    } else if fileType == "US" && idx == 8 {
      NumericIdempotent(field, "edad", fileName, lineNumber, false);
    } else if fileType == "AC" && idx == 4 {
      DateIdempotent(field, "fecha_consulta", fileName, lineNumber);
    } else if fileType == "AC" && idx == 6 {
      CupsIdempotent(field, "cod_consulta", fileName, lineNumber);
    } else if fileType == "AC" && 16 <= idx <= 18 {
      NumericIdempotent(field, "valor_" + Show(idx), fileName, lineNumber, true);
    }
  }

  /**
   * The records of a US line all have high confidence; on an AC line the
   * one correction recorded with medium confidence is the CUPS code in
   * field 6, and nothing is ever recorded with low confidence.
   */
  lemma SafeCorrectionConfidence(fileType: string, idx: nat, field: string, fileName: string, lineNumber: int)
    ensures var r := SafeCorrection(fileType, idx, field, fileName, lineNumber);
      r.record.Some? ==>
        (r.record.value.confidence == Media <==> fileType == "AC" && idx == 6)
        && r.record.value.confidence != Baja
  {
    if (fileType == "US" && idx == 0) || (fileType == "AC" && idx == 2) {
      DocumentTypeCorrected(field, "tipo_documento", fileName, lineNumber);
    } else if fileType == "US" && 4 <= idx <= 7 {
      TextCorrected(field, "nombre_" + Show(idx), fileName, lineNumber);
    } else if fileType == "US" && idx == 8 {
      NumericCorrected(field, "edad", fileName, lineNumber, false);
    } else if fileType == "AC" && idx == 4 {
      DateCorrected(field, "fecha_consulta", fileName, lineNumber);
    } else if fileType == "AC" && idx == 6 {
      CupsCorrected(field, "cod_consulta", fileName, lineNumber);
    } else if fileType == "AC" && 16 <= idx <= 18 {
      NumericCorrected(field, "valor_" + Show(idx), fileName, lineNumber, true);
    }
  }

  /** The corrected fields hold no comma when the original ones hold none. */
  lemma SafeValuesCommaFree(fileType: string, fields: seq<string>, fileName: string, lineNumber: int)
    requires forall i :: 0 <= i < |fields| ==> ',' !in fields[i]
    ensures var vs := SafeValues(fileType, fields, fileName, lineNumber);
      forall i :: 0 <= i < |vs| ==> ',' !in vs[i]
  {
    var os := Outcomes(fileType, fields, fileName, lineNumber);
    forall i | 0 <= i < |os|
      ensures ',' !in Values(os)[i]
    {
      SafeCorrectionTraced(fileType, i, fields[i], fileName, lineNumber);
      assert Values(os)[i] == os[i].value;
    }
  }

  /**
   * The corrected line keeps the field structure of the original: split at
   * its commas it gives back exactly the corrected fields, one per field
   * of the stripped input line.
   */
  lemma SafeLineFields(line: string, lineNumber: int, fileName: string, fileType: string)
    ensures Split(SafeLine(line, lineNumber, fileName, fileType), ',')
      == SafeValues(fileType, LineFields(line), fileName, lineNumber)
    ensures |Split(SafeLine(line, lineNumber, fileName, fileType), ',')| == |LineFields(line)|
  {
    var fields := LineFields(line);
    SplitPiecesFree(Strip(line), ',');
    SafeValuesCommaFree(fileType, fields, fileName, lineNumber);
    SplitJoin(SafeValues(fileType, fields, fileName, lineNumber), ',');
  }

  /** The outcome of every comma-free field of a line is traced to that field. */
  lemma OutcomesTraced(fileType: string, fields: seq<string>, fileName: string, lineNumber: int)
    requires forall i :: 0 <= i < |fields| ==> ',' !in fields[i]
    ensures forall i :: 0 <= i < |fields| ==>
              Traced(fields[i], Outcomes(fileType, fields, fileName, lineNumber)[i], fileName, lineNumber)
  {
    forall i | 0 <= i < |fields|
      ensures Traced(fields[i], Outcomes(fileType, fields, fileName, lineNumber)[i], fileName, lineNumber)
    {
      SafeCorrectionTraced(fileType, i, fields[i], fileName, lineNumber);
    }
  }

  lemma TracedEnds(field: string, r: Corrected, fileName: string, lineNumber: int)
    requires Traced(field, r, fileName, lineNumber)
    ensures (field == [] || !IsSpace(field[0])) ==> (r.value == [] || !IsSpace(r.value[0]))
    ensures (field == [] || !IsSpace(field[|field| - 1])) ==> (r.value == [] || !IsSpace(r.value[|r.value| - 1]))
  {
  }

  /** Traced outcomes of a trimmed line's fields join back into a trimmed line. */
  lemma TracedJoinTrimmed(os: seq<Corrected>, fields: seq<string>, fileName: string, lineNumber: int)
    requires |os| == |fields| >= 1 && Trimmed(Join(fields, ','))
    requires forall i :: 0 <= i < |fields| ==> Traced(fields[i], os[i], fileName, lineNumber)
    ensures Trimmed(Join(Values(os), ','))
  {
    var vs := Values(os);
    var n := |fields|;
    JoinHead(fields, ',');
    JoinTail(fields, ',');
    TracedEnds(fields[0], os[0], fileName, lineNumber);
    TracedEnds(fields[n - 1], os[n - 1], fileName, lineNumber);
    assert vs[0] == os[0].value && vs[n - 1] == os[n - 1].value;
    JoinHead(vs, ',');
    JoinTail(vs, ',');
  }

  /** The corrected fields of a trimmed line whose fields hold no comma join back into a trimmed line. */
  lemma SafeValuesTrimmed(fileType: string, fields: seq<string>, fileName: string, lineNumber: int)
    requires |fields| >= 1 && Trimmed(Join(fields, ','))
    requires forall i :: 0 <= i < |fields| ==> ',' !in fields[i]
    ensures Trimmed(Join(SafeValues(fileType, fields, fileName, lineNumber), ','))
  {
    OutcomesTraced(fileType, fields, fileName, lineNumber);
    TracedJoinTrimmed(Outcomes(fileType, fields, fileName, lineNumber), fields, fileName, lineNumber);
  }

  /** The corrected line has no whitespace at either end. */
  lemma SafeLineTrimmed(line: string, lineNumber: int, fileName: string, fileType: string)
    ensures Trimmed(SafeLine(line, lineNumber, fileName, fileType))
  {
    var t := Strip(line);
    var fields := LineFields(line);
    var n := |fields|;
    assert fields == Split(t, ',') && n >= 1;
    StripTrimmed(line);
    JoinSplit(t, ',');
    SplitPiecesFree(t, ',');
    SafeValuesTrimmed(fileType, fields, fileName, lineNumber);
  }

  /**
   * Running the safe corrections over a line they have already corrected
   * changes nothing and records nothing.
   */
  lemma SafeLineIdempotent(line: string, lineNumber: int, fileName: string, fileType: string)
    ensures var l := SafeLine(line, lineNumber, fileName, fileType);
      SafeLine(l, lineNumber, fileName, fileType) == l
      && SafeRecords(fileType, LineFields(l), |LineFields(l)|, fileName, lineNumber) == []
  {
    var l := SafeLine(line, lineNumber, fileName, fileType);
    var vs := SafeValues(fileType, LineFields(line), fileName, lineNumber);
    SafeLineTrimmed(line, lineNumber, fileName, fileType);
    TrimmedStrip(l);
    SafeLineFields(line, lineNumber, fileName, fileType);
    assert LineFields(l) == vs;
    var os := Outcomes(fileType, vs, fileName, lineNumber);
    forall i | 0 <= i < |vs|
      ensures os[i] == Corrected(vs[i], None)
    {
      SafeCorrectionIdempotent(fileType, i, LineFields(line)[i], fileName, lineNumber);
    }
    Unrecorded(os, vs, |vs|);
  }
}
