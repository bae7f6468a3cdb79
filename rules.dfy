/**
 * The per-record rule sets of the RIPS files (ErroresJSON/src/rules.py) and
 * the error record every checker of the engine produces.  Each
 * `<Kind>Validator.validate` is a fixed sequence of field checks; a check
 * that fails appends one error (`Report`), so a rule set's result is the
 * concatenation of its checks' reports, in source order.
 */
module Rules {
  import opened Wrappers
  import opened Text
  import opened Dates
  import opened Patterns
  import opened Validators
  import opened Models

  /** What an error says; the message texts are modelled by their kind and the values they quote. */
  datatype Description =
    | FieldMessage(msg: Msg)
    | FieldCount(lineNumber: int, expected: nat, found: nat)
    | UnknownFileName(name: string)
    | FileMissing(path: string)
    | FileUnreadable(reason: string)
    | ProcessingFailure(reason: string)
    | DuplicateAttention(tipoDoc: string, numDoc: string, tipo: string, fecha: string, codigo: string,
                         previousFile: string, previousLine: int)
    | Cie10Required(field: string)
    | Cie10NotInCatalog(code: string, catalogMessage: string, shown: seq<string>)
    | CupsIncoherent(finalidad: string, cups: string)
    | DiagnosisIncoherent(finalidad: string, chapter: char, diagnosis: string)
    | MaleWithFemaleDiagnosis(diagnosis: string)
    | FemaleWithMaleDiagnosis(diagnosis: string)
    | PerinatalAge(age: string, unitLabel: string, diagnosis: string)
    | SenileAge(age: string, unitLabel: string, diagnosis: string)
    | InvoiceNotFound(invoice: string)
    | UserNotFound(tipoDoc: string, numDoc: string)
    | DuplicateInvoice(invoice: string, count: int)
    | DuplicateUser(tipoDoc: string, numDoc: string, count: int)

  /** `ValidationError`: where an error was found and what it says. */
  datatype ValidationError = ValidationError(
    fileName: string,
    lineNumber: int,
    fieldName: string,
    description: Description,
    regulation: string,
    suggestedFix: string
  )

  /** Every error of `es` is located at `file`, line `line`. */
  predicate Located(es: seq<ValidationError>, file: string, line: int)
  {
    forall e :: e in es ==> e.fileName == file && e.lineNumber == line
  }

  /** Some error of `es` is about field `f`. */
  predicate Reports(es: seq<ValidationError>, f: string)
  {
    exists e :: e in es && e.fieldName == f
  }

  /** The fields the errors of `es` are about, in order. */
  function FieldNames(es: seq<ValidationError>): (fs: seq<string>)
    ensures |fs| == |es|
  {
    if es == [] then [] else [es[0].fieldName] + FieldNames(es[1..])
  }

  /** Field `f` once when its check `fails`, nothing otherwise. */
  function Flag(fails: bool, f: string): seq<string>
  {
    if fails then [f] else []
  }

  /** The fields of two error lists appended, and of three, four or five. */
  lemma {:induction false} FieldNamesAppend(a: seq<ValidationError>, b: seq<ValidationError>)
    ensures FieldNames(a + b) == FieldNames(a) + FieldNames(b)
  {
    if a == [] {
      assert a + b == b;
    } else {
      assert (a + b)[0] == a[0];
      assert (a + b)[1..] == a[1..] + b;
      FieldNamesAppend(a[1..], b);
    }
  }

  lemma FieldNamesCat3(a: seq<ValidationError>, b: seq<ValidationError>, c: seq<ValidationError>)
    ensures FieldNames(a + b + c) == FieldNames(a) + FieldNames(b) + FieldNames(c)
  {
    FieldNamesAppend(a, b);
    FieldNamesAppend(a + b, c);
  }

  lemma FieldNamesCat4(a: seq<ValidationError>, b: seq<ValidationError>, c: seq<ValidationError>, d: seq<ValidationError>)
    ensures FieldNames(a + b + c + d) == FieldNames(a) + FieldNames(b) + FieldNames(c) + FieldNames(d)
  {
    FieldNamesCat3(a, b, c);
    FieldNamesAppend(a + b + c, d);
  }

  lemma FieldNamesCat5(a: seq<ValidationError>, b: seq<ValidationError>, c: seq<ValidationError>, d: seq<ValidationError>,
                       e: seq<ValidationError>)
    ensures FieldNames(a + b + c + d + e) == FieldNames(a) + FieldNames(b) + FieldNames(c) + FieldNames(d) + FieldNames(e)
  {
    FieldNamesCat4(a, b, c, d);
    FieldNamesAppend(a + b + c + d, e);
  }

  /** One field check: the field it reports on, the validator's verdict, the regulation cited and the fix offered. */
  datatype Check = Check(field: string, verdict: Verdict, regulation: string, fix: string)

  /** The error a failed check appends. */
  function ErrorOf(c: Check, file: string, line: int): ValidationError
    requires c.verdict.Some?
  {
    ValidationError(file, line, c.field, FieldMessage(c.verdict.value), c.regulation, c.fix)
  }

  /** `if not valid: errors.append(...)`: the one error of a failed check, nothing for a passed one. */
  function Report(c: Check, file: string, line: int): (es: seq<ValidationError>)
    ensures |es| <= 1
    ensures |es| == 0 <==> c.verdict.None?
    ensures forall e :: e in es ==> e.fileName == file && e.lineNumber == line && e.fieldName == c.field
    ensures c.verdict.Some? ==> es[0].description == FieldMessage(c.verdict.value)
    ensures FieldNames(es) == Flag(c.verdict.Some?, c.field)
  {
    if c.verdict.Some? then [ErrorOf(c, file, line)] else []
  }

  /** `validate_format`'s triple reduced to `(ok, message)`, as the rule sets use it. */
  function FormatVerdict(d: DateResult): (v: Verdict)
    ensures v.None? <==> d.Accepted?
  {
    if d.Rejected? then Some(d.msg) else None
  }

  // ---------------------------------------------------------------------
  // What each rule set accepts, spelled out field by field
  // ---------------------------------------------------------------------

  /** A required text of at most `n` characters. */
  predicate Fits(s: string, n: int) { !Empty(s) && |s| <= n }

  /** A required integer (Python `int`) within the inclusive bounds. */
  predicate IntegerIn(s: string, lo: Option<int>, hi: Option<int>)
  {
    !Empty(s) && PyInt(s).Some? && IntInBounds(PyInt(s).value, lo, hi)
  }

  /** A required decimal (Python `float`) that is not below zero. */
  predicate NonNegative(s: string)
  {
    !Empty(s) && PyFloat(s).Some? && FloatInBounds(PyFloat(s).value, Some(0.0), None)
  }

  /** Six digits. */
  predicate Cups(s: string) { |s| == 6 && AllDigits(s) }

  /** An optional ICD-10 field: empty, or in the ICD-10 format. */
  predicate OptionalCie10(s: string) { Empty(s) || Cie10Chars(s) }

  /** `if not is_empty(x): validate_cie10_format(x, field, required=False)`: an optional diagnosis is checked only when given. */
  function OptionalCie10Verdict(s: string, field: string): (v: Verdict)
    ensures v.None? <==> OptionalCie10(s)
    ensures v.Some? ==> v == ValidateCie10Format(s, field, false)
    ensures !OptionalCie10(s) ==> v == Some(BadCie10(field, s))
  {
    if Empty(s) then None else ValidateCie10Format(s, field, false)
  }

  /** Two good dates, the first not after the second. */
  predicate Ordered(a: string, b: string, today: Date)
  {
    GoodDmy(a, today) && GoodDmy(b, today) && !Before(DmyFields(b), DmyFields(a))
  }

  // ---------------------------------------------------------------------
  // One check each: the validator's verdict reported under a field
  // ---------------------------------------------------------------------

  /** `validate_length(x, field, n, required=True)`: a blank or over-long text is reported. */
  function LengthReport(x: string, n: int, field: string, reg: string, fix: string, file: string, line: int): (es: seq<ValidationError>)
    ensures |es| <= 1 && Located(es, file, line)
    ensures |es| == 0 <==> Fits(x, n)
    ensures FieldNames(es) == Flag(!Fits(x, n), field)
    ensures Empty(x) ==> es == [ValidationError(file, line, field, FieldMessage(Required(field)), reg, fix)]
    ensures !Empty(x) && |x| > n ==> es == [ValidationError(file, line, field, FieldMessage(TooLong(field, n, |x|)), reg, fix)]
  {
    Report(Check(field, ValidateLength(x, field, n, true), reg, fix), file, line)
  }

  /** `validate_integer(x, field, required=True, ...)`: a blank, non-integer or out-of-bounds value is reported. */
  function IntegerReport(x: string, lo: Option<int>, hi: Option<int>, field: string, reg: string, fix: string, file: string, line: int): (es: seq<ValidationError>)
    ensures |es| <= 1 && Located(es, file, line)
    ensures |es| == 0 <==> IntegerIn(x, lo, hi)
    ensures FieldNames(es) == Flag(!IntegerIn(x, lo, hi), field)
    ensures Empty(x) ==> es == [ValidationError(file, line, field, FieldMessage(NumericRequired(field)), reg, fix)]
    ensures !Empty(x) && PyInt(x).None? ==> es == [ValidationError(file, line, field, FieldMessage(NotInteger(field, x)), reg, fix)]
  {
    Report(Check(field, ValidateInteger(x, field, true, lo, hi), reg, fix), file, line)
  }

  /** `validate_decimal(x, field, required=True, min_value=0)`: a blank, non-numeric or negative value is reported. */
  function DecimalReport(x: string, field: string, reg: string, fix: string, file: string, line: int): (es: seq<ValidationError>)
    ensures |es| <= 1 && Located(es, file, line)
    ensures |es| == 0 <==> NonNegative(x)
    ensures FieldNames(es) == Flag(!NonNegative(x), field)
    ensures Empty(x) ==> es == [ValidationError(file, line, field, FieldMessage(NumericRequired(field)), reg, fix)]
    ensures !Empty(x) && PyFloat(x).None? ==> es == [ValidationError(file, line, field, FieldMessage(NotDecimal(field, x)), reg, fix)]
  {
    Report(Check(field, ValidateDecimal(x, field, true, Some(0.0), None), reg, fix), file, line)
  }

  /** `validate_document_type`: a blank or unknown document type is reported. */
  function DocumentTypeReport(x: string, field: string, reg: string, fix: string, file: string, line: int): (es: seq<ValidationError>)
    ensures |es| <= 1 && Located(es, file, line)
    ensures |es| == 0 <==> x in DocumentTypes
    ensures FieldNames(es) == Flag(x !in DocumentTypes, field)
    ensures Empty(x) ==> es == [ValidationError(file, line, field, FieldMessage(Required(field)), reg, fix)]
    ensures !Empty(x) && x !in DocumentTypes ==> es == [ValidationError(file, line, field, FieldMessage(BadDocumentType(field, x)), reg, fix)]
  {
    Report(Check(field, ValidateDocumentType(x, field), reg, fix), file, line)
  }

  /** `validate_format(x, field, required=True)`: a blank or bad date is reported with the validator's message. */
  function DateReport(x: string, today: Date, field: string, reg: string, fix: string, file: string, line: int): (es: seq<ValidationError>)
    ensures |es| <= 1 && Located(es, file, line)
    ensures |es| == 0 <==> GoodDmy(x, today)
    ensures FieldNames(es) == Flag(!GoodDmy(x, today), field)
    ensures Empty(x) ==> es == [ValidationError(file, line, field, FieldMessage(Required(field)), reg, fix)]
    ensures !GoodDmy(x, today) ==> es == [ValidationError(file, line, field, FieldMessage(ValidateFormat(x, field, true, today).msg), reg, fix)]
  {
    Report(Check(field, FormatVerdict(ValidateFormat(x, field, true, today)), reg, fix), file, line)
  }

  /** `validate_date_range(x, y, fx, fy)` reported under `field`: a bad start is reported with its date message. */
  function RangeReport(x: string, y: string, fx: string, fy: string, today: Date, field: string, reg: string, fix: string,
                       file: string, line: int): (es: seq<ValidationError>)
    ensures |es| <= 1 && Located(es, file, line)
    ensures |es| == 0 <==> Ordered(x, y, today)
    ensures FieldNames(es) == Flag(!Ordered(x, y, today), field)
    ensures !GoodDmy(x, today) ==> es == [ValidationError(file, line, field, FieldMessage(ValidateFormat(x, fx, true, today).msg), reg, fix)]
    ensures GoodDmy(x, today) && !GoodDmy(y, today) ==> es == [ValidationError(file, line, field, FieldMessage(ValidateFormat(y, fy, true, today).msg), reg, fix)]
    ensures GoodDmy(x, today) && GoodDmy(y, today) && Before(DmyFields(y), DmyFields(x)) ==> es == [ValidationError(file, line, field, FieldMessage(RangeOrder(fx, x, fy, y)), reg, fix)]
  {
    Report(Check(field, ValidateDateRange(x, y, fx, fy, today), reg, fix), file, line)
  }

  /** `validate_cups_format(x, field, required=True)`: anything but six digits is reported. */
  function CupsReport(x: string, field: string, reg: string, fix: string, file: string, line: int): (es: seq<ValidationError>)
    ensures |es| <= 1 && Located(es, file, line)
    ensures |es| == 0 <==> Cups(x)
    ensures FieldNames(es) == Flag(!Cups(x), field)
    ensures Empty(x) ==> es == [ValidationError(file, line, field, FieldMessage(Required(field)), reg, fix)]
    ensures !Empty(x) && !Cups(x) ==> es == [ValidationError(file, line, field, FieldMessage(BadCups(field, x)), reg, fix)]
  {
    Report(Check(field, ValidateCupsFormat(x, field, true), reg, fix), file, line)
  }

  /** `validate_cie10_format(x, field, required=True)`: a blank or malformed diagnosis is reported. */
  function Cie10Report(x: string, field: string, reg: string, fix: string, file: string, line: int): (es: seq<ValidationError>)
    ensures |es| <= 1 && Located(es, file, line)
    ensures |es| == 0 <==> Cie10Chars(x)
    ensures FieldNames(es) == Flag(!Cie10Chars(x), field)
    ensures Empty(x) ==> es == [ValidationError(file, line, field, FieldMessage(DiagnosisRequired(field)), reg, fix)]
    ensures !Empty(x) && !Cie10Chars(x) ==> es == [ValidationError(file, line, field, FieldMessage(BadCie10(field, x)), reg, fix)]
  {
    Report(Check(field, ValidateCie10Format(x, field, true), reg, fix), file, line)
  }

  /** An optional diagnosis is checked only when given, and reported when malformed. */
  function OptionalCie10Report(x: string, field: string, reg: string, fix: string, file: string, line: int): (es: seq<ValidationError>)
    ensures |es| <= 1 && Located(es, file, line)
    ensures |es| == 0 <==> OptionalCie10(x)
    ensures FieldNames(es) == Flag(!OptionalCie10(x), field)
    ensures !OptionalCie10(x) ==> es == [ValidationError(file, line, field, FieldMessage(BadCie10(field, x)), reg, fix)]
  {
    Report(Check(field, OptionalCie10Verdict(x, field), reg, fix), file, line)
  }

  /** `validate_sex`: anything but `M` or `F` is reported. */
  function SexReport(x: string, field: string, reg: string, fix: string, file: string, line: int): (es: seq<ValidationError>)
    ensures |es| <= 1 && Located(es, file, line)
    ensures |es| == 0 <==> x == "M" || x == "F"
    ensures FieldNames(es) == Flag(!(x == "M" || x == "F"), field)
    ensures Empty(x) ==> es == [ValidationError(file, line, field, FieldMessage(Required(field)), reg, fix)]
    ensures !Empty(x) && !(x == "M" || x == "F") ==> es == [ValidationError(file, line, field, FieldMessage(BadSex(field, x)), reg, fix)]
  {
    Report(Check(field, ValidateSex(x, field), reg, fix), file, line)
  }

  /** `validate_age_unit`: anything but `1`, `2` or `3` is reported. */
  function AgeUnitReport(x: string, field: string, reg: string, fix: string, file: string, line: int): (es: seq<ValidationError>)
    ensures |es| <= 1 && Located(es, file, line)
    ensures |es| == 0 <==> x == "1" || x == "2" || x == "3"
    ensures FieldNames(es) == Flag(!(x == "1" || x == "2" || x == "3"), field)
    ensures Empty(x) ==> es == [ValidationError(file, line, field, FieldMessage(Required(field)), reg, fix)]
    ensures !Empty(x) && !(x == "1" || x == "2" || x == "3") ==> es == [ValidationError(file, line, field, FieldMessage(BadAgeUnit(field, x)), reg, fix)]
  {
    Report(Check(field, ValidateAgeUnit(x, field), reg, fix), file, line)
  }

  /** `validate_zone`: anything but `U` or `R` is reported. */
  function ZoneReport(x: string, field: string, reg: string, fix: string, file: string, line: int): (es: seq<ValidationError>)
    ensures |es| <= 1 && Located(es, file, line)
    ensures |es| == 0 <==> x == "U" || x == "R"
    ensures FieldNames(es) == Flag(!(x == "U" || x == "R"), field)
    ensures Empty(x) ==> es == [ValidationError(file, line, field, FieldMessage(Required(field)), reg, fix)]
    ensures !Empty(x) && !(x == "U" || x == "R") ==> es == [ValidationError(file, line, field, FieldMessage(BadZone(field, x)), reg, fix)]
  {
    Report(Check(field, ValidateZone(x, field), reg, fix), file, line)
  }

  /** `validate_user_type`: anything but `1` to `4` is reported. */
  function UserTypeReport(x: string, field: string, reg: string, fix: string, file: string, line: int): (es: seq<ValidationError>)
    ensures |es| <= 1 && Located(es, file, line)
    ensures |es| == 0 <==> x == "1" || x == "2" || x == "3" || x == "4"
    ensures FieldNames(es) == Flag(!(x == "1" || x == "2" || x == "3" || x == "4"), field)
    ensures Empty(x) ==> es == [ValidationError(file, line, field, FieldMessage(Required(field)), reg, fix)]
    ensures !Empty(x) && !(x == "1" || x == "2" || x == "3" || x == "4") ==> es == [ValidationError(file, line, field, FieldMessage(BadUserType(field, x)), reg, fix)]
  {
    Report(Check(field, ValidateUserType(x, field), reg, fix), file, line)
  }

  // ---------------------------------------------------------------------
  // The rule sets
  // ---------------------------------------------------------------------

  /** What `AFValidator.validate` demands of the provider: code, name and identification. */
  predicate AFProviderValid(r: AFRecord)
  {
    Fits(r.codPrestador, 12) && IntegerIn(r.codPrestador, None, None) && Fits(r.nombrePrestador, 60)
    && r.tipoDocumentoPrestador in DocumentTypes && Fits(r.numDocumentoPrestador, 20)
  }

  /** The fields `AFProviderErrors` reports on: one per failed check, in source order. */
  function AFProviderFields(r: AFRecord): seq<string>
  {
    Flag(!Fits(r.codPrestador, 12), "cod_prestador") +
    Flag(!IntegerIn(r.codPrestador, None, None), "cod_prestador") +
    Flag(!Fits(r.nombrePrestador, 60), "nombre_prestador") +
    Flag(r.tipoDocumentoPrestador !in DocumentTypes, "tipo_documento_prestador") +
    Flag(!Fits(r.numDocumentoPrestador, 20), "num_documento_prestador")
  }

  /** The checks of `AFValidator.validate` on the provider: code, name and identification, in source order. */
  function AFProviderErrors(r: AFRecord, lineNumber: int, fileName: string): (es: seq<ValidationError>)
    ensures |es| <= 5
    ensures Located(es, fileName, lineNumber)
    ensures |es| == 0 <==> AFProviderValid(r)
    ensures FieldNames(es) == AFProviderFields(r)
  {
    var e0 := LengthReport(r.codPrestador, 12, "cod_prestador", "Res. 2275/2023", "Verificar código habilitación del prestador", fileName, lineNumber);
    var e1 := IntegerReport(r.codPrestador, None, None, "cod_prestador", "Res. 2275/2023", "El código debe ser numérico", fileName, lineNumber);
    var e2 := LengthReport(r.nombrePrestador, 60, "nombre_prestador", "Res. 2275/2023", "Reducir longitud del nombre", fileName, lineNumber);
    var e3 := DocumentTypeReport(r.tipoDocumentoPrestador, "tipo_documento_prestador", "Res. 2275/2023", "Usar: CC, NI, CE, etc.", fileName, lineNumber);
    var e4 := LengthReport(r.numDocumentoPrestador, 20, "num_documento_prestador", "Res. 2275/2023", "Verificar número de documento", fileName, lineNumber);
    FieldNamesCat5(e0, e1, e2, e3, e4);
    e0 + e1 + e2 + e3 + e4
  }

  /** What `AFValidator.validate` demands of the invoice: number, issue date and billed period. */
  predicate AFInvoiceValid(r: AFRecord, today: Date)
  {
    Fits(r.numFactura, 20) && GoodDmy(r.fechaExpedicion, today) && Ordered(r.fechaInicio, r.fechaFinal, today)
  }

  /** The fields `AFInvoiceErrors` reports on: one per failed check, in source order. */
  function AFInvoiceFields(r: AFRecord, today: Date): seq<string>
  {
    Flag(!Fits(r.numFactura, 20), "num_factura") +
    Flag(!GoodDmy(r.fechaExpedicion, today), "fecha_expedicion") +
    Flag(!GoodDmy(r.fechaInicio, today), "fecha_inicio") +
    Flag(!GoodDmy(r.fechaFinal, today), "fecha_final") +
    Flag(!Ordered(r.fechaInicio, r.fechaFinal, today), "fecha_inicio/fecha_final")
  }

  /** The checks of `AFValidator.validate` on the invoice: number, issue date and billed period, in source order. */
  function AFInvoiceErrors(r: AFRecord, lineNumber: int, fileName: string, today: Date): (es: seq<ValidationError>)
    ensures |es| <= 5
    ensures Located(es, fileName, lineNumber)
    ensures |es| == 0 <==> AFInvoiceValid(r, today)
    ensures FieldNames(es) == AFInvoiceFields(r, today)
  {
    var e0 := LengthReport(r.numFactura, 20, "num_factura", "Res. 2275/2023", "Verificar número de factura", fileName, lineNumber);
    var e1 := DateReport(r.fechaExpedicion, today, "fecha_expedicion", "Res. 2275/2023", "Formato: DD/MM/YYYY", fileName, lineNumber);
    var e2 := DateReport(r.fechaInicio, today, "fecha_inicio", "Res. 2275/2023", "Formato: DD/MM/YYYY", fileName, lineNumber);
    var e3 := DateReport(r.fechaFinal, today, "fecha_final", "Res. 2275/2023", "Formato: DD/MM/YYYY", fileName, lineNumber);
    var e4 := RangeReport(r.fechaInicio, r.fechaFinal, "fecha_inicio", "fecha_final", today, "fecha_inicio/fecha_final", "Res. 2275/2023", "Fecha inicio debe ser <= fecha final", fileName, lineNumber);
    FieldNamesCat5(e0, e1, e2, e3, e4);
    e0 + e1 + e2 + e3 + e4
  }

  /** What `AFValidator.validate` demands of the paying entity and the net value. */
  predicate AFPayerValid(r: AFRecord)
  {
    Fits(r.codEntidadAdministradora, 6) && Fits(r.nombreEntidadAdministradora, 60) && NonNegative(r.valorNeto)
  }

  /** The fields `AFPayerErrors` reports on: one per failed check, in source order. */
  function AFPayerFields(r: AFRecord): seq<string>
  {
    Flag(!Fits(r.codEntidadAdministradora, 6), "cod_entidad_administradora") +
    Flag(!Fits(r.nombreEntidadAdministradora, 60), "nombre_entidad_administradora") +
    Flag(!NonNegative(r.valorNeto), "valor_neto")
  }

  /** The checks of `AFValidator.validate` on the paying entity and the net value, in source order. */
  function AFPayerErrors(r: AFRecord, lineNumber: int, fileName: string): (es: seq<ValidationError>)
    ensures |es| <= 3
    ensures Located(es, fileName, lineNumber)
    ensures |es| == 0 <==> AFPayerValid(r)
    ensures FieldNames(es) == AFPayerFields(r)
  {
    var e0 := LengthReport(r.codEntidadAdministradora, 6, "cod_entidad_administradora", "Res. 2275/2023", "Verificar código EPS/entidad", fileName, lineNumber);
    var e1 := LengthReport(r.nombreEntidadAdministradora, 60, "nombre_entidad_administradora", "Res. 2275/2023", "Reducir longitud del nombre", fileName, lineNumber);
    var e2 := DecimalReport(r.valorNeto, "valor_neto", "Res. 2275/2023", "Valor debe ser numérico y >= 0", fileName, lineNumber);
    FieldNamesCat3(e0, e1, e2);
    e0 + e1 + e2
  }

  /** What `AFValidator.validate` accepts: every group of checks passes. */
  predicate AFValid(r: AFRecord, today: Date)
  {
    AFProviderValid(r)
    && AFInvoiceValid(r, today)
    && AFPayerValid(r)
  }

  /** `AFValidator.validate`. */
  function ValidateAF(r: AFRecord, lineNumber: int, fileName: string, today: Date): (es: seq<ValidationError>)
    ensures |es| <= 13
    ensures Located(es, fileName, lineNumber)
    ensures |es| == 0 <==> AFValid(r, today)
    ensures FieldNames(es) == AFProviderFields(r) + AFInvoiceFields(r, today) + AFPayerFields(r)
  {
    var e0 := AFProviderErrors(r, lineNumber, fileName);
    var e1 := AFInvoiceErrors(r, lineNumber, fileName, today);
    var e2 := AFPayerErrors(r, lineNumber, fileName);
    FieldNamesCat3(e0, e1, e2);
    e0 + e1 + e2
  }

  /** What `USValidator.validate` demands of the identification document. */
  predicate USIdentificationValid(r: USRecord)
  {
    r.tipoDocumento in DocumentTypes && Fits(r.numDocumento, 20)
  }

  /** The fields `USIdentificationErrors` reports on: one per failed check, in source order. */
  function USIdentificationFields(r: USRecord): seq<string>
  {
    Flag(r.tipoDocumento !in DocumentTypes, "tipo_documento") +
    Flag(!Fits(r.numDocumento, 20), "num_documento")
  }

  /** The checks of `USValidator.validate` on the identification document, in source order. */
  function USIdentificationErrors(r: USRecord, lineNumber: int, fileName: string): (es: seq<ValidationError>)
    ensures |es| <= 2
    ensures Located(es, fileName, lineNumber)
    ensures |es| == 0 <==> USIdentificationValid(r)
    ensures FieldNames(es) == USIdentificationFields(r)
  {
    var e0 := DocumentTypeReport(r.tipoDocumento, "tipo_documento", "Res. 2275/2023", "Usar: CC, TI, RC, CE, PA, etc.", fileName, lineNumber);
    var e1 := LengthReport(r.numDocumento, 20, "num_documento", "Res. 2275/2023", "Verificar número de identificación", fileName, lineNumber);
    FieldNamesAppend(e0, e1);
    e0 + e1
  }

  /** What `USValidator.validate` demands of the paying entity and the user type. */
  predicate USAffiliationValid(r: USRecord)
  {
    Fits(r.codEntidadAdministradora, 6)
    && (r.tipoUsuario == "1" || r.tipoUsuario == "2" || r.tipoUsuario == "3" || r.tipoUsuario == "4")
  }

  /** The fields `USAffiliationErrors` reports on: one per failed check, in source order. */
  function USAffiliationFields(r: USRecord): seq<string>
  {
    Flag(!Fits(r.codEntidadAdministradora, 6), "cod_entidad_administradora") +
    Flag(!(r.tipoUsuario == "1" || r.tipoUsuario == "2" || r.tipoUsuario == "3" || r.tipoUsuario == "4"), "tipo_usuario")
  }

  /** The checks of `USValidator.validate` on the paying entity and the user type, in source order. */
  function USAffiliationErrors(r: USRecord, lineNumber: int, fileName: string): (es: seq<ValidationError>)
    ensures |es| <= 2
    ensures Located(es, fileName, lineNumber)
    ensures |es| == 0 <==> USAffiliationValid(r)
    ensures FieldNames(es) == USAffiliationFields(r)
  {
    var e0 := LengthReport(r.codEntidadAdministradora, 6, "cod_entidad_administradora", "Res. 2275/2023", "Verificar código EPS", fileName, lineNumber);
    var e1 := UserTypeReport(r.tipoUsuario, "tipo_usuario", "Res. 2275/2023", "1=Contributivo, 2=Subsidiado, 3=Vinculado, 4=Particular", fileName, lineNumber);
    FieldNamesAppend(e0, e1);
    e0 + e1
  }

  /** What `USValidator.validate` demands of names, age, age unit and sex. */
  predicate USPersonValid(r: USRecord)
  {
    Fits(r.primerApellido, 60) && Fits(r.primerNombre, 60) && IntegerIn(r.edad, Some(0), Some(150))
    && (r.unidadMedidaEdad == "1" || r.unidadMedidaEdad == "2" || r.unidadMedidaEdad == "3")
    && (r.sexo == "M" || r.sexo == "F")
  }

  /** The fields `USPersonErrors` reports on: one per failed check, in source order. */
  function USPersonFields(r: USRecord): seq<string>
  {
    Flag(!Fits(r.primerApellido, 60), "primer_apellido") +
    Flag(!Fits(r.primerNombre, 60), "primer_nombre") +
    Flag(!IntegerIn(r.edad, Some(0), Some(150)), "edad") +
    Flag(!(r.unidadMedidaEdad == "1" || r.unidadMedidaEdad == "2" || r.unidadMedidaEdad == "3"), "unidad_medida_edad") +
    Flag(!(r.sexo == "M" || r.sexo == "F"), "sexo")
  }

  /** The checks of `USValidator.validate` on names, age, age unit and sex, in source order. */
  function USPersonErrors(r: USRecord, lineNumber: int, fileName: string): (es: seq<ValidationError>)
    ensures |es| <= 5
    ensures Located(es, fileName, lineNumber)
    ensures |es| == 0 <==> USPersonValid(r)
    ensures FieldNames(es) == USPersonFields(r)
  {
    var e0 := LengthReport(r.primerApellido, 60, "primer_apellido", "Res. 2275/2023", "Verificar primer apellido", fileName, lineNumber);
    var e1 := LengthReport(r.primerNombre, 60, "primer_nombre", "Res. 2275/2023", "Verificar primer nombre", fileName, lineNumber);
    var e2 := IntegerReport(r.edad, Some(0), Some(150), "edad", "Res. 2275/2023", "Edad debe ser entre 0 y 150", fileName, lineNumber);
    var e3 := AgeUnitReport(r.unidadMedidaEdad, "unidad_medida_edad", "Res. 2275/2023", "1=años, 2=meses, 3=días", fileName, lineNumber);
    var e4 := SexReport(r.sexo, "sexo", "Res. 2275/2023", "Debe ser M o F", fileName, lineNumber);
    FieldNamesCat5(e0, e1, e2, e3, e4);
    e0 + e1 + e2 + e3 + e4
  }

  /** What `USValidator.validate` demands of department, municipality and zone. */
  predicate USResidenceValid(r: USRecord)
  {
    Fits(r.codDepartamento, 2) && Fits(r.codMunicipio, 3) && (r.zonaResidencial == "U" || r.zonaResidencial == "R")
  }

  /** The fields `USResidenceErrors` reports on: one per failed check, in source order. */
  function USResidenceFields(r: USRecord): seq<string>
  {
    Flag(!Fits(r.codDepartamento, 2), "cod_departamento") +
    Flag(!Fits(r.codMunicipio, 3), "cod_municipio") +
    Flag(!(r.zonaResidencial == "U" || r.zonaResidencial == "R"), "zona_residencial")
  }

  /** The checks of `USValidator.validate` on department, municipality and zone, in source order. */
  function USResidenceErrors(r: USRecord, lineNumber: int, fileName: string): (es: seq<ValidationError>)
    ensures |es| <= 3
    ensures Located(es, fileName, lineNumber)
    ensures |es| == 0 <==> USResidenceValid(r)
    ensures FieldNames(es) == USResidenceFields(r)
  {
    var e0 := LengthReport(r.codDepartamento, 2, "cod_departamento", "Res. 2275/2023", "Código DANE de 2 dígitos", fileName, lineNumber);
    var e1 := LengthReport(r.codMunicipio, 3, "cod_municipio", "Res. 2275/2023", "Código DANE de 3 dígitos", fileName, lineNumber);
    var e2 := ZoneReport(r.zonaResidencial, "zona_residencial", "Res. 2275/2023", "U=Urbana, R=Rural", fileName, lineNumber);
    FieldNamesCat3(e0, e1, e2);
    e0 + e1 + e2
  }

  /** What `USValidator.validate` accepts: every group of checks passes. */
  predicate USValid(r: USRecord)
  {
    USIdentificationValid(r)
    && USAffiliationValid(r)
    && USPersonValid(r)
    && USResidenceValid(r)
  }

  /** `USValidator.validate`. */
  function ValidateUS(r: USRecord, lineNumber: int, fileName: string): (es: seq<ValidationError>)
    ensures |es| <= 12
    ensures Located(es, fileName, lineNumber)
    ensures |es| == 0 <==> USValid(r)
    ensures FieldNames(es) == USIdentificationFields(r) + USAffiliationFields(r) + USPersonFields(r) + USResidenceFields(r)
  {
    var e0 := USIdentificationErrors(r, lineNumber, fileName);
    var e1 := USAffiliationErrors(r, lineNumber, fileName);
    var e2 := USPersonErrors(r, lineNumber, fileName);
    var e3 := USResidenceErrors(r, lineNumber, fileName);
    FieldNamesCat4(e0, e1, e2, e3);
    e0 + e1 + e2 + e3
  }

  /** What `ACValidator.validate` demands of invoice, provider and patient identification. */
  predicate ACIdentificationValid(r: ACRecord)
  {
    Fits(r.numFactura, 20) && Fits(r.codPrestador, 12) && r.tipoDocumento in DocumentTypes && Fits(r.numDocumento, 20)
  }

  /** The fields `ACIdentificationErrors` reports on: one per failed check, in source order. */
  function ACIdentificationFields(r: ACRecord): seq<string>
  {
    Flag(!Fits(r.numFactura, 20), "num_factura") +
    Flag(!Fits(r.codPrestador, 12), "cod_prestador") +
    Flag(r.tipoDocumento !in DocumentTypes, "tipo_documento") +
    Flag(!Fits(r.numDocumento, 20), "num_documento")
  }

  /** The checks of `ACValidator.validate` on invoice, provider and patient identification, in source order. */
  function ACIdentificationErrors(r: ACRecord, lineNumber: int, fileName: string): (es: seq<ValidationError>)
    ensures |es| <= 4
    ensures Located(es, fileName, lineNumber)
    ensures |es| == 0 <==> ACIdentificationValid(r)
    ensures FieldNames(es) == ACIdentificationFields(r)
  {
    var e0 := LengthReport(r.numFactura, 20, "num_factura", "Res. 2275/2023", "Debe corresponder al AF", fileName, lineNumber);
    var e1 := LengthReport(r.codPrestador, 12, "cod_prestador", "Res. 2275/2023", "Código habilitación del prestador", fileName, lineNumber);
    var e2 := DocumentTypeReport(r.tipoDocumento, "tipo_documento", "Res. 2275/2023", "Debe existir en US", fileName, lineNumber);
    var e3 := LengthReport(r.numDocumento, 20, "num_documento", "Res. 2275/2023", "Debe existir en US", fileName, lineNumber);
    FieldNamesCat4(e0, e1, e2, e3);
    e0 + e1 + e2 + e3
  }

  /** What `ACValidator.validate` demands of date, CUPS code, purpose and external cause. */
  predicate ACServiceValid(r: ACRecord, today: Date)
  {
    GoodDmy(r.fechaConsulta, today) && Cups(r.codConsulta)
    && IntegerIn(r.finalidadConsulta, None, None) && IntegerIn(r.causaExterna, None, None)
  }

  /** The fields `ACServiceErrors` reports on: one per failed check, in source order. */
  function ACServiceFields(r: ACRecord, today: Date): seq<string>
  {
    Flag(!GoodDmy(r.fechaConsulta, today), "fecha_consulta") +
    Flag(!Cups(r.codConsulta), "cod_consulta") +
    Flag(!IntegerIn(r.finalidadConsulta, None, None), "finalidad_consulta") +
    Flag(!IntegerIn(r.causaExterna, None, None), "causa_externa")
  }

  /** The checks of `ACValidator.validate` on date, CUPS code, purpose and external cause, in source order. */
  function ACServiceErrors(r: ACRecord, lineNumber: int, fileName: string, today: Date): (es: seq<ValidationError>)
    ensures |es| <= 4
    ensures Located(es, fileName, lineNumber)
    ensures |es| == 0 <==> ACServiceValid(r, today)
    ensures FieldNames(es) == ACServiceFields(r, today)
  {
    var e0 := DateReport(r.fechaConsulta, today, "fecha_consulta", "Res. 2275/2023", "Formato DD/MM/YYYY", fileName, lineNumber);
    var e1 := CupsReport(r.codConsulta, "cod_consulta", "Res. 2275/2023", "Código CUPS de 6 dígitos", fileName, lineNumber);
    var e2 := IntegerReport(r.finalidadConsulta, None, None, "finalidad_consulta", "Res. 2275/2023", "Código de finalidad según tabla", fileName, lineNumber);
    var e3 := IntegerReport(r.causaExterna, None, None, "causa_externa", "Res. 2275/2023", "Código de causa externa según tabla", fileName, lineNumber);
    FieldNamesCat4(e0, e1, e2, e3);
    e0 + e1 + e2 + e3
  }

  /** What `ACValidator.validate` demands of the principal and related diagnoses and the diagnosis type. */
  predicate ACDiagnosesValid(r: ACRecord)
  {
    Cie10Chars(r.diagnosticoPrincipal) && OptionalCie10(r.diagnosticoRelacionado1)
    && OptionalCie10(r.diagnosticoRelacionado2) && OptionalCie10(r.diagnosticoRelacionado3)
    && IntegerIn(r.tipoDiagnosticoPrincipal, None, None)
  }

  /** The fields `ACDiagnosesErrors` reports on: one per failed check, in source order. */
  function ACDiagnosesFields(r: ACRecord): seq<string>
  {
    Flag(!Cie10Chars(r.diagnosticoPrincipal), "diagnostico_principal") +
    Flag(!OptionalCie10(r.diagnosticoRelacionado1), "diagnostico_relacionado1") +
    Flag(!OptionalCie10(r.diagnosticoRelacionado2), "diagnostico_relacionado2") +
    Flag(!OptionalCie10(r.diagnosticoRelacionado3), "diagnostico_relacionado3") +
    Flag(!IntegerIn(r.tipoDiagnosticoPrincipal, None, None), "tipo_diagnostico_principal")
  }

  /** The checks of `ACValidator.validate` on the principal and related diagnoses and the diagnosis type, in source order. */
  function ACDiagnosesErrors(r: ACRecord, lineNumber: int, fileName: string): (es: seq<ValidationError>)
    ensures |es| <= 5
    ensures Located(es, fileName, lineNumber)
    ensures |es| == 0 <==> ACDiagnosesValid(r)
    ensures FieldNames(es) == ACDiagnosesFields(r)
  {
    var e0 := Cie10Report(r.diagnosticoPrincipal, "diagnostico_principal", "Res. 2275/2023 y 3280/2018", "Código CIE10 válido (ej: A001, Z000)", fileName, lineNumber);
    var e1 := OptionalCie10Report(r.diagnosticoRelacionado1, "diagnostico_relacionado1", "Res. 2275/2023 y 3280/2018", "Código CIE10 válido o vacío", fileName, lineNumber);
    var e2 := OptionalCie10Report(r.diagnosticoRelacionado2, "diagnostico_relacionado2", "Res. 2275/2023 y 3280/2018", "Código CIE10 válido o vacío", fileName, lineNumber);
    var e3 := OptionalCie10Report(r.diagnosticoRelacionado3, "diagnostico_relacionado3", "Res. 2275/2023 y 3280/2018", "Código CIE10 válido o vacío", fileName, lineNumber);
    var e4 := IntegerReport(r.tipoDiagnosticoPrincipal, None, None, "tipo_diagnostico_principal", "Res. 2275/2023", "1=Impresión diagnóstica, 2=Confirmado nuevo, 3=Confirmado repetido", fileName, lineNumber);
    FieldNamesCat5(e0, e1, e2, e3, e4);
    e0 + e1 + e2 + e3 + e4
  }

  /** What `ACValidator.validate` demands of the consultation and net values. */
  predicate ACValuesValid(r: ACRecord)
  {
    NonNegative(r.valorConsulta) && NonNegative(r.valorNeto)
  }

  /** The fields `ACValuesErrors` reports on: one per failed check, in source order. */
  function ACValuesFields(r: ACRecord): seq<string>
  {
    Flag(!NonNegative(r.valorConsulta), "valor_consulta") +
    Flag(!NonNegative(r.valorNeto), "valor_neto")
  }

  /** The checks of `ACValidator.validate` on the consultation and net values, in source order. */
  function ACValuesErrors(r: ACRecord, lineNumber: int, fileName: string): (es: seq<ValidationError>)
    ensures |es| <= 2
    ensures Located(es, fileName, lineNumber)
    ensures |es| == 0 <==> ACValuesValid(r)
    ensures FieldNames(es) == ACValuesFields(r)
  {
    var e0 := DecimalReport(r.valorConsulta, "valor_consulta", "Res. 2275/2023", "Valor >= 0", fileName, lineNumber);
    var e1 := DecimalReport(r.valorNeto, "valor_neto", "Res. 2275/2023", "Valor >= 0", fileName, lineNumber);
    FieldNamesAppend(e0, e1);
    e0 + e1
  }

  /** What `ACValidator.validate` demands of age, age unit and sex. */
  predicate ACPatientValid(r: ACRecord)
  {
    IntegerIn(r.edad, Some(0), Some(150))
    && (r.unidadMedidaEdad == "1" || r.unidadMedidaEdad == "2" || r.unidadMedidaEdad == "3")
    && (r.sexo == "M" || r.sexo == "F")
  }

  /** The fields `ACPatientErrors` reports on: one per failed check, in source order. */
  function ACPatientFields(r: ACRecord): seq<string>
  {
    Flag(!IntegerIn(r.edad, Some(0), Some(150)), "edad") +
    Flag(!(r.unidadMedidaEdad == "1" || r.unidadMedidaEdad == "2" || r.unidadMedidaEdad == "3"), "unidad_medida_edad") +
    Flag(!(r.sexo == "M" || r.sexo == "F"), "sexo")
  }

  /** The checks of `ACValidator.validate` on age, age unit and sex, in source order. */
  function ACPatientErrors(r: ACRecord, lineNumber: int, fileName: string): (es: seq<ValidationError>)
    ensures |es| <= 3
    ensures Located(es, fileName, lineNumber)
    ensures |es| == 0 <==> ACPatientValid(r)
    ensures FieldNames(es) == ACPatientFields(r)
  {
    var e0 := IntegerReport(r.edad, Some(0), Some(150), "edad", "Res. 2275/2023", "Edad 0-150", fileName, lineNumber);
    var e1 := AgeUnitReport(r.unidadMedidaEdad, "unidad_medida_edad", "Res. 2275/2023", "1=años, 2=meses, 3=días", fileName, lineNumber);
    var e2 := SexReport(r.sexo, "sexo", "Res. 2275/2023", "M o F", fileName, lineNumber);
    FieldNamesCat3(e0, e1, e2);
    e0 + e1 + e2
  }

  /** What `ACValidator.validate` accepts: every group of checks passes. */
  predicate ACValid(r: ACRecord, today: Date)
  {
    ACIdentificationValid(r)
    && ACServiceValid(r, today)
    && ACDiagnosesValid(r)
    && ACValuesValid(r)
    && ACPatientValid(r)
  }

  /** `ACValidator.validate`. */
  function ValidateAC(r: ACRecord, lineNumber: int, fileName: string, today: Date): (es: seq<ValidationError>)
    ensures |es| <= 18
    ensures Located(es, fileName, lineNumber)
    ensures |es| == 0 <==> ACValid(r, today)
    ensures FieldNames(es) == ACIdentificationFields(r) + ACServiceFields(r, today) + ACDiagnosesFields(r) + ACValuesFields(r) + ACPatientFields(r)
  {
    var e0 := ACIdentificationErrors(r, lineNumber, fileName);
    var e1 := ACServiceErrors(r, lineNumber, fileName, today);
    var e2 := ACDiagnosesErrors(r, lineNumber, fileName);
    var e3 := ACValuesErrors(r, lineNumber, fileName);
    var e4 := ACPatientErrors(r, lineNumber, fileName);
    FieldNamesCat5(e0, e1, e2, e3, e4);
    e0 + e1 + e2 + e3 + e4
  }

  /** What `APValidator.validate` demands of invoice, provider and patient identification. */
  predicate APIdentificationValid(r: APRecord)
  {
    Fits(r.numFactura, 20) && Fits(r.codPrestador, 12) && r.tipoDocumento in DocumentTypes && Fits(r.numDocumento, 20)
  }

  /** The fields `APIdentificationErrors` reports on: one per failed check, in source order. */
  function APIdentificationFields(r: APRecord): seq<string>
  {
    Flag(!Fits(r.numFactura, 20), "num_factura") +
    Flag(!Fits(r.codPrestador, 12), "cod_prestador") +
    Flag(r.tipoDocumento !in DocumentTypes, "tipo_documento") +
    Flag(!Fits(r.numDocumento, 20), "num_documento")
  }

  /** The checks of `APValidator.validate` on invoice, provider and patient identification, in source order. */
  function APIdentificationErrors(r: APRecord, lineNumber: int, fileName: string): (es: seq<ValidationError>)
    ensures |es| <= 4
    ensures Located(es, fileName, lineNumber)
    ensures |es| == 0 <==> APIdentificationValid(r)
    ensures FieldNames(es) == APIdentificationFields(r)
  {
    var e0 := LengthReport(r.numFactura, 20, "num_factura", "Res. 2275/2023", "Debe corresponder al AF", fileName, lineNumber);
    var e1 := LengthReport(r.codPrestador, 12, "cod_prestador", "Res. 2275/2023", "Código habilitación", fileName, lineNumber);
    var e2 := DocumentTypeReport(r.tipoDocumento, "tipo_documento", "Res. 2275/2023", "Debe existir en US", fileName, lineNumber);
    var e3 := LengthReport(r.numDocumento, 20, "num_documento", "Res. 2275/2023", "Debe existir en US", fileName, lineNumber);
    FieldNamesCat4(e0, e1, e2, e3);
    e0 + e1 + e2 + e3
  }

  /** What `APValidator.validate` demands of date and CUPS code. */
  predicate APServiceValid(r: APRecord, today: Date)
  {
    GoodDmy(r.fechaProcedimiento, today) && Cups(r.codProcedimiento)
  }

  /** The fields `APServiceErrors` reports on: one per failed check, in source order. */
  function APServiceFields(r: APRecord, today: Date): seq<string>
  {
    Flag(!GoodDmy(r.fechaProcedimiento, today), "fecha_procedimiento") +
    Flag(!Cups(r.codProcedimiento), "cod_procedimiento")
  }

  /** The checks of `APValidator.validate` on date and CUPS code, in source order. */
  function APServiceErrors(r: APRecord, lineNumber: int, fileName: string, today: Date): (es: seq<ValidationError>)
    ensures |es| <= 2
    ensures Located(es, fileName, lineNumber)
    ensures |es| == 0 <==> APServiceValid(r, today)
    ensures FieldNames(es) == APServiceFields(r, today)
  {
    var e0 := DateReport(r.fechaProcedimiento, today, "fecha_procedimiento", "Res. 2275/2023", "Formato DD/MM/YYYY", fileName, lineNumber);
    var e1 := CupsReport(r.codProcedimiento, "cod_procedimiento", "Res. 2275/2023", "Código CUPS de 6 dígitos", fileName, lineNumber);
    FieldNamesAppend(e0, e1);
    e0 + e1
  }

  /** What `APValidator.validate` demands of the principal and related diagnoses and the complication. */
  predicate APDiagnosesValid(r: APRecord)
  {
    Cie10Chars(r.diagnosticoPrincipal) && OptionalCie10(r.diagnosticoRelacionado) && OptionalCie10(r.complicacion)
  }

  /** The fields `APDiagnosesErrors` reports on: one per failed check, in source order. */
  function APDiagnosesFields(r: APRecord): seq<string>
  {
    Flag(!Cie10Chars(r.diagnosticoPrincipal), "diagnostico_principal") +
    Flag(!OptionalCie10(r.diagnosticoRelacionado), "diagnostico_relacionado") +
    Flag(!OptionalCie10(r.complicacion), "complicacion")
  }

  /** The checks of `APValidator.validate` on the principal and related diagnoses and the complication, in source order. */
  function APDiagnosesErrors(r: APRecord, lineNumber: int, fileName: string): (es: seq<ValidationError>)
    ensures |es| <= 3
    ensures Located(es, fileName, lineNumber)
    ensures |es| == 0 <==> APDiagnosesValid(r)
    ensures FieldNames(es) == APDiagnosesFields(r)
  {
    var e0 := Cie10Report(r.diagnosticoPrincipal, "diagnostico_principal", "Res. 2275/2023 y 3280/2018", "Código CIE10 válido", fileName, lineNumber);
    var e1 := OptionalCie10Report(r.diagnosticoRelacionado, "diagnostico_relacionado", "Res. 2275/2023 y 3280/2018", "Código CIE10 válido o vacío", fileName, lineNumber);
    var e2 := OptionalCie10Report(r.complicacion, "complicacion", "Res. 2275/2023 y 3280/2018", "Código CIE10 válido o vacío", fileName, lineNumber);
    FieldNamesCat3(e0, e1, e2);
    e0 + e1 + e2
  }

  /** What `APValidator.validate` demands of the procedure and net values. */
  predicate APValuesValid(r: APRecord)
  {
    NonNegative(r.valorProcedimiento) && NonNegative(r.valorNeto)
  }

  /** The fields `APValuesErrors` reports on: one per failed check, in source order. */
  function APValuesFields(r: APRecord): seq<string>
  {
    Flag(!NonNegative(r.valorProcedimiento), "valor_procedimiento") +
    Flag(!NonNegative(r.valorNeto), "valor_neto")
  }

  /** The checks of `APValidator.validate` on the procedure and net values, in source order. */
  function APValuesErrors(r: APRecord, lineNumber: int, fileName: string): (es: seq<ValidationError>)
    ensures |es| <= 2
    ensures Located(es, fileName, lineNumber)
    ensures |es| == 0 <==> APValuesValid(r)
    ensures FieldNames(es) == APValuesFields(r)
  {
    var e0 := DecimalReport(r.valorProcedimiento, "valor_procedimiento", "Res. 2275/2023", "Valor >= 0", fileName, lineNumber);
    var e1 := DecimalReport(r.valorNeto, "valor_neto", "Res. 2275/2023", "Valor >= 0", fileName, lineNumber);
    FieldNamesAppend(e0, e1);
    e0 + e1
  }

  /** What `APValidator.validate` demands of age, age unit and sex. */
  predicate APPatientValid(r: APRecord)
  {
    IntegerIn(r.edad, Some(0), Some(150))
    && (r.unidadMedidaEdad == "1" || r.unidadMedidaEdad == "2" || r.unidadMedidaEdad == "3")
    && (r.sexo == "M" || r.sexo == "F")
  }

  /** The fields `APPatientErrors` reports on: one per failed check, in source order. */
  function APPatientFields(r: APRecord): seq<string>
  {
    Flag(!IntegerIn(r.edad, Some(0), Some(150)), "edad") +
    Flag(!(r.unidadMedidaEdad == "1" || r.unidadMedidaEdad == "2" || r.unidadMedidaEdad == "3"), "unidad_medida_edad") +
    Flag(!(r.sexo == "M" || r.sexo == "F"), "sexo")
  }

  /** The checks of `APValidator.validate` on age, age unit and sex, in source order. */
  function APPatientErrors(r: APRecord, lineNumber: int, fileName: string): (es: seq<ValidationError>)
    ensures |es| <= 3
    ensures Located(es, fileName, lineNumber)
    ensures |es| == 0 <==> APPatientValid(r)
    ensures FieldNames(es) == APPatientFields(r)
  {
    var e0 := IntegerReport(r.edad, Some(0), Some(150), "edad", "Res. 2275/2023", "Edad 0-150", fileName, lineNumber);
    var e1 := AgeUnitReport(r.unidadMedidaEdad, "unidad_medida_edad", "Res. 2275/2023", "1=años, 2=meses, 3=días", fileName, lineNumber);
    var e2 := SexReport(r.sexo, "sexo", "Res. 2275/2023", "M o F", fileName, lineNumber);
    FieldNamesCat3(e0, e1, e2);
    e0 + e1 + e2
  }

  /** What `APValidator.validate` accepts: every group of checks passes. */
  predicate APValid(r: APRecord, today: Date)
  {
    APIdentificationValid(r)
    && APServiceValid(r, today)
    && APDiagnosesValid(r)
    && APValuesValid(r)
    && APPatientValid(r)
  }

  /** `APValidator.validate`. */
  function ValidateAP(r: APRecord, lineNumber: int, fileName: string, today: Date): (es: seq<ValidationError>)
    ensures |es| <= 14
    ensures Located(es, fileName, lineNumber)
    ensures |es| == 0 <==> APValid(r, today)
    ensures FieldNames(es) == APIdentificationFields(r) + APServiceFields(r, today) + APDiagnosesFields(r) + APValuesFields(r) + APPatientFields(r)
  {
    var e0 := APIdentificationErrors(r, lineNumber, fileName);
    var e1 := APServiceErrors(r, lineNumber, fileName, today);
    var e2 := APDiagnosesErrors(r, lineNumber, fileName);
    var e3 := APValuesErrors(r, lineNumber, fileName);
    var e4 := APPatientErrors(r, lineNumber, fileName);
    FieldNamesCat5(e0, e1, e2, e3, e4);
    e0 + e1 + e2 + e3 + e4
  }

  /** What `ATValidator.validate` demands of invoice, provider and patient identification. */
  predicate ATIdentificationValid(r: ATRecord)
  {
    Fits(r.numFactura, 20) && Fits(r.codPrestador, 12) && r.tipoDocumento in DocumentTypes && Fits(r.numDocumento, 20)
  }

  /** The fields `ATIdentificationErrors` reports on: one per failed check, in source order. */
  function ATIdentificationFields(r: ATRecord): seq<string>
  {
    Flag(!Fits(r.numFactura, 20), "num_factura") +
    Flag(!Fits(r.codPrestador, 12), "cod_prestador") +
    Flag(r.tipoDocumento !in DocumentTypes, "tipo_documento") +
    Flag(!Fits(r.numDocumento, 20), "num_documento")
  }

  /** The checks of `ATValidator.validate` on invoice, provider and patient identification, in source order. */
  function ATIdentificationErrors(r: ATRecord, lineNumber: int, fileName: string): (es: seq<ValidationError>)
    ensures |es| <= 4
    ensures Located(es, fileName, lineNumber)
    ensures |es| == 0 <==> ATIdentificationValid(r)
    ensures FieldNames(es) == ATIdentificationFields(r)
  {
    var e0 := LengthReport(r.numFactura, 20, "num_factura", "Res. 2275/2023", "Debe corresponder al AF", fileName, lineNumber);
    var e1 := LengthReport(r.codPrestador, 12, "cod_prestador", "Res. 2275/2023", "Código habilitación", fileName, lineNumber);
    var e2 := DocumentTypeReport(r.tipoDocumento, "tipo_documento", "Res. 2275/2023", "Debe existir en US", fileName, lineNumber);
    var e3 := LengthReport(r.numDocumento, 20, "num_documento", "Res. 2275/2023", "Debe existir en US", fileName, lineNumber);
    FieldNamesCat4(e0, e1, e2, e3);
    e0 + e1 + e2 + e3
  }

  /** What `ATValidator.validate` demands of CUPS code, quantity and values. */
  predicate ATServiceValid(r: ATRecord)
  {
    Cups(r.codServicio) && NonNegative(r.cantidad)
    && NonNegative(r.valorUnitario) && NonNegative(r.valorTotal) && NonNegative(r.valorNeto)
  }

  /** The fields `ATServiceErrors` reports on: one per failed check, in source order. */
  function ATServiceFields(r: ATRecord): seq<string>
  {
    Flag(!Cups(r.codServicio), "cod_servicio") +
    Flag(!NonNegative(r.cantidad), "cantidad") +
    Flag(!NonNegative(r.valorUnitario), "valor_unitario") +
    Flag(!NonNegative(r.valorTotal), "valor_total") +
    Flag(!NonNegative(r.valorNeto), "valor_neto")
  }

  /** The checks of `ATValidator.validate` on CUPS code, quantity and values, in source order. */
  function ATServiceErrors(r: ATRecord, lineNumber: int, fileName: string): (es: seq<ValidationError>)
    ensures |es| <= 5
    ensures Located(es, fileName, lineNumber)
    ensures |es| == 0 <==> ATServiceValid(r)
    ensures FieldNames(es) == ATServiceFields(r)
  {
    var e0 := CupsReport(r.codServicio, "cod_servicio", "Res. 2275/2023", "Código CUPS de 6 dígitos", fileName, lineNumber);
    var e1 := DecimalReport(r.cantidad, "cantidad", "Res. 2275/2023", "Cantidad > 0", fileName, lineNumber);
    var e2 := DecimalReport(r.valorUnitario, "valor_unitario", "Res. 2275/2023", "Valor >= 0", fileName, lineNumber);
    var e3 := DecimalReport(r.valorTotal, "valor_total", "Res. 2275/2023", "Valor >= 0", fileName, lineNumber);
    var e4 := DecimalReport(r.valorNeto, "valor_neto", "Res. 2275/2023", "Valor >= 0", fileName, lineNumber);
    FieldNamesCat5(e0, e1, e2, e3, e4);
    e0 + e1 + e2 + e3 + e4
  }

  /** What `ATValidator.validate` accepts: every group of checks passes. */
  predicate ATValid(r: ATRecord)
  {
    ATIdentificationValid(r)
    && ATServiceValid(r)
  }

  /** `ATValidator.validate`. */
  function ValidateAT(r: ATRecord, lineNumber: int, fileName: string): (es: seq<ValidationError>)
    ensures |es| <= 9
    ensures Located(es, fileName, lineNumber)
    ensures |es| == 0 <==> ATValid(r)
    ensures FieldNames(es) == ATIdentificationFields(r) + ATServiceFields(r)
  {
    var e0 := ATIdentificationErrors(r, lineNumber, fileName);
    var e1 := ATServiceErrors(r, lineNumber, fileName);
    FieldNamesAppend(e0, e1);
    e0 + e1
  }

  /** What `AHValidator.validate` demands of invoice and patient document type. */
  predicate AHIdentificationValid(r: AHRecord)
  {
    Fits(r.numFactura, 20) && r.tipoDocumento in DocumentTypes
  }

  /** The fields `AHIdentificationErrors` reports on: one per failed check, in source order. */
  function AHIdentificationFields(r: AHRecord): seq<string>
  {
    Flag(!Fits(r.numFactura, 20), "num_factura") +
    Flag(r.tipoDocumento !in DocumentTypes, "tipo_documento")
  }

  /** The checks of `AHValidator.validate` on invoice and patient document type, in source order. */
  function AHIdentificationErrors(r: AHRecord, lineNumber: int, fileName: string): (es: seq<ValidationError>)
    ensures |es| <= 2
    ensures Located(es, fileName, lineNumber)
    ensures |es| == 0 <==> AHIdentificationValid(r)
    ensures FieldNames(es) == AHIdentificationFields(r)
  {
    var e0 := LengthReport(r.numFactura, 20, "num_factura", "Res. 2275/2023", "Debe corresponder al AF", fileName, lineNumber);
    var e1 := DocumentTypeReport(r.tipoDocumento, "tipo_documento", "Res. 2275/2023", "Debe existir en US", fileName, lineNumber);
    FieldNamesAppend(e0, e1);
    e0 + e1
  }

  /** What `AHValidator.validate` demands of admission and discharge dates and diagnoses. */
  predicate AHStayValid(r: AHRecord, today: Date)
  {
    Ordered(r.fechaIngreso, r.fechaEgreso, today)
    && Cie10Chars(r.diagnosticoIngreso) && Cie10Chars(r.diagnosticoEgreso)
  }

  /** The fields `AHStayErrors` reports on: one per failed check, in source order. */
  function AHStayFields(r: AHRecord, today: Date): seq<string>
  {
    Flag(!GoodDmy(r.fechaIngreso, today), "fecha_ingreso") +
    Flag(!Cie10Chars(r.diagnosticoIngreso), "diagnostico_ingreso") +
    Flag(!Cie10Chars(r.diagnosticoEgreso), "diagnostico_egreso") +
    Flag(!GoodDmy(r.fechaEgreso, today), "fecha_egreso") +
    Flag(!Ordered(r.fechaIngreso, r.fechaEgreso, today), "fecha_ingreso/fecha_egreso")
  }

  /** The checks of `AHValidator.validate` on admission and discharge dates and diagnoses, in source order. */
  function AHStayErrors(r: AHRecord, lineNumber: int, fileName: string, today: Date): (es: seq<ValidationError>)
    ensures |es| <= 5
    ensures Located(es, fileName, lineNumber)
    ensures |es| == 0 <==> AHStayValid(r, today)
    ensures FieldNames(es) == AHStayFields(r, today)
  {
    var e0 := DateReport(r.fechaIngreso, today, "fecha_ingreso", "Res. 2275/2023", "Formato DD/MM/YYYY", fileName, lineNumber);
    var e1 := Cie10Report(r.diagnosticoIngreso, "diagnostico_ingreso", "Res. 2275/2023 y 3280/2018", "Código CIE10 válido", fileName, lineNumber);
    var e2 := Cie10Report(r.diagnosticoEgreso, "diagnostico_egreso", "Res. 2275/2023 y 3280/2018", "Código CIE10 válido", fileName, lineNumber);
    var e3 := DateReport(r.fechaEgreso, today, "fecha_egreso", "Res. 2275/2023", "Formato DD/MM/YYYY", fileName, lineNumber);
    var e4 := RangeReport(r.fechaIngreso, r.fechaEgreso, "fecha_ingreso", "fecha_egreso", today, "fecha_ingreso/fecha_egreso", "Res. 2275/2023", "Fecha ingreso <= fecha egreso", fileName, lineNumber);
    FieldNamesCat5(e0, e1, e2, e3, e4);
    e0 + e1 + e2 + e3 + e4
  }

  /** What `AHValidator.validate` demands of the hospitalisation and net values. */
  predicate AHValuesValid(r: AHRecord)
  {
    NonNegative(r.valorHospitalizacion) && NonNegative(r.valorNeto)
  }

  /** The fields `AHValuesErrors` reports on: one per failed check, in source order. */
  function AHValuesFields(r: AHRecord): seq<string>
  {
    Flag(!NonNegative(r.valorHospitalizacion), "valor_hospitalizacion") +
    Flag(!NonNegative(r.valorNeto), "valor_neto")
  }

  /** The checks of `AHValidator.validate` on the hospitalisation and net values, in source order. */
  function AHValuesErrors(r: AHRecord, lineNumber: int, fileName: string): (es: seq<ValidationError>)
    ensures |es| <= 2
    ensures Located(es, fileName, lineNumber)
    ensures |es| == 0 <==> AHValuesValid(r)
    ensures FieldNames(es) == AHValuesFields(r)
  {
    var e0 := DecimalReport(r.valorHospitalizacion, "valor_hospitalizacion", "Res. 2275/2023", "Valor >= 0", fileName, lineNumber);
    var e1 := DecimalReport(r.valorNeto, "valor_neto", "Res. 2275/2023", "Valor >= 0", fileName, lineNumber);
    FieldNamesAppend(e0, e1);
    e0 + e1
  }

  /** What `AHValidator.validate` accepts: every group of checks passes. */
  predicate AHValid(r: AHRecord, today: Date)
  {
    AHIdentificationValid(r)
    && AHStayValid(r, today)
    && AHValuesValid(r)
  }

  /** `AHValidator.validate`. */
  function ValidateAH(r: AHRecord, lineNumber: int, fileName: string, today: Date): (es: seq<ValidationError>)
    ensures |es| <= 9
    ensures Located(es, fileName, lineNumber)
    ensures |es| == 0 <==> AHValid(r, today)
    ensures FieldNames(es) == AHIdentificationFields(r) + AHStayFields(r, today) + AHValuesFields(r)
  {
    var e0 := AHIdentificationErrors(r, lineNumber, fileName);
    var e1 := AHStayErrors(r, lineNumber, fileName, today);
    var e2 := AHValuesErrors(r, lineNumber, fileName);
    FieldNamesCat3(e0, e1, e2);
    e0 + e1 + e2
  }

  // ---------------------------------------------------------------------
  // Fields reported twice
  // ---------------------------------------------------------------------

  /** Two flags on the same field lead a list exactly when both fail, if the rest never names that field. */
  lemma {:induction false} FlaggedTwice(a: bool, b: bool, f: string, x: seq<string>, y: seq<string>, z: seq<string>)
    requires f !in x && f !in y && f !in z
    ensures var fs := Flag(a, f) + Flag(b, f) + x + y + z;
            (|fs| >= 2 && fs[0] == f && fs[1] == f) <==> a && b
  {
    var fs := Flag(a, f) + Flag(b, f) + x + y + z;
    var rest := x + y + z;
    assert fs == Flag(a, f) + Flag(b, f) + rest;
    if !(a && b) && |fs| >= 2 {
      var k := |Flag(a, f) + Flag(b, f)|;
      assert k <= 1;
      assert fs[1] == rest[1 - k];
      assert rest[1 - k] in rest;
    }
  }

  /**
   * The provider code is checked twice, for its length and as an integer:
   * the provider's first two errors are both about `cod_prestador` exactly
   * when both checks fail (a blank code fails both, and `LengthReport` and
   * `IntegerReport` say with which messages). Stated on the field list,
   * which `AFProviderErrors` reports exactly, by its contract.
   */
  lemma AFProviderCodeTwice(r: AFRecord)
    ensures var fs := AFProviderFields(r);
            (|fs| >= 2 && fs[0] == "cod_prestador" && fs[1] == "cod_prestador")
            <==> !Fits(r.codPrestador, 12) && !IntegerIn(r.codPrestador, None, None)
  {
    FlaggedTwice(!Fits(r.codPrestador, 12), !IntegerIn(r.codPrestador, None, None), "cod_prestador",
                 Flag(!Fits(r.nombrePrestador, 60), "nombre_prestador"),
                 Flag(r.tipoDocumentoPrestador !in DocumentTypes, "tipo_documento_prestador"),
                 Flag(!Fits(r.numDocumentoPrestador, 20), "num_documento_prestador"));
  }

  /** A one-field flag first and a one-field flag last in a list of flags. */
  lemma {:induction false} FlaggedFirstAndLast(a: seq<string>, b: seq<string>, c: seq<string>, d: seq<string>, e: seq<string>)
    requires |a| == 1 && |e| == 1
    ensures var fs := a + b + c + d + e; |fs| >= 2 && fs[0] == a[0] && fs[|fs| - 1] == e[0]
  {
    var fs := a + b + c + d + e;
    assert fs == a + (b + c + d) + e;
  }

  /** A one-field flag in the middle and a one-field flag at the end of a list of flags. */
  lemma {:induction false} FlaggedMiddleAndLast(a: seq<string>, b: seq<string>, c: seq<string>, d: seq<string>, e: seq<string>)
    requires |c| == 1 && |e| == 1
    ensures var fs := a + b + c + d + e; |fs| >= 2 && c[0] in fs && fs[|fs| - 1] == e[0]
  {
    var fs := a + b + c + d + e;
    assert fs == (a + b) + c + (d + e);
    assert fs[|a + b|] == c[0];
  }

  /** A bad start date gives the range check the message of the start's own date check. */
  lemma RangeRepeatsStartMessage(x: string, y: string, fx: string, fy: string, today: Date, reg: string, fix: string,
                                 field: string, regRange: string, fixRange: string, file: string, line: int)
    requires !GoodDmy(x, today)
    ensures var d, g := DateReport(x, today, fx, reg, fix, file, line),
                        RangeReport(x, y, fx, fy, today, field, regRange, fixRange, file, line);
            |d| == |g| == 1 && d[0].description == g[0].description
  {
  }

  /**
   * A bad start of the billed period is reported twice: once by its own
   * date check, on `fecha_inicio`, and once by the range check, on
   * `fecha_inicio/fecha_final`, which is the last error; both carry the
   * same message (`RangeRepeatsStartMessage`). Stated on the field list,
   * which `AFInvoiceErrors` reports exactly, by its contract.
   */
  lemma AFInvoiceStartTwice(r: AFRecord, today: Date)
    requires !GoodDmy(r.fechaInicio, today)
    ensures var fs := AFInvoiceFields(r, today);
            "fecha_inicio" in fs && |fs| >= 2 && fs[|fs| - 1] == "fecha_inicio/fecha_final"
  {
    FlaggedMiddleAndLast(Flag(!Fits(r.numFactura, 20), "num_factura"), Flag(!GoodDmy(r.fechaExpedicion, today), "fecha_expedicion"),
                         Flag(!GoodDmy(r.fechaInicio, today), "fecha_inicio"), Flag(!GoodDmy(r.fechaFinal, today), "fecha_final"),
                         Flag(!Ordered(r.fechaInicio, r.fechaFinal, today), "fecha_inicio/fecha_final"));
  }

  /**
   * The same for a hospital stay: a bad admission date is the stay's first
   * error, on `fecha_ingreso`, and the range check reports it again, on
   * `fecha_ingreso/fecha_egreso`, as the last error (on the field list,
   * which `AHStayErrors` reports exactly).
   */
  lemma AHStayAdmissionTwice(r: AHRecord, today: Date)
    requires !GoodDmy(r.fechaIngreso, today)
    ensures var fs := AHStayFields(r, today);
            |fs| >= 2 && fs[0] == "fecha_ingreso" && fs[|fs| - 1] == "fecha_ingreso/fecha_egreso"
  {
    FlaggedFirstAndLast(Flag(!GoodDmy(r.fechaIngreso, today), "fecha_ingreso"), Flag(!Cie10Chars(r.diagnosticoIngreso), "diagnostico_ingreso"),
                        Flag(!Cie10Chars(r.diagnosticoEgreso), "diagnostico_egreso"), Flag(!GoodDmy(r.fechaEgreso, today), "fecha_egreso"),
                        Flag(!Ordered(r.fechaIngreso, r.fechaEgreso, today), "fecha_ingreso/fecha_egreso"));
  }
}
