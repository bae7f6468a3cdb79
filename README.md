# RIPS validation engines, modelled in Dafny

This project models the validation logic of a set of tools for RIPS, the Colombian
health-service billing records, and proves properties of that model. It has three parts.

- **ErroresJSON**, the flat-file engine. Each RIPS file kind (AF invoices, US users, and
  the AC, AP, AT, AH, AM, AN and CT services) is one comma-separated record per line.
  - The field validators and the per-kind rule sets turn each record into a list of
    validation errors (`Validators`, `Rules`).
  - The file reader detects the kind from the file name, checks the field count and keeps
    the line counters (`FileReader`).
  - The ICD-10 catalog accepts a code by exact lookup or by its chapter letter (`Cie10`).
  - The advanced validators detect repeated attentions, count invalid ICD-10 codes and
    check the coherence of purpose, procedure, diagnosis, sex and age (`Advanced`).
  - The cross-file checker links services to invoices and users (`Cross`).
  - The auto-corrector rewrites dates, texts, numbers, procedure codes and document types,
    and records every change with a confidence level (`Corrector`).
  - The application reads every file, corrects or suggests, runs the checks line by line,
    then cross-validates (`Pipeline` for the per-line logic, `App` for the stateful driver).
- **AnalisisJSON**, over the JSON form of RIPS.
  - A quality validator records anomalies per consultation and grades the data
    (`Calidad`).
  - An advanced validator covers age and sex coherence, outbreak detection, risk groups
    and public-health events (`Avanzado`, `AvanzadoBrote`, `AvanzadoGrupos`,
    `AvanzadoEventos`).
  - A loader supplies ages and diagnosis look-ups (`Cargador`).
  - The table generator supplies age units, life-course stages, regimes, date formats and
    user de-duplication (`Tablas`).
- **ESEPValidador**, a column-by-column validator for the ESE spreadsheet. It reports
  numbered error codes per column and checks weight and height against age bands (`Ese`).

Shared modules model what the code borrows from Python:
- `Text`: `str.strip`, `split`, `join`, `upper`, `re.sub(r'\s+', ' ', ·)`, `int()` and `float()`;
- `Dates`: the calendar, `strptime` and `strftime` for `%d/%m/%Y` and `%Y-%m-%d`, and whole-year ages;
- `Patterns`: the regular expressions used;
- `Json`: JSON values and `dict.get`;
- `Counters`: ordered `defaultdict(int)` counters with `most_common`.

Where the code reads the clock, the model takes "today" (or the cut-off date) as a
parameter. Operations that only compute are functions. Objects whose methods update
fields are classes, and each of their methods is proved against a function of the old
state: `ValidatorApp`, `AutoCorrector`, `CrossFileValidator`, `DuplicateAttentionDetector`,
`Cie10Validator`, the catalog `Registry`, `RipsFileReader`, `ValidadorCalidadRIPS` and `ValidadorESE`.

## Model

| member | source | states |
|---|---|---|
| Validators.IsEmptyIff | ErroresJSON/src/validators.py:13-15 | `is_empty` holds exactly for `None` and for texts made only of whitespace |
| Validators.ValidateRequired | ErroresJSON/src/validators.py:18-27 | a value is accepted exactly when it is not blank; otherwise the "obligatorio" message for that field |
| Validators.ValidateFormat | ErroresJSON/src/validators.py:34-66 | an empty optional date is accepted without a date; a date is returned exactly for a `DD/MM/YYYY` text naming a real calendar day, not in the future and not before 1900, and it is that day; an empty required date gets the "required" message |
| Validators.FormatFollowsRegexAndStrptime | ErroresJSON/src/validators.py:44-66 | the checks come in source order: a text the `^\d{2}/\d{2}/\d{4}$` pattern refuses gets the format message, a text `strptime('%d/%m/%Y')` refuses gets the invalid-date message, then the future and 1900 bounds |
| Validators.ValidateDateRange | ErroresJSON/src/validators.py:68-83 | accepted exactly when both ends are good dates and the end is not before the start; a bad start is reported before a bad end, and a start after the end gets the range message |
| Validators.RangeAcceptsEqualEnds | ErroresJSON/src/validators.py:79-83 | a range whose two ends are the same good date is accepted (the comparison is strict) |
| Validators.ValidateAgeConsistency | ErroresJSON/src/validators.py:86-100 | fails only when both dates are good and the birth date is after the attention date, with that message; the age and its unit are not consulted |
| Validators.ValidateInteger | ErroresJSON/src/validators.py:107-128 | accepted exactly when the value is empty and optional, or Python's `int()` reads it and it lies within the given bounds; empty-required and not-an-integer get their own messages |
| Validators.IntegerBoundsInclusive | ErroresJSON/src/validators.py:117-126 | the bounds are inclusive: `str(n)` is accepted with bounds `lo`, `hi` exactly when `lo <= n <= hi` |
| Validators.ValidateDecimal | ErroresJSON/src/validators.py:131-152 | accepted exactly when the value is empty and optional, or Python's `float()` reads it and it is within the bounds (NaN compares false both ways); empty-required and not-a-decimal get their own messages |
| Validators.DecimalMinInclusive | ErroresJSON/src/validators.py:141-150 | the minimum is inclusive: an integer text is accepted with minimum `lo` exactly when it is at least `lo` |
| Validators.ValidateLength | ErroresJSON/src/validators.py:159-171 | accepted exactly when empty and optional, or non-empty with raw length at most the maximum; a longer value gets the message naming both lengths |
| Validators.ValidateExactLength | ErroresJSON/src/validators.py:174-186 | accepted exactly when empty and optional, or non-empty with exactly the given length; otherwise the message naming both lengths |
| Validators.CodeIn | ErroresJSON/src/validators.py:193-306 | the shared shape of the code-set validators: accepted exactly when the value is one of the codes; an empty value gets the "required" message; a non-empty value outside the codes gets the given invalid-value message |
| Validators.ValidateDocumentType | ErroresJSON/src/validators.py:193-206 | accepted exactly when the value is one of the twelve document types; empty gets "required", anything else the invalid-type message |
| Validators.ValidateSex | ErroresJSON/src/validators.py:209-222 | accepted exactly for `M` and `F`; empty gets "required"; any other non-empty value gets the "debe ser 'M' o 'F'" message quoting it |
| Validators.ValidateAgeUnit | ErroresJSON/src/validators.py:225-238 | accepted exactly for `1`, `2` and `3`; empty gets "required"; any other non-empty value gets the unit message quoting it |
| Validators.ValidateZone | ErroresJSON/src/validators.py:241-254 | accepted exactly for `U` and `R`; empty gets "required"; any other non-empty value gets the "'U' (Urbana) o 'R' (Rural)" message quoting it |
| Validators.ValidateUserType | ErroresJSON/src/validators.py:294-307 | accepted exactly for `1` to `4`; empty gets "required"; any other non-empty value gets the user-type message quoting it |
| Validators.ValidateCie10Format | ErroresJSON/src/validators.py:257-273 | accepted exactly when empty and optional, or the code is a capital letter, two digits and an optional digit or `X`; empty-required gets "obligatorio cuando aplica"; a rejected non-empty code gets the CIE10 format message quoting it |
| Validators.ValidateCupsFormat | ErroresJSON/src/validators.py:276-291 | accepted exactly when empty and optional, or the code is six digits; empty-required gets "required"; a rejected non-empty code gets the six-digit CUPS message quoting it |
| Validators.OptionalAcceptsEmpty | ErroresJSON/src/validators.py:34-291 | with `required=False` every validator that has the flag accepts an empty value |
| Models.AFRecord.Fields | ErroresJSON/src/models.py:9-27 | an AF record has its seventeen values, in the order of the file's columns |
| Models.AFFieldsOfFromFields | ErroresJSON/src/file_reader.py:55-73 | the AF record built from a line's seventeen fields lists those fields again, in order |
| Models.AFFromFieldsOfFields | ErroresJSON/src/file_reader.py:55-73 | an AF record is determined by its fields (building from them gives it back) |
| Models.USRecord.Fields | ErroresJSON/src/models.py:31-47 | a US record has its fifteen values, in column order |
| Models.USFieldsOfFromFields | ErroresJSON/src/file_reader.py:90-106 | the US record built from a line's fifteen fields lists those fields again, in order |
| Models.USFromFieldsOfFields | ErroresJSON/src/file_reader.py:90-106 | a US record is determined by its fields |
| Models.ACRecord.Fields | ErroresJSON/src/models.py:51-75 | an AC record has its values in column order |
| Models.ACFieldsOfFromFields | ErroresJSON/src/file_reader.py:123-146 | the AC record built from a line's fields lists those fields again, in order |
| Models.ACFromFieldsOfFields | ErroresJSON/src/file_reader.py:123-146 | an AC record is determined by its fields |
| Models.APRecord.Fields | ErroresJSON/src/models.py:78-102 | an AP record has its values in column order |
| Models.APFieldsOfFromFields | ErroresJSON/src/file_reader.py:163-186 | the AP record built from a line's fields lists those fields again, in order |
| Models.APFromFieldsOfFields | ErroresJSON/src/file_reader.py:163-186 | an AP record is determined by its fields |
| Models.ATRecord.Fields | ErroresJSON/src/models.py:105-121 | an AT record has its values in column order |
| Models.ATFieldsOfFromFields | ErroresJSON/src/file_reader.py:203-218 | the AT record built from a line's fields lists those fields again, in order |
| Models.ATFromFieldsOfFields | ErroresJSON/src/file_reader.py:203-218 | an AT record is determined by its fields |
| Models.AHRecord.Fields | ErroresJSON/src/models.py:124-148 | an AH record has its values in column order |
| Models.AHFieldsOfFromFields | ErroresJSON/src/file_reader.py:235-258 | the AH record built from a line's fields lists those fields again, in order |
| Models.AHFromFieldsOfFields | ErroresJSON/src/file_reader.py:235-258 | an AH record is determined by its fields |
| Rules.Report | ErroresJSON/src/rules.py:44-46 | a failed check appends exactly one error, at the given file and line, on the check's field, carrying the validator's message; a passed check appends nothing |
| Rules.FormatVerdict | ErroresJSON/src/rules.py:73-75 | the date validator's result fails exactly when the date was rejected |
| Rules.OptionalCie10Verdict | ErroresJSON/src/rules.py:235-238 | an optional diagnosis fails exactly when it is given and not in ICD-10 format, and then with the format validator's message; that message is the CIE10 format message quoting the value |
| Rules.FieldNamesAppend | ErroresJSON/src/rules.py:40-107 | the fields of two error lists appended are the fields of the first followed by those of the second |
| Rules.LengthReport | ErroresJSON/src/rules.py:44-46 | at most one error, at the record's line; none exactly when the text is non-blank and fits the limit; a blank text gives the "required" message and an over-long one the "too long" message with limit and length, on the given field |
| Rules.IntegerReport | ErroresJSON/src/rules.py:48-50 | at most one error; none exactly when the text is an integer within the bounds; blank gives the numeric "required" message, a non-integer the "not an integer" message |
| Rules.DecimalReport | ErroresJSON/src/rules.py:103-105 | at most one error; none exactly when the text is a decimal not below zero; blank gives the numeric "required" message, a non-number the "not a decimal" message |
| Rules.DocumentTypeReport | ErroresJSON/src/rules.py:58-60 | at most one error; none exactly when the document type is one of the known codes; blank gives "required", an unknown code the "bad document type" message naming it |
| Rules.DateReport | ErroresJSON/src/rules.py:73-75 | at most one error; none exactly when the date is a good DD/MM/YYYY date; a bad date carries the date validator's own message |
| Rules.RangeReport | ErroresJSON/src/rules.py:88-90 | at most one error, on the range's field; none exactly when both dates are good and ordered; a bad start carries the start's date message, a bad end the end's, reversed dates the range-order message naming both |
| Rules.CupsReport | ErroresJSON/src/rules.py:215-217 | at most one error; none exactly when the code is six digits; blank gives "required", any other value the CUPS format message quoting it |
| Rules.Cie10Report | ErroresJSON/src/rules.py:230-232 | at most one error; none exactly when the diagnosis is in ICD-10 format; blank gives the diagnosis "required" message, a malformed non-blank one the CIE10 format message quoting it |
| Rules.OptionalCie10Report | ErroresJSON/src/rules.py:235-238 | at most one error; none exactly when the diagnosis is blank or in ICD-10 format; a malformed given one gets exactly one error with the CIE10 format message quoting it |
| Rules.SexReport | ErroresJSON/src/rules.py:159-161 | at most one error; none exactly when the sex is M or F; blank gives "required", any other value the sex message quoting it |
| Rules.AgeUnitReport | ErroresJSON/src/rules.py:154-156 | at most one error; none exactly when the unit is 1, 2 or 3; blank gives "required", any other value the age-unit message quoting it |
| Rules.ZoneReport | ErroresJSON/src/rules.py:174-176 | at most one error; none exactly when the zone is U or R; blank gives "required", any other value the zone message quoting it |
| Rules.UserTypeReport | ErroresJSON/src/rules.py:134-136 | at most one error; none exactly when the user type is 1 to 4; blank gives "required", any other value the user-type message quoting it |
| Rules.AFProviderErrors | ErroresJSON/src/rules.py:43-65 | at most five errors, all at the record's line, on the fields, in order: cod_prestador when blank or over 12, cod_prestador again when not an integer, nombre_prestador over 60, tipo_documento_prestador unknown, num_documento_prestador over 20; none exactly when all pass |
| Rules.AFInvoiceErrors | ErroresJSON/src/rules.py:67-90 | at most five errors at the record's line, on, in order: num_factura over 20, fecha_expedicion, fecha_inicio, fecha_final each when not a good date, fecha_inicio/fecha_final when the period is not two good ordered dates; none exactly when all pass |
| Rules.AFPayerErrors | ErroresJSON/src/rules.py:92-105 | at most three errors at the record's line, on, in order: cod_entidad_administradora over 6, nombre_entidad_administradora over 60, valor_neto not a decimal at least zero; none exactly when all pass |
| Rules.ValidateAF | ErroresJSON/src/rules.py:39-107 | at most thirteen errors, all at the record's line, whose fields are the provider's, then the invoice's, then the payer's, in that order; none exactly when the whole AF record is acceptable |
| Rules.USIdentificationErrors | ErroresJSON/src/rules.py:118-126 | fields in order: tipo_documento unknown, num_documento over 20; none exactly when both pass |
| Rules.USAffiliationErrors | ErroresJSON/src/rules.py:128-136 | fields in order: cod_entidad_administradora over 6, tipo_usuario not 1 to 4; none exactly when both pass |
| Rules.USPersonErrors | ErroresJSON/src/rules.py:138-161 | fields in order: primer_apellido and primer_nombre over 60, edad not an integer from 0 to 150, unidad_medida_edad not 1 to 3, sexo not M or F; none exactly when all pass |
| Rules.USResidenceErrors | ErroresJSON/src/rules.py:163-176 | fields in order: cod_departamento over 2, cod_municipio over 3, zona_residencial not U or R; none exactly when all pass |
| Rules.ValidateUS | ErroresJSON/src/rules.py:114-178 | at most twelve errors at the record's line, whose fields are the identification, affiliation, person and residence fields in that order; none exactly when the whole US record is acceptable |
| Rules.ACIdentificationErrors | ErroresJSON/src/rules.py:189-207 | fields in order: num_factura over 20, cod_prestador over 12, tipo_documento unknown, num_documento over 20; none exactly when all pass |
| Rules.ACServiceErrors | ErroresJSON/src/rules.py:209-227 | fields in order: fecha_consulta not a good date, cod_consulta not six digits, finalidad_consulta and causa_externa not integers; none exactly when all pass |
| Rules.ACDiagnosesErrors | ErroresJSON/src/rules.py:229-253 | fields in order: diagnostico_principal not ICD-10, each diagnostico_relacionado1..3 given and not ICD-10, tipo_diagnostico_principal not an integer; none exactly when all pass |
| Rules.ACValuesErrors | ErroresJSON/src/rules.py:255-263 | fields in order: valor_consulta, valor_neto, each when not a decimal at least zero; none exactly when both pass |
| Rules.ACPatientErrors | ErroresJSON/src/rules.py:265-278 | fields in order: edad not an integer from 0 to 150, unidad_medida_edad not 1 to 3, sexo not M or F; none exactly when all pass |
| Rules.ValidateAC | ErroresJSON/src/rules.py:185-280 | at most eighteen errors at the record's line, whose fields are the identification, service, diagnoses, values and patient fields in that order; none exactly when the whole AC record is acceptable |
| Rules.APIdentificationErrors | ErroresJSON/src/rules.py:292-310 | fields in order: num_factura over 20, cod_prestador over 12, tipo_documento unknown, num_documento over 20; none exactly when all pass |
| Rules.APServiceErrors | ErroresJSON/src/rules.py:312-320 | fields in order: fecha_procedimiento not a good date, cod_procedimiento not six digits; none exactly when both pass |
| Rules.APDiagnosesErrors | ErroresJSON/src/rules.py:322-337 | fields in order: diagnostico_principal not ICD-10, diagnostico_relacionado and complicacion given and not ICD-10; none exactly when all pass |
| Rules.APValuesErrors | ErroresJSON/src/rules.py:339-347 | fields in order: valor_procedimiento, valor_neto, each when not a decimal at least zero; none exactly when both pass |
| Rules.APPatientErrors | ErroresJSON/src/rules.py:349-360 | fields in order: edad not an integer from 0 to 150, unidad_medida_edad not 1 to 3, sexo not M or F; none exactly when all pass |
| Rules.ValidateAP | ErroresJSON/src/rules.py:287-362 | at most fourteen errors at the record's line, whose fields are the identification, service, diagnoses, values and patient fields in that order; none exactly when the whole AP record is acceptable |
| Rules.ATIdentificationErrors | ErroresJSON/src/rules.py:373-391 | fields in order: num_factura over 20, cod_prestador over 12, tipo_documento unknown, num_documento over 20; none exactly when all pass |
| Rules.ATServiceErrors | ErroresJSON/src/rules.py:393-416 | fields in order: cod_servicio not six digits, then cantidad, valor_unitario, valor_total, valor_neto each when not a decimal at least zero; none exactly when all pass |
| Rules.ValidateAT | ErroresJSON/src/rules.py:369-418 | at most nine errors at the record's line, whose fields are the identification then the service fields; none exactly when the whole AT record is acceptable |
| Rules.AHIdentificationErrors | ErroresJSON/src/rules.py:429-437 | fields in order: num_factura over 20, tipo_documento unknown; none exactly when both pass |
| Rules.AHStayErrors | ErroresJSON/src/rules.py:439-462 | fields in order: fecha_ingreso not a good date, diagnostico_ingreso and diagnostico_egreso not ICD-10, fecha_egreso not a good date, fecha_ingreso/fecha_egreso when not two good ordered dates; none exactly when all pass |
| Rules.AHValuesErrors | ErroresJSON/src/rules.py:464-472 | fields in order: valor_hospitalizacion, valor_neto, each when not a decimal at least zero; none exactly when both pass |
| Rules.ValidateAH | ErroresJSON/src/rules.py:425-474 | at most nine errors at the record's line, whose fields are the identification, stay and values fields in that order; none exactly when the whole AH record is acceptable |
| Rules.FlaggedTwice | ErroresJSON/src/rules.py:44-50 | two checks on the same field lead the field list exactly when both fail, when no later check names that field |
| Rules.AFProviderCodeTwice | ErroresJSON/src/rules.py:44-50 | the provider's first two error fields are both cod_prestador exactly when the code is blank or over 12 characters and also not an integer |
| Rules.FlaggedFirstAndLast | ErroresJSON/src/rules.py:439-462 | a check that fails first and one that fails last put their fields first and last |
| Rules.FlaggedMiddleAndLast | ErroresJSON/src/rules.py:67-90 | a failing check in the middle and a failing last check put their fields in the list and last |
| Rules.RangeRepeatsStartMessage | ErroresJSON/src/rules.py:78-90 | a bad start date is reported by its own date check and by the range check with the same message |
| Rules.AFInvoiceStartTwice | ErroresJSON/src/rules.py:78-90 | a bad fecha_inicio is reported on fecha_inicio and again, last, on fecha_inicio/fecha_final |
| Rules.AHStayAdmissionTwice | ErroresJSON/src/rules.py:440-462 | a bad fecha_ingreso is the stay's first error field and is reported again, last, on fecha_ingreso/fecha_egreso |
| FileReader.Code | ErroresJSON/src/file_reader.py:39 | every kind's code in a file name is two upper-case letters |
| FileReader.KindOfCode | ErroresJSON/src/file_reader.py:39-41 | an upper-case code names a kind only when it is that kind's code |
| FileReader.KindOfCodeInverse | ErroresJSON/src/file_reader.py:39-41 | every kind is found again from its code |
| FileReader.DetectFileType | ErroresJSON/src/file_reader.py:28-42 | a kind is detected exactly when some position of the name matches code, digits and `.txt` (case ignored) ending the name or followed by one final newline, and then it is the upper-cased code at that position |
| FileReader.OnlyMatchAtRun | ErroresJSON/src/file_reader.py:39 | every match starts two characters before the run of digits that ends at the `.txt`, so the search's first match is the only one |
| FileReader.UniqueMatch | ErroresJSON/src/file_reader.py:39 | a match can only start two characters before the digit run ending at the `.txt` |
| FileReader.DetectAllowsFinalNewline | ErroresJSON/src/file_reader.py:39 | `$` also matches before one final newline: a name followed by `\n` is detected as the name alone (`AC1.txt\n` is an AC file) |
| FileReader.DetectIgnoresCase | ErroresJSON/src/file_reader.py:39-41 | a kind's code in any case, followed by digits and `.txt` in any case, is detected as that kind |
| FileReader.BaseName | ErroresJSON/src/file_reader.py:276 | the base name is the part of the path after its last `/`: a suffix of the path holding no `/` |
| FileReader.LineFields | ErroresJSON/src/file_reader.py:47 | `line.strip().split(',')` always has at least one field |
| FileReader.FromFields | ErroresJSON/src/file_reader.py:45-263 | the record built from a line's fields is of the file's kind |
| FileReader.KindOf | ErroresJSON/src/file_reader.py:45-263 | every record comes from one of the six checked kinds |
| FileReader.FieldsOfFromFields | ErroresJSON/src/file_reader.py:45-263 | the record built from fields lists those fields again |
| FileReader.FromFieldsOfFields | ErroresJSON/src/file_reader.py:45-263 | a record has its kind's number of fields and is determined by its kind and fields |
| FileReader.ParseLine | ErroresJSON/src/file_reader.py:45-263 | a line gives a record exactly when its kind is checked and it has the expected number of fields; the record is of that kind; a wrong count gives the one field-count message; AM, AN and CT lines give neither |
| FileReader.ParseLineFields | ErroresJSON/src/file_reader.py:47-73 | on success, the i-th field of the line is the i-th declared field of the record |
| FileReader.ParseJoinedFields | ErroresJSON/src/file_reader.py:45-263 | writing a record's fields as a comma-separated line and parsing it gives the record back, when no field holds a comma and the line is unpadded |
| FileReader.JoinedFields | ErroresJSON/src/file_reader.py:47 | the fields of a line joined from comma-free fields, unpadded, are those fields |
| FileReader.RecordLocated | ErroresJSON/src/file_reader.py:321-332 | the rule sets report every error at the record's file and line |
| FileReader.RuleSetsLocated | ErroresJSON/src/file_reader.py:321-332 | the check the reader runs on each record locates its errors |
| FileReader.StructureErrors | ErroresJSON/src/file_reader.py:309-316 | one 'estructura_archivo' error per structural message, in order |
| FileReader.ReadLine | ErroresJSON/src/file_reader.py:291-340 | one turn of the loop: blank lines are skipped uncounted; a counted line adds its structural errors and a parse error, or its rule errors and an invalid line, or a valid line |
| FileReader.CountedStep | ErroresJSON/src/file_reader.py:292-297 | a line that is not blank is counted, then tallied |
| FileReader.TallyLine | ErroresJSON/src/file_reader.py:309-340 | the rest of a turn, once the line is counted and parsed, is the tally of its parse |
| FileReader.ScanNext | ErroresJSON/src/file_reader.py:291 | reading one more line extends the errors and counters by that line's step, numbered from 1 |
| FileReader.ScanLines | ErroresJSON/src/file_reader.py:290-340 | the loop over a file's lines computes exactly the scan of those lines |
| FileReader.NonBlank | ErroresJSON/src/file_reader.py:293-297 | the counted lines are at most all lines |
| FileReader.TallyAccounts | ErroresJSON/src/file_reader.py:309-340 | tallying leaves the total alone, classifies a line that gave a record or messages, and flags it exactly when it adds errors |
| FileReader.ScanAccounts | ErroresJSON/src/file_reader.py:280-340 | every non-blank line is counted, no counted line is classified twice, and the file has no errors exactly when no line was flagged |
| FileReader.ScanCounts | ErroresJSON/src/file_reader.py:280-340 | the total is the number of non-blank lines, and valid, invalid and unparsable lines together never exceed it |
| FileReader.ScanFlags | ErroresJSON/src/file_reader.py:280-340 | each flagged line adds at least one error, and the file has no errors exactly when no line was flagged |
| FileReader.CheckedScanBalances | ErroresJSON/src/file_reader.py:300-340 | for the six checked kinds every counted line is either a parse error or a valid or invalid line |
| FileReader.CheckedParseClassifies | ErroresJSON/src/file_reader.py:300-311 | a line of a checked kind parses into a record or into structural messages |
| FileReader.UncheckedScanIsSilent | ErroresJSON/src/file_reader.py:300-311 | AM, AN and CT lines are counted and nothing else: no errors, no classification |
| FileReader.StepLocated | ErroresJSON/src/file_reader.py:309-337 | the errors of one turn are at that line, and only a counted line has any |
| FileReader.ScanLocated | ErroresJSON/src/file_reader.py:291-337 | every error of a scan names the file and a non-blank line of it, numbered from 1 |
| FileReader.RipsFileReader.constructor | ErroresJSON/src/file_reader.py:321-332 | the table of rule sets gives, for every file name, the validator of the record's kind |
| FileReader.RipsFileReader.ReadAndValidateFile | ErroresJSON/src/file_reader.py:265-362 | an unrecognised name gives one 'nombre_archivo' error at line 0 and no counters; otherwise the kind, and the errors and counters of the scan, with an 'archivo' error at line 0 for a missing or unreadable file |
| Patterns.Cie10Shape | ErroresJSON/src/validators.py:269-271 | `^[A-Z]\d{2}[0-9X]?$` accepts exactly a capital letter, two digits and an optional digit or `X` |
| Patterns.CupsShape | ErroresJSON/src/validators.py:287-289 | `^\d{6}$` accepts exactly six digits |
| Patterns.DmyShapeIff | ErroresJSON/src/validators.py:44-46 | `^\d{2}/\d{2}/\d{4}$` accepts exactly two digits, a slash, two digits, a slash and four digits |
| Patterns.DiagnosisShape | AnalisisJSON/src/validador_calidad.py:248 | `^[A-Z][0-9]{2,3}[0-9A-Z]?$` accepts exactly a capital letter, two or three digits and an optional digit or capital, three to five characters in all |
| Cie10.Lookup | ErroresJSON/src/cie10_catalog.py:234-244 | `dict.get` on an insertion-ordered table: a value is found exactly when the key is present, and it is the value paired with that key |
| Cie10.Matching | ErroresJSON/src/cie10_catalog.py:276-281 | the keys that start with the prefix, in catalog order, each a key of the catalog |
| Cie10.MatchingComplete | ErroresJSON/src/cie10_catalog.py:276-281 | every key that starts with the prefix is among the matches |
| Cie10.MatchingPrefix | ErroresJSON/src/cie10_catalog.py:276-281 | the matches among the first keys begin the matches among all keys |
| Cie10.Cap | ErroresJSON/src/cie10_catalog.py:278-280 | the loop stops after `max` suggestions, and after at least one since the test follows the append |
| Cie10.Prefix3 | ErroresJSON/src/cie10_catalog.py:274 | `code[:3]` is the code's first three characters, or all of a shorter code |
| Cie10.Suggestions | ErroresJSON/src/cie10_catalog.py:260-283 | nothing for a code shorter than 2; otherwise at most `Cap(max)` keys, each starting with `code[:3]`, a prefix of all such keys in catalog order |
| Cie10.NoMatches | ErroresJSON/src/cie10_catalog.py:276-281 | when no key starts with the prefix nothing matches |
| Cie10.NoChapterNoSuggestion | ErroresJSON/src/cie10_catalog.py:260-283 | a code whose first character begins no key gets no suggestion |
| Cie10.MatchingNext | ErroresJSON/src/cie10_catalog.py:276-281 | one more key extends the matches by that key exactly when it starts with the prefix |
| Cie10.SuggestionsStop | ErroresJSON/src/cie10_catalog.py:276-283 | the loop may stop once it holds `Cap(max)` matches or has seen every key: what it holds then is the suggestion list |
| Cie10.Catalog.constructor | ErroresJSON/src/cie10_catalog.py:11-16 | the catalog holds the standard code and chapter tables, which line up and in which every code starts with a chapter letter |
| Cie10.Catalog.GetDescription | ErroresJSON/src/cie10_catalog.py:234-244 | a description exactly for a code of the table, and it is that code's title |
| Cie10.Catalog.GetChapter | ErroresJSON/src/cie10_catalog.py:246-258 | a chapter exactly for a non-empty code whose first character is a chapter letter, and it is that chapter's title |
| Cie10.Catalog.SuggestSimilarCodes | ErroresJSON/src/cie10_catalog.py:260-283 | the loop with its early `break` returns exactly the suggestion list |
| Cie10.Catalog.ValidateWithSuggestion | ErroresJSON/src/cie10_catalog.py:285-308 | valid exactly when `is_valid_code` holds, with "Código válido: " and the description or chapter; a rejected code gets no suggestions and the no-suggestion message |
| Cie10.CodeKeysHaveChapters | ErroresJSON/src/cie10_catalog.py:48-207 | every code of the table starts with one of the chapter letters |
| Cie10.ValidIffKnown | ErroresJSON/src/cie10_catalog.py:209-232 | a code is valid exactly when it has a description or a chapter |
| Cie10.StandardRejects | ErroresJSON/src/cie10_catalog.py:209-232 | in the standard catalog a code starting with `U` or a lower-case letter is rejected: `U` is no chapter and the check is case-sensitive |
| Cie10.RejectedHasNoSuggestions | ErroresJSON/src/cie10_catalog.py:260-308 | a rejected code never gets a suggestion from a valid catalog |
| Cie10.Registry.GetCatalog | ErroresJSON/src/cie10_catalog.py:311-322 | the first call builds the standard catalog; every later call returns that same object |
| Counters.Elements | ErroresJSON/src/cross_validator.py:46 | the set of a sequence's values holds exactly those values |
| Counters.ElementsSnoc | ErroresJSON/src/cross_validator.py:46 | adding one value to the sequence adds it to the set |
| Counters.Bump | ErroresJSON/src/advanced_validators.py:130 | `counter[key] += 1` on a `defaultdict(int)`: that key's count grows by one, a new key goes last, every other key and the order are unchanged |
| Counters.NotCountedIsZero | ErroresJSON/src/advanced_validators.py:96 | a key the counter does not hold counts 0, as `defaultdict(int)` gives |
| Counters.CountAt | ErroresJSON/src/cross_validator.py:296 | iterating `items()` gives each key with its count |
| Counters.RepeatedMembers | ErroresJSON/src/cross_validator.py:296-297 | the entries kept are exactly those whose count exceeds one |
| Counters.RepeatedIff | ErroresJSON/src/cross_validator.py:296-297 | a key is reported exactly when it was counted more than once, and with that count |
| Counters.BumpTotal | ErroresJSON/src/cross_validator.py:47-48 | each increment adds exactly one to the counter's total |
| Counters.BumpAll | ErroresJSON/src/cross_validator.py:44-48 | counting every key in turn keeps one entry per key |
| Counters.BumpAllSnoc | ErroresJSON/src/cross_validator.py:44-48 | counting one more key is one more increment |
| Counters.BumpAllAppend | ErroresJSON/src/cross_validator.py:44-48 | counting two files' keys is counting the first, then the second |
| Counters.BumpAllCounts | ErroresJSON/src/cross_validator.py:44-48 | after counting, every key's count grew by its number of occurrences |
| Counters.BumpAllTotal | ErroresJSON/src/cross_validator.py:44-48 | after counting, the total grew by the number of keys counted |
| Counters.CountedKeys | ErroresJSON/src/cross_validator.py:44-48 | a set that holds exactly the counted keys still does once more keys are counted and added to it |
| Counters.Insert | ErroresJSON/src/advanced_validators.py:157 | inserting into a list sorted by decreasing count keeps it sorted and adds one entry |
| Counters.InsertAdds | ErroresJSON/src/advanced_validators.py:157 | insertion adds exactly the inserted entry |
| Counters.SortByCount | ErroresJSON/src/advanced_validators.py:157 | `sorted(..., key=count, reverse=True)` is in decreasing count order and a permutation of its input |
| Counters.WithCountAppend | ErroresJSON/src/advanced_validators.py:157 | the entries of a given count distribute over appending |
| Counters.InsertStable | ErroresJSON/src/advanced_validators.py:157 | insertion puts an entry after those with its own count |
| Counters.SortStable | ErroresJSON/src/advanced_validators.py:157 | the sort is stable: for every count, the entries with that count keep their original order |
| Counters.PyHead | ErroresJSON/src/advanced_validators.py:157 | `s[:limit]` is a prefix, of length `limit` capped at `|s|` for a non-negative limit |
| Counters.TopCounts | ErroresJSON/src/advanced_validators.py:148-157 | the most common entries: in decreasing count order, `limit` of them (or all), drawn from the counter |
| Counters.TopCountsAreLargest | ErroresJSON/src/advanced_validators.py:148-157 | no entry left out of the top list has a higher count than an entry in it |
| Advanced.SeenComplete | ErroresJSON/src/advanced_validators.py:58-77 | after a bucket is scanned, every `(tipo, codigo)` signature occurring in it is in `seen` |
| Advanced.SeenWitness | ErroresJSON/src/advanced_validators.py:58-77 | what `seen` holds for a signature is the first attention carrying it |
| Advanced.DuplicateIsRepeat | ErroresJSON/src/advanced_validators.py:58-77 | every reported error is a later attention repeating an earlier one's kind and code, and it cites the first occurrence |
| Advanced.RepeatReported | ErroresJSON/src/advanced_validators.py:58-77 | conversely, every attention repeating an earlier one is reported, citing the first occurrence |
| Advanced.FirstBefore | ErroresJSON/src/advanced_validators.py:58-77 | the first occurrence of a signature comes no later than any attention carrying it |
| Advanced.FirstUnique | ErroresJSON/src/advanced_validators.py:58-77 | a signature has one first occurrence |
| Advanced.DuplicateCount | ErroresJSON/src/advanced_validators.py:58-77 | each attention is either the first of its signature or reported once: errors plus signatures equals attentions |
| Advanced.IdenticalAttentions | ErroresJSON/src/advanced_validators.py:58-77 | `n` identical attentions give `n - 1` errors |
| Advanced.NoDuplicatesIff | ErroresJSON/src/advanced_validators.py:58-77 | a bucket yields no error exactly when no two of its attentions share kind and code |
| Advanced.AllDuplicatesFromBuckets | ErroresJSON/src/advanced_validators.py:55-77 | every error of the detector comes from one bucket's repeat |
| Advanced.BucketInAllDuplicates | ErroresJSON/src/advanced_validators.py:55-77 | every error of every bucket is among the detector's errors |
| Advanced.DistinctKeyCount | ErroresJSON/src/advanced_validators.py:82-87 | the keys are distinct, so their number is the number of buckets |
| Advanced.DuplicateAttentionDetector.constructor | ErroresJSON/src/advanced_validators.py:17-21 | no buckets, no keys and no duplicates found |
| Advanced.DuplicateAttentionDetector.RegisterAttention | ErroresJSON/src/advanced_validators.py:23-44 | the attention is appended to the bucket of `(tipo_doc, num_doc, fecha)`, a new key goes last, nothing else changes |
| Advanced.DuplicateAttentionDetector.DetectDuplicates | ErroresJSON/src/advanced_validators.py:46-80 | returns and stores the duplicates of every bucket, buckets in registration order; the buckets are unchanged |
| Advanced.DuplicateAttentionDetector.GetStatistics | ErroresJSON/src/advanced_validators.py:82-87 | one user entry per registered patient-day, and the number of errors of the last detection |
| Advanced.ScanBucket | ErroresJSON/src/advanced_validators.py:58-77 | the inner loop, with a fresh `seen` dictionary, returns exactly the bucket's duplicates |
| Advanced.BucketStep | ErroresJSON/src/advanced_validators.py:60-77 | one more attention either extends `seen` or adds one error citing the attention `seen` holds |
| Advanced.SmallBucket | ErroresJSON/src/advanced_validators.py:56 | a bucket of one attention has nothing to repeat, so skipping it changes nothing |
| Advanced.CodeErrors | ErroresJSON/src/advanced_validators.py:98-145 | at most one error, on the field at the line; none exactly when a blank code is optional or a present code is valid; a blank required code and a rejected code get their messages |
| Advanced.BlankCodeIgnoresCatalog | ErroresJSON/src/advanced_validators.py:115-123 | a blank code is never looked up: the catalog does not change the result |
| Advanced.Cie10Validator.constructor | ErroresJSON/src/advanced_validators.py:93-96 | the validator takes the registry's catalog and starts with an empty counter |
| Advanced.Cie10Validator.ValidateCode | ErroresJSON/src/advanced_validators.py:98-145 | returns the code's errors, and the counter grows by one for that code exactly when a present code is rejected |
| Advanced.CupsPrefix | ErroresJSON/src/advanced_validators.py:234 | the prefix is the code's first two characters, or empty for a shorter code |
| Advanced.ValidateCoherence | ErroresJSON/src/advanced_validators.py:207-260 | nothing for a finality without a rule; otherwise one error when a given CUPS code does not start with an expected prefix, then one when a given diagnosis is outside the expected chapters; at most two, at the line, on the two fields |
| Advanced.RuledFinalities | ErroresJSON/src/advanced_validators.py:164-201 | only finalities 10, 11, 20, 30, 40, 50 and 60 are checked |
| Advanced.ShortCupsIncoherent | ErroresJSON/src/advanced_validators.py:233-235 | a one-character CUPS code never matches a prefix of the table |
| Advanced.TreatmentAlwaysCoherent | ErroresJSON/src/advanced_validators.py:186-190 | treatment (`40`) accepts any procedure and any diagnosis |
| Advanced.PreventiveExpectsChapterZ | ErroresJSON/src/advanced_validators.py:166-180 | finalities 10, 11 and 20 report a diagnosis exactly when it is not in chapter Z |
| Advanced.OneSidedRules | ErroresJSON/src/advanced_validators.py:181-200 | diagnosis (`30`) and palliation (`60`) check one side only, so they report at most one error |
| Advanced.ValidateGenderDiagnosis | ErroresJSON/src/advanced_validators.py:262-306 | one error exactly for a man with a women-only diagnosis (chapter O, N76, N80-N98) or a woman with a men-only one (N40-N51), with the matching message |
| Advanced.ExclusiveDiagnosesDisjoint | ErroresJSON/src/advanced_validators.py:281-286 | no diagnosis is exclusive to both sexes |
| Advanced.OtherSexNeverReported | ErroresJSON/src/advanced_validators.py:288-304 | sex values other than `M` and `F` are never reported |
| Advanced.AgeRulesExclusive | ErroresJSON/src/advanced_validators.py:339-357 | the perinatal and the senile rule concern different diagnoses, so at most one applies |
| Advanced.PerinatalThresholds | ErroresJSON/src/advanced_validators.py:333-340 | for a `P` diagnosis the rule fires from 1 year, 2 months or 37 days on |
| Advanced.SenileThresholds | ErroresJSON/src/advanced_validators.py:333-350 | for `G20X` and `G30X` the rule fires under 40 years, 480 months or 14600 days |
| Advanced.UnitLabelAsWritten | ErroresJSON/src/advanced_validators.py:343 | `int(unidad)` fails exactly when the unit is not an integer; the index is out of range exactly for integers outside -2..3; otherwise the label is one of años, meses, días |
| Advanced.AgeCoherenceAsWritten | ErroresJSON/src/advanced_validators.py:308-362 | at most one error at the line when the check returns; it raises exactly when a rule applies and the unit's label index is out of range |
| Advanced.AgeCoherence | ErroresJSON/src/advanced_validators.py:308-362 | the intended check: one error exactly when a rule applies, whatever the unit text is |
| Advanced.AgeCoherenceAgreesOnUnitCodes | ErroresJSON/src/advanced_validators.py:329-357 | for units 1, 2 and 3 the check as written and the intended check agree |
| Advanced.AgeCoherenceRaisesOnUnitFour | ErroresJSON/src/advanced_validators.py:343 | unit `4` with a perinatal diagnosis raises `IndexError`, where an error is intended |
| Advanced.AgeCoherenceDropsNonNumericUnit | ErroresJSON/src/advanced_validators.py:343-360 | a non-numeric unit with a perinatal diagnosis loses the error to the caught `ValueError` |
| Cross.InvoicesMembers | ErroresJSON/src/cross_validator.py:33-51 | an invoice number is counted by `register_af_data` exactly when some AF entry carries it non-empty |
| Cross.ProvidersMembers | ErroresJSON/src/cross_validator.py:33-51 | a provider code is collected exactly when some AF entry carries it non-empty |
| Cross.UsersMembers | ErroresJSON/src/cross_validator.py:53-69 | a patient is counted by `register_us_data` exactly when some US entry gives both document type and number |
| Cross.CountAfEntries | ErroresJSON/src/cross_validator.py:41-51 | the AF loop adds every non-empty invoice to the set and the counter, every non-empty provider to its set, and raises the total by the number of non-empty invoices, keeping the total equal to the counter's sum |
| Cross.CountUsEntries | ErroresJSON/src/cross_validator.py:61-69 | the US loop adds every complete patient to the set and the counter and raises the total by their number, keeping the total equal to the counter's sum |
| Cross.CrossFileValidator.constructor | ErroresJSON/src/cross_validator.py:13-31 | a new checker starts with empty sets, empty counters and zero statistics |
| Cross.CrossFileValidator.RegisterAfData | ErroresJSON/src/cross_validator.py:33-51 | invoices, their counter, providers and the AF total grow by the entries' non-empty values; the patient state is unchanged |
| Cross.CrossFileValidator.RegisterUsData | ErroresJSON/src/cross_validator.py:53-69 | patients, their counter and the US total grow by the entries' complete patients; the invoice and provider state is unchanged |
| Cross.RecordErrors | ErroresJSON/src/cross_validator.py:82-110 | one record yields one error for a missing invoice plus one for a missing patient, so zero, one or two errors |
| Cross.RecordErrorsMeaning | ErroresJSON/src/cross_validator.py:82-110 | a record has a 'num_factura' error iff its invoice is not in AF, and a patient error iff its complete patient is not in US, each quoting the value it did not find |
| Cross.RecordErrorsLocated | ErroresJSON/src/cross_validator.py:82-110 | every error of a record names the file and the record's line |
| Cross.ReferenceErrorLines | ErroresJSON/src/cross_validator.py:82-112 | every reported error is in the checked file, at the line of one of its records (numbered from `line_offset`) |
| Cross.MissingInvoices | ErroresJSON/src/cross_validator.py:87-96 | the number of records quoting a missing invoice is at most the number of records |
| Cross.MissingUsers | ErroresJSON/src/cross_validator.py:98-110 | the number of records naming a missing patient is at most the number of records |
| Cross.ReferenceErrorsAppend | ErroresJSON/src/cross_validator.py:82-112 | checking two consecutive blocks of records gives the first block's errors followed by the second's, numbered on |
| Cross.ReferenceErrorsAtLine | ErroresJSON/src/cross_validator.py:82-112 | the errors at the `k`-th record's line are exactly that record's own errors |
| Cross.RecordReported | ErroresJSON/src/cross_validator.py:82-112 | the `k`-th record gets an invoice error iff its invoice is missing from AF and a patient error iff its patient is missing from US |
| Cross.ReferenceErrorCount | ErroresJSON/src/cross_validator.py:82-112 | the number of errors equals the records with missing invoices plus the records with missing patients |
| Cross.OnlyFixDiffers | ErroresJSON/src/cross_validator.py:71-284 | the AC, AP, AT, AH and AM checks report the same errors at the same lines; they differ only in the suggested fix of invoice errors |
| Cross.CrossFileValidator.ValidateReferences | ErroresJSON/src/cross_validator.py:71-284 | the shared body of the reference checks returns the record errors and raises the two not-found statistics by the missing counts, changing nothing else |
| Cross.CrossFileValidator.ValidateAcReferences | ErroresJSON/src/cross_validator.py:71-112 | AC records are checked against AF invoices and US patients, with the AC fix text; only the not-found statistics change |
| Cross.CrossFileValidator.ValidateApReferences | ErroresJSON/src/cross_validator.py:114-155 | the same check for AP records |
| Cross.CrossFileValidator.ValidateAtReferences | ErroresJSON/src/cross_validator.py:157-198 | the same check for AT records |
| Cross.CrossFileValidator.ValidateAhReferences | ErroresJSON/src/cross_validator.py:200-241 | the same check for AH records |
| Cross.CrossFileValidator.ValidateAmReferences | ErroresJSON/src/cross_validator.py:243-284 | the same check for AM records |
| Cross.InvoiceDuplicateErrors | ErroresJSON/src/cross_validator.py:295-304 | one error per invoice counted more than once, in counter order |
| Cross.UserDuplicateErrors | ErroresJSON/src/cross_validator.py:306-316 | one error per patient counted more than once, in counter order |
| Cross.InvoiceDuplicateReported | ErroresJSON/src/cross_validator.py:295-304 | an invoice is reported, quoting its count, exactly when the counter holds it more than once |
| Cross.UserDuplicateReported | ErroresJSON/src/cross_validator.py:306-316 | a patient is reported, quoting its count, exactly when the counter holds it more than once |
| Cross.InvoiceDuplicateIff | ErroresJSON/src/cross_validator.py:33-51 | after registering AF entries, an invoice is reported duplicated exactly when it occurs more than once among the non-empty invoice numbers, quoting that number |
| Cross.UserDuplicateIff | ErroresJSON/src/cross_validator.py:53-69 | after registering US entries, a patient is reported duplicated exactly when it occurs more than once among the complete patients, quoting that number |
| Cross.CrossFileValidator.CheckDuplicates | ErroresJSON/src/cross_validator.py:286-318 | returns the invoice duplicates then the patient duplicates; `duplicados` grows by their number and nothing else changes |
| Cross.CrossFileValidator.GetStatistics | ErroresJSON/src/cross_validator.py:320-322 | returns the statistics, whose AF and US totals equal the counters' sums |
| Corrector.DateRecordedIff | ErroresJSON/src/auto_corrector.py:71-122 | a date is rewritten and recorded exactly when it is written year first (with `-` or `/`) or day first with dashes; blank input is handed back |
| Corrector.DateCorrected | ErroresJSON/src/auto_corrector.py:96-122 | a rewritten date has the `dd/mm/yyyy` shape and carries the original's day, month and year digits |
| Corrector.DateIdempotent | ErroresJSON/src/auto_corrector.py:71-122 | a corrected date is left alone, unrecorded, by a second pass |
| Corrector.TextCorrected | ErroresJSON/src/auto_corrector.py:124-165 | text comes back trimmed, with no whitespace run and upper-cased in name fields; it is recorded exactly when the input was not already so |
| Corrector.TextIdempotent | ErroresJSON/src/auto_corrector.py:124-165 | normalized text is left alone by a second pass |
| Corrector.TextChars | ErroresJSON/src/auto_corrector.py:143-152 | normalizing brings in no character other than blanks and upper-case letters |
| Corrector.NumericCorrected | ErroresJSON/src/auto_corrector.py:167-222 | a recorded number has numeric characters only and parses with `float()` or `int()`; one that does not parse once cleaned is handed back unchanged and unrecorded |
| Corrector.CleanedFixed | ErroresJSON/src/auto_corrector.py:186-196 | a text of numeric characters only is its own cleaned form |
| Corrector.NumericIdempotent | ErroresJSON/src/auto_corrector.py:167-222 | a corrected number is left alone by a second pass |
| Corrector.CupsCorrected | ErroresJSON/src/auto_corrector.py:265-307 | a CUPS code is rewritten exactly when, stripped, it holds a digit and is not already six digits; the rewrite keeps its digits in order, zero-padded or cut to six, and passes the CUPS format rule |
| Corrector.CupsIdempotent | ErroresJSON/src/auto_corrector.py:265-307 | a corrected CUPS code is left alone by a second pass |
| Corrector.SynonymsStandard | ErroresJSON/src/auto_corrector.py:327-338 | no standard spelling is itself a key of the synonym map, and every standard spelling is a document type |
| Corrector.DocumentTypeCorrected | ErroresJSON/src/auto_corrector.py:309-357 | a document type is rewritten exactly when its stripped, upper-cased form is a known synonym, into a valid type; anything else, even lower case, comes back untouched |
| Corrector.DocumentTypeIdempotent | ErroresJSON/src/auto_corrector.py:309-357 | a standardized document type is left alone by a second pass |
| Corrector.Cie10NeverSuggests | ErroresJSON/src/auto_corrector.py:224-263 | with a well-formed catalog no CIE-10 suggestion is ever made, so the method never records |
| Corrector.WithConfidenceMembers | ErroresJSON/src/auto_corrector.py:359-369 | the confidence filter keeps exactly the records of that confidence, in order |
| Corrector.ConfidencePartition | ErroresJSON/src/auto_corrector.py:371-394 | every record counts towards exactly one of the three confidence levels |
| Corrector.AutoCorrector.constructor | ErroresJSON/src/auto_corrector.py:59-69 | a new corrector has no records and holds the module-wide catalog |
| Corrector.AutoCorrector.CorrectDateFormat | ErroresJSON/src/auto_corrector.py:71-122 | returns the date correction and appends its record, if any, to `corrections` |
| Corrector.AutoCorrector.CorrectTextNormalization | ErroresJSON/src/auto_corrector.py:124-165 | returns the text normalization and appends its record, if any |
| Corrector.AutoCorrector.CorrectNumericFormat | ErroresJSON/src/auto_corrector.py:167-222 | returns the numeric correction and appends its record, if any |
| Corrector.AutoCorrector.SuggestCie10Correction | ErroresJSON/src/auto_corrector.py:224-263 | returns the catalog's verdict on the stripped, upper-cased code and appends its record, if any |
| Corrector.AutoCorrector.CorrectCupsFormat | ErroresJSON/src/auto_corrector.py:265-307 | returns the CUPS correction and appends its record, if any |
| Corrector.AutoCorrector.CorrectDocumentType | ErroresJSON/src/auto_corrector.py:309-357 | returns the document-type correction and appends its record, if any |
| Corrector.AutoCorrector.GetCorrectionsSummary | ErroresJSON/src/auto_corrector.py:371-394 | the total is the number of records, the per-type tally is the counter over the records' types in order, each type's count is its number of records, each level's count its number of records, and high-confidence plus needing-review equals the total |
| Corrector.Tally | ErroresJSON/src/auto_corrector.py:379-385 | the summary loop counts the records per type in order of first appearance and per confidence level |
| Corrector.ApplySafeCorrections | ErroresJSON/src/auto_corrector.py:406-485 | the corrected line is the comma-join of the per-field corrections of US and AC lines; the returned records are exactly those appended to the corrector |
| Corrector.SafeFields | ErroresJSON/src/auto_corrector.py:422-481 | the fields after the corrections: corrected with their records for US and AC lines, the fields unchanged and no record for other kinds; the records are exactly those appended to the corrector |
| Corrector.CorrectFields | ErroresJSON/src/auto_corrector.py:423-476 | the field loop yields the corrected fields and the records of US and AC lines, appending the records to the corrector |
| Corrector.OtherTypesUntouched | ErroresJSON/src/auto_corrector.py:478-480 | fields of any file type other than US and AC are kept and nothing is recorded |
| Corrector.OtherLinesStripped | ErroresJSON/src/auto_corrector.py:406-485 | a line of any other file type comes back only stripped, with no record |
| Corrector.SafeCorrectionTraced | ErroresJSON/src/auto_corrector.py:423-476 | every correction of the line pass either hands the field back unrecorded or records a clean value at its file and line |
| Corrector.SafeCorrectionIdempotent | ErroresJSON/src/auto_corrector.py:423-476 | a field the line pass has corrected is left alone by a second pass |
| Corrector.SafeCorrectionConfidence | ErroresJSON/src/auto_corrector.py:423-476 | a US line's records all have high confidence; on an AC line only the CUPS code of field 6 is recorded with medium confidence; nothing is low |
| Corrector.SafeValuesCommaFree | ErroresJSON/src/auto_corrector.py:423-483 | corrected fields hold no comma when the original ones hold none |
| Corrector.SafeLineFields | ErroresJSON/src/auto_corrector.py:406-485 | split at its commas the corrected line gives back exactly the corrected fields, one per field of the stripped input |
| Corrector.SafeLineTrimmed | ErroresJSON/src/auto_corrector.py:406-485 | the corrected line has no whitespace at either end |
| Corrector.SafeLineIdempotent | ErroresJSON/src/auto_corrector.py:406-485 | running the safe corrections over an already corrected line changes nothing and records nothing |
| Pipeline.Cie10ErrorsIff | ErroresJSON/main.py:225-257 | a line has no ICD-10 error exactly when every diagnosis field of its kind that it is long enough to have is accepted; fields beyond its end are not looked at |
| Pipeline.Cie10ErrorsFromSlots | ErroresJSON/main.py:250-257 | every ICD-10 error sits at the line and names a diagnosis field the line has and the validator rejected |
| Pipeline.Cie10Bounds | ErroresJSON/main.py:250-257 | at most one error per diagnosis field, and `cie10_invalid_codes` never grows by more than the errors added |
| Pipeline.EnterAllBuckets | ErroresJSON/main.py:259-283 | after a run of registrations every bucket holds its old entries followed by those registered under its key, in order |
| Pipeline.EnterAllAppend | ErroresJSON/main.py:259-283 | registering `rs + ts` is registering `rs`, then `ts` |
| Pipeline.NonIntegerAgeSkipsAgeCheck | ErroresJSON/main.py:310-318 | when the age does not parse as an integer only the age check is skipped: the age unit no longer matters and no age error is reported |
| Pipeline.CoherenceIssuesMissFinalityErrors | ErroresJSON/main.py:285-324 | `coherence_issues` grows by the length of the last list computed only, so whenever the finality check reports something it grows by less than the errors the line adds |
| Pipeline.ReadingCounts | ErroresJSON/main.py:157-186 | over a reading every error is an ICD-10 or a coherence error, the coherence statistic never exceeds the coherence errors, the invalid-code count never exceeds the ICD-10 errors, and at most one attention is registered per non-blank line |
| Pipeline.PassCounts | ErroresJSON/main.py:157-186 | one kept line per non-blank line, together with the balances of the reading |
| Pipeline.PassWithoutCorrections | ErroresJSON/main.py:161-172 | without corrections the kept lines are the stripped non-blank lines and no record is made |
| Pipeline.PassKeepsFieldCounts | ErroresJSON/main.py:161-175 | with or without corrections every kept line has as many comma-separated fields as the stripped line it replaces |
| Pipeline.StandardReadingResult | ErroresJSON/main.py:194-206 | what `read_and_validate_file` returns for the file is its standard validation |
| App.AbsorbSnoc | ErroresJSON/main.py:157-186 | absorbing a reading line by line is absorbing it at once |
| App.ReadingStep | ErroresJSON/main.py:157-186 | a blank line changes nothing; any other line takes the step of its outcome |
| App.AfterFileErrors | ErroresJSON/main.py:188-223 | a file read without failure adds its first-reading errors then its standard-reading errors and counts as one more file of its kind; one whose reading raised adds the errors before the exception and one 'archivo' error at line 0, and is neither counted nor saved |
| App.CorrectedFilesKept | ErroresJSON/main.py:188-192 | corrected lines are kept, and their corrections counted, exactly when auto-correction is on, the reading did not fail and some correction was made |
| App.ValidationOnlyRecordsNothing | ErroresJSON/main.py:165-169 | without either correction flag the first reading records no correction |
| App.FilesOfKindMembers | ErroresJSON/main.py:123-138 | exactly the files whose name gives kind `k` are collected under `k`, in input order |
| App.TargetsMembers | ErroresJSON/main.py:574-576 | a target of the kinds `ks` is an input file of that kind, one of `ks` |
| App.CollectedFiles | ErroresJSON/main.py:574-576 | the first phase processes every input file whose name gives a kind, under that kind, and no other file |
| App.FirstPhaseSnoc | ErroresJSON/main.py:574-576 | the first phase over one more target is one more processed file |
| App.CrossErrorsSnoc | ErroresJSON/main.py:380-404 | the reference errors over one more target are those before followed by that target's |
| App.ValidatorApp.constructor | ErroresJSON/main.py:47-96 | suggesting is on whenever correcting is; errors, corrected files, statistics, the detector and the cross-file sets start empty |
| App.ValidatorApp.ValidateCie10InRecord | ErroresJSON/main.py:225-257 | the errors of the kind's diagnosis fields the line has are appended and counted |
| App.ValidatorApp.RegisterAttention | ErroresJSON/main.py:259-283 | AC, AP and AT lines of at least seven fields register one attention; every other kind, AH included, none |
| Pipeline.CoherenceOf | ErroresJSON/main.py:285-324 | only AC lines of at least 22 fields are checked; at most four errors, all at the line, and the statistic grows by no more than the errors added; the age check is the intended one (`Advanced.AgeCoherence`), see Left out |
| App.ValidatorApp.ValidateCoherenceInRecord | ErroresJSON/main.py:285-324 | AC lines of at least 22 fields get the finality, sex and (integer age) age checks; `coherence_issues` grows by the last list's length; the age check is the intended one (`Advanced.AgeCoherence`), see Left out |
| App.CoherenceChecks | ErroresJSON/main.py:291-321 | the fields at positions 9, 6, 11, 21, 19 and 20 go through the finality, sex and (integer age) age checks; the errors added and the length of the list computed last are those of `Pipeline.CoherenceOf` for an AC line |
| App.ValidatorApp.ProcessLine | ErroresJSON/main.py:159-186 | a non-blank line is stripped, corrected when corrections are suggested, kept, and its fields go through the ICD-10, attention and coherence checks of its kind; its age check is the intended one (`Advanced.AgeCoherence`), see Left out |
| App.ValidatorApp.FirstReading | ErroresJSON/main.py:157-186 | the loop leaves the state of absorbing the whole reading: blank lines skipped, every other line processed with its 1-based number |
| App.ValidatorApp.ProcessFile | ErroresJSON/main.py:140-223 | the file's state is its first reading, then, unless that raised, corrected lines saved, the standard reading's errors added and the file counted |
| App.ValidatorApp.FinishFile | ErroresJSON/main.py:188-223 | the rest of the file's processing once its first reading is absorbed |
| App.ValidatorApp.FailedFile | ErroresJSON/main.py:216-223 | a file whose processing raised adds one critical 'archivo' error at line 0 and changes nothing else |
| App.ValidatorApp.SaveFile | ErroresJSON/main.py:188-192 | corrected lines kept and corrections counted when corrections are applied and some were made |
| App.ValidatorApp.StandardReading | ErroresJSON/main.py:194-206 | the standard reading's errors are appended and the file and its line counters counted under its kind |
| App.ValidatorApp.CountReading | ErroresJSON/main.py:194-206 | the reading's errors are appended to all errors and the file and its line counters counted under its kind; nothing else changes |
| App.ValidatorApp.RunFirstPhase | ErroresJSON/main.py:574-576 | every target processed in turn, the state being the first phase over them |
| App.ValidatorApp.LoadReferences | ErroresJSON/main.py:326-364 | the AF rows of at least five fields, then the US rows of at least two, are registered with the cross-file validator, file by file |
| App.ValidatorApp.LoadInvoices | ErroresJSON/main.py:330-346 | every AF file's invoices are registered in file order: the known invoices gain them and their counter counts them; the patients are untouched |
| App.ValidatorApp.LoadUsers | ErroresJSON/main.py:349-364 | every US file's patients are registered in file order: the known patients gain them and their counter counts them; the invoices are untouched |
| App.ValidatorApp.PerformCrossValidation | ErroresJSON/main.py:366-417 | every AC, AP, AT, AH and AM target's rows of at least four fields go through its reference check and the errors are kept; then the duplicate errors are appended |
| App.ValidatorApp.CrossValidateFile | ErroresJSON/main.py:380-404 | one target's rows go through the reference check of its kind |
| App.ValidatorApp.DetectDuplicateAttentions | ErroresJSON/main.py:419-431 | the repeats of every bucket are appended and `duplicate_attentions` is set to their number when there are any |
| App.ValidatorApp.LaterPhases | ErroresJSON/main.py:578-585 | reference loading, cross validation and duplicate detection, in that order, from the state the first phase left |
| App.ValidatorApp.Run | ErroresJSON/main.py:547-609 | returns true exactly when the input directory exists, holds files and some file has a RIPS name; on false nothing changes; on true the first phase runs kind by kind and the later phases follow |
| Calidad.ParseFechaConsulta | AnalisisJSON/src/validador_calidad.py:100-146 | the consultation date is read with `%Y-%m-%d %H:%M` when it holds a blank and `%Y-%m-%d` otherwise; any date it gives is a valid calendar date |
| Calidad.FaltantesExact | AnalisisJSON/src/validador_calidad.py:54-67 | over distinct fields each missing field (absent, null, empty or "null") yields exactly one anomaly naming it and a present one none; all are ALTA CAMPO_OBLIGATORIO_FALTANTE at the consultation's number |
| Calidad.MandatoryFieldsReportedOnce | AnalisisJSON/src/validador_calidad.py:14-27 | the eleven mandatory fields are distinct, so each missing one is reported exactly once |
| Calidad.DocumentoChecks | AnalisisJSON/src/validador_calidad.py:69-98 | a truthy document number that is not all digits is ALTA; a CC whose length is outside 6 to 10 is MEDIA, digits or not; a falsy number is not checked |
| Calidad.FechaChecks | AnalisisJSON/src/validador_calidad.py:100-146 | an unparsable date gives one FORMATO_FECHA_INVALIDO and nothing else; a parsed date is reported future exactly when after `now` and too old exactly when more than 3650 days before it |
| Calidad.EdadChecksExact | AnalisisJSON/src/validador_calidad.py:148-226 | a non-null age `int()` rejects gives FORMATO_EDAD_INVALIDO only; an integer age gives one anomaly per broken condition: negative, over 120, RC over 7, TI outside 7 to 17, CC under 18 |
| Calidad.SexoChecks | AnalisisJSON/src/validador_calidad.py:227-237 | a truthy sex other than F or M is reported ALTA, and nothing else is |
| Calidad.DiagnosticoChecks | AnalisisJSON/src/validador_calidad.py:239-283 | a truthy diagnosis not matching the ICD-10 pattern is reported; a male patient with a Z3 or O diagnosis is reported ALTA; a truthy diagnosis type outside the listed ones is reported |
| Calidad.DiagnosisShapePasses | AnalisisJSON/src/validador_calidad.py:246-256 | a code of a letter, two or three digits and an optional digit or letter passes the format check |
| Calidad.AcudienteChecks | AnalisisJSON/src/validador_calidad.py:285-318 | a falsy age or one `int()` rejects gives nothing; under 18 without a guardian gives MEDIA, 18 or over with one gives BAJA |
| Calidad.CodigosChecks | AnalisisJSON/src/validador_calidad.py:366-409 | falsy finality, cause or zone values are never reported; a truthy one is reported exactly when it is not one of the listed codes |
| Calidad.ValoresChecks | AnalisisJSON/src/validador_calidad.py:320-364 | a negative consultation value is reported, and so is one `float()` rejects; a negative co-payment is reported but an unreadable one is not |
| Calidad.SeveritiesSum | AnalisisJSON/src/validador_calidad.py:411-420 | the ALTA, MEDIA and BAJA counts add up to the number of anomalies |
| Calidad.TypeCountsExact | AnalisisJSON/src/validador_calidad.py:411-420 | each type's count is its number of anomalies, and the counts add up to the total |
| Calidad.ReportInvariants | AnalisisJSON/src/validador_calidad.py:411-434 | severities sum to the total; the top list has at most ten entries, highest count first, taken from the type counts, and no type left out of it outnumbers one in it |
| Calidad.QualityThresholds | AnalisisJSON/src/validador_calidad.py:436-449 | the grade is EXCELENTE at 0, BUENA up to 5, REGULAR up to 15, DEFICIENTE up to 30 and CRÍTICA above; more anomalies never give a better grade |
| Calidad.Tally | AnalisisJSON/src/validador_calidad.py:415-420 | the counting loop yields each severity's count and the insertion-ordered type counts |
| Calidad.ValidadorCalidadRIPS.constructor | AnalisisJSON/src/validador_calidad.py:12-27 | a new validator has no anomalies and the eleven mandatory fields |
| Calidad.ValidadorCalidadRIPS.ValidarDatosCompletos | AnalisisJSON/src/validador_calidad.py:29-52 | the anomaly list is reset, the eight rules run on each consultation numbered from 1 in turn, and the report is that of the resulting list |
| Calidad.ValidadorCalidadRIPS.ValidarConsulta | AnalisisJSON/src/validador_calidad.py:42-50 | one consultation appends the anomalies of the eight rules in the order the loop runs them |
| Calidad.ValidadorCalidadRIPS.ValidarCamposObligatorios | AnalisisJSON/src/validador_calidad.py:54-67 | appends the missing-field anomalies |
| Calidad.ValidadorCalidadRIPS.ValidarFormatoDocumento | AnalisisJSON/src/validador_calidad.py:69-98 | appends the document-number anomalies |
| Calidad.ValidadorCalidadRIPS.ValidarFecha | AnalisisJSON/src/validador_calidad.py:100-146 | appends the consultation-date anomalies |
| Calidad.ValidadorCalidadRIPS.ValidarEdadCoherencia | AnalisisJSON/src/validador_calidad.py:148-237 | appends the age and sex anomalies |
| Calidad.ValidadorCalidadRIPS.ValidarDiagnosticos | AnalisisJSON/src/validador_calidad.py:239-283 | appends the diagnosis anomalies |
| Calidad.ValidadorCalidadRIPS.ValidarRelacionAcudiente | AnalisisJSON/src/validador_calidad.py:285-318 | appends the guardian anomalies |
| Calidad.ValidadorCalidadRIPS.ValidarValoresNumericos | AnalisisJSON/src/validador_calidad.py:320-364 | appends the amount anomalies |
| Calidad.ValidadorCalidadRIPS.ValidarCodigosValidos | AnalisisJSON/src/validador_calidad.py:366-409 | appends the finality, cause and zone anomalies |
| Calidad.ValidadorCalidadRIPS.GenerarReporteValidacion | AnalisisJSON/src/validador_calidad.py:411-434 | the report of the current anomaly list |
| Avanzado.PerinatalIsList | AnalisisJSON/src/validador_avanzado.py:142-145 | the character-wise perinatal test is exactly membership in the list P00 to P05 |
| Avanzado.IncoherenciaIff | AnalisisJSON/src/validador_avanzado.py:134-146 | the age rule flags exactly a pregnancy code (O or Z3) under 10 or over 55, or a perinatal code P00 to P05 over age 1; no perinatal code is a pregnancy code, and nothing is flagged between 10 and 55 outside P00 to P05 |
| Avanzado.PorcentajeBounds | AnalisisJSON/src/validador_avanzado.py:117-130 | a share of a total lies between 0 and 100 percent, and is 100 when it is the whole |
| Avanzado.RevisarConsultaEffect | AnalisisJSON/src/validador_avanzado.py:84-115 | a consultation without a diagnosis is counted once; a male patient's pregnancy diagnosis is recorded once, an age-incoherent diagnosis once; the user counters do not change |
| Avanzado.DatosInvariants | AnalisisJSON/src/validador_avanzado.py:55-132 | `total_usuarios` is the number of users, the counters stay within their totals, the three percentages lie between 0 and 100, and every recorded inconsistency is one its rule flags |
| Avanzado.RevisarConsultasDe | AnalisisJSON/src/validador_avanzado.py:84-115 | the consultation loop of one user leaves the counters and lists of checking those consultations in order |
| Avanzado.RevisarUsuarioDe | AnalisisJSON/src/validador_avanzado.py:70-115 | one user's own checks, then its consultations' |
| Avanzado.ValidarDatos | AnalisisJSON/src/validador_avanzado.py:55-132 | the result is the counters and lists of checking every user in order |
| Avanzado.ContarShift | AnalisisJSON/src/validador_avanzado.py:301-325 | counting consultations does not touch the total, so a larger starting total carries through |
| Avanzado.IndicadoresBounds | AnalisisJSON/src/validador_avanzado.py:292-329 | each numerator is at most the number of consultations, so each ratio lies between 0 and 100; with no consultations all three are 100.0 |
| Avanzado.ContarConsultasDe | AnalisisJSON/src/validador_avanzado.py:305-325 | the inner loop counts one user's consultations with a diagnosis, an authorization and all required fields |
| Avanzado.CalcularIndicadores | AnalisisJSON/src/validador_avanzado.py:301-325 | the first loop of the quality indicators yields the counts over every user's consultations |
| AvanzadoBrote.DayIndexUnique | AnalisisJSON/src/validador_avanzado.py:270-274 | the day's position is the one index that holds the day with no earlier bucket holding it |
| AvanzadoBrote.AddCases | AnalisisJSON/src/validador_avanzado.py:270-274 | counting a case raises its own (date, diagnosis) count by one and no other |
| AvanzadoBrote.AddAllAppend | AnalisisJSON/src/validador_avanzado.py:264-274 | counting `xs + ys` is counting `xs`, then `ys` |
| AvanzadoBrote.CasesCount | AnalisisJSON/src/validador_avanzado.py:264-274 | each (date, diagnosis) pair's count is its number of cases |
| AvanzadoBrote.FirstOutbreakIff | AnalisisJSON/src/validador_avanzado.py:276-290 | the scan finds a pair exactly when some pair is counted three or more times, and what it reports is that pair with its count |
| AvanzadoBrote.BroteIff | AnalisisJSON/src/validador_avanzado.py:260-290 | an alert is raised exactly when three or more public-health consultations share a day and a diagnosis, and it carries their number |
| AvanzadoBrote.CasosAreEvents | AnalisisJSON/src/validador_avanzado.py:266-274 | every counted case has a non-empty diagnosis whose 3- or 4-character prefix is a public-health key, on a non-empty date of at most ten characters |
| AvanzadoBrote.AgruparConsultas | AnalisisJSON/src/validador_avanzado.py:266-274 | one user's consultation loop adds that user's cases to the counts |
| AvanzadoBrote.AgruparCasos | AnalisisJSON/src/validador_avanzado.py:264-274 | the counting loops yield the counts of all cases, in first-seen order |
| AvanzadoBrote.PrimerBrote | AnalisisJSON/src/validador_avanzado.py:276-290 | the scan returns the first pair counted three or more times, or none |
| AvanzadoBrote.DetectarBroteEpidemiologico | AnalisisJSON/src/validador_avanzado.py:260-290 | the outbreak detector's result is the first outbreak of the counted cases |
| AvanzadoEventos.NotificablesSonEventos | AnalisisJSON/src/validador_avanzado.py:618-619 | every code of the immediate-notification list is a public-health event code |
| AvanzadoEventos.DetalleSonEventos | AnalisisJSON/src/validador_avanzado.py:596-615 | every listed event has a diagnosis whose first three characters are an event code and a date of at most ten characters |
| AvanzadoEventos.EventosDeExact | AnalisisJSON/src/validador_avanzado.py:596-615 | each consultation with an event code is listed, with its user's document and age, its diagnosis and the first ten characters of its date |
| AvanzadoEventos.NotificablesExact | AnalisisJSON/src/validador_avanzado.py:617-619 | the notification list holds exactly the listed events whose code needs immediate notification |
| AvanzadoEventos.EventosCounts | AnalisisJSON/src/validador_avanzado.py:583-621 | `total_eventos` equals the number of listed events, the per-diagnosis counts add up to it, and each diagnosis is counted as often as it is listed |
| AvanzadoEventos.RegistrarConsulta | AnalisisJSON/src/validador_avanzado.py:596-619 | one consultation appends its event, if any, to the list, the counts and the notification list, keeping them consistent |
| AvanzadoEventos.EventosConsultas | AnalisisJSON/src/validador_avanzado.py:596-619 | one user's consultation loop appends that user's events |
| AvanzadoEventos.IdentificarEventosSaludPublica | AnalisisJSON/src/validador_avanzado.py:581-621 | the result is the events of every user's consultations, in order |
| AvanzadoGrupos.PerfilExact | AnalisisJSON/src/validador_avanzado.py:513-530 | a user's profile lists each consultation's principal diagnosis in order; its pregnancy, cancer and malnutrition flags are set exactly when one of them has that prefix; related diagnoses number at most three per consultation |
| AvanzadoGrupos.NuevasIff | AnalisisJSON/src/validador_avanzado.py:495-574 | a user adds its entry to exactly the groups whose rule it meets, and only when its age is truthy |
| AvanzadoGrupos.MiembrosComplete | AnalisisJSON/src/validador_avanzado.py:495-574 | every evaluated user that meets a group's rule is listed in that group |
| AvanzadoGrupos.MiembrosSound | AnalisisJSON/src/validador_avanzado.py:495-574 | every listed entry is that of some evaluated user meeting the group's rule |
| AvanzadoGrupos.EntradasSound | AnalisisJSON/src/validador_avanzado.py:532-574 | entries have a non-zero age; adolescent mothers are under 18 and advanced-age mothers 40 or over with a pregnancy diagnosis; frail elderly are 75 or over; multimorbid patients have at least 3 related diagnoses; malnourished children are under 10 with an E4 diagnosis; oncology patients have a C diagnosis |
| AvanzadoGrupos.GestantesDisjoint | AnalisisJSON/src/validador_avanzado.py:532-545 | a pregnant user is never listed both as an adolescent and as of advanced age |
| AvanzadoGrupos.ContarRelacionados | AnalisisJSON/src/validador_avanzado.py:527-529 | the inner loop counts the truthy related-diagnosis fields 1 to 3 |
| AvanzadoGrupos.PerfilUsuario | AnalisisJSON/src/validador_avanzado.py:513-530 | the consultation loop yields the user's profile |
| AvanzadoGrupos.ClasificarUsuario | AnalisisJSON/src/validador_avanzado.py:495-574 | one user appends its entry to each group it belongs to |
| AvanzadoGrupos.IdentificarGruposRiesgo | AnalisisJSON/src/validador_avanzado.py:484-579 | each group lists exactly its members in user order, and each `_count` equals its list's length |
| Cargador.InfoDiagnostico | AnalisisJSON/src/cargador_rips.py:44-64 | an empty code gives the fixed "Sin diagnóstico" record with no code; any other code is returned as given |
| Cargador.InfoLookup | AnalisisJSON/src/cargador_rips.py:57-64 | a non-empty code is looked up upper-cased; its name and description are the catalogue entry's, defaulting to "Código no encontrado" and "" when the entry or the key is missing |
| Cargador.InfoIgnoresCase | AnalisisJSON/src/cargador_rips.py:57-64 | a code and its upper-cased form give the same texts |
| Cargador.CalcularEdad | AnalisisJSON/src/cargador_rips.py:66-90 | an age is computed exactly when the birth date and the reference date parse as `%Y-%m-%d`; otherwise `None` |
| Cargador.EdadYears | AnalisisJSON/src/cargador_rips.py:84-88 | the age is the year difference, one less exactly when the reference month and day come before the birthday's; it is never negative when the reference is not before the birth |
| Cargador.EdadDefaultsToToday | AnalisisJSON/src/cargador_rips.py:77-83 | without a reference date the age is counted up to today |
| Cargador.Usuarios | AnalisisJSON/src/cargador_rips.py:92-102 | the users list, or [] when the key is absent |
| Cargador.Consultas | AnalisisJSON/src/cargador_rips.py:104-115 | a user's consultations, or [] when services or consultations are absent |
| Cargador.Procedimientos | AnalisisJSON/src/cargador_rips.py:117-128 | a user's procedures, or [] when services or procedures are absent |
| Tablas.RegimenTable | AnalisisJSON/src/generador_tablas_especiales.py:45-55 | user types 01 to 03 are CONTRIBUTIVO, 04 SUBSIDIADO, 05 NO ASEGURADO, 06 to 09 ESPECIAL, and every other text DESCONOCIDO |
| Tablas.DatePart | AnalisisJSON/src/generador_tablas_especiales.py:97-107 | the date part has no space and is a prefix of the text, all of it when it has no space |
| Tablas.DatePartIsSplit | AnalisisJSON/src/generador_tablas_especiales.py:101 | the date part is the first piece of a split at spaces |
| Tablas.FormatearFechaRoundTrip | AnalisisJSON/src/generador_tablas_especiales.py:97-107 | a `YYYY-MM-DD` date, with or without a time after it, comes back as the same day in `DD/MM/YYYY` |
| Tablas.FormatearFechaCases | AnalisisJSON/src/generador_tablas_especiales.py:97-107 | an unparsable text comes back as its date part; a parsed one comes back as a `DD/MM/YYYY` text naming the same day |
| Tablas.ExtraerMesNombre | AnalisisJSON/src/generador_tablas_especiales.py:109-119 | the Spanish month name of a parsable date, "" for an empty or unparsable one |
| Tablas.MesDeFecha | AnalisisJSON/src/generador_tablas_especiales.py:109-119 | the month name of a formatted date, with or without a time, is that date's month and is never empty |
| Tablas.CalcularEdadConUnidad | AnalisisJSON/src/generador_tablas_especiales.py:121-151 | an age and unit are returned exactly when the birth date and the reference (today when none is given) parse |
| Tablas.EdadEntreUnits | AnalisisJSON/src/generador_tablas_especiales.py:138-149 | the unit is days exactly under 30 days (negative differences included), months exactly from 30 to 364 days (then 1 to 12 whole 30-day months), years from 365 days on |
| Tablas.EdadEntreYears | AnalisisJSON/src/generador_tablas_especiales.py:145-149 | years are counted only from 365 days on, so they are never negative |
| Tablas.EdadEntreLeapBoundary | AnalisisJSON/src/generador_tablas_especiales.py:138-149 | 365 days after 1 March 2019 is 29 February 2020, which is counted as 0 years, and `_determinar_curso_vida` reads 0 as unknown |
| Tablas.CursoVidaBands | AnalisisJSON/src/generador_tablas_especiales.py:819-842 | the stage is "Desconocido" for a zero age or an empty unit; otherwise it is the band of the age in years at 6, 12, 18, 29 and 60 |
| Tablas.CursoVidaMonotone | AnalisisJSON/src/generador_tablas_especiales.py:819-842 | an older age in the same unit never gives an earlier stage |
| Tablas.PrimerosKeys | AnalisisJSON/src/generador_tablas_especiales.py:544-554 | every kept user is one of the users, and every user's key has a kept user |
| Tablas.PrimerosDistinct | AnalisisJSON/src/generador_tablas_especiales.py:544-554 | no two kept users share a key, and as many users are kept as there are keys |
| Tablas.PrimerosFirst | AnalisisJSON/src/generador_tablas_especiales.py:544-554 | the first user with a key is kept |
| Tablas.TablaDistinct | AnalisisJSON/src/generador_tablas_especiales.py:541-569 | no two rows of the table share a key |
| Tablas.TablaComplete | AnalisisJSON/src/generador_tablas_especiales.py:541-569 | every user's key has a row |
| Tablas.TablaSize | AnalisisJSON/src/generador_tablas_especiales.py:541-569 | there are as many rows as distinct keys |
| Tablas.TablaFirst | AnalisisJSON/src/generador_tablas_especiales.py:541-569 | the row kept for a key is that of the first user with that key |
| Tablas.TablaStep | AnalisisJSON/src/generador_tablas_especiales.py:547-569 | one more user always adds its key to the processed set, and adds its row exactly when its key is new |
| Tablas.AgregarUsuarios | AnalisisJSON/src/generador_tablas_especiales.py:547-569 | the inner loop extends the table and the processed-key set by one document's users, skipping keys already processed |
| Tablas.CrearTablaUsuarios | AnalisisJSON/src/generador_tablas_especiales.py:541-569 | the de-duplication loop yields the table of all users of all documents, one row per first occurrence of a key |
| Ese.ADatetime | ESEPValidador/src/validador_completo.py:20-21 | a date pandas converts is a real calendar day inside the nanosecond timestamp range |
| Ese.Coercion | ESEPValidador/src/validador_completo.py:343-345 | a coerced date, when there is one, is a real calendar day |
| Ese.TramoSpec | ESEPValidador/src/validador_completo.py:38-44 | the leading run of digits and upper-case letters stops at the first other character |
| Ese.CoincideIff | ESEPValidador/src/validador_completo.py:38-44 | `^[0-9A-Z]*$` accepts exactly the texts of digits and upper-case letters, possibly ending in one newline |
| Ese.EnListaIff | ESEPValidador/src/validador_completo.py:92-100 | the list membership test is `in` |
| Ese.ReportaAnotar | ESEPValidador/src/validador_completo.py:46-53 | a finding appended under a condition is reported exactly when the condition holds or it was already reported |
| Ese.Identificacion | ESEPValidador/src/validador_completo.py:68-157 | column 0 is Error001 unless it is 2, column 1 Error002 unless it is the record number, column 2 Error021 when empty, column 10 Error004 unless it is F or M |
| Ese.TipoIdentificacion | ESEPValidador/src/validador_completo.py:92-100 | column 3 is Error003 exactly when the document type is not one of the known types |
| Ese.ValoresFijos | ESEPValidador/src/validador_completo.py:204-210 | columns 15 and 17 must be 0, 20 and 21 must be 21, 23 one of 0, 1, 2, 21; anything else reports its code |
| Ese.Documento | ESEPValidador/src/validador_completo.py:102-109 | column 4 is Error220 exactly when the upper-cased document number is present and not all digits and letters |
| Ese.DocumentoLongitud | ESEPValidador/src/validador_completo.py:111-123 | column 4 is Error676 exactly when the document number's length is outside the range of its known type |
| Ese.LongitudRango | ESEPValidador/src/validador_completo.py:111-123 | the length rule is the per-type (shortest, longest) table |
| Ese.NacimientoFaltante | ESEPValidador/src/validador_completo.py:125-133 | a missing birth date is reported once, as Error020, and nothing else; Error020 only then |
| Ese.Nacimiento | ESEPValidador/src/validador_completo.py:134-142 | a present birth date is Error421 exactly when it does not parse as `%Y-%m-%d`, Error677 exactly when it is a refused wildcard |
| Ese.NacimientoPosterior | ESEPValidador/src/validador_completo.py:144-149 | Error120 exactly when the birth date is after the cutoff; a date reported as Error421 is never also Error120 |
| Ese.DiaConFormato | ESEPValidador/src/validador_completo.py:20-21 | only a text that `strptime` reads becomes a day |
| Ese.GestacionSexo | ESEPValidador/src/validador_completo.py:159-202 | Error030 exactly for a pregnancy 1, 2 or 21 with a sex other than F; Error244 and Error379 exactly for their conditions on the related variables, never both |
| Ese.GestacionEdad | ESEPValidador/src/validador_completo.py:172-178 | for a woman of known age, neither Error222 nor Error223 exactly when "not pregnant" (0) goes with being outside ages 10 to 60 |
| Ese.MiniMental | ESEPValidador/src/validador_completo.py:212-232 | Error503 for a result 4 or 5 without a valid assessment date, Error504 for a value outside 0, 4, 5, 21, never both; with a valid value and a known age, no Error227 exactly when 0 goes with being under 60 |
| Ese.Sintomatico | ESEPValidador/src/validador_completo.py:242-259 | at most one of Error232, Error506 and Error507 is reported, and none for a value other than 1, 2 or 21 |
| Ese.Tabaco | ESEPValidador/src/validador_completo.py:261-271 | Error508 exactly under 12 years with a tobacco value other than 98 |
| Ese.TactoRectal | ESEPValidador/src/validador_completo.py:289-313 | Error037 and Error038 exclude each other, as do Error038 and Error513; Error514 exactly for a result outside 0, 4, 5, 21 |
| Ese.TactoFecha | ESEPValidador/src/validador_completo.py:315-324 | Error237 exactly for a registered exam date unless the result is 4 or 5 for a man not known to be under 40; Error512 exactly for a result 21 whose date is not an accepted wildcard |
| Ese.Dispara237TalCual | ESEPValidador/src/validador_completo.py:315-318 | the condition as written raises exactly for result 4 or 5, sex `M` and no age; otherwise it holds when the result is not 4 or 5, the sex is not `M`, or the age is a number under 40 |
| Ese.Dispara237 | ESEPValidador/src/validador_completo.py:315-318 | the intended condition agrees with the condition as written wherever that does not raise, and with no age holds exactly when the result is not 4 or 5 or the sex is not `M` |
| Ese.Dispara237Falla | ESEPValidador/src/validador_completo.py:315-318 | a man with result 4, a registered exam date and no birth date reaches the raising comparison |
| Ese.BandaPeso | ESEPValidador/src/validador_completo.py:366-379 | a weight code is always one of the band codes |
| Ese.BandaTalla | ESEPValidador/src/validador_completo.py:399-413 | a height code is always one of the band codes |
| Ese.ErrorBanda | ESEPValidador/src/validador_completo.py:364-379 | the band error of a measure is one of the band codes |
| Ese.BandaEdad | ESEPValidador/src/validador_completo.py:366-379 | there are five age bands |
| Ese.BandaTabla | ESEPValidador/src/validador_completo.py:366-413 | the `if`/`elif` chains are the band table: a code is reported, and it is the band's, exactly when the value is outside its age band's range |
| Ese.CodigoBandaInyectiva | ESEPValidador/src/validador_completo.py:366-413 | different age bands have different codes |
| Ese.MedicionFechas | ESEPValidador/src/validador_completo.py:348-364 | one measure's date-after-cutoff, date-before-birth and 999 codes, each exactly under its condition |
| Ese.MedicionBanda | ESEPValidador/src/validador_completo.py:364-379 | the band code a measure reports is its band error |
| Ese.MedidaPorEdad | ESEPValidador/src/validador_completo.py:364-413 | a value other than 999 with both dates is reported with its band's code exactly when outside that band's range, and no other band's code is reported |
| Ese.MedidaFechas | ESEPValidador/src/validador_completo.py:348-397 | Error121/Error122 exactly for a date after the cutoff, Error171/Error172 exactly before birth, Error041/Error043 exactly for 999 without the 1800-01-01 wildcard |
| Ese.FechaComodin | ESEPValidador/src/validador_completo.py:343-345 | pandas reads the wildcard 1800-01-01 as that day |
| Ese.ComodinTexto | ESEPValidador/src/validador_completo.py:357-359 | 1800-01-01 is the wildcard text written `%Y-%m-%d` |
| Ese.ComodinNoNaT | ESEPValidador/src/validador_completo.py:343-345 | the wildcard is not a text pandas reads as missing |
| Ese.Comodin1800 | ESEPValidador/src/validador_completo.py:357-363 | the wildcard date of a measure gives Warning674/Warning675 and exempts 999 from Error041/Error043 |
| Ese.ValidadorESE.constructor | ESEPValidador/src/validador_completo.py:11-13 | both lists start empty |
| Ese.ValidadorESE.AgregarError | ESEPValidador/src/validador_completo.py:46-53 | appends one error and leaves the warnings alone |
| Ese.ValidadorESE.AgregarWarning | ESEPValidador/src/validador_completo.py:55-62 | appends one warning and leaves the errors alone |
| Ese.ValidadorESE.ValidarColumna0 | ESEPValidador/src/validador_completo.py:68-74 | appends exactly column 0's findings; warnings unchanged |
| Ese.ValidadorESE.ValidarColumna1 | ESEPValidador/src/validador_completo.py:76-82 | appends exactly column 1's findings for the record number; warnings unchanged |
| Ese.ValidadorESE.ValidarColumna2 | ESEPValidador/src/validador_completo.py:84-90 | appends exactly column 2's findings; warnings unchanged |
| Ese.ValidadorESE.ValidarColumna3 | ESEPValidador/src/validador_completo.py:92-100 | appends exactly column 3's findings; warnings unchanged |
| Ese.ValidadorESE.ValidarColumna4 | ESEPValidador/src/validador_completo.py:102-123 | appends Error220 then Error676 under their conditions; warnings unchanged |
| Ese.ValidadorESE.ValidarColumna9 | ESEPValidador/src/validador_completo.py:125-149 | appends exactly column 9's findings, in the source's order; warnings unchanged |
| Ese.ValidadorESE.ValidarColumna10 | ESEPValidador/src/validador_completo.py:151-157 | appends exactly column 10's findings; warnings unchanged |
| Ese.ValidadorESE.ValidarColumna14 | ESEPValidador/src/validador_completo.py:159-202 | appends exactly column 14's findings, in the source's order; warnings unchanged |
| Ese.ValidadorESE.ValidarColumna15 | ESEPValidador/src/validador_completo.py:204-210 | appends exactly column 15's findings; warnings unchanged |
| Ese.ValidadorESE.ValidarColumna16 | ESEPValidador/src/validador_completo.py:212-232 | appends exactly column 16's findings, in the source's order; warnings unchanged |
| Ese.ValidadorESE.ValidarColumna17 | ESEPValidador/src/validador_completo.py:234-240 | appends exactly column 17's findings; warnings unchanged |
| Ese.ValidadorESE.ValidarColumna18 | ESEPValidador/src/validador_completo.py:242-259 | appends exactly column 18's findings; warnings unchanged |
| Ese.ValidadorESE.ValidarColumna19 | ESEPValidador/src/validador_completo.py:261-271 | appends exactly column 19's findings; warnings unchanged |
| Ese.ValidadorESE.ValidarColumna20 | ESEPValidador/src/validador_completo.py:273-279 | appends exactly column 20's findings; warnings unchanged |
| Ese.ValidadorESE.ValidarColumna21 | ESEPValidador/src/validador_completo.py:281-287 | appends exactly column 21's findings; warnings unchanged |
| Ese.ValidadorESE.ValidarColumna22 | ESEPValidador/src/validador_completo.py:289-324 | appends exactly column 22's findings, in the source's order, with the intended Error237 condition (`Ese.Dispara237`), see Left out; warnings unchanged |
| Ese.ValidadorESE.ValidarColumna23 | ESEPValidador/src/validador_completo.py:326-332 | appends exactly column 23's findings; warnings unchanged |
| Ese.ValidadorESE.ValidarMedida | ESEPValidador/src/validador_completo.py:346-397 | one measure appends its errors and its wildcard warning |
| Ese.ValidadorESE.ValidarPesoTalla | ESEPValidador/src/validador_completo.py:334-413 | appends the weight findings then the height findings, errors and warnings apart |
| Ese.ValidadorESE.ValidarFila | ESEPValidador/src/validador_completo.py:415-438 | appends the findings of columns 0 to 23 in the order the source calls them, then weight and height when the row has more than 32 cells; column 22 uses the intended Error237 condition, see Left out |
| Ese.ValidadorESE.ValidarDataframe | ESEPValidador/src/validador_completo.py:440-454 | clears both lists, validates the rows in order with record numbers 1, 2, ..., and returns both lists with their lengths as totals; the rows where the source raises on Error237 are not modelled, see Left out |
| Json.Get | AnalisisJSON/src/validador_calidad.py:57 | `d.get(key)` is the member, or null when the key is absent |
| Json.GetOr | AnalisisJSON/src/validador_calidad.py:40 | `d.get(key, default)` is the member, or the default when the key is absent |
| Json.ToInt | AnalisisJSON/src/validador_calidad.py:156 | `int(v)` of null fails, and of an integer is that integer |
| Json.ToFloat | ErroresJSON/src/validators.py:141 | `float(v)` of null fails, and of an integer is that number |
| Json.TextOf | AnalisisJSON/src/validador_avanzado.py:267-268 | a member used as text is its string, or "" when the key is absent; other values read as "", see Left out |
| Text.StripEnds | ErroresJSON/src/auto_corrector.py:145 | the stripped text has no whitespace at either end |
| Text.StripIdempotent | ErroresJSON/src/auto_corrector.py:145 | stripping twice is stripping once |
| Text.StripEmptyIff | ErroresJSON/src/validators.py:15 | `s.strip() == ""` exactly when every character is whitespace |
| Text.Split | ErroresJSON/src/auto_corrector.py:421 | a split has one piece more than the separators in the text |
| Text.SplitPiecesFree | ErroresJSON/src/auto_corrector.py:421 | no piece of a split holds the separator |
| Text.JoinSplit | ErroresJSON/src/auto_corrector.py:421-483 | joining the pieces of a split gives the text back |
| Text.SplitJoin | ErroresJSON/src/auto_corrector.py:421-483 | splitting a join of separator-free pieces gives the pieces back |
| Text.UpperIdempotent | ErroresJSON/src/auto_corrector.py:241 | upper-casing twice is upper-casing once |
| Text.CollapseIsCollapsed | ErroresJSON/src/auto_corrector.py:148 | after `re.sub(r'\s+', ' ', s)` no two whitespace characters are adjacent and every whitespace character is a blank |
| Text.CollapsedFixed | ErroresJSON/src/auto_corrector.py:148 | on a text already collapsed the substitution changes nothing |
| Text.PyIntShow | ErroresJSON/src/auto_corrector.py:206 | `int(str(n)) == n` |
| Text.PyFloatShow | ErroresJSON/src/auto_corrector.py:204 | `float(str(n))` is `n` for an integer `n` |
| Dates.OrdinalOrder | ErroresJSON/src/validators.py:55-56 | dates compare as their day numbers do, and equal day numbers mean the same date |
| Dates.AgeNonNegative | AnalisisJSON/src/cargador_rips.py:84-88 | a reference date on or after the birth date gives a non-negative age |
| Dates.AgePositiveIff | AnalisisJSON/src/cargador_rips.py:84-88 | the age is at least one exactly when the first birthday has been reached |
| Dates.YmdRoundTrip | AnalisisJSON/src/generador_tablas_especiales.py:103-104 | reading back a date written `%Y-%m-%d` gives the date |
| Dates.DmyRoundTrip | AnalisisJSON/src/generador_tablas_especiales.py:104 | reading back a date written `%d/%m/%Y` gives the date |
| Dates.DmyOnShape | ErroresJSON/src/validators.py:46-52 | on a text of the shape `dd/mm/yyyy`, `strptime('%d/%m/%Y')` succeeds exactly when the digits spell a real calendar day, and returns it |

## Left out

- Report rendering and export: the spreadsheets, dashboards, CSV and HTML outputs, `export_corrections`, the `to_dict` methods, `generate_comprehensive_report`, `print_summary` and the ESE error messages. They are output formatting with nothing to verify, so findings carry a code, a field and a location rather than message text.
- Logging, the command line (`main`, argument parsing) and file discovery on disk: `collect_rips_files` and `save_corrected_files` become the file list and the kept corrected lines that the application is given or returns.
- Reading files: a file is given as its contents, either its lines or the lines read before an exception together with that exception's text.
- The clock: `datetime.now()` is a "today" parameter, the ESE cut-off date is a parameter, and the timestamps of correction records are dropped.
- Floating point: `float()` reads a decimal literal exactly (as a rational), with NaN and the infinities as separate values. Rounding and overflow are not modelled, and neither is the float rounding of the ESE age `days / 365.25`, which is computed exactly.
- Percentages and alert ratios of the advanced JSON validator: only their bounds and their empty-input defaults are stated.
- Text: `upper`, `lower`, `isdigit` and whitespace are ASCII only. There is no Unicode case mapping, so accented letters are left as they are.
- Regular expressions: `$` also matches before a final newline. Three patterns can meet such a text, and their models state it: the ESE document rule (`Ese.Coincide`), the quality validator's diagnosis pattern on JSON values (`Calidad.MatchToEnd`) and the file-name pattern (`FileReader.MatchesAt`, through `FileReader.Closed`). The RIPS field patterns are checked against lines that are already stripped, and the date shape is required to fill the whole text.
- pandas: `to_datetime` is modelled for `YYYY-MM-DD` texts and the texts it reads as missing. Other date formats, numeric cells in date columns and timestamps with a time part fail to convert. A DataFrame is its rows in order, with index 0, 1, ... so record n is the n-th row.
- ESE rows with fewer than 24 cells are outside the model (a row is a `Fila` of at least 24 cells): on such a row `validar_fila` raises `IndexError` at the first rule that reads a missing cell, column 23 at the latest, and the rules run before it report as usual.
- Ese.ValidadorESE.ValidarFila: states each row's findings column by column, but not that a code is owned by one column. A row-level statement of that ("Error237 is reported for a row exactly when …") is not proved.
- Corrector.AutoCorrector: `get_corrections_by_confidence` is the function `WithConfidence`, and `auto_mode` is stored but never read, as in the code.
- Cross.CrossFileValidator.CheckDuplicates: `stats['duplicados']` grows on every call, so calling it twice reports the same duplicates and counts them twice. This is modelled as written.
- `main_v2.py` duplicates `main.py` and is not modelled separately; `main_v1_backup.py`, the descriptive statistics module and the constant-only catalogue modules are not part of this model, except the table entries the rules use.
- Pipeline.CoherenceOf, App.CoherenceChecks, App.ValidatorApp.ValidateCoherenceInRecord, App.ValidatorApp.ProcessLine: the age check is the intended `Advanced.AgeCoherence` (the first row under Findings). As written (`Advanced.AgeCoherenceAsWritten`), a unit such as `4` raises `IndexError`, which escapes the inner handler at ErroresJSON/main.py:317 and is swallowed at main.py:323, so the finality and sex errors stay, the age error is lost and `coherence_issues` does not grow; a non-numeric unit loses the age error too. The model reports the age error in both cases.
- Ese.Columna22, Ese.ValidadorESE.ValidarColumna22, Ese.ValidadorESE.ValidarFila, Ese.ValidadorESE.ValidarDataframe: Error237 uses the intended `Ese.Dispara237` (the second row under Findings). As written, a row with result 4 or 5, sex `M`, a registered exam date and no birth date raises `TypeError` at ESEPValidador/src/validador_completo.py:317, which ends `validar_dataframe` with no result; the model reports no Error237 for that row (an unknown age counts as not under 40, as in the Error038 rule) and goes on.
- Json.TextOf: a member read as text that is `null`, a number or a boolean reads as ""; in the source, slicing or `startswith` on such a value raises. Json.Scalar has no fractional numbers, because no modelled rule reads one.
- Ese.ValidadorESE.ValidarPesoTalla: the cut-off is a date. A caller that passes it as text compares a pandas `Timestamp` with a `str` at ESEPValidador/src/validador_completo.py:350 and :384, which pandas rejects; that failure is not modelled.

## Findings

| source | as written | input that shows it | evidently intended | confidence | as-written member | corrected member |
|---|---|---|---|---|---|---|
| ErroresJSON/src/advanced_validators.py:340-347 | the age-unit name in the message is `['años', 'meses', 'días'][int(unidad)-1]`, and an `IndexError` there is not caught by `except (ValueError, TypeError)` | age 5, unit `4`, diagnosis `P07`: the perinatal rule applies and building its message raises | one age/diagnosis error, whatever the unit text is | high (not executed) | Advanced.AgeCoherenceAsWritten, Advanced.AgeCoherenceRaisesOnUnitFour | Advanced.AgeCoherence |
| ESEPValidador/src/validador_completo.py:316-318 | `resultado not in [4, 5] or sexo != 'M' or edad < 40` compares `None < 40` when the birth date is missing, which raises `TypeError` | result 4, sex `M`, exam date `2020-01-01`, birth date missing | an unknown age is not under 40, as the Error038 rule (`edad is not None and edad < 40`) treats it | high (not executed) | Ese.Dispara237TalCual, Ese.Dispara237Falla | Ese.Dispara237, Ese.TactoFecha |
