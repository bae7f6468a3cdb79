/**
 * The data-quality validator of AnalisisJSON (`ValidadorCalidadRIPS`):
 * eight rules run over every consultation, each appending anomalies to
 * the validator's list, then a report that counts them by severity and by
 * type and grades the data by how many there are.  Every rule is a
 * function giving the anomalies it appends; the class methods append
 * exactly those.  The clock read of the date rule is the parameter `now`.
 */
module Calidad {
  import opened Wrappers
  import opened Text
  import opened Dates
  import opened Json
  import opened Counters
  import opened Patterns

  datatype Severity = Alta | Media | Baja

  /** The `tipo` of an anomaly. */
  datatype Kind =
    | CampoObligatorioFaltante
    | FormatoDocumentoInvalido | LongitudDocumentoInvalida
    | FechaFutura | FechaMuyAntigua | FormatoFechaInvalido
    | EdadNegativa | EdadExcesiva | IncoherenciaTipoDocEdad | FormatoEdadInvalido | ValorSexoInvalido
    | FormatoDiagnosticoInvalido | TipoDiagnosticoInvalido | IncoherenciaDiagnosticoSexo
    | MenorSinAcudiente | MayorConAcudiente
    | ValorNegativo | FormatoValorInvalido
    | CodigoFinalidadInvalido | CodigoCausaInvalido | CodigoZonaInvalido

  /**
   * One anomaly: its type, severity, 1-based consultation number, the
   * field it concerns and the patient's document as the consultation gives it.
   */
  datatype Anomaly = Anomaly(tipo: Kind, severidad: Severity, registro: int, campo: string, documento: Scalar)

  /** The eleven fields every consultation must fill. */
  const CamposObligatorios: seq<string> := [
    "num_factura", "cod_prestador", "tipo_documento_identificacion", "num_documento_identificacion",
    "fecha_consulta", "num_autorizacion", "cod_consulta", "finalidad_consulta", "causa_externa",
    "diagnostico_principal", "tipo_diagnostico_principal"]

  const FinalidadesValidas: seq<string> := ["01", "02", "03", "04", "05", "06", "10", "11", "12", "13", "14", "15", "16", "17"]
  const CausasValidas: seq<string> := ["01", "02", "03", "04", "05", "06", "07", "08", "09", "10", "11", "12", "13", "14", "15", "26", "38"]
  const ZonasValidas: seq<string> := ["01", "02"]
  const TiposDiagnostico: seq<string> := ["1", "2", "3", "4"]

  /** `consulta.get("num_documento_identificacion", "N/A")`. */
  function Documento(c: Record): Scalar
  {
    GetOr(c, "num_documento_identificacion", Str("N/A"))
  }

  function Anom(k: Kind, s: Severity, idx: int, campo: string, c: Record): Anomaly
  {
    Anomaly(k, s, idx, campo, Documento(c))
  }

  /** `v in [..]` for a list of strings: only a string equal to one of them is in it. */
  predicate InList(v: Scalar, xs: seq<string>)
  {
    v.Str? && v.s in xs
  }

  // ---------------------------------------------------------------------
  // The rules
  // ---------------------------------------------------------------------

  /** A mandatory field counts as missing when it is absent, `null`, `""` or `"null"`. */
  predicate Missing(v: Scalar)
  {
    v == Null || v == Str("") || v == Str("null")
  }

  /** `_validar_campos_obligatorios` over the fields `fields`, in order. */
  function Faltantes(c: Record, idx: int, fields: seq<string>): seq<Anomaly>
  {
    if fields == [] then []
    else
      Faltantes(c, idx, fields[..|fields| - 1])
      + (var f := fields[|fields| - 1];
         if Missing(Get(c, f)) then [Anom(CampoObligatorioFaltante, Alta, idx, f, c)] else [])
  }

  /** `str(x).isdigit()`: a non-empty text of digits. */
  predicate IsDigitText(t: string)
  {
    t != [] && AllDigits(t)
  }

  /** `_validar_formato_documento`. */
  function FormatoDocumento(c: Record, idx: int): seq<Anomaly>
  {
    var tipo := Get(c, "tipo_documento_identificacion");
    var num := Get(c, "num_documento_identificacion");
    if !Truthy(num) then []
    else
      var t := PyStr(num);
      (if !IsDigitText(t) then [Anom(FormatoDocumentoInvalido, Alta, idx, "num_documento_identificacion", c)] else [])
      + (if tipo == Str("CC") && (|t| < 6 || |t| > 10)
         then [Anom(LongitudDocumentoInvalida, Media, idx, "num_documento_identificacion", c)] else [])
  }

  /** The consultation date: `%Y-%m-%d %H:%M` when the text has a blank, `%Y-%m-%d` otherwise. */
  function ParseFechaConsulta(t: string): (r: Option<DateTime>)
    ensures r.Some? ==> Valid(r.value.date)
  {
    if ' ' in t then StrptimeYmdHm(t)
    else match StrptimeYmd(t) case None => None case Some(d) => Some(Midnight(d))
  }

  /** Minutes since the start of the proleptic calendar. */
  function Minutes(t: DateTime): int
    requires Valid(t.date)
  {
    Ordinal(t.date) * 1440 + t.hour * 60 + t.minute
  }

  /** `(now - f).days`: whole days elapsed, rounded down as `timedelta` does. */
  function ElapsedDays(f: DateTime, now: DateTime): int
    requires Valid(f.date) && Valid(now.date)
  {
    (Minutes(now) - Minutes(f)) / 1440
  }

  /** `_validar_fecha`. */
  function Fecha(c: Record, idx: int, now: DateTime): seq<Anomaly>
    requires Valid(now.date)
  {
    var v := Get(c, "fecha_consulta");
    if !Truthy(v) then []
    else
      match ParseFechaConsulta(PyStr(v))
      case None => [Anom(FormatoFechaInvalido, Alta, idx, "fecha_consulta", c)]
      case Some(f) =>
        (if BeforeTime(now, f) then [Anom(FechaFutura, Alta, idx, "fecha_consulta", c)] else [])
        + (if ElapsedDays(f, now) as real / 365.0 > 10.0 then [Anom(FechaMuyAntigua, Media, idx, "fecha_consulta", c)] else [])
  }

  /** The age checks of `_validar_edad_coherencia` (everything but the sex check). */
  function EdadChecks(c: Record, idx: int): seq<Anomaly>
  {
    var edad := Get(c, "edad");
    var tipo := Get(c, "tipo_documento_identificacion");
    if edad == Null then []
    else
      match ToInt(edad)
      case None => [Anom(FormatoEdadInvalido, Alta, idx, "edad", c)]
      case Some(n) =>
        (if n < 0 then [Anom(EdadNegativa, Alta, idx, "edad", c)] else [])
        + (if n > 120 then [Anom(EdadExcesiva, Alta, idx, "edad", c)] else [])
        + (if tipo == Str("RC") && n > 7 then [Anom(IncoherenciaTipoDocEdad, Media, idx, "tipo_documento_identificacion", c)] else [])
        + (if tipo == Str("TI") && (n < 7 || n > 17) then [Anom(IncoherenciaTipoDocEdad, Media, idx, "tipo_documento_identificacion", c)] else [])
        + (if tipo == Str("CC") && n < 18 then [Anom(IncoherenciaTipoDocEdad, Media, idx, "tipo_documento_identificacion", c)] else [])
  }

  /** The sex check of `_validar_edad_coherencia`. */
  function SexoCheck(c: Record, idx: int): seq<Anomaly>
  {
    var sexo := Get(c, "sexo");
    if Truthy(sexo) && !InList(sexo, ["F", "M"]) then [Anom(ValorSexoInvalido, Alta, idx, "sexo", c)] else []
  }

  /** `_validar_edad_coherencia`. */
  function EdadCoherencia(c: Record, idx: int): seq<Anomaly>
  {
    EdadChecks(c, idx) + SexoCheck(c, idx)
  }

  /** `re.match(r'^…$', t)`: `$` also matches just before a final newline. */
  predicate MatchToEnd(p: seq<Item>, t: string)
  {
    FullMatch(p, t) || (t != [] && t[|t| - 1] == '\n' && FullMatch(p, t[..|t| - 1]))
  }

  /** `str(d).startswith(('Z3', 'O'))`. */
  predicate PregnancyCode(t: string)
  {
    StartsWith(t, "Z3") || StartsWith(t, "O")
  }

  /** `_validar_diagnosticos`. */
  function Diagnosticos(c: Record, idx: int): seq<Anomaly>
  {
    var diag := Get(c, "diagnostico_principal");
    var tipo := Get(c, "tipo_diagnostico_principal");
    var sexo := Get(c, "sexo");
    (if Truthy(diag) && !MatchToEnd(DiagnosisPattern, PyStr(diag))
     then [Anom(FormatoDiagnosticoInvalido, Alta, idx, "diagnostico_principal", c)] else [])
    + (if Truthy(tipo) && !InList(tipo, TiposDiagnostico)
       then [Anom(TipoDiagnosticoInvalido, Media, idx, "tipo_diagnostico_principal", c)] else [])
    + (if Truthy(diag) && sexo == Str("M") && PregnancyCode(PyStr(diag))
       then [Anom(IncoherenciaDiagnosticoSexo, Alta, idx, "diagnostico_principal", c)] else [])
  }

  /** `_validar_relacion_acudiente`: a falsy age, or one `int()` rejects, skips both checks. */
  function RelacionAcudiente(c: Record, idx: int): seq<Anomaly>
  {
    var edad := Get(c, "edad");
    var acudiente := Get(c, "cod_acudiente");
    if !Truthy(edad) then []
    else
      match ToInt(edad)
      case None => []
      case Some(n) =>
        (if n < 18 && !Truthy(acudiente) then [Anom(MenorSinAcudiente, Media, idx, "cod_acudiente", c)] else [])
        + (if n >= 18 && Truthy(acudiente) then [Anom(MayorConAcudiente, Baja, idx, "cod_acudiente", c)] else [])
  }

  /** `_validar_valores_numericos`. */
  function ValoresNumericos(c: Record, idx: int): seq<Anomaly>
  {
    var valor := Get(c, "valor_consulta");
    var copago := Get(c, "valor_cuota_moderadora");
    (if valor == Null then []
     else match ToFloat(valor)
       case None => [Anom(FormatoValorInvalido, Media, idx, "valor_consulta", c)]
       case Some(x) => if x.Below(0.0) then [Anom(ValorNegativo, Media, idx, "valor_consulta", c)] else [])
    + (if copago == Null then []
       else match ToFloat(copago)
         case None => []
         case Some(x) => if x.Below(0.0) then [Anom(ValorNegativo, Media, idx, "valor_cuota_moderadora", c)] else [])
  }

  /** `_validar_codigos_validos`. */
  function CodigosValidos(c: Record, idx: int): seq<Anomaly>
  {
    var finalidad := Get(c, "finalidad_consulta");
    var causa := Get(c, "causa_externa");
    var zona := Get(c, "zona_territorial_residencia");
    (if Truthy(finalidad) && !InList(finalidad, FinalidadesValidas)
     then [Anom(CodigoFinalidadInvalido, Alta, idx, "finalidad_consulta", c)] else [])
    + (if Truthy(causa) && !InList(causa, CausasValidas)
       then [Anom(CodigoCausaInvalido, Alta, idx, "causa_externa", c)] else [])
    + (if Truthy(zona) && !InList(zona, ZonasValidas)
       then [Anom(CodigoZonaInvalido, Media, idx, "zona_territorial_residencia", c)] else [])
  }

  /**
   * The anomalies of a list of consultations, numbered from 1: for each
   * consultation the eight rules in the order `validar_datos_completos`
   * runs them.
   */
  function Anomalias(cs: seq<Record>, now: DateTime): seq<Anomaly>
    requires Valid(now.date)
  {
    if cs == [] then []
    else
      var c, idx := cs[|cs| - 1], |cs|;
      Anomalias(cs[..|cs| - 1], now) + Faltantes(c, idx, CamposObligatorios) + FormatoDocumento(c, idx) + Fecha(c, idx, now)
      + EdadCoherencia(c, idx) + Diagnosticos(c, idx) + RelacionAcudiente(c, idx)
      + ValoresNumericos(c, idx) + CodigosValidos(c, idx)
  }

  /** The anomalies of one more consultation follow those of the ones before it. */
  lemma AnomaliasSnoc(cs: seq<Record>, i: nat, now: DateTime)
    requires i < |cs| && Valid(now.date)
    ensures var c, idx := cs[i], i + 1;
      Anomalias(cs[..i + 1], now) == Anomalias(cs[..i], now) + Faltantes(c, idx, CamposObligatorios) + FormatoDocumento(c, idx) + Fecha(c, idx, now)
        + EdadCoherencia(c, idx) + Diagnosticos(c, idx) + RelacionAcudiente(c, idx)
        + ValoresNumericos(c, idx) + CodigosValidos(c, idx)
  {
    assert cs[..i + 1][..i] == cs[..i];
  }

  /** `datos_rips.get("consultas", [])`. */
  function ConsultasOf(consultas: Option<seq<Record>>): seq<Record>
  {
    match consultas case None => [] case Some(cs) => cs
  }

  // ---------------------------------------------------------------------
  // The report
  // ---------------------------------------------------------------------

  datatype Quality = Excelente | Buena | Regular | Deficiente | Critica
  {
    /** Position from best (0) to worst (4). */
    function Rank(): nat
    {
      match this
      case Excelente => 0
      case Buena => 1
      case Regular => 2
      case Deficiente => 3
      case Critica => 4
    }
  }

  /** `_calcular_calidad` for `total` anomalies. */
  function QualityOf(total: nat): Quality
  {
    if total == 0 then Excelente
    else if total <= 5 then Buena
    else if total <= 15 then Regular
    else if total <= 30 then Deficiente
    else Critica
  }

  datatype Report = Report(
    total: nat,
    alta: nat, media: nat, baja: nat,
    porTipo: seq<Entry<Kind>>,
    top10: seq<Entry<Kind>>,
    detalle: seq<Anomaly>,
    calidad: Quality)

  function SeverityCount(xs: seq<Anomaly>, s: Severity): nat
  {
    if xs == [] then 0
    else SeverityCount(xs[..|xs| - 1], s) + (if xs[|xs| - 1].severidad == s then 1 else 0)
  }

  function Kinds(xs: seq<Anomaly>): (r: seq<Kind>)
    ensures |r| == |xs|
  {
    if xs == [] then [] else Kinds(xs[..|xs| - 1]) + [xs[|xs| - 1].tipo]
  }

  /** `tipos`, the insertion-ordered count of anomalies per type. */
  function TypeCounts(xs: seq<Anomaly>): (r: seq<Entry<Kind>>)
    ensures DistinctKeys(r)
  {
    BumpAll([], Kinds(xs))
  }

  /** `_generar_reporte_validacion` over the anomalies `xs`. */
  function ReportOf(xs: seq<Anomaly>): Report
  {
    Report(|xs|, SeverityCount(xs, Alta), SeverityCount(xs, Media), SeverityCount(xs, Baja),
           TypeCounts(xs), TopCounts(TypeCounts(xs), 10), xs, QualityOf(|xs|))
  }

  lemma TallyStep(xs: seq<Anomaly>, i: nat)
    requires i < |xs|
    ensures forall s :: SeverityCount(xs[..i + 1], s) == SeverityCount(xs[..i], s) + (if xs[i].severidad == s then 1 else 0)
    ensures TypeCounts(xs[..i + 1]) == Bump(TypeCounts(xs[..i]), xs[i].tipo)
  {
    assert xs[..i + 1][..i] == xs[..i];
    assert Kinds(xs[..i + 1]) == Kinds(xs[..i]) + [xs[i].tipo];
    BumpAllSnoc([], Kinds(xs[..i]), xs[i].tipo);
  }

  /** The one pass of `_generar_reporte_validacion` that counts severities and types. */
  method Tally(xs: seq<Anomaly>) returns (alta: nat, media: nat, baja: nat, tipos: seq<Entry<Kind>>)
    ensures alta == SeverityCount(xs, Alta) && media == SeverityCount(xs, Media) && baja == SeverityCount(xs, Baja)
    ensures tipos == TypeCounts(xs)
  {
    alta, media, baja, tipos := 0, 0, 0, [];
    for i := 0 to |xs|
      invariant alta == SeverityCount(xs[..i], Alta)
      invariant media == SeverityCount(xs[..i], Media)
      invariant baja == SeverityCount(xs[..i], Baja)
      invariant tipos == TypeCounts(xs[..i])
    {
      TallyStep(xs, i);
      match xs[i].severidad {
        case Alta => alta := alta + 1;
        case Media => media := media + 1;
        case Baja => baja := baja + 1;
      }
      tipos := Bump(tipos, xs[i].tipo);
    }
    assert xs[..|xs|] == xs;
  }

  // ---------------------------------------------------------------------
  // The validator
  // ---------------------------------------------------------------------

  class ValidadorCalidadRIPS {
    var anomalias: seq<Anomaly>
    const camposObligatoriosConsulta: seq<string>

    constructor()
      ensures anomalias == [] && camposObligatoriosConsulta == CamposObligatorios
    {
      anomalias := [];
      camposObligatoriosConsulta := CamposObligatorios;
    }

    /**
     * `validar_datos_completos`: the list starts empty, the rules run on
     * each consultation in turn, and the report describes what they found.
     */
    method ValidarDatosCompletos(consultas: Option<seq<Record>>, now: DateTime) returns (r: Report)
      requires camposObligatoriosConsulta == CamposObligatorios
      requires Valid(now.date)
      modifies this
      ensures anomalias == Anomalias(ConsultasOf(consultas), now)
      ensures r == ReportOf(anomalias)
    {
      anomalias := [];
      var cs := ConsultasOf(consultas);
      for i := 0 to |cs|
        invariant anomalias == Anomalias(cs[..i], now)
      {
        ValidarConsulta(cs[i], i + 1, now);
        AnomaliasSnoc(cs, i, now);
      }
      assert cs[..|cs|] == cs;
      r := GenerarReporteValidacion();
    }

    /** The eight rules on one consultation, in the order the loop of `validar_datos_completos` runs them. */
    method ValidarConsulta(c: Record, idx: int, now: DateTime)
      requires camposObligatoriosConsulta == CamposObligatorios
      requires Valid(now.date)
      modifies this
      ensures anomalias == old(anomalias) + Faltantes(c, idx, CamposObligatorios) + FormatoDocumento(c, idx) + Fecha(c, idx, now)
        + EdadCoherencia(c, idx) + Diagnosticos(c, idx) + RelacionAcudiente(c, idx)
        + ValoresNumericos(c, idx) + CodigosValidos(c, idx)
    {
      ValidarCamposObligatorios(c, idx);
      ValidarFormatoDocumento(c, idx);
      ValidarFecha(c, idx, now);
      ValidarEdadCoherencia(c, idx);
      ValidarDiagnosticos(c, idx);
      ValidarRelacionAcudiente(c, idx);
      ValidarValoresNumericos(c, idx);
      ValidarCodigosValidos(c, idx);
    }

    /** `_validar_campos_obligatorios`. */
    method ValidarCamposObligatorios(c: Record, idx: int)
      requires camposObligatoriosConsulta == CamposObligatorios
      modifies this
      ensures anomalias == old(anomalias) + Faltantes(c, idx, CamposObligatorios)
    {
      var fields := camposObligatoriosConsulta;
      ghost var start := anomalias;
      for j := 0 to |fields|
        invariant anomalias == start + Faltantes(c, idx, fields[..j])
      {
        var v := Get(c, fields[j]);
        assert fields[..j + 1][..j] == fields[..j];
        if v == Null || v == Str("") || v == Str("null") {
          anomalias := anomalias + [Anomaly(CampoObligatorioFaltante, Alta, idx, fields[j], GetOr(c, "num_documento_identificacion", Str("N/A")))];
        }
      }
      assert fields[..|fields|] == fields;
    }

    /** `_validar_formato_documento`. */
    method ValidarFormatoDocumento(c: Record, idx: int)
      modifies this
      ensures anomalias == old(anomalias) + FormatoDocumento(c, idx)
    {
      var tipo := Get(c, "tipo_documento_identificacion");
      var num := Get(c, "num_documento_identificacion");
      var found: seq<Anomaly> := [];
      if Truthy(num) {
        var t := PyStr(num);
        if !IsDigitText(t) {
          found := found + [Anom(FormatoDocumentoInvalido, Alta, idx, "num_documento_identificacion", c)];
        }
        if tipo == Str("CC") && (|t| < 6 || |t| > 10) {
          found := found + [Anom(LongitudDocumentoInvalida, Media, idx, "num_documento_identificacion", c)];
        }
      }
      anomalias := anomalias + found;
    }

    /** `_validar_fecha`. */
    method ValidarFecha(c: Record, idx: int, now: DateTime)
      requires Valid(now.date)
      modifies this
      ensures anomalias == old(anomalias) + Fecha(c, idx, now)
    {
      var v := Get(c, "fecha_consulta");
      var found: seq<Anomaly> := [];
      if Truthy(v) {
        var p := ParseFechaConsulta(PyStr(v));
        if p.None? {
          found := [Anom(FormatoFechaInvalido, Alta, idx, "fecha_consulta", c)];
        } else {
          var f := p.value;
          if BeforeTime(now, f) {
            found := found + [Anom(FechaFutura, Alta, idx, "fecha_consulta", c)];
          }
          if ElapsedDays(f, now) as real / 365.0 > 10.0 {
            found := found + [Anom(FechaMuyAntigua, Media, idx, "fecha_consulta", c)];
          }
        }
      }
      anomalias := anomalias + found;
    }

    /** `_validar_edad_coherencia`. */
    method ValidarEdadCoherencia(c: Record, idx: int)
      modifies this
      ensures anomalias == old(anomalias) + EdadCoherencia(c, idx)
    {
      var edad := Get(c, "edad");
      var tipo := Get(c, "tipo_documento_identificacion");
      var sexo := Get(c, "sexo");
      var found: seq<Anomaly> := [];
      if edad != Null {
        match ToInt(edad)
        case None =>
          found := [Anom(FormatoEdadInvalido, Alta, idx, "edad", c)];
        case Some(n) =>
          if n < 0 {
            found := found + [Anom(EdadNegativa, Alta, idx, "edad", c)];
          }
          if n > 120 {
            found := found + [Anom(EdadExcesiva, Alta, idx, "edad", c)];
          }
          if tipo == Str("RC") && n > 7 {
            found := found + [Anom(IncoherenciaTipoDocEdad, Media, idx, "tipo_documento_identificacion", c)];
          }
          if tipo == Str("TI") && (n < 7 || n > 17) {
            found := found + [Anom(IncoherenciaTipoDocEdad, Media, idx, "tipo_documento_identificacion", c)];
          }
          if tipo == Str("CC") && n < 18 {
            found := found + [Anom(IncoherenciaTipoDocEdad, Media, idx, "tipo_documento_identificacion", c)];
          }
      }
      assert found == EdadChecks(c, idx);
      if Truthy(sexo) && !InList(sexo, ["F", "M"]) {
        found := found + [Anom(ValorSexoInvalido, Alta, idx, "sexo", c)];
      }
      anomalias := anomalias + found;
    }

    /** `_validar_diagnosticos`. */
    method ValidarDiagnosticos(c: Record, idx: int)
      modifies this
      ensures anomalias == old(anomalias) + Diagnosticos(c, idx)
    {
      var diag := Get(c, "diagnostico_principal");
      var tipo := Get(c, "tipo_diagnostico_principal");
      var sexo := Get(c, "sexo");
      var found: seq<Anomaly> := [];
      if Truthy(diag) && !MatchToEnd(DiagnosisPattern, PyStr(diag)) {
        found := found + [Anom(FormatoDiagnosticoInvalido, Alta, idx, "diagnostico_principal", c)];
      }
      if Truthy(tipo) && !InList(tipo, TiposDiagnostico) {
        found := found + [Anom(TipoDiagnosticoInvalido, Media, idx, "tipo_diagnostico_principal", c)];
      }
      if Truthy(diag) && sexo == Str("M") && PregnancyCode(PyStr(diag)) {
        found := found + [Anom(IncoherenciaDiagnosticoSexo, Alta, idx, "diagnostico_principal", c)];
      }
      anomalias := anomalias + found;
    }

    /** `_validar_relacion_acudiente`. */
    method ValidarRelacionAcudiente(c: Record, idx: int)
      modifies this
      ensures anomalias == old(anomalias) + RelacionAcudiente(c, idx)
    {
      var edad := Get(c, "edad");
      var acudiente := Get(c, "cod_acudiente");
      var found: seq<Anomaly> := [];
      if Truthy(edad) {
        var n := ToInt(edad);
        if n.Some? && n.value < 18 && !Truthy(acudiente) {
          found := [Anom(MenorSinAcudiente, Media, idx, "cod_acudiente", c)];
        }
        if n.Some? && n.value >= 18 && Truthy(acudiente) {
          found := [Anom(MayorConAcudiente, Baja, idx, "cod_acudiente", c)];
        }
      }
      anomalias := anomalias + found;
    }

    /** `_validar_valores_numericos`. */
    method ValidarValoresNumericos(c: Record, idx: int)
      modifies this
      ensures anomalias == old(anomalias) + ValoresNumericos(c, idx)
    {
      var valor := Get(c, "valor_consulta");
      var copago := Get(c, "valor_cuota_moderadora");
      var found: seq<Anomaly> := [];
      if valor != Null {
        match ToFloat(valor)
        case None =>
          found := [Anom(FormatoValorInvalido, Media, idx, "valor_consulta", c)];
        case Some(x) =>
          if x.Below(0.0) {
            found := [Anom(ValorNegativo, Media, idx, "valor_consulta", c)];
          }
      }
      if copago != Null {
        match ToFloat(copago)
        case None =>
        case Some(x) =>
          if x.Below(0.0) {
            found := found + [Anom(ValorNegativo, Media, idx, "valor_cuota_moderadora", c)];
          }
      }
      anomalias := anomalias + found;
    }

    /** `_validar_codigos_validos`. */
    method ValidarCodigosValidos(c: Record, idx: int)
      modifies this
      ensures anomalias == old(anomalias) + CodigosValidos(c, idx)
    {
      var finalidad := Get(c, "finalidad_consulta");
      var causa := Get(c, "causa_externa");
      var zona := Get(c, "zona_territorial_residencia");
      var found: seq<Anomaly> := [];
      if Truthy(finalidad) && !InList(finalidad, FinalidadesValidas) {
        found := found + [Anom(CodigoFinalidadInvalido, Alta, idx, "finalidad_consulta", c)];
      }
      if Truthy(causa) && !InList(causa, CausasValidas) {
        found := found + [Anom(CodigoCausaInvalido, Alta, idx, "causa_externa", c)];
      }
      if Truthy(zona) && !InList(zona, ZonasValidas) {
        found := found + [Anom(CodigoZonaInvalido, Media, idx, "zona_territorial_residencia", c)];
      }
      anomalias := anomalias + found;
    }

    /** `_generar_reporte_validacion`. */
    method GenerarReporteValidacion() returns (r: Report)
      ensures r == ReportOf(anomalias)
    {
      var alta, media, baja, tipos := Tally(anomalias);
      var top := TopCounts(tipos, 10);
      r := Report(|anomalias|, alta, media, baja, tipos, top, anomalias, CalcularCalidad());
    }

    /** `_calcular_calidad`. */
    function CalcularCalidad(): Quality
      reads this
    {
      QualityOf(|anomalias|)
    }
  }

  // ---------------------------------------------------------------------
  // Properties
  // ---------------------------------------------------------------------

  /** The anomalies of `fields` that name the field `f`. */
  function AboutField(xs: seq<Anomaly>, f: string): nat
  {
    if xs == [] then 0
    else AboutField(xs[..|xs| - 1], f) + (if xs[|xs| - 1].campo == f then 1 else 0)
  }

  lemma {:induction false} AboutFieldAppend(xs: seq<Anomaly>, ys: seq<Anomaly>, f: string)
    ensures AboutField(xs + ys, f) == AboutField(xs, f) + AboutField(ys, f)
  {
    if ys != [] {
      assert (xs + ys)[..|xs + ys| - 1] == xs + ys[..|ys| - 1];
      assert (xs + ys)[|xs + ys| - 1] == ys[|ys| - 1];
      AboutFieldAppend(xs, ys[..|ys| - 1], f);
    } else {
      assert xs + ys == xs;
    }
  }

  /**
   * Over a list of distinct fields, each missing field yields exactly one
   * anomaly naming it, and a present field none; all of them are ALTA
   * anomalies of type CAMPO_OBLIGATORIO_FALTANTE.
   */
  lemma {:induction false} FaltantesExact(c: Record, idx: int, fields: seq<string>, f: string)
    requires forall i, j :: 0 <= i < j < |fields| ==> fields[i] != fields[j]
    ensures AboutField(Faltantes(c, idx, fields), f) == if f in fields && Missing(Get(c, f)) then 1 else 0
    ensures forall a :: a in Faltantes(c, idx, fields) ==> a.tipo == CampoObligatorioFaltante && a.severidad == Alta && a.registro == idx
  {
    if fields != [] {
      var prior, last := fields[..|fields| - 1], fields[|fields| - 1];
      FaltantesExact(c, idx, prior, f);
      var tail := if Missing(Get(c, last)) then [Anom(CampoObligatorioFaltante, Alta, idx, last, c)] else [];
      AboutFieldAppend(Faltantes(c, idx, prior), tail, f);
      assert AboutField(tail, f) == if f == last && Missing(Get(c, last)) then 1 else 0 by {
        if tail != [] { assert tail[..0] == []; }
      }
      assert fields == prior + [last];
      assert last !in prior by {
        forall i | 0 <= i < |prior| ensures prior[i] != last { assert prior[i] == fields[i]; }
      }
    }
  }

  /** The eleven mandatory fields are distinct, so each missing one is reported exactly once. */
  lemma MandatoryFieldsReportedOnce(c: Record, idx: int, f: string)
    ensures AboutField(Faltantes(c, idx, CamposObligatorios), f)
      == if f in CamposObligatorios && Missing(Get(c, f)) then 1 else 0
  {
    FaltantesExact(c, idx, CamposObligatorios, f);
  }

  /**
   * A truthy document number is reported ALTA when it is not all digits;
   * a CC is reported MEDIA when its length is outside 6 to 10, whether or
   * not it is all digits.  A falsy number is never reported.
   */
  lemma DocumentoChecks(c: Record, idx: int)
    ensures var num := Get(c, "num_documento_identificacion");
      && (!Truthy(num) ==> FormatoDocumento(c, idx) == [])
      && (Anom(FormatoDocumentoInvalido, Alta, idx, "num_documento_identificacion", c) in FormatoDocumento(c, idx)
          <==> Truthy(num) && !IsDigitText(PyStr(num)))
      && (Anom(LongitudDocumentoInvalida, Media, idx, "num_documento_identificacion", c) in FormatoDocumento(c, idx)
          <==> Truthy(num) && Get(c, "tipo_documento_identificacion") == Str("CC")
               && (|PyStr(num)| < 6 || |PyStr(num)| > 10))
  {
  }

  /**
   * An unparsable date is reported once as FORMATO_FECHA_INVALIDO and
   * nothing else; a parsed date is reported as future exactly when it is
   * after `now` and as too old exactly when more than 3650 days have
   * elapsed.  A falsy date is never reported.
   */
  lemma FechaChecks(c: Record, idx: int, now: DateTime)
    requires Valid(now.date)
    ensures var v := Get(c, "fecha_consulta");
      && (!Truthy(v) ==> Fecha(c, idx, now) == [])
      && (Truthy(v) && ParseFechaConsulta(PyStr(v)).None? ==> Fecha(c, idx, now) == [Anom(FormatoFechaInvalido, Alta, idx, "fecha_consulta", c)])
      && (Truthy(v) && ParseFechaConsulta(PyStr(v)).Some? ==>
            var f := ParseFechaConsulta(PyStr(v)).value;
            && (Anom(FechaFutura, Alta, idx, "fecha_consulta", c) in Fecha(c, idx, now) <==> BeforeTime(now, f))
            && (Anom(FechaMuyAntigua, Media, idx, "fecha_consulta", c) in Fecha(c, idx, now) <==> ElapsedDays(f, now) > 3650)
            && |Fecha(c, idx, now)| <= 2)
  {
    var v := Get(c, "fecha_consulta");
    if Truthy(v) && ParseFechaConsulta(PyStr(v)).Some? {
      var f := ParseFechaConsulta(PyStr(v)).value;
      var d := ElapsedDays(f, now);
      assert d as real / 365.0 > 10.0 <==> d > 3650;
    }
  }

  /**
   * A non-null age `int()` rejects gives FORMATO_EDAD_INVALIDO and no
   * other age anomaly; an integer age gives one anomaly per broken
   * condition: negative, over 120, RC over 7, TI outside 7 to 17, CC under 18.
   */
  lemma EdadChecksExact(c: Record, idx: int)
    ensures var edad, tipo := Get(c, "edad"), Get(c, "tipo_documento_identificacion");
      && (edad == Null ==> EdadChecks(c, idx) == [])
      && (edad != Null && ToInt(edad).None? ==> EdadChecks(c, idx) == [Anom(FormatoEdadInvalido, Alta, idx, "edad", c)])
      && (ToInt(edad).Some? ==>
            var n := ToInt(edad).value;
            && Anom(FormatoEdadInvalido, Alta, idx, "edad", c) !in EdadChecks(c, idx)
            && (Anom(EdadNegativa, Alta, idx, "edad", c) in EdadChecks(c, idx) <==> n < 0)
            && (Anom(EdadExcesiva, Alta, idx, "edad", c) in EdadChecks(c, idx) <==> n > 120)
            && (Anom(IncoherenciaTipoDocEdad, Media, idx, "tipo_documento_identificacion", c) in EdadChecks(c, idx)
                <==> (tipo == Str("RC") && n > 7) || (tipo == Str("TI") && (n < 7 || n > 17)) || (tipo == Str("CC") && n < 18))
            && |EdadChecks(c, idx)| == (if n < 0 then 1 else 0) + (if n > 120 then 1 else 0)
                 + (if tipo == Str("RC") && n > 7 then 1 else 0) + (if tipo == Str("TI") && (n < 7 || n > 17) then 1 else 0)
                 + (if tipo == Str("CC") && n < 18 then 1 else 0))
  {
    var edad, tipo := Get(c, "edad"), Get(c, "tipo_documento_identificacion");
    if edad != Null && ToInt(edad).Some? {
      var n := ToInt(edad).value;
      var doc := Anom(IncoherenciaTipoDocEdad, Media, idx, "tipo_documento_identificacion", c);
      var neg := if n < 0 then [Anom(EdadNegativa, Alta, idx, "edad", c)] else [];
      var exc := if n > 120 then [Anom(EdadExcesiva, Alta, idx, "edad", c)] else [];
      var rc := if tipo == Str("RC") && n > 7 then [doc] else [];
      var ti := if tipo == Str("TI") && (n < 7 || n > 17) then [doc] else [];
      var cc := if tipo == Str("CC") && n < 18 then [doc] else [];
      assert EdadChecks(c, idx) == neg + exc + rc + ti + cc;
    }
  }

  /** A truthy sex other than `F` or `M` is reported ALTA, and nothing else is. */
  lemma SexoChecks(c: Record, idx: int)
    ensures var sexo := Get(c, "sexo");
      && (SexoCheck(c, idx) != [] <==> Truthy(sexo) && sexo != Str("F") && sexo != Str("M"))
      && (SexoCheck(c, idx) != [] ==> SexoCheck(c, idx) == [Anom(ValorSexoInvalido, Alta, idx, "sexo", c)])
  {
  }

  /**
   * A truthy diagnosis that does not match `^[A-Z][0-9]{2,3}[0-9A-Z]?$` is
   * reported; a male patient with a diagnosis starting `Z3` or `O` is
   * reported ALTA; a truthy diagnosis type outside 1 to 4 is reported MEDIA.
   */
  lemma DiagnosticoChecks(c: Record, idx: int)
    ensures var diag, tipo := Get(c, "diagnostico_principal"), Get(c, "tipo_diagnostico_principal");
      && (Anom(FormatoDiagnosticoInvalido, Alta, idx, "diagnostico_principal", c) in Diagnosticos(c, idx)
          <==> Truthy(diag) && !MatchToEnd(DiagnosisPattern, PyStr(diag)))
      && (Anom(IncoherenciaDiagnosticoSexo, Alta, idx, "diagnostico_principal", c) in Diagnosticos(c, idx)
          <==> Truthy(diag) && Get(c, "sexo") == Str("M") && PregnancyCode(PyStr(diag)))
      && (Anom(TipoDiagnosticoInvalido, Media, idx, "tipo_diagnostico_principal", c) in Diagnosticos(c, idx)
          <==> Truthy(tipo) && !InList(tipo, TiposDiagnostico))
      && |Diagnosticos(c, idx)| <= 3
  {
  }

  /** A diagnosis of the ICD-10 shape (letter, two or three digits, optional digit or letter) passes the format check. */
  lemma DiagnosisShapePasses(s: string)
    requires 3 <= |s| <= 5 && IsUpper(s[0]) && IsDigit(s[1]) && IsDigit(s[2])
    requires |s| >= 4 ==> IsDigit(s[3]) || IsUpper(s[3])
    requires |s| == 5 ==> IsDigit(s[3]) && (IsDigit(s[4]) || IsUpper(s[4]))
    ensures MatchToEnd(DiagnosisPattern, s)
  {
    DiagnosisShape(s);
  }

  /**
   * The guardian rules: a falsy age (absent, null, 0 or "") or one `int()`
   * rejects gives nothing; under 18 without a guardian gives MEDIA, 18 or
   * over with one gives BAJA.
   */
  lemma AcudienteChecks(c: Record, idx: int)
    ensures var edad, acudiente := Get(c, "edad"), Get(c, "cod_acudiente");
      && (!Truthy(edad) || ToInt(edad).None? ==> RelacionAcudiente(c, idx) == [])
      && (Truthy(edad) && ToInt(edad).Some? ==>
            var n := ToInt(edad).value;
            && (Anom(MenorSinAcudiente, Media, idx, "cod_acudiente", c) in RelacionAcudiente(c, idx) <==> n < 18 && !Truthy(acudiente))
            && (Anom(MayorConAcudiente, Baja, idx, "cod_acudiente", c) in RelacionAcudiente(c, idx) <==> n >= 18 && Truthy(acudiente))
            && |RelacionAcudiente(c, idx)| <= 1)
  {
  }

  /**
   * The domain checks run only on truthy values: a falsy finality, cause
   * or zone is never reported, and a truthy one is reported exactly when
   * it is not one of the listed codes.
   */
  lemma CodigosChecks(c: Record, idx: int)
    ensures var f, k, z := Get(c, "finalidad_consulta"), Get(c, "causa_externa"), Get(c, "zona_territorial_residencia");
      && (Anom(CodigoFinalidadInvalido, Alta, idx, "finalidad_consulta", c) in CodigosValidos(c, idx)
          <==> Truthy(f) && !InList(f, FinalidadesValidas))
      && (Anom(CodigoCausaInvalido, Alta, idx, "causa_externa", c) in CodigosValidos(c, idx)
          <==> Truthy(k) && !InList(k, CausasValidas))
      && (Anom(CodigoZonaInvalido, Media, idx, "zona_territorial_residencia", c) in CodigosValidos(c, idx)
          <==> Truthy(z) && !InList(z, ZonasValidas))
      && |CodigosValidos(c, idx)| <= 3
  {
  }

  /**
   * A negative consultation value is reported, and so is one `float()`
   * rejects; a negative co-payment is reported, but an unreadable one is not.
   */
  lemma ValoresChecks(c: Record, idx: int)
    ensures var v, p := Get(c, "valor_consulta"), Get(c, "valor_cuota_moderadora");
      && (Anom(FormatoValorInvalido, Media, idx, "valor_consulta", c) in ValoresNumericos(c, idx)
          <==> v != Null && ToFloat(v).None?)
      && (Anom(ValorNegativo, Media, idx, "valor_consulta", c) in ValoresNumericos(c, idx)
          <==> ToFloat(v).Some? && ToFloat(v).value.Below(0.0))
      && (Anom(ValorNegativo, Media, idx, "valor_cuota_moderadora", c) in ValoresNumericos(c, idx)
          <==> ToFloat(p).Some? && ToFloat(p).value.Below(0.0))
      && |ValoresNumericos(c, idx)| <= 2
  {
  }

  /** The severity counts add up to the total number of anomalies. */
  lemma {:induction false} SeveritiesSum(xs: seq<Anomaly>)
    ensures SeverityCount(xs, Alta) + SeverityCount(xs, Media) + SeverityCount(xs, Baja) == |xs|
  {
    if xs != [] {
      SeveritiesSum(xs[..|xs| - 1]);
    }
  }

  /** Each type's count is the number of anomalies of that type, and the counts add up to the total. */
  lemma TypeCountsExact(xs: seq<Anomaly>, k: Kind)
    ensures CountOf(TypeCounts(xs), k) == multiset(Kinds(xs))[k]
    ensures Total(TypeCounts(xs)) == |xs|
  {
    BumpAllCounts([], Kinds(xs), k);
    BumpAllTotal([], Kinds(xs));
  }

  /**
   * The report: severities sum to the total; the top list has at most ten
   * entries, highest count first, taken from the type counts, and no type
   * left out of it outnumbers one in it; the grade follows the total.
   */
  lemma ReportInvariants(xs: seq<Anomaly>)
    ensures var r := ReportOf(xs);
      && r.alta + r.media + r.baja == r.total == |xs|
      && |r.top10| <= 10 && NonIncreasing(r.top10)
      && multiset(r.top10) <= multiset(r.porTipo)
      && (forall x, y :: x in r.porTipo && x !in r.top10 && y in r.top10 ==> y.count >= x.count)
      && r.calidad == QualityOf(r.total)
  {
    SeveritiesSum(xs);
    TopCountsAreLargest(TypeCounts(xs), 10);
  }

  /** The grade follows the thresholds 0, 5, 15 and 30, and more anomalies never give a better grade. */
  lemma QualityThresholds(n: nat, m: nat)
    ensures QualityOf(n) == Excelente <==> n == 0
    ensures QualityOf(n) == Buena <==> 1 <= n <= 5
    ensures QualityOf(n) == Regular <==> 6 <= n <= 15
    ensures QualityOf(n) == Deficiente <==> 16 <= n <= 30
    ensures QualityOf(n) == Critica <==> n > 30
    ensures n <= m ==> QualityOf(n).Rank() <= QualityOf(m).Rank()
  {
  }
}
