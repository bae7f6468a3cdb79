/**
 * The advanced validator of AnalisisJSON (`ValidadorAvanzadoRIPS`): the
 * data checks over users and their consultations, the age/diagnosis
 * coherence rule, the quality indicators, the risk groups and the
 * public-health events.  The users come from `Cargador.Usuarios`; the
 * clock read behind every age is the parameter `today`.
 */
module Avanzado {
  import opened Wrappers
  import opened Text
  import opened Dates
  import opened Json
  import opened Counters
  import opened Cargador

  /** `d.startswith("O") or d.startswith("Z3")`: pregnancy and childbirth codes. */
  predicate PregnancyCode(d: string)
  {
    StartsWith(d, "O") || StartsWith(d, "Z3")
  }

  const CodigosPerinatales: seq<string> := ["P00", "P01", "P02", "P03", "P04", "P05"]

  /** Membership in `CodigosPerinatales`, written character by character. */
  predicate Perinatal(d: string)
  {
    |d| == 3 && d[0] == 'P' && d[1] == '0' && '0' <= d[2] <= '5'
  }

  /** `Perinatal` is exactly membership in the list P00 to P05. */
  lemma PerinatalIsList(d: string)
    ensures Perinatal(d) <==> d in CodigosPerinatales
  {
    if Perinatal(d) {
      assert d == ['P', '0', d[2]];
    }
  }

  /**
   * `_validar_coherencia_edad_diagnostico`: true when the diagnosis does
   * not fit the age.
   */
  predicate IncoherenciaEdadDiagnostico(diagnostico: string, edad: int)
  {
    if PregnancyCode(diagnostico) && (edad < 10 || edad > 55) then true
    else if Perinatal(diagnostico) && edad > 1 then true
    else false
  }

  /**
   * The rule flags exactly a pregnancy code under 10 or over 55, or a
   * perinatal code P00 to P05 over age 1; the two never overlap, since no
   * perinatal code is a pregnancy code.
   */
  lemma IncoherenciaIff(diagnostico: string, edad: int)
    ensures IncoherenciaEdadDiagnostico(diagnostico, edad)
      <==> (PregnancyCode(diagnostico) && (edad < 10 || edad > 55)) || (diagnostico in CodigosPerinatales && edad > 1)
    ensures diagnostico in CodigosPerinatales ==> !PregnancyCode(diagnostico)
    ensures 10 <= edad <= 55 && diagnostico !in CodigosPerinatales ==> !IncoherenciaEdadDiagnostico(diagnostico, edad)
  {
    PerinatalIsList(diagnostico);
  }

  // ---------------------------------------------------------------------
  // _validar_datos
  // ---------------------------------------------------------------------

  datatype SexoIssue = SexoIssue(documento: Scalar, diagnostico: string)
  datatype EdadIssue = EdadIssue(documento: Scalar, edad: int, diagnostico: string)

  /** The counters and lists of `_validar_datos` (`diagnosticos_invalidos` stays empty and is not kept). */
  datatype Validaciones = Validaciones(
    totalUsuarios: nat,
    usuariosSinFechaNacimiento: nat,
    usuariosSinDocumento: nat,
    consultasSinDiagnostico: nat,
    consultasSinFecha: nat,
    valoresServicioCero: nat,
    totalConsultas: nat,
    inconsistenciasEdad: seq<EdadIssue>,
    inconsistenciasSexo: seq<SexoIssue>)

  /** `consulta.get("vrServicio", 0) == 0`: absent, `0` or `false`. */
  predicate ValorCero(c: Record)
  {
    var v := GetOr(c, "vrServicio", Int(0));
    v == Int(0) || v == Bool(false)
  }

  /** The age `_validar_datos` uses: computed only for a truthy birth date. */
  function EdadDatos(u: User, today: Date): Option<int>
  {
    var fn := Get(u.fields, "fechaNacimiento");
    if Truthy(fn) then CalcularEdad(fn, Null, today) else None
  }

  /** A male user's pregnancy diagnosis. */
  predicate SexoIncoherente(u: User, diag: Scalar)
  {
    Truthy(diag) && Get(u.fields, "codSexo") == Str("M") && diag.Str? && PregnancyCode(diag.s)
  }

  /** A diagnosis that does not fit the user's age. */
  predicate EdadIncoherente(edad: Option<int>, diag: Scalar)
  {
    Truthy(diag) && edad.Some? && diag.Str? && IncoherenciaEdadDiagnostico(diag.s, edad.value)
  }

  /** The checks on one consultation of user `u`. */
  function RevisarConsulta(v: Validaciones, u: User, edad: Option<int>, c: Record): Validaciones
  {
    var diag := Get(c, "codDiagnosticoPrincipal");
    var doc := Get(u.fields, "numDocumentoIdentificacion");
    v.(consultasSinDiagnostico := v.consultasSinDiagnostico + (if Truthy(diag) then 0 else 1),
       consultasSinFecha := v.consultasSinFecha + (if Truthy(Get(c, "fechaInicioAtencion")) then 0 else 1),
       valoresServicioCero := v.valoresServicioCero + (if ValorCero(c) then 1 else 0),
       inconsistenciasSexo := v.inconsistenciasSexo + (if SexoIncoherente(u, diag) then [SexoIssue(doc, diag.s)] else []),
       inconsistenciasEdad := v.inconsistenciasEdad
         + (if EdadIncoherente(edad, diag) then [EdadIssue(doc, edad.value, diag.s)] else []))
  }

  function RevisarConsultas(v: Validaciones, u: User, edad: Option<int>, cs: seq<Record>): Validaciones
  {
    if cs == [] then v
    else RevisarConsulta(RevisarConsultas(v, u, edad, cs[..|cs| - 1]), u, edad, cs[|cs| - 1])
  }

  /** The checks on one user: its own fields, then each of its consultations. */
  function RevisarUsuario(v: Validaciones, u: User, today: Date): Validaciones
  {
    var base := v.(
      usuariosSinFechaNacimiento := v.usuariosSinFechaNacimiento + (if Truthy(Get(u.fields, "fechaNacimiento")) then 0 else 1),
      usuariosSinDocumento := v.usuariosSinDocumento + (if Truthy(Get(u.fields, "numDocumentoIdentificacion")) then 0 else 1),
      totalConsultas := v.totalConsultas + |Consultas(u)|);
    RevisarConsultas(base, u, EdadDatos(u, today), Consultas(u))
  }

  function RevisarUsuarios(v: Validaciones, us: seq<User>, today: Date): Validaciones
  {
    if us == [] then v
    else RevisarUsuario(RevisarUsuarios(v, us[..|us| - 1], today), us[|us| - 1], today)
  }

  function InicioValidaciones(n: nat): Validaciones
  {
    Validaciones(n, 0, 0, 0, 0, 0, 0, [], [])
  }

  /** The counters and lists `_validar_datos` returns for `us`. */
  function Datos(us: seq<User>, today: Date): Validaciones
  {
    RevisarUsuarios(InicioValidaciones(|us|), us, today)
  }

  /** `n / t * 100 if t > 0 else 0`, the percentages of `_validar_datos`. */
  function Porcentaje(n: nat, t: nat): real
  {
    if t > 0 then n as real / t as real * 100.0 else 0.0
  }

  /** A share of a total lies between 0 and 100 percent. */
  lemma PorcentajeBounds(n: nat, t: nat)
    requires n <= t
    ensures 0.0 <= Porcentaje(n, t) <= 100.0
    ensures t > 0 && n == t ==> Porcentaje(n, t) == 100.0
  {
    if t > 0 {
      assert n as real / t as real <= 1.0;
    }
  }

  /**
   * The per-consultation facts: a consultation without a diagnosis is
   * counted once; a male patient's pregnancy diagnosis is recorded once,
   * and an age-incoherent diagnosis once; the other counters do not change.
   */
  lemma RevisarConsultaEffect(v: Validaciones, u: User, edad: Option<int>, c: Record)
    ensures var r, diag := RevisarConsulta(v, u, edad, c), Get(c, "codDiagnosticoPrincipal");
      && r.consultasSinDiagnostico == v.consultasSinDiagnostico + (if Truthy(diag) then 0 else 1)
      && |r.inconsistenciasSexo| == |v.inconsistenciasSexo| + (if SexoIncoherente(u, diag) then 1 else 0)
      && |r.inconsistenciasEdad| == |v.inconsistenciasEdad| + (if EdadIncoherente(edad, diag) then 1 else 0)
      && r.totalUsuarios == v.totalUsuarios && r.totalConsultas == v.totalConsultas
      && r.usuariosSinFechaNacimiento == v.usuariosSinFechaNacimiento && r.usuariosSinDocumento == v.usuariosSinDocumento
  {
  }

  /**
   * The counters stay within what they count: the consultations without
   * a diagnosis, together with either kind of inconsistency (which need a
   * diagnosis), never exceed the consultations seen, and so on.
   */
  predicate WithinTotals(v: Validaciones, usuarios: nat)
  {
    && v.consultasSinDiagnostico + |v.inconsistenciasSexo| <= v.totalConsultas
    && v.consultasSinDiagnostico + |v.inconsistenciasEdad| <= v.totalConsultas
    && v.consultasSinFecha <= v.totalConsultas
    && v.valoresServicioCero <= v.totalConsultas
    && v.usuariosSinFechaNacimiento <= usuarios
    && v.usuariosSinDocumento <= usuarios
  }

  /** Every recorded inconsistency is what its rule flags. */
  predicate IssuesSound(v: Validaciones)
  {
    && (forall s :: s in v.inconsistenciasSexo ==> PregnancyCode(s.diagnostico))
    && (forall e :: e in v.inconsistenciasEdad ==> IncoherenciaEdadDiagnostico(e.diagnostico, e.edad))
  }

  lemma {:induction false} RevisarConsultasBounds(v: Validaciones, u: User, edad: Option<int>, cs: seq<Record>)
    requires IssuesSound(v)
    ensures var r := RevisarConsultas(v, u, edad, cs);
      && IssuesSound(r)
      && r.totalConsultas == v.totalConsultas && r.totalUsuarios == v.totalUsuarios
      && r.usuariosSinFechaNacimiento == v.usuariosSinFechaNacimiento && r.usuariosSinDocumento == v.usuariosSinDocumento
      && r.consultasSinDiagnostico + |r.inconsistenciasSexo| <= v.consultasSinDiagnostico + |v.inconsistenciasSexo| + |cs|
      && r.consultasSinDiagnostico + |r.inconsistenciasEdad| <= v.consultasSinDiagnostico + |v.inconsistenciasEdad| + |cs|
      && r.consultasSinFecha <= v.consultasSinFecha + |cs|
      && r.valoresServicioCero <= v.valoresServicioCero + |cs|
  {
    if cs != [] {
      RevisarConsultasBounds(v, u, edad, cs[..|cs| - 1]);
    }
  }

  lemma RevisarUsuarioBounds(v: Validaciones, u: User, today: Date, n: nat)
    requires IssuesSound(v) && WithinTotals(v, n)
    ensures IssuesSound(RevisarUsuario(v, u, today)) && WithinTotals(RevisarUsuario(v, u, today), n + 1)
    ensures RevisarUsuario(v, u, today).totalUsuarios == v.totalUsuarios
  {
    var base := v.(
      usuariosSinFechaNacimiento := v.usuariosSinFechaNacimiento + (if Truthy(Get(u.fields, "fechaNacimiento")) then 0 else 1),
      usuariosSinDocumento := v.usuariosSinDocumento + (if Truthy(Get(u.fields, "numDocumentoIdentificacion")) then 0 else 1),
      totalConsultas := v.totalConsultas + |Consultas(u)|);
    RevisarConsultasBounds(base, u, EdadDatos(u, today), Consultas(u));
  }

  lemma {:induction false} RevisarUsuariosBounds(v: Validaciones, us: seq<User>, today: Date)
    requires IssuesSound(v) && WithinTotals(v, 0)
    ensures IssuesSound(RevisarUsuarios(v, us, today)) && WithinTotals(RevisarUsuarios(v, us, today), |us|)
    ensures RevisarUsuarios(v, us, today).totalUsuarios == v.totalUsuarios
  {
    if us != [] {
      RevisarUsuariosBounds(v, us[..|us| - 1], today);
      RevisarUsuarioBounds(RevisarUsuarios(v, us[..|us| - 1], today), us[|us| - 1], today, |us| - 1);
    }
  }

  /**
   * `_validar_datos`: the counters stay within their totals, so the three
   * percentages lie between 0 and 100, and every recorded inconsistency
   * is one its rule flags.
   */
  lemma DatosInvariants(us: seq<User>, today: Date)
    ensures var v := Datos(us, today);
      && v.totalUsuarios == |us|
      && WithinTotals(v, |us|) && IssuesSound(v)
      && 0.0 <= Porcentaje(v.usuariosSinFechaNacimiento, v.totalUsuarios) <= 100.0
      && 0.0 <= Porcentaje(v.consultasSinDiagnostico, v.totalConsultas) <= 100.0
      && 0.0 <= Porcentaje(v.valoresServicioCero, v.totalConsultas) <= 100.0
  {
    RevisarUsuariosBounds(InicioValidaciones(|us|), us, today);
    var v := Datos(us, today);
    PorcentajeBounds(v.usuariosSinFechaNacimiento, v.totalUsuarios);
    PorcentajeBounds(v.consultasSinDiagnostico, v.totalConsultas);
    PorcentajeBounds(v.valoresServicioCero, v.totalConsultas);
  }

  lemma RevisarConsultasStep(v0: Validaciones, u: User, edad: Option<int>, cs: seq<Record>, i: nat)
    requires i < |cs|
    ensures RevisarConsultas(v0, u, edad, cs[..i + 1]) == RevisarConsulta(RevisarConsultas(v0, u, edad, cs[..i]), u, edad, cs[i])
  {
    assert cs[..i + 1][..i] == cs[..i];
  }

  /** The inner loop of `_validar_datos` over one user's consultations. */
  method RevisarConsultasDe(v0: Validaciones, u: User, edad: Option<int>, cs: seq<Record>) returns (v: Validaciones)
    ensures v == RevisarConsultas(v0, u, edad, cs)
  {
    var doc := Get(u.fields, "numDocumentoIdentificacion");
    var sinDiagnostico, sinFecha, ceros := v0.consultasSinDiagnostico, v0.consultasSinFecha, v0.valoresServicioCero;
    var porSexo, porEdad := v0.inconsistenciasSexo, v0.inconsistenciasEdad;
    for i := 0 to |cs|
      invariant RevisarConsultas(v0, u, edad, cs[..i]).totalUsuarios == v0.totalUsuarios
      invariant RevisarConsultas(v0, u, edad, cs[..i]).usuariosSinFechaNacimiento == v0.usuariosSinFechaNacimiento
      invariant RevisarConsultas(v0, u, edad, cs[..i]).usuariosSinDocumento == v0.usuariosSinDocumento
      invariant RevisarConsultas(v0, u, edad, cs[..i]).totalConsultas == v0.totalConsultas
      invariant RevisarConsultas(v0, u, edad, cs[..i]).consultasSinDiagnostico == sinDiagnostico
      invariant RevisarConsultas(v0, u, edad, cs[..i]).consultasSinFecha == sinFecha
      invariant RevisarConsultas(v0, u, edad, cs[..i]).valoresServicioCero == ceros
      invariant RevisarConsultas(v0, u, edad, cs[..i]).inconsistenciasEdad == porEdad
      invariant RevisarConsultas(v0, u, edad, cs[..i]).inconsistenciasSexo == porSexo
    {
      RevisarConsultasStep(v0, u, edad, cs, i);
      var c := cs[i];
      var diag := Get(c, "codDiagnosticoPrincipal");
      if !Truthy(diag) {
        sinDiagnostico := sinDiagnostico + 1;
      }
      if !Truthy(Get(c, "fechaInicioAtencion")) {
        sinFecha := sinFecha + 1;
      }
      if ValorCero(c) {
        ceros := ceros + 1;
      }
      if SexoIncoherente(u, diag) {
        porSexo := porSexo + [SexoIssue(doc, diag.s)];
      }
      if EdadIncoherente(edad, diag) {
        porEdad := porEdad + [EdadIssue(doc, edad.value, diag.s)];
      }
    }
    assert cs[..|cs|] == cs;
    v := Validaciones(v0.totalUsuarios, v0.usuariosSinFechaNacimiento, v0.usuariosSinDocumento,
                      sinDiagnostico, sinFecha, ceros, v0.totalConsultas, porEdad, porSexo);
  }

  /** The body of the loop of `_validar_datos` over one user. */
  method RevisarUsuarioDe(v0: Validaciones, u: User, today: Date) returns (v: Validaciones)
    ensures v == RevisarUsuario(v0, u, today)
  {
    var consultas := Consultas(u);
    v := v0.(
      usuariosSinFechaNacimiento := v0.usuariosSinFechaNacimiento + (if Truthy(Get(u.fields, "fechaNacimiento")) then 0 else 1),
      usuariosSinDocumento := v0.usuariosSinDocumento + (if Truthy(Get(u.fields, "numDocumentoIdentificacion")) then 0 else 1),
      totalConsultas := v0.totalConsultas + |consultas|);
    v := RevisarConsultasDe(v, u, EdadDatos(u, today), consultas);
  }

  /** `_validar_datos`. */
  method ValidarDatos(usuarios: seq<User>, today: Date) returns (v: Validaciones)
    ensures v == Datos(usuarios, today)
  {
    v := InicioValidaciones(|usuarios|);
    for i := 0 to |usuarios|
      invariant v == RevisarUsuarios(InicioValidaciones(|usuarios|), usuarios[..i], today)
    {
      assert usuarios[..i + 1][..i] == usuarios[..i];
      v := RevisarUsuarioDe(v, usuarios[i], today);
    }
    assert usuarios[..|usuarios|] == usuarios;
  }

  // ---------------------------------------------------------------------
  // _calcular_indicadores_calidad (the consultation ratios)
  // ---------------------------------------------------------------------

  datatype Indicadores = Indicadores(
    totalConsultas: nat,
    consultasConDiagnostico: nat,
    consultasConAutorizacion: nat,
    consultasCompletas: nat)

  const CamposRequeridos: seq<string> := [
    "fechaInicioAtencion", "codDiagnosticoPrincipal", "codConsulta", "finalidadTecnologiaSalud", "vrServicio"]

  /** `all(consulta.get(campo) for campo in campos_requeridos)`. */
  predicate Completa(c: Record)
  {
    forall k :: 0 <= k < |CamposRequeridos| ==> Truthy(Get(c, CamposRequeridos[k]))
  }

  function ContarConsulta(ind: Indicadores, c: Record): Indicadores
  {
    ind.(consultasConDiagnostico := ind.consultasConDiagnostico + (if Truthy(Get(c, "codDiagnosticoPrincipal")) then 1 else 0),
         consultasConAutorizacion := ind.consultasConAutorizacion + (if Truthy(Get(c, "numAutorizacion")) then 1 else 0),
         consultasCompletas := ind.consultasCompletas + (if Completa(c) then 1 else 0))
  }

  function ContarConsultas(ind: Indicadores, cs: seq<Record>): Indicadores
  {
    if cs == [] then ind else ContarConsulta(ContarConsultas(ind, cs[..|cs| - 1]), cs[|cs| - 1])
  }

  function ContarUsuarios(us: seq<User>): Indicadores
  {
    if us == [] then Indicadores(0, 0, 0, 0)
    else
      var prev := ContarUsuarios(us[..|us| - 1]);
      var cs := Consultas(us[|us| - 1]);
      ContarConsultas(prev.(totalConsultas := prev.totalConsultas + |cs|), cs)
  }

  /** `n / t * 100 if t > 0 else 100.0`, the ratios of the quality indicators. */
  function Ratio(n: nat, t: nat): real
  {
    if t > 0 then n as real / t as real * 100.0 else 100.0
  }

  function CompletitudDiagnosticos(ind: Indicadores): real { Ratio(ind.consultasConDiagnostico, ind.totalConsultas) }
  function CoberturaAutorizaciones(ind: Indicadores): real { Ratio(ind.consultasConAutorizacion, ind.totalConsultas) }
  function CalidadRegistro(ind: Indicadores): real { Ratio(ind.consultasCompletas, ind.totalConsultas) }

  /** `oportunidad_atencion` is the fixed 100.0. */
  const OportunidadAtencion: real := 100.0

  predicate NumeratorsWithin(ind: Indicadores)
  {
    && ind.consultasConDiagnostico <= ind.totalConsultas
    && ind.consultasConAutorizacion <= ind.totalConsultas
    && ind.consultasCompletas <= ind.totalConsultas
  }

  lemma {:induction false} ContarConsultasWithin(ind: Indicadores, cs: seq<Record>)
    requires NumeratorsWithin(ind)
    ensures var r := ContarConsultas(ind.(totalConsultas := ind.totalConsultas + |cs|), cs);
      NumeratorsWithin(r) && r.totalConsultas == ind.totalConsultas + |cs|
  {
    if cs != [] {
      ContarConsultasWithin(ind, cs[..|cs| - 1]);
      var prev := ContarConsultas(ind.(totalConsultas := ind.totalConsultas + |cs| - 1), cs[..|cs| - 1]);
      assert ContarConsultas(ind.(totalConsultas := ind.totalConsultas + |cs|), cs[..|cs| - 1])
          == prev.(totalConsultas := prev.totalConsultas + 1) by {
        ContarShift(ind.(totalConsultas := ind.totalConsultas + |cs| - 1), cs[..|cs| - 1], 1);
      }
    }
  }

  /** Counting does not touch the total, so a larger starting total carries through. */
  lemma {:induction false} ContarShift(ind: Indicadores, cs: seq<Record>, k: nat)
    ensures ContarConsultas(ind.(totalConsultas := ind.totalConsultas + k), cs)
      == ContarConsultas(ind, cs).(totalConsultas := ContarConsultas(ind, cs).totalConsultas + k)
  {
    if cs != [] {
      ContarShift(ind, cs[..|cs| - 1], k);
    }
  }

  lemma {:induction false} ContarUsuariosWithin(us: seq<User>)
    ensures NumeratorsWithin(ContarUsuarios(us))
  {
    if us != [] {
      ContarUsuariosWithin(us[..|us| - 1]);
      ContarConsultasWithin(ContarUsuarios(us[..|us| - 1]), Consultas(us[|us| - 1]));
    }
  }

  /**
   * Each numerator is at most the number of consultations, so each ratio
   * lies between 0 and 100; with no consultations all three are 100.
   */
  lemma IndicadoresBounds(us: seq<User>)
    ensures var ind := ContarUsuarios(us);
      && NumeratorsWithin(ind)
      && (ind.totalConsultas == 0 ==>
            CompletitudDiagnosticos(ind) == 100.0 && CoberturaAutorizaciones(ind) == 100.0 && CalidadRegistro(ind) == 100.0)
      && 0.0 <= CompletitudDiagnosticos(ind) <= 100.0
      && 0.0 <= CoberturaAutorizaciones(ind) <= 100.0
      && 0.0 <= CalidadRegistro(ind) <= 100.0
  {
    ContarUsuariosWithin(us);
    var ind := ContarUsuarios(us);
    if ind.totalConsultas > 0 {
      PorcentajeBounds(ind.consultasConDiagnostico, ind.totalConsultas);
      PorcentajeBounds(ind.consultasConAutorizacion, ind.totalConsultas);
      PorcentajeBounds(ind.consultasCompletas, ind.totalConsultas);
    }
  }

  /** The inner loop of the first pass of `_calcular_indicadores_calidad`. */
  method ContarConsultasDe(ind0: Indicadores, cs: seq<Record>) returns (ind: Indicadores)
    ensures ind == ContarConsultas(ind0, cs)
  {
    var conDiagnostico, conAutorizacion, completas := ind0.consultasConDiagnostico, ind0.consultasConAutorizacion, ind0.consultasCompletas;
    for j := 0 to |cs|
      invariant Indicadores(ind0.totalConsultas, conDiagnostico, conAutorizacion, completas) == ContarConsultas(ind0, cs[..j])
    {
      assert cs[..j + 1][..j] == cs[..j];
      var c := cs[j];
      if Truthy(Get(c, "codDiagnosticoPrincipal")) {
        conDiagnostico := conDiagnostico + 1;
      }
      if Truthy(Get(c, "numAutorizacion")) {
        conAutorizacion := conAutorizacion + 1;
      }
      if Completa(c) {
        completas := completas + 1;
      }
    }
    assert cs[..|cs|] == cs;
    ind := Indicadores(ind0.totalConsultas, conDiagnostico, conAutorizacion, completas);
  }

  /** The first loop of `_calcular_indicadores_calidad`. */
  method CalcularIndicadores(usuarios: seq<User>) returns (ind: Indicadores)
    ensures ind == ContarUsuarios(usuarios)
  {
    ind := Indicadores(0, 0, 0, 0);
    for i := 0 to |usuarios|
      invariant ind == ContarUsuarios(usuarios[..i])
    {
      assert usuarios[..i + 1][..i] == usuarios[..i];
      var cs := Consultas(usuarios[i]);
      ind := ContarConsultasDe(ind.(totalConsultas := ind.totalConsultas + |cs|), cs);
    }
    assert usuarios[..|usuarios|] == usuarios;
  }
}
