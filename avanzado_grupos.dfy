/**
 * The risk groups of the advanced validator
 * (`_identificar_grupos_riesgo`): every user whose age is known and not
 * zero gets a profile from its consultations (pregnancy, cancer and
 * malnutrition codes, the number of related diagnoses), and the profile,
 * the age and the sex place the user in up to five of six groups.
 */
module AvanzadoGrupos {
  import opened Wrappers
  import opened Text
  import opened Dates
  import opened Json
  import opened Cargador

  /** The six keys of the `grupos` dictionary. */
  datatype Riesgo =
    | GestantesAdolescentes
    | GestantesEdadAvanzada
    | AdultosMayoresFragiles
    | PacientesMultimorbidos
    | MenoresDesnutridos
    | PacientesOncologicos

  /** `O…` or `Z3…`: a pregnancy code. */
  predicate Gestacional(diag: string)
  {
    StartsWith(diag, "O") || StartsWith(diag, "Z3")
  }

  /** `C…`: a neoplasm. */
  predicate Oncologico(diag: string)
  {
    StartsWith(diag, "C")
  }

  /** `E4…`: malnutrition. */
  predicate Desnutricion(diag: string)
  {
    StartsWith(diag, "E4")
  }

  /** The three related-diagnosis members `codDiagnosticoRelacionado{i}`, `i` in `range(1, 4)`. */
  const Relacionados: seq<string> := ["codDiagnosticoRelacionado1", "codDiagnosticoRelacionado2", "codDiagnosticoRelacionado3"]

  /** How many of the first `n` related-diagnosis members of `c` are truthy. */
  function RelacionadosHasta(c: Record, n: nat): (r: nat)
    requires n <= 3
    ensures r <= n
  {
    if n == 0 then 0 else RelacionadosHasta(c, n - 1) + (if Truthy(Get(c, Relacionados[n - 1])) then 1 else 0)
  }

  /** What the consultation loop gathers about one user. */
  datatype Perfil = Perfil(gestante: bool, cancer: bool, desnutricion: bool, comorbilidades: nat, diagnosticos: seq<string>)

  /** One pass of the consultation loop. */
  function PerfilPaso(p: Perfil, c: Record): Perfil
  {
    var diag := TextOf(c, "codDiagnosticoPrincipal");
    Perfil(
      p.gestante || Gestacional(diag),
      p.cancer || Oncologico(diag),
      p.desnutricion || Desnutricion(diag),
      p.comorbilidades + RelacionadosHasta(c, 3),
      p.diagnosticos + [diag])
  }

  function PerfilDe(cs: seq<Record>): Perfil
  {
    if cs == [] then Perfil(false, false, false, 0, []) else PerfilPaso(PerfilDe(cs[..|cs| - 1]), cs[|cs| - 1])
  }

  /**
   * The profile lists each consultation's principal diagnosis in order,
   * each flag is set exactly when one of those diagnoses has its prefix,
   * and at most three related diagnoses are counted per consultation.
   */
  lemma {:induction false} PerfilExact(cs: seq<Record>)
    ensures var p := PerfilDe(cs);
      && |p.diagnosticos| == |cs|
      && (forall k :: 0 <= k < |cs| ==> p.diagnosticos[k] == TextOf(cs[k], "codDiagnosticoPrincipal"))
      && (p.gestante <==> exists d :: d in p.diagnosticos && Gestacional(d))
      && (p.cancer <==> exists d :: d in p.diagnosticos && Oncologico(d))
      && (p.desnutricion <==> exists d :: d in p.diagnosticos && Desnutricion(d))
      && p.comorbilidades <= 3 * |cs|
  {
    if cs != [] {
      var init := cs[..|cs| - 1];
      PerfilExact(init);
      var q := PerfilDe(init);
      var diag := TextOf(cs[|cs| - 1], "codDiagnosticoPrincipal");
      assert PerfilDe(cs).diagnosticos == q.diagnosticos + [diag];
      forall k | 0 <= k < |cs| ensures PerfilDe(cs).diagnosticos[k] == TextOf(cs[k], "codDiagnosticoPrincipal") {
        if k < |init| {
          assert cs[k] == init[k];
        }
      }
    }
  }

  /** The age `_identificar_grupos_riesgo` computes: from `fechaNacimiento` up to today. */
  function Edad(u: User, today: Date): Option<int>
  {
    CalcularEdad(Get(u.fields, "fechaNacimiento"), Null, today)
  }

  /** `if not edad: continue`: users without an age, or of age 0, are skipped. */
  predicate Evaluado(u: User, today: Date)
  {
    Edad(u, today).Some? && Edad(u, today).value != 0
  }

  /** The classification rules, on a user's age, profile and `codSexo == "F"`. */
  predicate Clasifica(g: Riesgo, edad: int, p: Perfil, femenino: bool)
  {
    match g
    case GestantesAdolescentes => p.gestante && femenino && edad < 18
    case GestantesEdadAvanzada => p.gestante && femenino && !(edad < 18) && edad >= 40
    case AdultosMayoresFragiles => edad >= 75
    case PacientesMultimorbidos => p.comorbilidades >= 3
    case MenoresDesnutridos => p.desnutricion && edad < 10
    case PacientesOncologicos => p.cancer
  }

  /** Whether an evaluated user belongs to group `g`. */
  predicate Incluido(u: User, g: Riesgo, today: Date)
    requires Evaluado(u, today)
  {
    Clasifica(g, Edad(u, today).value, PerfilDe(Consultas(u)), Get(u.fields, "codSexo") == Str("F"))
  }

  /** One entry of a group list; `comorbilidades` is present in the multimorbidity list only. */
  datatype Entrada = Entrada(documento: Scalar, edad: int, comorbilidades: Option<nat>, diagnosticos: seq<string>)

  /** The entry group `g` gets for a user with document `doc`, age `edad` and profile `p`, if any. */
  function Clasificar(g: Riesgo, doc: Scalar, edad: int, p: Perfil, femenino: bool): seq<Entrada>
  {
    if Clasifica(g, edad, p, femenino)
    then [Entrada(doc, edad, if g == PacientesMultimorbidos then Some(p.comorbilidades) else None, p.diagnosticos)]
    else []
  }

  function EntradaDe(u: User, g: Riesgo, today: Date): Entrada
    requires Evaluado(u, today)
  {
    var p := PerfilDe(Consultas(u));
    Entrada(
      Get(u.fields, "numDocumentoIdentificacion"),
      Edad(u, today).value,
      if g == PacientesMultimorbidos then Some(p.comorbilidades) else None,
      p.diagnosticos)
  }

  /** What one user adds to `grupos[g]`. */
  function Nuevas(u: User, g: Riesgo, today: Date): seq<Entrada>
  {
    if Evaluado(u, today)
    then Clasificar(g, Get(u.fields, "numDocumentoIdentificacion"), Edad(u, today).value, PerfilDe(Consultas(u)), Get(u.fields, "codSexo") == Str("F"))
    else []
  }

  /** A user adds its entry to the groups whose rule it meets, and nothing else. */
  lemma NuevasIff(u: User, g: Riesgo, today: Date)
    ensures Nuevas(u, g, today) == if Evaluado(u, today) && Incluido(u, g, today) then [EntradaDe(u, g, today)] else []
  {
  }

  /** `grupos[g]` after the loop over `us`. */
  function Miembros(us: seq<User>, g: Riesgo, today: Date): seq<Entrada>
  {
    if us == [] then [] else Miembros(us[..|us| - 1], g, today) + Nuevas(us[|us| - 1], g, today)
  }

  /**
   * Every user that is evaluated and meets a group's rule is listed in
   * that group.
   */
  lemma {:induction false} MiembrosComplete(us: seq<User>, g: Riesgo, today: Date, k: nat)
    requires k < |us| && Evaluado(us[k], today) && Incluido(us[k], g, today)
    ensures EntradaDe(us[k], g, today) in Miembros(us, g, today)
  {
    NuevasIff(us[|us| - 1], g, today);
    if k < |us| - 1 {
      assert us[..|us| - 1][k] == us[k];
      MiembrosComplete(us[..|us| - 1], g, today, k);
    }
  }

  /** Every listed entry is that of some user that is evaluated and meets the group's rule. */
  lemma {:induction false} MiembrosSound(us: seq<User>, g: Riesgo, today: Date, e: Entrada)
    requires e in Miembros(us, g, today)
    ensures exists k :: 0 <= k < |us| && Evaluado(us[k], today) && Incluido(us[k], g, today) && e == EntradaDe(us[k], g, today)
  {
    var init := us[..|us| - 1];
    NuevasIff(us[|us| - 1], g, today);
    if e in Miembros(init, g, today) {
      MiembrosSound(init, g, today, e);
      var k :| 0 <= k < |init| && Evaluado(init[k], today) && Incluido(init[k], g, today) && e == EntradaDe(init[k], g, today);
      assert init[k] == us[k];
    } else {
      assert us[|us| - 1] == us[|us| - 1];
    }
  }

  /**
   * What each list promises about its entries: a known non-zero age in
   * the group's range, and a diagnosis with the group's prefix among
   * the user's diagnoses; only the multimorbidity list carries a count of
   * related diagnoses, and that count is at least three.
   */
  lemma EntradasSound(us: seq<User>, g: Riesgo, today: Date, e: Entrada)
    requires e in Miembros(us, g, today)
    ensures e.edad != 0
    ensures g == GestantesAdolescentes ==> e.edad < 18 && exists d :: d in e.diagnosticos && Gestacional(d)
    ensures g == GestantesEdadAvanzada ==> e.edad >= 40 && exists d :: d in e.diagnosticos && Gestacional(d)
    ensures g == AdultosMayoresFragiles ==> e.edad >= 75
    ensures g == PacientesMultimorbidos <==> e.comorbilidades.Some?
    ensures g == PacientesMultimorbidos ==> e.comorbilidades.value >= 3
    ensures g == MenoresDesnutridos ==> e.edad < 10 && exists d :: d in e.diagnosticos && Desnutricion(d)
    ensures g == PacientesOncologicos ==> exists d :: d in e.diagnosticos && Oncologico(d)
  {
    MiembrosSound(us, g, today, e);
    var k :| 0 <= k < |us| && Evaluado(us[k], today) && Incluido(us[k], g, today) && e == EntradaDe(us[k], g, today);
    PerfilExact(Consultas(us[k]));
  }

  /** A pregnant user is never listed both as an adolescent and of advanced age. */
  lemma GestantesDisjoint(us: seq<User>, today: Date, e: Entrada)
    requires e in Miembros(us, GestantesAdolescentes, today)
    ensures e !in Miembros(us, GestantesEdadAvanzada, today)
  {
    EntradasSound(us, GestantesAdolescentes, today, e);
    if e in Miembros(us, GestantesEdadAvanzada, today) {
      EntradasSound(us, GestantesEdadAvanzada, today, e);
    }
  }

  // ---------------------------------------------------------------------
  // The methods
  // ---------------------------------------------------------------------

  /** The inner `for i in range(1, 4)` loop. */
  method ContarRelacionados(c: Record) returns (n: nat)
    ensures n == RelacionadosHasta(c, 3)
  {
    n := 0;
    for i := 0 to 3
      invariant n == RelacionadosHasta(c, i)
    {
      if Truthy(Get(c, Relacionados[i])) {
        n := n + 1;
      }
    }
  }

  /** The consultation loop of one user. */
  method PerfilUsuario(cs: seq<Record>) returns (p: Perfil)
    ensures p == PerfilDe(cs)
  {
    var gestante, cancer, desnutricion, comorbilidades, diagnosticos := false, false, false, 0, [];
    for j := 0 to |cs|
      invariant gestante == PerfilDe(cs[..j]).gestante
      invariant cancer == PerfilDe(cs[..j]).cancer
      invariant desnutricion == PerfilDe(cs[..j]).desnutricion
      invariant comorbilidades == PerfilDe(cs[..j]).comorbilidades
      invariant diagnosticos == PerfilDe(cs[..j]).diagnosticos
    {
      assert cs[..j + 1][..j] == cs[..j];
      var diag := TextOf(cs[j], "codDiagnosticoPrincipal");
      diagnosticos := diagnosticos + [diag];
      if StartsWith(diag, "O") || StartsWith(diag, "Z3") {
        gestante := true;
      }
      if StartsWith(diag, "C") {
        cancer := true;
      }
      if StartsWith(diag, "E4") {
        desnutricion := true;
      }
      var n := ContarRelacionados(cs[j]);
      comorbilidades := comorbilidades + n;
    }
    assert cs[..|cs|] == cs;
    p := Perfil(gestante, cancer, desnutricion, comorbilidades, diagnosticos);
  }

  /** One pass of the user loop of `_identificar_grupos_riesgo`. */
  method ClasificarUsuario(grupos: map<Riesgo, seq<Entrada>>, u: User, today: Date) returns (r: map<Riesgo, seq<Entrada>>)
    requires forall g :: g in grupos
    ensures forall g :: g in r && r[g] == grupos[g] + Nuevas(u, g, today)
  {
    r := grupos;
    var edad := Edad(u, today);
    if edad.None? || edad.value == 0 {
      assert forall g :: grupos[g] + Nuevas(u, g, today) == grupos[g];
      return;
    }
    var p := PerfilUsuario(Consultas(u));
    var doc := Get(u.fields, "numDocumentoIdentificacion");
    var femenino := Get(u.fields, "codSexo") == Str("F");
    assert forall g :: Nuevas(u, g, today) == Clasificar(g, doc, edad.value, p, femenino);
    var entrada := Entrada(doc, edad.value, None, p.diagnosticos);
    var adolescentes, avanzada, fragiles, multimorbidos, desnutridos, oncologicos := [], [], [], [], [], [];
    if p.gestante && femenino {
      if edad.value < 18 {
        adolescentes := [entrada];
      } else if edad.value >= 40 {
        avanzada := [entrada];
      }
    }
    if edad.value >= 75 {
      fragiles := [entrada];
    }
    if p.comorbilidades >= 3 {
      multimorbidos := [entrada.(comorbilidades := Some(p.comorbilidades))];
    }
    if p.desnutricion && edad.value < 10 {
      desnutridos := [entrada];
    }
    if p.cancer {
      oncologicos := [entrada];
    }
    r := grupos[
      GestantesAdolescentes := grupos[GestantesAdolescentes] + adolescentes][
      GestantesEdadAvanzada := grupos[GestantesEdadAvanzada] + avanzada][
      AdultosMayoresFragiles := grupos[AdultosMayoresFragiles] + fragiles][
      PacientesMultimorbidos := grupos[PacientesMultimorbidos] + multimorbidos][
      MenoresDesnutridos := grupos[MenoresDesnutridos] + desnutridos][
      PacientesOncologicos := grupos[PacientesOncologicos] + oncologicos];
    forall g ensures g in r && r[g] == grupos[g] + Nuevas(u, g, today) {
      match g
      case GestantesAdolescentes =>
      case GestantesEdadAvanzada =>
      case AdultosMayoresFragiles =>
      case PacientesMultimorbidos =>
      case MenoresDesnutridos =>
      case PacientesOncologicos =>
    }
  }

  /** `_identificar_grupos_riesgo`: the six lists and their `_count` entries. */
  method IdentificarGruposRiesgo(usuarios: seq<User>, today: Date) returns (grupos: map<Riesgo, seq<Entrada>>, conteos: map<Riesgo, nat>)
    ensures forall g :: g in grupos && grupos[g] == Miembros(usuarios, g, today)
    ensures forall g :: g in conteos && conteos[g] == |Miembros(usuarios, g, today)|
  {
    grupos := map[
      GestantesAdolescentes := [],
      GestantesEdadAvanzada := [],
      AdultosMayoresFragiles := [],
      PacientesMultimorbidos := [],
      MenoresDesnutridos := [],
      PacientesOncologicos := []];
    assert forall g :: g in grupos by {
      forall g ensures g in grupos {
        match g
        case GestantesAdolescentes =>
        case GestantesEdadAvanzada =>
        case AdultosMayoresFragiles =>
        case PacientesMultimorbidos =>
        case MenoresDesnutridos =>
        case PacientesOncologicos =>
      }
    }
    for i := 0 to |usuarios|
      invariant forall g :: g in grupos && grupos[g] == Miembros(usuarios[..i], g, today)
    {
      assert usuarios[..i + 1][..i] == usuarios[..i];
      grupos := ClasificarUsuario(grupos, usuarios[i], today);
    }
    assert usuarios[..|usuarios|] == usuarios;
    conteos := map g | g in grupos :: |grupos[g]|;
  }
}
