/**
 * The helpers of the special-table generator of AnalisisJSON: the user
 * type to insurance regime mapping, the `YYYY-MM-DD` to `DD/MM/YYYY`
 * reformatting, the Spanish month name of a date, the age with its unit
 * (days, months or years), the life-course stage of Resolución 3280 de
 * 2018, and the user table that keeps one row per distinct document.
 * The clock read that stands in for a missing reference date is the
 * parameter `today`.
 */
module Tablas {
  import opened Wrappers
  import opened Text
  import opened Dates
  import opened Json
  import opened Cargador

  // ---------------------------------------------------------------------
  // _obtener_regimen
  // ---------------------------------------------------------------------

  /** `self.regimenes`: user type to regime. */
  const Regimenes: map<string, string> := map[
    "01" := "CONTRIBUTIVO", "02" := "CONTRIBUTIVO", "03" := "CONTRIBUTIVO",
    "04" := "SUBSIDIADO",
    "05" := "NO ASEGURADO",
    "06" := "ESPECIAL", "07" := "ESPECIAL", "08" := "ESPECIAL", "09" := "ESPECIAL"]

  /** `_obtener_regimen`: `self.regimenes.get(tipo_usuario, "DESCONOCIDO")`. */
  function ObtenerRegimen(tipoUsuario: string): string
  {
    if tipoUsuario in Regimenes then Regimenes[tipoUsuario] else "DESCONOCIDO"
  }

  /** A user type is `0` followed by a digit from 1 to 9. */
  predicate TipoUsuarioConocido(t: string)
  {
    |t| == 2 && t[0] == '0' && '1' <= t[1] <= '9'
  }

  /**
   * Types 01 to 03 are contributory, 04 subsidised, 05 uninsured, 06 to 09
   * special, and every other text is unknown.
   */
  lemma RegimenTable(t: string)
    ensures ObtenerRegimen(t) == "CONTRIBUTIVO" <==> t == "01" || t == "02" || t == "03"
    ensures ObtenerRegimen(t) == "SUBSIDIADO" <==> t == "04"
    ensures ObtenerRegimen(t) == "NO ASEGURADO" <==> t == "05"
    ensures ObtenerRegimen(t) == "ESPECIAL" <==> t == "06" || t == "07" || t == "08" || t == "09"
    ensures ObtenerRegimen(t) == "DESCONOCIDO" <==> !TipoUsuarioConocido(t)
  {
    if TipoUsuarioConocido(t) {
      assert t == ['0', t[1]];
    }
  }

  // ---------------------------------------------------------------------
  // _formatear_fecha, _extraer_mes_nombre
  // ---------------------------------------------------------------------

  /** `s.split(" ")[0]`: the text before the first space (all of it when there is none). */
  function DatePart(s: string): (r: string)
    ensures ' ' !in r && |r| <= |s| && r == s[..|r|]
    ensures ' ' !in s ==> r == s
  {
    s[..IndexOf(s, ' ')]
  }

  /** The text before the first space is the first piece of a split at spaces. */
  lemma {:induction false} DatePartIsSplit(s: string)
    ensures DatePart(s) == Split(s, ' ')[0]
  {
    if s != [] && s[0] != ' ' {
      DatePartIsSplit(s[1..]);
      assert IndexOf(s, ' ') == 1 + IndexOf(s[1..], ' ');
      assert s[..IndexOf(s, ' ')] == [s[0]] + s[1..][..IndexOf(s[1..], ' ')];
    }
  }

  /** A text without spaces, a space, and anything: the date part is the text. */
  lemma DatePartOf(a: string, t: string)
    requires ' ' !in a
    ensures DatePart(a + " " + t) == a
  {
    var s := a + " " + t;
    assert s[|a|] == ' ';
    assert forall i :: 0 <= i < |a| ==> s[i] == a[i];
  }

  /** `_formatear_fecha`: `YYYY-MM-DD` (optionally followed by a time) becomes `DD/MM/YYYY`. */
  function FormatearFecha(fecha: string): (r: string)
    ensures fecha == "" ==> r == ""
  {
    if fecha == "" then ""
    else
      var d := DatePart(fecha);
      match StrptimeYmd(d)
      case Some(x) => FormatDmy(StrptimeValid(d, x))
      case None => d
  }

  /** A parsed date is a real calendar day. */
  function StrptimeValid(s: string, x: Date): (r: Date)
    requires StrptimeYmd(s) == Some(x)
    ensures r == x && Valid(r)
  {
    x
  }

  /**
   * A formatted date, with or without a time after it, comes back as the
   * same day in `DD/MM/YYYY`; an unparsable text comes back as its date
   * part; and a reformatted value always reads back as the date it came
   * from.
   */
  lemma FormatearFechaRoundTrip(d: Date, t: string)
    requires Valid(d)
    ensures FormatearFecha(FormatYmd(d)) == FormatDmy(d)
    ensures FormatearFecha(FormatYmd(d) + " " + t) == FormatDmy(d)
  {
    YmdRoundTrip(d);
    NoSpaceInYmd(d);
    DatePartOf(FormatYmd(d), t);
  }

  lemma NoSpaceInYmd(d: Date)
    requires Valid(d)
    ensures ' ' !in FormatYmd(d)
  {
    var s := FormatYmd(d);
    forall i | 0 <= i < |s| ensures s[i] != ' ' {
      if i < 4 {
        assert s[i] == Pad4(d.year)[i];
      } else if 5 <= i < 7 {
        assert s[i] == Pad2(d.month)[i - 5];
      } else if 8 <= i {
        assert s[i] == Pad2(d.day)[i - 8];
      }
    }
  }

  lemma FormatearFechaCases(fecha: string)
    requires fecha != ""
    ensures StrptimeYmd(DatePart(fecha)).None? ==> FormatearFecha(fecha) == DatePart(fecha)
    ensures StrptimeYmd(DatePart(fecha)).Some? ==> StrptimeDmy(FormatearFecha(fecha)) == StrptimeYmd(DatePart(fecha))
  {
    if StrptimeYmd(DatePart(fecha)).Some? {
      var x := StrptimeYmd(DatePart(fecha)).value;
      assert Valid(StrptimeValid(DatePart(fecha), x));
      DmyRoundTrip(x);
    }
  }

  /** `self.meses`. */
  const Meses: seq<string> := ["ENERO", "FEBRERO", "MARZO", "ABRIL", "MAYO", "JUNIO",
    "JULIO", "AGOSTO", "SEPTIEMBRE", "OCTUBRE", "NOVIEMBRE", "DICIEMBRE"]

  /** `_extraer_mes_nombre`: the month name of a parsable date, `""` otherwise. */
  function ExtraerMesNombre(fecha: string): (r: string)
    ensures fecha == "" || StrptimeYmd(DatePart(fecha)).None? ==> r == ""
    ensures fecha != "" && StrptimeYmd(DatePart(fecha)).Some? ==> r == Meses[StrptimeYmd(DatePart(fecha)).value.month - 1]
  {
    if fecha == "" then ""
    else
      match StrptimeYmd(DatePart(fecha))
      case Some(x) => Meses[StrptimeValid(DatePart(fecha), x).month - 1]
      case None => ""
  }

  /** The month name of a formatted date, with or without a time, is that date's month. */
  lemma MesDeFecha(d: Date, t: string)
    requires Valid(d)
    ensures ExtraerMesNombre(FormatYmd(d) + " " + t) == Meses[d.month - 1]
    ensures ExtraerMesNombre(FormatYmd(d) + " " + t) != ""
  {
    YmdRoundTrip(d);
    NoSpaceInYmd(d);
    DatePartOf(FormatYmd(d), t);
  }

  // ---------------------------------------------------------------------
  // _calcular_edad_con_unidad, _determinar_curso_vida
  // ---------------------------------------------------------------------

  /** An age and its unit: `"1"` years, `"2"` months, `"3"` days. */
  datatype Edad = Edad(valor: int, unidad: string)

  /**
   * The age between two parsed dates as the source computes it: days
   * under 30 days (negative when the reference is earlier), whole 30-day
   * months under 365 days, calendar years otherwise.
   */
  function EdadEntre(fn: Date, fr: Date): Edad
    requires Valid(fn) && Valid(fr)
  {
    var dias := DaysBetween(fn, fr);
    if dias < 30 then Edad(dias, "3")
    else if dias < 365 then Edad(dias / 30, "2")
    else Edad(AgeYears(fn, fr), "1")
  }

  /** The reference date: its date part parsed, or today when none is given. */
  function Referencia(ref: string, today: Date): Option<Date>
  {
    if ref == "" then Some(today) else StrptimeYmd(DatePart(ref))
  }

  /** `_calcular_edad_con_unidad`; `None` stands for `(None, None)`. */
  function CalcularEdadConUnidad(nacimiento: string, ref: string, today: Date): (r: Option<Edad>)
    requires Valid(today)
    ensures r.Some? <==> StrptimeYmd(nacimiento).Some? && Referencia(ref, today).Some?
  {
    match StrptimeYmd(nacimiento)
    case None => None
    case Some(fn) =>
      match Referencia(ref, today)
      case None => None
      case Some(fr) =>
        var fr' := if ref == "" then fr else StrptimeValid(DatePart(ref), fr);
        Some(EdadEntre(StrptimeValid(nacimiento, fn), fr'))
  }

  /**
   * The unit is days exactly under 30 days, months exactly from 30 to 364
   * days (and then 1 to 12 months), years otherwise; the years are never
   * more than the day count allows.
   */
  lemma EdadEntreUnits(fn: Date, fr: Date)
    requires Valid(fn) && Valid(fr)
    ensures var e, dias := EdadEntre(fn, fr), DaysBetween(fn, fr);
      && (e.unidad == "3" <==> dias < 30)
      && (e.unidad == "3" ==> e.valor == dias)
      && (e.unidad == "2" <==> 30 <= dias < 365)
      && (e.unidad == "2" ==> 1 <= e.valor <= 12 && 30 * e.valor <= dias < 30 * e.valor + 30)
      && (e.unidad == "1" <==> dias >= 365)
  {
  }

  /** Years are counted only from 365 days on, so they are never negative. */
  lemma EdadEntreYears(fn: Date, fr: Date)
    requires Valid(fn) && Valid(fr) && DaysBetween(fn, fr) >= 365
    ensures EdadEntre(fn, fr).valor >= 0
  {
    if Before(fr, fn) {
      BeforeOrdinal(fr, fn);
    }
  }

  /** `_determinar_curso_vida`: the stage for an age and its unit. */
  function DeterminarCursoVida(edad: Option<int>, unidad: Option<string>): string
  {
    if edad.None? || edad.value == 0 || unidad.None? || unidad.value == "" then "Desconocido"
    else
      var anos := EnAnos(edad.value, unidad.value);
      if anos < 6.0 then "Primera Infancia"
      else if anos < 12.0 then "Infancia"
      else if anos < 18.0 then "Adolescencia"
      else if anos < 29.0 then "Juventud"
      else if anos < 60.0 then "Adultez"
      else "Vejez"
  }

  /** The age in years: `edad / 365` for days, `edad / 12` for months, `edad` otherwise (true division). */
  function EnAnos(edad: int, unidad: string): real
  {
    if unidad == "3" then edad as real / 365.0
    else if unidad == "2" then edad as real / 12.0
    else edad as real
  }

  /** The order of the stages. */
  function Etapa(curso: string): nat
  {
    if curso == "Primera Infancia" then 0
    else if curso == "Infancia" then 1
    else if curso == "Adolescencia" then 2
    else if curso == "Juventud" then 3
    else if curso == "Adultez" then 4
    else 5
  }

  /**
   * The stage is unknown exactly when the age or the unit is missing or
   * zero; otherwise it is the band of the age in years, and an older age
   * in the same unit never gives an earlier stage.
   */
  lemma CursoVidaBands(edad: int, unidad: string)
    ensures DeterminarCursoVida(Some(0), Some(unidad)) == "Desconocido"
    ensures DeterminarCursoVida(Some(edad), Some("")) == "Desconocido"
    ensures edad != 0 && unidad != "" ==>
      var c, a := DeterminarCursoVida(Some(edad), Some(unidad)), EnAnos(edad, unidad);
      && (c == "Primera Infancia" <==> a < 6.0)
      && (c == "Infancia" <==> 6.0 <= a < 12.0)
      && (c == "Adolescencia" <==> 12.0 <= a < 18.0)
      && (c == "Juventud" <==> 18.0 <= a < 29.0)
      && (c == "Adultez" <==> 29.0 <= a < 60.0)
      && (c == "Vejez" <==> a >= 60.0)
  {
  }

  lemma CursoVidaMonotone(e1: int, e2: int, unidad: string)
    requires 0 < e1 <= e2 && unidad != ""
    ensures Etapa(DeterminarCursoVida(Some(e1), Some(unidad))) <= Etapa(DeterminarCursoVida(Some(e2), Some(unidad)))
  {
    assert EnAnos(e1, unidad) <= EnAnos(e2, unidad);
  }

  // ---------------------------------------------------------------------
  // Leap-day boundary of the age in years
  // ---------------------------------------------------------------------

  /**
   * From 365 days on the age switches to years, but 365 days after a
   * birthday a 29 February lies between is the day before the first
   * birthday: the age is then 0 years, which `_determinar_curso_vida`
   * reads as unknown.
   */
  lemma EdadEntreLeapBoundary()
    ensures DaysBetween(Date(2019, 3, 1), Date(2020, 2, 29)) == 365
    ensures EdadEntre(Date(2019, 3, 1), Date(2020, 2, 29)) == Edad(0, "1")
    ensures DeterminarCursoVida(Some(0), Some("1")) == "Desconocido"
  {
  }

  // ---------------------------------------------------------------------
  // The user table of _crear_tabla_usuarios
  // ---------------------------------------------------------------------

  /** `f"{tipo_doc}-{num_doc}"`. */
  function ClaveUsuario(u: User): string
  {
    PyStr(GetOr(u.fields, "tipoDocumentoIdentificacion", Str(""))) + "-" + PyStr(GetOr(u.fields, "numDocumentoIdentificacion", Str("")))
  }

  /** `cod_municipio[:2] if len(cod_municipio) >= 2 else ""`. */
  function Departamento(municipio: string): (r: string)
    ensures |municipio| >= 2 ==> |r| == 2 && r == municipio[..2]
    ensures |municipio| < 2 ==> r == ""
  {
    if |municipio| >= 2 then municipio[..2] else ""
  }

  /** The computed columns of a row (the columns copied verbatim are not kept). */
  datatype Fila = Fila(
    tipoDocumento: Scalar, numDocumento: Scalar, tipoUsuario: string,
    edad: Option<Edad>, departamento: string, municipio: string, mes: string, regimen: string)

  /** The row of one user. */
  function FilaDe(u: User, today: Date): Fila
    requires Valid(today)
  {
    var tipoUsuario := TextOf(u.fields, "tipoUsuario");
    var consultas := Consultas(u);
    var municipio := TextOf(u.fields, "codMunicipioResidencia");
    Fila(
      GetOr(u.fields, "tipoDocumentoIdentificacion", Str("")),
      GetOr(u.fields, "numDocumentoIdentificacion", Str("")),
      tipoUsuario,
      CalcularEdadConUnidad(TextOf(u.fields, "fechaNacimiento"), "", today),
      Departamento(municipio),
      municipio,
      if consultas != [] then ExtraerMesNombre(TextOf(consultas[0], "fechaInicioAtencion")) else "",
      ObtenerRegimen(tipoUsuario))
  }

  /** The keys of a list of users. */
  function Claves(us: seq<User>): set<string>
  {
    if us == [] then {} else Claves(us[..|us| - 1]) + {ClaveUsuario(us[|us| - 1])}
  }

  /** The users that get a row: each one whose key was not seen before it. */
  function Primeros(us: seq<User>): seq<User>
  {
    if us == [] then []
    else
      var init := us[..|us| - 1];
      var u := us[|us| - 1];
      Primeros(init) + (if ClaveUsuario(u) in Claves(init) then [] else [u])
  }

  /** The rows of a list of users, in order. */
  function Filas(us: seq<User>, today: Date): (r: seq<Fila>)
    requires Valid(today)
    ensures |r| == |us|
  {
    if us == [] then [] else Filas(us[..|us| - 1], today) + [FilaDe(us[|us| - 1], today)]
  }

  /** The user table: one row per user that gets one. */
  function Tabla(us: seq<User>, today: Date): seq<Fila>
    requires Valid(today)
  {
    Filas(Primeros(us), today)
  }

  /** The key of a row, from its two document columns. */
  function ClaveFila(f: Fila): string
  {
    PyStr(f.tipoDocumento) + "-" + PyStr(f.numDocumento)
  }

  lemma {:induction false} FilasAt(us: seq<User>, today: Date, i: nat)
    requires Valid(today) && i < |us|
    ensures Filas(us, today)[i] == FilaDe(us[i], today)
    ensures ClaveFila(Filas(us, today)[i]) == ClaveUsuario(us[i])
  {
    if i < |us| - 1 {
      assert us[..|us| - 1][i] == us[i];
      FilasAt(us[..|us| - 1], today, i);
    }
  }

  /** Each kept user's key is a user's key, and each user's key is kept. */
  lemma {:induction false} PrimerosKeys(us: seq<User>)
    ensures forall u :: u in Primeros(us) ==> u in us
    ensures forall k :: k in Claves(us) ==> exists u :: u in Primeros(us) && ClaveUsuario(u) == k
  {
    if us != [] {
      var init := us[..|us| - 1];
      var u := us[|us| - 1];
      PrimerosKeys(init);
      var p := Primeros(us);
      forall v | v in p ensures v in us {
        if v in Primeros(init) {
          assert v in init;
        }
      }
      forall k | k in Claves(us) ensures exists v :: v in p && ClaveUsuario(v) == k {
        if k in Claves(init) {
          var v :| v in Primeros(init) && ClaveUsuario(v) == k;
          assert v in p;
        } else {
          assert p[|p| - 1] == u;
        }
      }
    }
  }

  /** No two kept users share a key, and as many users are kept as there are keys. */
  lemma {:induction false} PrimerosDistinct(us: seq<User>)
    ensures forall i, j :: 0 <= i < j < |Primeros(us)| ==> ClaveUsuario(Primeros(us)[i]) != ClaveUsuario(Primeros(us)[j])
    ensures |Primeros(us)| == |Claves(us)|
  {
    if us != [] {
      var init := us[..|us| - 1];
      var u := us[|us| - 1];
      PrimerosDistinct(init);
      var p0 := Primeros(init);
      var p := Primeros(us);
      if ClaveUsuario(u) in Claves(init) {
        assert p == p0;
        assert Claves(us) == Claves(init);
      } else {
        assert p == p0 + [u];
        assert Claves(us) == Claves(init) + {ClaveUsuario(u)};
        ClavesOfMembers(init);
        PrimerosKeys(init);
        forall i, j | 0 <= i < j < |p| ensures ClaveUsuario(p[i]) != ClaveUsuario(p[j]) {
          assert p[i] == p0[i];
          if j < |p0| {
            assert p[j] == p0[j];
          } else {
            assert p[j] == u;
            assert p0[i] in init;
            assert ClaveUsuario(p0[i]) in Claves(init);
          }
        }
      }
    }
  }

  lemma {:induction false} ClavesOfMembers(us: seq<User>)
    ensures forall u :: u in us ==> ClaveUsuario(u) in Claves(us)
  {
    if us != [] {
      ClavesOfMembers(us[..|us| - 1]);
      assert us == us[..|us| - 1] + [us[|us| - 1]];
    }
  }

  /** No two rows of the table share a key. */
  lemma TablaDistinct(us: seq<User>, today: Date, i: nat, j: nat)
    requires Valid(today) && i < j < |Tabla(us, today)|
    ensures ClaveFila(Tabla(us, today)[i]) != ClaveFila(Tabla(us, today)[j])
  {
    PrimerosDistinct(us);
    FilasAt(Primeros(us), today, i);
    FilasAt(Primeros(us), today, j);
  }

  /** Every user's key has a row. */
  lemma TablaComplete(us: seq<User>, today: Date, k: string)
    requires Valid(today) && k in Claves(us)
    ensures exists i :: 0 <= i < |Tabla(us, today)| && ClaveFila(Tabla(us, today)[i]) == k
  {
    var p := Primeros(us);
    PrimerosKeys(us);
    var u :| u in p && ClaveUsuario(u) == k;
    var i :| 0 <= i < |p| && p[i] == u;
    FilasAt(p, today, i);
    assert ClaveFila(Tabla(us, today)[i]) == k;
  }

  /** There are as many rows as distinct keys. */
  lemma TablaSize(us: seq<User>, today: Date)
    requires Valid(today)
    ensures |Tabla(us, today)| == |Claves(us)|
  {
    PrimerosDistinct(us);
  }

  /** The row kept for a key is that of the first user with that key. */
  lemma {:induction false} TablaFirst(us: seq<User>, today: Date, k: nat)
    requires Valid(today) && k < |us| && ClaveUsuario(us[k]) !in Claves(us[..k])
    ensures FilaDe(us[k], today) in Tabla(us, today)
  {
    PrimerosFirst(us, k);
    var p := Primeros(us);
    var i :| 0 <= i < |p| && p[i] == us[k];
    FilasAt(p, today, i);
  }

  lemma {:induction false} PrimerosFirst(us: seq<User>, k: nat)
    requires k < |us| && ClaveUsuario(us[k]) !in Claves(us[..k])
    ensures us[k] in Primeros(us)
  {
    if k < |us| - 1 {
      assert us[..|us| - 1][..k] == us[..k];
      assert us[..|us| - 1][k] == us[k];
      PrimerosFirst(us[..|us| - 1], k);
    } else {
      assert us[..k] == us[..|us| - 1];
    }
  }

  /** The users of every document, in order (`for rips in datos_consolidados: for usuario in ...`). */
  function TodosUsuarios(docs: seq<Document>): seq<User>
  {
    if docs == [] then [] else TodosUsuarios(docs[..|docs| - 1]) + Usuarios(docs[|docs| - 1])
  }

  lemma PrimerosStep(previos: seq<User>, usuarios: seq<User>, i: nat)
    requires i < |usuarios|
    ensures var us, u := previos + usuarios[..i], usuarios[i];
      && (ClaveUsuario(u) in Claves(us) ==> Primeros(previos + usuarios[..i + 1]) == Primeros(us))
      && (ClaveUsuario(u) !in Claves(us) ==> Primeros(previos + usuarios[..i + 1]) == Primeros(us) + [u])
      && Claves(previos + usuarios[..i + 1]) == Claves(us) + {ClaveUsuario(u)}
  {
    assert previos + usuarios[..i + 1] == (previos + usuarios[..i]) + [usuarios[i]];
    PrimerosSnoc(previos + usuarios[..i], usuarios[i]);
  }

  lemma PrimerosSnoc(us: seq<User>, u: User)
    ensures Primeros(us + [u]) == Primeros(us) + (if ClaveUsuario(u) in Claves(us) then [] else [u])
    ensures Claves(us + [u]) == Claves(us) + {ClaveUsuario(u)}
  {
    assert (us + [u])[..|us|] == us;
  }

  lemma FilasSnoc(us: seq<User>, u: User, today: Date)
    requires Valid(today)
    ensures Filas(us + [u], today) == Filas(us, today) + [FilaDe(u, today)]
  {
    assert (us + [u])[..|us|] == us;
  }

  /** One more user: its key is processed, and it adds its row exactly when its key is new. */
  lemma TablaStep(previos: seq<User>, usuarios: seq<User>, i: nat, today: Date)
    requires Valid(today) && i < |usuarios|
    ensures var us, u, us' := previos + usuarios[..i], usuarios[i], previos + usuarios[..i + 1];
      && Claves(us') == Claves(us) + {ClaveUsuario(u)}
      && (ClaveUsuario(u) in Claves(us) ==> Tabla(us', today) == Tabla(us, today))
      && (ClaveUsuario(u) !in Claves(us) ==> Tabla(us', today) == Tabla(us, today) + [FilaDe(u, today)])
  {
    PrimerosStep(previos, usuarios, i);
    FilasSnoc(Primeros(previos + usuarios[..i]), usuarios[i], today);
  }

  /** The inner loop over one document's users; `procesados` is `usuarios_procesados`. */
  method AgregarUsuarios(previos: seq<User>, usuarios: seq<User>, filas0: seq<Fila>, procesados0: set<string>, today: Date)
    returns (filas: seq<Fila>, procesados: set<string>)
    requires Valid(today)
    requires filas0 == Tabla(previos, today) && procesados0 == Claves(previos)
    ensures filas == Tabla(previos + usuarios, today) && procesados == Claves(previos + usuarios)
  {
    filas, procesados := filas0, procesados0;
    assert previos + usuarios[..0] == previos;
    for i := 0 to |usuarios|
      invariant filas == Tabla(previos + usuarios[..i], today)
      invariant procesados == Claves(previos + usuarios[..i])
    {
      TablaStep(previos, usuarios, i, today);
      var clave := ClaveUsuario(usuarios[i]);
      if clave in procesados {
        continue;
      }
      procesados := procesados + {clave};
      filas := filas + [FilaDe(usuarios[i], today)];
    }
    assert previos + usuarios[..|usuarios|] == previos + usuarios;
  }

  /** The de-duplication loop of `_crear_tabla_usuarios`. */
  method CrearTablaUsuarios(docs: seq<Document>, today: Date) returns (filas: seq<Fila>)
    requires Valid(today)
    ensures filas == Tabla(TodosUsuarios(docs), today)
  {
    filas := [];
    var procesados: set<string> := {};
    for d := 0 to |docs|
      invariant filas == Tabla(TodosUsuarios(docs[..d]), today) && procesados == Claves(TodosUsuarios(docs[..d]))
    {
      assert docs[..d + 1][..d] == docs[..d];
      filas, procesados := AgregarUsuarios(TodosUsuarios(docs[..d]), Usuarios(docs[d]), filas, procesados, today);
    }
    assert docs[..|docs|] == docs;
  }
}
