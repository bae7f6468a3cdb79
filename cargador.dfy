/**
 * The RIPS loader of AnalisisJSON: the ICD-10 description lookup, the age
 * in whole years between two `YYYY-MM-DD` dates, and the extraction of
 * users, consultations and procedures from a loaded document, each with
 * its `dict.get` default.  The clock read that stands in for a missing
 * reference date is the parameter `today`.
 */
module Cargador {
  import opened Wrappers
  import opened Text
  import opened Dates
  import opened Json

  /** The `servicios` object of a user; `None` stands for an absent key. */
  datatype Services = Services(consultas: Option<seq<Record>>, procedimientos: Option<seq<Record>>)

  /** A user: its scalar members and its optional `servicios`. */
  datatype User = User(fields: Record, servicios: Option<Services>)

  /** A loaded RIPS document, of which only `usuarios` is read. */
  datatype Document = Document(usuarios: Option<seq<User>>)

  /** The catalogue loaded from the ICD-10 file: code to an object of texts. */
  type Catalog = map<string, map<string, string>>

  /** What the lookup returns; `codigo` is `None` where the object has no `codigo` key. */
  datatype DiagnosisInfo = DiagnosisInfo(codigo: Option<string>, nombre: string, descripcion: string)

  /** `obtener_info_diagnostico`. */
  function InfoDiagnostico(catalog: Catalog, codigo: string): (r: DiagnosisInfo)
    ensures codigo == "" ==> r == DiagnosisInfo(None, "Sin diagnóstico", "")
    ensures codigo != "" ==> r.codigo == Some(codigo)
  {
    if codigo == "" then DiagnosisInfo(None, "Sin diagnóstico", "")
    else
      var info := if Upper(codigo) in catalog then catalog[Upper(codigo)] else map[];
      DiagnosisInfo(
        Some(codigo),
        if "nombre" in info then info["nombre"] else "Código no encontrado",
        if "descripcion" in info then info["descripcion"] else "")
  }

  /**
   * A non-empty code is looked up upper-cased: its texts are the catalogue
   * entry's, each defaulting when the entry or the key is missing.
   */
  lemma InfoLookup(catalog: Catalog, codigo: string)
    requires codigo != ""
    ensures var r := InfoDiagnostico(catalog, codigo);
      && (Upper(codigo) !in catalog ==> r.nombre == "Código no encontrado" && r.descripcion == "")
      && (Upper(codigo) in catalog && "nombre" in catalog[Upper(codigo)] ==> r.nombre == catalog[Upper(codigo)]["nombre"])
      && (Upper(codigo) in catalog && "descripcion" in catalog[Upper(codigo)] ==> r.descripcion == catalog[Upper(codigo)]["descripcion"])
  {
  }

  /** The lookup ignores letter case: a code and its upper-cased form give the same texts. */
  lemma InfoIgnoresCase(catalog: Catalog, codigo: string)
    requires codigo != ""
    ensures InfoDiagnostico(catalog, Upper(codigo)).nombre == InfoDiagnostico(catalog, codigo).nombre
    ensures InfoDiagnostico(catalog, Upper(codigo)).descripcion == InfoDiagnostico(catalog, codigo).descripcion
  {
    UpperIdempotent(codigo);
    assert |Upper(codigo)| == |codigo|;
  }

  /** The reference date of `calcular_edad`: the given text parsed, or today when none is given. */
  function ReferenceDate(ref: Scalar, today: Date): Option<Date>
  {
    if !Truthy(ref) then Some(today)
    else if ref.Str? then StrptimeYmd(ref.s)
    else None
  }

  /**
   * `calcular_edad`: whole years from the birth date to the reference
   * date, one less before the birthday; `None` when either date does not
   * parse (every exception is swallowed).
   */
  function CalcularEdad(birth: Scalar, ref: Scalar, today: Date): (r: Option<int>)
    ensures r.Some? <==> birth.Str? && StrptimeYmd(birth.s).Some? && ReferenceDate(ref, today).Some?
  {
    if !birth.Str? then None
    else
      match StrptimeYmd(birth.s)
      case None => None
      case Some(fn) =>
        match ReferenceDate(ref, today)
        case None => None
        case Some(fr) => Some(AgeYears(fn, fr))
  }

  /**
   * The computed age is the year difference, one less exactly when the
   * reference day of the year comes before the birthday; it is never
   * negative when the reference date is not before the birth date.
   */
  lemma EdadYears(birth: string, ref: Scalar, today: Date)
    requires StrptimeYmd(birth).Some? && ReferenceDate(ref, today).Some?
    ensures var fn, fr := StrptimeYmd(birth).value, ReferenceDate(ref, today).value;
      && CalcularEdad(Str(birth), ref, today)
         == Some(fr.year - fn.year - (if fr.month < fn.month || (fr.month == fn.month && fr.day < fn.day) then 1 else 0))
      && (!Before(fr, fn) ==> CalcularEdad(Str(birth), ref, today).value >= 0)
  {
    var fn, fr := StrptimeYmd(birth).value, ReferenceDate(ref, today).value;
    if !Before(fr, fn) {
      AgeNonNegative(fn, fr);
    }
  }

  /** Without a reference date the age is counted up to today. */
  lemma EdadDefaultsToToday(birth: Scalar, today: Date)
    ensures CalcularEdad(birth, Null, today) == CalcularEdad(birth, Str(""), today)
    ensures birth.Str? && StrptimeYmd(birth.s).Some? ==>
      CalcularEdad(birth, Null, today) == Some(AgeYears(StrptimeYmd(birth.s).value, today))
  {
  }

  /** `extraer_usuarios`: `datos.get("usuarios", [])`. */
  function Usuarios(d: Document): (r: seq<User>)
    ensures d.usuarios.None? ==> r == []
    ensures d.usuarios.Some? ==> r == d.usuarios.value
  {
    match d.usuarios
    case None => []
    case Some(us) => us
  }

  /** `extraer_consultas`: `usuario.get("servicios", {}).get("consultas", [])`. */
  function Consultas(u: User): (r: seq<Record>)
    ensures u.servicios.None? || u.servicios.value.consultas.None? ==> r == []
    ensures u.servicios.Some? && u.servicios.value.consultas.Some? ==> r == u.servicios.value.consultas.value
  {
    match u.servicios
    case None => []
    case Some(sv) => match sv.consultas case None => [] case Some(cs) => cs
  }

  /** `extraer_procedimientos`: `usuario.get("servicios", {}).get("procedimientos", [])`. */
  function Procedimientos(u: User): (r: seq<Record>)
    ensures u.servicios.None? || u.servicios.value.procedimientos.None? ==> r == []
    ensures u.servicios.Some? && u.servicios.value.procedimientos.Some? ==> r == u.servicios.value.procedimientos.value
  {
    match u.servicios
    case None => []
    case Some(sv) => match sv.procedimientos case None => [] case Some(ps) => ps
  }
}
