/**
 * The column validator of ESE files (`ValidadorESE`): every row of the
 * sheet is checked column by column, each rule appending numbered errors
 * (and, for weight and height, warnings) to the validator's lists, and a
 * whole sheet is validated by clearing the lists and checking the rows in
 * order, the n-th row with record number n.
 *
 * A row is a sequence of cells as pandas holds them: missing (`NaN`), a
 * number together with the text `str()` gives it, or a text.  The cutoff
 * date is a parameter.  Every rule is a function giving the errors it
 * appends; the class methods append exactly those.  Error messages are
 * left out: an error carries its user, its offending datum and its code.
 */
module Ese {
  import opened Wrappers
  import opened Text
  import opened Dates

  // ---------------------------------------------------------------------
  // Cells and rows
  // ---------------------------------------------------------------------

  /** A cell of the sheet; `texto` is what `str()` prints for the number. */
  datatype Celda = NA | Num(valor: real, texto: string) | Txt(t: string)

  /**
   * A row: the rules read column 23 unconditionally, so a sheet with
   * fewer columns raises `IndexError` and is not a valid input.
   */
  type Fila = f: seq<Celda> | |f| > 23 witness seq(24, i => NA)

  /** `str(v)`. */
  function Str(c: Celda): string
  {
    match c
    case NA => "nan"
    case Num(_, s) => s
    case Txt(t) => t
  }

  /** `fila.iloc[k] if len(fila) > k else None`. */
  function Opcional(f: seq<Celda>, k: nat): Option<Celda>
  {
    if k < |f| then Some(f[k]) else None
  }

  /** `str(v)` for a value that may be `None`. */
  function StrOpt(v: Option<Celda>): string
  {
    match v
    case None => "None"
    case Some(c) => Str(c)
  }

  /** The wildcard texts the rules compare cells with. */
  const NoAplica: string := "1845-01-01"
  const NoEvaluado: string := "1800-01-01"
  const Limite1900: string := "1900-01-01"

  /** `x in xs` for a list of texts. */
  predicate EnLista(xs: seq<string>, x: string)
  {
    xs != [] && (xs[0] == x || EnLista(xs[1..], x))
  }

  /** `v == x` for a number `x`: only a number cell of that value equals it. */
  predicate Es(c: Celda, x: real)
  {
    c.Num? && c.valor == x
  }

  predicate EsOpt(v: Option<Celda>, x: real)
  {
    v.Some? && Es(v.value, x)
  }

  /** `v not in [0, None]`. */
  predicate Aplica(v: Option<Celda>)
  {
    v.Some? && !Es(v.value, 0.0)
  }

  /** Python's `a < b` on strings: lexicographic on code points. */
  predicate LexMenor(a: string, b: string)
  {
    if b == [] then false
    else if a == [] then true
    else a[0] < b[0] || (a[0] == b[0] && LexMenor(a[1..], b[1..]))
  }

  // ---------------------------------------------------------------------
  // pandas dates and ages
  // ---------------------------------------------------------------------

  /** What `pd.to_datetime` gives: a date, `NaT`, or an exception. */
  datatype Instante = Dia(d: Date) | NaT | Falla

  /** The texts pandas reads as `NaT`. */
  const TextosNaT: seq<string> := ["", "NaT", "nat", "NAT", "nan", "NaN", "NAN"]

  /** The dates a nanosecond `Timestamp` can hold at midnight. */
  predicate EnRangoTimestamp(d: Date)
  {
    Before(Date(1677, 9, 21), d) && !Before(Date(2262, 4, 11), d)
  }

  /** `pd.to_datetime(v)` for `AAAA-MM-DD` texts. */
  function ADatetime(c: Celda): (r: Instante)
    ensures r.Dia? ==> Valid(r.d) && EnRangoTimestamp(r.d)
  {
    match c
    case NA => NaT
    case Num(_, _) => Falla
    case Txt(t) =>
      if EnLista(TextosNaT, t) then NaT
      else match StrptimeYmd(t)
        case Some(d) => if EnRangoTimestamp(d) then Dia(d) else Falla
        case None => Falla
  }

  /** `pd.to_datetime(v, errors='coerce')`, with `NaT` as `None`. */
  function Coercion(c: Celda): (r: Option<Date>)
    ensures r.Some? ==> Valid(r.value)
  {
    if ADatetime(c).Dia? then Some(ADatetime(c).d) else None
  }

  /** `(b - a).days / 365.25`. */
  function AnosEntre(a: Date, b: Date): real
    requires Valid(a) && Valid(b)
  {
    DaysBetween(a, b) as real / 365.25
  }

  /** The result of `calcular_edad`: `None`, `nan` (from `NaT`) or a number of years. */
  datatype Edad = Ninguna | NoNumero | Anos(anos: real)

  /** `calcular_edad(fecha_nacimiento, fecha_corte)`. */
  function CalcularEdad(nacimiento: Celda, corte: Date): Edad
    requires Valid(corte)
  {
    if nacimiento == NA then Ninguna
    else match ADatetime(nacimiento)
      case Dia(d) => Anos(AnosEntre(d, corte))
      case NaT => NoNumero
      case Falla => Ninguna
  }

  /** `edad is not None and edad < x`; a comparison with `nan` is false. */
  predicate Menor(e: Edad, x: real)
  {
    e.Anos? && e.anos < x
  }

  /** `edad is not None and edad >= x`. */
  predicate AlMenos(e: Edad, x: real)
  {
    e.Anos? && e.anos >= x
  }

  /** `pd.to_numeric(v, errors='coerce')`. */
  function Numerico(c: Celda): Float
  {
    match c
    case NA => NaN
    case Num(v, _) => Finite(v)
    case Txt(t) => match PyFloat(t) case Some(x) => x case None => NaN
  }

  // ---------------------------------------------------------------------
  // Errors
  // ---------------------------------------------------------------------

  datatype Codigo =
    | Error001 | Error002 | Error021 | Error003 | Error220 | Error676
    | Error020 | Error421 | Error677 | Error120 | Error004
    | Error030 | Error222 | Error223 | Error244 | Error379
    | Error500 | Error503 | Error504 | Error227 | Error505
    | Error232 | Error506 | Error507 | Error508 | Error509 | Error510
    | Error037 | Error038 | Error513 | Error514 | Error237 | Error512 | Error515
    | Error121 | Error171 | Warning674 | Error041 | Error680 | Error681 | Error682 | Error683 | Error684
    | Error122 | Error172 | Warning675 | Error043 | Error685 | Error686 | Error687 | Error688 | Error689

  /** The offending datum: a cell, a coerced number, or `None`. */
  datatype Dato = DeCelda(c: Celda) | Numero(x: Float) | Ninguno

  function DatoOpt(v: Option<Celda>): Dato
  {
    match v
    case None => Ninguno
    case Some(c) => DeCelda(c)
  }

  /** One entry of `errores` or `warnings`, without its message. */
  datatype Hallazgo = Hallazgo(usuario: Celda, dato: Dato, codigo: Codigo)

  /** An error about user `f[4]`. */
  function ErrorEn(f: Fila, dato: Celda, c: Codigo): Hallazgo
  {
    Hallazgo(f[4], DeCelda(dato), c)
  }

  /** `r` with `h` appended when `c` holds: one conditional `agregar_error`. */
  function Anotar(r: seq<Hallazgo>, c: bool, h: Hallazgo): seq<Hallazgo>
  {
    if c then r + [h] else r
  }

  /** Some entry of `hs` has code `c`. */
  predicate Reporta(hs: seq<Hallazgo>, c: Codigo)
  {
    exists h :: h in hs && h.codigo == c
  }

  // ---------------------------------------------------------------------
  // The column rules
  // ---------------------------------------------------------------------

  /** `TIPOS_IDENTIFICACION`. */
  const TiposIdentificacion: seq<string> := ["RC", "TI", "CE", "CC", "PA", "MS", "AS", "NV", "PE", "SC", "DE", "CN", "PT", "PPT"]

  /** Column 0: the record type must be 2. */
  function Columna0(f: Fila): seq<Hallazgo>
  {
    Anotar([], !Es(f[0], 2.0), ErrorEn(f, f[0], Error001))
  }

  /** Column 1: the record number must be the row's. */
  function Columna1(f: Fila, n: int): seq<Hallazgo>
  {
    Anotar([], !Es(f[1], n as real), ErrorEn(f, f[1], Error002))
  }

  /** Column 2: the provider code must be present (`valor != 999 and pd.isna(valor)`). */
  function Columna2(f: Fila): seq<Hallazgo>
  {
    Anotar([], f[2] == NA, ErrorEn(f, f[2], Error021))
  }

  predicate TipoConocido(c: Celda)
  {
    c.Txt? && EnLista(TiposIdentificacion, c.t)
  }

  /** Column 3: the document type must be one of `TIPOS_IDENTIFICACION`. */
  function Columna3(f: Fila): seq<Hallazgo>
  {
    Anotar([], !TipoConocido(f[3]), ErrorEn(f, f[3], Error003))
  }

  predicate Alfanumerico(c: char)
  {
    IsDigit(c) || IsUpper(c)
  }

  /** The length of the leading run of `[0-9A-Z]` in `s`. */
  function Tramo(s: string): (k: nat)
    ensures k <= |s|
  {
    if s != [] && Alfanumerico(s[0]) then 1 + Tramo(s[1..]) else 0
  }

  /**
   * `re.match(r'^[0-9A-Z]*$', s)`: the greedy run reaches the end, or
   * stops at a final newline, before which `$` also matches.
   */
  predicate Coincide(s: string)
  {
    var k := Tramo(s);
    k == |s| || (k == |s| - 1 && s[k] == '\n')
  }

  /** `validar_caracteres_permitidos`. */
  predicate CaracteresPermitidos(c: Celda)
  {
    c == NA || Coincide(Upper(Str(c)))
  }

  predicate EsTexto(c: Celda, t: string)
  {
    c == Txt(t)
  }

  /** The length condition of Error676, as the rule writes it. */
  predicate LongitudInvalida(tipo: Celda, n: nat)
  {
    (EsTexto(tipo, "CC") && n > 10)
    || (EsTexto(tipo, "TI") && n > 11)
    || (EsTexto(tipo, "CE") && (n < 3 || n > 7))
    || (EsTexto(tipo, "CD") && n > 11)
    || (EsTexto(tipo, "PA") && (n < 3 || n > 16))
    || (EsTexto(tipo, "SC") && n > 9)
    || (EsTexto(tipo, "PE") && (n < 3 || n > 15))
  }

  /** Column 4: the document number's characters, and its length for its type. */
  function Columna4(f: Fila): seq<Hallazgo>
  {
    var id := f[4];
    var r1 := Anotar([], !CaracteresPermitidos(id), Hallazgo(id, DeCelda(id), Error220));
    Anotar(r1, id != NA && f[3] != NA && LongitudInvalida(f[3], |Str(id)|), Hallazgo(id, DeCelda(id), Error676))
  }

  /** The wildcard birth dates column 9 refuses. */
  const ComodinesNoPermitidos: seq<string> := [NoEvaluado, "1805-01-01", "1810-01-01", "1825-01-01", "1830-01-01", "1835-01-01", NoAplica]

  /** `validar_fecha_formato` on a present value. */
  predicate FormatoFecha(c: Celda)
  {
    StrptimeYmd(Str(c)).Some?
  }

  /** `pd.to_datetime(fecha_nacimiento) > pd.to_datetime(fecha_corte)`, false when either raises. */
  predicate PosteriorAlCorte(c: Celda, corte: Date)
  {
    ADatetime(c).Dia? && Before(corte, ADatetime(c).d)
  }

  /** Column 9: the birth date; a missing one is reported once and nothing else is checked. */
  function Columna9(f: Fila, corte: Date): seq<Hallazgo>
  {
    var fn := f[9];
    if fn == NA then [ErrorEn(f, fn, Error020)]
    else
      var r1 := Anotar([], !FormatoFecha(fn), ErrorEn(f, fn, Error421));
      var r2 := Anotar(r1, EnLista(ComodinesNoPermitidos, Str(fn)), ErrorEn(f, fn, Error677));
      Anotar(r2, PosteriorAlCorte(fn, corte), ErrorEn(f, fn, Error120))
  }

  /** Column 10: the sex must be F or M. */
  function Columna10(f: Fila): seq<Hallazgo>
  {
    Anotar([], !(EsTexto(f[10], "F") || EsTexto(f[10], "M")), ErrorEn(f, f[10], Error004))
  }

  /** `gestante in [1, 2, 21]`. */
  predicate RegistraGestacion(g: Celda)
  {
    Es(g, 1.0) || Es(g, 2.0) || Es(g, 21.0)
  }

  /** Some pregnancy-related variable is recorded (the condition of Error244). */
  predicate RelacionadasRegistradas(f: Fila)
  {
    Aplica(Opcional(f, 23)) || Aplica(Opcional(f, 35)) || Aplica(Opcional(f, 59))
    || Aplica(Opcional(f, 60)) || Aplica(Opcional(f, 61))
    || StrOpt(Opcional(f, 33)) != NoAplica || StrOpt(Opcional(f, 56)) != NoAplica
    || StrOpt(Opcional(f, 58)) != NoAplica
  }

  /** Some pregnancy-related variable is left as "does not apply" (the condition of Error379). */
  predicate RelacionadasFaltantes(f: Fila)
  {
    EsOpt(Opcional(f, 23), 0.0) || EsOpt(Opcional(f, 35), 0.0) || EsOpt(Opcional(f, 59), 0.0)
    || EsOpt(Opcional(f, 60), 0.0) || EsOpt(Opcional(f, 61), 0.0)
    || StrOpt(Opcional(f, 33)) == NoAplica || StrOpt(Opcional(f, 56)) == NoAplica
    || StrOpt(Opcional(f, 58)) == NoAplica
  }

  /** `10 <= edad < 60`. */
  predicate EdadFertil(e: Edad)
  {
    AlMenos(e, 10.0) && Menor(e, 60.0)
  }

  /**
   * Column 14: pregnancy against sex, age and the related variables.  Every
   * row has a column 23, so the guard `len(fila) > 23` always holds.
   */
  function Columna14(f: Fila, corte: Date): seq<Hallazgo>
    requires Valid(corte)
  {
    var g := f[14];
    var sexo := f[10];
    var edad := CalcularEdad(f[9], corte);
    var r1 := Anotar([], RegistraGestacion(g) && !EsTexto(sexo, "F"), ErrorEn(f, g, Error030));
    var r2 := Anotar(r1, (Menor(edad, 10.0) || AlMenos(edad, 60.0)) && !Es(g, 0.0), ErrorEn(f, g, Error222));
    var r3 := Anotar(r2, EsTexto(sexo, "F") && EdadFertil(edad) && Es(g, 0.0), ErrorEn(f, g, Error223));
    var r4 := Anotar(r3, !Es(g, 1.0) && RelacionadasRegistradas(f), ErrorEn(f, g, Error244));
    Anotar(r4, Es(g, 1.0) && RelacionadasFaltantes(f), ErrorEn(f, g, Error379))
  }

  /** Column 15: gestational syphilis must be 0. */
  function Columna15(f: Fila): seq<Hallazgo>
  {
    Anotar([], !Es(f[15], 0.0), ErrorEn(f, f[15], Error500))
  }

  /** `pd.isna(v) or str(v) <= '1900-01-01'`. */
  predicate SinFechaValida(v: Option<Celda>)
  {
    v.None? || v == Some(NA) || !LexMenor(Limite1900, Str(v.value))
  }

  /** Column 16: the mini-mental result against its assessment date (column 52) and the age. */
  function Columna16(f: Fila, corte: Date): seq<Hallazgo>
    requires Valid(corte)
  {
    var res := f[16];
    var edad := CalcularEdad(f[9], corte);
    var r1 := Anotar([], (Es(res, 4.0) || Es(res, 5.0)) && SinFechaValida(Opcional(f, 52)), ErrorEn(f, res, Error503));
    var r2 := Anotar(r1, !(Es(res, 0.0) || Es(res, 4.0) || Es(res, 5.0) || Es(res, 21.0)), ErrorEn(f, res, Error504));
    Anotar(r2, ((Es(res, 4.0) || Es(res, 5.0) || Es(res, 21.0)) && Menor(edad, 60.0)) || (Es(res, 0.0) && AlMenos(edad, 60.0)), ErrorEn(f, res, Error227))
  }

  /** Column 17: congenital hypothyroidism must be 0. */
  function Columna17(f: Fila): seq<Hallazgo>
  {
    Anotar([], !Es(f[17], 0.0), ErrorEn(f, f[17], Error505))
  }

  /** Column 18: the respiratory symptomatic against the bacilloscopy (columns 112 and 113). */
  function Columna18(f: Fila): seq<Hallazgo>
  {
    var s := f[18];
    var resultado := Opcional(f, 113);
    var fecha := StrOpt(Opcional(f, 112));
    var r1 := Anotar([], Es(s, 1.0) && (EsOpt(resultado, 4.0) || fecha == NoAplica), ErrorEn(f, s, Error232));
    var r2 := Anotar(r1, Es(s, 2.0) && (!EsOpt(resultado, 4.0) || fecha != NoAplica), ErrorEn(f, s, Error506));
    Anotar(r2, Es(s, 21.0) && (!EsOpt(resultado, 21.0) || fecha != NoEvaluado), ErrorEn(f, s, Error507))
  }

  /** Column 19: under 12 years, tobacco use must be 98. */
  function Columna19(f: Fila, corte: Date): seq<Hallazgo>
    requires Valid(corte)
  {
    Anotar([], Menor(CalcularEdad(f[9], corte), 12.0) && !Es(f[19], 98.0), ErrorEn(f, f[19], Error508))
  }

  /** Column 20: leprosy must be 21. */
  function Columna20(f: Fila): seq<Hallazgo>
  {
    Anotar([], !Es(f[20], 21.0), ErrorEn(f, f[20], Error509))
  }

  /** Column 21: obesity or malnutrition must be 21. */
  function Columna21(f: Fila): seq<Hallazgo>
  {
    Anotar([], !Es(f[21], 21.0), ErrorEn(f, f[21], Error510))
  }

  /** The wildcard dates Error512 accepts for an unevaluated rectal exam. */
  const ComodinesValidos: seq<string> := [NoEvaluado, "1805-01-01", "1810-01-01", "1825-01-01", "1830-01-01", "1835-01-01"]

  /** `pd.notna(fecha_tacto) and str(fecha_tacto) > '1900-01-01'`. */
  predicate FechaRegistrada(v: Option<Celda>)
  {
    v.Some? && v.value != NA && LexMenor(Limite1900, Str(v.value))
  }

  /**
   * `resultado not in [4, 5] or sexo != 'M' or edad < 40`, an unknown age
   * counting as not under 40: it agrees with the condition as written
   * wherever that does not raise.
   */
  predicate Dispara237(res: Celda, sexo: Celda, edad: Edad)
    ensures Dispara237TalCual(res, sexo, edad).Some? ==> (Dispara237(res, sexo, edad) <==> Dispara237TalCual(res, sexo, edad).value)
    ensures edad == Ninguna ==> (Dispara237(res, sexo, edad) <==> !(Es(res, 4.0) || Es(res, 5.0)) || !EsTexto(sexo, "M"))
  {
    !(Es(res, 4.0) || Es(res, 5.0)) || !EsTexto(sexo, "M") || Menor(edad, 40.0)
  }

  /** Column 22: the rectal exam result against sex, age and its date (column 64). */
  function Columna22(f: Fila, corte: Date): seq<Hallazgo>
    requires Valid(corte)
  {
    var res := f[22];
    var sexo := f[10];
    var fecha := Opcional(f, 64);
    var edad := CalcularEdad(f[9], corte);
    var r1 := Anotar([], (Es(res, 4.0) || Es(res, 5.0) || Es(res, 21.0)) && !EsTexto(sexo, "M"), ErrorEn(f, res, Error037));
    var r2 := Anotar(r1, EsTexto(sexo, "M") && Menor(edad, 40.0) && (!Es(res, 0.0) || StrOpt(fecha) != NoAplica), ErrorEn(f, res, Error038));
    var r3 := Anotar(r2, EsTexto(sexo, "F") && (!Es(res, 0.0) || StrOpt(fecha) != NoAplica), ErrorEn(f, res, Error513));
    var r4 := Anotar(r3, !(Es(res, 0.0) || Es(res, 4.0) || Es(res, 5.0) || Es(res, 21.0)), ErrorEn(f, res, Error514));
    var r5 := Anotar(r4, FechaRegistrada(fecha) && Dispara237(res, sexo, edad), Hallazgo(f[4], DatoOpt(fecha), Error237));
    Anotar(r5, Es(res, 21.0) && !EnLista(ComodinesValidos, StrOpt(fecha)), ErrorEn(f, res, Error512))
  }

  /** Column 23: preconception folic acid must be 0, 1, 2 or 21. */
  function Columna23(f: Fila): seq<Hallazgo>
  {
    Anotar([], !(Es(f[23], 0.0) || Es(f[23], 1.0) || Es(f[23], 2.0) || Es(f[23], 21.0)), ErrorEn(f, f[23], Error515))
  }

  // ---------------------------------------------------------------------
  // Weight and height
  // ---------------------------------------------------------------------

  datatype Medida = Peso | Talla

  function ColumnaFecha(m: Medida): nat { if m == Peso then 29 else 31 }
  function ColumnaValor(m: Medida): nat { if m == Peso then 30 else 32 }

  function CodigoFutura(m: Medida): Codigo { if m == Peso then Error121 else Error122 }
  function CodigoPrevia(m: Medida): Codigo { if m == Peso then Error171 else Error172 }
  function CodigoComodin(m: Medida): Codigo { if m == Peso then Warning674 else Warning675 }
  function CodigoSinDato(m: Medida): Codigo { if m == Peso then Error041 else Error043 }

  /** `v < lo or v > hi`. */
  predicate Fuera(v: Float, lo: real, hi: real)
  {
    v.Below(lo) || v.Above(hi)
  }

  /** The codes of the age-band errors. */
  predicate DeBanda(c: Codigo)
  {
    c.Error680? || c.Error681? || c.Error682? || c.Error683? || c.Error684?
    || c.Error685? || c.Error686? || c.Error687? || c.Error688? || c.Error689?
  }

  /** The `if`/`elif` chain on the age at weighing. */
  function BandaPeso(v: Float, e: real): (r: Option<Codigo>)
    ensures r.Some? ==> DeBanda(r.value)
  {
    if e < 2.0 && Fuera(v, 1.0, 15.0) then Some(Error680)
    else if 2.0 <= e < 5.0 && Fuera(v, 3.0, 25.0) then Some(Error681)
    else if 5.0 <= e < 13.0 && Fuera(v, 9.0, 80.0) then Some(Error682)
    else if 13.0 <= e < 18.0 && Fuera(v, 30.0, 80.0) then Some(Error683)
    else if e >= 18.0 && Fuera(v, 35.0, 250.0) then Some(Error684)
    else None
  }

  /** The `if`/`elif` chain on the age at measuring. */
  function BandaTalla(v: Float, e: real): (r: Option<Codigo>)
    ensures r.Some? ==> DeBanda(r.value)
  {
    if e < 2.0 && Fuera(v, 40.0, 100.0) then Some(Error685)
    else if 2.0 <= e < 5.0 && Fuera(v, 70.0, 110.0) then Some(Error686)
    else if 5.0 <= e < 13.0 && Fuera(v, 80.0, 225.0) then Some(Error687)
    else if 13.0 <= e < 18.0 && Fuera(v, 130.0, 225.0) then Some(Error688)
    else if e >= 18.0 && Fuera(v, 130.0, 225.0) then Some(Error689)
    else None
  }

  function Banda(m: Medida, v: Float, e: real): (r: Option<Codigo>)
    ensures r.Some? ==> DeBanda(r.value)
  {
    if m == Peso then BandaPeso(v, e) else BandaTalla(v, e)
  }

  /** The measure is checked against its age band: a value other than 999 with both dates. */
  predicate EnBanda(f: Fila, m: Medida)
    requires |f| > 32
  {
    var v := Numerico(f[ColumnaValor(m)]);
    v != NaN && v != Finite(999.0) && Coercion(f[ColumnaFecha(m)]).Some? && Coercion(f[9]).Some?
  }

  /** The years between birth and the measuring date. */
  function EdadMedida(f: Fila, m: Medida): real
    requires |f| > 32 && EnBanda(f, m)
  {
    AnosEntre(Coercion(f[9]).value, Coercion(f[ColumnaFecha(m)]).value)
  }

  /** The age-band error of a measure, if any. */
  function ErrorBanda(f: Fila, m: Medida): (r: Option<Codigo>)
    requires |f| > 32
    ensures r.Some? ==> DeBanda(r.value)
  {
    if EnBanda(f, m) then Banda(m, Numerico(f[ColumnaValor(m)]), EdadMedida(f, m)) else None
  }

  /**
   * The errors of the weight (or height) half of `validar_peso_talla`, in
   * order, from its user, date cell, coerced value, coerced dates and band error.
   */
  function Medicion(m: Medida, usuario: Celda, celda: Celda, v: Float, fecha: Option<Date>,
                    nacimiento: Option<Date>, banda: Option<Codigo>, corte: Date): seq<Hallazgo>
  {
    var r1 := Anotar([], fecha.Some? && Before(corte, fecha.value), Hallazgo(usuario, DeCelda(celda), CodigoFutura(m)));
    var r2 := Anotar(r1, fecha.Some? && nacimiento.Some? && Before(fecha.value, nacimiento.value), Hallazgo(usuario, DeCelda(celda), CodigoPrevia(m)));
    var r3 := Anotar(r2, v == Finite(999.0) && Str(celda) != NoEvaluado, Hallazgo(usuario, Numero(v), CodigoSinDato(m)));
    Anotar(r3, banda.Some?, Hallazgo(usuario, Numero(v), if banda.Some? then banda.value else CodigoSinDato(m)))
  }

  /** The errors of the weight (or height) half of `validar_peso_talla`. */
  function ErroresMedida(f: Fila, m: Medida, corte: Date): seq<Hallazgo>
    requires |f| > 32
  {
    var celda := f[ColumnaFecha(m)];
    Medicion(m, f[4], celda, Numerico(f[ColumnaValor(m)]), Coercion(celda), Coercion(f[9]), ErrorBanda(f, m), corte)
  }

  /** The warning of the weight (or height) half of `validar_peso_talla`. */
  function AvisosMedida(f: Fila, m: Medida): seq<Hallazgo>
    requires |f| > 32
  {
    var celda := f[ColumnaFecha(m)];
    Anotar([], Coercion(celda).Some? && Str(celda) == NoEvaluado, ErrorEn(f, celda, CodigoComodin(m)))
  }

  /** The errors of `validar_peso_talla`, run only on rows with a column 32. */
  function PesoTalla(f: Fila, corte: Date): seq<Hallazgo>
  {
    if |f| > 32 then ErroresMedida(f, Peso, corte) + ErroresMedida(f, Talla, corte) else []
  }

  /** Its warnings. */
  function AvisosPesoTalla(f: Fila): seq<Hallazgo>
  {
    if |f| > 32 then AvisosMedida(f, Peso) + AvisosMedida(f, Talla) else []
  }

  // ---------------------------------------------------------------------
  // Rows and sheets
  // ---------------------------------------------------------------------

  /** The errors `validar_fila` appends for row `f` with record number `n`. */
  function ErroresFila(f: Fila, n: int, corte: Date): seq<Hallazgo>
    requires Valid(corte)
  {
    Columna0(f) + Columna1(f, n) + Columna2(f) + Columna3(f) + Columna4(f) + Columna9(f, corte)
    + Columna10(f) + Columna14(f, corte) + Columna15(f) + Columna16(f, corte) + Columna17(f)
    + Columna18(f) + Columna19(f, corte) + Columna20(f) + Columna21(f) + Columna22(f, corte)
    + Columna23(f) + PesoTalla(f, corte)
  }

  /** The errors of the rows `rs`, the first with record number 1. */
  function Errores(rs: seq<Fila>, corte: Date): seq<Hallazgo>
    requires Valid(corte)
  {
    if rs == [] then [] else Errores(rs[..|rs| - 1], corte) + ErroresFila(rs[|rs| - 1], |rs|, corte)
  }

  function Avisos(rs: seq<Fila>): seq<Hallazgo>
  {
    if rs == [] then [] else Avisos(rs[..|rs| - 1]) + AvisosPesoTalla(rs[|rs| - 1])
  }

  /** The dictionary `validar_dataframe` returns. */
  datatype Resultado = Resultado(errores: seq<Hallazgo>, warnings: seq<Hallazgo>, totalErrores: nat, totalWarnings: nat)

  // ---------------------------------------------------------------------
  // The validator
  // ---------------------------------------------------------------------

  /** Appending in two steps appends the concatenation. */
  lemma Asociativa(a: seq<Hallazgo>, b: seq<Hallazgo>, c: seq<Hallazgo>)
    ensures a + b + c == a + (b + c)
  {
  }

  class ValidadorESE {
    var errores: seq<Hallazgo>
    var warnings: seq<Hallazgo>

    constructor()
      ensures errores == [] && warnings == []
    {
      errores := [];
      warnings := [];
    }

    /** `agregar_error`. */
    method AgregarError(usuario: Celda, dato: Dato, codigo: Codigo)
      modifies this
      ensures errores == old(errores) + [Hallazgo(usuario, dato, codigo)] && warnings == old(warnings)
    {
      errores := errores + [Hallazgo(usuario, dato, codigo)];
    }

    /** `agregar_warning`. */
    method AgregarWarning(usuario: Celda, dato: Dato, codigo: Codigo)
      modifies this
      ensures warnings == old(warnings) + [Hallazgo(usuario, dato, codigo)] && errores == old(errores)
    {
      warnings := warnings + [Hallazgo(usuario, dato, codigo)];
    }

    /** `validar_columna_0`. */
    method ValidarColumna0(f: Fila)
      modifies this
      ensures errores == old(errores) + Columna0(f) && warnings == old(warnings)
    {
      if !Es(f[0], 2.0) {
        AgregarError(f[4], DeCelda(f[0]), Error001);
      }
    }

    /** `validar_columna_1`. */
    method ValidarColumna1(f: Fila, n: int)
      modifies this
      ensures errores == old(errores) + Columna1(f, n) && warnings == old(warnings)
    {
      if !Es(f[1], n as real) {
        AgregarError(f[4], DeCelda(f[1]), Error002);
      }
    }

    /** `validar_columna_2`. */
    method ValidarColumna2(f: Fila)
      modifies this
      ensures errores == old(errores) + Columna2(f) && warnings == old(warnings)
    {
      if f[2] == NA {
        AgregarError(f[4], DeCelda(f[2]), Error021);
      }
    }

    /** `validar_columna_3`. */
    method ValidarColumna3(f: Fila)
      modifies this
      ensures errores == old(errores) + Columna3(f) && warnings == old(warnings)
    {
      if !TipoConocido(f[3]) {
        AgregarError(f[4], DeCelda(f[3]), Error003);
      }
    }

    /** `validar_columna_4`. */
    method ValidarColumna4(f: Fila)
      modifies this
      ensures errores == old(errores) + Columna4(f) && warnings == old(warnings)
    {
      var tipo, id := f[3], f[4];
      var found: seq<Hallazgo> := [];
      if !CaracteresPermitidos(id) {
        found := found + [Hallazgo(id, DeCelda(id), Error220)];
      }
      if id != NA && tipo != NA {
        var longitud := |Str(id)|;
        if LongitudInvalida(tipo, longitud) {
          found := found + [Hallazgo(id, DeCelda(id), Error676)];
        }
      }
      errores := errores + found;
    }

    /** `validar_columna_9`. */
    method ValidarColumna9(f: Fila, corte: Date)
      modifies this
      ensures errores == old(errores) + Columna9(f, corte) && warnings == old(warnings)
    {
      var fn := f[9];
      if fn == NA {
        AgregarError(f[4], DeCelda(fn), Error020);
        return;
      }
      var found: seq<Hallazgo> := [];
      if !FormatoFecha(fn) {
        found := found + [ErrorEn(f, fn, Error421)];
      }
      if EnLista(ComodinesNoPermitidos, Str(fn)) {
        found := found + [ErrorEn(f, fn, Error677)];
      }
      if PosteriorAlCorte(fn, corte) {
        found := found + [ErrorEn(f, fn, Error120)];
      }
      errores := errores + found;
    }

    /** `validar_columna_10`. */
    method ValidarColumna10(f: Fila)
      modifies this
      ensures errores == old(errores) + Columna10(f) && warnings == old(warnings)
    {
      if !(EsTexto(f[10], "F") || EsTexto(f[10], "M")) {
        AgregarError(f[4], DeCelda(f[10]), Error004);
      }
    }

    /** `validar_columna_14`. */
    method ValidarColumna14(f: Fila, corte: Date)
      requires Valid(corte)
      modifies this
      ensures errores == old(errores) + Columna14(f, corte) && warnings == old(warnings)
    {
      var g, sexo := f[14], f[10];
      var edad := CalcularEdad(f[9], corte);
      var found: seq<Hallazgo> := [];
      if RegistraGestacion(g) && !EsTexto(sexo, "F") {
        found := found + [ErrorEn(f, g, Error030)];
      }
      if (Menor(edad, 10.0) || AlMenos(edad, 60.0)) && !Es(g, 0.0) {
        found := found + [ErrorEn(f, g, Error222)];
      }
      if EsTexto(sexo, "F") && EdadFertil(edad) && Es(g, 0.0) {
        found := found + [ErrorEn(f, g, Error223)];
      }
      if !Es(g, 1.0) && RelacionadasRegistradas(f) {
        found := found + [ErrorEn(f, g, Error244)];
      }
      if Es(g, 1.0) && RelacionadasFaltantes(f) {
        found := found + [ErrorEn(f, g, Error379)];
      }
      errores := errores + found;
    }

    /** `validar_columna_15`. */
    method ValidarColumna15(f: Fila)
      modifies this
      ensures errores == old(errores) + Columna15(f) && warnings == old(warnings)
    {
      if !Es(f[15], 0.0) {
        AgregarError(f[4], DeCelda(f[15]), Error500);
      }
    }

    /** `validar_columna_16`. */
    method ValidarColumna16(f: Fila, corte: Date)
      requires Valid(corte)
      modifies this
      ensures errores == old(errores) + Columna16(f, corte) && warnings == old(warnings)
    {
      var res := f[16];
      var edad := CalcularEdad(f[9], corte);
      var found: seq<Hallazgo> := [];
      if (Es(res, 4.0) || Es(res, 5.0)) && SinFechaValida(Opcional(f, 52)) {
        found := found + [ErrorEn(f, res, Error503)];
      }
      if !(Es(res, 0.0) || Es(res, 4.0) || Es(res, 5.0) || Es(res, 21.0)) {
        found := found + [ErrorEn(f, res, Error504)];
      }
      if ((Es(res, 4.0) || Es(res, 5.0) || Es(res, 21.0)) && Menor(edad, 60.0)) || (Es(res, 0.0) && AlMenos(edad, 60.0)) {
        found := found + [ErrorEn(f, res, Error227)];
      }
      errores := errores + found;
    }

    /** `validar_columna_17`. */
    method ValidarColumna17(f: Fila)
      modifies this
      ensures errores == old(errores) + Columna17(f) && warnings == old(warnings)
    {
      if !Es(f[17], 0.0) {
        AgregarError(f[4], DeCelda(f[17]), Error505);
      }
    }

    /** `validar_columna_18`. */
    method ValidarColumna18(f: Fila)
      modifies this
      ensures errores == old(errores) + Columna18(f) && warnings == old(warnings)
    {
      var s := f[18];
      var resultado := Opcional(f, 113);
      var fecha := StrOpt(Opcional(f, 112));
      var found: seq<Hallazgo> := [];
      if Es(s, 1.0) && (EsOpt(resultado, 4.0) || fecha == NoAplica) {
        found := found + [ErrorEn(f, s, Error232)];
      }
      if Es(s, 2.0) && (!EsOpt(resultado, 4.0) || fecha != NoAplica) {
        found := found + [ErrorEn(f, s, Error506)];
      }
      if Es(s, 21.0) && (!EsOpt(resultado, 21.0) || fecha != NoEvaluado) {
        found := found + [ErrorEn(f, s, Error507)];
      }
      errores := errores + found;
    }

    /** `validar_columna_19`. */
    method ValidarColumna19(f: Fila, corte: Date)
      requires Valid(corte)
      modifies this
      ensures errores == old(errores) + Columna19(f, corte) && warnings == old(warnings)
    {
      if Menor(CalcularEdad(f[9], corte), 12.0) && !Es(f[19], 98.0) {
        AgregarError(f[4], DeCelda(f[19]), Error508);
      }
    }

    /** `validar_columna_20`. */
    method ValidarColumna20(f: Fila)
      modifies this
      ensures errores == old(errores) + Columna20(f) && warnings == old(warnings)
    {
      if !Es(f[20], 21.0) {
        AgregarError(f[4], DeCelda(f[20]), Error509);
      }
    }

    /** `validar_columna_21`. */
    method ValidarColumna21(f: Fila)
      modifies this
      ensures errores == old(errores) + Columna21(f) && warnings == old(warnings)
    {
      if !Es(f[21], 21.0) {
        AgregarError(f[4], DeCelda(f[21]), Error510);
      }
    }

    /** `validar_columna_22`, with an unknown age taken as not under 40 in the Error237 test. */
    method ValidarColumna22(f: Fila, corte: Date)
      requires Valid(corte)
      modifies this
      ensures errores == old(errores) + Columna22(f, corte) && warnings == old(warnings)
    {
      var res, sexo := f[22], f[10];
      var fecha := Opcional(f, 64);
      var edad := CalcularEdad(f[9], corte);
      var found: seq<Hallazgo> := [];
      if (Es(res, 4.0) || Es(res, 5.0) || Es(res, 21.0)) && !EsTexto(sexo, "M") {
        found := found + [ErrorEn(f, res, Error037)];
      }
      if EsTexto(sexo, "M") && Menor(edad, 40.0) && (!Es(res, 0.0) || StrOpt(fecha) != NoAplica) {
        found := found + [ErrorEn(f, res, Error038)];
      }
      if EsTexto(sexo, "F") && (!Es(res, 0.0) || StrOpt(fecha) != NoAplica) {
        found := found + [ErrorEn(f, res, Error513)];
      }
      if !(Es(res, 0.0) || Es(res, 4.0) || Es(res, 5.0) || Es(res, 21.0)) {
        found := found + [ErrorEn(f, res, Error514)];
      }
      if FechaRegistrada(fecha) && Dispara237(res, sexo, edad) {
        found := found + [Hallazgo(f[4], DatoOpt(fecha), Error237)];
      }
      if Es(res, 21.0) && !EnLista(ComodinesValidos, StrOpt(fecha)) {
        found := found + [ErrorEn(f, res, Error512)];
      }
      errores := errores + found;
    }

    /** `validar_columna_23`. */
    method ValidarColumna23(f: Fila)
      modifies this
      ensures errores == old(errores) + Columna23(f) && warnings == old(warnings)
    {
      if !(Es(f[23], 0.0) || Es(f[23], 1.0) || Es(f[23], 2.0) || Es(f[23], 21.0)) {
        AgregarError(f[4], DeCelda(f[23]), Error515);
      }
    }

    /** One half of `validar_peso_talla`. */
    method ValidarMedida(f: Fila, m: Medida, corte: Date)
      requires |f| > 32
      modifies this
      ensures errores == old(errores) + ErroresMedida(f, m, corte)
      ensures warnings == old(warnings) + AvisosMedida(f, m)
    {
      var celda := f[ColumnaFecha(m)];
      var v := Numerico(f[ColumnaValor(m)]);
      var fecha := Coercion(celda);
      var nacimiento := Coercion(f[9]);
      var found, warned: seq<Hallazgo> := [], [];
      if fecha.Some? {
        if Before(corte, fecha.value) {
          found := found + [ErrorEn(f, celda, CodigoFutura(m))];
        }
        if nacimiento.Some? && Before(fecha.value, nacimiento.value) {
          found := found + [ErrorEn(f, celda, CodigoPrevia(m))];
        }
        if Str(celda) == NoEvaluado {
          warned := warned + [ErrorEn(f, celda, CodigoComodin(m))];
        }
      }
      if v == Finite(999.0) && Str(celda) != NoEvaluado {
        found := found + [Hallazgo(f[4], Numero(v), CodigoSinDato(m))];
      }
      if v != NaN && v != Finite(999.0) && fecha.Some? && nacimiento.Some? {
        var banda := Banda(m, v, AnosEntre(nacimiento.value, fecha.value));
        if banda.Some? {
          found := found + [Hallazgo(f[4], Numero(v), banda.value)];
        }
      }
      errores := errores + found;
      warnings := warnings + warned;
    }

    /** `validar_peso_talla`. */
    method ValidarPesoTalla(f: Fila, corte: Date)
      requires |f| > 32
      modifies this
      ensures errores == old(errores) + PesoTalla(f, corte)
      ensures warnings == old(warnings) + AvisosPesoTalla(f)
    {
      ghost var e0, w0 := errores, warnings;
      ValidarMedida(f, Peso, corte);
      ValidarMedida(f, Talla, corte);
      Asociativa(e0, ErroresMedida(f, Peso, corte), ErroresMedida(f, Talla, corte));
      Asociativa(w0, AvisosMedida(f, Peso), AvisosMedida(f, Talla));
    }

    /** `validar_fila`. */
    method ValidarFila(f: Fila, n: int, corte: Date)
      requires Valid(corte)
      modifies this
      ensures errores == old(errores) + ErroresFila(f, n, corte)
      ensures warnings == old(warnings) + AvisosPesoTalla(f)
    {
      ghost var e0, w0 := errores, warnings;
      ValidarColumna0(f);
      ghost var hechos := Columna0(f);
      ValidarColumna1(f, n);
      Asociativa(e0, hechos, Columna1(f, n));
      hechos := hechos + Columna1(f, n);
      assert errores == e0 + hechos && warnings == w0;
      ValidarColumna2(f);
      Asociativa(e0, hechos, Columna2(f));
      hechos := hechos + Columna2(f);
      assert errores == e0 + hechos && warnings == w0;
      ValidarColumna3(f);
      Asociativa(e0, hechos, Columna3(f));
      hechos := hechos + Columna3(f);
      assert errores == e0 + hechos && warnings == w0;
      ValidarColumna4(f);
      Asociativa(e0, hechos, Columna4(f));
      hechos := hechos + Columna4(f);
      assert errores == e0 + hechos && warnings == w0;
      ValidarColumna9(f, corte);
      Asociativa(e0, hechos, Columna9(f, corte));
      hechos := hechos + Columna9(f, corte);
      assert errores == e0 + hechos && warnings == w0;
      ValidarColumna10(f);
      Asociativa(e0, hechos, Columna10(f));
      hechos := hechos + Columna10(f);
      assert errores == e0 + hechos && warnings == w0;
      ValidarColumna14(f, corte);
      Asociativa(e0, hechos, Columna14(f, corte));
      hechos := hechos + Columna14(f, corte);
      assert errores == e0 + hechos && warnings == w0;
      ValidarColumna15(f);
      Asociativa(e0, hechos, Columna15(f));
      hechos := hechos + Columna15(f);
      assert errores == e0 + hechos && warnings == w0;
      ValidarColumna16(f, corte);
      Asociativa(e0, hechos, Columna16(f, corte));
      hechos := hechos + Columna16(f, corte);
      assert errores == e0 + hechos && warnings == w0;
      ValidarColumna17(f);
      Asociativa(e0, hechos, Columna17(f));
      hechos := hechos + Columna17(f);
      assert errores == e0 + hechos && warnings == w0;
      ValidarColumna18(f);
      Asociativa(e0, hechos, Columna18(f));
      hechos := hechos + Columna18(f);
      assert errores == e0 + hechos && warnings == w0;
      ValidarColumna19(f, corte);
      Asociativa(e0, hechos, Columna19(f, corte));
      hechos := hechos + Columna19(f, corte);
      assert errores == e0 + hechos && warnings == w0;
      ValidarColumna20(f);
      Asociativa(e0, hechos, Columna20(f));
      hechos := hechos + Columna20(f);
      assert errores == e0 + hechos && warnings == w0;
      ValidarColumna21(f);
      Asociativa(e0, hechos, Columna21(f));
      hechos := hechos + Columna21(f);
      assert errores == e0 + hechos && warnings == w0;
      ValidarColumna22(f, corte);
      Asociativa(e0, hechos, Columna22(f, corte));
      hechos := hechos + Columna22(f, corte);
      assert errores == e0 + hechos && warnings == w0;
      ValidarColumna23(f);
      Asociativa(e0, hechos, Columna23(f));
      hechos := hechos + Columna23(f);
      assert errores == e0 + hechos && warnings == w0;
      if |f| > 32 {
        ValidarPesoTalla(f, corte);
        Asociativa(e0, hechos, PesoTalla(f, corte));
      }
    }

    /**
     * `validar_dataframe`: both lists are cleared, the rows are validated
     * in order with record numbers 1, 2, ..., and the totals are the
     * lengths of the lists.
     */
    method ValidarDataframe(filas: seq<Fila>, corte: Date) returns (r: Resultado)
      requires Valid(corte)
      modifies this
      ensures errores == Errores(filas, corte) && warnings == Avisos(filas)
      ensures r == Resultado(errores, warnings, |errores|, |warnings|)
    {
      errores := [];
      warnings := [];
      for i := 0 to |filas|
        invariant errores == Errores(filas[..i], corte) && warnings == Avisos(filas[..i])
      {
        assert filas[..i + 1][..i] == filas[..i];
        ValidarFila(filas[i], i + 1, corte);
      }
      assert filas[..|filas|] == filas;
      r := Resultado(errores, warnings, |errores|, |warnings|);
    }
  }

  // ---------------------------------------------------------------------
  // Properties of the rules
  // ---------------------------------------------------------------------

  /** The leading run stops at the first character that is not a digit or an upper-case letter. */
  lemma {:induction false} TramoSpec(s: string)
    ensures forall i :: 0 <= i < Tramo(s) ==> Alfanumerico(s[i])
    ensures Tramo(s) < |s| ==> !Alfanumerico(s[Tramo(s)])
  {
    if s != [] && Alfanumerico(s[0]) {
      TramoSpec(s[1..]);
      forall i | 1 <= i < Tramo(s)
        ensures Alfanumerico(s[i])
      {
        assert s[i] == s[1..][i - 1];
      }
    }
  }

  /**
   * `^[0-9A-Z]*$` accepts exactly the texts made of digits and upper-case
   * letters, possibly followed by one final newline.
   */
  lemma CoincideIff(s: string)
    ensures Coincide(s) <==>
      (forall i :: 0 <= i < |s| ==> Alfanumerico(s[i]))
      || (|s| > 0 && s[|s| - 1] == '\n' && forall i :: 0 <= i < |s| - 1 ==> Alfanumerico(s[i]))
  {
    TramoSpec(s);
  }

  /** The accepted document lengths per type, as (shortest, longest). */
  function RangoDocumento(t: string): Option<(nat, nat)>
  {
    if t == "CC" then Some((0, 10))
    else if t == "TI" then Some((0, 11))
    else if t == "CE" then Some((3, 7))
    else if t == "CD" then Some((0, 11))
    else if t == "PA" then Some((3, 16))
    else if t == "SC" then Some((0, 9))
    else if t == "PE" then Some((3, 15))
    else None
  }

  /** `x in xs`. */
  lemma {:induction false} EnListaIff(xs: seq<string>, x: string)
    ensures EnLista(xs, x) <==> x in xs
  {
    if xs != [] {
      EnListaIff(xs[1..], x);
      assert xs == [xs[0]] + xs[1..];
    }
  }

  /** An appended finding is reported; a skipped one is not. */
  lemma ReportaAnotar(c: Codigo)
    ensures forall r, b, h {:trigger Anotar(r, b, h)} ::
      Reporta(Anotar(r, b, h), c) <==> Reporta(r, c) || (b && h.codigo == c)
  {
    forall r: seq<Hallazgo>, b: bool, h: Hallazgo
      ensures Reporta(Anotar(r, b, h), c) <==> Reporta(r, c) || (b && h.codigo == c)
    {
      if b && Reporta(r, c) {
        var x :| x in r && x.codigo == c;
        assert x in r + [h];
      }
      if b {
        assert h in r + [h];
      }
    }
  }

  /** Columns 0, 1, 2 and 10: each reports its code exactly when its value is wrong. */
  lemma Identificacion(f: Fila, n: int)
    ensures Reporta(Columna0(f), Error001) <==> !(f[0].Num? && f[0].valor == 2.0)
    ensures Reporta(Columna1(f, n), Error002) <==> !(f[1].Num? && f[1].valor == n as real)
    ensures Reporta(Columna2(f), Error021) <==> f[2] == NA
    ensures Reporta(Columna10(f), Error004) <==> f[10] != Txt("F") && f[10] != Txt("M")
  {
    ReportaAnotar(Error001);
    ReportaAnotar(Error002);
    ReportaAnotar(Error021);
    ReportaAnotar(Error004);
  }

  /** Column 3: Error003 exactly when the document type is not one of the table's. */
  lemma TipoIdentificacion(f: Fila)
    ensures Reporta(Columna3(f), Error003) <==> !(f[3].Txt? && f[3].t in TiposIdentificacion)
  {
    ReportaAnotar(Error003);
    if f[3].Txt? {
      EnListaIff(TiposIdentificacion, f[3].t);
    }
  }

  /** Columns 15, 17, 20, 21 and 23 hold fixed values; anything else is reported. */
  lemma ValoresFijos(f: Fila)
    ensures Reporta(Columna15(f), Error500) <==> !(f[15].Num? && f[15].valor == 0.0)
    ensures Reporta(Columna17(f), Error505) <==> !(f[17].Num? && f[17].valor == 0.0)
    ensures Reporta(Columna20(f), Error509) <==> !(f[20].Num? && f[20].valor == 21.0)
    ensures Reporta(Columna21(f), Error510) <==> !(f[21].Num? && f[21].valor == 21.0)
    ensures Reporta(Columna23(f), Error515) <==> !(f[23].Num? && f[23].valor in {0.0, 1.0, 2.0, 21.0})
  {
    ReportaAnotar(Error500);
    ReportaAnotar(Error505);
    ReportaAnotar(Error509);
    ReportaAnotar(Error510);
    ReportaAnotar(Error515);
  }

  /** Column 4: Error220 for a character outside `[0-9A-Z]` once upper-cased. */
  lemma Documento(f: Fila)
    ensures Reporta(Columna4(f), Error220) <==> f[4] != NA && !Coincide(Upper(Str(f[4])))
  {
    ReportaAnotar(Error220);
    ReportaAnotar(Error676);
  }

  /** Column 4: Error676 for a length outside the range of the row's document type. */
  lemma DocumentoLongitud(f: Fila)
    ensures Reporta(Columna4(f), Error676) <==>
      f[4] != NA && f[3].Txt? && RangoDocumento(f[3].t).Some?
      && !(RangoDocumento(f[3].t).value.0 <= |Str(f[4])| <= RangoDocumento(f[3].t).value.1)
  {
    ReportaAnotar(Error220);
    ReportaAnotar(Error676);
    LongitudRango(f[3], |Str(f[4])|);
  }

  /** The length rule of Error676 is the range table read for the document type. */
  lemma LongitudRango(tipo: Celda, n: nat)
    ensures LongitudInvalida(tipo, n) <==>
      tipo.Txt? && RangoDocumento(tipo.t).Some?
      && !(RangoDocumento(tipo.t).value.0 <= n <= RangoDocumento(tipo.t).value.1)
  {
  }

  /** Column 9: a missing birth date is reported once, as Error020, and nothing else. */
  lemma NacimientoFaltante(f: Fila, corte: Date)
    requires Valid(corte)
    ensures f[9] == NA ==> Columna9(f, corte) == [ErrorEn(f, NA, Error020)]
    ensures Reporta(Columna9(f, corte), Error020) <==> f[9] == NA
  {
    ReportaAnotar(Error020);
    if f[9] == NA {
      assert Columna9(f, corte)[0].codigo == Error020;
    }
  }

  /**
   * Column 9, a present birth date: Error421 for a bad format and Error677
   * for a refused wildcard.
   */
  lemma Nacimiento(f: Fila, corte: Date)
    requires Valid(corte)
    ensures Reporta(Columna9(f, corte), Error421) <==> f[9] != NA && StrptimeYmd(Str(f[9])).None?
    ensures Reporta(Columna9(f, corte), Error677) <==> f[9] != NA && Str(f[9]) in ComodinesNoPermitidos
  {
    ReportaAnotar(Error421);
    ReportaAnotar(Error677);
    EnListaIff(ComodinesNoPermitidos, Str(f[9]));
  }

  /**
   * Column 9: Error120 for a birth date after the cutoff; a badly
   * formatted date is never after the cutoff.
   */
  lemma NacimientoPosterior(f: Fila, corte: Date)
    requires Valid(corte)
    ensures Reporta(Columna9(f, corte), Error120) <==> f[9] != NA && PosteriorAlCorte(f[9], corte)
    ensures Reporta(Columna9(f, corte), Error421) ==> !Reporta(Columna9(f, corte), Error120)
  {
    ReportaAnotar(Error421);
    ReportaAnotar(Error677);
    ReportaAnotar(Error120);
    DiaConFormato(f[9]);
  }

  /** Only a text `strptime` reads as a date is converted to a day. */
  lemma DiaConFormato(c: Celda)
    ensures ADatetime(c).Dia? ==> c.Txt? && StrptimeYmd(c.t).Some?
  {
  }

  /**
   * Column 14, sex and related variables: a pregnancy recorded outside the
   * female sex is Error030; Error244 (related data without a pregnancy)
   * and Error379 (a pregnancy with related data missing) never come together.
   */
  lemma GestacionSexo(f: Fila, corte: Date)
    requires Valid(corte)
    ensures Reporta(Columna14(f, corte), Error030) <==>
      f[14].Num? && f[14].valor in {1.0, 2.0, 21.0} && f[10] != Txt("F")
    ensures Reporta(Columna14(f, corte), Error244) <==> !Es(f[14], 1.0) && RelacionadasRegistradas(f)
    ensures Reporta(Columna14(f, corte), Error379) <==> Es(f[14], 1.0) && RelacionadasFaltantes(f)
    ensures !(Reporta(Columna14(f, corte), Error244) && Reporta(Columna14(f, corte), Error379))
  {
    ReportaAnotar(Error030);
    ReportaAnotar(Error244);
    ReportaAnotar(Error379);
  }

  /**
   * Column 14, age: for a woman of known age, Error222 and Error223 are
   * both absent exactly when she is recorded as not pregnant (0) if and
   * only if she is outside the fertile ages 10 to 60.
   */
  lemma GestacionEdad(f: Fila, corte: Date)
    requires Valid(corte)
    ensures CalcularEdad(f[9], corte).Anos? && f[10] == Txt("F") ==>
      ((!Reporta(Columna14(f, corte), Error222) && !Reporta(Columna14(f, corte), Error223))
       <==> (Es(f[14], 0.0) <==> !(10.0 <= CalcularEdad(f[9], corte).anos < 60.0)))
  {
    ReportaAnotar(Error222);
    ReportaAnotar(Error223);
  }

  /**
   * Column 16: Error503 for a result 4 or 5 without a valid assessment
   * date, Error504 for a result outside {0, 4, 5, 21}, never both; for a valid result and a known age, Error227 is absent
   * exactly when the result is 0 before 60 years and an evaluation from 60.
   */
  lemma MiniMental(f: Fila, corte: Date)
    requires Valid(corte)
    ensures Reporta(Columna16(f, corte), Error503) <==> (Es(f[16], 4.0) || Es(f[16], 5.0)) && SinFechaValida(Opcional(f, 52))
    ensures Reporta(Columna16(f, corte), Error504) <==> !(f[16].Num? && f[16].valor in {0.0, 4.0, 5.0, 21.0})
    ensures Reporta(Columna16(f, corte), Error503) ==> !Reporta(Columna16(f, corte), Error504)
    ensures f[16].Num? && f[16].valor in {0.0, 4.0, 5.0, 21.0} && CalcularEdad(f[9], corte).Anos? ==>
      (!Reporta(Columna16(f, corte), Error227) <==> (f[16].valor == 0.0 <==> CalcularEdad(f[9], corte).anos < 60.0))
  {
    ReportaAnotar(Error503);
    ReportaAnotar(Error504);
    ReportaAnotar(Error227);
  }

  /**
   * Column 18: the respiratory symptomatic value 1, 2 or 21 selects which
   * of Error232, Error506 and Error507 may be reported, so at most one is;
   * any other value reports nothing.
   */
  lemma Sintomatico(f: Fila)
    ensures !(Reporta(Columna18(f), Error232) && Reporta(Columna18(f), Error506))
    ensures !(Reporta(Columna18(f), Error232) && Reporta(Columna18(f), Error507))
    ensures !(Reporta(Columna18(f), Error506) && Reporta(Columna18(f), Error507))
    ensures !(f[18].Num? && f[18].valor in {1.0, 2.0, 21.0}) ==> Columna18(f) == []
  {
    ReportaAnotar(Error232);
    ReportaAnotar(Error506);
    ReportaAnotar(Error507);
  }

  /**
   * Column 22: Error037 (a result for a non-male) and Error038 (a male under
   * 40 with a result) exclude each other, as do Error038 and Error513 (a
   * woman with a result).
   */
  lemma TactoRectal(f: Fila, corte: Date)
    requires Valid(corte)
    ensures !(Reporta(Columna22(f, corte), Error037) && Reporta(Columna22(f, corte), Error038))
    ensures !(Reporta(Columna22(f, corte), Error038) && Reporta(Columna22(f, corte), Error513))
    ensures Reporta(Columna22(f, corte), Error514) <==> !(f[22].Num? && f[22].valor in {0.0, 4.0, 5.0, 21.0})
  {
    ReportaAnotar(Error037);
    ReportaAnotar(Error038);
    ReportaAnotar(Error513);
    ReportaAnotar(Error514);
  }

  /** Column 19: under 12 years, a tobacco value other than 98 is Error508; from 12 on, or without an age, nothing. */
  lemma Tabaco(f: Fila, corte: Date)
    requires Valid(corte)
    ensures Reporta(Columna19(f, corte), Error508) <==>
      CalcularEdad(f[9], corte).Anos? && CalcularEdad(f[9], corte).anos < 12.0 && !(f[19].Num? && f[19].valor == 98.0)
  {
    ReportaAnotar(Error508);
  }

  /** The age bands of the weight and height rules: under 2, 5, 13 and 18 years, and from 18 on. */
  function BandaEdad(e: real): (k: nat)
    ensures k < 5
  {
    if e < 2.0 then 0 else if e < 5.0 then 1 else if e < 13.0 then 2 else if e < 18.0 then 3 else 4
  }

  /** The accepted (lowest, highest) value of a measure in an age band. */
  function Rango(m: Medida, k: nat): (real, real)
    requires k < 5
  {
    if m == Peso then [(1.0, 15.0), (3.0, 25.0), (9.0, 80.0), (30.0, 80.0), (35.0, 250.0)][k]
    else [(40.0, 100.0), (70.0, 110.0), (80.0, 225.0), (130.0, 225.0), (130.0, 225.0)][k]
  }

  /** The code of a measure out of range in an age band. */
  function CodigoBanda(m: Medida, k: nat): Codigo
    requires k < 5
  {
    if m == Peso then [Error680, Error681, Error682, Error683, Error684][k]
    else [Error685, Error686, Error687, Error688, Error689][k]
  }

  /**
   * The `if`/`elif` chains are the band table: a measure is reported, with
   * its band's code, exactly when it is outside its age band's range.
   */
  lemma BandaTabla(m: Medida, v: Float, e: real)
    ensures Banda(m, v, e).Some? <==> Fuera(v, Rango(m, BandaEdad(e)).0, Rango(m, BandaEdad(e)).1)
    ensures Banda(m, v, e).Some? ==> Banda(m, v, e).value == CodigoBanda(m, BandaEdad(e))
  {
  }

  /** The date and 999 codes one measure reports, given its coerced values. */
  lemma MedicionFechas(m: Medida, usuario: Celda, celda: Celda, v: Float, fecha: Option<Date>,
                       nacimiento: Option<Date>, banda: Option<Codigo>, corte: Date)
    requires banda.Some? ==> DeBanda(banda.value)
    ensures Reporta(Medicion(m, usuario, celda, v, fecha, nacimiento, banda, corte), CodigoFutura(m)) <==>
      fecha.Some? && Before(corte, fecha.value)
    ensures Reporta(Medicion(m, usuario, celda, v, fecha, nacimiento, banda, corte), CodigoPrevia(m)) <==>
      fecha.Some? && nacimiento.Some? && Before(fecha.value, nacimiento.value)
    ensures Reporta(Medicion(m, usuario, celda, v, fecha, nacimiento, banda, corte), CodigoSinDato(m)) <==>
      v == Finite(999.0) && Str(celda) != NoEvaluado
  {
    MedicionFutura(m, usuario, celda, v, fecha, nacimiento, banda, corte);
    MedicionPrevia(m, usuario, celda, v, fecha, nacimiento, banda, corte);
    MedicionSinDato(m, usuario, celda, v, fecha, nacimiento, banda, corte);
  }

  lemma MedicionFutura(m: Medida, usuario: Celda, celda: Celda, v: Float, fecha: Option<Date>,
                       nacimiento: Option<Date>, banda: Option<Codigo>, corte: Date)
    requires banda.Some? ==> DeBanda(banda.value)
    ensures Reporta(Medicion(m, usuario, celda, v, fecha, nacimiento, banda, corte), CodigoFutura(m)) <==>
      fecha.Some? && Before(corte, fecha.value)
  {
    ReportaAnotar(CodigoFutura(m));
  }

  lemma MedicionPrevia(m: Medida, usuario: Celda, celda: Celda, v: Float, fecha: Option<Date>,
                       nacimiento: Option<Date>, banda: Option<Codigo>, corte: Date)
    requires banda.Some? ==> DeBanda(banda.value)
    ensures Reporta(Medicion(m, usuario, celda, v, fecha, nacimiento, banda, corte), CodigoPrevia(m)) <==>
      fecha.Some? && nacimiento.Some? && Before(fecha.value, nacimiento.value)
  {
    ReportaAnotar(CodigoPrevia(m));
  }

  lemma MedicionSinDato(m: Medida, usuario: Celda, celda: Celda, v: Float, fecha: Option<Date>,
                        nacimiento: Option<Date>, banda: Option<Codigo>, corte: Date)
    requires banda.Some? ==> DeBanda(banda.value)
    ensures Reporta(Medicion(m, usuario, celda, v, fecha, nacimiento, banda, corte), CodigoSinDato(m)) <==>
      v == Finite(999.0) && Str(celda) != NoEvaluado
  {
    ReportaAnotar(CodigoSinDato(m));
  }

  /** The band code one measure reports is its band error. */
  lemma MedicionBanda(m: Medida, usuario: Celda, celda: Celda, v: Float, fecha: Option<Date>,
                      nacimiento: Option<Date>, banda: Option<Codigo>, corte: Date, c: Codigo)
    requires banda.Some? ==> DeBanda(banda.value)
    requires DeBanda(c)
    ensures Reporta(Medicion(m, usuario, celda, v, fecha, nacimiento, banda, corte), c) <==> banda == Some(c)
  {
    ReportaAnotar(c);
  }

  /** Different age bands have different codes. */
  lemma CodigoBandaInyectiva(m: Medida, j: nat, k: nat)
    requires j < 5 && k < 5
    ensures DeBanda(CodigoBanda(m, k))
    ensures CodigoBanda(m, j) == CodigoBanda(m, k) ==> j == k
  {
  }

  /**
   * Weight (height) against age: a value other than 999, with its date and
   * the birth date, is reported with its band's code exactly when it is
   * outside that band's range; no other band's code is reported.
   */
  lemma MedidaPorEdad(f: Fila, m: Medida, corte: Date, k: nat)
    requires |f| > 32 && k < 5
    ensures Reporta(ErroresMedida(f, m, corte), CodigoBanda(m, k)) <==>
      EnBanda(f, m) && BandaEdad(EdadMedida(f, m)) == k
      && Fuera(Numerico(f[ColumnaValor(m)]), Rango(m, k).0, Rango(m, k).1)
  {
    var celda := f[ColumnaFecha(m)];
    CodigoBandaInyectiva(m, k, k);
    MedicionBanda(m, f[4], celda, Numerico(f[ColumnaValor(m)]), Coercion(celda), Coercion(f[9]), ErrorBanda(f, m), corte, CodigoBanda(m, k));
    if EnBanda(f, m) {
      BandaTabla(m, Numerico(f[ColumnaValor(m)]), EdadMedida(f, m));
      CodigoBandaInyectiva(m, BandaEdad(EdadMedida(f, m)), k);
    }
  }

  /**
   * The dates of a measure: Error121 (Error122) for a date after the
   * cutoff, Error171 (Error172) for a date before birth; and 999, "not
   * recorded", is Error041 (Error043) unless its date is the wildcard
   * 1800-01-01.
   */
  lemma MedidaFechas(f: Fila, m: Medida, corte: Date)
    requires |f| > 32
    ensures Reporta(ErroresMedida(f, m, corte), CodigoFutura(m)) <==>
      Coercion(f[ColumnaFecha(m)]).Some? && Before(corte, Coercion(f[ColumnaFecha(m)]).value)
    ensures Reporta(ErroresMedida(f, m, corte), CodigoPrevia(m)) <==>
      Coercion(f[ColumnaFecha(m)]).Some? && Coercion(f[9]).Some?
      && Before(Coercion(f[ColumnaFecha(m)]).value, Coercion(f[9]).value)
    ensures Reporta(ErroresMedida(f, m, corte), CodigoSinDato(m)) <==>
      Numerico(f[ColumnaValor(m)]) == Finite(999.0) && Str(f[ColumnaFecha(m)]) != NoEvaluado
  {
    var celda := f[ColumnaFecha(m)];
    var v := Numerico(f[ColumnaValor(m)]);
    MedicionFechas(m, f[4], celda, v, Coercion(celda), Coercion(f[9]), ErrorBanda(f, m), corte);
  }

  /**
   * Error237 as written: `None` where `edad < 40` raises `TypeError`
   * because the age is `None`; `or` stops at its first true operand.
   */
  function Dispara237TalCual(res: Celda, sexo: Celda, edad: Edad): (r: Option<bool>)
    ensures r.None? <==> (Es(res, 4.0) || Es(res, 5.0)) && EsTexto(sexo, "M") && edad == Ninguna
    ensures r.Some? ==> (r.value <==> !(Es(res, 4.0) || Es(res, 5.0)) || !EsTexto(sexo, "M") || (edad.Anos? && edad.anos < 40.0))
  {
    if !(Es(res, 4.0) || Es(res, 5.0)) || !EsTexto(sexo, "M") then Some(true)
    else match edad
      case Ninguna => None
      case NoNumero => Some(false)
      case Anos(a) => Some(a < 40.0)
  }

  /**
   * A man with result 4, an exam date and no birth date reaches the
   * condition as written, which raises.
   */
  lemma Dispara237Falla(corte: Date)
    requires Valid(corte)
    ensures var f := seq(65, i => if i == 22 then Num(4.0, "4") else if i == 10 then Txt("M") else if i == 64 then Txt("2020-01-01") else NA);
      FechaRegistrada(Opcional(f, 64)) && Dispara237TalCual(f[22], f[10], CalcularEdad(f[9], corte)) == None
  {
  }

  /**
   * Error237: a recorded exam date is reported unless the result is 4 or 5
   * for a man not known to be under 40; without a date, never.  Error512:
   * a result 21 whose date is not one of the accepted wildcards.
   */
  lemma TactoFecha(f: Fila, corte: Date)
    requires Valid(corte)
    ensures Reporta(Columna22(f, corte), Error237) <==>
      FechaRegistrada(Opcional(f, 64))
      && !((Es(f[22], 4.0) || Es(f[22], 5.0)) && f[10] == Txt("M") && !Menor(CalcularEdad(f[9], corte), 40.0))
    ensures Reporta(Columna22(f, corte), Error512) <==> Es(f[22], 21.0) && StrOpt(Opcional(f, 64)) !in ComodinesValidos
  {
    ReportaAnotar(Error237);
    ReportaAnotar(Error512);
    EnListaIff(ComodinesValidos, StrOpt(Opcional(f, 64)));
  }

  /** pandas reads the wildcard 1800-01-01 as that date. */
  lemma FechaComodin()
    ensures ADatetime(Txt(NoEvaluado)) == Dia(Date(1800, 1, 1))
  {
    var d := Date(1800, 1, 1);
    ComodinTexto();
    YmdRoundTrip(d);
    ComodinNoNaT();
    assert EnRangoTimestamp(d);
  }

  /** 1800-01-01 is the date written `%Y-%m-%d`. */
  lemma ComodinTexto()
    ensures FormatYmd(Date(1800, 1, 1)) == NoEvaluado
  {
  }

  /** The wildcard is none of the texts pandas reads as `NaT`. */
  lemma ComodinNoNaT()
    ensures !EnLista(TextosNaT, NoEvaluado)
  {
    EnListaIff(TextosNaT, NoEvaluado);
  }

  /**
   * The wildcard date 1800-01-01 of a measure gives the warning
   * Warning674 (Warning675) and exempts 999 from Error041 (Error043).
   */
  lemma Comodin1800(f: Fila, m: Medida, corte: Date)
    requires |f| > 32
    requires f[ColumnaFecha(m)] == Txt(NoEvaluado)
    ensures Reporta(AvisosMedida(f, m), CodigoComodin(m))
    ensures !Reporta(ErroresMedida(f, m, corte), CodigoSinDato(m))
  {
    FechaComodin();
    ReportaAnotar(CodigoComodin(m));
    MedidaFechas(f, m, corte);
  }
}
