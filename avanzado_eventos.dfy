/**
 * The public-health events of the advanced validator
 * (`_identificar_eventos_salud_publica`): every consultation whose
 * diagnosis starts with an event code is listed with its user's document
 * and age, counted per diagnosis, and listed again when the event must be
 * notified at once.
 */
module AvanzadoEventos {
  import opened Wrappers
  import opened Text
  import opened Dates
  import opened Json
  import opened Counters
  import opened Cargador
  import opened AvanzadoBrote

  /** The events that require immediate notification. */
  const NotificacionInmediata: seq<string> := ["A00", "A15", "A33", "A35", "A80", "A82", "A90", "A91", "B05", "B50", "B51"]

  /** Every event that must be notified is a public-health event. */
  lemma NotificablesSonEventos(code: string)
    requires EnLista(NotificacionInmediata, code)
    ensures EsEvento(code)
  {
    EnListaIff(NotificacionInmediata, code);
    EnListaIff(CodigosEventos, code);
  }

  /** One entry of `eventos_detalle`; the event's name is not part of this model. */
  datatype Evento = Evento(documento: Scalar, edad: Option<int>, diagnostico: string, fecha: string)

  /** The event a consultation of a user with document `doc` and age `edad` contributes, if any. */
  function EventoDe(doc: Scalar, edad: Option<int>, c: Record): seq<Evento>
  {
    var diag := TextOf(c, "codDiagnosticoPrincipal");
    if EsEvento(Slice(diag, 0, 3))
    then [Evento(doc, edad, diag, Slice(TextOf(c, "fechaInicioAtencion"), 0, 10))]
    else []
  }

  function EventosDe(doc: Scalar, edad: Option<int>, cs: seq<Record>): seq<Evento>
  {
    if cs == [] then [] else EventosDe(doc, edad, cs[..|cs| - 1]) + EventoDe(doc, edad, cs[|cs| - 1])
  }

  /** The user's document and its age up to today, as the loop reads them. */
  function EventosUsuario(u: User, today: Date): seq<Evento>
  {
    EventosDe(Get(u.fields, "numDocumentoIdentificacion"), CalcularEdad(Get(u.fields, "fechaNacimiento"), Null, today), Consultas(u))
  }

  /** `eventos_detalle` after the loop over `us`. */
  function Detalle(us: seq<User>, today: Date): seq<Evento>
  {
    if us == [] then [] else Detalle(us[..|us| - 1], today) + EventosUsuario(us[|us| - 1], today)
  }

  /** The diagnoses of a list of events, in order. */
  function Diagnosticos(es: seq<Evento>): (r: seq<string>)
    ensures |r| == |es|
  {
    if es == [] then [] else Diagnosticos(es[..|es| - 1]) + [es[|es| - 1].diagnostico]
  }

  predicate Notificable(e: Evento)
  {
    EnLista(NotificacionInmediata, Slice(e.diagnostico, 0, 3))
  }

  /** `requiere_notificacion`: the events to notify at once, in order. */
  function Notificables(es: seq<Evento>): seq<Evento>
  {
    if es == [] then []
    else Notificables(es[..|es| - 1]) + (if Notificable(es[|es| - 1]) then [es[|es| - 1]] else [])
  }

  /** The dictionary `_identificar_eventos_salud_publica` returns. */
  datatype Eventos = Eventos(total: nat, porTipo: seq<Entry<string>>, detalle: seq<Evento>, notificacion: seq<Evento>)

  function EventosOf(us: seq<User>, today: Date): Eventos
  {
    var d := Detalle(us, today);
    Eventos(|d|, BumpAll([], Diagnosticos(d)), d, Notificables(d))
  }

  // ---------------------------------------------------------------------
  // Properties
  // ---------------------------------------------------------------------

  /** Every listed event has a diagnosis whose first three characters are an event code. */
  lemma {:induction false} DetalleSonEventos(us: seq<User>, today: Date)
    ensures forall e :: e in Detalle(us, today) ==> EsEvento(Slice(e.diagnostico, 0, 3)) && |e.fecha| <= 10
  {
    if us != [] {
      DetalleSonEventos(us[..|us| - 1], today);
      var u := us[|us| - 1];
      EventosDeSonEventos(Get(u.fields, "numDocumentoIdentificacion"), CalcularEdad(Get(u.fields, "fechaNacimiento"), Null, today), Consultas(u));
    }
  }

  lemma {:induction false} EventosDeSonEventos(doc: Scalar, edad: Option<int>, cs: seq<Record>)
    ensures forall e :: e in EventosDe(doc, edad, cs) ==> EsEvento(Slice(e.diagnostico, 0, 3)) && |e.fecha| <= 10
  {
    if cs != [] {
      EventosDeSonEventos(doc, edad, cs[..|cs| - 1]);
    }
  }

  /** Each consultation with an event code is listed once, with its user's document and age. */
  lemma {:induction false} EventosDeExact(doc: Scalar, edad: Option<int>, cs: seq<Record>, k: nat)
    requires k < |cs| && EsEvento(Slice(TextOf(cs[k], "codDiagnosticoPrincipal"), 0, 3))
    ensures Evento(doc, edad, TextOf(cs[k], "codDiagnosticoPrincipal"), Slice(TextOf(cs[k], "fechaInicioAtencion"), 0, 10)) in EventosDe(doc, edad, cs)
  {
    if k < |cs| - 1 {
      assert cs[..|cs| - 1][k] == cs[k];
      EventosDeExact(doc, edad, cs[..|cs| - 1], k);
    }
  }

  /**
   * The notification list holds exactly the listed events whose code
   * requires immediate notification, and only listed events.
   */
  lemma {:induction false} NotificablesExact(es: seq<Evento>)
    ensures forall e :: e in Notificables(es) <==> e in es && Notificable(e)
    ensures |Notificables(es)| <= |es|
  {
    if es != [] {
      NotificablesExact(es[..|es| - 1]);
      assert es == es[..|es| - 1] + [es[|es| - 1]];
    }
  }

  /**
   * `total_eventos` counts every listed event, the per-diagnosis counts
   * add up to it, and each diagnosis is counted as often as it is listed.
   */
  lemma EventosCounts(us: seq<User>, today: Date, diag: string)
    ensures var r := EventosOf(us, today);
      && r.total == |r.detalle|
      && Total(r.porTipo) == r.total
      && CountOf(r.porTipo, diag) == multiset(Diagnosticos(r.detalle))[diag]
  {
    var d := Detalle(us, today);
    BumpAllTotal([], Diagnosticos(d));
    BumpAllCounts([], Diagnosticos(d), diag);
  }

  // ---------------------------------------------------------------------
  // The methods
  // ---------------------------------------------------------------------

  lemma DiagnosticosAppend(es: seq<Evento>, xs: seq<Evento>)
    requires |xs| <= 1
    ensures Diagnosticos(es + xs) == Diagnosticos(es) + (if xs == [] then [] else [xs[0].diagnostico])
    ensures Notificables(es + xs) == Notificables(es) + (if xs != [] && Notificable(xs[0]) then xs else [])
  {
    if xs == [] {
      assert es + xs == es;
    } else {
      assert (es + xs)[..|es|] == es;
    }
  }

  /** The counters agree with the detail list. */
  predicate Consistent(r: Eventos)
  {
    r.total == |r.detalle| && r.porTipo == BumpAll([], Diagnosticos(r.detalle)) && r.notificacion == Notificables(r.detalle)
  }

  /** One pass of the consultation loop. */
  method RegistrarConsulta(doc: Scalar, edad: Option<int>, c: Record, r0: Eventos) returns (r: Eventos)
    requires Consistent(r0)
    ensures Consistent(r) && r.detalle == r0.detalle + EventoDe(doc, edad, c)
  {
    DiagnosticosAppend(r0.detalle, EventoDe(doc, edad, c));
    var diag := TextOf(c, "codDiagnosticoPrincipal");
    var fecha := Slice(TextOf(c, "fechaInicioAtencion"), 0, 10);
    r := r0;
    if EsEvento(Slice(diag, 0, 3)) {
      BumpAllSnoc([], Diagnosticos(r0.detalle), diag);
      var evento := Evento(doc, edad, diag, fecha);
      var notificacion := r0.notificacion;
      if EnLista(NotificacionInmediata, Slice(diag, 0, 3)) {
        notificacion := notificacion + [evento];
      }
      r := Eventos(r0.total + 1, Bump(r0.porTipo, diag), r0.detalle + [evento], notificacion);
    }
  }

  lemma EventosDeSnoc(d0: seq<Evento>, doc: Scalar, edad: Option<int>, cs: seq<Record>, j: nat)
    requires j < |cs|
    ensures d0 + EventosDe(doc, edad, cs[..j + 1]) == (d0 + EventosDe(doc, edad, cs[..j])) + EventoDe(doc, edad, cs[j])
  {
    assert cs[..j + 1][..j] == cs[..j];
  }

  /** The consultation loop of one user. */
  method EventosConsultas(doc: Scalar, edad: Option<int>, cs: seq<Record>, r0: Eventos) returns (r: Eventos)
    requires Consistent(r0)
    ensures Consistent(r) && r.detalle == r0.detalle + EventosDe(doc, edad, cs)
  {
    r := r0;
    for j := 0 to |cs|
      invariant Consistent(r) && r.detalle == r0.detalle + EventosDe(doc, edad, cs[..j])
    {
      EventosDeSnoc(r0.detalle, doc, edad, cs, j);
      r := RegistrarConsulta(doc, edad, cs[j], r);
    }
    assert cs[..|cs|] == cs;
  }

  /** `_identificar_eventos_salud_publica`. */
  method IdentificarEventosSaludPublica(usuarios: seq<User>, today: Date) returns (r: Eventos)
    ensures r == EventosOf(usuarios, today)
  {
    r := Eventos(0, [], [], []);
    for i := 0 to |usuarios|
      invariant Consistent(r) && r.detalle == Detalle(usuarios[..i], today)
    {
      assert usuarios[..i + 1][..i] == usuarios[..i];
      var u := usuarios[i];
      var doc := Get(u.fields, "numDocumentoIdentificacion");
      var edad := CalcularEdad(Get(u.fields, "fechaNacimiento"), Null, today);
      r := EventosConsultas(doc, edad, Consultas(u), r);
    }
    assert usuarios[..|usuarios|] == usuarios;
  }
}
