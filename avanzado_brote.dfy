/**
 * The outbreak rule of the advanced validator
 * (`_detectar_brote_epidemiologico`): consultations whose diagnosis is a
 * public-health event are counted per day and diagnosis, in a dictionary
 * of dictionaries that keeps insertion order, and the first pair counted
 * three or more times is the outbreak.
 */
module AvanzadoBrote {
  import opened Wrappers
  import opened Text
  import opened Json
  import opened Counters
  import opened Cargador

  /** The keys of `CODIGOS_EVENTOS_SALUD_PUBLICA`. */
  const CodigosEventos: seq<string> := [
    "A00", "A01", "A15", "A16", "A17", "A18", "A19", "A33", "A35", "A36", "A37", "A80", "A82", "A90",
    "A91", "A92", "B01", "B05", "B06", "B15", "B16", "B17", "B18", "B20", "B24", "B50", "B51", "B54"]

  /** Membership in a list of codes, one code at a time. */
  predicate EnLista(xs: seq<string>, x: string)
  {
    xs != [] && (xs[0] == x || EnLista(xs[1..], x))
  }

  lemma {:induction false} EnListaIff(xs: seq<string>, x: string)
    ensures EnLista(xs, x) <==> x in xs
  {
    if xs != [] {
      EnListaIff(xs[1..], x);
      assert xs == [xs[0]] + xs[1..];
    }
  }

  /** `code in CODIGOS_EVENTOS_SALUD_PUBLICA`. */
  predicate EsEvento(code: string)
  {
    EnLista(CodigosEventos, code)
  }

  /** One counted consultation: its day (the first ten characters of its start) and its diagnosis. */
  datatype Caso = Caso(fecha: string, diagnostico: string)

  /** `diag[:3] in CODIGOS or diag[:4] in CODIGOS`. */
  predicate EventoSaludPublica(diag: string)
  {
    EsEvento(Slice(diag, 0, 3)) || EsEvento(Slice(diag, 0, 4))
  }

  /** The case a consultation contributes, if any. */
  function CasoDe(c: Record): (r: seq<Caso>)
    ensures |r| <= 1
  {
    var diag := TextOf(c, "codDiagnosticoPrincipal");
    var fecha := Slice(TextOf(c, "fechaInicioAtencion"), 0, 10);
    if diag != "" && fecha != "" && EventoSaludPublica(diag) then [Caso(fecha, diag)] else []
  }

  function CasosDe(cs: seq<Record>): seq<Caso>
  {
    if cs == [] then [] else CasosDe(cs[..|cs| - 1]) + CasoDe(cs[|cs| - 1])
  }

  /** The cases of all users' consultations, in the order the loops meet them. */
  function Casos(us: seq<User>): seq<Caso>
  {
    if us == [] then [] else Casos(us[..|us| - 1]) + CasosDe(Consultas(us[|us| - 1]))
  }

  // ---------------------------------------------------------------------
  // The dictionary of dictionaries
  // ---------------------------------------------------------------------

  /** `diagnosticos_por_fecha[fecha]`: the diagnoses counted on one day. */
  datatype DayBucket = DayBucket(fecha: string, diagnosticos: seq<Entry<string>>)

  /** Each day once, each day's diagnoses once. */
  predicate WellFormed(bs: seq<DayBucket>)
  {
    && (forall i, j :: 0 <= i < j < |bs| ==> bs[i].fecha != bs[j].fecha)
    && (forall i :: 0 <= i < |bs| ==> DistinctKeys(bs[i].diagnosticos))
  }

  /** The position of `fecha`, or `|bs|` when the day is not there yet. */
  function DayIndex(bs: seq<DayBucket>, fecha: string): (i: nat)
    ensures i <= |bs|
    ensures i < |bs| ==> bs[i].fecha == fecha
    ensures forall k :: 0 <= k < i ==> bs[k].fecha != fecha
  {
    if bs == [] then 0
    else if bs[0].fecha == fecha then 0
    else 1 + DayIndex(bs[1..], fecha)
  }

  /** `diagnosticos_por_fecha[fecha][diag]`, 0 for a pair never counted. */
  function Cases(bs: seq<DayBucket>, fecha: string, diag: string): nat
  {
    var i := DayIndex(bs, fecha);
    if i == |bs| then 0 else CountOf(bs[i].diagnosticos, diag)
  }

  /** `diagnosticos_por_fecha[fecha][diag] += 1`: a new day goes last, a new diagnosis last within its day. */
  function Add(bs: seq<DayBucket>, c: Caso): (r: seq<DayBucket>)
    requires WellFormed(bs)
    ensures WellFormed(r)
  {
    var i := DayIndex(bs, c.fecha);
    if i == |bs| then bs + [DayBucket(c.fecha, Bump([], c.diagnostico))]
    else bs[i := bs[i].(diagnosticos := Bump(bs[i].diagnosticos, c.diagnostico))]
  }

  function AddAll(bs: seq<DayBucket>, cs: seq<Caso>): (r: seq<DayBucket>)
    requires WellFormed(bs)
    ensures WellFormed(r)
  {
    if cs == [] then bs else Add(AddAll(bs, cs[..|cs| - 1]), cs[|cs| - 1])
  }

  /** Any index with the three properties of `DayIndex` is `DayIndex`. */
  lemma DayIndexUnique(bs: seq<DayBucket>, fecha: string, i: nat)
    requires i <= |bs| && (i < |bs| ==> bs[i].fecha == fecha)
    requires forall k :: 0 <= k < i ==> bs[k].fecha != fecha
    ensures DayIndex(bs, fecha) == i
  {
  }

  /** Adding a case raises its own pair's count by one and no other. */
  lemma AddCases(bs: seq<DayBucket>, c: Caso, fecha: string, diag: string)
    requires WellFormed(bs)
    ensures Cases(Add(bs, c), fecha, diag) == Cases(bs, fecha, diag) + (if c == Caso(fecha, diag) then 1 else 0)
  {
    var r := Add(bs, c);
    var i := DayIndex(bs, c.fecha);
    var j := DayIndex(bs, fecha);
    if i == |bs| {
      if fecha == c.fecha {
        DayIndexUnique(r, fecha, |bs|);
        assert CountOf([], diag) == 0;
      } else if j < |bs| {
        DayIndexUnique(r, fecha, j);
      } else {
        DayIndexUnique(r, fecha, |r|);
      }
    } else {
      DayIndexUnique(r, fecha, j);
      if j < |bs| && j != i {
        assert r[j] == bs[j];
      }
    }
  }

  lemma {:induction false} AddAllAppend(bs: seq<DayBucket>, xs: seq<Caso>, ys: seq<Caso>)
    requires WellFormed(bs)
    ensures AddAll(bs, xs + ys) == AddAll(AddAll(bs, xs), ys)
  {
    if ys == [] {
      assert xs + ys == xs;
    } else {
      assert (xs + ys)[..|xs + ys| - 1] == xs + ys[..|ys| - 1];
      AddAllAppend(bs, xs, ys[..|ys| - 1]);
    }
  }

  /** Each pair's count is the number of its cases. */
  lemma {:induction false} CasesCount(cs: seq<Caso>, fecha: string, diag: string)
    ensures Cases(AddAll([], cs), fecha, diag) == multiset(cs)[Caso(fecha, diag)]
  {
    if cs != [] {
      CasesCount(cs[..|cs| - 1], fecha, diag);
      AddCases(AddAll([], cs[..|cs| - 1]), cs[|cs| - 1], fecha, diag);
      assert cs == cs[..|cs| - 1] + [cs[|cs| - 1]];
    }
  }

  // ---------------------------------------------------------------------
  // The scan for a peak
  // ---------------------------------------------------------------------

  /** The outbreak alert: its day, its diagnosis and the number of cases. */
  datatype Brote = Brote(fecha: string, diagnostico: string, casos: nat)

  /** The first diagnosis of a day counted three or more times. */
  function FirstPeak(ds: seq<Entry<string>>): (r: Option<Entry<string>>)
    ensures r.Some? ==> r.value in ds && r.value.count >= 3
  {
    if ds == [] then None
    else if ds[0].count >= 3 then Some(ds[0])
    else FirstPeak(ds[1..])
  }

  /** The first day, in insertion order, with a peak, and that day's first peak. */
  function FirstOutbreak(bs: seq<DayBucket>): Option<Brote>
  {
    if bs == [] then None
    else match FirstPeak(bs[0].diagnosticos)
      case Some(e) => Some(Brote(bs[0].fecha, e.key, e.count))
      case None => FirstOutbreak(bs[1..])
  }

  /** `_detectar_brote_epidemiologico` over the users `us`. */
  function DetectarBrote(us: seq<User>): Option<Brote>
  {
    FirstOutbreak(AddAll([], Casos(us)))
  }

  lemma CasesCons(bs: seq<DayBucket>, fecha: string, diag: string)
    requires bs != []
    ensures Cases(bs, fecha, diag) == if bs[0].fecha == fecha then CountOf(bs[0].diagnosticos, diag) else Cases(bs[1..], fecha, diag)
  {
  }

  lemma {:induction false} NoPeakBelow(ds: seq<Entry<string>>, diag: string)
    requires FirstPeak(ds).None?
    ensures CountOf(ds, diag) < 3
  {
    if ds != [] {
      NoPeakBelow(ds[1..], diag);
    }
  }

  lemma {:induction false} FirstPeakCount(ds: seq<Entry<string>>)
    requires DistinctKeys(ds) && FirstPeak(ds).Some?
    ensures CountOf(ds, FirstPeak(ds).value.key) == FirstPeak(ds).value.count
  {
    var e := FirstPeak(ds).value;
    var i :| 0 <= i < |ds| && ds[i] == e;
    CountAt(ds, i);
  }

  /**
   * The scan finds an outbreak exactly when some pair is counted three or
   * more times, and the outbreak it reports carries its pair's count.
   */
  lemma {:induction false} FirstOutbreakIff(bs: seq<DayBucket>)
    requires WellFormed(bs)
    ensures FirstOutbreak(bs).Some? ==>
      FirstOutbreak(bs).value.casos >= 3
      && Cases(bs, FirstOutbreak(bs).value.fecha, FirstOutbreak(bs).value.diagnostico) == FirstOutbreak(bs).value.casos
    ensures FirstOutbreak(bs).None? ==> forall fecha, diag :: Cases(bs, fecha, diag) < 3
  {
    if bs != [] {
      assert WellFormed(bs[1..]) by {
        forall i, j | 0 <= i < j < |bs[1..]| ensures bs[1..][i].fecha != bs[1..][j].fecha {
          assert bs[1..][i] == bs[i + 1] && bs[1..][j] == bs[j + 1];
        }
        forall i | 0 <= i < |bs[1..]| ensures DistinctKeys(bs[1..][i].diagnosticos) {
          assert bs[1..][i] == bs[i + 1];
        }
      }
      FirstOutbreakIff(bs[1..]);
      match FirstPeak(bs[0].diagnosticos)
      case Some(e) =>
        FirstPeakCount(bs[0].diagnosticos);
        CasesCons(bs, bs[0].fecha, e.key);
      case None =>
        if FirstOutbreak(bs[1..]).None? {
          forall fecha, diag ensures Cases(bs, fecha, diag) < 3 {
            CasesCons(bs, fecha, diag);
            NoPeakBelow(bs[0].diagnosticos, diag);
          }
        } else {
          var o := FirstOutbreak(bs[1..]).value;
          CasesCons(bs, o.fecha, o.diagnostico);
          var k := DayIndex(bs[1..], o.fecha);
          assert k < |bs[1..]|;
          assert bs[1..][k] == bs[k + 1];
        }
    }
  }

  /**
   * The outbreak rule: an alert is raised exactly when three or more
   * public-health consultations share a day and a diagnosis, and the alert
   * counts that day's consultations with that diagnosis.
   */
  lemma BroteIff(us: seq<User>)
    ensures DetectarBrote(us).Some? ==>
      var b := DetectarBrote(us).value;
      b.casos >= 3 && b.casos == multiset(Casos(us))[Caso(b.fecha, b.diagnostico)]
    ensures DetectarBrote(us).None? <==> forall fecha, diag :: multiset(Casos(us))[Caso(fecha, diag)] < 3
  {
    var bs := AddAll([], Casos(us));
    FirstOutbreakIff(bs);
    forall fecha, diag ensures Cases(bs, fecha, diag) == multiset(Casos(us))[Caso(fecha, diag)] {
      CasesCount(Casos(us), fecha, diag);
    }
  }

  /** Every counted case is a public-health diagnosis on a non-empty day of at most ten characters. */
  lemma {:induction false} CasosAreEvents(us: seq<User>)
    ensures forall c :: c in Casos(us) ==> c.diagnostico != "" && c.fecha != "" && |c.fecha| <= 10 && EventoSaludPublica(c.diagnostico)
  {
    if us != [] {
      CasosAreEvents(us[..|us| - 1]);
      CasosDeAreEvents(Consultas(us[|us| - 1]));
    }
  }

  lemma {:induction false} CasosDeAreEvents(cs: seq<Record>)
    ensures forall c :: c in CasosDe(cs) ==> c.diagnostico != "" && c.fecha != "" && |c.fecha| <= 10 && EventoSaludPublica(c.diagnostico)
  {
    if cs != [] {
      CasosDeAreEvents(cs[..|cs| - 1]);
    }
  }

  // ---------------------------------------------------------------------
  // The method
  // ---------------------------------------------------------------------

  /** What one consultation adds to the counts. */
  lemma AddAllStep(bs: seq<DayBucket>, xs: seq<Caso>, c: Record)
    requires WellFormed(bs)
    ensures AddAll(bs, xs + CasoDe(c)) == if CasoDe(c) == [] then AddAll(bs, xs) else Add(AddAll(bs, xs), CasoDe(c)[0])
  {
    if CasoDe(c) == [] {
      assert xs + CasoDe(c) == xs;
    } else {
      assert (xs + CasoDe(c))[..|xs|] == xs;
    }
  }

  /** The inner loop of `_detectar_brote_epidemiologico`: one user's consultations. */
  method AgruparConsultas(bs0: seq<DayBucket>, cs: seq<Record>) returns (bs: seq<DayBucket>)
    requires WellFormed(bs0)
    ensures WellFormed(bs) && bs == AddAll(bs0, CasosDe(cs))
  {
    bs := bs0;
    for j := 0 to |cs|
      invariant WellFormed(bs) && bs == AddAll(bs0, CasosDe(cs[..j]))
    {
      assert cs[..j + 1][..j] == cs[..j];
      AddAllStep(bs0, CasosDe(cs[..j]), cs[j]);
      var diag := TextOf(cs[j], "codDiagnosticoPrincipal");
      var fecha := Slice(TextOf(cs[j], "fechaInicioAtencion"), 0, 10);
      if diag != "" && fecha != "" && EventoSaludPublica(diag) {
        bs := Add(bs, Caso(fecha, diag));
      }
    }
    assert cs[..|cs|] == cs;
  }

  /** The counting loops of `_detectar_brote_epidemiologico`. */
  method AgruparCasos(usuarios: seq<User>) returns (bs: seq<DayBucket>)
    ensures WellFormed(bs) && bs == AddAll([], Casos(usuarios))
  {
    bs := [];
    for i := 0 to |usuarios|
      invariant WellFormed(bs) && bs == AddAll([], Casos(usuarios[..i]))
    {
      assert usuarios[..i + 1][..i] == usuarios[..i];
      AddAllAppend([], Casos(usuarios[..i]), CasosDe(Consultas(usuarios[i])));
      bs := AgruparConsultas(bs, Consultas(usuarios[i]));
    }
    assert usuarios[..|usuarios|] == usuarios;
  }

  /** The scan of `_detectar_brote_epidemiologico`: the first pair with three or more cases. */
  method PrimerBrote(bs: seq<DayBucket>) returns (r: Option<Brote>)
    ensures r == FirstOutbreak(bs)
  {
    for i := 0 to |bs|
      invariant FirstOutbreak(bs) == FirstOutbreak(bs[i..])
    {
      var ds := bs[i].diagnosticos;
      for j := 0 to |ds|
        invariant FirstPeak(ds) == FirstPeak(ds[j..])
      {
        if ds[j].count >= 3 {
          return Some(Brote(bs[i].fecha, ds[j].key, ds[j].count));
        }
        assert ds[j..][1..] == ds[j + 1..];
      }
      assert ds[|ds|..] == [];
      assert bs[i..][1..] == bs[i + 1..];
    }
    assert bs[|bs|..] == [];
    return None;
  }

  /** `_detectar_brote_epidemiologico`. */
  method DetectarBroteEpidemiologico(usuarios: seq<User>) returns (r: Option<Brote>)
    ensures r == DetectarBrote(usuarios)
  {
    var bs := AgruparCasos(usuarios);
    r := PrimerBrote(bs);
  }
}
