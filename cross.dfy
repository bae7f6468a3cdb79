/**
 * The cross-file reference checker of the RIPS engine
 * (ErroresJSON/src/cross_validator.py): the invoices of the AF file and the
 * patients of the US file are collected into sets and occurrence counters;
 * the service files (AC, AP, AT, AH, AM) are then checked against those
 * sets, and the counters report invoices and patients registered twice.
 */
module Cross {
  import opened Rules
  import opened Counters

  /** The AF fields the checker reads (`num_factura`, `cod_prestador`); a missing key reads as "". */
  datatype AFEntry = AFEntry(numFactura: string, codPrestador: string)

  /** The US fields the checker reads (`tipo_documento`, `num_documento`). */
  datatype USEntry = USEntry(tipoDocumento: string, numDocumento: string)

  /** The fields of a service record the checker reads. */
  datatype Reference = Reference(numFactura: string, tipoDocumento: string, numDocumento: string)

  /** A patient: the pair `(tipo_doc, num_doc)`. */
  datatype UserKey = UserKey(tipoDoc: string, numDoc: string)

  /** The `stats` dictionary. */
  datatype CrossStatistics = CrossStatistics(
    totalFacturasAf: nat,
    totalUsuariosUs: nat,
    facturasNoEncontradas: nat,
    usuariosNoEncontrados: nat,
    duplicados: nat
  )

  const NoStatistics := CrossStatistics(0, 0, 0, 0, 0)

  // ---------------------------------------------------------------------
  // Registration
  // ---------------------------------------------------------------------

  /** The invoice numbers `register_af_data` counts: the non-empty ones, in file order. */
  function Invoices(rs: seq<AFEntry>): (r: seq<string>)
    ensures |r| <= |rs|
  {
    if rs == [] then []
    else Invoices(rs[..|rs| - 1]) + (if rs[|rs| - 1].numFactura != [] then [rs[|rs| - 1].numFactura] else [])
  }

  /** The provider codes `register_af_data` collects: the non-empty ones, in file order. */
  function Providers(rs: seq<AFEntry>): (r: seq<string>)
    ensures |r| <= |rs|
  {
    if rs == [] then []
    else Providers(rs[..|rs| - 1]) + (if rs[|rs| - 1].codPrestador != [] then [rs[|rs| - 1].codPrestador] else [])
  }

  /** The patients `register_us_data` counts: those with both document parts, in file order. */
  function Users(rs: seq<USEntry>): (r: seq<UserKey>)
    ensures |r| <= |rs|
  {
    if rs == [] then []
    else Users(rs[..|rs| - 1]) + (if Complete(rs[|rs| - 1]) then [UserOf(rs[|rs| - 1])] else [])
  }

  function UserOf(r: USEntry): UserKey
  {
    UserKey(r.tipoDocumento, r.numDocumento)
  }

  /** Both parts of the patient's document are given. */
  predicate Complete(r: USEntry)
  {
    r.tipoDocumento != [] && r.numDocumento != []
  }

  /** Exactly the non-empty invoice numbers of the entries are counted; empty ones are ignored. */
  lemma {:induction false} InvoicesMembers(rs: seq<AFEntry>, x: string)
    ensures x in Invoices(rs) <==> x != [] && exists i :: 0 <= i < |rs| && rs[i].numFactura == x
  {
    if rs != [] {
      InvoicesMembers(rs[..|rs| - 1], x);
      assert forall i :: 0 <= i < |rs| - 1 ==> rs[..|rs| - 1][i] == rs[i];
    }
  }

  /** Exactly the non-empty provider codes of the entries are collected. */
  lemma {:induction false} ProvidersMembers(rs: seq<AFEntry>, x: string)
    ensures x in Providers(rs) <==> x != [] && exists i :: 0 <= i < |rs| && rs[i].codPrestador == x
  {
    if rs != [] {
      ProvidersMembers(rs[..|rs| - 1], x);
      assert forall i :: 0 <= i < |rs| - 1 ==> rs[..|rs| - 1][i] == rs[i];
    }
  }

  /** Exactly the patients given with both document parts are counted. */
  lemma {:induction false} UsersMembers(rs: seq<USEntry>, u: UserKey)
    ensures u in Users(rs) <==> u.tipoDoc != [] && u.numDoc != [] && exists i :: 0 <= i < |rs| && UserOf(rs[i]) == u
  {
    if rs != [] {
      UsersMembers(rs[..|rs| - 1], u);
      assert forall i :: 0 <= i < |rs| - 1 ==> rs[..|rs| - 1][i] == rs[i];
    }
  }

  lemma InvoicesStep(rs: seq<AFEntry>, i: nat)
    requires i < |rs|
    ensures Invoices(rs[..i + 1]) == Invoices(rs[..i]) + (if rs[i].numFactura != [] then [rs[i].numFactura] else [])
  {
    assert rs[..i + 1][..i] == rs[..i];
  }

  lemma ProvidersStep(rs: seq<AFEntry>, i: nat)
    requires i < |rs|
    ensures Providers(rs[..i + 1]) == Providers(rs[..i]) + (if rs[i].codPrestador != [] then [rs[i].codPrestador] else [])
  {
    assert rs[..i + 1][..i] == rs[..i];
  }

  lemma UsersStep(rs: seq<USEntry>, i: nat)
    requires i < |rs|
    ensures Users(rs[..i + 1]) == Users(rs[..i]) + (if Complete(rs[i]) then [UserOf(rs[i])] else [])
  {
    assert rs[..i + 1][..i] == rs[..i];
  }

  // ---------------------------------------------------------------------
  // Reference checks
  // ---------------------------------------------------------------------

  const CrossRegulation := "Res. 2275/2023 - Validación cruzada"
  const InvoiceField := "num_factura"
  const UserField := "tipo_documento/num_documento"
  /** The invoice fix of the AP, AT, AH and AM checks. */
  const InvoiceFix := "Verificar que la factura esté registrada en el archivo AF"
  /** The invoice fix of the AC check, which also suggests correcting the number. */
  const AcInvoiceFix := "Verificar que la factura esté registrada en el archivo AF o corregir el número"
  const UserFix := "Verificar que el usuario esté registrado en el archivo US"

  /** The record quotes an invoice that AF does not hold. */
  predicate InvoiceMissing(facturas: set<string>, r: Reference)
  {
    r.numFactura != [] && r.numFactura !in facturas
  }

  /** The record names a complete patient that US does not hold. */
  predicate UserMissing(usuarios: set<UserKey>, r: Reference)
  {
    r.tipoDocumento != [] && r.numDocumento != [] && UserKey(r.tipoDocumento, r.numDocumento) !in usuarios
  }

  /** The errors of one record at line `line`: the invoice check, then the patient check, each on its own. */
  function RecordErrors(facturas: set<string>, usuarios: set<UserKey>, r: Reference,
                        fileName: string, line: int, invoiceFix: string): (es: seq<ValidationError>)
    ensures |es| == (if InvoiceMissing(facturas, r) then 1 else 0) + (if UserMissing(usuarios, r) then 1 else 0)
  {
    (if InvoiceMissing(facturas, r) then
       [ValidationError(fileName, line, InvoiceField, InvoiceNotFound(r.numFactura), CrossRegulation, invoiceFix)]
     else []) +
    (if UserMissing(usuarios, r) then
       [ValidationError(fileName, line, UserField, UserNotFound(r.tipoDocumento, r.numDocumento), CrossRegulation, UserFix)]
     else [])
  }

  /** A record's errors sit at its line; there is a 'num_factura' error iff the invoice is missing and a patient error iff the patient is, each quoting what it did not find. */
  lemma RecordErrorsMeaning(facturas: set<string>, usuarios: set<UserKey>, r: Reference,
                            fileName: string, line: int, invoiceFix: string)
    ensures var es := RecordErrors(facturas, usuarios, r, fileName, line, invoiceFix);
            Located(es, fileName, line) &&
            (Reports(es, InvoiceField) <==> InvoiceMissing(facturas, r)) &&
            (Reports(es, UserField) <==> UserMissing(usuarios, r)) &&
            (forall e :: e in es ==> e.regulation == CrossRegulation) &&
            (forall e :: e in es && e.fieldName == InvoiceField ==>
               e.description == InvoiceNotFound(r.numFactura) && e.suggestedFix == invoiceFix) &&
            (forall e :: e in es && e.fieldName == UserField ==>
               e.description == UserNotFound(r.tipoDocumento, r.numDocumento) && e.suggestedFix == UserFix)
  {
    var es := RecordErrors(facturas, usuarios, r, fileName, line, invoiceFix);
    if InvoiceMissing(facturas, r) {
      assert es[0].fieldName == InvoiceField;
    }
    if UserMissing(usuarios, r) {
      assert es[|es| - 1].fieldName == UserField;
    }
  }

  /** A record's errors all sit at its line. */
  lemma RecordErrorsLocated(facturas: set<string>, usuarios: set<UserKey>, r: Reference,
                            fileName: string, line: int, invoiceFix: string)
    ensures Located(RecordErrors(facturas, usuarios, r, fileName, line, invoiceFix), fileName, line)
  {
  }

  /** The errors of `rs`, the first record numbered `lineOffset` (`enumerate(records, start=line_offset)`). */
  function ReferenceErrors(facturas: set<string>, usuarios: set<UserKey>, rs: seq<Reference>,
                           fileName: string, lineOffset: int, invoiceFix: string): seq<ValidationError>
  {
    if rs == [] then []
    else
      ReferenceErrors(facturas, usuarios, rs[..|rs| - 1], fileName, lineOffset, invoiceFix) +
      RecordErrors(facturas, usuarios, rs[|rs| - 1], fileName, lineOffset + |rs| - 1, invoiceFix)
  }

  /** Every error is in `fileName`, at the line of one of the records. */
  lemma {:induction false} ReferenceErrorLines(facturas: set<string>, usuarios: set<UserKey>, rs: seq<Reference>,
                                               fileName: string, lineOffset: int, invoiceFix: string)
    ensures forall e :: e in ReferenceErrors(facturas, usuarios, rs, fileName, lineOffset, invoiceFix) ==>
              e.fileName == fileName && lineOffset <= e.lineNumber < lineOffset + |rs|
  {
    if rs != [] {
      ReferenceErrorLines(facturas, usuarios, rs[..|rs| - 1], fileName, lineOffset, invoiceFix);
      RecordErrorsLocated(facturas, usuarios, rs[|rs| - 1], fileName, lineOffset + |rs| - 1, invoiceFix);
    }
  }

  /** How many records quote a missing invoice. */
  function MissingInvoices(facturas: set<string>, rs: seq<Reference>): (n: nat)
    ensures n <= |rs|
  {
    if rs == [] then 0
    else MissingInvoices(facturas, rs[..|rs| - 1]) + (if InvoiceMissing(facturas, rs[|rs| - 1]) then 1 else 0)
  }

  /** How many records name a missing patient. */
  function MissingUsers(usuarios: set<UserKey>, rs: seq<Reference>): (n: nat)
    ensures n <= |rs|
  {
    if rs == [] then 0
    else MissingUsers(usuarios, rs[..|rs| - 1]) + (if UserMissing(usuarios, rs[|rs| - 1]) then 1 else 0)
  }

  /** The checks of consecutive blocks of records concatenate, the second block numbered on from the first. */
  lemma {:induction false} ReferenceErrorsAppend(facturas: set<string>, usuarios: set<UserKey>,
                                                 a: seq<Reference>, b: seq<Reference>,
                                                 fileName: string, lineOffset: int, invoiceFix: string)
    ensures ReferenceErrors(facturas, usuarios, a + b, fileName, lineOffset, invoiceFix) ==
            ReferenceErrors(facturas, usuarios, a, fileName, lineOffset, invoiceFix) +
            ReferenceErrors(facturas, usuarios, b, fileName, lineOffset + |a|, invoiceFix)
  {
    if b != [] {
      assert (a + b)[..|a + b| - 1] == a + b[..|b| - 1];
      ReferenceErrorsAppend(facturas, usuarios, a, b[..|b| - 1], fileName, lineOffset, invoiceFix);
    } else {
      assert a + b == a;
    }
  }

  /** The errors at the line of the `k`-th record are exactly that record's errors. */
  lemma {:induction false} ReferenceErrorsAtLine(facturas: set<string>, usuarios: set<UserKey>, rs: seq<Reference>,
                                                 fileName: string, lineOffset: int, invoiceFix: string, k: nat)
    requires k < |rs|
    ensures var es := ReferenceErrors(facturas, usuarios, rs, fileName, lineOffset, invoiceFix);
            forall e :: e in es && e.lineNumber == lineOffset + k <==>
                        e in RecordErrors(facturas, usuarios, rs[k], fileName, lineOffset + k, invoiceFix)
  {
    var prefix := rs[..|rs| - 1];
    var last := RecordErrors(facturas, usuarios, rs[|rs| - 1], fileName, lineOffset + |rs| - 1, invoiceFix);
    RecordErrorsLocated(facturas, usuarios, rs[|rs| - 1], fileName, lineOffset + |rs| - 1, invoiceFix);
    if k == |rs| - 1 {
      ReferenceErrorLines(facturas, usuarios, prefix, fileName, lineOffset, invoiceFix);
    } else {
      assert prefix[k] == rs[k];
      ReferenceErrorsAtLine(facturas, usuarios, prefix, fileName, lineOffset, invoiceFix, k);
    }
  }

  /** The `k`-th record gets a 'num_factura' error iff its invoice is missing, and a patient error iff its patient is. */
  lemma RecordReported(facturas: set<string>, usuarios: set<UserKey>, rs: seq<Reference>,
                       fileName: string, lineOffset: int, invoiceFix: string, k: nat)
    requires k < |rs|
    ensures var es := ReferenceErrors(facturas, usuarios, rs, fileName, lineOffset, invoiceFix);
            ((exists e :: e in es && e.lineNumber == lineOffset + k && e.fieldName == InvoiceField)
               <==> InvoiceMissing(facturas, rs[k])) &&
            ((exists e :: e in es && e.lineNumber == lineOffset + k && e.fieldName == UserField)
               <==> UserMissing(usuarios, rs[k]))
  {
    ReferenceErrorsAtLine(facturas, usuarios, rs, fileName, lineOffset, invoiceFix, k);
    RecordErrorsMeaning(facturas, usuarios, rs[k], fileName, lineOffset + k, invoiceFix);
  }

  /** One error per missing invoice plus one per missing patient. */
  lemma {:induction false} ReferenceErrorCount(facturas: set<string>, usuarios: set<UserKey>, rs: seq<Reference>,
                                               fileName: string, lineOffset: int, invoiceFix: string)
    ensures |ReferenceErrors(facturas, usuarios, rs, fileName, lineOffset, invoiceFix)| ==
            MissingInvoices(facturas, rs) + MissingUsers(usuarios, rs)
  {
    if rs != [] {
      ReferenceErrorCount(facturas, usuarios, rs[..|rs| - 1], fileName, lineOffset, invoiceFix);
    }
  }

  /** The five reference checks differ only in the fix text of their invoice errors. */
  lemma {:induction false} OnlyFixDiffers(facturas: set<string>, usuarios: set<UserKey>, rs: seq<Reference>,
                                          fileName: string, lineOffset: int, fix1: string, fix2: string)
    ensures var es1 := ReferenceErrors(facturas, usuarios, rs, fileName, lineOffset, fix1);
            var es2 := ReferenceErrors(facturas, usuarios, rs, fileName, lineOffset, fix2);
            |es1| == |es2| &&
            forall i :: 0 <= i < |es1| ==>
              es2[i] == es1[i].(suggestedFix := es2[i].suggestedFix) &&
              (es1[i].suggestedFix != es2[i].suggestedFix ==> es1[i].fieldName == InvoiceField)
  {
    if rs != [] {
      OnlyFixDiffers(facturas, usuarios, rs[..|rs| - 1], fileName, lineOffset, fix1, fix2);
    }
  }

  // ---------------------------------------------------------------------
  // Duplicate reporting
  // ---------------------------------------------------------------------

  const IntegrityRegulation := "Res. 2275/2023 - Validación de integridad"
  const InvoiceDuplicateFix := "Verificar y eliminar facturas duplicadas"
  const UserDuplicateFix := "Verificar y eliminar usuarios duplicados"

  function InvoiceDuplicate(e: Entry<string>): ValidationError
  {
    ValidationError("AF (archivo)", 0, InvoiceField, DuplicateInvoice(e.key, e.count), IntegrityRegulation, InvoiceDuplicateFix)
  }

  function UserDuplicate(e: Entry<UserKey>): ValidationError
  {
    ValidationError("US (archivo)", 0, UserField, DuplicateUser(e.key.tipoDoc, e.key.numDoc, e.count),
                    IntegrityRegulation, UserDuplicateFix)
  }

  /** One error per invoice counted more than once, in counter order. */
  function InvoiceDuplicateErrors(cs: seq<Entry<string>>): (es: seq<ValidationError>)
    ensures |es| == |Repeated(cs)|
    ensures forall i :: 0 <= i < |es| ==> es[i] == InvoiceDuplicate(Repeated(cs)[i])
  {
    if cs == [] then []
    else InvoiceDuplicateErrors(cs[..|cs| - 1]) + (if cs[|cs| - 1].count > 1 then [InvoiceDuplicate(cs[|cs| - 1])] else [])
  }

  /** One error per patient counted more than once, in counter order. */
  function UserDuplicateErrors(cs: seq<Entry<UserKey>>): (es: seq<ValidationError>)
    ensures |es| == |Repeated(cs)|
    ensures forall i :: 0 <= i < |es| ==> es[i] == UserDuplicate(Repeated(cs)[i])
  {
    if cs == [] then []
    else UserDuplicateErrors(cs[..|cs| - 1]) + (if cs[|cs| - 1].count > 1 then [UserDuplicate(cs[|cs| - 1])] else [])
  }

  /** An invoice gets a duplicate error, quoting its count, exactly when the counter holds it more than once. */
  lemma InvoiceDuplicateReported(cs: seq<Entry<string>>, x: string)
    requires DistinctKeys(cs)
    ensures (exists e :: e in InvoiceDuplicateErrors(cs) && e.description == DuplicateInvoice(x, CountOf(cs, x)))
            <==> CountOf(cs, x) > 1
  {
    var es := InvoiceDuplicateErrors(cs);
    RepeatedIff(cs, x);
    if e :| e in es && e.description == DuplicateInvoice(x, CountOf(cs, x)) {
      var i :| 0 <= i < |es| && es[i] == e;
      assert Repeated(cs)[i] in Repeated(cs);
    }
    if CountOf(cs, x) > 1 {
      var r :| r in Repeated(cs) && r.key == x;
      var i :| 0 <= i < |Repeated(cs)| && Repeated(cs)[i] == r;
      assert es[i] in es;
    }
  }

  /** A patient gets a duplicate error, quoting its count, exactly when the counter holds it more than once. */
  lemma UserDuplicateReported(cs: seq<Entry<UserKey>>, u: UserKey)
    requires DistinctKeys(cs)
    ensures (exists e :: e in UserDuplicateErrors(cs) && e.description == DuplicateUser(u.tipoDoc, u.numDoc, CountOf(cs, u)))
            <==> CountOf(cs, u) > 1
  {
    var es := UserDuplicateErrors(cs);
    RepeatedIff(cs, u);
    if e :| e in es && e.description == DuplicateUser(u.tipoDoc, u.numDoc, CountOf(cs, u)) {
      var i :| 0 <= i < |es| && es[i] == e;
      assert Repeated(cs)[i] in Repeated(cs);
    }
    if CountOf(cs, u) > 1 {
      var r :| r in Repeated(cs) && r.key == u;
      var i :| 0 <= i < |Repeated(cs)| && Repeated(cs)[i] == r;
      assert es[i] in es;
    }
  }

  /**
   * After registering the AF entries `rs` into a fresh checker, an invoice is
   * reported as duplicated exactly when it occurs more than once among the
   * non-empty invoice numbers, and the error quotes that number of occurrences.
   */
  lemma InvoiceDuplicateIff(rs: seq<AFEntry>, x: string)
    ensures (exists e :: e in InvoiceDuplicateErrors(BumpAll([], Invoices(rs))) &&
                         e.description == DuplicateInvoice(x, multiset(Invoices(rs))[x]))
            <==> multiset(Invoices(rs))[x] > 1
  {
    BumpAllCounts([], Invoices(rs), x);
    InvoiceDuplicateReported(BumpAll([], Invoices(rs)), x);
  }

  /** The same for patients registered from the US entries `rs`. */
  lemma UserDuplicateIff(rs: seq<USEntry>, u: UserKey)
    ensures (exists e :: e in UserDuplicateErrors(BumpAll([], Users(rs))) &&
                         e.description == DuplicateUser(u.tipoDoc, u.numDoc, multiset(Users(rs))[u]))
            <==> multiset(Users(rs))[u] > 1
  {
    BumpAllCounts([], Users(rs), u);
    UserDuplicateReported(BumpAll([], Users(rs)), u);
  }

  // ---------------------------------------------------------------------
  // The registration loops, on the values of the checker's fields
  // ---------------------------------------------------------------------

  /** The loop of `register_af_data` over the invoice set, its counter, the provider set and the invoice total. */
  method CountAfEntries(records: seq<AFEntry>, invoices0: set<string>, counts0: seq<Entry<string>>,
                        providers0: set<string>, total0: nat)
    returns (invoices: set<string>, counts: seq<Entry<string>>, providers: set<string>, total: nat)
    requires DistinctKeys(counts0) && total0 == Total(counts0)
    ensures DistinctKeys(counts) && total == Total(counts)
    ensures invoices == invoices0 + Elements(Invoices(records))
    ensures counts == BumpAll(counts0, Invoices(records))
    ensures providers == providers0 + Elements(Providers(records))
    ensures total == total0 + |Invoices(records)|
  {
    invoices, counts, providers, total := invoices0, counts0, providers0, total0;
    for i := 0 to |records|
      invariant counts == BumpAll(counts0, Invoices(records[..i]))
      invariant invoices == invoices0 + Elements(Invoices(records[..i]))
      invariant providers == providers0 + Elements(Providers(records[..i]))
      invariant total == total0 + |Invoices(records[..i])|
    {
      InvoicesStep(records, i);
      ProvidersStep(records, i);
      var numFactura := records[i].numFactura;
      var codPrestador := records[i].codPrestador;
      if numFactura != [] {
        BumpAllSnoc(counts0, Invoices(records[..i]), numFactura);
        ElementsSnoc(Invoices(records[..i]), numFactura);
        invoices := invoices + {numFactura};
        counts := Bump(counts, numFactura);
        total := total + 1;
      } else {
        assert Invoices(records[..i + 1]) == Invoices(records[..i]);
      }
      if codPrestador != [] {
        ElementsSnoc(Providers(records[..i]), codPrestador);
        providers := providers + {codPrestador};
      } else {
        assert Providers(records[..i + 1]) == Providers(records[..i]);
      }
    }
    assert records[..|records|] == records;
    BumpAllTotal(counts0, Invoices(records));
  }

  /** The loop of `register_us_data` over the patient set, its counter and the patient total. */
  method CountUsEntries(records: seq<USEntry>, users0: set<UserKey>, counts0: seq<Entry<UserKey>>, total0: nat)
    returns (users: set<UserKey>, counts: seq<Entry<UserKey>>, total: nat)
    requires DistinctKeys(counts0) && total0 == Total(counts0)
    ensures DistinctKeys(counts) && total == Total(counts)
    ensures users == users0 + Elements(Users(records))
    ensures counts == BumpAll(counts0, Users(records))
    ensures total == total0 + |Users(records)|
  {
    users, counts, total := users0, counts0, total0;
    for i := 0 to |records|
      invariant counts == BumpAll(counts0, Users(records[..i]))
      invariant users == users0 + Elements(Users(records[..i]))
      invariant total == total0 + |Users(records[..i])|
    {
      UsersStep(records, i);
      var tipoDoc := records[i].tipoDocumento;
      var numDoc := records[i].numDocumento;
      if tipoDoc != [] && numDoc != [] {
        var userKey := UserKey(tipoDoc, numDoc);
        BumpAllSnoc(counts0, Users(records[..i]), userKey);
        ElementsSnoc(Users(records[..i]), userKey);
        users := users + {userKey};
        counts := Bump(counts, userKey);
        total := total + 1;
      } else {
        assert Users(records[..i + 1]) == Users(records[..i]);
      }
    }
    assert records[..|records|] == records;
    BumpAllTotal(counts0, Users(records));
  }

  // ---------------------------------------------------------------------
  // CrossFileValidator
  // ---------------------------------------------------------------------

  class CrossFileValidator {
    var facturasAf: set<string>
    var usuariosUs: set<UserKey>
    var prestadoresAf: set<string>
    var facturasDuplicadas: seq<Entry<string>>
    var usuariosDuplicados: seq<Entry<UserKey>>
    var stats: CrossStatistics

    /**
     * The sets hold exactly the keys the counters have counted, and the
     * registration totals are the counters' totals.
     */
    ghost predicate Valid()
      reads this
    {
      DistinctKeys(facturasDuplicadas) && DistinctKeys(usuariosDuplicados) &&
      (forall x :: x in facturasAf <==> CountOf(facturasDuplicadas, x) > 0) &&
      (forall u :: u in usuariosUs <==> CountOf(usuariosDuplicados, u) > 0) &&
      stats.totalFacturasAf == Total(facturasDuplicadas) &&
      stats.totalUsuariosUs == Total(usuariosDuplicados)
    }

    constructor()
      ensures Valid()
      ensures facturasAf == {} && usuariosUs == {} && prestadoresAf == {}
      ensures facturasDuplicadas == [] && usuariosDuplicados == [] && stats == NoStatistics
    {
      facturasAf, usuariosUs, prestadoresAf := {}, {}, {};
      facturasDuplicadas, usuariosDuplicados := [], [];
      stats := NoStatistics;
    }

    /** `register_af_data`: every non-empty invoice is added, counted and totalled; every non-empty provider is collected. */
    method RegisterAfData(records: seq<AFEntry>, fileName: string)
      requires Valid()
      modifies this
      ensures Valid()
      ensures facturasAf == old(facturasAf) + Elements(Invoices(records))
      ensures facturasDuplicadas == BumpAll(old(facturasDuplicadas), Invoices(records))
      ensures prestadoresAf == old(prestadoresAf) + Elements(Providers(records))
      ensures stats == old(stats).(totalFacturasAf := old(stats.totalFacturasAf) + |Invoices(records)|)
      ensures usuariosUs == old(usuariosUs) && usuariosDuplicados == old(usuariosDuplicados)
    {
      var invoices, counts, providers, total := CountAfEntries(records, facturasAf, facturasDuplicadas, prestadoresAf, stats.totalFacturasAf);
      CountedKeys(facturasDuplicadas, Invoices(records), facturasAf);
      facturasAf, facturasDuplicadas, prestadoresAf := invoices, counts, providers;
      stats := stats.(totalFacturasAf := total);
    }

    /** `register_us_data`: every patient with both document parts is added, counted and totalled. */
    method RegisterUsData(records: seq<USEntry>, fileName: string)
      requires Valid()
      modifies this
      ensures Valid()
      ensures usuariosUs == old(usuariosUs) + Elements(Users(records))
      ensures usuariosDuplicados == BumpAll(old(usuariosDuplicados), Users(records))
      ensures stats == old(stats).(totalUsuariosUs := old(stats.totalUsuariosUs) + |Users(records)|)
      ensures facturasAf == old(facturasAf) && prestadoresAf == old(prestadoresAf)
      ensures facturasDuplicadas == old(facturasDuplicadas)
    {
      var users, counts, total := CountUsEntries(records, usuariosUs, usuariosDuplicados, stats.totalUsuariosUs);
      CountedKeys(usuariosDuplicados, Users(records), usuariosUs);
      usuariosUs, usuariosDuplicados := users, counts;
      stats := stats.(totalUsuariosUs := total);
    }

    /**
     * The body shared by the five `validate_*_references` methods: the
     * errors are `ReferenceErrors` of the current sets, and only the two
     * not-found statistics change, by the numbers of missing references.
     */
    method ValidateReferences(records: seq<Reference>, fileName: string, lineOffset: int, invoiceFix: string)
      returns (errors: seq<ValidationError>)
      modifies this
      ensures errors == ReferenceErrors(facturasAf, usuariosUs, records, fileName, lineOffset, invoiceFix)
      ensures stats == old(stats).(facturasNoEncontradas := old(stats.facturasNoEncontradas) + MissingInvoices(facturasAf, records),
                                   usuariosNoEncontrados := old(stats.usuariosNoEncontrados) + MissingUsers(usuariosUs, records))
      ensures facturasAf == old(facturasAf) && usuariosUs == old(usuariosUs) && prestadoresAf == old(prestadoresAf)
      ensures facturasDuplicadas == old(facturasDuplicadas) && usuariosDuplicados == old(usuariosDuplicados)
    {
      var invoices, users, providers := facturasAf, usuariosUs, prestadoresAf;
      var invoiceCounts, userCounts := facturasDuplicadas, usuariosDuplicados;
      errors := [];
      for i := 0 to |records|
        invariant facturasAf == invoices && usuariosUs == users && prestadoresAf == providers
        invariant facturasDuplicadas == invoiceCounts && usuariosDuplicados == userCounts
        invariant errors == ReferenceErrors(invoices, users, records[..i], fileName, lineOffset, invoiceFix)
        invariant stats == old(stats).(facturasNoEncontradas := old(stats.facturasNoEncontradas) + MissingInvoices(invoices, records[..i]),
                                       usuariosNoEncontrados := old(stats.usuariosNoEncontrados) + MissingUsers(users, records[..i]))
      {
        assert records[..i + 1][..i] == records[..i];
        var idx := lineOffset + i;
        var numFactura := records[i].numFactura;
        var tipoDoc := records[i].tipoDocumento;
        var numDoc := records[i].numDocumento;
        if numFactura != [] && numFactura !in facturasAf {
          errors := errors + [ValidationError(fileName, idx, InvoiceField, InvoiceNotFound(numFactura), CrossRegulation, invoiceFix)];
          stats := stats.(facturasNoEncontradas := stats.facturasNoEncontradas + 1);
        }
        if tipoDoc != [] && numDoc != [] {
          var userKey := UserKey(tipoDoc, numDoc);
          if userKey !in usuariosUs {
            errors := errors + [ValidationError(fileName, idx, UserField, UserNotFound(tipoDoc, numDoc), CrossRegulation, UserFix)];
            stats := stats.(usuariosNoEncontrados := stats.usuariosNoEncontrados + 1);
          }
        }
      }
      assert records[..|records|] == records;
    }

    /** `validate_ac_references`. */
    method ValidateAcReferences(records: seq<Reference>, fileName: string, lineOffset: int := 1)
      returns (errors: seq<ValidationError>)
      modifies this
      ensures errors == ReferenceErrors(facturasAf, usuariosUs, records, fileName, lineOffset, AcInvoiceFix)
      ensures stats == old(stats).(facturasNoEncontradas := old(stats.facturasNoEncontradas) + MissingInvoices(facturasAf, records),
                                   usuariosNoEncontrados := old(stats.usuariosNoEncontrados) + MissingUsers(usuariosUs, records))
      ensures facturasAf == old(facturasAf) && usuariosUs == old(usuariosUs) && prestadoresAf == old(prestadoresAf)
      ensures facturasDuplicadas == old(facturasDuplicadas) && usuariosDuplicados == old(usuariosDuplicados)
    {
      errors := ValidateReferences(records, fileName, lineOffset, AcInvoiceFix);
    }

    /** `validate_ap_references`. */
    method ValidateApReferences(records: seq<Reference>, fileName: string, lineOffset: int := 1)
      returns (errors: seq<ValidationError>)
      modifies this
      ensures errors == ReferenceErrors(facturasAf, usuariosUs, records, fileName, lineOffset, InvoiceFix)
      ensures stats == old(stats).(facturasNoEncontradas := old(stats.facturasNoEncontradas) + MissingInvoices(facturasAf, records),
                                   usuariosNoEncontrados := old(stats.usuariosNoEncontrados) + MissingUsers(usuariosUs, records))
      ensures facturasAf == old(facturasAf) && usuariosUs == old(usuariosUs) && prestadoresAf == old(prestadoresAf)
      ensures facturasDuplicadas == old(facturasDuplicadas) && usuariosDuplicados == old(usuariosDuplicados)
    {
      errors := ValidateReferences(records, fileName, lineOffset, InvoiceFix);
    }

    /** `validate_at_references`. */
    method ValidateAtReferences(records: seq<Reference>, fileName: string, lineOffset: int := 1)
      returns (errors: seq<ValidationError>)
      modifies this
      ensures errors == ReferenceErrors(facturasAf, usuariosUs, records, fileName, lineOffset, InvoiceFix)
      ensures stats == old(stats).(facturasNoEncontradas := old(stats.facturasNoEncontradas) + MissingInvoices(facturasAf, records),
                                   usuariosNoEncontrados := old(stats.usuariosNoEncontrados) + MissingUsers(usuariosUs, records))
      ensures facturasAf == old(facturasAf) && usuariosUs == old(usuariosUs) && prestadoresAf == old(prestadoresAf)
      ensures facturasDuplicadas == old(facturasDuplicadas) && usuariosDuplicados == old(usuariosDuplicados)
    {
      errors := ValidateReferences(records, fileName, lineOffset, InvoiceFix);
    }

    /** `validate_ah_references`. */
    method ValidateAhReferences(records: seq<Reference>, fileName: string, lineOffset: int := 1)
      returns (errors: seq<ValidationError>)
      modifies this
      ensures errors == ReferenceErrors(facturasAf, usuariosUs, records, fileName, lineOffset, InvoiceFix)
      ensures stats == old(stats).(facturasNoEncontradas := old(stats.facturasNoEncontradas) + MissingInvoices(facturasAf, records),
                                   usuariosNoEncontrados := old(stats.usuariosNoEncontrados) + MissingUsers(usuariosUs, records))
      ensures facturasAf == old(facturasAf) && usuariosUs == old(usuariosUs) && prestadoresAf == old(prestadoresAf)
      ensures facturasDuplicadas == old(facturasDuplicadas) && usuariosDuplicados == old(usuariosDuplicados)
    {
      errors := ValidateReferences(records, fileName, lineOffset, InvoiceFix);
    }

    /** `validate_am_references`. */
    method ValidateAmReferences(records: seq<Reference>, fileName: string, lineOffset: int := 1)
      returns (errors: seq<ValidationError>)
      modifies this
      ensures errors == ReferenceErrors(facturasAf, usuariosUs, records, fileName, lineOffset, InvoiceFix)
      ensures stats == old(stats).(facturasNoEncontradas := old(stats.facturasNoEncontradas) + MissingInvoices(facturasAf, records),
                                   usuariosNoEncontrados := old(stats.usuariosNoEncontrados) + MissingUsers(usuariosUs, records))
      ensures facturasAf == old(facturasAf) && usuariosUs == old(usuariosUs) && prestadoresAf == old(prestadoresAf)
      ensures facturasDuplicadas == old(facturasDuplicadas) && usuariosDuplicados == old(usuariosDuplicados)
    {
      errors := ValidateReferences(records, fileName, lineOffset, InvoiceFix);
    }

    /**
     * `check_duplicates`: one error per invoice, then one per patient,
     * counted more than once; `duplicados` grows by their number on every
     * call, and nothing else changes.
     */
    method CheckDuplicates() returns (errors: seq<ValidationError>)
      modifies this
      ensures errors == InvoiceDuplicateErrors(facturasDuplicadas) + UserDuplicateErrors(usuariosDuplicados)
      ensures stats == old(stats).(duplicados := old(stats.duplicados) + |errors|)
      ensures facturasAf == old(facturasAf) && usuariosUs == old(usuariosUs) && prestadoresAf == old(prestadoresAf)
      ensures facturasDuplicadas == old(facturasDuplicadas) && usuariosDuplicados == old(usuariosDuplicados)
    {
      var invoiceCounts, userCounts := facturasDuplicadas, usuariosDuplicados;
      var found := 0;
      errors := [];
      for i := 0 to |invoiceCounts|
        modifies {}
        invariant errors == InvoiceDuplicateErrors(invoiceCounts[..i])
        invariant found == |errors|
      {
        assert invoiceCounts[..i + 1][..i] == invoiceCounts[..i];
        var entry := invoiceCounts[i];
        if entry.count > 1 {
          errors := errors + [InvoiceDuplicate(entry)];
          found := found + 1;
        }
      }
      assert invoiceCounts[..|invoiceCounts|] == invoiceCounts;
      var invoiceErrors := errors;
      for i := 0 to |userCounts|
        modifies {}
        invariant errors == invoiceErrors + UserDuplicateErrors(userCounts[..i])
        invariant found == |errors|
      {
        assert userCounts[..i + 1][..i] == userCounts[..i];
        var entry := userCounts[i];
        if entry.count > 1 {
          errors := errors + [UserDuplicate(entry)];
          found := found + 1;
        }
      }
      assert userCounts[..|userCounts|] == userCounts;
      stats := stats.(duplicados := stats.duplicados + found);
    }

    /** `get_statistics`: the totals agree with the counters. */
    method GetStatistics() returns (s: CrossStatistics)
      requires Valid()
      ensures s == stats
      ensures s.totalFacturasAf == Total(facturasDuplicadas) && s.totalUsuariosUs == Total(usuariosDuplicados)
    {
      s := stats;
    }
  }
}
