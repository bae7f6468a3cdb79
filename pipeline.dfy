/**
 * The validation run of the RIPS validator application: the first phase
 * reads every file once for the corrections and the advanced checks
 * (ICD-10 codes by position, attention registration, coherence of
 * finality, sex and age with the diagnosis) and then hands it to the
 * standard reader; the second registers the invoices and patients of the
 * AF and US files and checks the references of the dependent files; the
 * third reports the duplicate attentions.
 */
module Pipeline {
  import opened Wrappers
  import opened Text
  import opened Dates
  import opened Models
  import opened Rules
  import opened FileReader
  import opened Cie10
  import opened Advanced
  import opened Cross
  import opened Counters
  import Corrector

  // ---------------------------------------------------------------------
  // ICD-10 codes by position
  // ---------------------------------------------------------------------

  /** One ICD-10 field of a line: its position, its name, and whether it must be given. */
  datatype Slot = Slot(index: nat, fieldName: string, required: bool)

  /** The ICD-10 fields `_validate_cie10_in_record` checks for each kind of file. */
  function Cie10Slots(k: Kind): (r: seq<Slot>)
    ensures k != AC && k != AP && k != AH ==> r == []
  {
    match k
    case AC => [Slot(11, "diagnostico_principal", true), Slot(12, "diagnostico_relacionado1", false),
                Slot(13, "diagnostico_relacionado2", false), Slot(14, "diagnostico_relacionado3", false)]
    case AP => [Slot(12, "diagnostico_principal", true), Slot(13, "diagnostico_relacionado", false),
                Slot(14, "complicacion", false)]
    case AH => [Slot(9, "diagnostico_ingreso", true), Slot(10, "diagnostico_egreso", true),
                Slot(11, "diagnostico_relacionado1", false), Slot(12, "diagnostico_relacionado2", false),
                Slot(13, "diagnostico_relacionado3", false), Slot(14, "diagnostico_complicacion", false)]
    case _ => []
  }

  /** `validate_code` accepts `code` in slot `s`: a blank one when optional, a given one when the catalog knows it. */
  predicate SlotAccepted(c: Catalog, s: Slot, code: string)
  {
    if Strip(code) == [] then !s.required else c.IsValidCode(code)
  }

  /** The errors of one slot: none when the line is too short to have that field. */
  function SlotErrors(c: Catalog, s: Slot, fields: seq<string>, file: string, n: int): (es: seq<ValidationError>)
    ensures |es| <= 1
    ensures es == [] <==> s.index >= |fields| || SlotAccepted(c, s, fields[s.index])
    ensures Located(es, file, n)
    ensures forall e :: e in es ==> e.fieldName == s.fieldName
  {
    if s.index < |fields| then CodeErrors(c, fields[s.index], s.fieldName, file, n, s.required) else []
  }

  /** The lists of `ls` one after the other. */
  function Concat<T>(ls: seq<seq<T>>): seq<T>
  {
    if ls == [] then [] else Concat(ls[..|ls| - 1]) + ls[|ls| - 1]
  }

  lemma ConcatSnoc<T>(ls: seq<seq<T>>, l: seq<T>)
    ensures Concat(ls + [l]) == Concat(ls) + l
  {
    assert (ls + [l])[..|ls|] == ls;
  }

  lemma {:induction false} ConcatEmptyIff<T>(ls: seq<seq<T>>)
    ensures Concat(ls) == [] <==> forall i :: 0 <= i < |ls| ==> ls[i] == []
  {
    if ls != [] {
      ConcatEmptyIff(ls[..|ls| - 1]);
      assert forall i :: 0 <= i < |ls| - 1 ==> ls[..|ls| - 1][i] == ls[i];
    }
  }

  lemma {:induction false} ConcatMember<T>(ls: seq<seq<T>>, e: T)
    requires e in Concat(ls)
    ensures exists i :: 0 <= i < |ls| && e in ls[i]
  {
    var prior := ls[..|ls| - 1];
    if e in Concat(prior) {
      ConcatMember(prior, e);
      var i :| 0 <= i < |prior| && e in prior[i];
      assert prior[i] == ls[i];
    }
  }

  /** Concatenations of lists that are pairwise no longer are no longer. */
  lemma {:induction false} ConcatShorter<T, U>(ls: seq<seq<T>>, ms: seq<seq<U>>)
    requires |ls| == |ms| && forall i :: 0 <= i < |ls| ==> |ls[i]| <= |ms[i]|
    ensures |Concat(ls)| <= |Concat(ms)|
  {
    if ls != [] {
      ConcatShorter(ls[..|ls| - 1], ms[..|ms| - 1]);
    }
  }

  /** Concatenations of lists of at most one element are no longer than the number of lists. */
  lemma {:induction false} ConcatOfSingles<T>(ls: seq<seq<T>>)
    requires forall i :: 0 <= i < |ls| ==> |ls[i]| <= 1
    ensures |Concat(ls)| <= |ls|
  {
    if ls != [] {
      ConcatOfSingles(ls[..|ls| - 1]);
    }
  }

  /** The errors of each slot, in slot order. */
  function SlotLists(c: Catalog, slots: seq<Slot>, fields: seq<string>, file: string, n: int)
    : (ls: seq<seq<ValidationError>>)
    ensures |ls| == |slots|
    ensures forall i :: 0 <= i < |slots| ==> ls[i] == SlotErrors(c, slots[i], fields, file, n)
  {
    seq(|slots|, i requires 0 <= i < |slots| => SlotErrors(c, slots[i], fields, file, n))
  }

  /** The errors of the slots, in slot order. */
  function Cie10Errors(c: Catalog, slots: seq<Slot>, fields: seq<string>, file: string, n: int): seq<ValidationError>
  {
    Concat(SlotLists(c, slots, fields, file, n))
  }

  /** The code of slot `s` when the line has it and the ICD-10 validator counts it as invalid. */
  function RejectedOf(c: Catalog, s: Slot, fields: seq<string>): (r: seq<string>)
    ensures |r| <= 1
    ensures r != [] ==> s.index < |fields| && Rejected(c, fields[s.index]) && r == [fields[s.index]]
  {
    if s.index < |fields| && Rejected(c, fields[s.index]) then [fields[s.index]] else []
  }

  /** The codes of each slot the validator counts, in slot order. */
  function RejectedLists(c: Catalog, slots: seq<Slot>, fields: seq<string>): (ls: seq<seq<string>>)
    ensures |ls| == |slots|
    ensures forall i :: 0 <= i < |slots| ==> ls[i] == RejectedOf(c, slots[i], fields)
  {
    seq(|slots|, i requires 0 <= i < |slots| => RejectedOf(c, slots[i], fields))
  }

  /** The codes of in-range slots that the ICD-10 validator counts as invalid, in slot order. */
  function RejectedCodes(c: Catalog, slots: seq<Slot>, fields: seq<string>): seq<string>
  {
    Concat(RejectedLists(c, slots, fields))
  }

  /**
   * A line has no ICD-10 error exactly when every slot it is long enough
   * to have is accepted; slots beyond its last field are not looked at.
   */
  lemma Cie10ErrorsIff(c: Catalog, slots: seq<Slot>, fields: seq<string>, file: string, n: int)
    ensures Cie10Errors(c, slots, fields, file, n) == []
            <==> forall i :: 0 <= i < |slots| && slots[i].index < |fields| ==> SlotAccepted(c, slots[i], fields[slots[i].index])
  {
    ConcatEmptyIff(SlotLists(c, slots, fields, file, n));
  }

  /** Every error is located at the line and reports one of the slots the line is long enough to have, which was not accepted. */
  lemma Cie10ErrorsFromSlots(c: Catalog, slots: seq<Slot>, fields: seq<string>, file: string, n: int, e: ValidationError)
    requires e in Cie10Errors(c, slots, fields, file, n)
    ensures e.fileName == file && e.lineNumber == n
    ensures exists i :: 0 <= i < |slots| && slots[i].index < |fields| && e.fieldName == slots[i].fieldName
                        && !SlotAccepted(c, slots[i], fields[slots[i].index])
  {
    var ls := SlotLists(c, slots, fields, file, n);
    ConcatMember(ls, e);
    var i :| 0 <= i < |ls| && e in ls[i];
    assert e in SlotErrors(c, slots[i], fields, file, n);
  }

  /** At most one error per slot, and every code the validator counts comes with an error of its own. */
  lemma Cie10Bounds(c: Catalog, slots: seq<Slot>, fields: seq<string>, file: string, n: int)
    ensures |RejectedCodes(c, slots, fields)| <= |Cie10Errors(c, slots, fields, file, n)| <= |slots|
  {
    var ls := SlotLists(c, slots, fields, file, n);
    var rs := RejectedLists(c, slots, fields);
    forall i | 0 <= i < |slots|
      ensures |rs[i]| <= |ls[i]|
    {
      if rs[i] != [] {
        assert !SlotAccepted(c, slots[i], fields[slots[i].index]);
      }
    }
    ConcatShorter(rs, ls);
    ConcatOfSingles(ls);
  }

  // ---------------------------------------------------------------------
  // Attention registration
  // ---------------------------------------------------------------------

  /** One call of `register_attention`: the bucket's key and the entry it appends. */
  datatype Registration = Registration(key: AttentionKey, attention: Attention)

  /**
   * `_register_attention`: AC and AP lines of at least seven fields register
   * their document, date and CUPS code; AT lines do so with an empty date;
   * every other kind, AH included, registers nothing.
   */
  function AttentionOf(k: Kind, fields: seq<string>, file: string, n: int): (r: Option<Registration>)
    ensures r.Some? <==> (k == AC || k == AP || k == AT) && |fields| >= 7
    ensures r.Some? ==> r.value.key.tipoDoc == fields[2] && r.value.key.numDoc == fields[3]
                        && r.value.attention.codigo == fields[6]
                        && r.value.attention.file == file && r.value.attention.line == n
    ensures r.Some? ==> r.value.key.fecha == if k == AT then "" else fields[4]
  {
    if |fields| < 7 then None
    else if k == AC then Some(Registration(AttentionKey(fields[2], fields[3], fields[4]), Attention("consulta", fields[6], file, n)))
    else if k == AP then Some(Registration(AttentionKey(fields[2], fields[3], fields[4]), Attention("procedimiento", fields[6], file, n)))
    else if k == AT then Some(Registration(AttentionKey(fields[2], fields[3], ""), Attention("servicio", fields[6], file, n)))
    else None
  }

  /** The registrations of an optional one. */
  function AsList(r: Option<Registration>): (rs: seq<Registration>)
    ensures |rs| <= 1
  {
    if r.Some? then [r.value] else []
  }

  /** The detector's keys and buckets after one registration, as `register_attention` leaves them. */
  function Enter(keys: seq<AttentionKey>, buckets: map<AttentionKey, seq<Attention>>, r: Registration)
    : (seq<AttentionKey>, map<AttentionKey, seq<Attention>>)
  {
    (if r.key in buckets then keys else keys + [r.key],
     buckets[r.key := (if r.key in buckets then buckets[r.key] else []) + [r.attention]])
  }

  /** The detector's keys and buckets after the registrations `rs`, in order. */
  function EnterAll(keys: seq<AttentionKey>, buckets: map<AttentionKey, seq<Attention>>, rs: seq<Registration>)
    : (seq<AttentionKey>, map<AttentionKey, seq<Attention>>)
  {
    if rs == [] then (keys, buckets)
    else
      var prev := EnterAll(keys, buckets, rs[..|rs| - 1]);
      Enter(prev.0, prev.1, rs[|rs| - 1])
  }

  /** The entries of `rs` registered under `key`, in order. */
  function EntriesFor(rs: seq<Registration>, key: AttentionKey): seq<Attention>
  {
    if rs == [] then []
    else EntriesFor(rs[..|rs| - 1], key) + (if rs[|rs| - 1].key == key then [rs[|rs| - 1].attention] else [])
  }

  /** The bucket of `key`, empty when it was never registered. */
  function BucketOf(buckets: map<AttentionKey, seq<Attention>>, key: AttentionKey): seq<Attention>
  {
    if key in buckets then buckets[key] else []
  }

  /**
   * After a run of registrations, every bucket holds what it held before
   * followed by the entries registered under its key, in registration order.
   */
  lemma {:induction false} EnterAllBuckets(keys: seq<AttentionKey>, buckets: map<AttentionKey, seq<Attention>>,
                                           rs: seq<Registration>, key: AttentionKey)
    ensures BucketOf(EnterAll(keys, buckets, rs).1, key) == BucketOf(buckets, key) + EntriesFor(rs, key)
  {
    if rs != [] {
      EnterAllBuckets(keys, buckets, rs[..|rs| - 1], key);
    }
  }

  /** Registrations append: entering `rs + ts` is entering `rs`, then `ts`. */
  lemma {:induction false} EnterAllAppend(keys: seq<AttentionKey>, buckets: map<AttentionKey, seq<Attention>>,
                                          rs: seq<Registration>, ts: seq<Registration>)
    ensures EnterAll(keys, buckets, rs + ts)
            == EnterAll(EnterAll(keys, buckets, rs).0, EnterAll(keys, buckets, rs).1, ts)
  {
    if ts == [] {
      assert rs + ts == rs;
    } else {
      assert (rs + ts)[..|rs + ts| - 1] == rs + ts[..|ts| - 1];
      EnterAllAppend(keys, buckets, rs, ts[..|ts| - 1]);
    }
  }

  // ---------------------------------------------------------------------
  // Coherence
  // ---------------------------------------------------------------------

  /** `int(edad) if edad else 0`: `None` when `int` raises. */
  function AgeValue(edad: string): Option<int>
  {
    if edad == [] then Some(0) else PyInt(edad)
  }

  /** What `_validate_coherence_in_record` adds: the errors, and the growth of `coherence_issues`. */
  datatype CoherenceStep = CoherenceStep(errors: seq<ValidationError>, issues: nat)

  /**
   * `_validate_coherence_in_record`: AC lines of at least 22 fields are
   * checked for finality against CUPS code and diagnosis, sex against
   * diagnosis, and, when the age parses, age against diagnosis; the
   * statistic grows by the length of the last list computed only.
   */
  function CoherenceOf(k: Kind, fields: seq<string>, file: string, n: int): (r: CoherenceStep)
    ensures k != AC || |fields| < 22 ==> r == CoherenceStep([], 0)
    ensures Located(r.errors, file, n)
    ensures r.issues <= |r.errors| <= 4
  {
    if k == AC && |fields| >= 22 then
      var finalidad, cups, diagnostico, sexo, edad, unidad := fields[9], fields[6], fields[11], fields[21], fields[19], fields[20];
      var finality := ValidateCoherence(finalidad, cups, diagnostico, file, n, "");
      var gender := ValidateGenderDiagnosis(sexo, diagnostico, file, n);
      match AgeValue(edad)
      case None => CoherenceStep(finality + gender, |gender|)
      case Some(age) =>
        var ages := AgeCoherence(age, unidad, diagnostico, file, n);
        CoherenceStep(finality + gender + ages, |ages|)
    else CoherenceStep([], 0)
  }

  /** A non-integer age skips the age check alone: the unit no longer matters, and no age error is reported. */
  lemma NonIntegerAgeSkipsAgeCheck(fields: seq<string>, file: string, n: int, unidad: string)
    requires |fields| >= 22 && AgeValue(fields[19]).None?
    ensures CoherenceOf(AC, fields, file, n) == CoherenceOf(AC, fields[20 := unidad], file, n)
    ensures forall e :: e in CoherenceOf(AC, fields, file, n).errors ==> e.fieldName != AgeField
  {
    var r := CoherenceOf(AC, fields, file, n);
    var finality := ValidateCoherence(fields[9], fields[6], fields[11], file, n, "");
    var gender := ValidateGenderDiagnosis(fields[21], fields[11], file, n);
    assert r == CoherenceStep(finality + gender, |gender|);
    var g := fields[20 := unidad];
    assert g[9] == fields[9] && g[6] == fields[6] && g[11] == fields[11] && g[21] == fields[21] && g[19] == fields[19];
    assert CoherenceOf(AC, g, file, n) == CoherenceStep(finality + gender, |gender|);
    forall e | e in r.errors
      ensures e.fieldName != AgeField
    {
      if e in finality {
        assert e.fieldName == CupsField("") || e.fieldName == DiagnosisField("");
      }
    }
  }

  /**
   * The statistic misses errors: whenever the finality check reports
   * something, `coherence_issues` grows by less than the number of
   * coherence errors the line adds.
   */
  lemma CoherenceIssuesMissFinalityErrors(fields: seq<string>, file: string, n: int)
    requires |fields| >= 22 && ValidateCoherence(fields[9], fields[6], fields[11], file, n, "") != []
    ensures CoherenceOf(AC, fields, file, n).issues < |CoherenceOf(AC, fields, file, n).errors|
  {
  }

  // ---------------------------------------------------------------------
  // One line of the first phase
  // ---------------------------------------------------------------------

  /** What one non-blank line contributes to the first phase. */
  datatype LineOutcome = LineOutcome(corrected: string, records: seq<Corrector.CorrectionRecord>, cie10: seq<ValidationError>,
                                     rejected: seq<string>, attention: Option<Registration>, coherence: CoherenceStep)

  /** Each counted code has its error, and the coherence statistic grows by no more than the coherence errors. */
  predicate Balanced(o: LineOutcome)
  {
    |o.rejected| <= |o.cie10| && o.coherence.issues <= |o.coherence.errors|
  }

  /** The stripped line, corrected by `apply_safe_corrections` when corrections are suggested (or applied). */
  function CorrectedLine(suggest: bool, k: Kind, file: string, line: string, n: int): (r: string)
    ensures !suggest ==> r == Strip(line)
    ensures |Split(r, ',')| == |Split(Strip(line), ',')|
  {
    StripIdempotent(line);
    Corrector.SafeLineFields(Strip(line), n, file, Code(k));
    if suggest then Corrector.SafeLine(Strip(line), n, file, Code(k)) else Strip(line)
  }

  /** The records of those corrections. */
  function LineRecords(suggest: bool, k: Kind, file: string, line: string, n: int): (r: seq<Corrector.CorrectionRecord>)
    ensures !suggest ==> r == []
  {
    if suggest then Corrector.SafeRecords(Code(k), Corrector.LineFields(Strip(line)), |Corrector.LineFields(Strip(line))|, file, n)
    else []
  }

  /** What the checks of kind `k` make of the fields of the corrected line `corrected`, with its correction records. */
  function ChecksOf(c: Catalog, k: Kind, file: string, n: int, corrected: string, records: seq<Corrector.CorrectionRecord>)
    : (o: LineOutcome)
    ensures Balanced(o) && o.corrected == corrected && o.records == records
  {
    var fields := Split(corrected, ',');
    Cie10Bounds(c, Cie10Slots(k), fields, file, n);
    LineOutcome(corrected, records, Cie10Errors(c, Cie10Slots(k), fields, file, n), RejectedCodes(c, Cie10Slots(k), fields),
                AttentionOf(k, fields, file, n), CoherenceOf(k, fields, file, n))
  }

  /** One non-blank line: the corrected line, and what the checks of its kind make of it. */
  function LineOutcomeOf(c: Catalog, suggest: bool, k: Kind, file: string, line: string, n: int): (o: LineOutcome)
    ensures Balanced(o)
    ensures !suggest ==> o.corrected == Strip(line) && o.records == []
    ensures |Split(o.corrected, ',')| == |Split(Strip(line), ',')|
  {
    ChecksOf(c, k, file, n, CorrectedLine(suggest, k, file, line, n), LineRecords(suggest, k, file, line, n))
  }

  // ---------------------------------------------------------------------
  // The first reading of a file
  // ---------------------------------------------------------------------

  /** The outcome function of a reading: line `n` of `file`, of kind `k`. */
  function OutcomeFn(c: Catalog, suggest: bool, k: Kind, file: string): (string, int) -> LineOutcome
  {
    (line, n) => LineOutcomeOf(c, suggest, k, file, line, n)
  }

  /** What `outcome` makes of line `n`. */
  function Apply(outcome: (string, int) -> LineOutcome, line: string, n: int): LineOutcome
  {
    outcome(line, n)
  }

  /** The outcome function gives each line the checks of its corrected line, with the line's records. */
  lemma OutcomeFnApply(c: Catalog, suggest: bool, k: Kind, file: string, line: string, n: int)
    ensures Apply(OutcomeFn(c, suggest, k, file), line, n)
            == ChecksOf(c, k, file, n, CorrectedLine(suggest, k, file, line, n), LineRecords(suggest, k, file, line, n))
  {
  }

  /** The outcomes of the non-blank lines of `lines`, numbered from 1 (blank lines keep their numbers). */
  function LineOutcomes(outcome: (string, int) -> LineOutcome, lines: seq<string>): (os: seq<LineOutcome>)
    ensures |os| == NonBlank(lines)
    decreases |lines|
  {
    if lines == [] then []
    else
      var prev := LineOutcomes(outcome, lines[..|lines| - 1]);
      if Strip(lines[|lines| - 1]) == [] then prev
      else prev + [Apply(outcome, lines[|lines| - 1], |lines|)]
  }

  /** The properties every line outcome has. */
  lemma OutcomeFnFacts(c: Catalog, suggest: bool, k: Kind, file: string)
    ensures forall line, n :: Balanced(Apply(OutcomeFn(c, suggest, k, file), line, n))
    ensures forall line, n :: |Split(Apply(OutcomeFn(c, suggest, k, file), line, n).corrected, ',')| == |Split(Strip(line), ',')|
    ensures !suggest ==> forall line, n :: Apply(OutcomeFn(c, suggest, k, file), line, n).corrected == Strip(line)
                                         && Apply(OutcomeFn(c, suggest, k, file), line, n).records == []
  {
  }

  /** What the first reading of a file has produced. */
  datatype PassResult = PassResult(correctedLines: seq<string>, records: seq<Corrector.CorrectionRecord>,
                                   errors: seq<ValidationError>, cie10Count: nat, coherenceCount: nat, issues: nat,
                                   rejected: seq<string>, registrations: seq<Registration>)

  /** The outcomes gathered in line order: each line's ICD-10 errors, then its coherence errors. */
  function Gather(os: seq<LineOutcome>): (p: PassResult)
    ensures |p.correctedLines| == |os|
  {
    if os == [] then PassResult([], [], [], 0, 0, 0, [], [])
    else
      var p := Gather(os[..|os| - 1]);
      var o := os[|os| - 1];
      PassResult(p.correctedLines + [o.corrected], p.records + o.records, p.errors + o.cie10 + o.coherence.errors,
                 p.cie10Count + |o.cie10|, p.coherenceCount + |o.coherence.errors|, p.issues + o.coherence.issues,
                 p.rejected + o.rejected, p.registrations + AsList(o.attention))
  }

  /** The loop of `process_file_with_advanced_validation` over `lines`. */
  function Pass(c: Catalog, suggest: bool, k: Kind, file: string, lines: seq<string>): PassResult
  {
    Gather(LineOutcomes(OutcomeFn(c, suggest, k, file), lines))
  }

  /** The non-blank lines, stripped, in order. */
  function StrippedLines(lines: seq<string>): (r: seq<string>)
    ensures |r| == NonBlank(lines)
    decreases |lines|
  {
    if lines == [] then []
    else StrippedLines(lines[..|lines| - 1]) + (if Strip(lines[|lines| - 1]) == [] then [] else [Strip(lines[|lines| - 1])])
  }

  /** Gathering one more outcome appends its parts. */
  lemma GatherSnoc(os: seq<LineOutcome>, o: LineOutcome)
    ensures var p := Gather(os);
            Gather(os + [o])
            == PassResult(p.correctedLines + [o.corrected], p.records + o.records, p.errors + o.cie10 + o.coherence.errors,
                          p.cie10Count + |o.cie10|, p.coherenceCount + |o.coherence.errors|, p.issues + o.coherence.issues,
                          p.rejected + o.rejected, p.registrations + AsList(o.attention))
  {
    assert (os + [o])[..|os|] == os;
  }

  /** One more line: the outcomes grow by that line's outcome unless it is blank. */
  lemma OutcomesSnoc(outcome: (string, int) -> LineOutcome, lines: seq<string>)
    requires lines != []
    ensures var prior := LineOutcomes(outcome, lines[..|lines| - 1]);
            LineOutcomes(outcome, lines)
            == if Strip(lines[|lines| - 1]) == [] then prior else prior + [Apply(outcome, lines[|lines| - 1], |lines|)]
  {
  }

  /**
   * The counts of a reading whose every line outcome is balanced: every
   * error is an ICD-10 or a coherence error; the coherence statistic never
   * exceeds the coherence errors, nor the invalid-code counter the ICD-10
   * errors; at most one attention is registered per line.
   */
  lemma {:induction false} ReadingCounts(outcome: (string, int) -> LineOutcome, lines: seq<string>)
    requires forall line, n :: Balanced(Apply(outcome, line, n))
    ensures var p := Gather(LineOutcomes(outcome, lines));
            |p.errors| == p.cie10Count + p.coherenceCount
            && p.issues <= p.coherenceCount
            && |p.rejected| <= p.cie10Count
            && |p.registrations| <= NonBlank(lines)
  {
    if lines != [] {
      var prior := lines[..|lines| - 1];
      var last := lines[|lines| - 1];
      ReadingCounts(outcome, prior);
      OutcomesSnoc(outcome, lines);
      if Strip(last) != [] {
        var o := Apply(outcome, last, |lines|);
        assert Balanced(o);
        GatherSnoc(LineOutcomes(outcome, prior), o);
      }
    }
  }

  /** The counts of a pass: one kept line per non-blank line, and the balances of `ReadingCounts`. */
  lemma PassCounts(c: Catalog, suggest: bool, k: Kind, file: string, lines: seq<string>)
    ensures var p := Pass(c, suggest, k, file, lines);
            |p.correctedLines| == NonBlank(lines)
            && |p.errors| == p.cie10Count + p.coherenceCount
            && p.issues <= p.coherenceCount
            && |p.rejected| <= p.cie10Count
            && |p.registrations| <= NonBlank(lines)
  {
    OutcomeFnFacts(c, suggest, k, file);
    ReadingCounts(OutcomeFn(c, suggest, k, file), lines);
  }

  /** A reading whose every line is kept stripped and without records keeps the stripped lines and makes no record. */
  lemma {:induction false} ReadingWithoutCorrections(outcome: (string, int) -> LineOutcome, lines: seq<string>)
    requires forall line, n :: Apply(outcome, line, n).corrected == Strip(line) && Apply(outcome, line, n).records == []
    ensures Gather(LineOutcomes(outcome, lines)).correctedLines == StrippedLines(lines)
    ensures Gather(LineOutcomes(outcome, lines)).records == []
  {
    if lines != [] {
      var prior := lines[..|lines| - 1];
      var last := lines[|lines| - 1];
      ReadingWithoutCorrections(outcome, prior);
      OutcomesSnoc(outcome, lines);
      if Strip(last) != [] {
        var o := Apply(outcome, last, |lines|);
        GatherSnoc(LineOutcomes(outcome, prior), o);
      }
    }
  }

  /** Without corrections the kept lines are the stripped non-blank lines, and no record is made. */
  lemma PassWithoutCorrections(c: Catalog, k: Kind, file: string, lines: seq<string>)
    ensures Pass(c, false, k, file, lines).correctedLines == StrippedLines(lines)
    ensures Pass(c, false, k, file, lines).records == []
  {
    OutcomeFnFacts(c, false, k, file);
    ReadingWithoutCorrections(OutcomeFn(c, false, k, file), lines);
  }

  /** A reading whose every line outcome keeps the field count keeps it line by line. */
  lemma {:induction false} ReadingKeepsFieldCounts(outcome: (string, int) -> LineOutcome, lines: seq<string>)
    requires forall line, n :: |Split(Apply(outcome, line, n).corrected, ',')| == |Split(Strip(line), ',')|
    ensures var kept := Gather(LineOutcomes(outcome, lines)).correctedLines;
            var s := StrippedLines(lines);
            |kept| == |s| && forall i :: 0 <= i < |s| ==> |Split(kept[i], ',')| == |Split(s[i], ',')|
  {
    if lines != [] {
      var prior := lines[..|lines| - 1];
      var last := lines[|lines| - 1];
      ReadingKeepsFieldCounts(outcome, prior);
      OutcomesSnoc(outcome, lines);
      if Strip(last) != [] {
        var o := Apply(outcome, last, |lines|);
        GatherSnoc(LineOutcomes(outcome, prior), o);
        StripIdempotent(last);
      }
    }
  }

  /** With or without corrections, every kept line has as many fields as the stripped line it replaces. */
  lemma PassKeepsFieldCounts(c: Catalog, suggest: bool, k: Kind, file: string, lines: seq<string>)
    ensures var p := Pass(c, suggest, k, file, lines);
            var s := StrippedLines(lines);
            |p.correctedLines| == |s|
            && forall i :: 0 <= i < |s| ==> |Split(p.correctedLines[i], ',')| == |Split(s[i], ',')|
  {
    OutcomeFnFacts(c, suggest, k, file);
    ReadingKeepsFieldCounts(OutcomeFn(c, suggest, k, file), lines);
  }

  // ---------------------------------------------------------------------
  // Files
  // ---------------------------------------------------------------------

  /** One input file: its path and what reading it gives. */
  datatype InputFile = InputFile(path: string, contents: FileContents)

  /** A file with the kind it is processed as. */
  datatype Target = Target(kind: Kind, file: InputFile)

  /** The lines a reading gets through before it ends or fails. */
  function ReadLines(contents: FileContents): seq<string>
  {
    match contents
    case Lines(ls) => ls
    case Missing => []
    case Failed(read, _) => read
  }

  /** The text of the exception that ends the first reading, if any. */
  function Failure(f: InputFile): Option<string>
  {
    match f.contents
    case Lines(_) => None
    case Missing => Some("[Errno 2] No such file or directory: '" + f.path + "'")
    case Failed(_, reason) => Some(reason)
  }

  /** The one error of a file whose processing raised. */
  function CriticalError(file: string, reason: string): ValidationError
  {
    ValidationError(file, 0, "archivo", ProcessingFailure(reason), "Sistema", "Verificar formato y estructura del archivo")
  }

  /** What `read_and_validate_file` returns: its errors, and its counters unless the name gives no kind. */
  function StandardValidation(path: string, contents: FileContents, rules: string -> (Record, int) -> seq<ValidationError>)
    : (seq<ValidationError>, Option<Stats>)
  {
    match DetectFileType(BaseName(path))
    case None => ([UnknownNameError(BaseName(path))], None)
    case Some(kind) =>
      var o := Outcome(kind, path, contents, rules(BaseName(path)));
      (o.0, Some(o.1))
  }

  /** What `read_and_validate_file` promises is the standard validation of the file. */
  lemma StandardReadingResult(path: string, contents: FileContents, rules: string -> (Record, int) -> seq<ValidationError>,
                              kind: Option<Kind>, errors: seq<ValidationError>, stats: Option<Stats>)
    requires DetectFileType(BaseName(path)).None? ==>
               kind.None? && stats.None? && errors == [UnknownNameError(BaseName(path))]
    requires DetectFileType(BaseName(path)).Some? ==>
               kind == DetectFileType(BaseName(path)) && stats.Some?
               && (errors, stats.value) == Outcome(kind.value, path, contents, rules(BaseName(path)))
    ensures (errors, stats) == StandardValidation(path, contents, rules)
  {
  }

  /** The first reading of a file. */
  function FilePass(c: Catalog, suggest: bool, t: Target): PassResult
  {
    Pass(c, suggest, t.kind, BaseName(t.file.path), ReadLines(t.file.contents))
  }
}
