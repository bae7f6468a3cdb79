/**
 * `RIPSValidatorAppV2`: the application object that owns the readers and
 * validators and runs the three phases over the files of the input
 * directory, specified by the functions of `Pipeline`.
 */
module App {
  import opened Wrappers
  import opened Text
  import opened Dates
  import opened Models
  import opened Rules
  import opened FileReader
  import opened Cie10
  import opened Advanced
  import opened Cross
  import opened Counters
  import opened Pipeline
  import Corrector

  // ---------------------------------------------------------------------
  // The state the first phase changes
  // ---------------------------------------------------------------------

  /** The `stats` dictionary of the application. */
  datatype AppStats = AppStats(totalFiles: nat, totalRecords: nat, validRecords: nat, invalidRecords: nat,
                               filesByType: map<Kind, nat>, cie10InvalidCodes: nat, duplicateAttentions: nat,
                               coherenceIssues: nat, correctionsApplied: nat)

  /** The statistics before any file is processed. */
  const NoAppStats := AppStats(0, 0, 0, 0, map[], 0, 0, 0, 0)

  /**
   * Everything the first phase changes: the application's errors, statistics
   * and saved corrected files, the ICD-10 validator's counter of rejected
   * codes, the duplicate detector's buckets and the corrector's records.
   */
  datatype Phase1 = Phase1(errors: seq<ValidationError>, stats: AppStats, correctedFiles: map<string, seq<string>>,
                           invalidCodes: seq<Entry<string>>, keys: seq<AttentionKey>,
                           buckets: map<AttentionKey, seq<Attention>>, corrections: seq<Corrector.CorrectionRecord>)

  /** The state after the first reading `p` of a file. */
  function Absorb(s: Phase1, p: PassResult): (r: Phase1)
    requires DistinctKeys(s.invalidCodes)
    ensures DistinctKeys(r.invalidCodes)
    ensures r.correctedFiles == s.correctedFiles
  {
    var entered := EnterAll(s.keys, s.buckets, p.registrations);
    s.(errors := s.errors + p.errors,
       stats := s.stats.(cie10InvalidCodes := s.stats.cie10InvalidCodes + p.cie10Count,
                         coherenceIssues := s.stats.coherenceIssues + p.issues),
       invalidCodes := BumpAll(s.invalidCodes, p.rejected),
       keys := entered.0, buckets := entered.1,
       corrections := s.corrections + p.records)
  }

  /** The state after one more non-blank line with outcome `o`. */
  function Step(s: Phase1, o: LineOutcome): (r: Phase1)
    requires DistinctKeys(s.invalidCodes)
    ensures DistinctKeys(r.invalidCodes)
  {
    var entered := EnterAll(s.keys, s.buckets, AsList(o.attention));
    s.(errors := s.errors + o.cie10 + o.coherence.errors,
       stats := s.stats.(cie10InvalidCodes := s.stats.cie10InvalidCodes + |o.cie10|,
                         coherenceIssues := s.stats.coherenceIssues + o.coherence.issues),
       invalidCodes := BumpAll(s.invalidCodes, o.rejected),
       keys := entered.0, buckets := entered.1,
       corrections := s.corrections + o.records)
  }

  /** `r` is `s` after `_validate_cie10_in_record` of `fields`: its errors kept and counted, its rejected codes counted. */
  ghost predicate Cie10Done(s: Phase1, r: Phase1, c: Catalog, k: Kind, fields: seq<string>, file: string, n: int)
    requires DistinctKeys(s.invalidCodes)
  {
    var es := Cie10Errors(c, Cie10Slots(k), fields, file, n);
    r == s.(errors := s.errors + es, stats := s.stats.(cie10InvalidCodes := s.stats.cie10InvalidCodes + |es|),
            invalidCodes := BumpAll(s.invalidCodes, RejectedCodes(c, Cie10Slots(k), fields)))
  }

  /** `r` is `s` after `_register_attention` of `fields`: the attention of the line, if any, entered in the detector. */
  ghost predicate AttentionDone(s: Phase1, r: Phase1, k: Kind, fields: seq<string>, file: string, n: int)
  {
    var entered := EnterAll(s.keys, s.buckets, AsList(AttentionOf(k, fields, file, n)));
    r == s.(keys := entered.0, buckets := entered.1)
  }

  /** `r` is `s` after `_validate_coherence_in_record` of `fields`: its errors kept, the statistic grown. */
  ghost predicate CoherenceDone(s: Phase1, r: Phase1, k: Kind, fields: seq<string>, file: string, n: int)
  {
    var step := CoherenceOf(k, fields, file, n);
    r == s.(errors := s.errors + step.errors, stats := s.stats.(coherenceIssues := s.stats.coherenceIssues + step.issues))
  }

  /** The three checks of a line, one after the other, are the step of its outcome (with `records` recorded before them). */
  lemma ChecksCompose(s: Phase1, records: seq<Corrector.CorrectionRecord>, s1: Phase1, s2: Phase1, r: Phase1, c: Catalog,
                      k: Kind, file: string, n: int, corrected: string)
    requires DistinctKeys(s.invalidCodes)
    requires Cie10Done(s.(corrections := s.corrections + records), s1, c, k, Split(corrected, ','), file, n)
    requires AttentionDone(s1, s2, k, Split(corrected, ','), file, n)
    requires CoherenceDone(s2, r, k, Split(corrected, ','), file, n)
    ensures r == Step(s, ChecksOf(c, k, file, n, corrected, records))
  {
  }

  /** A kind without ICD-10 slots leaves the state as it is. */
  lemma Cie10Skipped(s: Phase1, c: Catalog, k: Kind, fields: seq<string>, file: string, n: int)
    requires DistinctKeys(s.invalidCodes) && k != AC && k != AP && k != AH
    ensures Cie10Done(s, s, c, k, fields, file, n)
  {
    NoSlots(c, k, fields, file, n);
    assert s.errors + [] == s.errors;
  }

  /** A kind that registers no attention leaves the state as it is. */
  lemma AttentionSkipped(s: Phase1, k: Kind, fields: seq<string>, file: string, n: int)
    requires k != AC && k != AP && k != AT && k != AH
    ensures AttentionDone(s, s, k, fields, file, n)
  {
  }

  /** A kind without coherence checks leaves the state as it is. */
  lemma CoherenceSkipped(s: Phase1, k: Kind, fields: seq<string>, file: string, n: int)
    requires k != AC && k != AP
    ensures CoherenceDone(s, s, k, fields, file, n)
  {
    assert s.errors + [] == s.errors;
  }

  /** A kind without ICD-10 slots has no ICD-10 error and counts no code. */
  lemma NoSlots(c: Catalog, k: Kind, fields: seq<string>, file: string, n: int)
    requires k != AC && k != AP && k != AH
    ensures Cie10Errors(c, Cie10Slots(k), fields, file, n) == []
    ensures RejectedCodes(c, Cie10Slots(k), fields) == []
  {
    assert SlotLists(c, [], fields, file, n) == [];
    assert RejectedLists(c, [], fields) == [];
  }

  /** Absorbing a reading line by line is absorbing it at once. */
  lemma AbsorbSnoc(s: Phase1, os: seq<LineOutcome>, o: LineOutcome)
    requires DistinctKeys(s.invalidCodes)
    ensures Absorb(s, Gather(os + [o])) == Step(Absorb(s, Gather(os)), o)
  {
    var p := Gather(os);
    var q := Gather(os + [o]);
    GatherSnoc(os, o);
    assert q.errors == p.errors + o.cie10 + o.coherence.errors;
    assert q.rejected == p.rejected + o.rejected;
    assert q.registrations == p.registrations + AsList(o.attention);
    assert q.records == p.records + o.records;
    BumpAllAppend(s.invalidCodes, p.rejected, o.rejected);
    EnterAllAppend(s.keys, s.buckets, p.registrations, AsList(o.attention));
    var mid := Absorb(s, p);
    var lhs := Absorb(s, q);
    var rhs := Step(mid, o);
    assert lhs.errors == s.errors + (p.errors + o.cie10 + o.coherence.errors);
    assert rhs.errors == (s.errors + p.errors) + o.cie10 + o.coherence.errors;
    assert lhs.errors == rhs.errors;
    assert lhs.corrections == rhs.corrections;
    assert lhs.stats == rhs.stats;
    assert lhs.invalidCodes == rhs.invalidCodes;
    assert lhs.keys == rhs.keys && lhs.buckets == rhs.buckets;
  }

  /** One more slot: its errors follow those of the slots before it. */
  lemma Cie10ErrorsSnoc(c: Catalog, slots: seq<Slot>, i: nat, fields: seq<string>, file: string, n: int)
    requires i < |slots|
    ensures Cie10Errors(c, slots[..i + 1], fields, file, n)
            == Cie10Errors(c, slots[..i], fields, file, n) + SlotErrors(c, slots[i], fields, file, n)
  {
    var ls := SlotLists(c, slots[..i], fields, file, n);
    assert SlotLists(c, slots[..i + 1], fields, file, n) == ls + [SlotErrors(c, slots[i], fields, file, n)];
    ConcatSnoc(ls, SlotErrors(c, slots[i], fields, file, n));
  }

  /** One more slot: its counted code follows those of the slots before it. */
  lemma RejectedCodesSnoc(c: Catalog, slots: seq<Slot>, i: nat, fields: seq<string>)
    requires i < |slots|
    ensures RejectedCodes(c, slots[..i + 1], fields) == RejectedCodes(c, slots[..i], fields) + RejectedOf(c, slots[i], fields)
  {
    var ls := RejectedLists(c, slots[..i], fields);
    assert RejectedLists(c, slots[..i + 1], fields) == ls + [RejectedOf(c, slots[i], fields)];
    ConcatSnoc(ls, RejectedOf(c, slots[i], fields));
  }

  /** Absorbing an empty reading changes nothing. */
  lemma AbsorbNothing(s: Phase1)
    requires DistinctKeys(s.invalidCodes)
    ensures Absorb(s, Gather([])) == s
  {
    var r := Absorb(s, Gather([]));
    assert r.errors == s.errors && r.corrections == s.corrections;
  }

  /** `r` is `s` with the first reading `p` absorbed, and `kept` and `records` are the lines and records of `p`. */
  ghost predicate Absorbed(s: Phase1, p: PassResult, r: Phase1, kept: seq<string>, records: seq<Corrector.CorrectionRecord>)
    requires DistinctKeys(s.invalidCodes)
  {
    r == Absorb(s, p) && kept == p.correctedLines && records == p.records
  }

  /** `r` and the kept lines and records are what reading `lines` from state `s` gives, `outcome` giving each line's outcome. */
  ghost predicate ReadSoFar(s: Phase1, outcome: (string, int) -> LineOutcome, lines: seq<string>, r: Phase1,
                            kept: seq<string>, records: seq<Corrector.CorrectionRecord>)
    requires DistinctKeys(s.invalidCodes)
  {
    Absorbed(s, Gather(LineOutcomes(outcome, lines)), r, kept, records)
  }

  /** One more line of a reading: a blank line changes nothing, any other takes the step of its outcome. */
  lemma ReadingStep(s: Phase1, outcome: (string, int) -> LineOutcome, lines: seq<string>, i: nat, prev: Phase1, r: Phase1,
                    kept: seq<string>, records: seq<Corrector.CorrectionRecord>, o: LineOutcome)
    requires DistinctKeys(s.invalidCodes) && i < |lines|
    requires ReadSoFar(s, outcome, lines[..i], prev, kept, records)
    requires Strip(lines[i]) != [] ==> o == Apply(outcome, lines[i], i + 1) && r == Step(prev, o)
    requires Strip(lines[i]) == [] ==> r == prev
    ensures Strip(lines[i]) != [] ==> ReadSoFar(s, outcome, lines[..i + 1], r, kept + [o.corrected], records + o.records)
    ensures Strip(lines[i]) == [] ==> ReadSoFar(s, outcome, lines[..i + 1], r, kept, records)
  {
    var os := LineOutcomes(outcome, lines[..i]);
    assert lines[..i + 1][..i] == lines[..i];
    OutcomesSnoc(outcome, lines[..i + 1]);
    if Strip(lines[i]) != [] {
      AbsorbSnoc(s, os, o);
      GatherSnoc(os, o);
    }
  }

  // ---------------------------------------------------------------------
  // One file of the first phase
  // ---------------------------------------------------------------------

  /** `stats` after the standard reading of a file processed as kind `k`: one more file, and its line counters. */
  function CountFile(st: AppStats, k: Kind, fs: Option<Stats>): (r: AppStats)
    ensures r.totalFiles == st.totalFiles + 1
    ensures k in r.filesByType && r.filesByType[k] == (if k in st.filesByType then st.filesByType[k] else 0) + 1
    ensures forall k' :: k' != k ==> (k' in r.filesByType <==> k' in st.filesByType)
    ensures forall k' :: k' != k && k' in st.filesByType ==> r.filesByType[k'] == st.filesByType[k']
    ensures r.cie10InvalidCodes == st.cie10InvalidCodes && r.coherenceIssues == st.coherenceIssues
    ensures r.correctionsApplied == st.correctionsApplied && r.duplicateAttentions == st.duplicateAttentions
  {
    var lines := fs.GetOr(Stats(0, 0, 0, 0));
    st.(totalFiles := st.totalFiles + 1,
        totalRecords := st.totalRecords + lines.totalLines,
        validRecords := st.validRecords + lines.validLines,
        invalidRecords := st.invalidRecords + lines.invalidLines,
        filesByType := st.filesByType[k := (if k in st.filesByType then st.filesByType[k] else 0) + 1])
  }

  /** The corrected lines are kept, and their corrections counted, only when corrections are applied and some were made. */
  function SaveCorrections(s: Phase1, autoCorrect: bool, file: string, p: PassResult): (r: Phase1)
    ensures r.errors == s.errors && r.invalidCodes == s.invalidCodes && r.corrections == s.corrections
    ensures r.keys == s.keys && r.buckets == s.buckets
  {
    if autoCorrect && p.records != [] then
      s.(correctedFiles := s.correctedFiles[file := p.correctedLines],
         stats := s.stats.(correctionsApplied := s.stats.correctionsApplied + |p.records|))
    else s
  }

  /**
   * The end of `process_file_with_advanced_validation`, once the first
   * reading `p` of file `file` (kind `k`) is absorbed: unless that reading
   * raised `failure`, the corrected lines are saved and the standard
   * reading `standard` of the raw file adds its errors and counters; an
   * exception instead adds one 'archivo' error at line 0.
   */
  function AfterFile(s: Phase1, p: PassResult, failure: Option<string>, standard: (seq<ValidationError>, Option<Stats>),
                     autoCorrect: bool, file: string, k: Kind): (r: Phase1)
    requires DistinctKeys(s.invalidCodes)
    ensures DistinctKeys(r.invalidCodes)
  {
    AfterReading(Absorb(s, p), p, failure, standard, autoCorrect, file, k)
  }

  /** The same, from the state `read` in which the first reading is already absorbed. */
  function AfterReading(read: Phase1, p: PassResult, failure: Option<string>, standard: (seq<ValidationError>, Option<Stats>),
                        autoCorrect: bool, file: string, k: Kind): (r: Phase1)
    ensures r.invalidCodes == read.invalidCodes
  {
    match failure
    case Some(reason) => read.(errors := read.errors + [CriticalError(file, reason)])
    case None =>
      FileCounted(SaveCorrections(read, autoCorrect, file, p), standard.0, standard.1, k)
  }

  /** The state once the standard reading of a file of kind `k` adds `errors` and counts `fs`. */
  function FileCounted(s: Phase1, errors: seq<ValidationError>, fs: Option<Stats>, k: Kind): (r: Phase1)
    ensures r.errors == s.errors + errors && r.invalidCodes == s.invalidCodes && r.correctedFiles == s.correctedFiles
  {
    s.(errors := s.errors + errors, stats := CountFile(s.stats, k, fs))
  }

  /** `process_file_with_advanced_validation` of target `t`. */
  function ProcessedFile(s: Phase1, c: Catalog, suggest: bool, autoCorrect: bool, rules: string -> (Record, int) -> seq<ValidationError>,
                         t: Target): (r: Phase1)
    requires DistinctKeys(s.invalidCodes)
    ensures DistinctKeys(r.invalidCodes)
  {
    AfterFile(s, FilePass(c, suggest, t), Failure(t.file), StandardValidation(t.file.path, t.file.contents, rules),
              autoCorrect, BaseName(t.file.path), t.kind)
  }

  /** The first phase: every target processed in turn. */
  function FirstPhase(s: Phase1, c: Catalog, suggest: bool, autoCorrect: bool, rules: string -> (Record, int) -> seq<ValidationError>,
                      ts: seq<Target>): (r: Phase1)
    requires DistinctKeys(s.invalidCodes)
    ensures DistinctKeys(r.invalidCodes)
    decreases |ts|
  {
    if ts == [] then s
    else ProcessedFile(FirstPhase(s, c, suggest, autoCorrect, rules, ts[..|ts| - 1]), c, suggest, autoCorrect, rules, ts[|ts| - 1])
  }

  /** The first phase over one more target. */
  lemma FirstPhaseSnoc(s: Phase1, c: Catalog, suggest: bool, autoCorrect: bool, rules: string -> (Record, int) -> seq<ValidationError>,
                       ts: seq<Target>, i: nat)
    requires DistinctKeys(s.invalidCodes) && i < |ts|
    ensures FirstPhase(s, c, suggest, autoCorrect, rules, ts[..i + 1])
            == ProcessedFile(FirstPhase(s, c, suggest, autoCorrect, rules, ts[..i]), c, suggest, autoCorrect, rules, ts[i])
  {
    assert ts[..i + 1][..i] == ts[..i];
  }

  /**
   * A file that reads without failure adds the errors of its first reading,
   * then those of the standard reading, and is counted as one more file of
   * its kind; one whose reading raises adds the errors of the lines read
   * before the exception and one 'archivo' error at line 0, and is neither
   * counted nor saved.
   */
  lemma AfterFileErrors(s: Phase1, p: PassResult, failure: Option<string>, standard: (seq<ValidationError>, Option<Stats>),
                        autoCorrect: bool, file: string, k: Kind)
    requires DistinctKeys(s.invalidCodes)
    ensures var r := AfterFile(s, p, failure, standard, autoCorrect, file, k);
            if failure.None? then
              r.errors == s.errors + p.errors + standard.0
              && r.stats.totalFiles == s.stats.totalFiles + 1 && k in r.stats.filesByType
            else
              r.errors == s.errors + p.errors + [CriticalError(file, failure.value)]
              && r.stats.totalFiles == s.stats.totalFiles && r.stats.filesByType == s.stats.filesByType
              && r.correctedFiles == s.correctedFiles
  {
    var read := Absorb(s, p);
    assert read.errors == s.errors + p.errors;
  }

  /**
   * Without `auto_correct` no corrected file is kept and no correction is
   * counted as applied, whatever `suggest_corrections` says; with it, a
   * file that reads without failure and had corrections is kept as its
   * corrected lines.
   */
  lemma CorrectedFilesKept(s: Phase1, p: PassResult, failure: Option<string>, standard: (seq<ValidationError>, Option<Stats>),
                           autoCorrect: bool, file: string, k: Kind)
    requires DistinctKeys(s.invalidCodes)
    ensures var r := AfterFile(s, p, failure, standard, autoCorrect, file, k);
            if autoCorrect && failure.None? && p.records != [] then
              r.correctedFiles == s.correctedFiles[file := p.correctedLines]
              && r.stats.correctionsApplied == s.stats.correctionsApplied + |p.records|
            else
              r.correctedFiles == s.correctedFiles && r.stats.correctionsApplied == s.stats.correctionsApplied
  {
  }

  /** Without either correction flag the first reading of a file records no correction. */
  lemma ValidationOnlyRecordsNothing(s: Phase1, c: Catalog, k: Kind, file: string, lines: seq<string>)
    requires DistinctKeys(s.invalidCodes)
    ensures Absorb(s, Pass(c, false, k, file, lines)).corrections == s.corrections
  {
    PassWithoutCorrections(c, k, file, lines);
  }

  // ---------------------------------------------------------------------
  // Collecting the files
  // ---------------------------------------------------------------------

  /** The order in which the first phase takes the kinds. */
  const KindOrder: seq<Kind> := [AF, US, AC, AP, AT, AH, AM, AN, CT]

  /** The kinds whose references are checked, in the order of `perform_cross_validation`. */
  const ReferenceKinds: seq<Kind> := [AC, AP, AT, AH, AM]

  /** The kind `detect_file_type` gives the name of a file. */
  function KindOfFile(f: InputFile): Option<Kind>
  {
    DetectFileType(BaseName(f.path))
  }

  /** `files_by_type[k]` of `collect_rips_files`, `kindOf` giving each file's kind: the files of kind `k`, in input order. */
  function FilesOfKind(files: seq<InputFile>, kindOf: InputFile -> Option<Kind>, k: Kind): (r: seq<InputFile>)
    ensures |r| <= |files|
    decreases |files|
  {
    if files == [] then []
    else
      var last := files[|files| - 1];
      FilesOfKind(files[..|files| - 1], kindOf, k) + (if kindOf(last) == Some(k) then [last] else [])
  }

  /** The files of kind `k` as targets of that kind. */
  function TargetsOfKind(files: seq<InputFile>, kindOf: InputFile -> Option<Kind>, k: Kind): (r: seq<Target>)
    ensures |r| == |FilesOfKind(files, kindOf, k)|
    ensures forall i :: 0 <= i < |r| ==> r[i] == Target(k, FilesOfKind(files, kindOf, k)[i])
  {
    var fs := FilesOfKind(files, kindOf, k);
    seq(|fs|, i requires 0 <= i < |fs| => Target(k, fs[i]))
  }

  /** The files of the kinds `ks`, kind by kind. */
  function Targets(files: seq<InputFile>, kindOf: InputFile -> Option<Kind>, ks: seq<Kind>): seq<Target>
    decreases |ks|
  {
    if ks == [] then [] else Targets(files, kindOf, ks[..|ks| - 1]) + TargetsOfKind(files, kindOf, ks[|ks| - 1])
  }

  /** Exactly the files of kind `k` are collected under `k`. */
  lemma {:induction false} FilesOfKindMembers(files: seq<InputFile>, kindOf: InputFile -> Option<Kind>, k: Kind, f: InputFile)
    ensures f in FilesOfKind(files, kindOf, k) <==> f in files && kindOf(f) == Some(k)
    decreases |files|
  {
    if files != [] {
      var prior := files[..|files| - 1];
      FilesOfKindMembers(prior, kindOf, k, f);
      assert files == prior + [files[|files| - 1]];
    }
  }

  /** A target of the kinds `ks` is a file of the input of that kind, one of `ks`. */
  lemma {:induction false} TargetsMembers(files: seq<InputFile>, kindOf: InputFile -> Option<Kind>, ks: seq<Kind>, t: Target)
    ensures t in Targets(files, kindOf, ks) <==> t.kind in ks && t.file in files && kindOf(t.file) == Some(t.kind)
    decreases |ks|
  {
    if ks != [] {
      var prior := ks[..|ks| - 1];
      var k := ks[|ks| - 1];
      var fs := FilesOfKind(files, kindOf, k);
      var ts := TargetsOfKind(files, kindOf, k);
      TargetsMembers(files, kindOf, prior, t);
      FilesOfKindMembers(files, kindOf, k, t.file);
      assert ks == prior + [k];
      if t in ts {
        var i :| 0 <= i < |ts| && ts[i] == t;
        assert fs[i] == t.file;
      }
      if t.kind == k && t.file in fs {
        var i :| 0 <= i < |fs| && fs[i] == t.file;
        assert ts[i] == t;
      }
    }
  }

  /**
   * The first phase processes every input file whose name gives a kind,
   * under that kind, and no other file.
   */
  lemma CollectedFiles(files: seq<InputFile>, t: Target)
    ensures t in Targets(files, KindOfFile, KindOrder) <==> t.file in files && KindOfFile(t.file) == Some(t.kind)
  {
    TargetsMembers(files, KindOfFile, KindOrder, t);
    EveryKindOrdered(t.kind);
  }

  /** Every kind has its place in `KindOrder`. */
  lemma EveryKindOrdered(k: Kind)
    ensures k in KindOrder
  {
    match k
    case AF => assert KindOrder[0] == AF;
    case US => assert KindOrder[1] == US;
    case AC => assert KindOrder[2] == AC;
    case AP => assert KindOrder[3] == AP;
    case AT => assert KindOrder[4] == AT;
    case AH => assert KindOrder[5] == AH;
    case AM => assert KindOrder[6] == AM;
    case AN => assert KindOrder[7] == AN;
    case CT => assert KindOrder[8] == CT;
  }

  // ---------------------------------------------------------------------
  // The records of the second phase
  // ---------------------------------------------------------------------

  /** The fields of the non-blank lines of `lines` that have at least `n` of them, each line stripped and split at commas. */
  function FieldRows(lines: seq<string>, n: nat): (r: seq<seq<string>>)
    ensures |r| <= |lines|
    ensures forall i :: 0 <= i < |r| ==> |r[i]| >= n
    decreases |lines|
  {
    if lines == [] then []
    else
      var fields := Split(Strip(lines[|lines| - 1]), ',');
      FieldRows(lines[..|lines| - 1], n) + (if Strip(lines[|lines| - 1]) != [] && |fields| >= n then [fields] else [])
  }

  /** The rows of one more line. */
  lemma FieldRowsSnoc(lines: seq<string>, i: nat, n: nat)
    requires i < |lines|
    ensures FieldRows(lines[..i + 1], n)
            == FieldRows(lines[..i], n)
               + (if Strip(lines[i]) != [] && |Split(Strip(lines[i]), ',')| >= n then [Split(Strip(lines[i]), ',')] else [])
  {
    assert lines[..i + 1][..i] == lines[..i];
  }

  /**
   * The rows of a file: a file that is missing or cannot be read through
   * gives none, because the exception is caught before its records are
   * handed over.
   */
  function FileRows(f: InputFile, n: nat): (r: seq<seq<string>>)
    ensures forall i :: 0 <= i < |r| ==> |r[i]| >= n
  {
    match f.contents
    case Lines(ls) => FieldRows(ls, n)
    case _ => []
  }

  /** The AF records: the invoice number from the fifth field, the provider from the first. */
  function AfEntriesOf(rows: seq<seq<string>>): (r: seq<AFEntry>)
    requires forall i :: 0 <= i < |rows| ==> |rows[i]| >= 5
  {
    seq(|rows|, i requires 0 <= i < |rows| => AFEntry(rows[i][4], rows[i][0]))
  }

  /** The US records: the document type from the first field, the number from the second. */
  function UsEntriesOf(rows: seq<seq<string>>): (r: seq<USEntry>)
    requires forall i :: 0 <= i < |rows| ==> |rows[i]| >= 2
  {
    seq(|rows|, i requires 0 <= i < |rows| => USEntry(rows[i][0], rows[i][1]))
  }

  /** The service records: the invoice from the first field, the patient's document from the third and fourth. */
  function ReferencesOf(rows: seq<seq<string>>): (r: seq<Reference>)
    requires forall i :: 0 <= i < |rows| ==> |rows[i]| >= 4
  {
    seq(|rows|, i requires 0 <= i < |rows| => Reference(rows[i][0], rows[i][2], rows[i][3]))
  }

  /** The invoice numbers the AF files `fs` register, file by file. */
  function LoadedInvoices(fs: seq<InputFile>): seq<string>
    decreases |fs|
  {
    if fs == [] then [] else LoadedInvoices(fs[..|fs| - 1]) + Invoices(AfEntriesOf(FileRows(fs[|fs| - 1], 5)))
  }

  /** The patients the US files `fs` register, file by file. */
  function LoadedUsers(fs: seq<InputFile>): seq<UserKey>
    decreases |fs|
  {
    if fs == [] then [] else LoadedUsers(fs[..|fs| - 1]) + Users(UsEntriesOf(FileRows(fs[|fs| - 1], 2)))
  }

  /** The fix text of the reference validator of kind `k`, for the five kinds that have one. */
  function ReferenceFix(k: Kind): Option<string>
  {
    match k
    case AC => Some(AcInvoiceFix)
    case AP => Some(InvoiceFix)
    case AT => Some(InvoiceFix)
    case AH => Some(InvoiceFix)
    case AM => Some(InvoiceFix)
    case _ => None
  }

  /** The reference errors of target `t` against the registered invoices and patients; none for a kind without a validator. */
  function FileCrossErrors(facturas: set<string>, usuarios: set<UserKey>, t: Target): seq<ValidationError>
  {
    match ReferenceFix(t.kind)
    case None => []
    case Some(fix) => ReferenceErrors(facturas, usuarios, ReferencesOf(FileRows(t.file, 4)), BaseName(t.file.path), 1, fix)
  }

  /** The reference errors of the targets `ts`, in order. */
  function CrossErrors(facturas: set<string>, usuarios: set<UserKey>, ts: seq<Target>): seq<ValidationError>
    decreases |ts|
  {
    if ts == [] then [] else CrossErrors(facturas, usuarios, ts[..|ts| - 1]) + FileCrossErrors(facturas, usuarios, ts[|ts| - 1])
  }

  /** The reference errors of one more target. */
  lemma CrossErrorsSnoc(facturas: set<string>, usuarios: set<UserKey>, ts: seq<Target>, i: nat)
    requires i < |ts|
    ensures CrossErrors(facturas, usuarios, ts[..i + 1]) == CrossErrors(facturas, usuarios, ts[..i]) + FileCrossErrors(facturas, usuarios, ts[i])
  {
    assert ts[..i + 1][..i] == ts[..i];
  }

  // ---------------------------------------------------------------------
  // The application
  // ---------------------------------------------------------------------

  class ValidatorApp {
    const autoCorrect: bool
    const suggestCorrections: bool
    const fileReader: RipsFileReader
    const detector: DuplicateAttentionDetector
    const cie10Validator: Cie10Validator
    const crossValidator: CrossFileValidator
    const autoCorrector: Corrector.AutoCorrector
    var allErrors: seq<ValidationError>
    var correctedFiles: map<string, seq<string>>
    var stats: AppStats

    /** The components keep their own invariants. */
    ghost predicate Valid()
      reads detector, cie10Validator, crossValidator
    {
      Ready() && crossValidator.Valid()
    }

    /** The invariants of the components the first phase uses. */
    ghost predicate Ready()
      reads detector, cie10Validator
    {
      (autoCorrect ==> suggestCorrections)
      && detector.Valid() && cie10Validator.catalog.Valid() && DistinctKeys(cie10Validator.invalidCodes)
    }

    /** The state the first phase changes. */
    function Phase(): Phase1
      reads this, detector, cie10Validator, autoCorrector
    {
      Phase1(allErrors, stats, correctedFiles, cie10Validator.invalidCodes, detector.keys, detector.buckets,
             autoCorrector.corrections)
    }

    /**
     * `__init__`: suggesting is on whenever correcting is; the components
     * start empty and share the catalog of the registry.  The file reader,
     * with its table of rule sets, is built by the caller.
     */
    constructor (autoCorrect: bool, suggestCorrections: bool, fileReader: RipsFileReader, registry: Registry)
      requires registry.Valid()
      modifies registry
      ensures Valid()
      ensures this.autoCorrect == autoCorrect && this.suggestCorrections == (suggestCorrections || autoCorrect)
      ensures this.fileReader == fileReader
      ensures Phase() == Phase1([], NoAppStats, map[], [], [], map[], [])
      ensures fresh(detector) && fresh(cie10Validator) && fresh(crossValidator) && fresh(autoCorrector)
      ensures crossValidator.facturasAf == {} && crossValidator.usuariosUs == {}
      ensures crossValidator.facturasDuplicadas == [] && crossValidator.usuariosDuplicados == []
    {
      this.autoCorrect := autoCorrect;
      this.suggestCorrections := suggestCorrections || autoCorrect;
      this.fileReader := fileReader;
      crossValidator := new CrossFileValidator();
      detector := new DuplicateAttentionDetector();
      cie10Validator := new Cie10Validator(registry);
      autoCorrector := new Corrector.AutoCorrector(autoCorrect, registry);
      allErrors := [];
      correctedFiles := map[];
      stats := NoAppStats;
    }

    /**
     * `_validate_cie10_in_record`: every ICD-10 field of the kind that the
     * line is long enough to have goes through `validate_code`; its errors
     * are kept and counted.
     */
    method ValidateCie10InRecord(fields: seq<string>, k: Kind, filename: string, lineNumber: int)
      requires Ready()
      modifies this, cie10Validator
      ensures Ready()
      ensures Cie10Done(old(Phase()), Phase(), cie10Validator.catalog, k, fields, filename, lineNumber)
    {
      var slots := Cie10Slots(k);
      var errors := CheckSlots(cie10Validator, slots, fields, filename, lineNumber);
      AddCie10Errors(errors);
    }

    /**
     * `_register_attention`: AC, AP and AT lines of at least seven fields
     * add one entry to the detector; AH is dispatched here but has no branch.
     */
    method RegisterAttention(fields: seq<string>, k: Kind, filename: string, lineNumber: int)
      requires Ready()
      modifies detector
      ensures Ready()
      ensures AttentionDone(old(Phase()), Phase(), k, fields, filename, lineNumber)
    {
      if k == AC && |fields| >= 7 {
        detector.RegisterAttention(fields[2], fields[3], fields[4], "consulta", fields[6], filename, lineNumber);
      } else if k == AP && |fields| >= 7 {
        detector.RegisterAttention(fields[2], fields[3], fields[4], "procedimiento", fields[6], filename, lineNumber);
      } else if k == AT && |fields| >= 7 {
        detector.RegisterAttention(fields[2], fields[3], "", "servicio", fields[6], filename, lineNumber);
      }
    }

    /**
     * `_validate_coherence_in_record`: the finality, sex and (when the age
     * is an integer) age checks of an AC line of at least 22 fields; the
     * statistic grows by the last list computed.
     */
    method ValidateCoherenceInRecord(fields: seq<string>, k: Kind, filename: string, lineNumber: int)
      requires Ready()
      modifies this
      ensures Ready()
      ensures CoherenceDone(old(Phase()), Phase(), k, fields, filename, lineNumber)
    {
      if k == AC && |fields| >= 22 {
        var added, errors := CoherenceChecks(fields, filename, lineNumber);
        allErrors := allErrors + added;
        if errors != [] {
          stats := stats.(coherenceIssues := stats.coherenceIssues + |errors|);
        }
      } else {
        assert allErrors + [] == allErrors;
      }
    }

    /**
     * The body of the loop of `process_file_with_advanced_validation` for a
     * non-blank line: the stripped line is corrected when corrections are
     * suggested, and the corrected line goes through the checks of its kind.
     */
    method ProcessLine(k: Kind, filename: string, line: string, lineNumber: int)
      returns (correctedLine: string, corrections: seq<Corrector.CorrectionRecord>)
      requires Ready()
      modifies this, detector, cie10Validator, autoCorrector
      ensures Ready()
      ensures correctedLine == CorrectedLine(suggestCorrections, k, filename, line, lineNumber)
      ensures corrections == LineRecords(suggestCorrections, k, filename, line, lineNumber)
      ensures Phase() == Step(old(Phase()), ChecksOf(cie10Validator.catalog, k, filename, lineNumber, correctedLine, corrections))
    {
      ghost var s0 := Phase();
      correctedLine, corrections := CorrectLine(k, filename, line, lineNumber);
      CheckLine(k, filename, lineNumber, correctedLine, s0, corrections);
    }

    /**
     * The loop of `process_file_with_advanced_validation` over the lines of
     * a file of kind `k`: blank lines are skipped, every other line is
     * processed with its number (from 1); the kept lines and the records of
     * the file are collected.
     */
    method FirstReading(k: Kind, filename: string, lines: seq<string>)
      returns (correctedLines: seq<string>, records: seq<Corrector.CorrectionRecord>)
      requires Ready()
      modifies this, detector, cie10Validator, autoCorrector
      ensures Ready()
      ensures ReadSoFar(old(Phase()), OutcomeFn(cie10Validator.catalog, suggestCorrections, k, filename), lines, Phase(),
                        correctedLines, records)
    {
      ghost var s0 := Phase();
      ghost var outcome := OutcomeFn(cie10Validator.catalog, suggestCorrections, k, filename);
      correctedLines, records := [], [];
      AbsorbNothing(s0);
      for i := 0 to |lines|
        invariant Ready()
        invariant ReadSoFar(s0, outcome, lines[..i], Phase(), correctedLines, records)
      {
        ghost var prev := Phase();
        ghost var o := outcome(lines[i], i + 1);
        if Strip(lines[i]) != [] {
          var corrected, corrections := ProcessLine(k, filename, lines[i], i + 1);
          OutcomeFnApply(cie10Validator.catalog, suggestCorrections, k, filename, lines[i], i + 1);
          ReadingStep(s0, outcome, lines, i, prev, Phase(), correctedLines, records, o);
          correctedLines := correctedLines + [corrected];
          records := records + corrections;
        } else {
          ReadingStep(s0, outcome, lines, i, prev, Phase(), correctedLines, records, o);
        }
      }
      assert lines[..|lines|] == lines;
    }

    /**
     * `process_file_with_advanced_validation` of target `t`: the first
     * reading of its lines, then, unless that reading raised, the corrected
     * lines saved when corrections are applied and the standard reading of
     * the file counted; an exception adds one 'archivo' error instead.
     */
    method ProcessFile(t: Target)
      requires Ready()
      modifies this, detector, cie10Validator, autoCorrector
      ensures Ready()
      ensures Phase() == ProcessedFile(old(Phase()), cie10Validator.catalog, suggestCorrections, autoCorrect, fileReader.rules, t)
    {
      ghost var s0 := Phase();
      var filename := BaseName(t.file.path);
      var correctedLines, records := FirstReading(t.kind, filename, ReadLines(t.file.contents));
      FinishFile(t, filename, correctedLines, records, FilePass(cie10Validator.catalog, suggestCorrections, t));
    }

    /**
     * The state after the second and third phases, from the state `first`
     * the first phase left and the invoices, patients and counters the
     * cross-file validator held before loading: the detector's buckets and
     * the kept files are those of `first`; the errors are those of `first`,
     * then the reference errors of the service files against every invoice
     * and patient now registered, then the repeated invoices and patients,
     * then the repeated attentions, which are also counted when there are
     * any.
     */
    ghost predicate LaterPhasesDone(first: Phase1, facturas: set<string>, usuarios: set<UserKey>,
                                    invoiceCounts: seq<Entry<string>>, userCounts: seq<Entry<UserKey>>, files: seq<InputFile>)
      reads this, detector
      requires detector.Valid() && DistinctKeys(invoiceCounts) && DistinctKeys(userCounts)
    {
      var invoices := LoadedInvoices(FilesOfKind(files, KindOfFile, AF));
      var users := LoadedUsers(FilesOfKind(files, KindOfFile, US));
      var repeated := AllDuplicates(detector.keys, detector.buckets);
      detector.keys == first.keys && detector.buckets == first.buckets && correctedFiles == first.correctedFiles
      && allErrors == first.errors
                      + CrossErrors(facturas + Elements(invoices), usuarios + Elements(users), Targets(files, KindOfFile, ReferenceKinds))
                      + (InvoiceDuplicateErrors(BumpAll(invoiceCounts, invoices)) + UserDuplicateErrors(BumpAll(userCounts, users)))
                      + repeated
      && stats == if repeated == [] then first.stats else first.stats.(duplicateAttentions := |repeated|)
    }

    /**
     * `run` over the `.txt` files `files` of the input directory, which
     * exists when `inputExists` holds: it gives up, changing nothing, unless
     * the directory exists and some file has a RIPS name; otherwise the
     * first phase processes every file kind by kind, and the later phases
     * follow.
     */
    method Run(inputExists: bool, files: seq<InputFile>) returns (ok: bool)
      requires Valid()
      modifies this, detector, cie10Validator, autoCorrector, crossValidator
      ensures Valid()
      ensures ok <==> inputExists && files != [] && Targets(files, KindOfFile, KindOrder) != []
      ensures !ok ==> Phase() == old(Phase())
      ensures ok ==> LaterPhasesDone(FirstPhase(old(Phase()), cie10Validator.catalog, suggestCorrections, autoCorrect, fileReader.rules,
                                                Targets(files, KindOfFile, KindOrder)),
                                     old(crossValidator.facturasAf), old(crossValidator.usuariosUs),
                                     old(crossValidator.facturasDuplicadas), old(crossValidator.usuariosDuplicados), files)
    {
      if !inputExists || files == [] {
        return false;
      }
      var targets := Targets(files, KindOfFile, KindOrder);
      if targets == [] {
        return false;
      }
      RunFirstPhase(targets);
      LaterPhases(files, Phase());
      return true;
    }

    /** The second and third phases of `run`, from the state `first` the first phase left. */
    method LaterPhases(files: seq<InputFile>, ghost first: Phase1)
      requires Valid() && Phase() == first
      modifies this, detector, crossValidator
      ensures Valid()
      ensures LaterPhasesDone(first, old(crossValidator.facturasAf), old(crossValidator.usuariosUs),
                              old(crossValidator.facturasDuplicadas), old(crossValidator.usuariosDuplicados), files)
    {
      var afs, uss := FilesOfKind(files, KindOfFile, AF), FilesOfKind(files, KindOfFile, US);
      ghost var cv := crossValidator;
      ghost var fa0, us0, fd0, ud0 := cv.facturasAf, cv.usuariosUs, cv.facturasDuplicadas, cv.usuariosDuplicados;
      LoadReferences(afs, uss);
      ghost var fa1, us1, fd1, ud1 := cv.facturasAf, cv.usuariosUs, cv.facturasDuplicadas, cv.usuariosDuplicados;
      assert Phase() == first;
      PerformCrossValidation(Targets(files, KindOfFile, ReferenceKinds));
      ghost var e2 := allErrors;
      assert e2 == first.errors + CrossErrors(fa1, us1, Targets(files, KindOfFile, ReferenceKinds))
                   + (InvoiceDuplicateErrors(fd1) + UserDuplicateErrors(ud1));
      assert stats == first.stats && correctedFiles == first.correctedFiles;
      assert detector.keys == first.keys && detector.buckets == first.buckets;
      DetectDuplicateAttentions();
      assert fa1 == fa0 + Elements(LoadedInvoices(afs)) && us1 == us0 + Elements(LoadedUsers(uss));
      assert fd1 == BumpAll(fd0, LoadedInvoices(afs)) && ud1 == BumpAll(ud0, LoadedUsers(uss));
    }

    /** The first phase of `run`: every target processed in turn. */
    method RunFirstPhase(ts: seq<Target>)
      requires Ready()
      modifies this, detector, cie10Validator, autoCorrector
      ensures Ready()
      ensures Phase() == FirstPhase(old(Phase()), cie10Validator.catalog, suggestCorrections, autoCorrect, fileReader.rules, ts)
    {
      ghost var s0 := Phase();
      for i := 0 to |ts|
        invariant Ready()
        invariant Phase() == FirstPhase(s0, cie10Validator.catalog, suggestCorrections, autoCorrect, fileReader.rules, ts[..i])
      {
        ProcessFile(ts[i]);
        FirstPhaseSnoc(s0, cie10Validator.catalog, suggestCorrections, autoCorrect, fileReader.rules, ts, i);
      }
      assert ts[..|ts|] == ts;
    }

    /** The rest of `process_file_with_advanced_validation` once the first reading `p` of `t` is absorbed. */
    method FinishFile(t: Target, filename: string, correctedLines: seq<string>, records: seq<Corrector.CorrectionRecord>,
                      ghost p: PassResult)
      requires filename == BaseName(t.file.path) && correctedLines == p.correctedLines && records == p.records
      modifies this
      ensures Phase() == AfterReading(old(Phase()), p, Failure(t.file), StandardValidation(t.file.path, t.file.contents, fileReader.rules),
                                      autoCorrect, filename, t.kind)
    {
      match Failure(t.file)
      case Some(reason) =>
        FailedFile(filename, reason);
      case None =>
        SaveFile(filename, correctedLines, records, p);
        var _, _ := StandardReading(t);
    }

    /** A file whose first reading raised: one 'archivo' error at line 0. */
    method FailedFile(filename: string, reason: string)
      modifies this
      ensures Phase() == old(Phase()).(errors := old(Phase()).errors + [CriticalError(filename, reason)])
    {
      allErrors := allErrors + [CriticalError(filename, reason)];
    }

    /** The corrected lines kept and their corrections counted, when corrections are applied and some were made. */
    method SaveFile(filename: string, correctedLines: seq<string>, records: seq<Corrector.CorrectionRecord>, ghost p: PassResult)
      requires correctedLines == p.correctedLines && records == p.records
      modifies this
      ensures Phase() == SaveCorrections(old(Phase()), autoCorrect, filename, p)
    {
      if autoCorrect && records != [] {
        correctedFiles := correctedFiles[filename := correctedLines];
        stats := stats.(correctionsApplied := stats.correctionsApplied + |records|);
      }
    }

    /** `read_and_validate_file` of `t`: its errors kept, the file and its line counters counted under kind `t.kind`. */
    method StandardReading(t: Target) returns (errors: seq<ValidationError>, fileStats: Option<Stats>)
      modifies this
      ensures (errors, fileStats) == StandardValidation(t.file.path, t.file.contents, fileReader.rules)
      ensures Phase() == FileCounted(old(Phase()), errors, fileStats, t.kind)
    {
      errors, fileStats := ReadStandard(fileReader, t);
      CountReading(errors, fileStats, t.kind);
    }

    /** The errors of one standard reading kept, and the file and its line counters counted under kind `k`. */
    method CountReading(errors: seq<ValidationError>, fileStats: Option<Stats>, k: Kind)
      modifies this
      ensures Phase() == FileCounted(old(Phase()), errors, fileStats, k)
    {
      stats := CountFile(stats, k, fileStats);
      allErrors := allErrors + errors;
    }

    /**
     * `load_af_us_for_cross_validation`: the records of every AF file, then
     * of every US file, handed to the cross-file validator file by file.
     */
    method LoadReferences(afFiles: seq<InputFile>, usFiles: seq<InputFile>)
      requires crossValidator.Valid()
      modifies crossValidator
      ensures crossValidator.Valid()
      ensures crossValidator.facturasAf == old(crossValidator.facturasAf) + Elements(LoadedInvoices(afFiles))
      ensures crossValidator.facturasDuplicadas == BumpAll(old(crossValidator.facturasDuplicadas), LoadedInvoices(afFiles))
      ensures crossValidator.usuariosUs == old(crossValidator.usuariosUs) + Elements(LoadedUsers(usFiles))
      ensures crossValidator.usuariosDuplicados == BumpAll(old(crossValidator.usuariosDuplicados), LoadedUsers(usFiles))
    {
      LoadInvoices(afFiles);
      LoadUsers(usFiles);
    }

    /** The AF half of `load_af_us_for_cross_validation`: the invoices of every AF file registered; the patients untouched. */
    method LoadInvoices(afFiles: seq<InputFile>)
      requires crossValidator.Valid()
      modifies crossValidator
      ensures crossValidator.Valid()
      ensures crossValidator.facturasAf == old(crossValidator.facturasAf) + Elements(LoadedInvoices(afFiles))
      ensures crossValidator.facturasDuplicadas == BumpAll(old(crossValidator.facturasDuplicadas), LoadedInvoices(afFiles))
      ensures crossValidator.usuariosUs == old(crossValidator.usuariosUs)
      ensures crossValidator.usuariosDuplicados == old(crossValidator.usuariosDuplicados)
    {
      var cv := crossValidator;
      for i := 0 to |afFiles|
        invariant cv.Valid()
        invariant forall x :: x in cv.facturasAf <==> x in old(cv.facturasAf) || x in LoadedInvoices(afFiles[..i])
        invariant cv.facturasDuplicadas == BumpAll(old(cv.facturasDuplicadas), LoadedInvoices(afFiles[..i]))
        invariant cv.usuariosUs == old(cv.usuariosUs) && cv.usuariosDuplicados == old(cv.usuariosDuplicados)
      {
        assert afFiles[..i + 1][..i] == afFiles[..i];
        var rows := ReadFileRows(afFiles[i], 5);
        cv.RegisterAfData(AfEntriesOf(rows), BaseName(afFiles[i].path));
        BumpAllAppend(old(cv.facturasDuplicadas), LoadedInvoices(afFiles[..i]), Invoices(AfEntriesOf(rows)));
      }
      assert afFiles[..|afFiles|] == afFiles;
      assert cv.facturasAf == old(cv.facturasAf) + Elements(LoadedInvoices(afFiles));
    }

    /** The US half of `load_af_us_for_cross_validation`: the patients of every US file registered; the invoices untouched. */
    method LoadUsers(usFiles: seq<InputFile>)
      requires crossValidator.Valid()
      modifies crossValidator
      ensures crossValidator.Valid()
      ensures crossValidator.facturasAf == old(crossValidator.facturasAf)
      ensures crossValidator.facturasDuplicadas == old(crossValidator.facturasDuplicadas)
      ensures crossValidator.usuariosUs == old(crossValidator.usuariosUs) + Elements(LoadedUsers(usFiles))
      ensures crossValidator.usuariosDuplicados == BumpAll(old(crossValidator.usuariosDuplicados), LoadedUsers(usFiles))
    {
      var cv := crossValidator;
      for i := 0 to |usFiles|
        invariant cv.Valid()
        invariant cv.facturasAf == old(cv.facturasAf) && cv.facturasDuplicadas == old(cv.facturasDuplicadas)
        invariant forall u :: u in cv.usuariosUs <==> u in old(cv.usuariosUs) || u in LoadedUsers(usFiles[..i])
        invariant cv.usuariosDuplicados == BumpAll(old(cv.usuariosDuplicados), LoadedUsers(usFiles[..i]))
      {
        assert usFiles[..i + 1][..i] == usFiles[..i];
        var rows := ReadFileRows(usFiles[i], 2);
        cv.RegisterUsData(UsEntriesOf(rows), BaseName(usFiles[i].path));
        BumpAllAppend(old(cv.usuariosDuplicados), LoadedUsers(usFiles[..i]), Users(UsEntriesOf(rows)));
      }
      assert usFiles[..|usFiles|] == usFiles;
      assert cv.usuariosUs == old(cv.usuariosUs) + Elements(LoadedUsers(usFiles));
    }

    /**
     * `perform_cross_validation`: the records of every target of a kind with
     * a reference validator go through it, in order, and its errors are
     * kept; then the errors of `check_duplicates` are added.  Registered
     * invoices and patients do not change.
     */
    method PerformCrossValidation(ts: seq<Target>)
      requires crossValidator.Valid()
      modifies this, crossValidator
      ensures crossValidator.Valid()
      ensures allErrors == old(allErrors) + CrossErrors(old(crossValidator.facturasAf), old(crossValidator.usuariosUs), ts)
                           + (InvoiceDuplicateErrors(old(crossValidator.facturasDuplicadas))
                              + UserDuplicateErrors(old(crossValidator.usuariosDuplicados)))
      ensures crossValidator.facturasAf == old(crossValidator.facturasAf) && crossValidator.usuariosUs == old(crossValidator.usuariosUs)
      ensures crossValidator.facturasDuplicadas == old(crossValidator.facturasDuplicadas)
      ensures crossValidator.usuariosDuplicados == old(crossValidator.usuariosDuplicados)
      ensures stats == old(stats) && correctedFiles == old(correctedFiles)
    {
      var cv := crossValidator;
      var found := [];
      for i := 0 to |ts|
        modifies cv
        invariant cv.Valid()
        invariant cv.facturasAf == old(cv.facturasAf) && cv.usuariosUs == old(cv.usuariosUs)
        invariant cv.facturasDuplicadas == old(cv.facturasDuplicadas) && cv.usuariosDuplicados == old(cv.usuariosDuplicados)
        invariant found == CrossErrors(cv.facturasAf, cv.usuariosUs, ts[..i])
      {
        var errors := CrossValidateFile(ts[i]);
        CrossErrorsSnoc(cv.facturasAf, cv.usuariosUs, ts, i);
        found := found + errors;
      }
      assert ts[..|ts|] == ts;
      var duplicates := cv.CheckDuplicates();
      allErrors := allErrors + found + duplicates;
    }

    /** One target of `perform_cross_validation`: its records through the `validate_*_references` method of its kind. */
    method CrossValidateFile(t: Target) returns (errors: seq<ValidationError>)
      requires crossValidator.Valid()
      modifies crossValidator
      ensures crossValidator.Valid()
      ensures errors == FileCrossErrors(crossValidator.facturasAf, crossValidator.usuariosUs, t)
      ensures crossValidator.facturasAf == old(crossValidator.facturasAf) && crossValidator.usuariosUs == old(crossValidator.usuariosUs)
      ensures crossValidator.facturasDuplicadas == old(crossValidator.facturasDuplicadas)
      ensures crossValidator.usuariosDuplicados == old(crossValidator.usuariosDuplicados)
    {
      var rows := ReadFileRows(t.file, 4);
      var records := ReferencesOf(rows);
      var filename := BaseName(t.file.path);
      match ReferenceFix(t.kind)
      case None => errors := [];
      case Some(fix) => errors := crossValidator.ValidateReferences(records, filename, 1, fix);
    }

    /** `detect_duplicate_attentions`: the repeats of every bucket are kept, and counted when there are any. */
    method DetectDuplicateAttentions()
      requires Ready()
      modifies this, detector
      ensures Ready()
      ensures detector.keys == old(detector.keys) && detector.buckets == old(detector.buckets)
      ensures var found := AllDuplicates(detector.keys, detector.buckets);
              allErrors == old(allErrors) + found
              && stats == if found == [] then old(stats) else old(stats).(duplicateAttentions := |found|)
      ensures correctedFiles == old(correctedFiles)
    {
      var found := detector.DetectDuplicates();
      if found != [] {
        stats := stats.(duplicateAttentions := |found|);
        allErrors := allErrors + found;
      }
    }

    /** The corrections of the loop body: `apply_safe_corrections` on the stripped line, when corrections are suggested. */
    method CorrectLine(k: Kind, filename: string, line: string, lineNumber: int)
      returns (correctedLine: string, corrections: seq<Corrector.CorrectionRecord>)
      modifies autoCorrector
      ensures correctedLine == CorrectedLine(suggestCorrections, k, filename, line, lineNumber)
      ensures corrections == LineRecords(suggestCorrections, k, filename, line, lineNumber)
      ensures autoCorrector.corrections == old(autoCorrector.corrections) + corrections
    {
      var originalLine := Strip(line);
      correctedLine, corrections := originalLine, [];
      if suggestCorrections {
        correctedLine, corrections := Corrector.ApplySafeCorrections(originalLine, lineNumber, filename, Code(k), autoCorrector);
      }
    }

    /** The checks of the loop body: ICD-10 for AC, AP and AH, attentions for AC, AP, AT and AH, coherence for AC and AP. */
    method CheckLine(k: Kind, filename: string, lineNumber: int, correctedLine: string, ghost s: Phase1,
                     ghost records: seq<Corrector.CorrectionRecord>)
      requires Ready() && DistinctKeys(s.invalidCodes) && Phase() == s.(corrections := s.corrections + records)
      modifies this, detector, cie10Validator
      ensures Ready()
      ensures Phase() == Step(s, ChecksOf(cie10Validator.catalog, k, filename, lineNumber, correctedLine, records))
    {
      var fields := Split(correctedLine, ',');
      ghost var s0 := Phase();
      if k == AC || k == AP || k == AH {
        ValidateCie10InRecord(fields, k, filename, lineNumber);
      } else {
        Cie10Skipped(s0, cie10Validator.catalog, k, fields, filename, lineNumber);
      }
      ghost var s1 := Phase();
      if k == AC || k == AP || k == AT || k == AH {
        RegisterAttention(fields, k, filename, lineNumber);
      } else {
        AttentionSkipped(s1, k, fields, filename, lineNumber);
      }
      ghost var s2 := Phase();
      if k == AC || k == AP {
        ValidateCoherenceInRecord(fields, k, filename, lineNumber);
      } else {
        CoherenceSkipped(s2, k, fields, filename, lineNumber);
      }
      ChecksCompose(s, records, s1, s2, Phase(), cie10Validator.catalog, k, filename, lineNumber, correctedLine);
    }

    /** The end of `_validate_cie10_in_record`: a non-empty list of errors is kept and counted. */
    method AddCie10Errors(errors: seq<ValidationError>)
      modifies this
      ensures allErrors == old(allErrors) + errors
      ensures stats == old(stats).(cie10InvalidCodes := old(stats.cie10InvalidCodes) + |errors|)
      ensures correctedFiles == old(correctedFiles)
    {
      if errors != [] {
        allErrors := allErrors + errors;
        stats := stats.(cie10InvalidCodes := stats.cie10InvalidCodes + |errors|);
      } else {
        assert allErrors == old(allErrors) + errors;
      }
    }
  }

  /** The rows of the lines of `lines` that have at least `n` fields, read line by line. */
  method ReadRows(lines: seq<string>, n: nat) returns (rows: seq<seq<string>>)
    ensures rows == FieldRows(lines, n)
  {
    rows := [];
    for i := 0 to |lines|
      invariant rows == FieldRows(lines[..i], n)
    {
      FieldRowsSnoc(lines, i, n);
      var line := Strip(lines[i]);
      if line != [] {
        var fields := Split(line, ',');
        if |fields| >= n {
          rows := rows + [fields];
        }
      }
    }
    assert lines[..|lines|] == lines;
  }

  /** The rows of file `f`; none when it cannot be read through. */
  method ReadFileRows(f: InputFile, n: nat) returns (rows: seq<seq<string>>)
    ensures rows == FileRows(f, n)
  {
    match f.contents
    case Lines(ls) => rows := ReadRows(ls, n);
    case _ => rows := [];
  }

  /** The errors and counters of `read_and_validate_file` on `t`. */
  method ReadStandard(reader: RipsFileReader, t: Target) returns (errors: seq<ValidationError>, fileStats: Option<Stats>)
    ensures (errors, fileStats) == StandardValidation(t.file.path, t.file.contents, reader.rules)
  {
    var kind;
    kind, errors, fileStats := reader.ReadAndValidateFile(t.file.path, t.file.contents);
    StandardReadingResult(t.file.path, t.file.contents, reader.rules, kind, errors, fileStats);
  }

  /**
   * The checks of `_validate_coherence_in_record` on an AC line of at least
   * 22 fields: all the errors, and the list computed last, whose length the
   * statistic grows by.
   */
  method CoherenceChecks(fields: seq<string>, filename: string, lineNumber: int)
    returns (added: seq<ValidationError>, errors: seq<ValidationError>)
    requires |fields| >= 22
    ensures CoherenceOf(AC, fields, filename, lineNumber) == CoherenceStep(added, |errors|)
  {
    var finalidad, codCups, diagnostico, sexo, edad, unidadEdad :=
      fields[9], fields[6], fields[11], fields[21], fields[19], fields[20];
    errors := ValidateCoherence(finalidad, codCups, diagnostico, filename, lineNumber, "");
    added := errors;
    errors := ValidateGenderDiagnosis(sexo, diagnostico, filename, lineNumber);
    added := added + errors;
    var age := AgeValue(edad);
    if age.Some? {
      errors := AgeCoherence(age.value, unidadEdad, diagnostico, filename, lineNumber);
      added := added + errors;
    }
  }

  /** The loop of `_validate_cie10_in_record` over the slots, collecting the errors in slot order. */
  method CheckSlots(v: Cie10Validator, slots: seq<Slot>, fields: seq<string>, filename: string, lineNumber: int)
    returns (errors: seq<ValidationError>)
    requires v.catalog.Valid() && DistinctKeys(v.invalidCodes)
    modifies v
    ensures errors == Cie10Errors(v.catalog, slots, fields, filename, lineNumber)
    ensures DistinctKeys(v.invalidCodes)
    ensures v.invalidCodes == BumpAll(old(v.invalidCodes), RejectedCodes(v.catalog, slots, fields))
  {
    var c := v.catalog;
    ghost var codes0 := v.invalidCodes;
    errors := [];
    for i := 0 to |slots|
      invariant DistinctKeys(v.invalidCodes)
      invariant errors == Cie10Errors(c, slots[..i], fields, filename, lineNumber)
      invariant v.invalidCodes == BumpAll(codes0, RejectedCodes(c, slots[..i], fields))
    {
      var slot := slots[i];
      Cie10ErrorsSnoc(c, slots, i, fields, filename, lineNumber);
      RejectedCodesSnoc(c, slots, i, fields);
      ghost var prior := RejectedCodes(c, slots[..i], fields);
      if slot.index < |fields| {
        var es := v.ValidateCode(fields[slot.index], slot.fieldName, filename, lineNumber, slot.required);
        errors := errors + es;
        if Rejected(c, fields[slot.index]) {
          BumpAllSnoc(codes0, prior, fields[slot.index]);
        } else {
          assert prior + RejectedOf(c, slot, fields) == prior;
        }
      } else {
        assert prior + RejectedOf(c, slot, fields) == prior;
      }
    }
    assert slots[..|slots|] == slots;
  }
}
