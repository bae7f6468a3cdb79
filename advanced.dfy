/**
 * The advanced validators of the RIPS engine (ErroresJSON/src/advanced_validators.py):
 * the detector of attentions a patient received twice on one day, the
 * catalog-backed ICD-10 validator with its counter of rejected codes, and
 * the coherence rules between finality, procedure, diagnosis, sex and age.
 */
module Advanced {
  import opened Wrappers
  import opened Text
  import opened Rules
  import opened Cie10
  import opened Counters

  // ---------------------------------------------------------------------
  // DuplicateAttentionDetector
  // ---------------------------------------------------------------------

  /** The bucket key `(tipo_doc, num_doc, fecha)`: one patient on one day. */
  datatype AttentionKey = AttentionKey(tipoDoc: string, numDoc: string, fecha: string)

  /** One registered attention: its kind, its CUPS code and where it was read. */
  datatype Attention = Attention(tipo: string, codigo: string, file: string, line: int)

  /** The key of the inner `seen` dictionary: two attentions repeat each other when kind and code agree. */
  datatype Signature = Signature(tipo: string, codigo: string)

  function SignatureOf(a: Attention): Signature
  {
    Signature(a.tipo, a.codigo)
  }

  const DuplicateField := "duplicado_atencion"
  const DuplicateRegulation := "Res. 2275/2023 - Validación de calidad de datos"
  const DuplicateFix := "Verificar si se trata de un error de digitación o una atención real. Eliminar el registro duplicado si no corresponde."

  /** The error reported for attention `a` of bucket `k`, which repeats `prev`. */
  function DuplicateError(k: AttentionKey, a: Attention, prev: Attention): ValidationError
  {
    ValidationError(a.file, a.line, DuplicateField,
      DuplicateAttention(k.tipoDoc, k.numDoc, a.tipo, k.fecha, a.codigo, prev.file, prev.line),
      DuplicateRegulation, DuplicateFix)
  }

  /** The `seen` dictionary after scanning `b`: each signature mapped to the attention first seen with it. */
  function Seen(b: seq<Attention>): map<Signature, Attention>
  {
    if b == [] then map[]
    else
      var m := Seen(b[..|b| - 1]);
      var s := SignatureOf(b[|b| - 1]);
      if s in m then m else m[s := b[|b| - 1]]
  }

  /** The errors the inner loop of `detect_duplicates` reports for one bucket, in entry order. */
  function BucketDuplicates(k: AttentionKey, b: seq<Attention>): seq<ValidationError>
  {
    if b == [] then []
    else
      var m := Seen(b[..|b| - 1]);
      var a := b[|b| - 1];
      BucketDuplicates(k, b[..|b| - 1])
        + (if SignatureOf(a) in m then [DuplicateError(k, a, m[SignatureOf(a)])] else [])
  }

  /** Entry `i` of `b` is the first one with its signature. */
  predicate FirstOccurrence(b: seq<Attention>, i: int)
    requires 0 <= i < |b|
  {
    forall h :: 0 <= h < i ==> SignatureOf(b[h]) != SignatureOf(b[i])
  }

  /** Every signature that occurs in `b` has been seen. */
  lemma {:induction false} SeenComplete(b: seq<Attention>, h: int)
    requires 0 <= h < |b|
    ensures SignatureOf(b[h]) in Seen(b)
  {
    var prior := b[..|b| - 1];
    if h < |b| - 1 {
      assert prior[h] == b[h];
      SeenComplete(prior, h);
    }
  }

  /** What `seen` holds for a signature is the first attention carrying it. */
  lemma {:induction false} SeenWitness(b: seq<Attention>, s: Signature)
    requires s in Seen(b)
    ensures exists i :: 0 <= i < |b| && SignatureOf(b[i]) == s && Seen(b)[s] == b[i] && FirstOccurrence(b, i)
  {
    var prior := b[..|b| - 1];
    var last := b[|b| - 1];
    if s in Seen(prior) {
      SeenWitness(prior, s);
      var i :| 0 <= i < |prior| && SignatureOf(prior[i]) == s && Seen(prior)[s] == prior[i] && FirstOccurrence(prior, i);
      assert b[i] == prior[i];
      assert FirstOccurrence(b, i) by {
        forall h | 0 <= h < i ensures SignatureOf(b[h]) != SignatureOf(b[i]) {
          assert b[h] == prior[h];
        }
      }
    } else {
      assert s == SignatureOf(last);
      forall h | 0 <= h < |b| - 1 ensures SignatureOf(b[h]) != s {
        assert b[h] == prior[h];
        if SignatureOf(b[h]) == s {
          SeenComplete(prior, h);
        }
      }
      assert FirstOccurrence(b, |b| - 1);
    }
  }

  /** Every reported error is a later entry repeating an earlier one, and it cites the first occurrence. */
  lemma {:induction false} DuplicateIsRepeat(k: AttentionKey, b: seq<Attention>, e: ValidationError)
    requires e in BucketDuplicates(k, b)
    ensures exists i, j :: 0 <= i < j < |b| && SignatureOf(b[i]) == SignatureOf(b[j]) && FirstOccurrence(b, i)
              && e == DuplicateError(k, b[j], b[i])
  {
    var prior := b[..|b| - 1];
    var last := b[|b| - 1];
    var m := Seen(prior);
    if e in BucketDuplicates(k, prior) {
      DuplicateIsRepeat(k, prior, e);
      var i, j :| 0 <= i < j < |prior| && SignatureOf(prior[i]) == SignatureOf(prior[j]) && FirstOccurrence(prior, i)
                 && e == DuplicateError(k, prior[j], prior[i]);
      assert b[i] == prior[i] && b[j] == prior[j];
      assert FirstOccurrence(b, i) by {
        forall h | 0 <= h < i ensures SignatureOf(b[h]) != SignatureOf(b[i]) {
          assert b[h] == prior[h];
        }
      }
    } else {
      var s := SignatureOf(last);
      assert s in m && e == DuplicateError(k, last, m[s]);
      SeenWitness(prior, s);
      var i :| 0 <= i < |prior| && SignatureOf(prior[i]) == s && m[s] == prior[i] && FirstOccurrence(prior, i);
      assert b[i] == prior[i];
      assert FirstOccurrence(b, i) by {
        forall h | 0 <= h < i ensures SignatureOf(b[h]) != SignatureOf(b[i]) {
          assert b[h] == prior[h];
        }
      }
    }
  }

  /** Conversely, every entry repeating an earlier one is reported, citing the first occurrence. */
  lemma {:induction false} RepeatReported(k: AttentionKey, b: seq<Attention>, i: int, j: int)
    requires 0 <= i < j < |b| && SignatureOf(b[i]) == SignatureOf(b[j]) && FirstOccurrence(b, i)
    ensures DuplicateError(k, b[j], b[i]) in BucketDuplicates(k, b)
  {
    var prior := b[..|b| - 1];
    assert prior[i] == b[i];
    assert FirstOccurrence(prior, i) by {
      forall h | 0 <= h < i ensures SignatureOf(prior[h]) != SignatureOf(prior[i]) {
        assert prior[h] == b[h];
      }
    }
    if j < |b| - 1 {
      assert prior[j] == b[j];
      RepeatReported(k, prior, i, j);
    } else {
      var s := SignatureOf(b[j]);
      SeenComplete(prior, i);
      SeenWitness(prior, s);
      var i' :| 0 <= i' < |prior| && SignatureOf(prior[i']) == s && Seen(prior)[s] == prior[i'] && FirstOccurrence(prior, i');
      FirstUnique(prior, i, i');
    }
  }

  /** The first occurrence of a signature comes no later than any entry carrying it. */
  lemma FirstBefore(b: seq<Attention>, i: int, h: int)
    requires 0 <= i < |b| && 0 <= h < |b| && FirstOccurrence(b, i) && SignatureOf(b[h]) == SignatureOf(b[i])
    ensures i <= h
  {
  }

  /** A signature has one first occurrence. */
  lemma FirstUnique(b: seq<Attention>, i: int, i': int)
    requires 0 <= i < |b| && 0 <= i' < |b| && FirstOccurrence(b, i) && FirstOccurrence(b, i')
    requires SignatureOf(b[i]) == SignatureOf(b[i'])
    ensures i == i'
  {
    FirstBefore(b, i, i');
    FirstBefore(b, i', i);
  }

  /** Each entry is either the first of its signature or reported once: errors + signatures == entries. */
  lemma {:induction false} DuplicateCount(k: AttentionKey, b: seq<Attention>)
    ensures |BucketDuplicates(k, b)| + |Seen(b)| == |b|
  {
    if b != [] {
      DuplicateCount(k, b[..|b| - 1]);
    }
  }

  /** `n` identical attentions give `n - 1` errors. */
  lemma IdenticalAttentions(k: AttentionKey, b: seq<Attention>)
    requires |b| >= 1 && forall i :: 0 <= i < |b| ==> SignatureOf(b[i]) == SignatureOf(b[0])
    ensures |BucketDuplicates(k, b)| == |b| - 1
  {
    var s := SignatureOf(b[0]);
    SeenComplete(b, 0);
    forall t | t in Seen(b) ensures t == s {
      SeenWitness(b, t);
    }
    assert Seen(b).Keys == {s};
    DuplicateCount(k, b);
  }

  /** A bucket yields no error exactly when no two of its attentions share kind and code. */
  lemma NoDuplicatesIff(k: AttentionKey, b: seq<Attention>)
    ensures BucketDuplicates(k, b) == [] <==>
            forall i, j :: 0 <= i < j < |b| ==> SignatureOf(b[i]) != SignatureOf(b[j])
  {
    if BucketDuplicates(k, b) != [] {
      DuplicateIsRepeat(k, b, BucketDuplicates(k, b)[0]);
    }
    if exists i, j :: 0 <= i < j < |b| && SignatureOf(b[i]) == SignatureOf(b[j]) {
      var i, j :| 0 <= i < j < |b| && SignatureOf(b[i]) == SignatureOf(b[j]);
      var s := SignatureOf(b[j]);
      SeenComplete(b, i);
      SeenWitness(b, s);
      var i0 :| 0 <= i0 < |b| && SignatureOf(b[i0]) == s && Seen(b)[s] == b[i0] && FirstOccurrence(b, i0);
      FirstBefore(b, i0, i);
      RepeatReported(k, b, i0, j);
    }
  }

  /** The errors of `detect_duplicates`: the buckets in registration order, each bucket in entry order. */
  function AllDuplicates(keys: seq<AttentionKey>, buckets: map<AttentionKey, seq<Attention>>): seq<ValidationError>
    requires forall k :: k in keys ==> k in buckets
  {
    if keys == [] then []
    else
      var k := keys[|keys| - 1];
      AllDuplicates(keys[..|keys| - 1], buckets) + BucketDuplicates(k, buckets[k])
  }

  /** Every error of the whole detector comes from one bucket's repeat. */
  lemma {:induction false} AllDuplicatesFromBuckets(keys: seq<AttentionKey>, buckets: map<AttentionKey, seq<Attention>>,
                                                    e: ValidationError)
    requires forall k :: k in keys ==> k in buckets
    requires e in AllDuplicates(keys, buckets)
    ensures exists k :: k in keys && e in BucketDuplicates(k, buckets[k])
  {
    var prior := keys[..|keys| - 1];
    var k := keys[|keys| - 1];
    if e in AllDuplicates(prior, buckets) {
      AllDuplicatesFromBuckets(prior, buckets, e);
      var k' :| k' in prior && e in BucketDuplicates(k', buckets[k']);
      assert k' in keys;
    } else {
      assert e in BucketDuplicates(k, buckets[k]);
    }
  }

  /** Every error of every bucket is among the detector's errors. */
  lemma {:induction false} BucketInAllDuplicates(keys: seq<AttentionKey>, buckets: map<AttentionKey, seq<Attention>>,
                                                 k: AttentionKey, e: ValidationError)
    requires forall k :: k in keys ==> k in buckets
    requires k in keys && e in BucketDuplicates(k, buckets[k])
    ensures e in AllDuplicates(keys, buckets)
  {
    var prior := keys[..|keys| - 1];
    if k != keys[|keys| - 1] {
      assert k in prior;
      BucketInAllDuplicates(prior, buckets, k, e);
    }
  }

  /** The keys are distinct and are exactly the buckets' keys. */
  lemma {:induction false} DistinctKeyCount(keys: seq<AttentionKey>)
    requires forall i, j :: 0 <= i < j < |keys| ==> keys[i] != keys[j]
    ensures |set k | k in keys| == |keys|
  {
    if keys != [] {
      var prior := keys[..|keys| - 1];
      var last := keys[|keys| - 1];
      DistinctKeyCount(prior);
      assert (set k | k in keys) == (set k | k in prior) + {last};
      assert last !in (set k | k in prior);
    }
  }

  /** `get_statistics`. */
  datatype DetectorStatistics = DetectorStatistics(totalUsersWithAttentions: nat, totalDuplicateAttentions: nat)

  /** `DuplicateAttentionDetector`: the buckets of attentions, keyed by patient and day, in registration order. */
  class DuplicateAttentionDetector {
    var keys: seq<AttentionKey>
    var buckets: map<AttentionKey, seq<Attention>>
    var duplicatesFound: seq<ValidationError>

    /** `keys` lists the buckets' keys once each, in the order the dictionary met them; no bucket is empty. */
    ghost predicate Valid()
      reads this
    {
      (forall k :: k in buckets <==> k in keys)
      && (forall i, j :: 0 <= i < j < |keys| ==> keys[i] != keys[j])
      && (forall k :: k in buckets ==> buckets[k] != [])
    }

    constructor ()
      ensures Valid() && keys == [] && buckets == map[] && duplicatesFound == []
    {
      keys := [];
      buckets := map[];
      duplicatesFound := [];
    }

    /** The bucket of `k`; the `defaultdict` gives an empty one for a key never registered. */
    function Bucket(k: AttentionKey): seq<Attention>
      reads this
    {
      if k in buckets then buckets[k] else []
    }

    /** `register_attention`: appends one entry to the bucket of `(tipo_doc, num_doc, fecha)`; nothing else changes. */
    method RegisterAttention(tipoDoc: string, numDoc: string, fecha: string, tipoAtencion: string,
                             codigo: string, fileName: string, lineNumber: int)
      requires Valid()
      modifies this
      ensures Valid()
      ensures var key := AttentionKey(tipoDoc, numDoc, fecha);
              buckets == old(buckets)[key := old(Bucket(key)) + [Attention(tipoAtencion, codigo, fileName, lineNumber)]]
              && keys == (if key in old(buckets) then old(keys) else old(keys) + [key])
      ensures duplicatesFound == old(duplicatesFound)
    {
      var key := AttentionKey(tipoDoc, numDoc, fecha);
      var attention := Attention(tipoAtencion, codigo, fileName, lineNumber);
      if key !in buckets {
        keys := keys + [key];
      }
      buckets := buckets[key := Bucket(key) + [attention]];
    }

    /** `detect_duplicates`: scans every bucket with a fresh `seen` dictionary; the buckets stay as they are. */
    method DetectDuplicates() returns (errors: seq<ValidationError>)
      requires Valid()
      modifies this
      ensures Valid()
      ensures keys == old(keys) && buckets == old(buckets)
      ensures errors == AllDuplicates(keys, buckets)
      ensures duplicatesFound == errors
    {
      errors := [];
      var order, byKey := keys, buckets;
      ghost var complete := forall k :: k in order ==> k in byKey;
      assert complete;
      var i := 0;
      while i < |order|
        invariant 0 <= i <= |order|
        invariant keys == order && buckets == byKey && duplicatesFound == old(duplicatesFound)
        invariant errors == AllDuplicates(order[..i], byKey)
      {
        var k := order[i];
        assert k in byKey;
        var attentions := byKey[k];
        if |attentions| > 1 {
          var found := ScanBucket(k, attentions);
          errors := errors + found;
        } else {
          SmallBucket(k, attentions);
        }
        KeysStep(order, byKey, i);
        i := i + 1;
      }
      assert order[..i] == order;
      duplicatesFound := errors;
    }

    /** `get_statistics`: one user entry per registered patient-day, and the errors of the last detection. */
    function GetStatistics(): (r: DetectorStatistics)
      requires Valid()
      reads this
      ensures r.totalUsersWithAttentions == |keys|
      ensures r.totalDuplicateAttentions == |duplicatesFound|
    {
      DistinctKeyCount(keys);
      assert buckets.Keys == set k | k in keys;
      DetectorStatistics(|buckets|, |duplicatesFound|)
    }
  }

  /** The inner loop of `detect_duplicates` over one bucket: a fresh `seen` dictionary, first entry of each signature kept. */
  method ScanBucket(k: AttentionKey, attentions: seq<Attention>) returns (errors: seq<ValidationError>)
    ensures errors == BucketDuplicates(k, attentions)
  {
    errors := [];
    var seen: map<Signature, Attention> := map[];
    var j := 0;
    while j < |attentions|
      invariant 0 <= j <= |attentions|
      invariant seen == Seen(attentions[..j])
      invariant errors == BucketDuplicates(k, attentions[..j])
    {
      var attention := attentions[j];
      var s := SignatureOf(attention);
      BucketStep(k, attentions, j);
      if s in seen {
        errors := errors + [DuplicateError(k, attention, seen[s])];
      } else {
        seen := seen[s := attention];
      }
      j := j + 1;
    }
    assert attentions[..j] == attentions;
  }

  /** One step of the inner loop of `detect_duplicates`. */
  lemma BucketStep(k: AttentionKey, b: seq<Attention>, j: int)
    requires 0 <= j < |b|
    ensures var m := Seen(b[..j]); var s := SignatureOf(b[j]);
            Seen(b[..j + 1]) == (if s in m then m else m[s := b[j]])
            && BucketDuplicates(k, b[..j + 1])
               == BucketDuplicates(k, b[..j]) + (if s in m then [DuplicateError(k, b[j], m[s])] else [])
  {
    assert b[..j + 1][..j] == b[..j];
  }

  /** A bucket of one attention has nothing to repeat (the source skips it). */
  lemma SmallBucket(k: AttentionKey, b: seq<Attention>)
    requires |b| <= 1
    ensures BucketDuplicates(k, b) == []
  {
    if |b| == 1 {
      assert b[..0] == [];
    }
  }

  /** One step of the outer loop of `detect_duplicates`. */
  lemma KeysStep(keys: seq<AttentionKey>, buckets: map<AttentionKey, seq<Attention>>, i: int)
    requires 0 <= i < |keys| && forall k :: k in keys ==> k in buckets
    ensures AllDuplicates(keys[..i + 1], buckets) == AllDuplicates(keys[..i], buckets) + BucketDuplicates(keys[i], buckets[keys[i]])
  {
    assert keys[..i + 1][..i] == keys[..i];
  }

  // ---------------------------------------------------------------------
  // CIE10Validator
  // ---------------------------------------------------------------------

  const RequiredRegulation := "Res. 2275/2023"
  const RequiredFix := "Completar con el código CIE10 correspondiente"
  const CatalogRegulation := "Res. 2275/2023 y 3280/2018 - Validación de calidad de datos"

  /** `', '.join(parts)`. */
  function JoinComma(parts: seq<string>): string
  {
    if parts == [] then []
    else if |parts| == 1 then parts[0]
    else parts[0] + ", " + JoinComma(parts[1..])
  }

  /** The fix offered for a rejected code: the first three suggestions when there are any. */
  function CatalogFix(suggestions: seq<string>): string
  {
    "Verificar el código en el catálogo CIE10 vigente. "
      + if suggestions != [] then " Códigos similares válidos: " + JoinComma(PyHead(suggestions, 3))
        else "Consultar con el área médica."
  }

  /** The error for a code the catalog rejects, from what `validate_with_suggestion` answered. */
  function CatalogError(code: string, message: string, suggestions: seq<string>, fieldName: string,
                        fileName: string, lineNumber: int): ValidationError
  {
    ValidationError(fileName, lineNumber, fieldName, Cie10NotInCatalog(code, message, PyHead(suggestions, 3)),
                    CatalogRegulation, CatalogFix(suggestions))
  }

  /** The code is present (not blank) and the catalog rejects it: the case the counter records. */
  predicate Rejected(c: Catalog, code: string)
  {
    Strip(code) != [] && !c.IsValidCode(code)
  }

  /** The errors of `validate_code`. */
  function CodeErrors(c: Catalog, code: string, fieldName: string, fileName: string, lineNumber: int,
                      required: bool): (es: seq<ValidationError>)
    ensures |es| <= 1
    ensures es == [] <==> (if Strip(code) == [] then !required else c.IsValidCode(code))
    ensures Located(es, fileName, lineNumber)
    ensures forall e :: e in es ==> e.fieldName == fieldName
    ensures Strip(code) == [] && required ==> es[0].description == Cie10Required(fieldName)
    ensures Rejected(c, code) ==> es[0].description == Cie10NotInCatalog(code, NoSuggestionMessage, [])
  {
    if Strip(code) == [] then
      if required then [ValidationError(fileName, lineNumber, fieldName, Cie10Required(fieldName), RequiredRegulation, RequiredFix)]
      else []
    else if c.IsValidCode(code) then []
    else [CatalogError(code, NoSuggestionMessage, [], fieldName, fileName, lineNumber)]
  }

  /** A blank code is never looked up: the catalog's answer does not change the result. */
  lemma BlankCodeIgnoresCatalog(c1: Catalog, c2: Catalog, code: string, fieldName: string, fileName: string,
                                lineNumber: int, required: bool)
    requires Strip(code) == []
    ensures CodeErrors(c1, code, fieldName, fileName, lineNumber, required)
            == CodeErrors(c2, code, fieldName, fileName, lineNumber, required)
  {
  }

  /** `CIE10Validator`: the shared catalog and the counter of rejected codes. */
  class Cie10Validator {
    const catalog: Catalog
    var invalidCodes: seq<Entry<string>>

    /** `__init__`: takes the catalog from the registry, with an empty counter. */
    constructor (registry: Registry)
      requires registry.Valid()
      modifies registry
      ensures catalog == registry.instance && catalog.Valid() && registry.Valid()
      ensures invalidCodes == []
    {
      var c := registry.GetCatalog();
      catalog := c;
      invalidCodes := [];
    }

    /**
     * `validate_code`: a blank code is an error only when required; any
     * other code is checked against the catalog, and a rejected one is
     * counted once more.
     */
    method ValidateCode(code: string, fieldName: string, fileName: string, lineNumber: int, required: bool)
      returns (errors: seq<ValidationError>)
      requires catalog.Valid() && DistinctKeys(invalidCodes)
      modifies this
      ensures errors == CodeErrors(catalog, code, fieldName, fileName, lineNumber, required)
      ensures invalidCodes == if Rejected(catalog, code) then Bump(old(invalidCodes), code) else old(invalidCodes)
      ensures DistinctKeys(invalidCodes)
    {
      errors := [];
      if code == [] || Strip(code) == [] {
        if required {
          errors := errors + [ValidationError(fileName, lineNumber, fieldName, Cie10Required(fieldName),
                                              RequiredRegulation, RequiredFix)];
        }
        return;
      }
      var v := catalog.ValidateWithSuggestion(code);
      if !v.isValid {
        invalidCodes := Bump(invalidCodes, code);
        errors := errors + [CatalogError(code, v.message, v.suggestions, fieldName, fileName, lineNumber)];
      }
    }

    /** `get_most_common_invalid_codes`. */
    function GetMostCommonInvalidCodes(limit: int): seq<Entry<string>>
      reads this
    {
      TopCounts(invalidCodes, limit)
    }
  }

  // ---------------------------------------------------------------------
  // CoherenceValidator
  // ---------------------------------------------------------------------

  /** One entry of `COHERENCE_RULES`: the CUPS prefixes and diagnosis chapters a finality expects, `None` for any. */
  datatype CoherenceRule = CoherenceRule(cupsPrefixes: Option<seq<string>>, chapters: Option<seq<char>>, description: string)

  /** `COHERENCE_RULES.get(finalidad)`. */
  function RuleFor(finalidad: string): Option<CoherenceRule>
  {
    if finalidad == "10" then Some(CoherenceRule(Some(["89"]), Some(['Z']), "Detección temprana"))
    else if finalidad == "11" then Some(CoherenceRule(Some(["89"]), Some(['Z']), "Detección temprana profesional"))
    else if finalidad == "20" then Some(CoherenceRule(Some(["89", "99"]), Some(['Z']), "Protección específica (vacunación, etc.)"))
    else if finalidad == "30" then Some(CoherenceRule(Some(["87", "88", "89", "90"]), None, "Diagnóstico"))
    else if finalidad == "40" then Some(CoherenceRule(None, None, "Tratamiento"))
    else if finalidad == "50" then Some(CoherenceRule(Some(["93"]), Some(['G', 'M', 'S', 'T']), "Rehabilitación"))
    else if finalidad == "60" then Some(CoherenceRule(None, Some(['C', 'D']), "Paliación"))
    else None
  }

  /** `codigo_cups[:2] if len(codigo_cups) >= 2 else ''`. */
  function CupsPrefix(cups: string): (p: string)
    ensures |p| == 2 || p == []
    ensures StartsWith(cups, p)
  {
    if |cups| >= 2 then cups[..2] else []
  }

  /** The rule restricts procedures and a given CUPS code does not start with an allowed prefix. */
  predicate CupsMismatch(rule: CoherenceRule, cups: string)
  {
    rule.cupsPrefixes.Some? && cups != [] && CupsPrefix(cups) !in rule.cupsPrefixes.value
  }

  /** The rule restricts diagnoses and a given diagnosis lies outside the allowed chapters. */
  predicate DiagnosisMismatch(rule: CoherenceRule, diagnosis: string)
  {
    rule.chapters.Some? && diagnosis != [] && diagnosis[0] !in rule.chapters.value
  }

  function CupsField(context: string): string { "finalidad/codigo_procedimiento" + context }
  function DiagnosisField(context: string): string { "finalidad/diagnostico" + context }

  const CoherenceRegulation := "Res. 2275/2023 - Validación de coherencia"
  const CupsFix := "Verificar que la finalidad y el procedimiento sean coherentes. Consultar con el área de facturación."
  const DiagnosisFix := "Verificar que la finalidad y el diagnóstico sean coherentes. Consultar con el área médica."

  /**
   * `validate_coherence`: nothing for a finality without a rule; otherwise
   * one error for an unexpected procedure, then one for a diagnosis outside
   * the expected chapters.
   */
  function ValidateCoherence(finalidad: string, cups: string, diagnosis: string, fileName: string,
                             lineNumber: int, context: string): (es: seq<ValidationError>)
    ensures RuleFor(finalidad).None? ==> es == []
    ensures RuleFor(finalidad).Some? ==>
              var rule := RuleFor(finalidad).value;
              |es| == (if CupsMismatch(rule, cups) then 1 else 0) + (if DiagnosisMismatch(rule, diagnosis) then 1 else 0)
              && (CupsMismatch(rule, cups) ==>
                    es[0].fieldName == CupsField(context) && es[0].description == CupsIncoherent(finalidad, cups))
              && (DiagnosisMismatch(rule, diagnosis) ==>
                    es[|es| - 1].fieldName == DiagnosisField(context)
                    && es[|es| - 1].description == DiagnosisIncoherent(finalidad, diagnosis[0], diagnosis))
    ensures |es| <= 2
    ensures Located(es, fileName, lineNumber)
    ensures forall e :: e in es ==> e.fieldName == CupsField(context) || e.fieldName == DiagnosisField(context)
  {
    match RuleFor(finalidad)
    case None => []
    case Some(rule) =>
      (if CupsMismatch(rule, cups)
       then [ValidationError(fileName, lineNumber, CupsField(context), CupsIncoherent(finalidad, cups),
                             CoherenceRegulation, CupsFix)]
       else [])
      + (if DiagnosisMismatch(rule, diagnosis)
         then [ValidationError(fileName, lineNumber, DiagnosisField(context),
                               DiagnosisIncoherent(finalidad, diagnosis[0], diagnosis), CoherenceRegulation, DiagnosisFix)]
         else [])
  }

  /** Only the seven finalities of the table are checked at all. */
  lemma RuledFinalities(finalidad: string)
    ensures RuleFor(finalidad).Some? <==> finalidad in ["10", "11", "20", "30", "40", "50", "60"]
  {
  }

  /** Every CUPS prefix of the table has two characters, so a one-character code never matches one. */
  lemma ShortCupsIncoherent(finalidad: string, cups: string)
    requires RuleFor(finalidad).Some? && RuleFor(finalidad).value.cupsPrefixes.Some? && |cups| == 1
    ensures CupsMismatch(RuleFor(finalidad).value, cups)
  {
  }

  /** Treatment (`40`) accepts any procedure and any diagnosis. */
  lemma TreatmentAlwaysCoherent(cups: string, diagnosis: string, fileName: string, lineNumber: int, context: string)
    ensures ValidateCoherence("40", cups, diagnosis, fileName, lineNumber, context) == []
  {
  }

  /** Early detection and specific protection (`10`, `11`, `20`) expect chapter Z diagnoses. */
  lemma PreventiveExpectsChapterZ(finalidad: string, diagnosis: string)
    requires finalidad == "10" || finalidad == "11" || finalidad == "20"
    requires diagnosis != []
    ensures DiagnosisMismatch(RuleFor(finalidad).value, diagnosis) <==> diagnosis[0] != 'Z'
  {
  }

  /** Diagnosis (`30`) and palliation (`60`) each check one side only, so they report at most one error. */
  lemma OneSidedRules(finalidad: string, cups: string, diagnosis: string, fileName: string, lineNumber: int,
                      context: string)
    requires finalidad == "30" || finalidad == "60"
    ensures |ValidateCoherence(finalidad, cups, diagnosis, fileName, lineNumber, context)| <= 1
  {
  }

  /** `N` diagnoses exclusive to women: N76 and N80-N98. */
  const FemaleNCodes: seq<string> := ["76", "80", "81", "82", "83", "84", "85", "86", "87", "88", "89", "90", "91", "92", "93", "94", "95", "96", "97", "98"]

  /** `N` diagnoses exclusive to men: N40-N51. */
  const MaleNCodes: seq<string> := ["40", "41", "42", "43", "44", "45", "46", "47", "48", "49", "50", "51"]

  /** `female_exclusive`: chapter O, or an `N` code whose `[1:3]` is listed. */
  predicate FemaleExclusive(diagnosis: string)
  {
    StartsWith(diagnosis, "O") || (StartsWith(diagnosis, "N") && Slice(diagnosis, 1, 3) in FemaleNCodes)
  }

  /** `male_exclusive`: an `N` code whose `[1:3]` is listed. */
  predicate MaleExclusive(diagnosis: string)
  {
    StartsWith(diagnosis, "N") && Slice(diagnosis, 1, 3) in MaleNCodes
  }

  const GenderField := "sexo/diagnostico"
  const GenderFix := "Verificar el sexo del paciente o el código de diagnóstico"

  /** `validate_gender_diagnosis_coherence`: a man with a women-only diagnosis, or a woman with a men-only one. */
  function ValidateGenderDiagnosis(sexo: string, diagnosis: string, fileName: string, lineNumber: int)
    : (es: seq<ValidationError>)
    ensures |es| <= 1
    ensures es != [] <==> (sexo == "M" && FemaleExclusive(diagnosis)) || (sexo == "F" && MaleExclusive(diagnosis))
    ensures Located(es, fileName, lineNumber)
    ensures forall e :: e in es ==> e.fieldName == GenderField
    ensures es != [] ==> es[0].description == if sexo == "M" then MaleWithFemaleDiagnosis(diagnosis)
                                               else FemaleWithMaleDiagnosis(diagnosis)
  {
    if diagnosis == [] || sexo == [] then []
    else
      (if sexo == "M" && FemaleExclusive(diagnosis)
       then [ValidationError(fileName, lineNumber, GenderField, MaleWithFemaleDiagnosis(diagnosis),
                             CoherenceRegulation, GenderFix)]
       else [])
      + (if sexo == "F" && MaleExclusive(diagnosis)
         then [ValidationError(fileName, lineNumber, GenderField, FemaleWithMaleDiagnosis(diagnosis),
                               CoherenceRegulation, GenderFix)]
         else [])
  }

  /** No diagnosis is exclusive to both sexes. */
  lemma ExclusiveDiagnosesDisjoint(diagnosis: string)
    ensures !(FemaleExclusive(diagnosis) && MaleExclusive(diagnosis))
  {
    if StartsWith(diagnosis, "N") {
      assert !StartsWith(diagnosis, "O");
      var t := Slice(diagnosis, 1, 3);
      assert !(t in FemaleNCodes && t in MaleNCodes);
    }
  }

  /** Sex values other than `M` and `F` are never reported. */
  lemma OtherSexNeverReported(sexo: string, diagnosis: string, fileName: string, lineNumber: int)
    requires sexo != "M" && sexo != "F"
    ensures ValidateGenderDiagnosis(sexo, diagnosis, fileName, lineNumber) == []
  {
  }

  /** `edad_anios`: the age in years, months divided by 12 and days by 365. */
  function YearsOf(edad: int, unidad: string): real
  {
    if unidad == "2" then edad as real / 12.0
    else if unidad == "3" then edad as real / 365.0
    else edad as real
  }

  /** A perinatal (`P`) diagnosis for a patient older than a tenth of a year. */
  predicate PerinatalMismatch(edad: int, unidad: string, diagnosis: string)
  {
    StartsWith(diagnosis, "P") && YearsOf(edad, unidad) > 0.1
  }

  /** Parkinson or Alzheimer (`G20X`, `G30X`) for a patient younger than 40 years. */
  predicate SenileMismatch(edad: int, unidad: string, diagnosis: string)
  {
    (diagnosis == "G20X" || diagnosis == "G30X") && YearsOf(edad, unidad) < 40.0
  }

  /** The two age rules concern different diagnoses, so at most one applies. */
  lemma AgeRulesExclusive(edad: int, unidad: string, diagnosis: string)
    ensures !(PerinatalMismatch(edad, unidad, diagnosis) && SenileMismatch(edad, unidad, diagnosis))
  {
    if StartsWith(diagnosis, "P") {
      assert diagnosis[0] == 'P' && "G20X"[0] == 'G' && "G30X"[0] == 'G';
    }
  }

  /** The perinatal rule in whole units: from 1 year, 2 months or 37 days on. */
  lemma PerinatalThresholds(edad: int, unidad: string, diagnosis: string)
    requires StartsWith(diagnosis, "P")
    ensures PerinatalMismatch(edad, unidad, diagnosis)
            <==> if unidad == "2" then edad >= 2 else if unidad == "3" then edad >= 37 else edad >= 1
  {
  }

  /** The senile rule in whole units: under 40 years, 480 months or 14600 days. */
  lemma SenileThresholds(edad: int, unidad: string, diagnosis: string)
    requires diagnosis == "G20X" || diagnosis == "G30X"
    ensures SenileMismatch(edad, unidad, diagnosis)
            <==> if unidad == "2" then edad < 480 else if unidad == "3" then edad < 14600 else edad < 40
  {
  }

  const AgeField := "edad/diagnostico"
  const AgeFix := "Verificar la edad del paciente o el código de diagnóstico"
  const UnitLabels: seq<string> := ["años", "meses", "días"]

  /** The age error of either rule, with the unit named by `unitName`. */
  function AgeError(edad: int, unitName: string, diagnosis: string, fileName: string, lineNumber: int,
                    perinatal: bool): ValidationError
  {
    ValidationError(fileName, lineNumber, AgeField,
      if perinatal then PerinatalAge(ShowInt(edad), unitName, diagnosis) else SenileAge(ShowInt(edad), unitName, diagnosis),
      CoherenceRegulation, AgeFix)
  }

  /** What `['años', 'meses', 'días'][int(unidad) - 1]` evaluates to, exceptions included. */
  datatype UnitLabel = Label(text: string) | LabelValueError | LabelIndexError

  /** The label as the source computes it: Python's negative indices wrap, others raise. */
  function UnitLabelAsWritten(unidad: string): (l: UnitLabel)
    ensures l.LabelValueError? <==> PyInt(unidad).None?
    ensures l.LabelIndexError? <==> PyInt(unidad).Some? && !(-2 <= PyInt(unidad).value <= 3)
    ensures l.Label? ==> l.text in UnitLabels
  {
    match PyInt(unidad)
    case None => LabelValueError
    case Some(n) =>
      if 1 <= n <= 3 then Label(UnitLabels[n - 1])
      else if -2 <= n <= 0 then Label(UnitLabels[n + 2])
      else LabelIndexError
  }

  /** The result of the as-written age check: its errors, or an `IndexError` that escapes it. */
  datatype AgeOutcome = Checked(errors: seq<ValidationError>) | Raised

  /**
   * `validate_age_diagnosis_coherence` as written: the label is computed
   * only when an error is being built; a `ValueError` there is caught (the
   * error is lost), an `IndexError` is not.  The two rules are tried in
   * source order; at most one of them applies (`AgeRulesExclusive`).
   */
  function AgeCoherenceAsWritten(edad: int, unidad: string, diagnosis: string, fileName: string, lineNumber: int)
    : (r: AgeOutcome)
    ensures r.Checked? ==> |r.errors| <= 1 && Located(r.errors, fileName, lineNumber)
    ensures r.Raised? <==> (PerinatalMismatch(edad, unidad, diagnosis) || SenileMismatch(edad, unidad, diagnosis))
                           && UnitLabelAsWritten(unidad).LabelIndexError?
  {
    if diagnosis == [] then Checked([])
    else if PerinatalMismatch(edad, unidad, diagnosis) || SenileMismatch(edad, unidad, diagnosis) then
      match UnitLabelAsWritten(unidad)
      case Label(t) => Checked([AgeError(edad, t, diagnosis, fileName, lineNumber, PerinatalMismatch(edad, unidad, diagnosis))])
      case LabelValueError => Checked([])
      case LabelIndexError => Raised
    else Checked([])
  }

  /** The unit's name: the three codes of the age-unit table, and any other value as given. */
  function UnitName(unidad: string): string
  {
    if unidad == "1" then "años" else if unidad == "2" then "meses" else if unidad == "3" then "días" else unidad
  }

  /** The age check as intended: one error exactly when a rule applies, whatever the unit text is. */
  function AgeCoherence(edad: int, unidad: string, diagnosis: string, fileName: string, lineNumber: int)
    : (es: seq<ValidationError>)
    ensures |es| <= 1
    ensures es != [] <==> PerinatalMismatch(edad, unidad, diagnosis) || SenileMismatch(edad, unidad, diagnosis)
    ensures Located(es, fileName, lineNumber)
    ensures forall e :: e in es ==> e.fieldName == AgeField
  {
    if PerinatalMismatch(edad, unidad, diagnosis) || SenileMismatch(edad, unidad, diagnosis) then
      [AgeError(edad, UnitName(unidad), diagnosis, fileName, lineNumber, PerinatalMismatch(edad, unidad, diagnosis))]
    else []
  }

  /** For the unit codes 1, 2 and 3 the source and the intended check agree. */
  lemma AgeCoherenceAgreesOnUnitCodes(edad: int, unidad: string, diagnosis: string, fileName: string, lineNumber: int)
    requires unidad == "1" || unidad == "2" || unidad == "3"
    ensures AgeCoherenceAsWritten(edad, unidad, diagnosis, fileName, lineNumber)
            == Checked(AgeCoherence(edad, unidad, diagnosis, fileName, lineNumber))
  {
    PyIntShow(if unidad == "1" then 1 else if unidad == "2" then 2 else 3);
  }

  /** Unit `4` with a perinatal diagnosis: the message index is out of range and the check raises. */
  lemma AgeCoherenceRaisesOnUnitFour(fileName: string, lineNumber: int)
    ensures AgeCoherenceAsWritten(5, "4", "P07", fileName, lineNumber).Raised?
    ensures AgeCoherence(5, "4", "P07", fileName, lineNumber) != []
  {
    UnitFourOutOfRange();
    UnitFourPerinatal();
  }

  lemma UnitFourOutOfRange()
    ensures UnitLabelAsWritten("4") == LabelIndexError
  {
    PyIntShow(4);
    assert ShowInt(4) == "4";
  }

  lemma UnitFourPerinatal()
    ensures PerinatalMismatch(5, "4", "P07")
  {
    assert "P07"[0] == 'P';
  }

  /** A unit that is not a number: the error being built is lost to the caught `ValueError`. */
  lemma AgeCoherenceDropsNonNumericUnit(fileName: string, lineNumber: int)
    ensures AgeCoherenceAsWritten(5, "x", "P07", fileName, lineNumber) == Checked([])
    ensures AgeCoherence(5, "x", "P07", fileName, lineNumber) != []
  {
  }
}
