/**
 * The ICD-10 (CIE10) catalog: exact lookup of a curated code table, a
 * lenient fallback that accepts any code whose first character is a
 * chapter letter, prefix suggestions for rejected codes, and the
 * module-wide catalog instance.
 */
module Cie10 {
  import opened Wrappers
  import opened Text
  import opened Cie10Tables

  // ---------------------------------------------------------------------
  // Lookup in parallel key/value sequences (a Python dict in insertion order)
  // ---------------------------------------------------------------------

  /** The value of the first occurrence of `x` among `ks`, as `dict.get`. */
  function Lookup<K(==), V>(ks: seq<K>, vs: seq<V>, x: K): (r: Option<V>)
    requires |ks| == |vs|
    ensures r.Some? <==> x in ks
    ensures r.Some? ==> exists i :: 0 <= i < |ks| && ks[i] == x && vs[i] == r.value
  {
    if ks == [] then None
    else if ks[0] == x then Some(vs[0])
    else
      var r := Lookup(ks[1..], vs[1..], x);
      assert r.Some? ==> exists i :: 1 <= i < |ks| && ks[i] == x && vs[i] == r.value by {
        if r.Some? {
          var j :| 0 <= j < |ks| - 1 && ks[1..][j] == x && vs[1..][j] == r.value;
          assert ks[j + 1] == x && vs[j + 1] == r.value;
        }
      }
      r
  }

  /** Every key is non-empty and starts with one of `letters`. */
  predicate KeysHaveChapters(keys: seq<string>, letters: seq<char>)
  {
    forall i :: 0 <= i < |keys| ==> keys[i] != [] && keys[i][0] in letters
  }

  /** A group of codes that all start with a chapter letter. */
  lemma GroupHasChapters(codes: seq<string>, c: char, letters: seq<char>)
    requires AllStartWith(codes, c) && c in letters
    ensures KeysHaveChapters(codes, letters)
  {
  }

  lemma ChaptersConcat(a: seq<string>, b: seq<string>, letters: seq<char>)
    requires KeysHaveChapters(a, letters) && KeysHaveChapters(b, letters)
    ensures KeysHaveChapters(a + b, letters)
  {
    forall i | 0 <= i < |a + b| ensures (a + b)[i] != [] && (a + b)[i][0] in letters {
      if i >= |a| {
        assert (a + b)[i] == b[i - |a|];
      }
    }
  }

  // ---------------------------------------------------------------------
  // Suggestions
  // ---------------------------------------------------------------------

  /** The keys that start with `prefix`, in catalog order. */
  function Matching(keys: seq<string>, prefix: string): (r: seq<string>)
    ensures |r| <= |keys|
    ensures forall k :: k in r ==> k in keys && StartsWith(k, prefix)
    decreases |keys|
  {
    if keys == [] then []
    else
      var init := Matching(keys[..|keys| - 1], prefix);
      var last := keys[|keys| - 1];
      assert forall k :: k in init ==> k in keys;
      init + (if StartsWith(last, prefix) then [last] else [])
  }

  /** Every key that starts with `prefix` is among the matches. */
  lemma {:induction false} MatchingComplete(keys: seq<string>, prefix: string, k: string)
    requires k in keys && StartsWith(k, prefix)
    ensures k in Matching(keys, prefix)
    decreases |keys|
  {
    if k != keys[|keys| - 1] {
      var i :| 0 <= i < |keys| && keys[i] == k;
      assert keys[..|keys| - 1][i] == k;
      MatchingComplete(keys[..|keys| - 1], prefix, k);
    }
  }

  /** The matches among the first `i` keys begin the matches among all of them. */
  lemma {:induction false} MatchingPrefix(keys: seq<string>, prefix: string, i: nat)
    requires i <= |keys|
    ensures Matching(keys[..i], prefix) <= Matching(keys, prefix)
    decreases |keys| - i
  {
    if i < |keys| {
      MatchingPrefix(keys, prefix, i + 1);
      assert keys[..i + 1][..i] == keys[..i];
    } else {
      assert keys[..i] == keys;
    }
  }

  /** The number of suggestions the loop collects before it stops: `max`, and at least one. */
  function Cap(max: int): (n: nat)
    ensures n >= 1 && n >= max
  {
    if max < 1 then 1 else max
  }

  /** `code[:3]`. */
  function Prefix3(code: string): (p: string)
    ensures |p| == if |code| < 3 then |code| else 3
    ensures StartsWith(code, p)
  {
    code[..if |code| < 3 then |code| else 3]
  }

  /**
   * What `suggest_similar_codes` returns: nothing for codes shorter than 2,
   * otherwise the first `Cap(max)` keys starting with `code[:3]`.
   */
  function Suggestions(keys: seq<string>, code: string, max: int): (r: seq<string>)
    ensures |code| < 2 ==> r == []
    ensures |r| <= Cap(max)
    ensures forall k :: k in r ==> k in keys && StartsWith(k, Prefix3(code))
    ensures r <= Matching(keys, Prefix3(code))
  {
    if |code| < 2 then []
    else
      var m := Matching(keys, Prefix3(code));
      m[..if |m| < Cap(max) then |m| else Cap(max)]
  }

  /** No key starts with `prefix`: nothing matches. */
  lemma {:induction false} NoMatches(keys: seq<string>, prefix: string)
    requires forall i :: 0 <= i < |keys| ==> !StartsWith(keys[i], prefix)
    ensures Matching(keys, prefix) == []
    decreases |keys|
  {
    if keys != [] {
      NoMatches(keys[..|keys| - 1], prefix);
    }
  }

  /** A code whose first character is no key's first character gets no suggestion. */
  lemma NoChapterNoSuggestion(keys: seq<string>, letters: seq<char>, code: string, max: int)
    requires KeysHaveChapters(keys, letters)
    requires code == [] || code[0] !in letters
    ensures Suggestions(keys, code, max) == []
  {
    if |code| >= 2 {
      var p := Prefix3(code);
      forall i | 0 <= i < |keys| ensures !StartsWith(keys[i], p) {
        assert keys[i][0] in letters;
        assert |p| >= 2 && p[0] == code[0];
      }
      NoMatches(keys, p);
    }
  }

  /** One more key extends the matches by that key when it starts with `prefix`. */
  lemma MatchingNext(keys: seq<string>, prefix: string, i: nat)
    requires i < |keys|
    ensures Matching(keys[..i + 1], prefix)
            == Matching(keys[..i], prefix) + (if StartsWith(keys[i], prefix) then [keys[i]] else [])
  {
    assert keys[..i + 1][..i] == keys[..i];
  }

  /**
   * The loop may stop after `i` keys once it holds `Cap(max)` matches, or
   * once it has seen every key: what it holds then is the suggestion list.
   */
  lemma SuggestionsStop(keys: seq<string>, code: string, max: int, i: nat)
    requires |code| >= 2 && i <= |keys|
    requires var m := Matching(keys[..i], Prefix3(code));
             |m| <= Cap(max) && (|m| == Cap(max) || i == |keys|)
    ensures Suggestions(keys, code, max) == Matching(keys[..i], Prefix3(code))
  {
    MatchingPrefix(keys, Prefix3(code), i);
    assert i == |keys| ==> keys[..i] == keys;
  }

  // ---------------------------------------------------------------------
  // The catalog
  // ---------------------------------------------------------------------

  /** The result of `validate_with_suggestion`. */
  datatype Validation = Validation(isValid: bool, message: string, suggestions: seq<string>)

  const NotFoundMessage := "Código no encontrado en catálogo vigente"
  const NoSuggestionMessage := "Código no válido y sin sugerencias disponibles"

  /** `CIE10Catalog`: the code table and the chapter table, fixed at construction. */
  class Catalog {
    const codes: seq<string>
    const titles: seq<string>
    const chapterLetters: seq<char>
    const chapterTitles: seq<string>

    /** The tables line up, and every code starts with a chapter letter. */
    predicate Valid()
    {
      |titles| == |codes| && |chapterTitles| == |chapterLetters|
      && KeysHaveChapters(codes, chapterLetters)
    }

    /** The codes and chapters as the constructor sets them. */
    predicate Standard()
    {
      codes == CodeKeys && chapterLetters == ChapterLetters
    }

    constructor ()
      ensures Standard() && titles == CodeTitles && chapterTitles == ChapterTitles && Valid()
    {
      codes := CodeKeys;
      titles := CodeTitles;
      chapterLetters := ChapterLetters;
      chapterTitles := ChapterTitles;
      new;
      CodeKeysHaveChapters();
    }

    /** `is_valid_code`: a non-empty code that is a key or starts with a chapter letter (case-sensitive). */
    predicate IsValidCode(code: string)
    {
      code != [] && (code in codes || code[0] in chapterLetters)
    }

    /** `get_description`: the code's catalog entry, if it has one. */
    function GetDescription(code: string): (r: Option<string>)
      requires Valid()
      ensures r.Some? <==> code in codes
      ensures r.Some? ==> exists i :: 0 <= i < |codes| && codes[i] == code && titles[i] == r.value
    {
      Lookup(codes, titles, code)
    }

    /** `get_chapter`: the chapter of the code's first character, `None` for an empty code. */
    function GetChapter(code: string): (r: Option<string>)
      requires Valid()
      ensures r.Some? <==> code != [] && code[0] in chapterLetters
      ensures r.Some? ==> exists i :: 0 <= i < |chapterLetters| && chapterLetters[i] == code[0] && chapterTitles[i] == r.value
    {
      if code == [] then None else Lookup(chapterLetters, chapterTitles, code[0])
    }

    /** The text after "Código válido: ": `description or chapter`, Python's `None` printed as such. */
    function ShownDescription(code: string): string
      requires Valid()
    {
      var d := GetDescription(code);
      if d.Some? && d.value != "" then d.value
      else match GetChapter(code)
        case Some(t) => t
        case None => "None"
    }

    /** `suggest_similar_codes`: the loop over the keys, with its early `break`. */
    method SuggestSimilarCodes(code: string, maxSuggestions: int) returns (suggestions: seq<string>)
      ensures suggestions == Suggestions(codes, code, maxSuggestions)
    {
      if |code| < 2 {
        return [];
      }
      var prefix := Prefix3(code);
      suggestions := [];
      var i := 0;
      while i < |codes|
        invariant 0 <= i <= |codes|
        invariant suggestions == Matching(codes[..i], prefix)
        invariant |suggestions| < Cap(maxSuggestions)
      {
        MatchingNext(codes, prefix, i);
        if StartsWith(codes[i], prefix) {
          suggestions := suggestions + [codes[i]];
          if |suggestions| >= maxSuggestions {
            SuggestionsStop(codes, code, maxSuggestions, i + 1);
            return;
          }
        }
        i := i + 1;
      }
      SuggestionsStop(codes, code, maxSuggestions, i);
    }

    /**
     * `validate_with_suggestion`: valid exactly when `is_valid_code` says so;
     * a rejected code gets the suggestions of `suggest_similar_codes`, which
     * in a valid catalog are always none.
     */
    method ValidateWithSuggestion(code: string) returns (v: Validation)
      requires Valid()
      ensures v.isValid == IsValidCode(code)
      ensures v.suggestions == []
      ensures v.isValid ==> v.message == "Código válido: " + ShownDescription(code)
      ensures !v.isValid ==> v.message == NoSuggestionMessage
    {
      if IsValidCode(code) {
        return Validation(true, "Código válido: " + ShownDescription(code), []);
      }
      var suggestions := SuggestSimilarCodes(code, 5);
      NoChapterNoSuggestion(codes, chapterLetters, code, 5);
      if suggestions != [] {
        v := Validation(false, NotFoundMessage, suggestions);
      } else {
        v := Validation(false, NoSuggestionMessage, []);
      }
    }
  }

  /** Every code of the table starts with a chapter letter, group by group. */
  lemma CodeKeysHaveChapters()
    ensures KeysHaveChapters(CodeKeys, ChapterLetters)
  {
    ACodesStart();
    GroupHasChapters(ACodes, 'A', ChapterLetters);
    BCodesStart();
    GroupHasChapters(BCodes, 'B', ChapterLetters);
    DCodesStart();
    GroupHasChapters(DCodes, 'D', ChapterLetters);
    ECodesStart();
    GroupHasChapters(ECodes, 'E', ChapterLetters);
    GCodesStart();
    GroupHasChapters(GCodes, 'G', ChapterLetters);
    HCodesStart();
    GroupHasChapters(HCodes, 'H', ChapterLetters);
    ICodesStart();
    GroupHasChapters(ICodes, 'I', ChapterLetters);
    JCodesStart();
    GroupHasChapters(JCodes, 'J', ChapterLetters);
    KCodesStart();
    GroupHasChapters(KCodes, 'K', ChapterLetters);
    LCodesStart();
    GroupHasChapters(LCodes, 'L', ChapterLetters);
    MCodesStart();
    GroupHasChapters(MCodes, 'M', ChapterLetters);
    NCodesStart();
    GroupHasChapters(NCodes, 'N', ChapterLetters);
    OCodesStart();
    GroupHasChapters(OCodes, 'O', ChapterLetters);
    RCodesStart();
    GroupHasChapters(RCodes, 'R', ChapterLetters);
    ZCodesStart();
    GroupHasChapters(ZCodes, 'Z', ChapterLetters);
    ChaptersConcat(ACodes, BCodes, ChapterLetters);
    ChaptersConcat(ACodes + BCodes, DCodes, ChapterLetters);
    ChaptersConcat(ACodes + BCodes + DCodes, ECodes, ChapterLetters);
    ChaptersConcat(ACodes + BCodes + DCodes + ECodes, GCodes, ChapterLetters);
    ChaptersConcat(ACodes + BCodes + DCodes + ECodes + GCodes, HCodes, ChapterLetters);
    ChaptersConcat(ACodes + BCodes + DCodes + ECodes + GCodes + HCodes, ICodes, ChapterLetters);
    ChaptersConcat(ACodes + BCodes + DCodes + ECodes + GCodes + HCodes + ICodes, JCodes, ChapterLetters);
    ChaptersConcat(ACodes + BCodes + DCodes + ECodes + GCodes + HCodes + ICodes + JCodes, KCodes, ChapterLetters);
    ChaptersConcat(ACodes + BCodes + DCodes + ECodes + GCodes + HCodes + ICodes + JCodes + KCodes, LCodes, ChapterLetters);
    ChaptersConcat(ACodes + BCodes + DCodes + ECodes + GCodes + HCodes + ICodes + JCodes + KCodes + LCodes, MCodes, ChapterLetters);
    ChaptersConcat(ACodes + BCodes + DCodes + ECodes + GCodes + HCodes + ICodes + JCodes + KCodes + LCodes + MCodes, NCodes, ChapterLetters);
    ChaptersConcat(ACodes + BCodes + DCodes + ECodes + GCodes + HCodes + ICodes + JCodes + KCodes + LCodes + MCodes + NCodes, OCodes, ChapterLetters);
    ChaptersConcat(ACodes + BCodes + DCodes + ECodes + GCodes + HCodes + ICodes + JCodes + KCodes + LCodes + MCodes + NCodes + OCodes, RCodes, ChapterLetters);
    ChaptersConcat(ACodes + BCodes + DCodes + ECodes + GCodes + HCodes + ICodes + JCodes + KCodes + LCodes + MCodes + NCodes + OCodes + RCodes, ZCodes, ChapterLetters);
  }

  /** A code is valid exactly when it has a catalog entry or a chapter. */
  lemma ValidIffKnown(c: Catalog, code: string)
    requires c.Valid()
    ensures c.IsValidCode(code) <==> c.GetDescription(code).Some? || c.GetChapter(code).Some?
  {
  }

  /**
   * In the standard catalog, a code starting with 'U' or with a lower-case
   * letter is rejected: 'U' is not a chapter and the check is case-sensitive.
   */
  lemma StandardRejects(c: Catalog, code: string)
    requires c.Standard()
    requires code != [] && (code[0] == 'U' || IsLower(code[0]))
    ensures !c.IsValidCode(code)
  {
    CodeKeysHaveChapters();
    assert code[0] !in ChapterLetters;
    forall i | 0 <= i < |c.codes| ensures c.codes[i] != code {
      assert c.codes[i][0] in ChapterLetters;
    }
  }

  /** A rejected code never gets a suggestion from a valid catalog. */
  lemma RejectedHasNoSuggestions(c: Catalog, code: string, max: int)
    requires c.Valid() && !c.IsValidCode(code)
    ensures Suggestions(c.codes, code, max) == []
  {
    NoChapterNoSuggestion(c.codes, c.chapterLetters, code, max);
  }

  /** The module-wide `_catalog` and `get_cie10_catalog`. */
  class Registry {
    var instance: Catalog?

    /** Whatever catalog the registry holds is the one the catalog constructor builds. */
    ghost predicate Valid()
      reads this
    {
      instance != null ==> instance.Standard() && instance.Valid()
    }

    constructor ()
      ensures instance == null && Valid()
    {
      instance := null;
    }

    /** Builds the catalog on the first call and returns that same object on every call. */
    method GetCatalog() returns (c: Catalog)
      requires Valid()
      modifies this
      ensures old(instance) != null ==> c == old(instance)
      ensures old(instance) == null ==> fresh(c)
      ensures instance == c && c.Standard() && c.Valid() && Valid()
    {
      if instance == null {
        instance := new Catalog();
      }
      c := instance;
    }
  }
}
