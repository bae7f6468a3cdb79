/**
 * The anchored regular expressions of the validators (`re.match(r'^…$', s)`),
 * written as sequences of quantified character classes and matched with
 * backtracking over the repetition counts, as Python's `re` does.  Each
 * pattern used by the model is paired with a lemma spelling out, character
 * by character, the texts it accepts.
 */
module Patterns {
  import opened Text
  import opened Dates

  datatype Class = Digit | UpperLetter | Exactly(c: char) | DigitOr(c: char) | DigitOrUpper

  predicate InClass(c: char, k: Class)
  {
    match k
    case Digit => IsDigit(c)
    case UpperLetter => IsUpper(c)
    case Exactly(x) => c == x
    case DigitOr(x) => IsDigit(c) || c == x
    case DigitOrUpper => IsDigit(c) || IsUpper(c)
  }

  /** `k{lo,hi}`. */
  datatype Item = Item(cls: Class, lo: nat, hi: nat)

  predicate AllIn(s: string, k: Class)
  {
    forall i :: 0 <= i < |s| ==> InClass(s[i], k)
  }

  /** The whole of `s` matches the items in sequence. */
  predicate FullMatch(p: seq<Item>, s: string)
    decreases |p|, 1, 0
  {
    if p == [] then s == [] else TryCount(p, s, p[0].lo)
  }

  /** The first item takes `k` characters or more (up to its bound) and the rest matches. */
  predicate TryCount(p: seq<Item>, s: string, k: nat)
    requires p != []
    decreases |p|, 0, |s| - k
  {
    k <= p[0].hi && k <= |s|
    && ((AllIn(s[..k], p[0].cls) && FullMatch(p[1..], s[k..])) || TryCount(p, s, k + 1))
  }

  /** A fixed count `k{n}` takes exactly `n` characters. */
  lemma FixedItem(k: Class, n: nat, rest: seq<Item>, s: string)
    ensures FullMatch([Item(k, n, n)] + rest, s)
        <==> n <= |s| && AllIn(s[..n], k) && FullMatch(rest, s[n..])
  {
    var p := [Item(k, n, n)] + rest;
    assert p[1..] == rest;
    assert !TryCount(p, s, n + 1);
  }

  /** An optional `k?` takes no character or one. */
  lemma OptionalItem(k: Class, rest: seq<Item>, s: string)
    ensures FullMatch([Item(k, 0, 1)] + rest, s)
        <==> FullMatch(rest, s) || (|s| >= 1 && InClass(s[0], k) && FullMatch(rest, s[1..]))
  {
    var p := [Item(k, 0, 1)] + rest;
    assert p[1..] == rest;
    assert s[..0] == [] && s[0..] == s;
    assert FullMatch(p, s) == TryCount(p, s, 0);
    assert TryCount(p, s, 0) == (FullMatch(rest, s) || TryCount(p, s, 1));
    if |s| >= 1 {
      assert AllIn(s[..1], k) == InClass(s[0], k);
      assert TryCount(p, s, 1) == (InClass(s[0], k) && FullMatch(rest, s[1..]));
    }
  }

  /** `k{2,3}` takes two or three characters. */
  lemma TwoOrThree(k: Class, rest: seq<Item>, s: string)
    ensures FullMatch([Item(k, 2, 3)] + rest, s)
        <==> ((2 <= |s| && AllIn(s[..2], k) && FullMatch(rest, s[2..]))
              || (3 <= |s| && AllIn(s[..3], k) && FullMatch(rest, s[3..])))
  {
    var p := [Item(k, 2, 3)] + rest;
    assert p[1..] == rest;
    assert FullMatch(p, s) == TryCount(p, s, 2);
    assert TryCount(p, s, 2) == (2 <= |s| && ((AllIn(s[..2], k) && FullMatch(rest, s[2..])) || TryCount(p, s, 3)));
    assert TryCount(p, s, 3) == (3 <= |s| && ((AllIn(s[..3], k) && FullMatch(rest, s[3..])) || TryCount(p, s, 4)));
    assert !TryCount(p, s, 4);
  }

  // ---------------------------------------------------------------------
  // The patterns of the model
  // ---------------------------------------------------------------------

  /** `^[A-Z]\d{2}[0-9X]?$`, the ICD-10 format of the field validators. */
  const Cie10Pattern: seq<Item> := [Item(UpperLetter, 1, 1), Item(Digit, 2, 2), Item(DigitOr('X'), 0, 1)]

  /** `^\d{6}$`, the CUPS procedure-code format. */
  const CupsPattern: seq<Item> := [Item(Digit, 6, 6)]

  /** `^\d{2}/\d{2}/\d{4}$`, the date shape checked before `%d/%m/%Y`. */
  const DmyPattern: seq<Item> :=
    [Item(Digit, 2, 2), Item(Exactly('/'), 1, 1), Item(Digit, 2, 2), Item(Exactly('/'), 1, 1), Item(Digit, 4, 4)]

  /** `^[A-Z][0-9]{2,3}[0-9A-Z]?$`, the diagnosis format of the quality validator. */
  const DiagnosisPattern: seq<Item> := [Item(UpperLetter, 1, 1), Item(Digit, 2, 3), Item(DigitOrUpper, 0, 1)]

  lemma EmptyRest(s: string)
    ensures FullMatch([], s) <==> s == []
  {
  }

  lemma AllInOne(s: string, k: Class)
    requires |s| >= 1
    ensures AllIn(s[..1], k) <==> InClass(s[0], k)
  {
    assert s[..1][0] == s[0];
  }

  lemma AllInTwo(s: string, k: Class)
    requires |s| >= 2
    ensures AllIn(s[..2], k) <==> InClass(s[0], k) && InClass(s[1], k)
  {
    assert s[..2][0] == s[0] && s[..2][1] == s[1];
  }

  /** The ICD-10 format: a capital letter, two digits, then optionally a digit or `X`. */
  lemma Cie10Shape(s: string)
    ensures FullMatch(Cie10Pattern, s)
        <==> (|s| == 3 || |s| == 4) && IsUpper(s[0]) && IsDigit(s[1]) && IsDigit(s[2])
             && (|s| == 4 ==> IsDigit(s[3]) || s[3] == 'X')
  {
    var p2 := [Item(DigitOr('X'), 0, 1)] + [];
    var p1 := [Item(Digit, 2, 2)] + p2;
    assert Cie10Pattern == [Item(UpperLetter, 1, 1)] + p1;
    FixedItem(UpperLetter, 1, p1, s);
    if |s| < 3 {
      if |s| >= 1 { FixedItem(Digit, 2, p2, s[1..]); }
    } else {
      var t := s[1..];
      AllInOne(s, UpperLetter);
      FixedItem(Digit, 2, p2, t);
      AllInTwo(t, Digit);
      var u := t[2..];
      OptionalItem(DigitOr('X'), [], u);
      assert u == s[3..] && t[0] == s[1] && t[1] == s[2];
      if |u| >= 1 { assert u[0] == s[3]; assert |u[1..]| == |s| - 4; }
    }
  }

  /** The CUPS format: exactly six digits. */
  lemma CupsShape(s: string)
    ensures FullMatch(CupsPattern, s) <==> |s| == 6 && AllDigits(s)
  {
    assert CupsPattern == [Item(Digit, 6, 6)] + [];
    FixedItem(Digit, 6, [], s);
    if |s| == 6 {
      assert s[..6] == s;
    }
  }

  lemma DigitsAllIn(s: string)
    ensures AllIn(s, Digit) <==> AllDigits(s)
  {
  }

  /** A run of `n` digits, then the rest. */
  lemma DigitsThen(n: nat, rest: seq<Item>, s: string)
    ensures FullMatch([Item(Digit, n, n)] + rest, s)
        <==> n <= |s| && AllDigits(s[..n]) && FullMatch(rest, s[n..])
  {
    FixedItem(Digit, n, rest, s);
    if n <= |s| { DigitsAllIn(s[..n]); }
  }

  /** One slash, then the rest. */
  lemma SlashThen(rest: seq<Item>, s: string)
    ensures FullMatch([Item(Exactly('/'), 1, 1)] + rest, s)
        <==> |s| >= 1 && s[0] == '/' && FullMatch(rest, s[1..])
  {
    FixedItem(Exactly('/'), 1, rest, s);
    if |s| >= 1 { AllInOne(s, Exactly('/')); }
  }

  /** `/\d{4}`, the part of the date after the month. */
  lemma DmyYearPart(u: string)
    ensures FullMatch([Item(Exactly('/'), 1, 1), Item(Digit, 4, 4)], u)
        <==> |u| == 5 && u[0] == '/' && AllDigits(u[1..])
  {
    assert [Item(Exactly('/'), 1, 1), Item(Digit, 4, 4)] == [Item(Exactly('/'), 1, 1)] + ([Item(Digit, 4, 4)] + []);
    SlashThen([Item(Digit, 4, 4)] + [], u);
    if |u| >= 1 {
      DigitsThen(4, [], u[1..]);
      if |u| == 5 { assert u[1..][..4] == u[1..]; }
    }
  }

  /** `/\d{2}/\d{4}`, the part of the date after the day. */
  lemma DmyMonthPart(t: string)
    ensures FullMatch([Item(Exactly('/'), 1, 1), Item(Digit, 2, 2), Item(Exactly('/'), 1, 1), Item(Digit, 4, 4)], t)
        <==> |t| == 8 && t[0] == '/' && AllDigits(t[1..3]) && t[3] == '/' && AllDigits(t[4..])
  {
    var p3 := [Item(Exactly('/'), 1, 1), Item(Digit, 4, 4)];
    assert [Item(Exactly('/'), 1, 1), Item(Digit, 2, 2), Item(Exactly('/'), 1, 1), Item(Digit, 4, 4)]
        == [Item(Exactly('/'), 1, 1)] + ([Item(Digit, 2, 2)] + p3);
    SlashThen([Item(Digit, 2, 2)] + p3, t);
    if |t| >= 1 {
      var v := t[1..];
      DigitsThen(2, p3, v);
      if |v| >= 2 {
        DmyYearPart(v[2..]);
        assert v[..2] == t[1..3] && v[2..] == t[3..];
        if |t| == 8 { assert t[3..][1..] == t[4..]; }
      }
    }
  }

  /** The date shape, character by character. */
  lemma DmyShapeIff(s: string)
    ensures FullMatch(DmyPattern, s) <==> DmyShape(s)
  {
    var p1 := [Item(Exactly('/'), 1, 1), Item(Digit, 2, 2), Item(Exactly('/'), 1, 1), Item(Digit, 4, 4)];
    assert DmyPattern == [Item(Digit, 2, 2)] + p1;
    DigitsThen(2, p1, s);
    if |s| >= 2 {
      var t := s[2..];
      DmyMonthPart(t);
      if |s| == 10 {
        assert t[1..3] == s[3..5];
        assert t[4..] == s[6..];
      }
    }
  }

  /** `[0-9A-Z]?` at the end of the text. */
  lemma OptionalLast(u: string)
    ensures FullMatch([Item(DigitOrUpper, 0, 1)] + [], u)
        <==> |u| == 0 || (|u| == 1 && (IsDigit(u[0]) || IsUpper(u[0])))
  {
    OptionalItem(DigitOrUpper, [], u);
  }

  /** `[0-9]{2,3}[0-9A-Z]?`, the part of the diagnosis format after the letter. */
  lemma DiagnosisTail(t: string)
    ensures FullMatch([Item(Digit, 2, 3)] + ([Item(DigitOrUpper, 0, 1)] + []), t)
        <==> 2 <= |t| <= 4 && IsDigit(t[0]) && IsDigit(t[1])
             && (|t| >= 3 ==> IsDigit(t[2]) || IsUpper(t[2]))
             && (|t| == 4 ==> IsDigit(t[2]) && (IsDigit(t[3]) || IsUpper(t[3])))
  {
    var p2 := [Item(DigitOrUpper, 0, 1)] + [];
    TwoOrThree(Digit, p2, t);
    if |t| >= 2 {
      AllInTwo(t, Digit);
      OptionalLast(t[2..]);
    }
    if |t| >= 3 {
      assert t[..3][..2] == t[..2] && t[..3][2] == t[2];
      assert AllIn(t[..3], Digit) <==> AllIn(t[..2], Digit) && IsDigit(t[2]);
      OptionalLast(t[3..]);
    }
  }

  /** The quality validator's diagnosis format, character by character. */
  lemma DiagnosisShape(s: string)
    ensures FullMatch(DiagnosisPattern, s)
        <==> 3 <= |s| <= 5 && IsUpper(s[0]) && IsDigit(s[1]) && IsDigit(s[2])
             && (|s| >= 4 ==> IsDigit(s[3]) || IsUpper(s[3]))
             && (|s| == 5 ==> IsDigit(s[3]) && (IsDigit(s[4]) || IsUpper(s[4])))
  {
    var p1 := [Item(Digit, 2, 3)] + ([Item(DigitOrUpper, 0, 1)] + []);
    assert DiagnosisPattern == [Item(UpperLetter, 1, 1)] + p1;
    FixedItem(UpperLetter, 1, p1, s);
    if |s| >= 1 {
      AllInOne(s, UpperLetter);
      var t := s[1..];
      DiagnosisTail(t);
      assert |t| == |s| - 1;
      assert forall i :: 0 <= i < |t| ==> t[i] == s[i + 1];
    }
  }
}
