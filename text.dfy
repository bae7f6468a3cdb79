/**
 * The Python string operations the validators rely on: `str.strip`,
 * `str.split(',')`, `','.join`, `str.upper`/`lower`, `str.startswith`,
 * `in` on strings, `re.sub(r'\s+', ' ', ·)`, and the numeric parsers
 * `int(·)` and `float(·)`.  Characters are restricted to what the RIPS
 * flat files carry: whitespace, case mapping and digits are the ASCII ones.
 */
module Text {
  import opened Wrappers

  // ---------------------------------------------------------------------
  // Character classes
  // ---------------------------------------------------------------------

  /** `str.isspace` (and the regex class `\s`) on the ASCII range. */
  predicate IsSpace(c: char)
  {
    c == ' ' || c == '\t' || c == '\n' || c == '\r' || c == '\U{0B}' || c == '\U{0C}'
    || ('\U{1C}' <= c <= '\U{1F}')
  }

  predicate IsDigit(c: char) { '0' <= c <= '9' }
  predicate IsUpper(c: char) { 'A' <= c <= 'Z' }
  predicate IsLower(c: char) { 'a' <= c <= 'z' }

  predicate AllDigits(s: string) { forall i :: 0 <= i < |s| ==> IsDigit(s[i]) }

  /** Every character is whitespace (so `s.strip() == ""`). */
  predicate Blank(s: string) { forall i :: 0 <= i < |s| ==> IsSpace(s[i]) }

  // ---------------------------------------------------------------------
  // strip
  // ---------------------------------------------------------------------

  /** `s.lstrip()`: the suffix left after dropping the leading whitespace. */
  function TrimLeft(s: string): (r: string)
    ensures |r| <= |s| && r == s[|s| - |r|..]
    ensures Blank(s[..|s| - |r|])
    ensures r == [] || !IsSpace(r[0])
  {
    if s != [] && IsSpace(s[0]) then
      var r := TrimLeft(s[1..]);
      assert s[..|s| - |r|] == [s[0]] + s[1..][..|s| - 1 - |r|];
      r
    else s
  }

  /** `s.rstrip()`: the prefix left after dropping the trailing whitespace. */
  function TrimRight(s: string): (r: string)
    ensures |r| <= |s| && r == s[..|r|]
    ensures Blank(s[|r|..])
    ensures r == [] || !IsSpace(r[|r| - 1])
  {
    if s != [] && IsSpace(s[|s| - 1]) then
      var r := TrimRight(s[..|s| - 1]);
      assert s[|r|..] == s[..|s| - 1][|r|..] + [s[|s| - 1]];
      r
    else s
  }

  /** `s.strip()`. */
  function Strip(s: string): string
  {
    TrimRight(TrimLeft(s))
  }

  lemma {:induction false} TrimLeftNoLead(s: string)
    requires s == [] || !IsSpace(s[0])
    ensures TrimLeft(s) == s
  {
  }

  lemma {:induction false} TrimRightKeepsLead(s: string)
    requires s != [] && !IsSpace(s[0])
    ensures TrimRight(s) != [] && TrimRight(s)[0] == s[0]
  {
    if IsSpace(s[|s| - 1]) {
      TrimRightKeepsLead(s[..|s| - 1]);
    }
  }

  /** The stripped text has no whitespace at either end. */
  lemma StripEnds(s: string)
    ensures var r := Strip(s); r == [] || (!IsSpace(r[0]) && !IsSpace(r[|r| - 1]))
  {
    var l := TrimLeft(s);
    if l != [] {
      TrimRightKeepsLead(l);
    }
  }

  /** `s.strip()` is idempotent. */
  lemma StripIdempotent(s: string)
    ensures Strip(Strip(s)) == Strip(s)
  {
    var r := Strip(s);
    StripEnds(s);
    TrimLeftNoLead(r);
  }

  /** `s.strip() == ""` exactly when every character of `s` is whitespace. */
  lemma StripEmptyIff(s: string)
    ensures Strip(s) == [] <==> Blank(s)
  {
    var l := TrimLeft(s);
    if Strip(s) == [] {
      assert Blank(l[0..]);
      assert s == s[..|s| - |l|] + l;
    }
  }

  // ---------------------------------------------------------------------
  // split / join
  // ---------------------------------------------------------------------

  /** Number of occurrences of `c` in `s`. */
  function Count(s: string, c: char): nat
  {
    if s == [] then 0 else (if s[0] == c then 1 else 0) + Count(s[1..], c)
  }

  /** `s.split(sep)` for a one-character separator: always at least one piece. */
  function Split(s: string, sep: char): (r: seq<string>)
    ensures |r| == Count(s, sep) + 1
  {
    if s == [] then [[]]
    else
      var rest := Split(s[1..], sep);
      if s[0] == sep then [[]] + rest
      else [[s[0]] + rest[0]] + rest[1..]
  }

  /** No piece of a split holds the separator. */
  lemma {:induction false} SplitPiecesFree(s: string, sep: char)
    ensures forall i :: 0 <= i < |Split(s, sep)| ==> sep !in Split(s, sep)[i]
  {
    if s != [] {
      SplitPiecesFree(s[1..], sep);
      var rest := Split(s[1..], sep);
      if s[0] != sep {
        var r := Split(s, sep);
        assert r[0] == [s[0]] + rest[0];
        forall i | 1 <= i < |r| ensures sep !in r[i] {
          assert r[i] == rest[i];
        }
      }
    }
  }

  /** `sep.join(parts)`. */
  function Join(parts: seq<string>, sep: char): string
  {
    if parts == [] then []
    else if |parts| == 1 then parts[0]
    else parts[0] + [sep] + Join(parts[1..], sep)
  }

  /** Joining the pieces of a split gives the original text back. */
  lemma {:induction false} JoinSplit(s: string, sep: char)
    ensures Join(Split(s, sep), sep) == s
  {
    if s != [] {
      var rest := Split(s[1..], sep);
      JoinSplit(s[1..], sep);
      if s[0] == sep {
        assert Split(s, sep) == [[]] + rest;
      } else {
        var r := Split(s, sep);
        assert r == [[s[0]] + rest[0]] + rest[1..];
        if |rest| == 1 {
          assert Join(r, sep) == [s[0]] + rest[0];
        } else {
          assert Join(rest, sep) == rest[0] + [sep] + Join(rest[1..], sep);
          assert r[1..] == rest[1..];
        }
      }
    }
  }

  /** A join starts with its first piece, or with the separator when that piece is empty. */
  lemma JoinHead(parts: seq<string>, sep: char)
    requires |parts| >= 1
    ensures parts[0] != [] ==> Join(parts, sep) != [] && Join(parts, sep)[0] == parts[0][0]
    ensures parts[0] == [] && |parts| > 1 ==> Join(parts, sep) != [] && Join(parts, sep)[0] == sep
    ensures parts[0] == [] && |parts| == 1 ==> Join(parts, sep) == []
  {
    if |parts| > 1 {
      assert Join(parts, sep) == parts[0] + [sep] + Join(parts[1..], sep);
    }
  }

  /** A join ends with its last piece, or with the separator when that piece is empty. */
  lemma {:induction false} JoinTail(parts: seq<string>, sep: char)
    requires |parts| >= 1
    ensures var p, j := parts[|parts| - 1], Join(parts, sep);
      (p != [] ==> j != [] && j[|j| - 1] == p[|p| - 1])
      && (p == [] && |parts| > 1 ==> j != [] && j[|j| - 1] == sep)
      && (p == [] && |parts| == 1 ==> j == [])
  {
    if |parts| > 1 {
      var rest := Join(parts[1..], sep);
      JoinTail(parts[1..], sep);
      assert Join(parts, sep) == (parts[0] + [sep]) + rest;
    }
  }

  /** Splitting a join of separator-free pieces gives the pieces back. */
  lemma {:induction false} SplitJoin(parts: seq<string>, sep: char)
    requires |parts| >= 1
    requires forall i :: 0 <= i < |parts| ==> sep !in parts[i]
    ensures Split(Join(parts, sep), sep) == parts
  {
    if |parts| == 1 {
      NoSepSplit(parts[0], sep);
    } else {
      SplitJoin(parts[1..], sep);
      SplitAppend(parts[0], Join(parts[1..], sep), sep);
      assert Join(parts, sep) == parts[0] + ([sep] + Join(parts[1..], sep));
    }
  }

  lemma {:induction false} NoSepSplit(s: string, sep: char)
    requires sep !in s
    ensures Split(s, sep) == [s]
  {
    if s != [] {
      assert s[0] != sep && sep !in s[1..];
      NoSepSplit(s[1..], sep);
      assert [s[0]] + s[1..] == s;
    }
  }

  /** Splitting `a + sep + b`, where `a` has no separator. */
  lemma {:induction false} SplitAppend(a: string, b: string, sep: char)
    requires sep !in a
    ensures Split(a + ([sep] + b), sep) == [a] + Split(b, sep)
  {
    if a == [] {
      assert [] + ([sep] + b) == [sep] + b;
      assert ([sep] + b)[1..] == b;
    } else {
      SplitAppend(a[1..], b, sep);
      assert (a + ([sep] + b))[1..] == a[1..] + ([sep] + b);
      assert [a[0]] + a[1..] == a;
    }
  }

  // ---------------------------------------------------------------------
  // Case, prefixes, substrings
  // ---------------------------------------------------------------------

  function UpperChar(c: char): char
  {
    if IsLower(c) then (c as int - 32) as char else c
  }

  function LowerChar(c: char): char
  {
    if IsUpper(c) then (c as int + 32) as char else c
  }

  /** `s.upper()` on ASCII letters. */
  function Upper(s: string): (r: string)
    ensures |r| == |s|
    ensures forall i :: 0 <= i < |s| ==> r[i] == UpperChar(s[i])
  {
    seq(|s|, i requires 0 <= i < |s| => UpperChar(s[i]))
  }

  /** `s.lower()` on ASCII letters. */
  function Lower(s: string): (r: string)
    ensures |r| == |s|
    ensures forall i :: 0 <= i < |s| ==> r[i] == LowerChar(s[i])
  {
    seq(|s|, i requires 0 <= i < |s| => LowerChar(s[i]))
  }

  /** Upper-casing an upper-cased text changes nothing. */
  lemma UpperIdempotent(s: string)
    ensures Upper(Upper(s)) == Upper(s)
  {
  }

  /** `s.startswith(p)`. */
  predicate StartsWith(s: string, p: string)
  {
    |p| <= |s| && s[..|p|] == p
  }

  /** `t in s` for strings: `t` occurs in `s` at some position. */
  predicate Contains(s: string, t: string)
    decreases |s|
  {
    StartsWith(s, t) || (s != [] && Contains(s[1..], t))
  }

  /** Python slice `s[a:b]`, clamped to the string as Python does. */
  function Slice(s: string, a: nat, b: nat): (r: string)
    ensures |r| <= |s|
  {
    var hi := if b <= |s| then b else |s|;
    if a <= hi then s[a..hi] else []
  }

  /** `re.sub(r'\s+', ' ', s)`: each maximal run of whitespace becomes one space. */
  function CollapseSpaces(s: string): (r: string)
    ensures |r| <= |s|
    decreases |s|
  {
    if s == [] then []
    else if IsSpace(s[0]) then [' '] + CollapseSpaces(TrimLeft(s))
    else [s[0]] + CollapseSpaces(s[1..])
  }

  /** No two whitespace characters are adjacent, and every whitespace is a blank. */
  predicate Collapsed(s: string)
  {
    (forall i :: 0 <= i < |s| && IsSpace(s[i]) ==> s[i] == ' ')
    && (forall i :: 0 <= i < |s| - 1 ==> !(IsSpace(s[i]) && IsSpace(s[i + 1])))
  }

  /** No whitespace at either end, as `str.strip` leaves a text. */
  predicate Trimmed(s: string)
  {
    s == [] || (!IsSpace(s[0]) && !IsSpace(s[|s| - 1]))
  }

  /** Stripping a trimmed text changes nothing. */
  lemma TrimmedStrip(s: string)
    requires Trimmed(s)
    ensures Strip(s) == s
  {
    TrimLeftNoLead(s);
  }

  /** A text leaves `str.strip` trimmed. */
  lemma StripTrimmed(s: string)
    ensures Trimmed(Strip(s))
  {
    StripEnds(s);
  }

  /** A non-whitespace character of `s.strip()` is one of `s`. */
  lemma StripChars(s: string, c: char)
    requires c in Strip(s)
    ensures c in s
  {
    var l := TrimLeft(s);
    assert c in l;
    assert s == s[..|s| - |l|] + l;
  }

  lemma CollapsedCons(c: char, r: string)
    requires Collapsed(r)
    requires IsSpace(c) ==> c == ' ' && (r == [] || !IsSpace(r[0]))
    ensures Collapsed([c] + r)
  {
    var s := [c] + r;
    assert forall i :: 1 <= i < |s| ==> s[i] == r[i - 1];
  }

  /** `re.sub(r'\s+', ' ', s)` leaves no run of whitespace and no whitespace but blanks. */
  lemma {:induction false} CollapseIsCollapsed(s: string)
    ensures Collapsed(CollapseSpaces(s))
    decreases |s|
  {
    if s != [] {
      if IsSpace(s[0]) {
        var t := TrimLeft(s);
        CollapseIsCollapsed(t);
        assert t == [] || CollapseSpaces(t)[0] == t[0];
        CollapsedCons(' ', CollapseSpaces(t));
      } else {
        CollapseIsCollapsed(s[1..]);
        CollapsedCons(s[0], CollapseSpaces(s[1..]));
      }
    }
  }

  /** On a text that is already collapsed the substitution changes nothing. */
  lemma {:induction false} CollapsedFixed(s: string)
    requires Collapsed(s)
    ensures CollapseSpaces(s) == s
  {
    if s != [] {
      var r := s[1..];
      forall i | 0 <= i < |r|
        ensures (IsSpace(r[i]) ==> r[i] == ' ') && (i < |r| - 1 ==> !(IsSpace(r[i]) && IsSpace(r[i + 1])))
      {
        assert r[i] == s[i + 1];
        if i < |r| - 1 { assert r[i + 1] == s[i + 2]; }
      }
      CollapsedFixed(r);
      if IsSpace(s[0]) {
        if r != [] {
          assert r[0] == s[1];
          assert !(IsSpace(s[0]) && IsSpace(s[1]));
        }
        TrimLeftNoLead(r);
        assert TrimLeft(s) == r;
      }
      assert s == [s[0]] + r;
    }
  }

  /** The substitution keeps a non-whitespace first and last character. */
  lemma {:induction false} CollapseKeepsEnds(s: string)
    requires Trimmed(s)
    ensures var r := CollapseSpaces(s); Trimmed(r) && (r == [] <==> s == [])
    ensures var r := CollapseSpaces(s); s != [] ==> r[0] == s[0] && r[|r| - 1] == s[|s| - 1]
    decreases |s|
  {
    if s != [] {
      CollapseKeepsLast(s);
    }
  }

  lemma {:induction false} CollapseKeepsLast(s: string)
    requires s != [] && !IsSpace(s[|s| - 1])
    ensures var r := CollapseSpaces(s); r != [] && r[|r| - 1] == s[|s| - 1]
    decreases |s|
  {
    if IsSpace(s[0]) {
      var t := TrimLeft(s);
      assert t != [] by { assert !IsSpace(s[..|s|][|s| - 1]); }
      assert t[|t| - 1] == s[|s| - 1];
      CollapseKeepsLast(t);
    } else if |s| > 1 {
      CollapseKeepsLast(s[1..]);
    }
  }

  /** A non-whitespace character of the substituted text is one of `s`. */
  lemma {:induction false} CollapseChars(s: string, c: char)
    requires !IsSpace(c) && c in CollapseSpaces(s)
    ensures c in s
    decreases |s|
  {
    if IsSpace(s[0]) {
      var t := TrimLeft(s);
      assert c in CollapseSpaces(t);
      CollapseChars(t, c);
      assert s == s[..|s| - |t|] + t;
    } else if c != s[0] {
      assert c in CollapseSpaces(s[1..]);
      CollapseChars(s[1..], c);
      assert s == [s[0]] + s[1..];
    }
  }

  /** Upper-casing keeps a text collapsed and trimmed. */
  lemma UpperKeepsShape(s: string)
    ensures Collapsed(s) ==> Collapsed(Upper(s))
    ensures Trimmed(s) ==> Trimmed(Upper(s))
  {
  }

  /** Upper-casing never produces a character that is not an upper-case letter unless it was there. */
  lemma UpperChars(s: string, c: char)
    requires !IsUpper(c) && c in Upper(s)
    ensures c in s
  {
    var i :| 0 <= i < |s| && Upper(s)[i] == c;
    assert s[i] == c;
  }

  // ---------------------------------------------------------------------
  // Decimal digits
  // ---------------------------------------------------------------------

  function DigitVal(c: char): nat
    requires IsDigit(c)
  {
    (c as int) - ('0' as int)
  }

  function DigitChar(n: nat): (c: char)
    requires n < 10
    ensures IsDigit(c) && DigitVal(c) == n
  {
    ((n + '0' as int) as char)
  }

  /** The number a string of decimal digits denotes. */
  function NatOf(s: string): nat
    requires AllDigits(s)
  {
    if s == [] then 0 else NatOf(s[..|s| - 1]) * 10 + DigitVal(s[|s| - 1])
  }

  /** Python's `str(n)` for a natural number. */
  function Show(n: nat): (r: string)
    ensures r != [] && AllDigits(r)
  {
    if n < 10 then [DigitChar(n)] else Show(n / 10) + [DigitChar(n % 10)]
  }

  /** Python's `str(n)` for an integer. */
  function ShowInt(n: int): string
  {
    if n < 0 then "-" + Show(-n) else Show(n)
  }

  /** Reading back a rendered number gives the number. */
  lemma {:induction false} NatOfShow(n: nat)
    ensures NatOf(Show(n)) == n
  {
    if n >= 10 {
      NatOfShow(n / 10);
      var s := Show(n);
      assert s[..|s| - 1] == Show(n / 10);
    }
  }

  /** Digit strings used by `int()` and `float()`: digits, with single underscores between digits. */
  predicate DigitGroups(s: string)
  {
    s != [] && IsDigit(s[0]) && IsDigit(s[|s| - 1])
    && (forall i :: 0 <= i < |s| ==> IsDigit(s[i]) || s[i] == '_')
    && (forall i :: 0 <= i < |s| - 1 ==> s[i] == '_' ==> s[i + 1] != '_')
  }

  /** The text with its underscores removed. */
  function Unscore(s: string): (r: string)
    ensures (forall i :: 0 <= i < |s| ==> IsDigit(s[i]) || s[i] == '_') ==> AllDigits(r)
    ensures '_' !in s ==> r == s
  {
    if s == [] then []
    else if s[0] == '_' then Unscore(s[1..])
    else [s[0]] + Unscore(s[1..])
  }

  /** The value of a digit-group string. */
  function GroupValue(s: string): nat
    requires DigitGroups(s)
  {
    NatOf(Unscore(s))
  }

  lemma ShowIsGroup(n: nat)
    ensures DigitGroups(Show(n)) && '_' !in Show(n) && GroupValue(Show(n)) == n
  {
    var s := Show(n);
    assert forall i :: 0 <= i < |s| ==> s[i] != '_' by {
      forall i | 0 <= i < |s| ensures s[i] != '_' { assert IsDigit(s[i]); }
    }
    NatOfShow(n);
  }

  /** Splits an optional leading sign off a stripped number text. */
  function SignSplit(t: string): (bool, string)
  {
    if t != [] && (t[0] == '-' || t[0] == '+') then (t[0] == '-', t[1..]) else (false, t)
  }

  /** Python's `int(s)` in base 10; `None` for the `ValueError` case. */
  function PyInt(s: string): Option<int>
  {
    var (neg, body) := SignSplit(Strip(s));
    if DigitGroups(body) then
      var v: int := GroupValue(body);
      Some(if neg then -v else v)
    else None
  }

  lemma {:induction false} StripOfSolid(s: string)
    requires forall i :: 0 <= i < |s| ==> !IsSpace(s[i])
    ensures Strip(s) == s
  {
    TrimLeftNoLead(s);
  }

  lemma DigitsSolid(d: string)
    requires AllDigits(d)
    ensures forall i :: 0 <= i < |d| ==> !IsSpace(d[i])
  {
  }

  /** A rendered integer has no whitespace, and its sign splits off to leave `str(|n|)`. */
  lemma ShowIntParts(n: int)
    ensures Strip(ShowInt(n)) == ShowInt(n)
    ensures SignSplit(ShowInt(n)) == (n < 0, Show(if n < 0 then -n else n))
  {
    ShowIntSolid(n);
    ShowIntSign(n);
  }

  lemma ShowIntSolid(n: int)
    ensures Strip(ShowInt(n)) == ShowInt(n)
  {
    var m: nat := if n < 0 then -n else n;
    var d := Show(m);
    DigitsSolid(d);
    var t := ShowInt(n);
    if n < 0 {
      assert t == "-" + d;
      forall i | 0 <= i < |t|
        ensures !IsSpace(t[i])
      {
        if i > 0 { assert t[i] == d[i - 1]; }
      }
    }
    StripOfSolid(t);
  }

  lemma ShowIntSign(n: int)
    ensures SignSplit(ShowInt(n)) == (n < 0, Show(if n < 0 then -n else n))
  {
    var m: nat := if n < 0 then -n else n;
    var d := Show(m);
    assert IsDigit(d[0]);
    if n < 0 {
      assert ShowInt(n)[1..] == d;
    }
  }

  /** `int(str(n)) == n`. */
  lemma PyIntShow(n: int)
    ensures PyInt(ShowInt(n)) == Some(n)
  {
    var m: nat := if n < 0 then -n else n;
    ShowIsGroup(m);
    ShowIntParts(n);
  }

  // ---------------------------------------------------------------------
  // float()
  // ---------------------------------------------------------------------

  /** A Python float, with its exact value when finite. */
  datatype Float = Finite(v: real) | Infinity(negative: bool) | NaN
  {
    /** `self < x`; every comparison with NaN is false. */
    predicate Below(x: real)
    {
      match this
      case Finite(v) => v < x
      case Infinity(neg) => neg
      case NaN => false
    }

    /** `self > x`. */
    predicate Above(x: real)
    {
      match this
      case Finite(v) => v > x
      case Infinity(neg) => !neg
      case NaN => false
    }
  }

  function Pow10(n: nat): (p: nat)
    ensures p >= 1
  {
    if n == 0 then 1 else 10 * Pow10(n - 1)
  }

  /** Position of the first occurrence of `c` in `s`, or `|s|`. */
  function IndexOf(s: string, c: char): (k: nat)
    ensures k <= |s| && c !in s[..k]
    ensures k < |s| ==> s[k] == c
  {
    if s == [] then 0 else if s[0] == c then 0 else 1 + IndexOf(s[1..], c)
  }

  /** Digits before and after an optional decimal point: `1`, `1.`, `.5`, `1.5`. */
  function MantissaValue(m: string): Option<real>
  {
    var k := IndexOf(m, '.');
    if k == |m| then
      if DigitGroups(m) then Some(GroupValue(m) as real) else None
    else
      var ip, fp := m[..k], m[k + 1..];
      if ip == [] && fp == [] then None
      else if (ip == [] || DigitGroups(ip)) && (fp == [] || DigitGroups(fp)) then
        var whole := if ip == [] then 0 else GroupValue(ip);
        var frac := if fp == [] then 0 else GroupValue(fp);
        Some(whole as real + frac as real / Pow10(|Unscore(fp)|) as real)
      else None
  }

  /** A decimal literal with an optional exponent `e[+-]digits`. */
  function DecimalValue(body: string): Option<real>
  {
    var ke := IndexOf(Lower(body), 'e');
    var mant := MantissaValue(body[..ke]);
    if mant.None? then None
    else if ke == |body| then mant
    else
      var (eneg, edigits) := SignSplit(body[ke + 1..]);
      if !DigitGroups(edigits) then None
      else
        var e := GroupValue(edigits);
        Some(if eneg then mant.value / Pow10(e) as real else mant.value * Pow10(e) as real)
  }

  /** Python's `float(s)`; `None` for the `ValueError` case. */
  function PyFloat(s: string): Option<Float>
  {
    var (neg, body) := SignSplit(Strip(s));
    FloatBody(neg, body)
  }

  /** The unsigned part of a `float()` literal, with the sign already split off. */
  function FloatBody(neg: bool, body: string): Option<Float>
  {
    var low := Lower(body);
    if low == "inf" || low == "infinity" then Some(Infinity(neg))
    else if low == "nan" then Some(NaN)
    else
      match DecimalValue(body)
      case None => None
      case Some(v) => Some(Finite(if neg then -v else v))
  }

  lemma DigitsHaveNoPointOrExponent(d: string)
    requires AllDigits(d) && d != []
    ensures IndexOf(d, '.') == |d| && IndexOf(Lower(d), 'e') == |d|
    ensures Lower(d) != "inf" && Lower(d) != "infinity" && Lower(d) != "nan"
  {
    var low := Lower(d);
    assert forall i :: 0 <= i < |d| ==> d[i] != '.' && low[i] != 'e' && IsDigit(low[i]) by {
      forall i | 0 <= i < |d| ensures d[i] != '.' && low[i] != 'e' && IsDigit(low[i]) { assert IsDigit(d[i]); }
    }
    assert '.' !in d;
    assert 'e' !in low;
    assert !IsDigit("inf"[0]) && !IsDigit("nan"[0]);
  }

  lemma DecimalOfDigits(d: string)
    requires AllDigits(d) && DigitGroups(d)
    ensures DecimalValue(d) == Some(GroupValue(d) as real)
  {
    DigitsHaveNoPointOrExponent(d);
    assert d[..|d|] == d;
    assert MantissaValue(d) == Some(GroupValue(d) as real);
  }

  lemma FloatBodyOfDigits(neg: bool, d: string)
    requires AllDigits(d) && DigitGroups(d)
    ensures FloatBody(neg, d) == Some(Finite(if neg then -(GroupValue(d) as real) else GroupValue(d) as real))
  {
    DigitsHaveNoPointOrExponent(d);
    DecimalOfDigits(d);
  }

  /** `float(str(n)) == n` for an integer `n`. */
  lemma PyFloatShow(n: int)
    ensures PyFloat(ShowInt(n)) == Some(Finite(n as real))
  {
    var m: nat := if n < 0 then -n else n;
    ShowIsGroup(m);
    ShowIntParts(n);
    FloatBodyOfDigits(n < 0, Show(m));
  }
}
