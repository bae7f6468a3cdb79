/**
 * Gregorian dates, Python's `date.toordinal` day arithmetic, and the two
 * `datetime.strptime` formats the validators use (`%Y-%m-%d` and
 * `%d/%m/%Y`, plus `%Y-%m-%d %H:%M`).  A format is matched the way
 * Python's `_strptime` does it: each directive is a regular-expression
 * alternation tried in order, the match must consume the whole text, and
 * the resulting fields must form a real calendar day (year 1 to 9999).
 */
module Dates {
  import opened Wrappers
  import opened Text

  datatype Date = Date(year: int, month: int, day: int)

  /** A date together with a time of day, as `datetime` holds it (to the minute). */
  datatype DateTime = DateTime(date: Date, hour: int, minute: int)

  predicate IsLeap(y: int)
  {
    y % 4 == 0 && (y % 100 != 0 || y % 400 == 0)
  }

  function DaysInMonth(y: int, m: int): int
  {
    if m == 2 then (if IsLeap(y) then 29 else 28)
    else if m == 4 || m == 6 || m == 9 || m == 11 then 30
    else 31
  }

  /** The dates `datetime.date` accepts. */
  predicate Valid(d: Date)
  {
    1 <= d.year <= 9999 && 1 <= d.month <= 12 && 1 <= d.day <= DaysInMonth(d.year, d.month)
  }

  /** `a < b` in calendar order. */
  predicate Before(a: Date, b: Date)
  {
    a.year < b.year
    || (a.year == b.year && (a.month < b.month || (a.month == b.month && a.day < b.day)))
  }

  /** `a < b` for date-times. */
  predicate BeforeTime(a: DateTime, b: DateTime)
  {
    Before(a.date, b.date)
    || (a.date == b.date && (a.hour < b.hour || (a.hour == b.hour && a.minute < b.minute)))
  }

  /** A date read without a time stands for its midnight. */
  function Midnight(d: Date): DateTime
  {
    DateTime(d, 0, 0)
  }

  // ---------------------------------------------------------------------
  // Day numbers
  // ---------------------------------------------------------------------

  function DaysBeforeYear(y: int): int
  {
    var p := y - 1;
    365 * p + p / 4 - p / 100 + p / 400
  }

  function DaysBeforeMonth(y: int, m: int): int
    requires 1 <= m <= 13
    decreases m
  {
    if m == 1 then 0 else DaysBeforeMonth(y, m - 1) + DaysInMonth(y, m - 1)
  }

  /** Python's `date.toordinal()`: 0001-01-01 is day 1. */
  function Ordinal(d: Date): int
    requires Valid(d)
  {
    DaysBeforeYear(d.year) + DaysBeforeMonth(d.year, d.month) + d.day
  }

  /** `(b - a).days` for two dates. */
  function DaysBetween(a: Date, b: Date): int
    requires Valid(a) && Valid(b)
  {
    Ordinal(b) - Ordinal(a)
  }

  /** A year has 365 days, 366 when it is a leap year. */
  lemma YearLength(y: int)
    requires y >= 1
    ensures DaysBeforeYear(y + 1) - DaysBeforeYear(y) == (if IsLeap(y) then 366 else 365)
    ensures DaysBeforeMonth(y, 13) == (if IsLeap(y) then 366 else 365)
  {
    LeapDays(y);
    MonthDays(y);
  }

  lemma LeapDays(y: int)
    requires y >= 1
    ensures DaysBeforeYear(y + 1) - DaysBeforeYear(y) == (if IsLeap(y) then 366 else 365)
  {
    Step4(y);
    Step100(y);
    Step400(y);
    if y % 400 == 0 { Multiple400(y); }
    if y % 100 == 0 { Multiple100(y); }
  }

  lemma Multiple400(y: int)
    requires y % 400 == 0
    ensures y % 100 == 0 && y % 4 == 0
  {
    var t := y / 400;
    assert y == 100 * (4 * t);
    assert y == 4 * (100 * t);
  }

  lemma Multiple100(y: int)
    requires y % 100 == 0
    ensures y % 4 == 0
  {
    var t := y / 100;
    assert y == 4 * (25 * t);
  }

  /** The count of multiples of `k` up to `y` grows by one exactly at a multiple of `k`. */
  lemma Step4(y: int)
    ensures y / 4 - (y - 1) / 4 == (if y % 4 == 0 then 1 else 0)
  {
  }

  lemma Step100(y: int)
    ensures y / 100 - (y - 1) / 100 == (if y % 100 == 0 then 1 else 0)
  {
  }

  lemma Step400(y: int)
    ensures y / 400 - (y - 1) / 400 == (if y % 400 == 0 then 1 else 0)
  {
  }

  lemma MonthDays(y: int)
    ensures DaysBeforeMonth(y, 13) == (if IsLeap(y) then 366 else 365)
  {
    assert DaysBeforeMonth(y, 3) == 31 + DaysInMonth(y, 2);
    assert DaysBeforeMonth(y, 7) == DaysBeforeMonth(y, 3) + 122;
    assert DaysBeforeMonth(y, 13) == DaysBeforeMonth(y, 7) + 184;
  }

  lemma {:induction false} MonthsMonotone(y: int, m1: int, m2: int)
    requires 1 <= m1 < m2 <= 13
    ensures DaysBeforeMonth(y, m1) + DaysInMonth(y, m1) <= DaysBeforeMonth(y, m2)
    decreases m2 - m1
  {
    if m1 + 1 < m2 {
      MonthsMonotone(y, m1 + 1, m2);
    }
  }

  lemma {:induction false} YearsMonotone(y1: int, y2: int)
    requires 1 <= y1 < y2
    ensures DaysBeforeYear(y1) + DaysBeforeMonth(y1, 13) <= DaysBeforeYear(y2)
    decreases y2 - y1
  {
    YearLength(y1);
    if y1 + 1 < y2 {
      YearsMonotone(y1 + 1, y2);
      YearLength(y1 + 1);
    }
  }

  lemma {:induction false} OrdinalWithinYear(d: Date)
    requires Valid(d)
    ensures DaysBeforeYear(d.year) < Ordinal(d) <= DaysBeforeYear(d.year) + DaysBeforeMonth(d.year, 13)
  {
    if d.month < 12 {
      MonthsMonotone(d.year, d.month, 13);
    }
  }

  /** Day numbers follow calendar order: `a < b` exactly when `a.toordinal() < b.toordinal()`. */
  lemma OrdinalOrder(a: Date, b: Date)
    requires Valid(a) && Valid(b)
    ensures Before(a, b) <==> Ordinal(a) < Ordinal(b)
    ensures a == b <==> Ordinal(a) == Ordinal(b)
  {
    if Before(a, b) {
      BeforeOrdinal(a, b);
    } else if a != b {
      BeforeOrdinal(b, a);
    }
  }

  lemma BeforeOrdinal(a: Date, b: Date)
    requires Valid(a) && Valid(b) && Before(a, b)
    ensures Ordinal(a) < Ordinal(b)
  {
    if a.year < b.year {
      OrdinalWithinYear(a);
      OrdinalWithinYear(b);
      YearsMonotone(a.year, b.year);
    } else if a.month < b.month {
      MonthsMonotone(a.year, a.month, b.month);
    }
  }

  // ---------------------------------------------------------------------
  // Age in whole years
  // ---------------------------------------------------------------------

  /** Calendar years from `birth` to `ref`: the year difference, one less before the birthday. */
  function AgeYears(birth: Date, ref: Date): int
  {
    ref.year - birth.year
    - (if ref.month < birth.month || (ref.month == birth.month && ref.day < birth.day) then 1 else 0)
  }

  /** A reference date on or after the birth date gives a non-negative age. */
  lemma AgeNonNegative(birth: Date, ref: Date)
    requires !Before(ref, birth)
    ensures AgeYears(birth, ref) >= 0
  {
  }

  /** The age is positive exactly when the first birthday has been reached. */
  lemma AgePositiveIff(birth: Date, ref: Date)
    ensures AgeYears(birth, ref) >= 1 <==> !Before(ref, Date(birth.year + 1, birth.month, birth.day))
  {
  }

  // ---------------------------------------------------------------------
  // strptime
  // ---------------------------------------------------------------------

  /** What must follow a directive for the rest of the format to have a chance. */
  datatype Follow = AtEnd | Char(c: char) | Space

  predicate FollowOk(s: string, n: nat, f: Follow)
  {
    match f
    case AtEnd => true
    case Char(c) => n < |s| && s[n] == c
    case Space => n < |s| && IsSpace(s[n])
  }

  /** A candidate match of a directive: the field value and the characters it takes. */
  datatype Cand = Cand(value: nat, len: nat)

  function D2(s: string): nat
    requires |s| >= 2 && IsDigit(s[0]) && IsDigit(s[1])
  {
    DigitVal(s[0]) * 10 + DigitVal(s[1])
  }

  /** `%d` = `3[01]|[12]\d|0[1-9]|[1-9]| [1-9]`: the alternatives matching at the start, in order. */
  function DayCands(s: string): seq<Cand>
  {
    (if |s| >= 2 && s[0] == '3' && (s[1] == '0' || s[1] == '1') then [Cand(D2(s), 2)] else [])
    + (if |s| >= 2 && (s[0] == '1' || s[0] == '2') && IsDigit(s[1]) then [Cand(D2(s), 2)] else [])
    + (if |s| >= 2 && s[0] == '0' && '1' <= s[1] <= '9' then [Cand(D2(s), 2)] else [])
    + (if |s| >= 1 && '1' <= s[0] <= '9' then [Cand(DigitVal(s[0]), 1)] else [])
    + (if |s| >= 2 && s[0] == ' ' && '1' <= s[1] <= '9' then [Cand(DigitVal(s[1]), 2)] else [])
  }

  /** `%m` = `1[0-2]|0[1-9]|[1-9]`. */
  function MonthCands(s: string): seq<Cand>
  {
    (if |s| >= 2 && s[0] == '1' && '0' <= s[1] <= '2' then [Cand(D2(s), 2)] else [])
    + (if |s| >= 2 && s[0] == '0' && '1' <= s[1] <= '9' then [Cand(D2(s), 2)] else [])
    + (if |s| >= 1 && '1' <= s[0] <= '9' then [Cand(DigitVal(s[0]), 1)] else [])
  }

  /** `%H` = `2[0-3]|[0-1]\d|\d`. */
  function HourCands(s: string): seq<Cand>
  {
    (if |s| >= 2 && s[0] == '2' && '0' <= s[1] <= '3' then [Cand(D2(s), 2)] else [])
    + (if |s| >= 2 && (s[0] == '0' || s[0] == '1') && IsDigit(s[1]) then [Cand(D2(s), 2)] else [])
    + (if |s| >= 1 && IsDigit(s[0]) then [Cand(DigitVal(s[0]), 1)] else [])
  }

  /** `%M` = `[0-5]\d|\d`. */
  function MinuteCands(s: string): seq<Cand>
  {
    (if |s| >= 2 && '0' <= s[0] <= '5' && IsDigit(s[1]) then [Cand(D2(s), 2)] else [])
    + (if |s| >= 1 && IsDigit(s[0]) then [Cand(DigitVal(s[0]), 1)] else [])
  }

  /**
   * The first candidate after which the format can go on.  For the formats
   * modelled here the alternatives of a directive that can be followed by
   * the next separator exclude each other, so the regex engine's
   * backtracking never returns to a directive: this choice is final.
   */
  function First(cs: seq<Cand>, s: string, f: Follow): (r: Option<Cand>)
    ensures r.Some? ==> r.value in cs && r.value.len <= |s| + 2
  {
    if cs == [] then None
    else if FollowOk(s, cs[0].len, f) && cs[0].len <= |s| then Some(cs[0])
    else First(cs[1..], s, f)
  }

  /** `%Y` = `\d\d\d\d`. */
  predicate Year4(s: string)
  {
    |s| >= 4 && AllDigits(s[..4])
  }

  function Y4(s: string): nat
    requires Year4(s)
  {
    NatOf(s[..4])
  }

  /**
   * The fields of `%Y-%m-%d` at the start of `s` and the characters they
   * take, for a day directive followed by `f`.
   */
  function YmdPrefix(s: string, f: Follow): Option<(Date, nat)>
  {
    if !Year4(s) || |s| < 5 || s[4] != '-' then None
    else
      var rm := s[5..];
      match First(MonthCands(rm), rm, Char('-'))
      case None => None
      case Some(m) =>
        var rd := s[5 + m.len + 1..];
        match First(DayCands(rd), rd, f)
        case None => None
        case Some(d) => Some((Date(Y4(s), m.value, d.value), 5 + m.len + 1 + d.len))
  }

  /** `datetime.strptime(s, '%Y-%m-%d').date()`, `None` for `ValueError`. */
  function StrptimeYmd(s: string): Option<Date>
  {
    match YmdPrefix(s, AtEnd)
    case None => None
    case Some((d, n)) => if n == |s| && Valid(d) then Some(d) else None
  }

  /** The expanded run of leading whitespace (`\s+`, greedy). */
  function SpaceRun(s: string): nat
    ensures SpaceRun(s) <= |s|
  {
    |s| - |TrimLeft(s)|
  }

  /** `datetime.strptime(s, '%Y-%m-%d %H:%M')`, `None` for `ValueError`. */
  function StrptimeYmdHm(s: string): Option<DateTime>
  {
    match YmdPrefix(s, Space)
    case None => None
    case Some((d, n)) =>
      if n >= |s| then None
      else
        var k := n + SpaceRun(s[n..]);
        var rh := s[k..];
        match First(HourCands(rh), rh, Char(':'))
        case None => None
        case Some(h) =>
          var rmin := s[k + h.len + 1..];
          match First(MinuteCands(rmin), rmin, AtEnd)
          case None => None
          case Some(mi) =>
            if k + h.len + 1 + mi.len == |s| && Valid(d) then Some(DateTime(d, h.value, mi.value))
            else None
  }

  /** `datetime.strptime(s, '%d/%m/%Y')`, `None` for `ValueError`. */
  function StrptimeDmy(s: string): Option<Date>
  {
    match First(DayCands(s), s, Char('/'))
    case None => None
    case Some(d) =>
      var rm := s[d.len + 1..];
      match First(MonthCands(rm), rm, Char('/'))
      case None => None
      case Some(m) =>
        var ry := s[d.len + 1 + m.len + 1..];
        if Year4(ry) && |ry| == 4 && Valid(Date(Y4(ry), m.value, d.value)) then
          Some(Date(Y4(ry), m.value, d.value))
        else None
  }

  // ---------------------------------------------------------------------
  // strftime
  // ---------------------------------------------------------------------

  function Pad2(n: nat): (r: string)
    requires n < 100
    ensures |r| == 2 && AllDigits(r) && D2(r) == n
  {
    [DigitChar(n / 10), DigitChar(n % 10)]
  }

  function Pad4(n: nat): (r: string)
    requires n < 10000
    ensures |r| == 4 && AllDigits(r) && NatOf(r) == n
  {
    var r := [DigitChar(n / 1000), DigitChar(n / 100 % 10), DigitChar(n / 10 % 10), DigitChar(n % 10)];
    assert r[..4] == r;
    assert r[..3][..2] == r[..2] && r[..2][..1] == r[..1] && r[..1][..0] == [];
    assert NatOf(r[..1]) == n / 1000;
    assert n / 1000 * 10 + n / 100 % 10 == n / 100;
    assert NatOf(r[..2]) == n / 100;
    assert n / 100 * 10 + n / 10 % 10 == n / 10;
    assert NatOf(r[..3]) == n / 10;
    r
  }

  /** `d.strftime('%Y-%m-%d')`. */
  function FormatYmd(d: Date): (r: string)
    requires Valid(d)
    ensures |r| == 10
  {
    Pad4(d.year) + "-" + Pad2(d.month) + "-" + Pad2(d.day)
  }

  /** `d.strftime('%d/%m/%Y')`. */
  function FormatDmy(d: Date): (r: string)
    requires Valid(d)
    ensures |r| == 10
  {
    Pad2(d.day) + "/" + Pad2(d.month) + "/" + Pad4(d.year)
  }

  lemma MonthPadded(s: string, m: nat, f: Follow)
    requires 1 <= m <= 12 && |s| >= 2 && s[..2] == Pad2(m) && FollowOk(s, 2, f)
    ensures First(MonthCands(s), s, f) == Some(Cand(m, 2))
  {
    assert s[0] == Pad2(m)[0] && s[1] == Pad2(m)[1];
  }

  lemma DayPadded(s: string, d: nat, f: Follow)
    requires 1 <= d <= 31 && |s| >= 2 && s[..2] == Pad2(d) && FollowOk(s, 2, f)
    ensures First(DayCands(s), s, f) == Some(Cand(d, 2))
  {
    assert s[0] == Pad2(d)[0] && s[1] == Pad2(d)[1];
  }

  /** `strptime(d.strftime('%Y-%m-%d'), '%Y-%m-%d') == d`. */
  lemma YmdRoundTrip(d: Date)
    requires Valid(d)
    ensures StrptimeYmd(FormatYmd(d)) == Some(d)
  {
    var s := FormatYmd(d);
    assert s[..4] == Pad4(d.year);
    assert s[5..][..2] == Pad2(d.month) && s[5..][2] == '-';
    MonthPadded(s[5..], d.month, Char('-'));
    assert s[8..][..2] == Pad2(d.day);
    DayPadded(s[8..], d.day, AtEnd);
  }

  /** `strptime(d.strftime('%d/%m/%Y'), '%d/%m/%Y') == d`. */
  lemma DmyRoundTrip(d: Date)
    requires Valid(d)
    ensures StrptimeDmy(FormatDmy(d)) == Some(d)
  {
    var s := FormatDmy(d);
    assert s[..2] == Pad2(d.day) && s[2] == '/';
    DayPadded(s, d.day, Char('/'));
    assert s[3..][..2] == Pad2(d.month) && s[3..][2] == '/';
    MonthPadded(s[3..], d.month, Char('/'));
    assert s[6..] == Pad4(d.year);
    assert s[6..][..4] == s[6..];
  }

  /** Shape `^\d{2}/\d{2}/\d{4}$`, the check that precedes the `%d/%m/%Y` parse. */
  predicate DmyShape(s: string)
  {
    |s| == 10 && AllDigits(s[..2]) && s[2] == '/' && AllDigits(s[3..5]) && s[5] == '/' && AllDigits(s[6..])
  }

  /** The date a `dd/mm/yyyy` text spells, read digit by digit. */
  function DmyFields(s: string): Date
    requires DmyShape(s)
  {
    Date(NatOf(s[6..]), D2(s[3..5]), D2(s[..2]))
  }

  /**
   * On a text of the shape `dd/mm/yyyy`, `strptime('%d/%m/%Y')` succeeds
   * exactly when the digits spell a real calendar day, and then returns it.
   */
  lemma DmyOnShape(s: string)
    requires DmyShape(s)
    ensures StrptimeDmy(s) == (if Valid(DmyFields(s)) then Some(DmyFields(s)) else None)
  {
    var want := DmyFields(s);
    assert s[..2][0] == s[0] && s[..2][1] == s[1];
    assert IsDigit(s[0]) && IsDigit(s[1]);
    var rm := s[3..];
    assert rm[0] == s[3..5][0] && rm[1] == s[3..5][1];
    assert IsDigit(rm[0]) && IsDigit(rm[1]);
    assert s[6..][..4] == s[6..];
    var fd := First(DayCands(s), s, Char('/'));
    if Valid(want) {
      assert 1 <= D2(s[..2]) <= 31;
      assert fd == Some(Cand(D2(s[..2]), 2));
      assert First(MonthCands(rm), rm, Char('/')) == Some(Cand(D2(s[3..5]), 2));
      assert s[6..] == s[2 + 1 + 2 + 1..];
    } else if fd.Some? {
      assert fd.value.len == 2 && fd.value.value == D2(s[..2]);
      var fm := First(MonthCands(rm), rm, Char('/'));
      if fm.Some? {
        assert fm.value.len == 2 && fm.value.value == D2(s[3..5]);
        assert s[6..] == s[fd.value.len + 1 + fm.value.len + 1..];
      }
    }
  }
}
