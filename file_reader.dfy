/**
 * The RIPS file reader (ErroresJSON/src/file_reader.py): the file kind from
 * the file name, the structural check and record building per line, and
 * the per-line loop that parses, validates and counts.
 *
 * The file system is not modelled: a file's contents are given as the
 * sequence of its lines (`FileContents`), or as the failure that opening or
 * reading it raised.
 */
module FileReader {
  import opened Wrappers
  import opened Text
  import opened Dates
  import opened Models
  import opened Rules

  // ---------------------------------------------------------------------
  // File kinds and their field counts
  // ---------------------------------------------------------------------

  /** `EXPECTED_FIELDS`: the number of comma-separated fields of a line of each kind. */
  function ExpectedFields(k: Kind): nat
  {
    match k
    case AF => 17
    case US => 15
    case AC => 22
    case AP => 22
    case AT => 14
    case AH => 22
    case AM => 16
    case AN => 14
    case CT => 10
  }

  /** The two-letter code of a kind, as it appears in file names. */
  function Code(k: Kind): (c: string)
    ensures |c| == 2 && IsUpper(c[0]) && IsUpper(c[1])
  {
    match k
    case AF => "AF"
    case US => "US"
    case AC => "AC"
    case AP => "AP"
    case AT => "AT"
    case AH => "AH"
    case AM => "AM"
    case AN => "AN"
    case CT => "CT"
  }

  /** The kind an upper-case two-letter code names, if any. */
  function KindOfCode(c: string): (r: Option<Kind>)
    ensures r.Some? ==> Code(r.value) == c
  {
    if c == "AF" then Some(AF)
    else if c == "US" then Some(US)
    else if c == "AC" then Some(AC)
    else if c == "AP" then Some(AP)
    else if c == "AT" then Some(AT)
    else if c == "AH" then Some(AH)
    else if c == "AM" then Some(AM)
    else if c == "AN" then Some(AN)
    else if c == "CT" then Some(CT)
    else None
  }

  /** Every kind is found again from its code. */
  lemma KindOfCodeInverse(k: Kind)
    ensures KindOfCode(Code(k)) == Some(k)
  {
  }

  /** The six kinds the reader builds and validates records for. */
  predicate Checked(k: Kind)
  {
    k == AF || k == US || k == AC || k == AP || k == AT || k == AH
  }

  // ---------------------------------------------------------------------
  // detect_file_type
  // ---------------------------------------------------------------------

  /**
   * The text a `$` may close: `$` matches at the end of the name and also
   * just before a final newline, so one final `\n` is set aside.
   */
  function Closed(name: string): (t: string)
    ensures t == name || (name != [] && name[|name| - 1] == '\n' && t == name[..|name| - 1])
    ensures name != [] && name[|name| - 1] == '\n' ==> |t| == |name| - 1
  {
    if name != [] && name[|name| - 1] == '\n' then name[..|name| - 1] else name
  }

  /**
   * A kind's code, one or more digits, then `.txt` (case insensitive)
   * ending `t`, starting at position `i`.
   */
  predicate EndsWithMatch(t: string, i: int)
  {
    0 <= i && i + 7 <= |t|
    && KindOfCode(Upper(t[i..i + 2])).Some?
    && AllDigits(t[i + 2..|t| - 4])
    && Lower(t[|t| - 4..]) == ".txt"
  }

  /**
   * At position `i` of `name` the search of `(AF|US|…|CT)\d+\.txt$`, case
   * insensitive, succeeds: a kind's code, one or more digits, then `.txt`
   * where `$` matches.
   */
  predicate MatchesAt(name: string, i: int)
  {
    EndsWithMatch(Closed(name), i)
  }

  /** The start of the run of digits that ends at `e`. */
  function DigitRunStart(s: string, e: nat): (j: nat)
    requires e <= |s|
    ensures j <= e && AllDigits(s[j..e])
    ensures j == 0 || !IsDigit(s[j - 1])
  {
    if e > 0 && IsDigit(s[e - 1]) then
      var j := DigitRunStart(s, e - 1);
      assert s[j..e] == s[j..e - 1] + [s[e - 1]];
      j
    else e
  }

  /** A kind's code, in any case, holds no digit. */
  lemma CodeHasNoDigit(c: string)
    requires |c| == 2 && KindOfCode(Upper(c)).Some?
    ensures !IsDigit(c[0]) && !IsDigit(c[1])
  {
    var u := Upper(c);
    assert u[0] == UpperChar(c[0]) && u[1] == UpperChar(c[1]);
  }

  /**
   * `detect_file_type`: the kind named just before the digits that precede
   * the final `.txt`.  Where the search succeeds it succeeds at one position
   * only, so the search's first match and this one agree.
   */
  function DetectFileType(name: string): (r: Option<Kind>)
    ensures r.Some? <==> exists i :: MatchesAt(name, i)
    ensures forall i :: MatchesAt(name, i) ==> r == KindOfCode(Upper(name[i..i + 2]))
  {
    var t := Closed(name);
    if |t| < 7 || Lower(t[|t| - 4..]) != ".txt" then
      None
    else
      var j := DigitRunStart(t, |t| - 4);
      OnlyMatchAtRun(t, j);
      assert forall i :: MatchesAt(name, i) ==> i == j - 2;
      if j == |t| - 4 || j < 2 then None
      else
        assert MatchesAt(name, j - 2) <==> KindOfCode(Upper(t[j - 2..j])).Some?;
        assert t[j - 2..j] == name[j - 2..j];
        KindOfCode(Upper(t[j - 2..j]))
  }

  /** Every match starts two characters before the digit run that ends at the `.txt`. */
  lemma OnlyMatchAtRun(name: string, j: nat)
    requires |name| >= 4 && j <= |name| - 4 && AllDigits(name[j..|name| - 4]) && (j == 0 || !IsDigit(name[j - 1]))
    ensures forall i :: EndsWithMatch(name, i) ==> i == j - 2
  {
    forall i | EndsWithMatch(name, i) ensures i == j - 2 {
      UniqueMatch(name, i, j);
    }
  }

  /** A match can only start two characters before the digit run that ends at the `.txt`. */
  lemma UniqueMatch(name: string, i: int, j: nat)
    requires EndsWithMatch(name, i)
    requires j <= |name| - 4 && AllDigits(name[j..|name| - 4]) && (j == 0 || !IsDigit(name[j - 1]))
    ensures i == j - 2
  {
    var e := |name| - 4;
    CodeHasNoDigit(name[i..i + 2]);
    assert name[i..i + 2][1] == name[i + 1];
    DigitsBetween(name, j, e);
    DigitsBetween(name, i + 2, e);
  }

  lemma DigitsBetween(s: string, a: nat, b: nat)
    requires a <= b <= |s| && AllDigits(s[a..b])
    ensures forall m :: a <= m < b ==> IsDigit(s[m])
  {
    forall m | a <= m < b ensures IsDigit(s[m]) {
      assert s[a..b][m - a] == s[m];
    }
  }

  /** The matched code is upper-cased: the reader reports e.g. `af12.TXT` as an AF file. */
  lemma DetectIgnoresCase(code: string, digits: string, ext: string)
    requires |code| == 2 && KindOfCode(Upper(code)).Some?
    requires |digits| >= 1 && AllDigits(digits)
    requires |ext| == 4 && Lower(ext) == ".txt"
    ensures DetectFileType(code + digits + ext) == KindOfCode(Upper(code))
  {
    var name := code + digits + ext;
    assert name[0..2] == code;
    assert name[2..|name| - 4] == digits;
    assert name[|name| - 4..] == ext;
    assert Lower(ext)[3] == LowerChar(name[|name| - 1]);
    assert Closed(name) == name;
    assert MatchesAt(name, 0);
  }

  /**
   * `$` also matches before one final newline: a name followed by `\n` is
   * detected as the name alone, e.g. `AC1.txt\n` as an AC file.
   */
  lemma DetectAllowsFinalNewline(name: string)
    requires name == [] || name[|name| - 1] != '\n'
    ensures DetectFileType(name + "\n") == DetectFileType(name)
  {
    var n := name + "\n";
    assert Closed(n) == name;
    assert Closed(name) == name;
    forall i ensures MatchesAt(n, i) == MatchesAt(name, i) {
    }
  }

  /** `os.path.basename`: what follows the last `/`. */
  function BaseName(path: string): (r: string)
    ensures '/' !in r
    ensures |r| <= |path| && r == path[|path| - |r|..]
    ensures |r| == |path| || path[|path| - |r| - 1] == '/'
  {
    if path == [] || path[|path| - 1] == '/' then []
    else
      var r := BaseName(path[..|path| - 1]);
      assert path[..|path| - 1][|path| - 1 - |r|..] == path[|path| - 1 - |r|..|path| - 1];
      r + [path[|path| - 1]]
  }

  // ---------------------------------------------------------------------
  // parse_X_line
  // ---------------------------------------------------------------------

  /** The fields of a line: `line.strip().split(',')`. */
  function LineFields(line: string): (f: seq<string>)
    ensures |f| >= 1
  {
    Split(Strip(line), ',')
  }

  /** The record of kind `k` whose fields are `f` in column order. */
  function FromFields(k: Kind, f: seq<string>): (r: Record)
    requires Checked(k) && |f| == ExpectedFields(k)
    ensures KindOf(r) == k
  {
    match k
    case AF => AFLine(AFFromFields(f))
    case US => USLine(USFromFields(f))
    case AC => ACLine(ACFromFields(f))
    case AP => APLine(APFromFields(f))
    case AT => ATLine(ATFromFields(f))
    case AH => AHLine(AHFromFields(f))
  }

  /** The kind of file a record comes from. */
  function KindOf(r: Record): (k: Kind)
    ensures Checked(k)
  {
    match r
    case AFLine(_) => AF
    case USLine(_) => US
    case ACLine(_) => AC
    case APLine(_) => AP
    case ATLine(_) => AT
    case AHLine(_) => AH
  }

  /** The record built from `f` lists `f` again as its fields. */
  lemma FieldsOfFromFields(k: Kind, f: seq<string>)
    requires Checked(k) && |f| == ExpectedFields(k)
    ensures FromFields(k, f).Fields() == f
  {
    match k
    case AF => AFFieldsOfFromFields(f);
    case US => USFieldsOfFromFields(f);
    case AC => ACFieldsOfFromFields(f);
    case AP => APFieldsOfFromFields(f);
    case AT => ATFieldsOfFromFields(f);
    case AH => AHFieldsOfFromFields(f);
  }

  /** A record is determined by its kind and its fields. */
  lemma FromFieldsOfFields(r: Record)
    ensures |r.Fields()| == ExpectedFields(KindOf(r))
    ensures FromFields(KindOf(r), r.Fields()) == r
  {
    match r
    case AFLine(x) => AFFromFieldsOfFields(x);
    case USLine(x) => USFromFieldsOfFields(x);
    case ACLine(x) => ACFromFieldsOfFields(x);
    case APLine(x) => APFromFieldsOfFields(x);
    case ATLine(x) => ATFromFieldsOfFields(x);
    case AHLine(x) => AHFromFieldsOfFields(x);
  }

  /** What parsing a line gives: the record, or the structural messages. */
  datatype LineParse = LineParse(record: Option<Record>, messages: seq<Description>)

  /**
   * The parse step of the reader's loop: `parse_X_line` for the six checked
   * kinds, nothing at all (no record, no message) for AM, AN and CT.
   */
  function ParseLine(k: Kind, line: string, lineNumber: int): (p: LineParse)
    ensures p.record.Some? <==> Checked(k) && |LineFields(line)| == ExpectedFields(k)
    ensures p.record.Some? ==> KindOf(p.record.value) == k
    ensures p.record.Some? || !Checked(k) ==> p.messages == []
    ensures p.record.None? && Checked(k) ==>
              p.messages == [FieldCount(lineNumber, ExpectedFields(k), |LineFields(line)|)]
  {
    var f := LineFields(line);
    if !Checked(k) then LineParse(None, [])
    else if |f| != ExpectedFields(k) then LineParse(None, [FieldCount(lineNumber, ExpectedFields(k), |f|)])
    else LineParse(Some(FromFields(k, f)), [])
  }

  /** On success, the i-th field of the line is the i-th declared field of the record. */
  lemma ParseLineFields(k: Kind, line: string, lineNumber: int)
    requires ParseLine(k, line, lineNumber).record.Some?
    ensures ParseLine(k, line, lineNumber).record.value.Fields() == LineFields(line)
  {
    FieldsOfFromFields(k, LineFields(line));
  }

  /** The characters `strip` removes from neither end. */
  predicate Unpadded(s: string)
  {
    s == [] || (!IsSpace(s[0]) && !IsSpace(s[|s| - 1]))
  }

  /**
   * Writing a record's fields as a comma-separated line and parsing it again
   * gives the record back, when no field holds a comma and the line has no
   * surrounding whitespace.
   */
  lemma ParseJoinedFields(r: Record, lineNumber: int)
    requires forall i :: 0 <= i < |r.Fields()| ==> ',' !in r.Fields()[i]
    requires Unpadded(Join(r.Fields(), ','))
    ensures ParseLine(KindOf(r), Join(r.Fields(), ','), lineNumber) == LineParse(Some(r), [])
  {
    JoinedFields(r.Fields());
    FromFieldsOfFields(r);
  }

  /** The fields of a line written from comma-free, unpadded fields are those fields. */
  lemma JoinedFields(f: seq<string>)
    requires |f| >= 1
    requires forall i :: 0 <= i < |f| ==> ',' !in f[i]
    requires Unpadded(Join(f, ','))
    ensures LineFields(Join(f, ',')) == f
  {
    StripOfUnpadded(Join(f, ','));
    SplitJoin(f, ',');
  }

  lemma StripOfUnpadded(s: string)
    requires Unpadded(s)
    ensures Strip(s) == s
  {
    TrimLeftNoLead(s);
    if s != [] {
      assert TrimRight(s) == s;
    }
  }

  // ---------------------------------------------------------------------
  // The record check
  // ---------------------------------------------------------------------

  /** What the rule set of the record's kind accepts. */
  predicate RecordValid(r: Record, today: Date)
  {
    match r
    case AFLine(x) => AFValid(x, today)
    case USLine(x) => USValid(x)
    case ACLine(x) => ACValid(x, today)
    case APLine(x) => APValid(x, today)
    case ATLine(x) => ATValid(x)
    case AHLine(x) => AHValid(x, today)
  }

  /** The validation step of the reader's loop: the rule set of the record's kind. */
  function ValidateRecord(r: Record, lineNumber: int, fileName: string, today: Date): seq<ValidationError>
  {
    match r
    case AFLine(x) => ValidateAF(x, lineNumber, fileName, today)
    case USLine(x) => ValidateUS(x, lineNumber, fileName)
    case ACLine(x) => ValidateAC(x, lineNumber, fileName, today)
    case APLine(x) => ValidateAP(x, lineNumber, fileName, today)
    case ATLine(x) => ValidateAT(x, lineNumber, fileName)
    case AHLine(x) => ValidateAH(x, lineNumber, fileName, today)
  }

  /** The parser the reader's loop uses for a file of kind `k`. */
  function Parser(k: Kind): (string, int) -> LineParse
  {
    (line, n) => ParseLine(k, line, n)
  }

  /**
   * The rule sets as the reader's loop applies them: to a record and its
   * line number.  The loop below is written for any such check; the reader
   * passes it this one.
   */
  function RuleSets(fileName: string, today: Date): (Record, int) -> seq<ValidationError>
  {
    (r, n) => ValidateRecord(r, n, fileName, today)
  }

  /**
   * The reader's table of rule sets, `self.validators`: for each file name,
   * the check of its records.  The reading loop and the application are
   * written for any such table; the reader is built with this one.
   */
  function RuleTable(today: Date): string -> (Record, int) -> seq<ValidationError>
  {
    name => RuleSets(name, today)
  }

  /** The rule sets report every error at the record's file and line. */
  lemma RecordLocated(r: Record, n: int, fileName: string, today: Date)
    ensures Located(ValidateRecord(r, n, fileName, today), fileName, n)
  {
  }

  /** The check the reader passes to its loop locates its errors. */
  lemma RuleSetsLocated(fileName: string, today: Date)
    ensures ChecksLocated(RuleSets(fileName, today), fileName)
  {
    forall r: Record, n: int ensures Located(RuleSets(fileName, today)(r, n), fileName, n) {
      RecordLocated(r, n, fileName, today);
    }
  }

  // ---------------------------------------------------------------------
  // read_and_validate_file
  // ---------------------------------------------------------------------

  const Regulation := "Res. 2275/2023"
  const System := "Sistema"
  const NameFix := "El nombre debe seguir el formato: AF######.txt, US######.txt, etc."
  const StructureFix := "Verificar estructura del archivo y delimitadores"
  const MissingFix := "Verificar que el archivo existe en la carpeta input"
  const UnreadableFix := "Verificar permisos y codificación del archivo"

  /** The reader's counters. */
  datatype Stats = Stats(totalLines: nat, validLines: nat, invalidLines: nat, parseErrors: nat)

  /** What opening and reading the file gives. */
  datatype FileContents =
    | Lines(lines: seq<string>)
      /** `FileNotFoundError` on opening. */
    | Missing
      /** Any other exception, raised after the lines `read` were read. */
    | Failed(read: seq<string>, reason: string)

  /** The one error of a file whose name gives no kind. */
  function UnknownNameError(name: string): ValidationError
  {
    ValidationError(name, 0, "nombre_archivo", UnknownFileName(name), Regulation, NameFix)
  }

  /** The 'estructura_archivo' error of a structural message. */
  function StructureError(m: Description, file: string, lineNumber: int): ValidationError
  {
    ValidationError(file, lineNumber, "estructura_archivo", m, Regulation, StructureFix)
  }

  /** The 'estructura_archivo' errors of a structural message list, in order. */
  function StructureErrors(ms: seq<Description>, file: string, lineNumber: int): (es: seq<ValidationError>)
    ensures |es| == |ms|
    ensures forall i :: 0 <= i < |es| ==> es[i] == StructureError(ms[i], file, lineNumber)
  {
    if ms == [] then []
    else [StructureError(ms[0], file, lineNumber)] + StructureErrors(ms[1..], file, lineNumber)
  }

  lemma {:induction false} StructureErrorsAppend(ms: seq<Description>, m: Description, file: string, lineNumber: int)
    ensures StructureErrors(ms + [m], file, lineNumber)
            == StructureErrors(ms, file, lineNumber) + [StructureError(m, file, lineNumber)]
  {
    if ms != [] {
      assert (ms + [m])[1..] == ms[1..] + [m];
      StructureErrorsAppend(ms[1..], m, file, lineNumber);
    }
  }

  /** What `parse` makes of line `n`. */
  function Parse(parse: (string, int) -> LineParse, line: string, n: int): LineParse
  {
    parse(line, n)
  }

  /** The errors `check` finds in record `r` of line `n`. */
  function Run(check: (Record, int) -> seq<ValidationError>, r: Record, n: int): seq<ValidationError>
  {
    check(r, n)
  }

  /**
   * One turn of the reader's loop: the errors line `lineNumber` adds and the
   * counters after it, `check` being the rule sets.  Blank lines are skipped
   * without being counted.
   */
  function LineStep(parse: (string, int) -> LineParse, file: string, line: string, lineNumber: int,
                    check: (Record, int) -> seq<ValidationError>, st: Stats): (r: (seq<ValidationError>, Stats))
  {
    if Strip(line) == [] then ([], st)
    else Tally(Parse(parse, line, lineNumber), file, lineNumber, check, st.(totalLines := st.totalLines + 1))
  }

  /**
   * What a counted line adds once parsed: its structural errors and a parse
   * error, or the rule sets' errors and an invalid line, or a valid line, or
   * (AM, AN, CT) nothing.
   */
  function Tally(p: LineParse, file: string, lineNumber: int,
                 check: (Record, int) -> seq<ValidationError>, st: Stats): (r: (seq<ValidationError>, Stats))
  {
    if p.messages != [] then
      (StructureErrors(p.messages, file, lineNumber), st.(parseErrors := st.parseErrors + 1))
    else if p.record.Some? then
      var es := Run(check, p.record.value, lineNumber);
      if es != [] then (es, st.(invalidLines := st.invalidLines + 1))
      else ([], st.(validLines := st.validLines + 1))
    else ([], st)
  }

  /** The errors and counters after the loop has read `lines`, numbered from 1. */
  function Scan(parse: (string, int) -> LineParse, file: string, lines: seq<string>, check: (Record, int) -> seq<ValidationError>)
    : (r: (seq<ValidationError>, Stats))
    decreases |lines|
  {
    if lines == [] then ([], Stats(0, 0, 0, 0))
    else
      var prev := Scan(parse, file, lines[..|lines| - 1], check);
      var step := LineStep(parse, file, lines[|lines| - 1], |lines|, check, prev.1);
      (prev.0 + step.0, step.1)
  }

  /** One turn of the loop of `read_and_validate_file`: line `lineNumber` of a file of kind `k`. */
  method ReadLine(parse: (string, int) -> LineParse, file: string, line: string, lineNumber: int,
                  check: (Record, int) -> seq<ValidationError>, st0: Stats)
    returns (errors: seq<ValidationError>, st: Stats)
    ensures (errors, st) == LineStep(parse, file, line, lineNumber, check, st0)
  {
    if Strip(line) == [] {
      errors, st := [], st0;
    } else {
      CountedStep(parse, file, line, lineNumber, check, st0);
      errors, st := TallyLine(Parse(parse, line, lineNumber), file, lineNumber, check,
                              st0.(totalLines := st0.totalLines + 1));
    }
  }

  /** A line that is not blank is counted, then tallied. */
  lemma CountedStep(parse: (string, int) -> LineParse, file: string, line: string, lineNumber: int,
                    check: (Record, int) -> seq<ValidationError>, st0: Stats)
    requires Strip(line) != []
    ensures LineStep(parse, file, line, lineNumber, check, st0)
            == Tally(Parse(parse, line, lineNumber), file, lineNumber, check, st0.(totalLines := st0.totalLines + 1))
  {
    var st := st0.(totalLines := st0.totalLines + 1);
    var p := Parse(parse, line, lineNumber);
    assert LineStep(parse, file, line, lineNumber, check, st0) == Tally(p, file, lineNumber, check, st);
  }

  /** The rest of a turn, once the line is counted and parsed. */
  method TallyLine(p: LineParse, file: string, lineNumber: int,
                   check: (Record, int) -> seq<ValidationError>, st0: Stats)
    returns (errors: seq<ValidationError>, st: Stats)
    ensures (errors, st) == Tally(p, file, lineNumber, check, st0)
  {
    st := st0;
    errors := [];
    if p.messages != [] {
      st := st.(parseErrors := st.parseErrors + 1);
      var j := 0;
      while j < |p.messages|
        invariant 0 <= j <= |p.messages|
        invariant errors == StructureErrors(p.messages[..j], file, lineNumber)
      {
        StructureErrorsAppend(p.messages[..j], p.messages[j], file, lineNumber);
        assert p.messages[..j + 1] == p.messages[..j] + [p.messages[j]];
        errors := errors + [StructureError(p.messages[j], file, lineNumber)];
        j := j + 1;
      }
      assert p.messages[..j] == p.messages;
    } else if p.record.Some? {
      var es := Run(check, p.record.value, lineNumber);
      if es != [] {
        st := st.(invalidLines := st.invalidLines + 1);
        errors := es;
      } else {
        st := st.(validLines := st.validLines + 1);
      }
    }
  }

  /** Reading one more line extends the scan by that line's step. */
  lemma ScanNext(parse: (string, int) -> LineParse, file: string, lines: seq<string>, i: nat, check: (Record, int) -> seq<ValidationError>)
    requires i < |lines|
    ensures var prev := Scan(parse, file, lines[..i], check);
            var step := LineStep(parse, file, lines[i], i + 1, check, prev.1);
            Scan(parse, file, lines[..i + 1], check) == (prev.0 + step.0, step.1)
  {
    assert lines[..i + 1][..i] == lines[..i];
  }

  /** The loop of `read_and_validate_file` over the lines of a file of kind `k`. */
  method ScanLines(parse: (string, int) -> LineParse, file: string, lines: seq<string>, check: (Record, int) -> seq<ValidationError>)
    returns (errors: seq<ValidationError>, st: Stats)
    ensures (errors, st) == Scan(parse, file, lines, check)
  {
    st := Stats(0, 0, 0, 0);
    errors := [];
    var i := 0;
    while i < |lines|
      invariant 0 <= i <= |lines|
      invariant (errors, st) == Scan(parse, file, lines[..i], check)
    {
      ScanNext(parse, file, lines, i, check);
      var more;
      more, st := ReadLine(parse, file, lines[i], i + 1, check, st);
      errors := errors + more;
      i := i + 1;
    }
    assert lines[..i] == lines;
  }

  /** The lines the reader counts: those `strip` leaves something of. */
  function NonBlank(lines: seq<string>): (n: nat)
    ensures n <= |lines|
    decreases |lines|
  {
    if lines == [] then 0
    else NonBlank(lines[..|lines| - 1]) + (if Strip(lines[|lines| - 1]) == [] then 0 else 1)
  }

  /** The counted lines that were parsed into a record or rejected as malformed. */
  function Classified(st: Stats): nat
  {
    st.validLines + st.invalidLines + st.parseErrors
  }

  /** The counted lines that produced errors. */
  function Flagged(st: Stats): nat
  {
    st.invalidLines + st.parseErrors
  }

  /**
   * Tallying a parsed line leaves the total alone, classifies the line when
   * it gave a record or messages, and flags it exactly when it adds errors.
   */
  lemma TallyAccounts(p: LineParse, file: string, lineNumber: int,
                      check: (Record, int) -> seq<ValidationError>, st: Stats)
    ensures var r := Tally(p, file, lineNumber, check, st);
            && r.1.totalLines == st.totalLines
            && Classified(r.1) == Classified(st) + (if p.messages != [] || p.record.Some? then 1 else 0)
            && Flagged(r.1) == Flagged(st) + (if r.0 == [] then 0 else 1)
  {
  }

  /**
   * The counters of a scan: every non-blank line is counted, no counted line
   * is classified twice, and a line is flagged exactly when it adds errors,
   * so the file has no errors if and only if no line was flagged.
   */
  lemma ScanAccounts(parse: (string, int) -> LineParse, file: string, lines: seq<string>,
                     check: (Record, int) -> seq<ValidationError>)
    ensures var r := Scan(parse, file, lines, check);
            && r.1.totalLines == NonBlank(lines)
            && Classified(r.1) <= r.1.totalLines
            && Flagged(r.1) <= |r.0|
            && (r.0 == [] <==> Flagged(r.1) == 0)
  {
    ScanCounts(parse, file, lines, check);
    ScanFlags(parse, file, lines, check);
  }

  /** Every non-blank line is counted, and classified at most once. */
  lemma {:induction false} ScanCounts(parse: (string, int) -> LineParse, file: string, lines: seq<string>,
                                      check: (Record, int) -> seq<ValidationError>)
    ensures var r := Scan(parse, file, lines, check);
            r.1.totalLines == NonBlank(lines) && Classified(r.1) <= r.1.totalLines
    decreases |lines|
  {
    if lines != [] {
      var init := lines[..|lines| - 1];
      var line := lines[|lines| - 1];
      ScanCounts(parse, file, init, check);
      var prev := Scan(parse, file, init, check);
      if Strip(line) != [] {
        CountedStep(parse, file, line, |lines|, check, prev.1);
        TallyAccounts(Parse(parse, line, |lines|), file, |lines|, check,
                      prev.1.(totalLines := prev.1.totalLines + 1));
      }
    }
  }

  /** A line is flagged exactly when it adds errors. */
  lemma {:induction false} ScanFlags(parse: (string, int) -> LineParse, file: string, lines: seq<string>,
                                     check: (Record, int) -> seq<ValidationError>)
    ensures var r := Scan(parse, file, lines, check);
            Flagged(r.1) <= |r.0| && (r.0 == [] <==> Flagged(r.1) == 0)
    decreases |lines|
  {
    if lines != [] {
      var init := lines[..|lines| - 1];
      var line := lines[|lines| - 1];
      ScanFlags(parse, file, init, check);
      var prev := Scan(parse, file, init, check);
      if Strip(line) != [] {
        CountedStep(parse, file, line, |lines|, check, prev.1);
        TallyAccounts(Parse(parse, line, |lines|), file, |lines|, check,
                      prev.1.(totalLines := prev.1.totalLines + 1));
      }
    }
  }

  /** For the six checked kinds every counted line is either a record or a structural rejection. */
  lemma {:induction false} CheckedScanBalances(k: Kind, file: string, lines: seq<string>,
                                               check: (Record, int) -> seq<ValidationError>)
    requires Checked(k)
    ensures var r := Scan(Parser(k), file, lines, check);
            Classified(r.1) == r.1.totalLines
    decreases |lines|
  {
    if lines != [] {
      var init := lines[..|lines| - 1];
      var line := lines[|lines| - 1];
      CheckedScanBalances(k, file, init, check);
      var prev := Scan(Parser(k), file, init, check);
      if Strip(line) != [] {
        CountedStep(Parser(k), file, line, |lines|, check, prev.1);
        CheckedParseClassifies(k, line, |lines|);
        TallyAccounts(Parse(Parser(k), line, |lines|), file, |lines|, check,
                      prev.1.(totalLines := prev.1.totalLines + 1));
      }
    }
  }

  /** A line of a checked kind parses into a record or into structural messages. */
  lemma CheckedParseClassifies(k: Kind, line: string, lineNumber: int)
    requires Checked(k)
    ensures var p := Parse(Parser(k), line, lineNumber);
            p.messages != [] || p.record.Some?
  {
    assert Parse(Parser(k), line, lineNumber) == ParseLine(k, line, lineNumber);
  }

  /** AM, AN and CT lines are counted and nothing else: no errors, no classification. */
  lemma {:induction false} UncheckedScanIsSilent(k: Kind, file: string, lines: seq<string>,
                                                 check: (Record, int) -> seq<ValidationError>)
    requires !Checked(k)
    ensures var r := Scan(Parser(k), file, lines, check);
            r.0 == [] && Classified(r.1) == 0 && r.1.totalLines == NonBlank(lines)
    decreases |lines|
  {
    ScanAccounts(Parser(k), file, lines, check);
    if lines != [] {
      var init := lines[..|lines| - 1];
      var line := lines[|lines| - 1];
      UncheckedScanIsSilent(k, file, init, check);
      var prev := Scan(Parser(k), file, init, check);
      if Strip(line) != [] {
        CountedStep(Parser(k), file, line, |lines|, check, prev.1);
        assert Parse(Parser(k), line, |lines|) == ParseLine(k, line, |lines|);
      }
    }
  }

  /** `check` reports every error at the file and line it was given. */
  ghost predicate ChecksLocated(check: (Record, int) -> seq<ValidationError>, file: string)
  {
    forall r: Record, n: int :: Located(check(r, n), file, n)
  }

  /** The errors of one turn are located at that line, and only a counted line has any. */
  lemma StepLocated(parse: (string, int) -> LineParse, file: string, line: string, lineNumber: int,
                    check: (Record, int) -> seq<ValidationError>, st: Stats)
    requires ChecksLocated(check, file)
    ensures var es := LineStep(parse, file, line, lineNumber, check, st).0;
            Located(es, file, lineNumber) && (es != [] ==> Strip(line) != [])
  {
    if Strip(line) != [] {
      CountedStep(parse, file, line, lineNumber, check, st);
      var p := Parse(parse, line, lineNumber);
      if p.messages == [] && p.record.Some? {
        assert Located(check(p.record.value, lineNumber), file, lineNumber);
      }
    }
  }

  /**
   * Every error of a scan names the file and the number of a non-blank line
   * of it, numbered from 1, as `enumerate(f, start=1)` does.
   */
  lemma {:induction false} ScanLocated(parse: (string, int) -> LineParse, file: string, lines: seq<string>,
                                       check: (Record, int) -> seq<ValidationError>)
    requires ChecksLocated(check, file)
    ensures forall e :: e in Scan(parse, file, lines, check).0 ==>
              e.fileName == file && 1 <= e.lineNumber <= |lines| && Strip(lines[e.lineNumber - 1]) != []
    decreases |lines|
  {
    if lines != [] {
      var init := lines[..|lines| - 1];
      ScanLocated(parse, file, init, check);
      var prev := Scan(parse, file, init, check);
      StepLocated(parse, file, lines[|lines| - 1], |lines|, check, prev.1);
      forall e | e in prev.0 ensures Strip(lines[e.lineNumber - 1]) != [] {
        assert init[e.lineNumber - 1] == lines[e.lineNumber - 1];
      }
    }
  }

  /** What the reader returns for a file of kind `k`, `check` being the rule sets: its errors and counters. */
  function Outcome(k: Kind, path: string, contents: FileContents, check: (Record, int) -> seq<ValidationError>)
    : (seq<ValidationError>, Stats)
  {
    var file := BaseName(path);
    match contents
    case Lines(lines) => Scan(Parser(k), file, lines, check)
    case Missing =>
      ([ValidationError(file, 0, "archivo", FileMissing(path), System, MissingFix)], Stats(0, 0, 0, 0))
    case Failed(read, reason) =>
      var s := Scan(Parser(k), file, read, check);
      (s.0 + [ValidationError(file, 0, "archivo", FileUnreadable(reason), System, UnreadableFix)], s.1)
  }

  /**
   * `RIPSFileReader`: the reader and its table of rule sets, which the
   * constructor fills with the validators of the six checked kinds.
   */
  class RipsFileReader {
    const rules: string -> (Record, int) -> seq<ValidationError>

    /** `__init__`: the rule sets of every kind, judging dates against `today`. */
    constructor (today: Date)
      ensures forall name, r, n :: rules(name)(r, n) == ValidateRecord(r, n, name, today)
    {
      rules := RuleTable(today);
    }

    /**
     * `read_and_validate_file`: the kind, the errors and the counters of a
     * file, or, for a name that gives no kind, one 'nombre_archivo' error at
     * line 0 and no counters.
     */
    method ReadAndValidateFile(path: string, contents: FileContents)
      returns (kind: Option<Kind>, errors: seq<ValidationError>, stats: Option<Stats>)
      ensures DetectFileType(BaseName(path)).None? ==>
                kind.None? && stats.None? && errors == [UnknownNameError(BaseName(path))]
      ensures DetectFileType(BaseName(path)).Some? ==>
                kind == DetectFileType(BaseName(path)) && stats.Some?
                && (errors, stats.value) == Outcome(kind.value, path, contents, rules(BaseName(path)))
    {
      var file := BaseName(path);
      kind := DetectFileType(file);
      if kind.None? {
        return None, [UnknownNameError(file)], None;
      }
      var st;
      if contents.Missing? {
        errors := [ValidationError(file, 0, "archivo", FileMissing(path), System, MissingFix)];
        st := Stats(0, 0, 0, 0);
      } else if contents.Failed? {
        errors, st := ScanLines(Parser(kind.value), file, contents.read, rules(file));
        errors := errors + [ValidationError(file, 0, "archivo", FileUnreadable(contents.reason), System, UnreadableFix)];
      } else {
        errors, st := ScanLines(Parser(kind.value), file, contents.lines, rules(file));
      }
      stats := Some(st);
    }
  }
}
