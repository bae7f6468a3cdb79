/**
 * The JSON values the AnalisisJSON tools read, as `json.load` hands them
 * over, and the few Python operations their rules apply to them: `d.get`,
 * truthiness, `str()`, `int()` and `float()`.  The members of a
 * consultation or a user are scalars; fractional JSON numbers are not
 * part of this model.
 */
module Json {
  import opened Wrappers
  import opened Text

  /** A scalar JSON value: `null`, `true`/`false`, an integer or a string. */
  datatype Scalar = Null | Bool(b: bool) | Int(i: int) | Str(s: string)

  /** A JSON object whose members are scalars. */
  type Record = map<string, Scalar>

  /** `d.get(key)`: the member, or `None` when it is absent. */
  function Get(r: Record, key: string): (v: Scalar)
    ensures key !in r ==> v == Null
    ensures key in r ==> v == r[key]
  {
    if key in r then r[key] else Null
  }

  /** `d.get(key, default)`: the member, or `default` when it is absent. */
  function GetOr(r: Record, key: string, default: Scalar): (v: Scalar)
    ensures key !in r ==> v == default
    ensures key in r ==> v == r[key]
  {
    if key in r then r[key] else default
  }

  /** Python truthiness: `None`, `False`, `0` and `""` are false. */
  predicate Truthy(v: Scalar)
  {
    match v
    case Null => false
    case Bool(b) => b
    case Int(i) => i != 0
    case Str(s) => s != ""
  }

  /** `str(v)`. */
  function PyStr(v: Scalar): string
  {
    match v
    case Null => "None"
    case Bool(b) => if b then "True" else "False"
    case Int(i) => ShowInt(i)
    case Str(s) => s
  }

  /** A truthy value never prints as the empty text. */
  lemma TruthyShows(v: Scalar)
    requires Truthy(v)
    ensures PyStr(v) != []
  {
    if v.Int? {
      var m: nat := if v.i < 0 then -v.i else v.i;
      assert |Show(m)| >= 1;
    }
  }

  /** `int(v)`; `None` where Python raises `ValueError` or `TypeError`. */
  function ToInt(v: Scalar): (r: Option<int>)
    ensures v.Null? ==> r.None?
    ensures v.Int? ==> r == Some(v.i)
  {
    match v
    case Null => None
    case Bool(b) => Some(if b then 1 else 0)
    case Int(i) => Some(i)
    case Str(s) => PyInt(s)
  }

  /** `float(v)`; `None` where Python raises `ValueError` or `TypeError`. */
  function ToFloat(v: Scalar): (r: Option<Float>)
    ensures v.Null? ==> r.None?
    ensures v.Int? ==> r == Some(Finite(v.i as real))
  {
    match v
    case Null => None
    case Bool(b) => Some(Finite(if b then 1.0 else 0.0))
    case Int(i) => Some(Finite(i as real))
    case Str(s) => PyFloat(s)
  }

  /**
   * A member the code uses as a string (`d.get(key, "")` followed by a
   * string method): its text, or `""` when it is absent.
   */
  function TextOf(r: Record, key: string): (t: string)
    ensures key !in r ==> t == ""
    ensures key in r && r[key].Str? ==> t == r[key].s
  {
    match GetOr(r, key, Str(""))
    case Str(s) => s
    case _ => ""
  }
}
