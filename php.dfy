/** PHP values as the component sees them, PHP truthiness, and the
    string conversion PHP applies when a value is concatenated. */
module Php {

  datatype Option<T> = None | Some(value: T)

  /** A PHP value. Arrays are associative arrays with string keys; floats
      and objects are not part of this model. */
  datatype Value =
    | Null
    | Bool(b: bool)
    | Int(i: int)
    | Str(s: string)
    | Arr(entries: map<string, Value>)

  /** PHP's boolean conversion, used by `if ($x)`, `!$x` and `(bool)$x`. */
  predicate Truthy(v: Value) {
    match v
    case Null => false
    case Bool(b) => b
    case Int(i) => i != 0
    case Str(s) => s != "" && s != "0"
    case Arr(m) => m != map[]
  }

  /** PHP's `empty($x)`: the negation of truthiness. */
  predicate Empty(v: Value) {
    !Truthy(v)
  }

  /** Reading a missing key of an array (or of a store) yields `null`. */
  function Lookup<K(==)>(m: map<K, Value>, k: K): (v: Value)
    ensures k !in m ==> v == Null
  {
    if k in m then m[k] else Null
  }

  function DigitChar(d: nat): (r: char)
    requires d < 10
  {
    "0123456789"[d]
  }

  function NatToString(n: nat): (s: string)
    ensures |s| >= 1
  {
    if n < 10 then [DigitChar(n)] else NatToString(n / 10) + [DigitChar(n % 10)]
  }

  /** The string PHP's `.` operator and `split()` see for a value. */
  function ToPhpString(v: Value): (s: string)
    ensures v.Str? ==> s == v.s
    ensures Truthy(v) && !v.Str? ==> s != ""
  {
    match v
    case Null => ""
    case Bool(b) => if b then "1" else ""
    case Int(i) => if i < 0 then "-" + NatToString(-i) else NatToString(i)
    case Str(s) => s
    case Arr(_) => "Array"
  }

  /** A thrown `Exception` and its message. */
  datatype Exception = Exception(message: string)

  /** The outcome of a call that returns a value or throws. */
  datatype Result<T> = Success(value: T) | Failure(error: Exception)

  /** The outcome of a call whose return value the model does not track. */
  datatype Outcome = Pass | Fail(error: Exception)
}
