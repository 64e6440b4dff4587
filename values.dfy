/**
 * JavaScript values as the JSON-RPC pipeline sees them: request parameters,
 * results, transaction configs and receipts are untyped JSON-like values.
 * Numbers are integers here (floating point is not modelled).
 */
module Values {

  datatype Option<T> = None | Some(value: T) {
    function GetOr(default: T): T {
      match this
      case Some(v) => v
      case None => default
    }
  }

  datatype Value =
    | Undefined
    | Null
    | Bool(b: bool)
    | Num(n: int)
    | Str(s: string)
    | Arr(items: seq<Value>)
    | Obj(fields: map<string, Value>)

  /** JavaScript truthiness (`if (v)`, `!v`, `filter(Boolean)`). */
  predicate Truthy(v: Value) {
    match v
    case Undefined => false
    case Null => false
    case Bool(b) => b
    case Num(n) => n != 0
    case Str(s) => s != ""
    case Arr(_) => true
    case Obj(_) => true
  }

  /** `v?.key`: a missing key, or a receiver that is not an object, gives undefined. */
  function Field(v: Value, key: string): (r: Value)
    ensures r != Undefined ==> v.Obj? && key in v.fields
  {
    if v.Obj? && key in v.fields then v.fields[key] else Undefined
  }

  /** Array destructuring `const [.., x] = items`: a missing position gives undefined. */
  function At(items: seq<Value>, k: nat): (r: Value)
    ensures k < |items| ==> r == items[k]
    ensures k >= |items| ==> r == Undefined
  {
    if k < |items| then items[k] else Undefined
  }

  /** An `Error` object; only its message is observable in the model. */
  datatype Error = Error(message: string)

  /** What a `catch` clause receives: an `Error` instance or any other thrown value. */
  datatype Thrown = Raised(error: Error) | RaisedValue(value: Value)

  /** What an awaited call gives: its value, or the `Error` it rejects with. */
  datatype Result<T> = Success(value: T) | Failure(error: Error)

  /** What awaiting an external call gives: its value, or whatever it throws. */
  datatype Reply<T> = Returned(value: T) | Threw(thrown: Thrown)

  /** Keeps a thrown `Error`, replaces any other thrown value by `Error(fallback)`. */
  function Normalize(t: Thrown, fallback: string): (e: Error)
    ensures t.Raised? ==> e == t.error
    ensures t.RaisedValue? ==> e.message == fallback
  {
    match t
    case Raised(err) => err
    case RaisedValue(_) => Error(fallback)
  }

  /** ASCII case folding, standing in for `toLowerCase`. */
  function LowerChar(c: char): (d: char)
    ensures 'A' <= c <= 'Z' ==> d as int == c as int + 32
    ensures !('A' <= c <= 'Z') ==> d == c
  {
    if 'A' <= c <= 'Z' then (c as int + 32) as char else c
  }

  function Lower(s: string): (r: string)
    ensures |r| == |s|
    ensures forall i :: 0 <= i < |s| ==> r[i] == LowerChar(s[i])
  {
    if s == [] then [] else [LowerChar(s[0])] + Lower(s[1..])
  }

  /** Case-insensitive equality of two strings. */
  predicate SameFolded(a: string, b: string) {
    Lower(a) == Lower(b)
  }
}
