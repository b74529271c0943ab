/** The slice of JavaScript value semantics the template-tag code relies on:
    `undefined` kept apart from `null`, truthiness, the `val?.length > 0`
    test and the loose `!= null` comparison. */
module Js {

  /** An optional value; `None` stands for a missing key or an `undefined`
      reference, depending on where it is used. */
  datatype Option<+T> = None | Some(value: T) {

    /** The wrapped value, or `default` when there is none. */
    function GetOr(default: T): T {
      match this
      case Some(v) => v
      case None => default
    }
  }

  /** A JSON-like JavaScript value. Numbers are integers here: floating point
      (and NaN) is not modelled. */
  datatype Value =
    | Undefined
    | Null
    | Bool(b: bool)
    | Num(n: int)
    | Str(s: string)
    | List(items: seq<Value>)
    | Obj(fields: map<string, Value>)

  /** JavaScript truthiness: `undefined`, `null`, `false`, `0` and `""` are
      falsy; every array and object is truthy. */
  predicate Truthy(v: Value) {
    match v
    case Undefined => false
    case Null => false
    case Bool(b) => b
    case Num(n) => n != 0
    case Str(s) => |s| > 0
    case List(_) => true
    case Obj(_) => true
  }

  /** `v == null` under loose equality: both `null` and `undefined`. */
  predicate IsNullish(v: Value) {
    v.Undefined? || v.Null?
  }

  /** `v?.length > 0`: only strings and arrays carry a length. */
  predicate HasPositiveLength(v: Value) {
    match v
    case Str(s) => |s| > 0
    case List(xs) => |xs| > 0
    case _ => false
  }

  /** Reading `obj[k]` from a plain object: `undefined` when the key is absent. */
  function Get(m: map<string, Value>, k: string): (r: Value)
    ensures k in m ==> r == m[k]
    ensures k !in m ==> r.Undefined?
  {
    if k in m then m[k] else Undefined
  }

  /** Reading a key whose presence is tracked: an absent key reads as `undefined`. */
  function ReadKey(key: Option<Value>): Value {
    key.GetOr(Undefined)
  }

  /** `s.startsWith(prefix)`. */
  predicate StartsWith(s: string, prefix: string) {
    |prefix| <= |s| && s[..|prefix|] == prefix
  }

  /** A string array as a JavaScript array value. */
  function StrList(ss: seq<string>): (r: Value)
    ensures r.List? && |r.items| == |ss|
    ensures forall i :: 0 <= i < |ss| ==> r.items[i] == Str(ss[i])
  {
    List(seq(|ss|, i requires 0 <= i < |ss| => Str(ss[i])))
  }
}
