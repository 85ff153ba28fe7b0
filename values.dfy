/**
 * The untyped values that cross the host boundary: event tuple elements and
 * the inputs of the schema validator.  JavaScript semantics are followed:
 * `undefined` and `null` are distinct, and NaN is a number that is not equal
 * to itself.
 */
module Values {

  datatype Value =
    | Undefined
    | Null
    | Bool(b: bool)
    | Num(n: real)
    | NaN
    | Str(s: string)
    | Arr(items: seq<Value>)
    | Obj(fields: map<string, Value>)

  /** `typeOf` of zod-lite: `typeof`, except that null reports "null". */
  function TypeOf(v: Value): string {
    match v
    case Undefined => "undefined"
    case Null => "null"
    case Bool(_) => "boolean"
    case Num(_) => "number"
    case NaN => "number"
    case Str(_) => "string"
    case Arr(_) => "object"
    case Obj(_) => "object"
  }

  /** `xs[i]` on a JavaScript array: undefined past the end. */
  function At(xs: seq<Value>, i: nat): (v: Value)
    ensures i < |xs| ==> v == xs[i]
    ensures i >= |xs| ==> v == Undefined
  {
    if i < |xs| then xs[i] else Undefined
  }

  /** `xs.slice(i)`. */
  function Drop(xs: seq<Value>, i: nat): (r: seq<Value>)
    ensures i <= |xs| ==> r == xs[i..]
    ensures i > |xs| ==> r == []
  {
    if i <= |xs| then xs[i..] else []
  }

  /** A string the host reads as a string: Str(s) or the empty string otherwise. */
  function StrOf(v: Value): string {
    if v.Str? then v.s else ""
  }

  function NumOf(v: Value): real {
    if v.Num? then v.n else 0.0
  }

  function BoolOf(v: Value): bool {
    v.Bool? && v.b
  }
}
