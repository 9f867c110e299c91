/**
 * The JavaScript values the configuration code passes around: user configuration
 * objects, the defaults they are spread over and the options handed to plugins.
 */
module JsValues {

  /** A JavaScript value; numbers are integers and functions or class instances are opaque. */
  datatype Value =
    | Undefined
    | Null
    | Bool(b: bool)
    | Num(n: int)
    | Str(s: string)
    | Regex(source: string)
    | Arr(items: seq<Value>)
    | Obj(fields: map<string, Value>)
    | Opaque(tag: string)

  /** The values `if (v)`, `v || w` and `!v` treat as true (NaN is not a value here). */
  predicate Truthy(v: Value) {
    match v
    case Undefined => false
    case Null => false
    case Bool(b) => b
    case Num(n) => n != 0
    case Str(s) => s != ""
    case _ => true
  }

  /** `v == null`: loose equality with null holds for null and undefined only. */
  predicate IsNullish(v: Value) {
    v.Undefined? || v.Null?
  }

  /** The own properties that `...v` contributes to an object literal. */
  function Fields(v: Value): map<string, Value> {
    if v.Obj? then v.fields else map[]
  }

  /** `v[key]`: an absent property reads as undefined. */
  function Get(v: Value, key: string): (r: Value)
    ensures key !in Fields(v) ==> r == Undefined
  {
    if v.Obj? && key in v.fields then v.fields[key] else Undefined
  }

  /** `{...a, ...b}` */
  function Spread(a: Value, b: Value): Value {
    Obj(Fields(a) + Fields(b))
  }

  /** After `{...a, ...b}`, a key holds the value `b` gives it, else the one `a` gives it, else nothing. */
  lemma SpreadGet(a: Value, b: Value, k: string)
    ensures Spread(a, b).Obj? && Spread(a, b).fields.Keys == Fields(a).Keys + Fields(b).Keys
    ensures Get(Spread(a, b), k) == if k in Fields(b) then Fields(b)[k] else Get(a, k)
  {
  }
}
