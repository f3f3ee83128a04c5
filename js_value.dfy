/**
 * The slice of JavaScript semantics that the translation layer relies on:
 * values, truthiness, property reads, string concatenation, `Object.keys`,
 * and the two Babel object helpers (`_extends`, `_objectWithoutProperties`).
 */
module JsValue {
  import opened Wrappers

  /** A JavaScript value as this layer sees it: the JSON values plus `undefined`
      and `NaN`. Numbers are integers. */
  datatype Value =
    | Undefined
    | Null
    | Bool(b: bool)
    | Num(n: int)
    | NaN
    | Str(s: string)
    | Arr(items: seq<Value>)
    | Obj(fields: map<string, Value>)

  /** What can be thrown or rejected: `new Error('Not Implemented')`, a
      TypeError (a property read on null or undefined, a call of something that
      is not a function), or a promise rejected with an arbitrary reason. */
  datatype Error = NotImplemented | TypeError | Rejected(reason: Value)

  predicate Nullish(v: Value) { v.Undefined? || v.Null? }

  /** JavaScript truthiness. */
  predicate Truthy(v: Value)
  {
    match v
    case Undefined => false
    case Null => false
    case NaN => false
    case Bool(b) => b
    case Num(n) => n != 0
    case Str(s) => s != ""
    case Arr(_) => true
    case Obj(_) => true
  }

  /** `v[key]` on a value that is not null or undefined. Only objects carry
      properties in this model. */
  function Field(v: Value, key: string): Value
  {
    if v.Obj? && key in v.fields then v.fields[key] else Undefined
  }

  /** `v[key]`: reading a property of null or undefined throws a TypeError. */
  function Get(v: Value, key: string): Result<Value, Error>
  {
    if Nullish(v) then Err(TypeError) else Ok(Field(v, key))
  }

  /** `Object.keys(v).length`: own keys of an object, indices of an array or
      a string, none for the other primitives. */
  function KeyCount(v: Value): nat
  {
    match v
    case Obj(m) => |m|
    case Arr(items) => |items|
    case Str(s) => |s|
    case _ => 0
  }

  /** The own enumerable entries that `_extends` and `_objectWithoutProperties`
      copy out of a value. */
  function OwnEntries(v: Value): map<string, Value>
  {
    if v.Obj? then v.fields else map[]
  }

  /** `_extends(target, source)`: every own entry of `source` is written into
      `target`, so on a shared key the source wins. */
  function Assign(target: map<string, Value>, source: map<string, Value>): (r: map<string, Value>)
    ensures r.Keys == target.Keys + source.Keys
    ensures forall k :: k in source ==> r[k] == source[k]
    ensures forall k :: k in target && k !in source ==> r[k] == target[k]
  {
    target + source
  }

  /** `_objectWithoutProperties(v, keys)`: a fresh object with every own entry
      of `v` whose key is not listed. */
  function WithoutKeys(v: Value, keys: set<string>): (r: map<string, Value>)
    ensures r.Keys == OwnEntries(v).Keys - keys
    ensures forall k :: k in r ==> r[k] == OwnEntries(v)[k]
  {
    OwnEntries(v) - keys
  }

  /** `len(v)`: the length of an array, 0 for anything else. */
  function Len(v: Value): (r: nat)
    ensures v.Arr? ==> r == |v.items|
    ensures !v.Arr? ==> r == 0
  {
    if v.Arr? then |v.items| else 0
  }

  /** `v - 1` on a truthy value: numeric subtraction after `ToNumber`. */
  function Decrement(v: Value): Value
  {
    match v
    case Num(n) => Num(n - 1)
    case Bool(b) => if b then Num(0) else Num(-1)
    case Null => Num(-1)
    case _ => NaN
  }

  function DigitChar(d: nat): char
    requires d < 10
  {
    "0123456789"[d]
  }

  /** Decimal digits of a natural number, without leading zeros. */
  function NatToString(n: nat): string
    decreases n
  {
    if n < 10 then [DigitChar(n)] else NatToString(n / 10) + [DigitChar(n % 10)]
  }

  /** `'' + v`: the string JavaScript concatenation produces. */
  function ToJsString(v: Value): string
  {
    match v
    case Undefined => "undefined"
    case Null => "null"
    case Bool(b) => if b then "true" else "false"
    case Num(n) => if n < 0 then "-" + NatToString(-n) else NatToString(n)
    case NaN => "NaN"
    case Str(s) => s
    case Arr(items) => JoinElements(items)
    case Obj(_) => "[object Object]"
  }

  /** `Array.prototype.join(',')`, where null and undefined elements print as
      the empty string. */
  function JoinElements(items: seq<Value>): string
  {
    if |items| == 0 then ""
    else
      var last := items[|items| - 1];
      var text := if Nullish(last) then "" else ToJsString(last);
      if |items| == 1 then text else JoinElements(items[..|items| - 1]) + "," + text
  }
}
