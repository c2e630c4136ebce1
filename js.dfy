/**
 * The part of JavaScript's value semantics that the client code relies on:
 * what `JSON.parse` can yield (plus `undefined`), truthiness, `String(v)` as
 * template literals apply it, member reads, and the Error objects that the
 * code throws, catches or hands to callbacks.
 */
module Js {

  import opened Wrappers

  /** A JavaScript value as produced by `JSON.parse`, or `undefined`.
      Numbers are integers here. */
  datatype Value =
    | Undefined
    | Null
    | Bool(b: bool)
    | Num(n: int)
    | Str(s: string)
    | Arr(items: seq<Value>)
    | Obj(fields: map<string, Value>)

  /** The Error values the client code meets. */
  datatype Error =
    | Raised(message: string)    // `new Error(message)` built by the client code itself
    | TypeError                  // a member read on `null` or `undefined`
    | Transport(detail: string)  // the rejection of `fetch` (a network failure)
    | Syntax(detail: string)     // `response.json()` on a body that does not parse

  predicate Nullish(v: Value) {
    v.Undefined? || v.Null?
  }

  /** JavaScript truthiness (`if (v)`, `v || w`, `v && w`). */
  predicate Truthy(v: Value) {
    match v
    case Undefined => false
    case Null => false
    case Bool(b) => b
    case Num(n) => n != 0
    case Str(s) => s != ""
    case Arr(_) => true
    case Obj(_) => true
  }

  /** `String(v)`: what `${v}` and `new Error(v)` make of a value. */
  function ToStr(v: Value): string
    decreases v
  {
    match v
    case Undefined => "undefined"
    case Null => "null"
    case Bool(b) => if b then "true" else "false"
    case Num(n) => Decimal(n)
    case Str(s) => s
    case Arr(items) =>
      // Array.prototype.join: null and undefined elements print as ""
      Join(seq(|items|, i requires 0 <= i < |items| =>
             if Nullish(items[i]) then "" else ToStr(items[i])), ",")
    case Obj(_) => "[object Object]"
  }

  function Join(parts: seq<string>, sep: string): string {
    if |parts| == 0 then ""
    else if |parts| == 1 then parts[0]
    else Join(parts[..|parts| - 1], sep) + sep + parts[|parts| - 1]
  }

  /** Base-10 rendering of an integer, with a leading '-' when negative. */
  function Decimal(n: int): (s: string)
    ensures |s| > 0
    ensures s[0] == '-' <==> n < 0
    ensures forall i :: (if n < 0 then 1 else 0) <= i < |s| ==> '0' <= s[i] <= '9'
  {
    if n < 0 then "-" + Digits(-n) else Digits(n)
  }

  function Digits(n: nat): (s: string)
    ensures |s| > 0
    ensures forall i :: 0 <= i < |s| ==> '0' <= s[i] <= '9'
  {
    var d := ['0' + (n % 10) as char];
    if n < 10 then d else Digits(n / 10) + d
  }

  /** `v[k]` for one of the keys the client reads (`token`, `message`,
      `publicKey`, `privateKey`, `exists`): an own member of an object,
      `undefined` for every other value. */
  function Prop(v: Value, k: string): Value {
    if v.Obj? && k in v.fields then v.fields[k] else Undefined
  }

  /** `v.k`: reading a member of `null` or `undefined` throws a TypeError. */
  function Member(v: Value, k: string): (r: Result<Value, Error>)
    ensures r.Failure? <==> Nullish(v)
    ensures r.Failure? ==> r.error == TypeError
    ensures r.Success? ==> r.value == Prop(v, k)
  {
    if Nullish(v) then Failure(TypeError) else Success(Prop(v, k))
  }

  /** The message of `new Error(v || fallback)`. */
  function MessageOr(v: Value, fallback: string): (m: string)
    ensures !Truthy(v) ==> m == fallback
    ensures Truthy(v) ==> m == ToStr(v)
    ensures v.Str? && v.s != "" ==> m == v.s
  {
    if Truthy(v) then ToStr(v) else fallback
  }
}
