/**
 * The JavaScript values the client code reads and writes, with the few
 * language operations it relies on: truthiness, reading a named property,
 * and conversion to text (`String(v)`, used by string concatenation and by
 * `localStorage.setItem`).
 */
module JsValue {

  datatype Option<T> = None | Some(value: T)

  /**
   * A JavaScript value. Numbers are integers (floating point, NaN and -0 are
   * outside the model); an object is the map of its own enumerable
   * properties, so two objects with the same properties are the same value.
   */
  datatype Value =
    | Undefined
    | Null
    | Bool(b: bool)
    | Num(n: int)
    | Str(s: string)
    | Arr(items: seq<Value>)
    | Obj(props: map<string, Value>)

  predicate IsNullish(v: Value) {
    v.Undefined? || v.Null?
  }

  /** JavaScript's ToBoolean: what `if (v)` tests. */
  predicate Truthy(v: Value) {
    match v
    case Undefined => false
    case Null => false
    case Bool(b) => b
    case Num(n) => n != 0
    case Str(s) => s != ""
    case Arr(_) => true
    case Obj(_) => true
  }

  /**
   * `v.key` (also what a destructuring pattern does): None stands for the
   * TypeError raised on `undefined` and `null`. Only own properties of plain
   * objects are modelled; the keys the client reads (`data`, `token`,
   * `status`, `msg`, ...) are not built-in properties of strings, numbers,
   * booleans or arrays, which therefore yield `undefined`.
   */
  function Property(v: Value, key: string): (r: Option<Value>)
    ensures r.None? <==> IsNullish(v)
    ensures r.Some? && v.Obj? ==> r.value == (if key in v.props then v.props[key] else Undefined)
    ensures r.Some? && !v.Obj? ==> r.value == Undefined
  {
    match v
    case Undefined => None
    case Null => None
    case Obj(m) => Some(if key in m then m[key] else Undefined)
    case _ => Some(Undefined)
  }

  /** `v.key` where `v` is known not to be undefined or null. */
  function Get(v: Value, key: string): Value
    requires !IsNullish(v)
  {
    Property(v, key).value
  }

  function DigitChar(d: nat): char
    requires d < 10
  {
    ('0' as int + d) as char
  }

  /** The decimal numeral of `n`, as `String(n)` writes it. */
  function NatToText(n: nat): (s: string)
    ensures |s| >= 1
    ensures n >= 10 <==> |s| >= 2
  {
    if n < 10 then [DigitChar(n)] else NatToText(n / 10) + [DigitChar(n % 10)]
  }

  /** Distinct numbers have distinct numerals, so numerals can serve as object keys. */
  lemma {:induction false} NatToTextInjective(a: nat, b: nat)
    requires NatToText(a) == NatToText(b)
    ensures a == b
  {
    if a >= 10 && b >= 10 {
      var sa, sb := NatToText(a), NatToText(b);
      assert sa[..|sa| - 1] == NatToText(a / 10);
      assert sb[..|sb| - 1] == NatToText(b / 10);
      NatToTextInjective(a / 10, b / 10);
      assert DigitChar(a % 10) == sa[|sa| - 1] == sb[|sb| - 1] == DigitChar(b % 10);
    } else {
      assert NatToText(a)[0] == NatToText(b)[0];
    }
  }

  lemma NatToTextInjectiveAll()
    ensures forall a: nat, b: nat :: NatToText(a) == NatToText(b) ==> a == b
  {
    forall a: nat, b: nat | NatToText(a) == NatToText(b)
      ensures a == b
    {
      NatToTextInjective(a, b);
    }
  }

  function IntToText(n: int): string {
    if n < 0 then "-" + NatToText(-n) else NatToText(n)
  }

  /**
   * `String(v)`. An array is joined with commas, with `undefined` and `null`
   * elements written as the empty string; every plain object is
   * "[object Object]".
   */
  function ToText(v: Value): string
    decreases v, 1, 0
  {
    match v
    case Undefined => "undefined"
    case Null => "null"
    case Bool(b) => if b then "true" else "false"
    case Num(n) => IntToText(n)
    case Str(s) => s
    case Arr(items) => JoinText(v, items, 0)
    case Obj(_) => "[object Object]"
  }

  function JoinText(whole: Value, items: seq<Value>, i: nat): string
    requires whole == Arr(items) && i <= |items|
    decreases whole, 0, |items| - i
  {
    if i == |items| then ""
    else
      var element := if IsNullish(items[i]) then "" else ToText(items[i]);
      (if i == 0 then "" else ",") + element + JoinText(whole, items, i + 1)
  }

  /**
   * The own enumerable properties `Object.assign` copies from a source:
   * those of an object, the indices of an array or of a string, and none
   * for `undefined`, `null`, booleans and numbers.
   */
  function OwnProperties(v: Value): map<string, Value> {
    NatToTextInjectiveAll();
    match v
    case Obj(m) => m
    case Arr(items) => map k: nat | k < |items| :: NatToText(k) := items[k]
    case Str(s) => map k: nat | k < |s| :: NatToText(k) := Str([s[k]])
    case _ => map[]
  }
}
