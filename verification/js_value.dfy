/**
 This module models the JavaScript values that travel through the relay: the
 fields of a parsed JSON request body, the opaque subscriptions kept in the
 registry, and the push payloads read back by the service worker. It also
 defines the few language operations the handlers rely on: truthiness, the
 `||` fallback, destructuring defaults, property reads and template-literal
 text.
 */
module JsValue {

  /** A JavaScript value as it can appear in parsed JSON. Numbers are integers
      and objects are their property maps, compared by content. */
  datatype Value =
    | Undefined
    | Null
    | Bool(b: bool)
    | Num(n: int)
    | Str(s: string)
    | Obj(props: map<string, Value>)

  /** A parsed request body, or any other plain object, as its property map. */
  type Props = map<string, Value>

  /** ToBoolean (ECMA-262, section 7.1.2): `undefined`, `null`, `false`, `0`
      and the empty string are falsy; every object is truthy. */
  predicate Truthy(v: Value) {
    match v
    case Undefined => false
    case Null => false
    case Bool(b) => b
    case Num(n) => n != 0
    case Str(s) => s != ""
    case Obj(_) => true
  }

  /** `a || b`: the left operand when it is truthy, else the right one. */
  function Or(a: Value, b: Value): Value {
    if Truthy(a) then a else b
  }

  /** The default of a destructuring pattern `{ x = d } = o`, which applies
      only when the property is `undefined` (not when it is `null`, `0`, ...). */
  function Default(v: Value, d: Value): Value {
    if v == Undefined then d else v
  }

  /** Reading property `name` of an object: `undefined` when it is absent. */
  function Field(props: Props, name: string): Value {
    if name in props then props[name] else Undefined
  }

  /** Values whose property reads throw a TypeError. */
  predicate Nullish(v: Value) {
    v == Undefined || v == Null
  }

  /** `v.name` for a value that is not nullish. Primitives carry none of the
      property names this system reads, so they yield `undefined`. */
  function Property(v: Value, name: string): Value {
    match v
    case Obj(props) => Field(props, name)
    case _ => Undefined
  }

  /** `v?.name`: `undefined` for a nullish value instead of a TypeError. */
  function OptionalProperty(v: Value, name: string): Value {
    if Nullish(v) then Undefined else Property(v, name)
  }

  /** The own properties an object spread `{ ...v }` copies. */
  function SpreadProps(v: Value): Props {
    match v
    case Obj(props) => props
    case _ => map[]
  }

  function DigitChar(d: nat): char
    requires d < 10
  {
    "0123456789"[d]
  }

  function DigitValue(c: char): nat {
    if '0' <= c <= '9' then (c as int - '0' as int) as nat else 0
  }

  /** The decimal text of a natural number, as Number::toString produces it
      for integers (ECMA-262, section 6.1.6.1.20). */
  function NatToString(n: nat): (s: string)
    ensures |s| >= 1
    ensures forall i :: 0 <= i < |s| ==> '0' <= s[i] <= '9'
    ensures s[0] == '0' ==> n == 0
    decreases n
  {
    if n < 10 then [DigitChar(n)] else NatToString(n / 10) + [DigitChar(n % 10)]
  }

  /** The number a string of decimal digits denotes: the reference reading
      that `NatToString` is checked against. */
  function DecimalValue(s: string): nat
    decreases |s|
  {
    if |s| == 0 then 0 else DecimalValue(s[..|s| - 1]) * 10 + DigitValue(s[|s| - 1])
  }

  lemma DigitRoundTrip(d: nat)
    requires d < 10
    ensures DigitValue(DigitChar(d)) == d
  {
  }

  /** Reading back the decimal text of `n` gives `n`: the text is exact. */
  lemma {:induction false} NatToStringRoundTrip(n: nat)
    ensures DecimalValue(NatToString(n)) == n
    decreases n
  {
    if n < 10 {
      DigitRoundTrip(n);
      assert NatToString(n)[..0] == [];
    } else {
      var s := NatToString(n / 10);
      var t := s + [DigitChar(n % 10)];
      assert t[..|t| - 1] == s;
      DigitRoundTrip(n % 10);
      NatToStringRoundTrip(n / 10);
      assert DecimalValue(t) == (n / 10) * 10 + n % 10;
    }
  }

  function IntToString(n: int): string {
    if n < 0 then "-" + NatToString(-n) else NatToString(n)
  }

  /** The text a template literal `${v}` inserts: ToString (ECMA-262,
      section 7.1.17) for the values of this model. */
  function ToStr(v: Value): string {
    match v
    case Undefined => "undefined"
    case Null => "null"
    case Bool(b) => if b then "true" else "false"
    case Num(n) => IntToString(n)
    case Str(s) => s
    case Obj(_) => "[object Object]"
  }
}
