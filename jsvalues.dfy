/**
 * The JavaScript values the cache and the S3 helpers handle: primitives,
 * arrays and plain objects, together with `String(x)` and truthiness.
 * Numbers are integers; floating point is not part of this model.
 */
module JsValues {

  /** A JavaScript primitive value. */
  datatype Primitive = Str(s: string) | Num(n: int) | Bool(b: bool) | Null | Undefined

  /**
   * A JavaScript value: a primitive, an array, or a plain object given by
   * its own enumerable key/value pairs in enumeration order.
   */
  datatype Value = Prim(p: Primitive) | Arr(elems: seq<Value>) | Obj(fields: seq<(string, Value)>)

  /** The decimal digit character for `d`. */
  function DigitChar(d: nat): (c: char)
    requires d < 10
    ensures '0' <= c <= '9' && c as int - '0' as int == d
  {
    (d + '0' as int) as char
  }

  /** Decimal rendering of a natural number, without leading zeros. */
  function NatToDecimal(n: nat): (s: string)
    ensures |s| > 0
    ensures forall i :: 0 <= i < |s| ==> '0' <= s[i] <= '9'
    ensures |s| > 1 ==> s[0] != '0'
  {
    if n < 10 then [DigitChar(n)] else NatToDecimal(n / 10) + [DigitChar(n % 10)]
  }

  /** The number a string of decimal digits denotes. */
  function DecimalValue(s: string): nat
    requires forall i :: 0 <= i < |s| ==> '0' <= s[i] <= '9'
  {
    if s == [] then 0
    else DecimalValue(s[..|s| - 1]) * 10 + (s[|s| - 1] as int - '0' as int)
  }

  /** Reading a rendered number back gives the number: the rendering loses nothing. */
  lemma {:induction false} DecimalRoundTrip(n: nat)
    ensures DecimalValue(NatToDecimal(n)) == n
  {
    var s := NatToDecimal(n);
    if n >= 10 {
      DecimalRoundTrip(n / 10);
      assert s[..|s| - 1] == NatToDecimal(n / 10);
    }
  }

  /**
   * `String(n)` for an integer `n`: a minus sign exactly when `n` is
   * negative, followed by digits, without leading zeros, that denote the
   * magnitude of `n`.
   */
  function IntToString(n: int): (s: string)
    ensures |s| > 0
    ensures (s[0] == '-') == (n < 0)
    ensures var digits := if n < 0 then s[1..] else s;
      && (forall i :: 0 <= i < |digits| ==> '0' <= digits[i] <= '9')
      && DecimalValue(digits) == (if n < 0 then -n else n)
      && (|digits| > 1 ==> digits[0] != '0')
  {
    var magnitude := if n < 0 then -n else n;
    DecimalRoundTrip(magnitude);
    if n < 0 then
      assert ("-" + NatToDecimal(magnitude))[1..] == NatToDecimal(magnitude);
      "-" + NatToDecimal(magnitude)
    else NatToDecimal(magnitude)
  }

  /** `String(p)`: the string form JavaScript gives a primitive. */
  function PrimitiveToString(p: Primitive): string
  {
    match p
    case Str(s) => s
    case Num(n) => IntToString(n)
    case Bool(b) => if b then "true" else "false"
    case Null => "null"
    case Undefined => "undefined"
  }

  /** JavaScript truthiness: `false`, `0`, `""`, `null` and `undefined` are falsy. */
  predicate Truthy(v: Value)
  {
    match v
    case Prim(p) =>
      (match p
       case Str(s) => s != ""
       case Num(n) => n != 0
       case Bool(b) => b
       case Null => false
       case Undefined => false)
    case Arr(_) => true
    case Obj(_) => true
  }

  /** lodash `_.isObject` restricted to the values of this model: arrays and objects. */
  predicate IsObject(v: Value)
  {
    v.Arr? || v.Obj?
  }

  /** A key JavaScript treats as an array index: a canonical decimal below 2^32 - 1. */
  predicate IsIndexKey(k: string)
  {
    && |k| > 0
    && (forall i :: 0 <= i < |k| ==> '0' <= k[i] <= '9')
    && (|k| > 1 ==> k[0] != '0')
    && DecimalValue(k) < 0xFFFF_FFFF
  }

  /**
   * Members in the order a JavaScript object enumerates its own properties:
   * keys are distinct, and array-index keys come first, in ascending numeric
   * order, before all other keys.
   */
  predicate EnumerationOrdered(fields: seq<(string, Value)>)
  {
    forall i, j :: 0 <= i < j < |fields| ==>
      && fields[i].0 != fields[j].0
      && (IsIndexKey(fields[j].0) ==>
            IsIndexKey(fields[i].0) && DecimalValue(fields[i].0) < DecimalValue(fields[j].0))
  }

  /**
   * A value that JSON serialisation keeps intact: no `undefined` anywhere
   * (`JSON.stringify` drops object members whose value is `undefined` and
   * writes `null` for such array elements), and every object's members as
   * a real object would enumerate them (`JSON.parse` keeps one member per
   * key and enumerates array-index keys first).
   */
  predicate JsonSafe(v: Value)
  {
    match v
    case Prim(p) => !p.Undefined?
    case Arr(elems) => forall i :: 0 <= i < |elems| ==> JsonSafe(elems[i])
    case Obj(fields) =>
      && EnumerationOrdered(fields)
      && forall i :: 0 <= i < |fields| ==> JsonSafe(fields[i].1)
  }
}
