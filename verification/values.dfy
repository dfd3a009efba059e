/**
 * Untyped JavaScript values, as the application receives them from
 * `request.json()`, from stored survey responses and from parsed workbook
 * rows, together with the handful of JavaScript operations the application
 * applies to them: property access, `in`, truthiness, `typeof`,
 * `String(v)` and `Object.keys(v).length`.
 *
 * `undefined` is not a `Value`: an absent property or an out-of-range index
 * is `None` of an `Option<Value>`.
 */
module Values {
  import opened Options
  import opened JsText
  import opened Numbers

  datatype NonFiniteKind = NaN | PosInfinity | NegInfinity

  /** A JavaScript value. Object properties are held in the order
      `Object.keys` enumerates them, each key once. */
  datatype Value =
    | Null
    | Bool(b: bool)
    | Num(n: Decimal)
    | NonFinite(kind: NonFiniteKind)
    | Str(s: string)
    | Arr(items: seq<Value>)
    | Obj(fields: seq<(string, Value)>)

  function NatValue(n: nat): Value {
    Num(Decimal(n, 0))
  }

  /** A canonical array index: the numeral of an integer below 2^32 - 1. */
  predicate IsArrayIndex(key: string) {
    |key| > 0 && AllDigits(key) && (|key| > 1 ==> key[0] != '0')
    && DigitsValue(key) < 0xFFFF_FFFF
  }

  predicate HasField(fields: seq<(string, Value)>, key: string) {
    exists i :: 0 <= i < |fields| && fields[i].0 == key
  }

  /** The value bound to `key`, if any. */
  function Lookup(fields: seq<(string, Value)>, key: string): (r: Option<Value>)
    ensures r.Some? <==> HasField(fields, key)
    ensures r.Some? ==> (key, r.value) in fields
  {
    if |fields| == 0 then None
    else if fields[0].0 == key then Some(fields[0].1)
    else
      var r := Lookup(fields[1..], key);
      assert HasField(fields, key) ==> HasField(fields[1..], key) by {
        if HasField(fields, key) {
          var i :| 0 <= i < |fields| && fields[i].0 == key;
          assert fields[1..][i - 1].0 == key;
        }
      }
      r
  }

  /** `v[key]` on a value that is neither `null` nor `undefined` (on those
      JavaScript throws, and callers deal with that case first). Own
      properties only: an object's bindings, an array's or a string's
      `length` and indices. Numbers and booleans have none. */
  function Member(v: Value, key: string): (r: Option<Value>)
    requires v != Null
    ensures v.Obj? ==> r == Lookup(v.fields, key)
    ensures v.Bool? || v.Num? || v.NonFinite? ==> r.None?
  {
    match v
    case Obj(fields) => Lookup(fields, key)
    case Arr(items) =>
      if key == "length" then Some(NatValue(|items|))
      else if IsArrayIndex(key) then Nth(items, DigitsValue(key))
      else None
    case Str(s) =>
      if key == "length" then Some(NatValue(|s|))
      else if IsArrayIndex(key) && DigitsValue(key) < |s| then Some(Str([s[DigitsValue(key)]]))
      else None
    case _ => None
  }

  /** `x[key]` where `x` may be `undefined` or `null`; `None` when it throws
      a TypeError is not distinguished from an absent property, so callers
      that must distinguish check for `null` first. */
  function MemberOf(x: Option<Value>, key: string): Option<Value> {
    if x.None? || x.value == Null then None else Member(x.value, key)
  }

  /** `key in v` for an object or an array. */
  predicate HasKey(v: Value, key: string)
    requires v.Obj? || v.Arr?
  {
    if v.Obj? then HasField(v.fields, key)
    else key == "length" || (IsArrayIndex(key) && DigitsValue(key) < |v.items|)
  }

  /** JavaScript truthiness; `undefined` is falsy. */
  predicate Truthy(x: Option<Value>) {
    match x
    case None => false
    case Some(v) =>
      match v
      case Null => false
      case Bool(b) => b
      case Num(d) => d.units != 0
      case NonFinite(k) => k != NaN
      case Str(s) => |s| > 0
      case Arr(_) => true
      case Obj(_) => true
  }

  /** `typeof x === 'object'` (which includes `null` and arrays). */
  predicate IsObjectType(x: Option<Value>) {
    x.Some? && (x.value.Null? || x.value.Arr? || x.value.Obj?)
  }

  /** `typeof x === 'number'` (which includes `NaN` and the infinities). */
  predicate IsNumberType(x: Option<Value>) {
    x.Some? && (x.value.Num? || x.value.NonFinite?)
  }

  /** `x === null || x === undefined || x === ''`: the blank test shared by
      several views. */
  predicate IsBlank(x: Option<Value>) {
    x.None? || x.value == Null || x.value == Str("")
  }

  function NonFiniteText(k: NonFiniteKind): string {
    match k
    case NaN => "NaN"
    case PosInfinity => "Infinity"
    case NegInfinity => "-Infinity"
  }

  /** `String(v)`. An array is the `join(',')` of its elements with `null`
      written as the empty string; a plain object is `[object Object]`. */
  function ToText(v: Value): (r: string)
    ensures v.Str? ==> r == v.s
    ensures v.Obj? ==> r == "[object Object]"
    ensures v.Arr? && |v.items| == 0 ==> r == ""
  {
    match v
    case Null => "null"
    case Bool(b) => if b then "true" else "false"
    case Num(d) => DecimalToString(d)
    case NonFinite(k) => NonFiniteText(k)
    case Str(s) => s
    case Arr(items) =>
      Join(seq(|items|, i requires 0 <= i < |items| => if items[i] == Null then "" else ToText(items[i])), ",")
    case Obj(_) => "[object Object]"
  }

  /** `String(x)`, where `undefined` is written `undefined`. */
  function OptionText(x: Option<Value>): string {
    if x.None? then "undefined" else ToText(x.value)
  }

  /** `Object.keys(v).length`: the number of own enumerable keys. On `null`
      JavaScript throws; every caller tests truthiness first, so the answer
      0 given here for `null` is never used. */
  function KeyCount(v: Value): (n: nat)
    ensures v.Obj? ==> n == |v.fields|
    ensures v.Bool? || v.Num? || v.NonFinite? ==> n == 0
  {
    match v
    case Obj(fields) => |fields|
    case Arr(items) => |items|
    case Str(s) => |s|
    case Null => 0
    case Bool(_) => 0
    case Num(_) => 0
    case NonFinite(_) => 0
  }

  /** `x && Object.keys(x).length > 0`: a truthy value with at least one
      own key. */
  predicate HasContent(x: Option<Value>) {
    Truthy(x) && KeyCount(x.value) > 0
  }
}
