/**
 * The JavaScript values the promise wrappers inspect: what `typeof` answers,
 * which values are truthy, and how a value becomes a property name.
 * Objects are modelled by their own enumerable properties; functions by what
 * they are (a caller's function, or one of the two closures the library makes).
 */
module JsValues {

  datatype Option<+T> = None | Some(value: T)

  /** The framework type a prototype is built over: `Backbone.Model`, `Backbone.Collection` or another base. */
  datatype Base = ModelBase | CollectionBase | OtherBase(name: string)

  /** Which of a promise's two settling functions a callback bridge holds. */
  datatype Resolver = Resolve | Reject

  datatype Value =
    | Undefined
    | Null
    | Bool(b: bool)
    | Number(n: int)
    | Str(s: string)
    | Object(props: map<string, Value>)
    | Function(code: Code)

  /** What a function value is. */
  datatype Code =
      /** a function written by the caller; `source` is what `String(f)` gives */
    | Script(id: nat, source: string)
      /** the closure `overrideCallback(callback, resolver, agg)` returns */
    | CallbackBridge(callback: Value, resolver: Resolver)
      /** the closure `wrapMethod(proto)` installs as `agg[method]` */
    | WrappedMethod(methodName: string, base: Base)

  /** The `typeof` operator. */
  function TypeOf(v: Value): (t: string)
    ensures t == "object" <==> v.Null? || v.Object?
  {
    match v
    case Undefined => "undefined"
    case Null => "object"
    case Bool(_) => "boolean"
    case Number(_) => "number"
    case Str(_) => "string"
    case Object(_) => "object"
    case Function(_) => "function"
  }

  /** Truthiness, as `if (v)` decides it: every value is truthy except undefined, null, false, 0 and "". */
  predicate Truthy(v: Value)
    ensures Truthy(v) <==> !(v.Undefined? || v.Null? || v == Bool(false) || v == Number(0) || v == Str(""))
  {
    match v
    case Undefined => false
    case Null => false
    case Bool(b) => b
    case Number(n) => n != 0
    case Str(s) => s != ""
    case Object(_) => true
    case Function(_) => true
  }

  /** Reading property `k` of an object: an absent property reads as `undefined`. */
  function Get(props: map<string, Value>, k: string): Value
  {
    if k in props then props[k] else Undefined
  }

  function DigitChar(d: nat): char
    requires d < 10
  {
    "0123456789"[d]
  }

  predicate IsDigits(s: string)
  {
    forall i :: 0 <= i < |s| ==> '0' <= s[i] <= '9'
  }

  /** The number a string of decimal digits denotes. */
  function DigitsValue(s: string): nat
    requires IsDigits(s)
    decreases |s|
  {
    if s == [] then 0 else DigitsValue(s[..|s| - 1]) * 10 + (s[|s| - 1] as int - '0' as int)
  }

  /** The canonical decimal numeral of `n`: digits only, no leading zero, and denoting `n`. */
  function NatToString(n: nat): (s: string)
    ensures |s| > 0 && IsDigits(s)
    ensures s[0] == '0' ==> s == "0"
    ensures DigitsValue(s) == n
  {
    if n < 10 then [DigitChar(n)]
    else
      var init := NatToString(n / 10);
      var s := init + [DigitChar(n % 10)];
      assert s[..|s| - 1] == init;
      s
  }

  /** The integer an optionally signed decimal numeral denotes. */
  function NumeralValue(s: string): int
    requires IsDigits(s) || (|s| > 0 && s[0] == '-' && IsDigits(s[1..]))
  {
    if IsDigits(s) then DigitsValue(s) else -(DigitsValue(s[1..]) as int)
  }

  /**
   * The property name a value stands for when it is used as a key, as in
   * `attrs[key]`: a string is its own name, a boolean is "true" or "false",
   * and an integer is written as its signed decimal numeral.
   */
  function PropertyKey(v: Value): (k: string)
    ensures v.Str? ==> k == v.s
    ensures v.Bool? ==> k == if v.b then "true" else "false"
    ensures v.Number? ==> (IsDigits(k) || (|k| > 0 && k[0] == '-' && IsDigits(k[1..]))) && NumeralValue(k) == v.n
    ensures v.Number? ==> |k| > 0 && (k[0] == '-' <==> v.n < 0)
    // and the numeral is canonical: no leading zero, no "-0", so equal integers and their numeral strings name one property
    ensures v.Number? ==> (k[0] == '0' ==> k == "0") && (k[0] == '-' ==> |k| > 1 && k[1] != '0')
  {
    match v
    case Undefined => "undefined"
    case Null => "null"
    case Bool(b) => if b then "true" else "false"
    case Number(n) => if n < 0 then "-" + NatToString(-n) else NatToString(n)
    case Str(s) => s
    case Object(_) => "[object Object]"
    case Function(code) =>
      match code
      case Script(_, source) => source
      // the library's own closures are never passed as keys; their text is not modelled
      case _ => "function"
  }
}
