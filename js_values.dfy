/**
 * The JavaScript values a log record is made of, and the few language
 * operations the transport applies to them: `typeof … === 'object'`,
 * property reads, and the string conversion that template literals and
 * property keys perform.
 *
 * Library functions whose internals are not part of this model
 * (`JSON.parse`, `JSON.stringify`, `Date.prototype.toISOString` and
 * `Date.prototype.toString`) are fields of a `Runtime` value.  Every lemma
 * in the project holds for every `Runtime`, so nothing is assumed about
 * them beyond their types.
 */
module JsValues {

  datatype Option<+T> = None | Some(value: T)

  /** A JavaScript value as it can reach the transport.  Numbers are
      integers here; `Obj` is a plain object whose own enumerable keys are
      listed in `Object.keys` order. */
  datatype Value =
    | Str(s: string)
    | Num(n: int)
    | Bool(b: bool)
    | Null
    | Undefined
    | Date(time: int)
    | Obj(fields: seq<(string, Value)>)

  /** The exceptions the transport's own code can raise. */
  datatype Exception =
    | CannotReadProperty(key: string)   // `x.key` with `x` null or undefined
    | CannotConvertToObject             // `Object.keys(null)`
    | SerializationFailed               // `JSON.stringify` threw

  datatype Result<+T> = Ok(value: T) | Throw(error: Exception)

  /** The library functions the transport calls but whose behaviour is not
      modelled.  `None` means the call throws. */
  datatype Runtime = Runtime(
    parse: string -> Option<Value>,             // JSON.parse(text)
    stringify: (Value, nat) -> Option<string>,  // JSON.stringify(value, null, indentWidth)
    isoString: int -> Option<string>,           // new Date(time).toISOString()
    dateString: int -> string                   // String(new Date(time))
  )

  /** `typeof v === 'object'`: true for objects, dates and `null`. */
  predicate IsObjectType(v: Value) {
    v.Obj? || v.Date? || v.Null?
  }

  /** Value of the first field named `key`, or `undefined`. */
  function Lookup(fields: seq<(string, Value)>, key: string): (r: Value)
    ensures r != Undefined ==> exists i :: 0 <= i < |fields| && fields[i] == (key, r)
    ensures (forall i :: 0 <= i < |fields| ==> fields[i].0 != key) ==> r == Undefined
  {
    if fields == [] then Undefined
    else if fields[0].0 == key then fields[0].1
    else Lookup(fields[1..], key)
  }

  /** `v[key]` for a key that no prototype in play defines (here `level`
      and `msg`): reading it from `null` or `undefined` throws, a primitive
      or a date has no such own property, and an object yields its field. */
  function GetProperty(v: Value, key: string): (r: Result<Value>)
    ensures r.Throw? <==> v.Null? || v.Undefined?
    ensures r.Throw? ==> r.error == CannotReadProperty(key)
    ensures r.Ok? && !v.Obj? ==> r.value == Undefined
    ensures v.Obj? ==> r == Ok(Lookup(v.fields, key))
  {
    match v
    case Null => Throw(CannotReadProperty(key))
    case Undefined => Throw(CannotReadProperty(key))
    case Obj(fields) => Ok(Lookup(fields, key))
    case _ => Ok(Undefined)
  }

  function DigitChar(d: nat): (c: char)
    requires d < 10
    ensures '0' <= c <= '9' && c as int - '0' as int == d
  {
    "0123456789"[d]
  }

  /** Decimal notation of a natural number, without leading zeros. */
  function NatDecimal(n: nat): (s: string)
    ensures |s| >= 1 && '0' <= s[0] <= '9'
  {
    if n < 10 then [DigitChar(n)] else NatDecimal(n / 10) + [DigitChar(n % 10)]
  }

  /** The value a string of decimal digits denotes. */
  function DigitsValue(s: string): int {
    if s == [] then 0 else DigitsValue(s[..|s| - 1]) * 10 + (s[|s| - 1] as int - '0' as int)
  }

  lemma {:induction false} DigitsValueOfNatDecimal(n: nat)
    ensures DigitsValue(NatDecimal(n)) == n
  {
    if n >= 10 {
      var s := NatDecimal(n);
      assert s[..|s| - 1] == NatDecimal(n / 10);
      DigitsValueOfNatDecimal(n / 10);
    }
  }

  /** `String(n)` for an integer `n` (exact for |n| < 10^21). */
  function Decimal(n: int): string {
    if n < 0 then "-" + NatDecimal(-n) else NatDecimal(n)
  }

  /** Reads back an optionally signed decimal numeral. */
  function DecimalValue(s: string): int {
    if s != [] && s[0] == '-' then -DigitsValue(s[1..]) else DigitsValue(s)
  }

  /** Reading back what `Decimal` prints gives the number again. */
  lemma {:induction false} DecimalRoundTrip(n: int)
    ensures DecimalValue(Decimal(n)) == n
  {
    if n < 0 {
      var s := NatDecimal(-n);
      assert Decimal(n) == "-" + s;
      assert ("-" + s)[0] == '-' && ("-" + s)[1..] == s;
      DigitsValueOfNatDecimal(-n);
    } else {
      var s := NatDecimal(n);
      assert Decimal(n) == s && s[0] != '-';
      DigitsValueOfNatDecimal(n);
    }
  }

  /** Distinct integers print differently, so a number matches a property
      key exactly when it is the number that key spells. */
  lemma {:induction false} DecimalInjective(a: int, b: int)
    requires Decimal(a) == Decimal(b)
    ensures a == b
  {
    DecimalRoundTrip(a);
    DecimalRoundTrip(b);
  }

  /** The abstract operation ToString: what `${v}` in a template literal
      and `obj[v]` as a property key turn `v` into. */
  function ToJsString(rt: Runtime, v: Value): string {
    match v
    case Str(s) => s
    case Num(n) => Decimal(n)
    case Bool(b) => if b then "true" else "false"
    case Null => "null"
    case Undefined => "undefined"
    case Date(time) => rt.dateString(time)
    case Obj(_) => "[object Object]"
  }
}
