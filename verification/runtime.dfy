/**
 * The few pieces of the JavaScript runtime the translation layer depends on:
 * the platform identity it dispatches on, the loosely typed values it copies
 * between records, and the operators it applies to them.
 */
module Runtime {
  import opened Wrappers

  /** `Platform.OS`, reduced to the two platforms the library handles and everything else. */
  datatype Platform = IOS | Android | Other

  /** A JavaScript value as far as the library inspects or produces it. */
  datatype JsValue = Undefined | NaN | Num(n: real) | Str(s: string)

  /** A number field that may be missing, as a JavaScript value. */
  function OfNumber(o: Option<real>): (v: JsValue)
    ensures v != NaN && !v.Str?
    ensures v.Num? <==> o.Some?
    ensures o.Some? ==> v.n == o.value
  {
    match o
    case Some(x) => Num(x)
    case None => Undefined
  }

  /** A string field that may be missing, as a JavaScript value. */
  function OfString(o: Option<string>): (v: JsValue)
    ensures v.Str? <==> o.Some?
    ensures o.Some? ==> v.s == o.value
    ensures o.None? ==> v == Undefined
  {
    match o
    case Some(s) => Str(s)
    case None => Undefined
  }

  /**
   * `(value as number) / d` for a number field that may be missing: JavaScript
   * turns `undefined / d` into `NaN`.
   */
  function Quotient(o: Option<real>, d: real): (v: JsValue)
    requires d != 0.0
    ensures o.None? ==> v == NaN
    ensures o.Some? ==> v.Num? && v.n * d == o.value
  {
    match o
    case Some(x) => Num(x / d)
    case None => NaN
  }

  /** Whether an optional string is truthy: present and not the empty string. */
  predicate Truthy(o: Option<string>) {
    o.Some? && o.value != ""
  }

  /** The fields an object spread `...o` contributes; spreading `undefined` contributes none. */
  function Spread(o: Option<map<string, JsValue>>): map<string, JsValue> {
    o.GetOr(map[])
  }

  /** `o?.key`: the field of an optional object, `undefined` when either is missing. */
  function Lookup(o: Option<map<string, JsValue>>, key: string): (v: JsValue)
    ensures v != Undefined ==> o.Some? && key in o.value && o.value[key] == v
  {
    if o.Some? && key in o.value then o.value[key] else Undefined
  }
}
