/**
 * The JavaScript values the library handles: what `JSON.parse` produces, plus
 * `undefined`, which client-side objects can hold and which the library tests
 * for explicitly. Numbers are integers: the library never computes with
 * them. An object is the map of its own enumerable properties; a key that is
 * absent reads as `undefined`, exactly as a key explicitly set to `undefined`
 * does.
 */
module JsValues {
  import Text

  datatype Value =
    | Undefined
    | Null
    | Bool(b: bool)
    | Num(n: int)
    | Str(s: string)
    | Arr(items: seq<Value>)
    | Obj(fields: map<string, Value>)

  /** The outcome of JavaScript code that may throw: a value, or an Error with its message. */
  datatype Result<T> = Ok(value: T) | Throw(message: string)

  /** `o.key` on an object given by its own properties. */
  function Field(m: map<string, Value>, key: string): Value
  {
    if key in m then m[key] else Undefined
  }

  /**
   * `v.key` on an arbitrary value. Reading a property of `undefined` or `null`
   * throws a TypeError; primitives and arrays have none of the keys the library
   * reads, so those read as `undefined`.
   */
  function Prop(v: Value, key: string): (r: Result<Value>)
    ensures r.Throw? <==> Nullish(v)
    ensures r.Ok? && !v.Obj? ==> r.value == Undefined
    ensures v.Obj? ==> r == Ok(Field(v.fields, key))
  {
    match v
    case Undefined => Throw("TypeError")
    case Null => Throw("TypeError")
    case Obj(m) => Ok(Field(m, key))
    case _ => Ok(Undefined)
  }

  /** `v === undefined || v === null`, which is also what `??` tests. */
  predicate Nullish(v: Value)
  {
    v.Undefined? || v.Null?
  }

  /** JavaScript truthiness, as `if (v)` decides it. */
  predicate Truthy(v: Value)
  {
    match v
    case Undefined => false
    case Null => false
    case Bool(b) => b
    case Num(n) => n != 0
    case Str(s) => s != ""
    case Arr(_) => true
    case Obj(_) => true
  }

  /** `a ?? b`. */
  function Coalesce(a: Value, b: Value): Value
  {
    if Nullish(a) then b else a
  }

  /** The decimal digits of n, most significant first. */
  function NatToDecimal(n: nat): (r: string)
    ensures |r| >= 1
    ensures forall i :: 0 <= i < |r| ==> '0' <= r[i] <= '9'
  {
    var d := ['0' + (n % 10) as char];
    if n < 10 then d else NatToDecimal(n / 10) + d
  }

  /**
   * `${v}`: the text a template string inserts for v. Arrays render as their
   * elements joined with ',', where undefined and null elements render as "".
   */
  function TemplateString(v: Value): string
    decreases v
  {
    match v
    case Undefined => "undefined"
    case Null => "null"
    case Bool(b) => if b then "true" else "false"
    case Num(n) => if n < 0 then "-" + NatToDecimal(-n) else NatToDecimal(n)
    case Str(s) => s
    case Obj(_) => "[object Object]"
    case Arr(items) =>
      Text.Join(seq(|items|, i requires 0 <= i < |items| =>
        if Nullish(items[i]) then "" else TemplateString(items[i])), ',')
  }

  /** What the library's URLs interpolate: a string as it is, and `null` and `undefined` by name. */
  lemma TemplateStringForms(s: string)
    ensures TemplateString(Str(s)) == s
    ensures TemplateString(Null) == "null" && TemplateString(Undefined) == "undefined"
    ensures TemplateString(Num(-12)) == "-12"
  {
    assert NatToDecimal(12) == NatToDecimal(1) + "2";
  }
}
