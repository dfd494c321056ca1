/** JavaScript values as `JSON.parse` produces them, and the string coercion that
    `+` applies when one operand is a string. */
module JsValues {
  import opened Wrappers

  /** A parsed JSON value. Numbers are kept as integers (see README). */
  datatype Json =
    | JNull
    | JBool(b: bool)
    | JNumber(n: int)
    | JString(str: string)
    | JArray(items: seq<Json>)
    | JObject(fields: map<string, Json>)

  /** Reading property `key` of a metadata object; `None` is `undefined`. */
  function Field(m: map<string, Json>, key: string): (r: Option<Json>)
    ensures r.Some? <==> key in m
    ensures r.Some? ==> r.value == m[key]
  {
    if key in m then Some(m[key]) else None
  }

  /** Reading property `key` of any parsed value: only objects carry the
      properties this model reads. */
  function Prop(v: Json, key: string): (r: Option<Json>)
    ensures r.Some? <==> v.JObject? && key in v.fields
  {
    if v.JObject? then Field(v.fields, key) else None
  }

  function DigitChar(d: nat): char
    requires d < 10
  {
    "0123456789"[d]
  }

  /** Decimal digits of a natural number, as `String(n)` prints an integer. */
  function NatToDecimal(n: nat): (s: string)
    ensures |s| >= 1
    ensures forall i :: 0 <= i < |s| ==> '0' <= s[i] <= '9'
  {
    if n < 10 then [DigitChar(n)] else NatToDecimal(n / 10) + [DigitChar(n % 10)]
  }

  /** `a.join(sep)` over already-coerced parts. */
  function Join(parts: seq<string>, sep: string): string
  {
    if |parts| == 0 then ""
    else if |parts| == 1 then parts[0]
    else parts[0] + sep + Join(parts[1..], sep)
  }

  /** JavaScript's `String(v)` on a parsed value: what `s + v` appends. Array
      elements that are null print as the empty string, objects as
      "[object Object]". An object with its own `toString` key, alone or inside
      an array, makes `+` throw instead; this function does not model that
      (see README). */
  function ToJsString(v: Json): (s: string)
    ensures v.JString? ==> s == v.str
  {
    match v
    case JNull => "null"
    case JBool(b) => if b then "true" else "false"
    case JNumber(n) => if n < 0 then "-" + NatToDecimal(-n) else NatToDecimal(n)
    case JString(t) => t
    case JArray(items) =>
      Join(seq(|items|, i requires 0 <= i < |items| =>
             if items[i].JNull? then "" else ToJsString(items[i])), ",")
    case JObject(_) => "[object Object]"
  }

  /** `String(x)` where `x` may be `undefined`. */
  function OptionalToJsString(v: Option<Json>): (s: string)
    ensures v.None? ==> s == "undefined"
    ensures v.Some? && v.value.JString? ==> s == v.value.str
  {
    match v
    case None => "undefined"
    case Some(j) => ToJsString(j)
  }
}
