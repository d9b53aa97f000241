/**
 * Loosely typed JavaScript values as they arrive in the service's JSON
 * payloads, and the two JavaScript idioms the formatter and the client rely
 * on: truthiness (`a || b`) and "decode or keep the raw text".
 */
module JsonValues {
  import opened Wrappers

  /** A JSON value. Numbers are kept as reals; NaN cannot come out of JSON. */
  datatype Json =
    | Null
    | Bool(b: bool)
    | Num(n: real)
    | Str(s: string)
    | Arr(items: seq<Json>)
    | Obj(fields: seq<(string, Json)>)

  /** JavaScript truthiness of a JSON value: null, false, 0 and "" are falsy. */
  predicate Truthy(j: Json) {
    match j
    case Null => false
    case Bool(b) => b
    case Num(n) => n != 0.0
    case Str(s) => s != ""
    case Arr(_) => true
    case Obj(_) => true
  }

  /** A possibly absent value is truthy when it is present and truthy itself. */
  predicate Present(o: Option<Json>) {
    o.Some? && Truthy(o.value)
  }

  /** A possibly absent string is truthy when it is present and not empty. */
  predicate NonEmpty(o: Option<string>) {
    o.Some? && o.value != ""
  }

  /** `o || fallback` for a possibly absent string. */
  function OrElse(o: Option<string>, fallback: string): (r: string)
    ensures NonEmpty(o) ==> r == o.value
    ensures !NonEmpty(o) ==> r == fallback
    ensures r == "" ==> fallback == ""
  {
    if NonEmpty(o) then o.value else fallback
  }

  /** The result of `try { JSON.parse(s) } catch { s }`. */
  datatype Decoded = Parsed(value: Json) | Raw(text: string)

  /**
   * Decode `s` with the JSON parser `decode` (a parameter: the parser itself
   * is not part of this model) and fall back to the raw text when it fails.
   */
  function DecodeOrRaw(decode: string -> Option<Json>, s: string): (r: Decoded)
    ensures r.Raw? ==> r.text == s && decode(s).None?
    ensures r.Parsed? ==> decode(s) == Some(r.value)
  {
    match decode(s)
    case Some(v) => Parsed(v)
    case None => Raw(s)
  }
}
