/**
 * The JSON values `JSON.parse` can produce, JavaScript property access on
 * them, and the JSON runtime (`JSON.parse`, `JSON.stringify`) taken as a
 * parameter: its grammar and number formatting are not part of this model.
 */
module JsonValues {
  import opened Wrappers
  import opened OracleErrors

  /** Numbers are carried as reals; their double-precision arithmetic is not modelled. */
  datatype Json =
    | Null
    | Bool(b: bool)
    | Num(n: real)
    | Str(s: string)
    | Arr(items: seq<Json>)
    | Obj(fields: map<string, Json>)

  /**
   * `v.key` on a non-null value, for the data keys the strategy reads: an
   * object's own property when present, otherwise `undefined` (None); no
   * other kind of value has such a property. Reading a property of `null`
   * throws and is handled by the caller.
   */
  function Property(v: Json, key: string): (r: Option<Json>)
    requires !v.Null?
    ensures r.Some? <==> v.Obj? && key in v.fields
    ensures r.Some? ==> r.value == v.fields[key]
  {
    match v
    case Obj(fields) => if key in fields then Some(fields[key]) else None
    case _ => None
  }

  /** `typeof v.key === 'string'`, giving the string. */
  function StringProperty(v: Json, key: string): (r: Option<string>)
    requires !v.Null?
    ensures r.Some? <==> v.Obj? && key in v.fields && v.fields[key].Str?
    ensures r.Some? ==> v.fields[key] == Str(r.value)
  {
    match Property(v, key)
    case Some(Str(s)) => Some(s)
    case _ => None
  }

  /** `typeof v.key === 'number'`, giving the number. */
  function NumberProperty(v: Json, key: string): (r: Option<real>)
    requires !v.Null?
    ensures r.Some? <==> v.Obj? && key in v.fields && v.fields[key].Num?
    ensures r.Some? ==> v.fields[key] == Num(r.value)
  {
    match Property(v, key)
    case Some(Num(n)) => Some(n)
    case _ => None
  }

  /** The two JSON entry points of the JavaScript runtime. */
  datatype JsonRuntime = JsonRuntime(
    parse: string -> Result<Json, Failure>,
    stringify: Json -> string)

  /**
   * What `JSON.parse` guarantees about a text that opens with `{`: if it
   * parses at all, the value is an object (a JSON text starting with `{`
   * can only be an object).
   */
  ghost predicate ParsesBracesToObjects(rt: JsonRuntime) {
    forall text: string {:trigger rt.parse(text)} ::
      |text| > 0 && text[0] == '{' && rt.parse(text).Success? ==> rt.parse(text).value.Obj?
  }
}
