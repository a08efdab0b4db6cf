/**
 * JSON values as the browser holds them after `JSON.parse`, JavaScript
 * truthiness and property reads on them, and the two JSON entry points
 * the dashboard calls, left uninterpreted as the fields of a `Codec`.
 */
module JsonValues {
  import opened Wrappers

  /** A parsed JSON value; object member order is not represented. */
  datatype Json =
    | Null
    | Bool(b: bool)
    | Num(n: real)
    | Str(s: string)
    | Arr(items: seq<Json>)
    | Obj(fields: map<string, Json>)

  /** JavaScript truthiness of a JSON value (NaN and -0 are not JSON values). */
  predicate Truthy(j: Json) {
    match j
    case Null => false
    case Bool(b) => b
    case Num(n) => n != 0.0
    case Str(s) => s != ""
    case Arr(_) => true
    case Obj(_) => true
  }

  /** The property read `j[key]` on a non-null value; None stands for `undefined`. */
  function Field(j: Json, key: string): Option<Json> {
    if j.Obj? && key in j.fields then Some(j.fields[key]) else None
  }

  /** Truthiness of a property read, `undefined` being falsy. */
  predicate TruthyField(j: Json, key: string) {
    Field(j, key).Some? && Truthy(Field(j, key).value)
  }

  /**
   * `JSON.parse` (None when it throws) and `JSON.stringify`. Their grammar
   * is not part of this model: every property proved below holds for any
   * pair of functions, unless a lemma says it needs `RoundTrips`.
   */
  datatype Codec = Codec(parse: string -> Option<Json>, stringify: Json -> string)

  /** Parsing what was stringified gives the value back. */
  ghost predicate RoundTrips(codec: Codec) {
    forall j :: codec.parse(codec.stringify(j)) == Some(j)
  }

  /** `localStorage.getItem(key)`: None stands for `null`. */
  function Get(store: map<string, string>, key: string): Option<string> {
    if key in store then Some(store[key]) else None
  }

  /** A stored item that is present and non-empty, i.e. truthy. */
  predicate Filled(item: Option<string>) {
    item.Some? && item.value != ""
  }
}
