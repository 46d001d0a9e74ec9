/** A parsed JSON document, as the providers' replies arrive after `r.json()`,
    and the two lookups the tools perform on it: `d[key]` on an object and
    `xs[i]` on an array. A lookup that Python would answer with KeyError,
    IndexError or TypeError yields None here. */
module Json {

  datatype Option<+T> = None | Some(value: T)

  /** JSON numbers are modelled as reals: the tools only copy them or compare
      them with small integers, so no rounding is involved. */
  datatype Json =
    | JNull
    | JBool(b: bool)
    | JNumber(n: real)
    | JString(s: string)
    | JArray(items: seq<Json>)
    | JObject(fields: map<string, Json>)

  /** `d[key]` applied to the result of an earlier lookup: it succeeds only on
      an object that has the key. */
  function Field(o: Option<Json>, key: string): (r: Option<Json>)
    ensures r.Some? <==> o.Some? && o.value.JObject? && key in o.value.fields
    ensures r.Some? ==> r.value == o.value.fields[key]
  {
    match o
    case Some(JObject(fields)) => if key in fields then Some(fields[key]) else None
    case _ => None
  }

  /** `xs[i]` for a non-negative index applied to the result of an earlier
      lookup: it succeeds only on an array long enough to hold position i.
      Python would also index a non-empty string; the caller in `Weather`
      then looks up a key in the character it gets, which fails as well. */
  function Elem(o: Option<Json>, i: nat): (r: Option<Json>)
    ensures r.Some? <==> o.Some? && o.value.JArray? && i < |o.value.items|
    ensures r.Some? ==> r.value == o.value.items[i]
  {
    match o
    case Some(JArray(items)) => if i < |items| then Some(items[i]) else None
    case _ => None
  }

  /** Python's `d.get(key, default)` on an object: the default is used only
      when the key is absent, never when it is present with a null value. */
  function GetOr(fields: map<string, Json>, key: string, default: Json): (r: Json)
    ensures key in fields ==> r == fields[key]
    ensures key !in fields ==> r == default
  {
    if key in fields then fields[key] else default
  }

  /** The object `j` has every key in `keys`. */
  predicate HasKeys(j: Json, keys: set<string>)
  {
    j.JObject? && keys <= j.fields.Keys
  }
}
