/**
 * The values a flag payload may hold once decoded from JSON: a closed union
 * standing in for Swift's `Any`, with an explicit `JNull` for the `NSNull`
 * marker that Foundation puts where JSON has `null`.
 */
module Json {
  import opened Wrappers

  datatype Json =
    | JNull
    | JBool(b: bool)
    | JInt(i: int)
    | JDouble(d: real)
    | JString(s: string)
    | JArray(items: seq<Json>)
    | JObject(fields: map<string, Json>)

  /** A string-keyed dictionary, `[String: Any]`. */
  type Object = map<string, Json>

  /** `d[key] as? Int`: present only when the entry exists and is an integer. */
  function IntAt(d: Object, key: string): (r: Option<int>)
    ensures r.Some? <==> key in d && d[key].JInt?
    ensures r.Some? ==> d[key] == JInt(r.value)
  {
    if key in d && d[key].JInt? then Some(d[key].i) else None
  }

  /** `d[key] as? String`. */
  function StringAt(d: Object, key: string): (r: Option<string>)
    ensures r.Some? <==> key in d && d[key].JString?
    ensures r.Some? ==> d[key] == JString(r.value)
  {
    if key in d && d[key].JString? then Some(d[key].s) else None
  }

  /** `d[key] as? Bool`. */
  function BoolAt(d: Object, key: string): (r: Option<bool>)
    ensures r.Some? <==> key in d && d[key].JBool?
    ensures r.Some? ==> d[key] == JBool(r.value)
  {
    if key in d && d[key].JBool? then Some(d[key].b) else None
  }

  /** `d[key] as? [String: Any]`. */
  function ObjectAt(d: Object, key: string): (r: Option<Object>)
    ensures r.Some? <==> key in d && d[key].JObject?
    ensures r.Some? ==> d[key] == JObject(r.value)
  {
    if key in d && d[key].JObject? then Some(d[key].fields) else None
  }

  /** `d[key]`, with a missing key read as absent (an `NSNull` entry is kept). */
  function EntryAt(d: Object, key: string): (r: Option<Json>)
    ensures r.Some? <==> key in d
    ensures r.Some? ==> d[key] == r.value
  {
    if key in d then Some(d[key]) else None
  }

  /** Every typed read of a key sees only that key's entry. */
  lemma ReadsAgree(a: Object, b: Object, key: string)
    requires key in a && key in b && a[key] == b[key]
    ensures StringAt(a, key) == StringAt(b, key) && IntAt(a, key) == IntAt(b, key)
    ensures BoolAt(a, key) == BoolAt(b, key) && ObjectAt(a, key) == ObjectAt(b, key)
    ensures EntryAt(a, key) == EntryAt(b, key)
  {
  }

  /** `x ?? NSNull()`: an absent optional is written as the null marker. */
  function OrNull(x: Option<Json>): (r: Json)
    ensures x.Some? ==> r == x.value
    ensures x.None? ==> r == JNull
  {
    x.GetOr(JNull)
  }

  /** `Optional<Int>` written as a dictionary entry. */
  function IntOrNull(x: Option<int>): (j: Json)
    ensures j == JNull <==> x.None?
    ensures x.Some? ==> j == JInt(x.value)
  {
    if x.Some? then JInt(x.value) else JNull
  }

  /** Two maps with the same keys and the same entry at each key are equal. */
  lemma MapsEqual<K, V>(a: map<K, V>, b: map<K, V>)
    requires a.Keys == b.Keys
    requires forall k | k in a :: a[k] == b[k]
    ensures a == b
  {
  }
}
