/** JSON values as the translator receives them. Objects keep their entries
    in insertion order, as a sequence of members. */
module Json {

  datatype Json =
    | JNull
    | JBool(b: bool)
    | JNumber(n: int)
    | JString(s: string)
    | JArray(items: seq<Json>)
    | JObject(entries: seq<Member>)

  datatype Member = Member(key: string, value: Json)

  /** Strings, numbers and booleans: the values the primitive production takes. */
  predicate IsPrimitive(j: Json) {
    j.JString? || j.JNumber? || j.JBool?
  }

  /** JavaScript truthiness of a JSON value (`x && …`). */
  predicate Truthy(j: Json) {
    match j
    case JNull => false
    case JBool(b) => b
    case JNumber(n) => n != 0
    case JString(s) => s != ""
    case _ => true
  }

  /** Size measure, used for termination of the mutually recursive productions. */
  function Size(j: Json): nat
  {
    match j
    case JArray(items) => 1 + SizeItems(items)
    case JObject(es) => 1 + SizeEntries(es)
    case _ => 1
  }

  function SizeItems(items: seq<Json>): nat
  {
    if items == [] then 0 else 1 + Size(items[0]) + SizeItems(items[1..])
  }

  function SizeEntries(es: seq<Member>): nat
  {
    if es == [] then 0 else 1 + Size(es[0].value) + SizeEntries(es[1..])
  }

  /** The keys of an object's entries, in order. */
  function Keys(es: seq<Member>): (ks: seq<string>)
    ensures |ks| == |es|
    ensures forall i :: 0 <= i < |es| ==> ks[i] == es[i].key
  {
    if es == [] then [] else [es[0].key] + Keys(es[1..])
  }

  predicate HasKey(j: Json, k: string) {
    j.JObject? && exists i :: 0 <= i < |j.entries| && j.entries[i].key == k
  }

  /** The value of the first entry with key `k`, if any (JavaScript's `element[k]`). */
  function FindIn(es: seq<Member>, k: string): (r: Option<Json>)
    ensures r.Some? <==> exists i :: 0 <= i < |es| && es[i].key == k
    ensures r.Some? ==> exists i :: 0 <= i < |es| && es[i].key == k && es[i].value == r.value
    ensures r.Some? ==> Size(r.value) + 1 <= SizeEntries(es)
  {
    if es == [] then None
    else if es[0].key == k then Some(es[0].value)
    else FindIn(es[1..], k)
  }

  function Find(j: Json, k: string): (r: Option<Json>)
    ensures r.Some? <==> HasKey(j, k)
    ensures r.Some? ==> Size(r.value) + 1 < Size(j)
  {
    if j.JObject? then FindIn(j.entries, k) else None
  }

  /** `element[k]` for a key known to be present. */
  function Lookup(j: Json, k: string): (v: Json)
    requires HasKey(j, k)
    ensures Size(v) + 1 < Size(j)
    ensures exists i :: 0 <= i < |j.entries| && j.entries[i].key == k && j.entries[i].value == v
  {
    Find(j, k).value
  }

  datatype Option<+T> = None | Some(value: T)
}
