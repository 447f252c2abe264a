/** JSON values (the shapes of RFC 8259, section 3) and the small part of
    JavaScript's value semantics the chat hook relies on: property access,
    nullish coalescing (`??`), truthiness (`!x`, `x || y`) and `Object.keys`. */
module Json {
  import opened Wrappers

  /** A decoded JSON value. Object members are keyed by name, and
      `JSON.parse` keeps the last of duplicated names. The order of the
      members is not kept: two objects with the same members in a different
      order are the same value here. */
  datatype Json =
    | JNull
    | JBool(b: bool)
    | JNumber(n: real)
    | JString(s: string)
    | JArray(items: seq<Json>)
    | JObject(fields: map<string, Json>)

  /** The empty object `{}`. */
  const EmptyObject: Json := JObject(map[])

  /** Reading the property `key` of a receiver that is not `null`: the
      member of an object, and `undefined` (here `None`) for every other
      receiver, since none of the names the hook reads is a property of
      strings, numbers, booleans or arrays. A `null` receiver throws in
      JavaScript; callers test for it first. */
  function Get(v: Json, key: string): (r: Option<Json>)
    ensures r.Some? <==> v.JObject? && key in v.fields
    ensures r.Some? ==> r.value == v.fields[key]
  {
    match v
    case JObject(m) => if key in m then Some(m[key]) else None
    case _ => None
  }

  /** True of `undefined` and `null`: the values `??` and `?.` skip. */
  predicate Nullish(o: Option<Json>) {
    o.None? || o.value.JNull?
  }

  /** Nullish coalescing: `a` unless it is missing or `null`, then `b`. */
  function Coalesce(a: Option<Json>, b: Json): (r: Json)
    ensures !Nullish(a) ==> r == a.value
    ensures Nullish(a) ==> r == b
  {
    if Nullish(a) then b else a.value
  }

  /** JavaScript truthiness of a JSON value: `null`, `false`, `0` and `""`
      are falsy; every array and object, even an empty one, is truthy. */
  predicate Truthy(v: Json) {
    match v
    case JNull => false
    case JBool(b) => b
    case JNumber(n) => n != 0.0
    case JString(s) => s != ""
    case JArray(_) => true
    case JObject(_) => true
  }

  /** The number of own enumerable keys of a receiver that is not `null`: the members
      of an object, the indices of an array, the character positions of a
      string, and none for a number or boolean. */
  function KeyCount(v: Json): (n: nat)
    ensures v.JObject? ==> n == |v.fields|
    ensures v.JArray? ==> n == |v.items|
    ensures v.JString? ==> n == |v.s|
    ensures v.JNull? || v.JBool? || v.JNumber? ==> n == 0
  {
    match v
    case JObject(m) => |m|
    case JArray(xs) => |xs|
    case JString(s) => |s|
    case _ => 0
  }

  /** The JSON library the hook calls, as an oracle: `parse` is
      `JSON.parse` (`None` when it throws a SyntaxError), `stringify` is
      `JSON.stringify(v)` and `pretty` is `JSON.stringify(v, null, 2)`. Their
      exact text formats are not modelled. */
  datatype Codec = Codec(
    parse: string -> Option<Json>,
    stringify: Json -> string,
    pretty: Json -> string)
}
