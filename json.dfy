/**
 * Decoded JSON, as both handlers receive it from their JSON library. The
 * library's own number representation is the type parameter `N`; objects are
 * maps because both libraries keep one member per name.
 */
module JsonModel {
  import opened Wrappers

  datatype Json<N> =
    | Null
    | Bool(b: bool)
    | Number(n: N)
    | Str(s: string)
    | Array(items: seq<Json<N>>)
    | Object(members: map<string, Json<N>>)

  /**
   * The member `name` of an object: serde_json's `Value::get(name)`, which
   * is `None` for a missing member and for every value that is not an
   * object. Python's `data[name]` raises in exactly the `None` cases.
   */
  function Member<N>(j: Json<N>, name: string): (r: Option<Json<N>>)
    ensures r.Some? <==> j.Object? && name in j.members
    ensures r.Some? ==> r.value == j.members[name]
  {
    match j
    case Object(m) => if name in m then Some(m[name]) else None
    case _ => None
  }
}
