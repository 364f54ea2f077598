/** JSON values as held in memory after `JSON.parse`, and the dotted-path
    lookup that the service delegates to radash's `get`. */
module Json {
  import opened Assoc
  import Text

  /** A JSON value; an object is an ordered list of members. */
  datatype Json =
    | Null
    | Bool(b: bool)
    | Num(n: real)
    | Str(s: string)
    | Arr(items: seq<Json>)
    | Obj(members: seq<(string, Json)>)

  /** One step of a path walk: the member `key` of an object; any other
      value has no members. */
  function Member(v: Json, key: string): Option<Json> {
    if v.Obj? then Lookup(v.members, key) else None
  }

  /** Walks the segments one member at a time; the first missing member or
      non-object stops the walk with None (JavaScript's `undefined`). */
  function ResolveSegments(v: Json, segs: seq<string>): Option<Json> {
    if |segs| == 0 then Some(v)
    else
      match Member(v, segs[0])
      case None => None
      case Some(w) => ResolveSegments(w, segs[1..])
  }

  /** `get(v, path)`: the path is split on '.' and walked segment by segment. */
  function Resolve(v: Json, path: string): (r: Option<Json>)
    ensures !v.Obj? ==> r.None?
  {
    ResolveSegments(v, Text.Split(path, '.'))
  }

  /** A walk of two segments is two member steps. */
  lemma ResolveTwo(v: Json, a: string, b: string)
    ensures ResolveSegments(v, [a, b]) ==
      match Member(v, a)
      case None => None
      case Some(w) => Member(w, b)
  {
    assert [a, b][1..] == [b];
    match Member(v, a)
    case None =>
    case Some(w) =>
      assert ResolveSegments(w, [b]) == match Member(w, b)
        case None => None
        case Some(x) => ResolveSegments(x, []);
  }

  /** A path without a dot names one member of the value. */
  lemma ResolveKey(v: Json, key: string)
    requires '.' !in key
    ensures Resolve(v, key) == Member(v, key)
  {
    Text.SplitJoin([key], '.');
    assert Text.Split(key, '.') == [key];
    assert ResolveSegments(v, [key]) == match Member(v, key)
      case None => None
      case Some(w) => ResolveSegments(w, []);
  }

  /** A dotted path first takes the member named by its head segment, then
      resolves the remaining path inside that member. */
  lemma ResolveDotted(v: Json, head: string, rest: string)
    requires '.' !in head
    ensures Resolve(v, head + "." + rest) ==
      match Member(v, head)
      case None => None
      case Some(w) => Resolve(w, rest)
  {
    var parts := Text.Split(rest, '.');
    var all := [head] + parts;
    assert all[1..] == parts;
    assert Text.Join(all, '.') == head + "." + rest;
    Text.SplitJoin(all, '.');
  }
}
