/** The field projector `filterFields`: trims a record, or each record of
    a list, to the comma-separated field paths the caller asked for. The
    projected record is flat: its keys are the path strings themselves
    (`"name.common"`), not nested objects. */
module Projection {
  import opened Assoc
  import opened Json
  import opened Selection
  import Text

  /** The (path, value) pairs of the paths that resolve, in the order the
      paths are listed; a path that resolves to nothing (`undefined`) is
      dropped, while one that resolves to `null` is kept. */
  function DefinedEntries(v: Json, fields: seq<string>): (e: seq<(string, Json)>)
    ensures forall i :: 0 <= i < |e| ==> e[i].0 in fields && Resolve(v, e[i].0) == Some(e[i].1)
    ensures KeySet(e) == set f | f in fields && Resolve(v, f).Some?
  {
    if |fields| == 0 then []
    else
      var init := fields[..|fields| - 1];
      var f := fields[|fields| - 1];
      var prior := DefinedEntries(v, init);
      assert fields == init + [f];
      match Resolve(v, f)
      case None => prior
      case Some(x) =>
        SnocKeys(prior, (f, x));
        prior + [(f, x)]
  }

  /** The entries come one per resolving path, in the order the paths are
      listed (`map` keeps the order and `filter` keeps the survivors' order). */
  lemma {:induction false} DefinedEntriesOrder(v: Json, fields: seq<string>)
    ensures |DefinedEntries(v, fields)| == |Filter(fields, f => Resolve(v, f).Some?)|
    ensures forall j :: 0 <= j < |DefinedEntries(v, fields)| ==>
      DefinedEntries(v, fields)[j].0 == Filter(fields, f => Resolve(v, f).Some?)[j]
  {
    if |fields| > 0 {
      DefinedEntriesOrder(v, fields[..|fields| - 1]);
    }
  }

  /** One record trimmed to the listed paths, as
      `Object.fromEntries(fields.map(f => [f, get(v, f)]).filter(...))`. */
  function ProjectRecord(v: Json, fields: seq<string>): (r: Json)
    ensures r.Obj? && DistinctKeys(r.members)
    ensures KeySet(r.members) == set f | f in fields && Resolve(v, f).Some?
  {
    Obj(FromEntries(DefinedEntries(v, fields)))
  }

  /** The list of paths in a non-empty `fields` parameter. */
  function FieldList(fields: string): seq<string> {
    Text.Split(fields, ',')
  }

  /** `filterFields(data, fields)`: no (or an empty) field list returns the
      data untouched; otherwise a list is projected element by element and
      anything else is projected as one record. */
  function FilterFields(data: Json, fields: Option<string>): (r: Json)
    ensures fields.None? || fields.value == "" ==> r == data
    ensures fields.Some? && fields.value != "" && data.Arr? ==>
      r.Arr? && |r.items| == |data.items| &&
      forall i :: 0 <= i < |data.items| ==> r.items[i] == ProjectRecord(data.items[i], FieldList(fields.value))
    ensures fields.Some? && fields.value != "" && !data.Arr? ==>
      r == ProjectRecord(data, FieldList(fields.value))
  {
    if fields.None? || fields.value == "" then data
    else
      var fl := FieldList(fields.value);
      if data.Arr? then
        Arr(seq(|data.items|, i requires 0 <= i < |data.items| => ProjectRecord(data.items[i], fl)))
      else
        ProjectRecord(data, fl)
  }

  /** Reference for the last entry of a path: the entries keep, for each
      listed path, exactly its resolved value. */
  lemma {:induction false} LastForDefined(v: Json, fields: seq<string>, k: string)
    ensures LastFor(DefinedEntries(v, fields), k) == if k in fields then Resolve(v, k) else None
  {
    if |fields| > 0 {
      var init := fields[..|fields| - 1];
      var f := fields[|fields| - 1];
      assert fields == init + [f];
      LastForDefined(v, init, k);
      var prior := DefinedEntries(v, init);
      match Resolve(v, f)
      case None =>
      case Some(x) =>
        assert (prior + [(f, x)])[..|prior|] == prior;
    }
  }

  /** The projected record maps a key to a value exactly when the key is one
      of the requested paths and that path resolves; the value is the one
      the path resolves to (so `null` is kept and unknown paths vanish). */
  lemma ProjectRecordLookup(v: Json, fields: seq<string>, k: string)
    ensures Lookup(ProjectRecord(v, fields).members, k) == if k in fields then Resolve(v, k) else None
  {
    LastForDefined(v, fields, k);
  }

  /** With no path listed twice, the projected record holds the resolving
      paths in the order they were listed. */
  lemma {:induction false} ProjectRecordInOrder(v: Json, fields: seq<string>)
    requires forall i, j :: 0 <= i < j < |fields| ==> fields[i] != fields[j]
    ensures ProjectRecord(v, fields).members == DefinedEntries(v, fields)
  {
    DefinedEntriesDistinct(v, fields);
  }

  lemma {:induction false} DefinedEntriesDistinct(v: Json, fields: seq<string>)
    requires forall i, j :: 0 <= i < j < |fields| ==> fields[i] != fields[j]
    ensures DistinctKeys(DefinedEntries(v, fields))
  {
    if |fields| > 0 {
      var init := fields[..|fields| - 1];
      var f := fields[|fields| - 1];
      assert fields == init + [f];
      DefinedEntriesDistinct(v, init);
      var prior := DefinedEntries(v, init);
      match Resolve(v, f)
      case None =>
      case Some(x) =>
        assert f !in init;
        SnocKeys(prior, (f, x));
    }
  }

  /** Two distinct paths that both resolve project to those two entries. */
  lemma ProjectTwo(v: Json, a: string, b: string, x: Json, y: Json)
    requires a != b && Resolve(v, a) == Some(x) && Resolve(v, b) == Some(y)
    ensures ProjectRecord(v, [a, b]) == Obj([(a, x), (b, y)])
  {
    ProjectRecordInOrder(v, [a, b]);
    assert [a, b][..1] == [a];
    assert [a][..0] == [];
  }

  /** Nothing resolves inside the empty object, so it projects to itself. */
  lemma ProjectEmpty(fields: seq<string>)
    ensures ProjectRecord(Obj([]), fields) == Obj([])
  {
    var e := DefinedEntries(Obj([]), fields);
    if |e| > 0 {
      var segs := Text.Split(e[0].0, '.');
      assert false;
    }
  }

  /** Filtering a list is filtering each of its records: same length, and
      element i of the result is element i of the input filtered alone. */
  lemma FilterFieldsElementwise(items: seq<Json>, fields: Option<string>, i: int)
    requires 0 <= i < |items| && !items[i].Arr?
    ensures FilterFields(Arr(items), fields).Arr?
    ensures |FilterFields(Arr(items), fields).items| == |items|
    ensures FilterFields(Arr(items), fields).items[i] == FilterFields(items[i], fields)
  {
  }
}
