/** JavaScript objects as ordered association lists: a list of
    (key, value) entries in insertion order. A JS object keeps that order
    for keys that are not array indices; keys such as "0" or "840" are
    listed first, in numeric order, which this model does not capture. */
module Assoc {

  datatype Option<+T> = None | Some(value: T)

  /** The value of the first entry with key k, if any. */
  function Lookup<T>(m: seq<(string, T)>, k: string): (r: Option<T>)
    ensures r.Some? <==> k in KeySet(m)
    ensures r.Some? ==> (k, r.value) in m
  {
    if |m| == 0 then None
    else if m[0].0 == k then Some(m[0].1)
    else
      assert KeySet(m) == {m[0].0} + KeySet(m[1..]);
      Lookup(m[1..], k)
  }

  ghost function KeySet<T>(m: seq<(string, T)>): set<string> {
    set e | e in m :: e.0
  }

  /** `Object.values(m)`: the values in entry order. */
  function Values<T>(m: seq<(string, T)>): (r: seq<T>)
    ensures |r| == |m|
    ensures forall i :: 0 <= i < |m| ==> m[i].1 in r
    ensures forall j :: 0 <= j < |r| ==> exists i :: 0 <= i < |m| && m[i].1 == r[j]
  {
    var r := seq(|m|, i requires 0 <= i < |m| => m[i].1);
    assert forall i :: 0 <= i < |m| ==> r[i] == m[i].1;
    r
  }

  /** The keys in entry order. */
  function Keys<T>(m: seq<(string, T)>): seq<string> {
    seq(|m|, i requires 0 <= i < |m| => m[i].0)
  }

  /** No key appears in two entries, as in a JS object. */
  ghost predicate DistinctKeys<T>(m: seq<(string, T)>) {
    forall i, j :: 0 <= i < j < |m| ==> m[i].0 != m[j].0
  }

  /** Property assignment `o[k] = v`: an existing key keeps its place and
      takes the new value; a new key goes at the end. */
  function Put<T>(m: seq<(string, T)>, k: string, v: T): seq<(string, T)> {
    if |m| == 0 then [(k, v)]
    else if m[0].0 == k then [(k, v)] + m[1..]
    else [m[0]] + Put(m[1..], k, v)
  }

  /** After `o[k] = v` an existing key keeps its place and a new key comes
      last. */
  lemma {:induction false} PutOrder<T>(m: seq<(string, T)>, k: string, v: T)
    ensures Keys(Put(m, k, v)) == if k in KeySet(m) then Keys(m) else Keys(m) + [k]
  {
    if |m| > 0 {
      assert m == [m[0]] + m[1..];
      KeysCons(m[0], m[1..]);
      ConsKeys(m[0], m[1..]);
      if m[0].0 == k {
        KeysCons((k, v), m[1..]);
      } else {
        PutOrder(m[1..], k, v);
        KeysCons(m[0], Put(m[1..], k, v));
      }
    }
  }

  lemma KeysCons<T>(x: (string, T), m: seq<(string, T)>)
    ensures Keys([x] + m) == [x.0] + Keys(m)
  {
  }

  /** After `o[k] = v`, k holds v and every other key holds what it held. */
  lemma {:induction false} PutLookup<T>(m: seq<(string, T)>, k: string, v: T, j: string)
    ensures Lookup(Put(m, k, v), j) == if j == k then Some(v) else Lookup(m, j)
  {
    if |m| > 0 && m[0].0 != k {
      var r := Put(m, k, v);
      assert r[1..] == Put(m[1..], k, v);
      PutLookup(m[1..], k, v, j);
    }
  }

  /** `o[k] = v` adds k to the keys and keeps keys distinct. */
  lemma {:induction false} PutKeys<T>(m: seq<(string, T)>, k: string, v: T)
    ensures KeySet(Put(m, k, v)) == KeySet(m) + {k}
    ensures DistinctKeys(m) ==> DistinctKeys(Put(m, k, v))
  {
    if |m| > 0 {
      ConsKeys(m[0], m[1..]);
      assert m == [m[0]] + m[1..];
      if m[0].0 == k {
        ConsKeys((k, v), m[1..]);
      } else {
        PutKeys(m[1..], k, v);
        ConsKeys(m[0], Put(m[1..], k, v));
      }
    }
  }

  /** Assigning a key the object does not have appends it. */
  lemma {:induction false} PutNew<T>(m: seq<(string, T)>, k: string, v: T)
    requires k !in KeySet(m)
    ensures Put(m, k, v) == m + [(k, v)]
  {
    if |m| > 0 {
      ConsKeys(m[0], m[1..]);
      PutNew(m[1..], k, v);
      assert m == [m[0]] + m[1..];
    }
  }

  /** Key facts about an entry placed in front of a list. */
  lemma ConsKeys<T>(x: (string, T), m: seq<(string, T)>)
    ensures KeySet([x] + m) == {x.0} + KeySet(m)
    ensures DistinctKeys([x] + m) <==> x.0 !in KeySet(m) && DistinctKeys(m)
  {
    var xm := [x] + m;
    assert forall i :: 0 <= i < |m| ==> xm[i + 1] == m[i];
    if x.0 in KeySet(m) {
      var e :| e in m && e.0 == x.0;
      var i :| 0 <= i < |m| && m[i] == e;
      assert xm[i + 1].0 == xm[0].0;
    }
    if DistinctKeys(m) && x.0 !in KeySet(m) {
      ConsDistinct(x, m);
    }
  }

  lemma ConsDistinct<T>(x: (string, T), m: seq<(string, T)>)
    requires DistinctKeys(m) && x.0 !in KeySet(m)
    ensures DistinctKeys([x] + m)
  {
    var xm := [x] + m;
    forall i, j | 0 <= i < j < |xm| ensures xm[i].0 != xm[j].0 {
      assert xm[j] == m[j - 1];
      if i > 0 {
        assert xm[i] == m[i - 1];
      }
    }
  }

  /** Key facts about an entry placed at the end of a list. */
  lemma SnocKeys<T>(m: seq<(string, T)>, x: (string, T))
    ensures KeySet(m + [x]) == KeySet(m) + {x.0}
    ensures DistinctKeys(m + [x]) <==> DistinctKeys(m) && x.0 !in KeySet(m)
  {
    var mx := m + [x];
    assert forall i :: 0 <= i < |m| ==> mx[i] == m[i];
    if x.0 in KeySet(m) {
      var e :| e in m && e.0 == x.0;
      var i :| 0 <= i < |m| && m[i] == e;
      assert mx[i].0 == mx[|m|].0;
    }
  }

  /** Reference definition: the value of the LAST entry with key k. */
  function LastFor<T>(e: seq<(string, T)>, k: string): Option<T> {
    if |e| == 0 then None
    else if e[|e| - 1].0 == k then Some(e[|e| - 1].1)
    else LastFor(e[..|e| - 1], k)
  }

  /** `Object.fromEntries(e)`: entries are assigned one after another, so
      the result has distinct keys, exactly the keys of `e`, each with the
      value of its last entry; entries with no repeated key come back
      unchanged and in order. */
  function FromEntries<T>(e: seq<(string, T)>): (r: seq<(string, T)>)
    ensures DistinctKeys(r)
    ensures KeySet(r) == KeySet(e)
    ensures forall k :: Lookup(r, k) == LastFor(e, k)
    ensures DistinctKeys(e) ==> r == e
  {
    if |e| == 0 then []
    else
      var init := e[..|e| - 1];
      var last := e[|e| - 1];
      var prior := FromEntries(init);
      assert e == init + [last];
      SnocKeys(init, last);
      PutKeys(prior, last.0, last.1);
      assert forall k :: Lookup(Put(prior, last.0, last.1), k) == LastFor(e, k) by {
        forall k ensures Lookup(Put(prior, last.0, last.1), k) == LastFor(e, k) {
          PutLookup(prior, last.0, last.1, k);
        }
      }
      assert DistinctKeys(e) ==> Put(prior, last.0, last.1) == e by {
        if DistinctKeys(e) {
          PutNew(prior, last.0, last.1);
        }
      }
      Put(prior, last.0, last.1)
  }

  /** Reference definition: the distinct keys of e in the order of their
      first entry. */
  ghost function FirstKeys<T>(e: seq<(string, T)>): seq<string> {
    if |e| == 0 then []
    else
      var init := e[..|e| - 1];
      FirstKeys(init) + (if e[|e| - 1].0 in KeySet(init) then [] else [e[|e| - 1].0])
  }

  /** A repeated key stays where its first entry put it (taking the value
      of its last entry, as FromEntries states); new keys follow in order. */
  lemma {:induction false} FromEntriesOrder<T>(e: seq<(string, T)>)
    ensures Keys(FromEntries(e)) == FirstKeys(e)
  {
    if |e| > 0 {
      var init := e[..|e| - 1];
      FromEntriesOrder(init);
      PutOrder(FromEntries(init), e[|e| - 1].0, e[|e| - 1].1);
    }
  }

  /** Looking a key up in a concatenation looks in the first part first. */
  lemma {:induction false} LookupAppend<T>(a: seq<(string, T)>, b: seq<(string, T)>, k: string)
    ensures Lookup(a + b, k) == if k in KeySet(a) then Lookup(a, k) else Lookup(b, k)
  {
    if |a| > 0 {
      assert (a + b)[1..] == a[1..] + b;
      assert KeySet(a) == {a[0].0} + KeySet(a[1..]);
      if a[0].0 != k {
        LookupAppend(a[1..], b, k);
      }
    } else {
      assert a + b == b;
    }
  }
}
