/** Python's insertion-ordered `dict` with string keys, as a sequence of
    key/value pairs without repeated keys, and the `|` union the data
    pipeline uses to merge covariate groups and representation keys
    (data.py:486-487). */
module Dicts {
  import opened Wrappers
  import opened Tables

  type Dict<V> = seq<(string, V)>

  function Keys<V>(d: Dict<V>): (ks: seq<string>)
    ensures |ks| == |d| && forall i :: 0 <= i < |d| ==> ks[i] == d[i].0
  {
    seq(|d|, i requires 0 <= i < |d| => d[i].0)
  }

  ghost predicate DistinctKeys<V>(d: Dict<V>) {
    forall i, j :: 0 <= i < j < |d| ==> d[i].0 != d[j].0
  }

  function Lookup<V>(d: Dict<V>, k: string): (r: Option<V>)
    ensures r.None? <==> k !in Keys(d)
  {
    if k in Keys(d) then Some(d[FirstIndex(Keys(d), k)].1) else None
  }

  /** `d[k] = v`: overwrite in place when `k` is present, append otherwise. */
  function Put<V>(d: Dict<V>, k: string, v: V): (r: Dict<V>)
    requires DistinctKeys(d)
    ensures DistinctKeys(r)
    ensures k in Keys(d) ==> Keys(r) == Keys(d)
    ensures k !in Keys(d) ==> Keys(r) == Keys(d) + [k]
  {
    if k in Keys(d) then
      var i := FirstIndex(Keys(d), k);
      assert Keys(d[i := (k, v)]) == Keys(d);
      d[i := (k, v)]
    else
      assert Keys(d + [(k, v)]) == Keys(d) + [k];
      d + [(k, v)]
  }

  /** A key not yet present is appended after the existing entries. */
  lemma PutNew<V>(d: Dict<V>, k: string, v: V)
    requires DistinctKeys(d) && k !in Keys(d)
    ensures Put(d, k, v) == d + [(k, v)]
  {
  }

  lemma PutLookup<V>(d: Dict<V>, k: string, v: V, k': string)
    requires DistinctKeys(d)
    ensures Lookup(Put(d, k, v), k') == if k' == k then Some(v) else Lookup(d, k')
  {
    var r := Put(d, k, v);
    if k' in Keys(r) {
      var j := FirstIndex(Keys(r), k');
      if k in Keys(d) {
        var i := FirstIndex(Keys(d), k);
        assert Keys(r) == Keys(d);
        if k' != k {
          assert j != i;
        }
      }
    }
  }

  /** `d | e`: the entries of `e` written into `d` one by one, in `e`'s order. */
  function Union<V>(d: Dict<V>, e: Dict<V>): (r: Dict<V>)
    requires DistinctKeys(d)
    ensures DistinctKeys(r)
    decreases |e|
  {
    if e == [] then d else Union(Put(d, e[0].0, e[0].1), e[1..])
  }

  /** The value of the last entry for `k` (Python keeps the last assignment). */
  function LastValue<V>(e: Dict<V>, k: string): (r: Option<V>)
    ensures r.None? <==> k !in Keys(e)
  {
    if e == [] then None
    else if k in Keys(e[1..]) then LastValue(e[1..], k)
    else if e[0].0 == k then Some(e[0].1)
    else None
  }

  /** With distinct keys, the value found for an entry's key is that entry's. */
  lemma LookupAt<V>(d: Dict<V>, i: nat)
    requires DistinctKeys(d) && i < |d|
    ensures Lookup(d, d[i].0) == Some(d[i].1)
  {
    assert Keys(d)[i] == d[i].0;
    var j := FirstIndex(Keys(d), d[i].0);
    assert d[j].0 == d[i].0;
  }

  /** Without repeated keys, the last assignment to a key is the only one. */
  lemma {:induction false} LastValueDistinct<V>(e: Dict<V>, k: string)
    requires DistinctKeys(e)
    ensures LastValue(e, k) == Lookup(e, k)
    decreases |e|
  {
    if e != [] {
      var tail := e[1..];
      assert DistinctKeys(tail) by {
        forall i, j | 0 <= i < j < |tail| ensures tail[i].0 != tail[j].0 {
          assert tail[i] == e[i + 1] && tail[j] == e[j + 1];
        }
      }
      if k in Keys(tail) {
        LastValueDistinct(tail, k);
        var j := FirstIndex(Keys(tail), k);
        LookupAt(tail, j);
        assert tail[j] == e[j + 1];
        LookupAt(e, j + 1);
      } else if e[0].0 == k {
        LookupAt(e, 0);
      } else {
        assert Keys(e) == [e[0].0] + Keys(tail);
      }
    }
  }

  /** In `d | e` a key's value is the last one `e` gives it, or else `d`'s; the
      keys are `d`'s in place followed by `e`'s new ones. */
  lemma {:induction false} UnionLookup<V>(d: Dict<V>, e: Dict<V>, k: string)
    requires DistinctKeys(d)
    ensures k in Keys(Union(d, e)) <==> k in Keys(d) || k in Keys(e)
    ensures Lookup(Union(d, e), k) == (if k in Keys(e) then LastValue(e, k) else Lookup(d, k))
    ensures |Union(d, e)| >= |d| && Keys(Union(d, e))[..|d|] == Keys(d)
    decreases |e|
  {
    if e != [] {
      var d' := Put(d, e[0].0, e[0].1);
      UnionLookup(d', e[1..], k);
      PutLookup(d, e[0].0, e[0].1, k);
      assert Keys(e) == [e[0].0] + Keys(e[1..]);
      var u := Union(d', e[1..]);
      assert Keys(u)[..|d|] == Keys(u)[..|d'|][..|d|];
    }
  }
}
