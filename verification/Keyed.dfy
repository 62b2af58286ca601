/** String-keyed maps filled and drained in loops: Go's map[string]T and the
    browser's Map. Later writes win. */
module Keyed {

  /** m after writing every element of xs, in order, under its own key. */
  function PutAll<V>(m: map<string, V>, xs: seq<V>, key: V -> string): map<string, V>
    decreases |xs|
  {
    if xs == [] then m
    else
      var last := xs[|xs| - 1];
      PutAll(m, xs[..|xs| - 1], key)[key(last) := last]
  }

  /** Position i holds the last element of xs whose key is k. */
  ghost predicate LastWrite<V>(xs: seq<V>, key: V -> string, k: string, i: nat) {
    i < |xs| && key(xs[i]) == k && forall j :: i < j < |xs| ==> key(xs[j]) != k
  }

  ghost predicate Written<V>(xs: seq<V>, key: V -> string, k: string) {
    exists i :: 0 <= i < |xs| && key(xs[i]) == k
  }

  lemma {:induction false} PutAllLookup<V>(m: map<string, V>, xs: seq<V>, key: V -> string, k: string)
    ensures k in PutAll(m, xs, key) <==> k in m || Written(xs, key, k)
    ensures forall i: nat :: LastWrite(xs, key, k, i) ==> k in PutAll(m, xs, key) && PutAll(m, xs, key)[k] == xs[i]
    ensures k in m && !Written(xs, key, k) ==> PutAll(m, xs, key)[k] == m[k]
    decreases |xs|
  {
    if xs != [] {
      var init, last := xs[..|xs| - 1], xs[|xs| - 1];
      PutAllLookup(m, init, key, k);
      assert xs[|xs| - 1] == last;
      forall i: nat | LastWrite(xs, key, k, i)
        ensures k in PutAll(m, xs, key) && PutAll(m, xs, key)[k] == xs[i]
      {
        if i < |xs| - 1 {
          assert LastWrite(init, key, k, i);
        }
      }
      if Written(init, key, k) {
        var i :| 0 <= i < |init| && key(init[i]) == k;
        assert key(xs[i]) == k;
      }
    }
  }

  /** xs lists each key of `keys` once, with the value `index` has for it. */
  ghost predicate Lists<V>(xs: seq<V>, key: V -> string, keys: set<string>, index: map<string, V>) {
    && (forall i, j :: 0 <= i < j < |xs| ==> key(xs[i]) != key(xs[j]))
    && (forall i :: 0 <= i < |xs| ==> key(xs[i]) in keys && key(xs[i]) in index && xs[i] == index[key(xs[i])])
    && (forall k :: k in keys ==> Written(xs, key, k))
  }

  /** Writing such a listing overrides exactly the listed keys. */
  lemma PutAllListed<V>(m: map<string, V>, xs: seq<V>, key: V -> string, keys: set<string>, index: map<string, V>)
    requires Lists(xs, key, keys, index)
    ensures PutAll(m, xs, key).Keys == m.Keys + keys
    ensures forall k :: k in keys ==> k in index && PutAll(m, xs, key)[k] == index[k]
    ensures forall k :: k in m && k !in keys ==> PutAll(m, xs, key)[k] == m[k]
  {
    forall k
      ensures k in PutAll(m, xs, key) <==> k in m || k in keys
      ensures k in keys ==> k in index && PutAll(m, xs, key)[k] == index[k]
      ensures k in m && k !in keys ==> PutAll(m, xs, key)[k] == m[k]
    {
      PutAllLookup(m, xs, key, k);
      if k in keys {
        var i :| 0 <= i < |xs| && key(xs[i]) == k;
        assert LastWrite(xs, key, k, i);
      }
    }
  }

  method SetEach<V>(m: map<string, V>, xs: seq<V>, key: V -> string) returns (r: map<string, V>)
    ensures r == PutAll(m, xs, key)
  {
    r := m;
    for i := 0 to |xs|
      invariant r == PutAll(m, xs[..i], key)
    {
      assert xs[..i + 1][..i] == xs[..i];
      r := r[key(xs[i]) := xs[i]];
    }
    assert xs[..|xs|] == xs;
  }

  method DeleteEach<V>(m: map<string, V>, ids: seq<string>) returns (r: map<string, V>)
    ensures r == m - (set id | id in ids)
  {
    r := m;
    for i := 0 to |ids|
      invariant r == m - (set id | id in ids[..i])
    {
      r := r - {ids[i]};
    }
    assert ids[..|ids|] == ids;
  }
}
