/** Dividing a root's children over the two sides (internal/web/static/app.js,
    relayout), with the weights already known. */
module Sides {
  import opened Seqs
  import opened Order
  import opened Balance

  type Weighing = string -> nat

  function Total(ids: seq<string>, w: Weighing): nat {
    if ids == [] then 0 else Total(ids[..|ids| - 1], w) + w(ids[|ids| - 1])
  }

  lemma {:induction false} TotalConcat(a: seq<string>, b: seq<string>, w: Weighing)
    ensures Total(a + b, w) == Total(a, w) + Total(b, w)
    decreases |b|
  {
    if b == [] {
      assert a + b == a;
    } else {
      TotalConcat(a, b[..|b| - 1], w);
      assert (a + b)[..|a + b| - 1] == a + b[..|b| - 1];
    }
  }

  lemma TotalOne(id: string, w: Weighing)
    ensures Total([id], w) == w(id)
  {
    assert [id][..0] == [];
  }

  lemma {:induction false} TotalPermuted(xs: seq<string>, ys: seq<string>, w: Weighing)
    requires Permuted(xs, ys)
    ensures Total(xs, w) == Total(ys, w)
    decreases |xs|
  {
    if xs == [] {
      PermutedMembers(xs, ys);
    } else {
      var i := PermutedHead(xs, ys);
      TotalPermuted(xs[1..], ys[..i] + ys[i + 1..], w);
      TotalAround(ys, i, w);
      TotalAround(xs, 0, w);
      assert xs[..0] + xs[1..] == xs[1..];
    }
  }

  lemma TotalAround(xs: seq<string>, i: nat, w: Weighing)
    requires i < |xs|
    ensures Total(xs, w) == Total(xs[..i] + xs[i + 1..], w) + w(xs[i])
  {
    SplitAt(xs, i);
    TotalBetween(xs[..i], xs[i], xs[i + 1..], w);
  }

  lemma SplitAt(xs: seq<string>, i: nat)
    requires i < |xs|
    ensures xs == xs[..i] + ([xs[i]] + xs[i + 1..])
  {
  }

  lemma TotalBetween(a: seq<string>, x: string, b: seq<string>, w: Weighing)
    ensures Total(a + ([x] + b), w) == Total(a + b, w) + w(x)
  {
    TotalConcat(a, b, w);
    TotalConcat([x], b, w);
    TotalConcat(a, [x] + b, w);
    TotalOne(x, w);
  }

  /** Heavier first, then by name. */
  function HeavyFirst(w: Weighing, before: (string, string) -> bool): (string, string) -> bool {
    (a: string, b: string) => w(a) > w(b) || (w(a) == w(b) && before(a, b))
  }

  ghost predicate Falling(ids: seq<string>, w: Weighing) {
    forall i, j :: 0 <= i < j < |ids| ==> w(ids[i]) >= w(ids[j])
  }

  lemma {:induction false} InsertFalls(x: string, ids: seq<string>, w: Weighing, before: (string, string) -> bool)
    requires Falling(ids, w)
    ensures Falling(Insert(x, ids, HeavyFirst(w, before)), w)
  {
    var less := HeavyFirst(w, before);
    if ids != [] && less(ids[0], x) {
      InsertFalls(x, ids[1..], w, before);
      var r := Insert(x, ids[1..], less);
      InsertPermutes(x, ids[1..], less);
      forall j | 0 <= j < |r| ensures w(ids[0]) >= w(r[j]) {
        assert r[j] in multiset(r);
        if r[j] != x {
          assert r[j] in multiset(ids[1..]);
          var k := PositionIn(ids[1..], r[j]);
          assert ids[k + 1] == r[j];
        }
      }
    }
  }

  lemma {:induction false} SortFalls(ids: seq<string>, w: Weighing, before: (string, string) -> bool)
    ensures Falling(SortBy(ids, HeavyFirst(w, before)), w)
  {
    if ids != [] {
      SortFalls(ids[1..], w, before);
      InsertFalls(ids[0], SortBy(ids[1..], HeavyFirst(w, before)), w, before);
    }
  }

  function Not(p: string -> bool): string -> bool { (x: string) => !p(x) }

  lemma {:induction false} FilterPartitions(ids: seq<string>, p: string -> bool)
    ensures multiset(Filter(ids, p)) + multiset(Filter(ids, Not(p))) == multiset(ids)
  {
    if ids != [] {
      var init, last := ids[..|ids| - 1], ids[|ids| - 1];
      FilterPartitions(init, p);
      assert ids == init + [last];
      PushCounts(init, last);
      PushCounts(Filter(init, p), last);
      PushCounts(Filter(init, Not(p)), last);
      Regroup(multiset(Filter(init, p)), multiset(Filter(init, Not(p))), multiset{last});
      FilterOne(init, last, p);
      FilterOne(init, last, Not(p));
    }
  }

  lemma FilterOne(ids: seq<string>, last: string, p: string -> bool)
    ensures Filter(ids + [last], p) == if p(last) then Filter(ids, p) + [last] else Filter(ids, p)
  {
    assert (ids + [last])[..|ids|] == ids;
  }

  method TotalOf(ids: seq<string>, w: Weighing) returns (sum: nat)
    ensures sum == Total(ids, w)
  {
    sum := 0;
    for i := 0 to |ids|
      invariant sum == Total(ids[..i], w)
    {
      assert ids[..i + 1][..i] == ids[..i];
      sum := sum + w(ids[i]);
    }
    assert ids[..|ids|] == ids;
  }

  /** The sides once these are handed out: each to the side that is lighter at the
      moment, the left on a tie. */
  function Dealt(nodeKids: seq<string>, sorted: seq<string>, w: Weighing): (seq<string>, seq<string>) {
    if sorted == [] then (nodeKids, [])
    else
      var (l, r), k := Dealt(nodeKids, sorted[..|sorted| - 1], w), sorted[|sorted| - 1];
      if Total(l, w) <= Total(r, w) then (l + [k], r) else (l, r + [k])
  }

  /** Node children on the left, the others dealt out heaviest first. */
  function Split(kids: seq<string>, isNode: string -> bool, w: Weighing, before: (string, string) -> bool)
    : (seq<string>, seq<string>)
  {
    Dealt(Filter(kids, isNode), SortBy(Filter(kids, Not(isNode)), HeavyFirst(w, before)), w)
  }

  /** Everything handed out so far is on one side or the other. */
  predicate AllOut(left: seq<string>, right: seq<string>, nodeKids: seq<string>, handed: seq<string>) {
    multiset(left) + multiset(right) == multiset(nodeKids) + multiset(handed)
  }

  lemma AllOutStep(left: seq<string>, right: seq<string>, nodeKids: seq<string>, sorted: seq<string>, i: nat)
    requires i < |sorted| && AllOut(left, right, nodeKids, sorted[..i])
    ensures AllOut(left + [sorted[i]], right, nodeKids, sorted[..i + 1])
    ensures AllOut(left, right + [sorted[i]], nodeKids, sorted[..i + 1])
  {
    assert sorted[..i + 1] == sorted[..i] + [sorted[i]];
    PushCounts(left, sorted[i]);
    PushCounts(right, sorted[i]);
    PushCounts(sorted[..i], sorted[i]);
    Regroup(multiset(left), multiset(right), multiset{sorted[i]});
  }

  lemma Regroup(a: multiset<string>, b: multiset<string>, k: multiset<string>)
    ensures (a + k) + b == (a + b) + k && a + (b + k) == (a + b) + k
  {
  }

  /** The first n children are handed out, and the sides weigh this much. */
  ghost predicate Handed(nodeKids: seq<string>, sorted: seq<string>, w: Weighing, n: nat,
                         left: seq<string>, right: seq<string>, sides: Loads)
    requires n <= |sorted|
  {
    && sides == Greedy(Total(nodeKids, w), Map(sorted, w), n)
    && sides.left == Total(left, w) && sides.right == Total(right, w)
    && (left, right) == Dealt(nodeKids, sorted[..n], w)
    && AllOut(left, right, nodeKids, sorted[..n])
  }

  /** One more child goes to the left, or to the right. */
  lemma HandedLeft(nodeKids: seq<string>, sorted: seq<string>, w: Weighing, n: nat,
                   left: seq<string>, right: seq<string>, sides: Loads)
    requires n < |sorted| && Handed(nodeKids, sorted, w, n, left, right, sides) && sides.left <= sides.right
    ensures Handed(nodeKids, sorted, w, n + 1, left + [sorted[n]], right, Loads(sides.left + w(sorted[n]), sides.right))
  {
    AllOutStep(left, right, nodeKids, sorted, n);
    assert sorted[..n + 1][..n] == sorted[..n];
    TotalPush(left, sorted[n], w);
  }

  lemma HandedRight(nodeKids: seq<string>, sorted: seq<string>, w: Weighing, n: nat,
                    left: seq<string>, right: seq<string>, sides: Loads)
    requires n < |sorted| && Handed(nodeKids, sorted, w, n, left, right, sides) && sides.left > sides.right
    ensures Handed(nodeKids, sorted, w, n + 1, left, right + [sorted[n]], Loads(sides.left, sides.right + w(sorted[n])))
  {
    AllOutStep(left, right, nodeKids, sorted, n);
    assert sorted[..n + 1][..n] == sorted[..n];
    TotalPush(right, sorted[n], w);
  }

  /** Hands the children out in turn. */
  method HandOut(nodeKids: seq<string>, sorted: seq<string>, w: Weighing)
    returns (left: seq<string>, right: seq<string>)
    ensures (left, right) == Dealt(nodeKids, sorted, w)
    ensures AllOut(left, right, nodeKids, sorted)
    ensures Loads(Total(left, w), Total(right, w)) == Greedy(Total(nodeKids, w), Map(sorted, w), |sorted|)
  {
    left, right := nodeKids, [];
    var leftW: nat := TotalOf(nodeKids, w);
    var rightW: nat := 0;
    for i := 0 to |sorted|
      invariant Handed(nodeKids, sorted, w, i, left, right, Loads(leftW, rightW))
    {
      var k := sorted[i];
      if leftW <= rightW {
        HandedLeft(nodeKids, sorted, w, i, left, right, Loads(leftW, rightW));
        left, leftW := left + [k], leftW + w(k);
      } else {
        HandedRight(nodeKids, sorted, w, i, left, right, Loads(leftW, rightW));
        right, rightW := right + [k], rightW + w(k);
      }
    }
    assert sorted[..|sorted|] == sorted;
  }

  lemma PushCounts(ids: seq<string>, k: string)
    ensures multiset(ids + [k]) == multiset(ids) + multiset{k}
  {
  }

  lemma TotalPush(ids: seq<string>, k: string, w: Weighing)
    ensures Total(ids + [k], w) == Total(ids, w) + w(k)
  {
    assert (ids + [k])[..|ids|] == ids;
  }

  /** Node children anchor the left side; the others are handed out heaviest first. */
  method SplitSides(kids: seq<string>, isNode: string -> bool, w: Weighing, before: (string, string) -> bool)
    returns (left: seq<string>, right: seq<string>, ghost ws: seq<nat>)
    ensures (left, right) == Split(kids, isNode, w, before) && Permuted(left + right, kids)
    ensures HeaviestFirst(ws) && multiset(ws) == multiset(Map(Filter(kids, Not(isNode)), w))
    ensures Loads(Total(left, w), Total(right, w)) == Greedy(Total(Filter(kids, isNode), w), ws, |ws|)
  {
    var others := Filter(kids, Not(isNode));
    var sorted := SortBy(others, HeavyFirst(w, before));
    SortByPermutes(others, HeavyFirst(w, before));
    SortFalls(others, w, before);
    ws := Map(sorted, w);
    MapPermuted(others, sorted, w);
    left, right := HandOut(Filter(kids, isNode), sorted, w);
    FilterPartitions(kids, isNode);
  }

  // ------------------------------------------------------- only the weights matter

  /** The two weighings agree on these. */
  ghost predicate SameWeights(ids: seq<string>, w: Weighing, w': Weighing) {
    forall id :: id in ids ==> w(id) == w'(id)
  }

  lemma {:induction false} TotalSame(ids: seq<string>, w: Weighing, w': Weighing)
    requires SameWeights(ids, w, w')
    ensures Total(ids, w) == Total(ids, w')
    decreases |ids|
  {
    if ids != [] {
      assert ids == ids[..|ids| - 1] + [ids[|ids| - 1]];
      assert ids[|ids| - 1] in ids;
      TotalSame(ids[..|ids| - 1], w, w');
    }
  }

  lemma {:induction false} DealtSame(nodeKids: seq<string>, sorted: seq<string>, w: Weighing, w': Weighing)
    requires SameWeights(nodeKids, w, w') && SameWeights(sorted, w, w')
    ensures Dealt(nodeKids, sorted, w) == Dealt(nodeKids, sorted, w')
    ensures var (l, r) := Dealt(nodeKids, sorted, w); SameWeights(l, w, w') && SameWeights(r, w, w')
    decreases |sorted|
  {
    if sorted != [] {
      assert sorted == sorted[..|sorted| - 1] + [sorted[|sorted| - 1]];
      assert sorted[|sorted| - 1] in sorted;
      DealtSame(nodeKids, sorted[..|sorted| - 1], w, w');
      var (l, r) := Dealt(nodeKids, sorted[..|sorted| - 1], w);
      TotalSame(l, w, w');
      TotalSame(r, w, w');
    }
  }

  lemma SplitSame(kids: seq<string>, isNode: string -> bool, w: Weighing, w': Weighing,
                  before: (string, string) -> bool)
    requires SameWeights(kids, w, w')
    ensures Split(kids, isNode, w, before) == Split(kids, isNode, w', before)
  {
    var others := Filter(kids, Not(isNode));
    SortBySame(others, HeavyFirst(w, before), HeavyFirst(w', before));
    SortByMembers(others, HeavyFirst(w, before));
    DealtSame(Filter(kids, isNode), SortBy(others, HeavyFirst(w, before)), w, w');
  }
}
