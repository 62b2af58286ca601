/** Whether the order in which nodes and edges reached the client can be seen in what
    it draws (internal/web/static/app.js, relayout). */
module Arrival {
  import opened Seqs
  import opened Order
  import opened Topology
  import opened Visible
  import opened Placing
  import opened Dashboard
  import L = Layout
  import Sides
  import Relayout

  // ---------------------------------------------------- cards depend on sizes only

  ghost predicate SameSizes(s: Scene, s': Scene) { s.width == s'.width && s.height == s'.height }

  lemma {:induction false} SpanSame(s: Scene, s': Scene, t: Tree)
    requires SameSizes(s, s')
    ensures Span(s, t) == Span(s', t)
    decreases t, 1
  {
    SpanAllSame(s, s', t.kids);
  }

  lemma {:induction false} SpanAllSame(s: Scene, s': Scene, ts: seq<Tree>)
    requires SameSizes(s, s')
    ensures SpanAll(s, ts) == SpanAll(s', ts)
    decreases ts, 0
  {
    if ts != [] {
      SpanAllSame(s, s', ts[..|ts| - 1]);
      SpanSame(s, s', ts[|ts| - 1]);
    }
  }

  lemma {:induction false} MidSame(s: Scene, s': Scene, t: Tree)
    requires SameSizes(s, s')
    ensures Mid(s, t) == Mid(s', t)
    decreases t
  {
    if t.kids != [] {
      MidSame(s, s', t.kids[0]);
      MidSame(s, s', t.kids[|t.kids| - 1]);
      SpanAllSame(s, s', t.kids[..|t.kids| - 1]);
    }
  }

  lemma {:induction false} CardsSame(s: Scene, s': Scene, t: Tree, depth: nat, dir: Dir, y: real)
    requires SameSizes(s, s')
    ensures Cards(s, t, depth, dir, y) == Cards(s', t, depth, dir, y)
    decreases t, 1
  {
    MidSame(s, s', t);
    CardsAllSame(s, s', t.kids, depth + 1, dir, y);
  }

  lemma {:induction false} CardsAllSame(s: Scene, s': Scene, ts: seq<Tree>, depth: nat, dir: Dir, y: real)
    requires SameSizes(s, s')
    ensures CardsAll(s, ts, depth, dir, y) == CardsAll(s', ts, depth, dir, y)
    decreases ts, 0
  {
    if ts != [] {
      var init, last := ts[..|ts| - 1], ts[|ts| - 1];
      SpanAllSame(s, s', init);
      CardsAllSame(s, s', init, depth, dir, y);
      CardsSame(s, s', last, depth, dir, y + SpanAll(s, init));
    }
  }

  lemma {:induction false} CentresSame(s: Scene, s': Scene, ts: seq<Tree>, y: real)
    requires SameSizes(s, s')
    ensures Centres(s, ts, y) == Centres(s', ts, y)
    decreases |ts|
  {
    if ts != [] {
      CentresSame(s, s', ts[..|ts| - 1], y);
      SpanAllSame(s, s', ts[..|ts| - 1]);
      MidSame(s, s', ts[|ts| - 1]);
    }
  }

  lemma PlanCardsSame(s: Scene, s': Scene, p: L.Plan, y: real)
    requires SameSizes(s, s')
    ensures L.PlanCards(s, p, y) == L.PlanCards(s', p, y) && L.Reach(s, p) == L.Reach(s', p)
  {
    CentresSame(s, s', p.right, y);
    CentresSame(s, s', p.left, y);
    CardsAllSame(s, s', p.right, 1, Right, y);
    CardsAllSame(s, s', p.left, 1, Left, y);
    SpanAllSame(s, s', p.right);
    SpanAllSame(s, s', p.left);
  }

  lemma {:induction false} LayoutSame(s: Scene, s': Scene, ps: seq<L.Plan>)
    requires SameSizes(s, s')
    ensures L.Cards(s, ps) == L.Cards(s', ps) && L.Top(s, ps) == L.Top(s', ps)
    decreases |ps|
  {
    if ps != [] {
      var init, last := ps[..|ps| - 1], ps[|ps| - 1];
      LayoutSame(s, s', init);
      PlanCardsSame(s, s', last, L.Top(s, init));
    }
  }

  // ------------------------------------------------------------- the same children

  ghost predicate SameKids(s: Scene, s': Scene) { forall id :: s.kids(id) == s'.kids(id) }

  lemma {:induction false} SameTree(s: Scene, s': Scene, t: Tree, t': Tree)
    requires SameKids(s, s') && t.id == t'.id && Spans(s, t) && Spans(s', t')
    ensures t == t'
    decreases t
  {
    assert s.kids(t.id) == s'.kids(t.id);
    forall i | 0 <= i < |t.kids| ensures t.kids[i] == t'.kids[i] { SameTree(s, s', t.kids[i], t'.kids[i]); }
    assert t.kids == t'.kids;
  }

  lemma SameForest(s: Scene, s': Scene, roots: seq<string>, forest: seq<Tree>, forest': seq<Tree>)
    requires SameKids(s, s') && Relayout.ForestHere(s, roots, forest) && Relayout.ForestHere(s', roots, forest')
    ensures forest == forest'
  {
    forall i | 0 <= i < |roots| ensures forest[i] == forest'[i] { SameTree(s, s', forest[i], forest'[i]); }
  }

  // -------------------------------------------------------- other orders of arrival

  /** The same nodes and edges, in other orders. */
  ghost predicate Rearranged(d: Dash, ids: seq<string>, d': Dash, ids': seq<string>) {
    d' == d.(edges := d'.edges) && Permuted(d.edges, d'.edges) && Permuted(ids, ids')
  }

  /** No two children of a vertex, and no two roots, tie in the order they are sorted
      by: as far as it goes by kind and name, these are enough to tell them apart. */
  ghost predicate NoTies(d: Dash, ids: seq<string>) {
    && StrictOrder(d.order)
    && (forall id, a, b :: a in ChildrenOf(d, id) && b in ChildrenOf(d, id) && a != b ==>
          d.order(a, b) || d.order(b, a))
    && (forall a, b :: a in Roots(d, ids) && b in Roots(d, ids) && a != b ==> d.order(a, b) || d.order(b, a))
  }

  lemma SortedAlike(xs: seq<string>, ys: seq<string>, less: (string, string) -> bool)
    requires StrictOrder(less) && NoRepeats(xs) && Permuted(xs, ys)
    requires forall a, b :: a in xs && b in xs && a != b ==> less(a, b) || less(b, a)
    ensures SortBy(xs, less) == SortBy(ys, less)
  {
    NoRepeatsPermuted(xs, ys);
    PermutedMembers(xs, ys);
    forall i, j | 0 <= i < j < |xs|
      ensures less(xs[i], xs[j]) || less(xs[j], xs[i])
    {
      assert xs[i] in xs && xs[j] in xs;
    }
    forall i, j | 0 <= i < j < |ys|
      ensures less(ys[i], ys[j]) || less(ys[j], ys[i])
    {
      assert ys[i] in xs && ys[j] in xs;
    }
    SortByOrderBlind(xs, ys, less);
  }

  lemma {:induction false} FilterCounts(xs: seq<string>, p: string -> bool, x: string)
    ensures multiset(Filter(xs, p))[x] == if p(x) then multiset(xs)[x] else 0
    decreases |xs|
  {
    if xs != [] {
      assert xs == xs[..|xs| - 1] + [xs[|xs| - 1]];
      FilterCounts(xs[..|xs| - 1], p, x);
    }
  }

  lemma FilterPermuted(xs: seq<string>, ys: seq<string>, p: string -> bool, q: string -> bool)
    requires Permuted(xs, ys) && forall x :: p(x) == q(x)
    ensures Permuted(Filter(xs, p), Filter(ys, q))
  {
    forall x ensures multiset(Filter(xs, p))[x] == multiset(Filter(ys, q))[x] {
      FilterCounts(xs, p, x);
      FilterCounts(ys, q, x);
    }
  }

  /** The children before they are sorted. */
  function Unsorted(d: Dash, id: string): seq<string> { Filter(Kids(d.edges, id), (c: string) => Drawn(d, c)) }

  lemma UnsortedChildren(d: Dash, id: string)
    requires TreeLike(d.nodes, d.edges)
    ensures ChildrenOf(d, id) == SortBy(Unsorted(d, id), d.order) && NoRepeats(Unsorted(d, id))
    ensures forall c :: c in Unsorted(d, id) <==> c in ChildrenOf(d, id)
  {
    KidsOfPrefix(d.edges, id, |d.edges|);
    assert d.edges[..|d.edges|] == d.edges;
    FilterNoRepeats(Kids(d.edges, id), (c: string) => Drawn(d, c));
    SortByMembers(Unsorted(d, id), d.order);
  }

  lemma SameChildren(d: Dash, d': Dash, ids: seq<string>, id: string)
    requires d' == d.(edges := d'.edges) && Permuted(d.edges, d'.edges) && TreeLike(d.nodes, d.edges) && NoTies(d, ids)
    ensures ChildrenOf(d, id) == ChildrenOf(d', id)
  {
    UnsortedChildren(d, id);
    FlatMapPermuted(d.edges, d'.edges, TargetFrom(id));
    FilterPermuted(Kids(d.edges, id), Kids(d'.edges, id), (c: string) => Drawn(d, c), (c: string) => Drawn(d', c));
    SortedAlike(Unsorted(d, id), Unsorted(d', id), d.order);
  }

  lemma SameParent(d: Dash, d': Dash, id: string)
    requires d' == d.(edges := d'.edges) && Permuted(d.edges, d'.edges)
    ensures HasParent(d, id) == HasParent(d', id)
  {
    PermutedMembers(d.edges, d'.edges);
  }

  lemma SameRoots(d: Dash, ids: seq<string>, d': Dash, ids': seq<string>)
    requires Rearranged(d, ids, d', ids') && NoRepeats(ids) && NoTies(d, ids)
    ensures Roots(d, ids) == Roots(d', ids')
  {
    var p, q := (id: string) => id in d.nodes && Vis(d, id) && !HasParent(d, id),
                (id: string) => id in d'.nodes && Vis(d', id) && !HasParent(d', id);
    forall x ensures p(x) == q(x) { SameParent(d, d', x); }
    FilterPermuted(ids, ids', p, q);
    FilterNoRepeats(ids, p);
    SortByMembers(Filter(ids, p), d.order);
    SortedAlike(Filter(ids, p), Filter(ids', q), d.order);
  }

  /** The drawing is the same in whatever order nodes and edges arrived, as long as
      no siblings and no roots tie. */
  lemma DrawingIsOrderBlind(d: Dash, ids: seq<string>, d': Dash, ids': seq<string>,
                            pos: map<string, Card>, pos': map<string, Card>)
    requires Rearranged(d, ids, d', ids') && TreeLike(d.nodes, d.edges) && NoRepeats(ids) && NoTies(d, ids)
    requires IsDrawn(d, Roots(d, ids), pos) && IsDrawn(d', Roots(d', ids'), pos')
    ensures pos == pos'
  {
    forall id ensures SceneOf(d).kids(id) == SceneOf(d').kids(id) { SameChildren(d, d', ids, id); }
    SameRoots(d, ids, d', ids');
    DrawnAlike(d, d', Roots(d, ids), pos, pos');
  }

  lemma DrawnAlike(d: Dash, d': Dash, roots: seq<string>, pos: map<string, Card>, pos': map<string, Card>)
    requires d' == d.(edges := d'.edges) && SameKids(SceneOf(d), SceneOf(d'))
    requires IsDrawn(d, roots, pos) && IsDrawn(d', roots, pos')
    ensures pos == pos'
  {
    var forest :| Relayout.Shows(SceneOf(d), StyleOf(d), roots, forest, pos);
    var forest' :| Relayout.Shows(SceneOf(d'), StyleOf(d'), roots, forest', pos');
    SameForest(SceneOf(d), SceneOf(d'), roots, forest, forest');
    LayoutSame(SceneOf(d), SceneOf(d'), Relayout.PlansOf(StyleOf(d), forest));
  }

  // ------------------------------------------------------------------------- ties

  function Leaf(id: string): Tree { Tree(id, []) }

  lemma ForestOfTwo(s: Scene, r: string, a: string, b: string, forest: seq<Tree>)
    requires Relayout.ForestHere(s, [r], forest) && s.kids(r) == [a, b] && s.kids(a) == [] && s.kids(b) == []
    ensures forest == [Tree(r, [Leaf(a), Leaf(b)])]
  {
    var t := forest[0];
    assert Spans(s, t) && |t.kids| == 2;
    assert t.kids[0].id == a && Spans(s, t.kids[0]) && t.kids[0].kids == [];
    assert t.kids[1].id == b && Spans(s, t.kids[1]) && t.kids[1].kids == [];
    assert t.kids == [Leaf(a), Leaf(b)];
  }

  lemma LeavesWeighOne(a: string, b: string)
    requires a != b
    ensures var w := Relayout.LeafWeight([Leaf(a), Leaf(b)]); w(a) == w(b) == 1
    ensures Relayout.Pick([Leaf(a), Leaf(b)], a) == Leaf(a) && Relayout.Pick([Leaf(a), Leaf(b)], b) == Leaf(b)
    ensures Relayout.IdList([Leaf(a), Leaf(b)]) == [a, b]
  {
    var ts := [Leaf(a), Leaf(b)];
    assert Ids(ts[0]) == {a} && Ids(ts[1]) == {b};
    assert ApartAll(ts);
    Relayout.PickAt(ts, 0);
    Relayout.PickAt(ts, 1);
  }

  lemma FilterTwo(a: string, b: string, p: string -> bool)
    requires p(a) == p(b)
    ensures Filter([a, b], p) == if p(a) then [a, b] else []
  {
    assert [a, b][..1] == [a] && [a][..0] == [];
    assert Filter([a], p) == if p(a) then [a] else [];
  }

  lemma SortTwo(a: string, b: string, less: (string, string) -> bool)
    requires !less(b, a)
    ensures SortBy([a, b], less) == [a, b]
  {
    SortOne(b, less);
    assert [a, b][1..] == [b];
  }

  lemma SortOne(a: string, less: (string, string) -> bool)
    ensures SortBy([a], less) == [a]
  {
    assert [a][1..] == [];
    assert SortBy([], less) == [];
  }

  lemma DealOne(a: string, w: Sides.Weighing)
    ensures Sides.Dealt([], [a], w) == ([a], [])
  {
    assert [a][..0] == [];
    assert Sides.Dealt([], [], w) == ([], []);
    var none: seq<string> := [];
    assert none + [a] == [a];
  }

  lemma DealTwo(a: string, b: string, w: Sides.Weighing)
    requires w(a) == w(b) == 1
    ensures Sides.Dealt([], [a, b], w) == ([a], [b])
  {
    assert [a, b][..1] == [a];
    DealOne(a, w);
    Sides.TotalOne(a, w);
    assert Sides.Total([], w) == 0;
    var none: seq<string> := [];
    assert none + [b] == [b];
  }

  /** The first of two tied leaves goes to the left, the second to the right. */
  lemma PlanOfTwo(st: Relayout.Style, r: string, a: string, b: string)
    requires a != b && !st.before(a, b) && !st.before(b, a) && !st.isNode(a) && !st.isNode(b)
    ensures Relayout.PlanOf(st, Tree(r, [Leaf(a), Leaf(b)])) == L.Plan(r, [Leaf(a)], [Leaf(b)])
  {
    var ts := [Leaf(a), Leaf(b)];
    var w := Relayout.LeafWeight(ts);
    LeavesWeighOne(a, b);
    FilterTwo(a, b, st.isNode);
    FilterTwo(a, b, Sides.Not(st.isNode));
    SortTwo(a, b, Sides.HeavyFirst(w, st.before));
    DealTwo(a, b, w);
    SortOne(a, st.order);
    SortOne(b, st.order);
    assert Relayout.SidesOf(st, ts) == ([a], [b]);
    assert Relayout.PickAll(ts, [a]) == [Leaf(a)] && Relayout.PickAll(ts, [b]) == [Leaf(b)];
  }

  lemma TwoCards(s: Scene, r: string, a: string, b: string)
    requires r != a && a != b && r != b
    ensures var m := L.Cards(s, [L.Plan(r, [Leaf(a)], [Leaf(b)])]);
      && a in m && m[a].x == -COLGAP - s.width(a) && b in m && m[b].x == COLGAP
  {
    var p := L.Plan(r, [Leaf(a)], [Leaf(b)]);
    OneLeafCard(s, a, Left);
    OneLeafCard(s, b, Right);
    assert [p][..0] == [];
    assert L.Cards(s, [p]) == L.Cards(s, []) + L.PlanCards(s, p, L.Top(s, []));
  }

  lemma OneLeafCard(s: Scene, a: string, dir: Dir)
    ensures CardsAll(s, [Leaf(a)], 1, dir, 0.0).Keys == {a}
    ensures CardsAll(s, [Leaf(a)], 1, dir, 0.0)[a] == CardAt(s, a, 1, dir, 0.0 + Mid(s, Leaf(a)))
  {
    assert [Leaf(a)][..0] == [];
    assert CardsAll(s, [], 1, dir, 0.0) == map[] && SpanAll(s, []) == 0.0;
    assert CardsAll(s, [Leaf(a)], 1, dir, 0.0) == map[] + Cards(s, Leaf(a), 1, dir, 0.0);
  }

  /** A root r with two leaves a and b, in this order, that tie by name and are no Nodes. */
  ghost predicate TwoLeaves(s: Scene, st: Relayout.Style, r: string, a: string, b: string) {
    && r != a && r != b && a != b && s.kids(r) == [a, b] && s.kids(a) == [] && s.kids(b) == []
    && !st.isNode(a) && !st.isNode(b) && !st.before(a, b) && !st.before(b, a) && s.width(a) > 0.0 && s.width(b) > 0.0
  }

  lemma OnePlan(st: Relayout.Style, t: Tree)
    ensures Relayout.PlansOf(st, [t]) == [Relayout.PlanOf(st, t)]
  {
    assert [t][..0] == [];
    assert Relayout.PlansOf(st, []) == [];
  }

  lemma CardsOfTwo(s: Scene, st: Relayout.Style, r: string, a: string, b: string, forest: seq<Tree>,
                   pos: map<string, Card>)
    requires TwoLeaves(s, st, r, a, b) && Relayout.Shows(s, st, [r], forest, pos)
    ensures a in pos && pos[a].x < 0.0 && b in pos && pos[b].x > 0.0
  {
    ForestOfTwo(s, r, a, b, forest);
    PlanOfTwo(st, r, a, b);
    OnePlan(st, Tree(r, [Leaf(a), Leaf(b)]));
    TwoCards(s, r, a, b);
  }

  /** Ties can be seen: two leaves that tie change sides when they come the other way round. */
  lemma TiesAreSeen(s: Scene, s': Scene, st: Relayout.Style, r: string, a: string, b: string,
                    forest: seq<Tree>, forest': seq<Tree>, pos: map<string, Card>, pos': map<string, Card>)
    requires TwoLeaves(s, st, r, a, b) && TwoLeaves(s', st, r, b, a)
    requires Relayout.Shows(s, st, [r], forest, pos) && Relayout.Shows(s', st, [r], forest', pos')
    ensures a in pos && a in pos' && pos[a].x < 0.0 < pos'[a].x
  {
    CardsOfTwo(s, st, r, a, b, forest, pos);
    CardsOfTwo(s', st, r, b, a, forest', pos');
  }

  lemma KidsOfTwo(x: Edge, y: Edge, id: string)
    ensures Kids([x, y], id) == TargetFrom(id)(x) + TargetFrom(id)(y)
  {
    FlatMapConcat([x], [y], TargetFrom(id));
    FlatMapOne(x, TargetFrom(id));
    FlatMapOne(y, TargetFrom(id));
    assert [x] + [y] == [x, y];
  }

  /** And children that tie come in the order in which their edges arrived. */
  lemma TiesKeepArrival(d: Dash, r: string, x: Edge, y: Edge)
    requires d.edges == [x, y] && IsTreeEdge(x) && IsTreeEdge(y) && x.source == y.source == r
    requires Drawn(d, x.target) && Drawn(d, y.target) && !d.order(y.target, x.target)
    ensures ChildrenOf(d, r) == [x.target, y.target]
    ensures forall id :: id != r ==> ChildrenOf(d, id) == []
  {
    KidsOfTwo(x, y, r);
    FilterTwo(x.target, y.target, (c: string) => Drawn(d, c));
    SortTwo(x.target, y.target, d.order);
    forall id | id != r ensures ChildrenOf(d, id) == [] { KidsOfTwo(x, y, id); }
  }
}
