/** The dashboard's scene (internal/web/static/app.js, relayout): which cards a
    graph shows, and that its tree edges really make trees to lay out. */
module Dashboard {
  import opened Seqs
  import opened Order
  import opened Topology
  import opened Visible
  import opened Placing
  import opened Clear
  import F = Forest
  import L = Layout
  import Relayout

  // -------------------------------------------------------------------- scene

  /** Card sizes by kind. */
  function SizeOf(kind: string): (r: (real, real))
    ensures 150.0 <= r.0 <= 170.0 && 32.0 <= r.1 <= 52.0 && (kind != "Cluster" ==> r.1 <= 44.0)
  {
    if kind == "Cluster" then (156.0, 52.0)
    else if kind == "Namespace" then (168.0, 44.0)
    else if kind == "Node" then (162.0, 44.0)
    else if kind == "Deployment" || kind == "StatefulSet" || kind == "DaemonSet" then (170.0, 40.0)
    else if kind == "Service" then (152.0, 32.0)
    else if kind == "PersistentVolumeClaim" then (160.0, 32.0)
    else if kind == "PersistentVolume" then (150.0, 32.0)
    else if kind == "Pod" then (152.0, 32.0)
    else (150.0, 32.0)
  }

  /** What relayout reads: the client's maps, the selection and the Node toggle.
      order stands for sorting by kind rank and localeCompare, before for sorting by
      localeCompare alone. */
  datatype Dash = Dash(nodes: map<string, Node>, edges: seq<Edge>, visible: Option<set<string>>,
                       nodesExpanded: bool, order: (string, string) -> bool, before: (string, string) -> bool)

  predicate Vis(d: Dash, id: string) {
    d.visible.None? || id in d.visible.value
  }

  predicate Drawn(d: Dash, id: string) {
    id in d.nodes && Vis(d, id) && (d.nodes[id].kind == "Node" ==> d.nodesExpanded)
  }

  function ChildrenOf(d: Dash, id: string): seq<string> {
    SortBy(Filter(Kids(d.edges, id), (c: string) => Drawn(d, c)), d.order)
  }

  function KindOf(nodes: map<string, Node>, id: string): string {
    if id in nodes then nodes[id].kind else ""
  }

  function KindIn(d: Dash, id: string): string { KindOf(d.nodes, id) }

  function Widths(nodes: map<string, Node>): string -> real { (id: string) => SizeOf(KindOf(nodes, id)).0 }

  function Heights(nodes: map<string, Node>): string -> real { (id: string) => SizeOf(KindOf(nodes, id)).1 }

  function SceneOf(d: Dash): Scene {
    Scene((id: string) => ChildrenOf(d, id), Widths(d.nodes), Heights(d.nodes))
  }

  predicate HasParent(d: Dash, id: string) {
    exists e :: e in d.edges && IsTreeEdge(e) && e.target == id && id in d.nodes && Vis(d, e.source) && Vis(d, id)
  }

  /** Visible vertices without a visible parent; ids lists the node map's keys in
      their insertion order. */
  function Roots(d: Dash, ids: seq<string>): seq<string> {
    SortBy(Filter(ids, (id: string) => id in d.nodes && Vis(d, id) && !HasParent(d, id)), d.order)
  }

  // ----------------------------------------------------------------- tree shape

  /** The tree edges join known vertices and lead to deeper kinds. */
  ghost predicate Deepens(nodes: map<string, Node>, edges: seq<Edge>) {
    forall e :: e in edges && IsTreeEdge(e) ==>
      && e.source in nodes && e.target in nodes
      && F.TextDepth(nodes[e.source].kind) < F.TextDepth(nodes[e.target].kind)
  }

  /** Nor do two of them enter the same vertex. */
  ghost predicate TreeLike(nodes: map<string, Node>, edges: seq<Edge>) {
    Deepens(nodes, edges) && EnteredOnce(edges)
  }

  function Rank(d: Dash, id: string): nat { F.TextDepth(KindIn(d, id)) }

  const DEEPEST := 3

  lemma KidEdge(edges: seq<Edge>, id: string, c: string) returns (e: Edge)
    requires c in Kids(edges, id)
    ensures e in edges && IsTreeEdge(e) && e.source == id && e.target == c
  {
    InFlatMap(edges, TargetFrom(id), c);
    e :| e in edges && c in TargetFrom(id)(e);
  }

  lemma InChildren(d: Dash, id: string, c: string)
    ensures c in ChildrenOf(d, id) <==> c in Kids(d.edges, id) && Drawn(d, c)
  {
    SortByMembers(Filter(Kids(d.edges, id), (c: string) => Drawn(d, c)), d.order);
  }

  lemma ChildIsDeeper(d: Dash, id: string, c: string)
    requires TreeLike(d.nodes, d.edges) && c in ChildrenOf(d, id)
    ensures Rank(d, id) < Rank(d, c) <= DEEPEST
  {
    InChildren(d, id, c);
    var e := KidEdge(d.edges, id, c);
  }

  /** A vertex has one parent. */
  lemma OneParent(d: Dash, a: string, b: string, c: string)
    requires TreeLike(d.nodes, d.edges) && c in ChildrenOf(d, a) && c in ChildrenOf(d, b)
    ensures a == b
  {
    InChildren(d, a, c);
    InChildren(d, b, c);
    var e := KidEdge(d.edges, a, c);
    var f := KidEdge(d.edges, b, c);
    var i := PositionIn(d.edges, e);
    var j := PositionIn(d.edges, f);
    OneEntry(d.edges, i, j);
  }

  ghost predicate EnteredOnce(edges: seq<Edge>) {
    forall i, j :: 0 <= i < j < |edges| && IsTreeEdge(edges[i]) && IsTreeEdge(edges[j]) ==>
        edges[i].target != edges[j].target
  }

  lemma OneEntry(edges: seq<Edge>, i: nat, j: nat)
    requires EnteredOnce(edges) && i < |edges| && j < |edges|
    requires IsTreeEdge(edges[i]) && IsTreeEdge(edges[j]) && edges[i].target == edges[j].target
    ensures i == j
  {
  }

  // -------------------------------------------------------------------- trees

  lemma KidsNoRepeats(d: Dash, id: string)
    requires EnteredOnce(d.edges)
    ensures NoRepeats(ChildrenOf(d, id))
  {
    KidsOfPrefix(d.edges, id, |d.edges|);
    assert d.edges[..|d.edges|] == d.edges;
    FilterNoRepeats(Kids(d.edges, id), (c: string) => Drawn(d, c));
    SortByPermutes(Filter(Kids(d.edges, id), (c: string) => Drawn(d, c)), d.order);
    NoRepeatsPermuted(Filter(Kids(d.edges, id), (c: string) => Drawn(d, c)), ChildrenOf(d, id));
  }

  lemma {:induction false} KidsOfPrefix(edges: seq<Edge>, id: string, n: nat)
    requires EnteredOnce(edges) && n <= |edges|
    ensures NoRepeats(Kids(edges[..n], id))
    decreases n
  {
    if n > 0 {
      KidsOfPrefix(edges, id, n - 1);
      FlatMapStep(edges, n - 1, TargetFrom(id));
      var before, e := Kids(edges[..n - 1], id), edges[n - 1];
      if IsTreeEdge(e) && e.source == id {
        forall c | c in before ensures c != e.target {
          var f := KidEdge(edges[..n - 1], id, c);
          var i := PositionIn(edges[..n - 1], f);
          assert edges[i] == f;
        }
        forall i | 0 <= i < |before| ensures before[i] != e.target { assert before[i] in before; }
      }
    }
  }

  lemma {:induction false} FilterNoRepeats(xs: seq<string>, p: string -> bool)
    requires NoRepeats(xs)
    ensures NoRepeats(Filter(xs, p))
  {
    if xs != [] {
      var init, last := xs[..|xs| - 1], xs[|xs| - 1];
      FilterNoRepeats(init, p);
      forall x | x in init ensures x != last {
        var i := PositionIn(init, x);
        assert xs[i] == x;
      }
      forall i | 0 <= i < |Filter(init, p)|
        ensures Filter(init, p)[i] != last
      {
        assert Filter(init, p)[i] in Filter(init, p);
      }
    }
  }

  /** Below every vertex hangs a tree. */
  lemma {:induction false} TreeBelow(d: Dash, id: string, r: nat) returns (t: Tree)
    requires TreeLike(d.nodes, d.edges) && r == Rank(d, id)
    ensures t.id == id && Spans(SceneOf(d), t)
    decreases DEEPEST - r, 1, 0
  {
    forall c | c in ChildrenOf(d, id) ensures r < Rank(d, c) { ChildIsDeeper(d, id, c); }
    var kids := TreesBelow(d, r, ChildrenOf(d, id), |ChildrenOf(d, id)|);
    t := Tree(id, kids);
  }

  /** Trees for the first of these vertices. */
  ghost predicate TreesFor(s: Scene, ts: seq<Tree>, ids: seq<string>) {
    |ts| <= |ids| && forall i :: 0 <= i < |ts| ==> ts[i].id == ids[i] && Spans(s, ts[i])
  }

  lemma OneMoreTree(s: Scene, ts: seq<Tree>, t: Tree, ids: seq<string>)
    requires TreesFor(s, ts, ids) && |ts| < |ids| && t.id == ids[|ts|] && Spans(s, t)
    ensures TreesFor(s, ts + [t], ids)
  {
  }

  lemma {:induction false} TreesBelow(d: Dash, r: nat, ids: seq<string>, n: nat) returns (ts: seq<Tree>)
    requires TreeLike(d.nodes, d.edges) && n <= |ids| && forall c :: c in ids ==> r < Rank(d, c)
    requires r <= DEEPEST
    ensures |ts| == n && TreesFor(SceneOf(d), ts, ids)
    decreases DEEPEST - r, 0, n
  {
    ts := [];
    if n > 0 {
      ts := TreesBelow(d, r, ids, n - 1);
      assert ids[n - 1] in ids;
      var t := TreeBelow(d, ids[n - 1], Rank(d, ids[n - 1]));
      OneMoreTree(SceneOf(d), ts, t, ids);
      ts := ts + [t];
    }
  }

  lemma Below(t: Tree, x: string)
    requires x in Ids(t) && x != t.id
    ensures x in IdsAll(t.kids)
  {
    IdsOfTree(t);
  }

  /** The child's subtree that holds a vertex below the root. */
  lemma KidHolding(d: Dash, t: Tree, x: string) returns (i: nat)
    requires Spans(SceneOf(d), t) && x in IdsAll(t.kids)
    ensures i < |t.kids| && x in Ids(t.kids[i]) && Spans(SceneOf(d), t.kids[i]) && Ids(t.kids[i]) <= IdsAll(t.kids)
    ensures t.kids[i].id in ChildrenOf(d, t.id)
  {
    i :| 0 <= i < |t.kids| && x in Ids(t.kids[i]);
    SubsetIds(t.kids, i);
    assert t.kids[i].id == ChildrenOf(d, t.id)[i];
  }

  /** A vertex inside a tree is its root or a child of another vertex inside. */
  lemma {:induction false} ParentInside(d: Dash, t: Tree, x: string) returns (y: string)
    requires Spans(SceneOf(d), t) && x in Ids(t) && x != t.id
    ensures y in Ids(t) && x in ChildrenOf(d, y)
    decreases t
  {
    Below(t, x);
    var i := KidHolding(d, t, x);
    if x == t.kids[i].id {
      y := t.id;
    } else {
      y := ParentInside(d, t.kids[i], x);
    }
  }

  lemma {:induction false} DeeperInside(d: Dash, t: Tree, x: string)
    requires TreeLike(d.nodes, d.edges) && Spans(SceneOf(d), t) && x in Ids(t)
    ensures x == t.id || Rank(d, x) > Rank(d, t.id)
    decreases t
  {
    if x != t.id {
      Below(t, x);
      var i := KidHolding(d, t, x);
      ChildIsDeeper(d, t.id, t.kids[i].id);
      DeeperInside(d, t.kids[i], x);
    }
  }

  /** Trees with different roots, neither inside the other, share nothing. */
  lemma {:induction false} NothingShared(d: Dash, t: Tree, u: Tree, x: string)
    requires TreeLike(d.nodes, d.edges) && Spans(SceneOf(d), t) && Spans(SceneOf(d), u)
    requires t.id !in Ids(u) && u.id !in Ids(t)
    ensures !(x in Ids(t) && x in Ids(u))
    decreases Rank(d, x)
  {
    if x in Ids(t) && x in Ids(u) {
      var y := ParentInside(d, t, x);
      var z := ParentInside(d, u, x);
      OneParent(d, y, z, x);
      ChildIsDeeper(d, y, x);
      NothingShared(d, t, u, y);
    }
  }

  /** A vertex that is nobody's child inside u is not inside u, unless its root. */
  lemma OutsideUnless(d: Dash, u: Tree, x: string)
    requires Spans(SceneOf(d), u) && x != u.id && forall y :: y in Ids(u) ==> x !in ChildrenOf(d, y)
    ensures x !in Ids(u)
  {
    if x in Ids(u) {
      var y := ParentInside(d, u, x);
    }
  }

  lemma SiblingsApart(d: Dash, t: Tree, i: nat, j: nat)
    requires TreeLike(d.nodes, d.edges) && Spans(SceneOf(d), t) && i < |t.kids| && j < |t.kids| && i != j
    ensures t.kids[i].id !in Ids(t.kids[j])
  {
    var a, u := t.kids[i].id, t.kids[j];
    KidsNoRepeats(d, t.id);
    assert ChildrenOf(d, t.id)[i] == a && ChildrenOf(d, t.id)[j] == u.id;
    forall y | y in Ids(u) ensures a !in ChildrenOf(d, y) {
      if a in ChildrenOf(d, y) {
        OneParent(d, y, t.id, a);
        DeeperInside(d, u, y);
        ChildIsDeeper(d, t.id, u.id);
      }
    }
    OutsideUnless(d, u, a);
  }

  /** No vertex is drawn twice below a root. */
  lemma {:induction false} TreeApart(d: Dash, t: Tree)
    requires TreeLike(d.nodes, d.edges) && Spans(SceneOf(d), t)
    ensures Apart(t)
    decreases t
  {
    forall i | 0 <= i < |t.kids| ensures Apart(t.kids[i]) && t.id !in Ids(t.kids[i]) {
      TreeApart(d, t.kids[i]);
      assert t.kids[i].id == ChildrenOf(d, t.id)[i];
      ChildIsDeeper(d, t.id, t.kids[i].id);
      if t.id in Ids(t.kids[i]) { DeeperInside(d, t.kids[i], t.id); }
    }
    forall i, j | 0 <= i < j < |t.kids| ensures Ids(t.kids[i]) !! Ids(t.kids[j]) {
      SiblingsApart(d, t, i, j);
      SiblingsApart(d, t, j, i);
      forall x ensures !(x in Ids(t.kids[i]) && x in Ids(t.kids[j])) {
        NothingShared(d, t.kids[i], t.kids[j], x);
      }
    }
  }

  // --------------------------------------------------------------- whole layout

  lemma InRoots(d: Dash, ids: seq<string>, x: string)
    ensures x in Roots(d, ids) <==> x in ids && x in d.nodes && Vis(d, x) && !HasParent(d, x)
  {
    SortByMembers(Filter(ids, (id: string) => id in d.nodes && Vis(d, id) && !HasParent(d, id)), d.order);
  }

  lemma RootIsNoChild(d: Dash, ids: seq<string>, r: string, y: string)
    requires r in Roots(d, ids) && Vis(d, y)
    ensures r !in ChildrenOf(d, y)
  {
    InRoots(d, ids, r);
    InChildren(d, y, r);
    if r in Kids(d.edges, y) {
      var e := KidEdge(d.edges, y, r);
    }
  }

  lemma {:induction false} InsideIsVisible(d: Dash, t: Tree, x: string)
    requires Spans(SceneOf(d), t) && Vis(d, t.id) && x in Ids(t)
    ensures Vis(d, x)
    decreases t
  {
    if x != t.id {
      Below(t, x);
      var i := KidHolding(d, t, x);
      InChildren(d, t.id, t.kids[i].id);
      InsideIsVisible(d, t.kids[i], x);
    }
  }

  /** The roots head disjoint trees. */
  lemma ForestBelow(d: Dash, ids: seq<string>) returns (forest: seq<Tree>)
    requires TreeLike(d.nodes, d.edges) && NoRepeats(ids)
    ensures Relayout.ForestHere(SceneOf(d), Roots(d, ids), forest)
  {
    var roots := Roots(d, ids);
    forest := TreesOf(d, roots);
    RootsNoRepeats(d, ids);
    forall i | 0 <= i < |forest| ensures Apart(forest[i]) { TreeApart(d, forest[i]); }
    forall i, j | 0 <= i < j < |forest| ensures Ids(forest[i]) !! Ids(forest[j]) {
      RootOutside(d, ids, forest[j], roots[i]);
      RootOutside(d, ids, forest[i], roots[j]);
      forall x ensures !(x in Ids(forest[i]) && x in Ids(forest[j])) {
        NothingShared(d, forest[i], forest[j], x);
      }
    }
  }

  lemma TreesOf(d: Dash, roots: seq<string>) returns (ts: seq<Tree>)
    requires TreeLike(d.nodes, d.edges)
    ensures |ts| == |roots| && TreesFor(SceneOf(d), ts, roots)
  {
    ts := [];
    for i := 0 to |roots|
      invariant |ts| == i && TreesFor(SceneOf(d), ts, roots)
    {
      var t := TreeBelow(d, roots[i], Rank(d, roots[i]));
      OneMoreTree(SceneOf(d), ts, t, roots);
      ts := ts + [t];
    }
  }

  lemma RootsNoRepeats(d: Dash, ids: seq<string>)
    requires NoRepeats(ids)
    ensures NoRepeats(Roots(d, ids))
  {
    var p := (id: string) => id in d.nodes && Vis(d, id) && !HasParent(d, id);
    FilterNoRepeats(ids, p);
    SortByPermutes(Filter(ids, p), d.order);
    NoRepeatsPermuted(Filter(ids, p), Roots(d, ids));
  }

  lemma RootOutside(d: Dash, ids: seq<string>, u: Tree, r: string)
    requires Spans(SceneOf(d), u) && u.id in Roots(d, ids) && r in Roots(d, ids) && r != u.id
    ensures r !in Ids(u)
  {
    InRoots(d, ids, u.id);
    forall y | y in Ids(u) ensures r !in ChildrenOf(d, y) {
      InsideIsVisible(d, u, y);
      RootIsNoChild(d, ids, r, y);
    }
    OutsideUnless(d, u, r);
  }

  lemma {:induction false} BelowIsSmall(d: Dash, t: Tree, x: string)
    requires TreeLike(d.nodes, d.edges) && Spans(SceneOf(d), t) && x in IdsAll(t.kids)
    ensures SceneOf(d).height(x) <= 44.0
  {
    var i := KidHolding(d, t, x);
    ChildIsDeeper(d, t.id, t.kids[i].id);
    DeeperInside(d, t.kids[i], x);
    assert Rank(d, x) > 0;
  }

  lemma InEither<T>(a: seq<T>, b: seq<T>, all: seq<T>, x: T)
    requires multiset(a + b) == multiset(all) && (x in a || x in b)
    ensures x in all
  {
    assert x in a + b;
    assert x in multiset(a + b);
    assert x in multiset(all);
  }

  lemma PlanIsSized(d: Dash, st: Relayout.Style, p: L.Plan, t: Tree)
    requires TreeLike(d.nodes, d.edges) && Spans(SceneOf(d), t) && Apart(t) && Relayout.IsPlanOf(SceneOf(d), st, p, t)
    ensures L.Sized(SceneOf(d), p)
  {
    var s := SceneOf(d);
    PlanInside(p.left, p.right, t.kids);
    forall x | x in IdsAll(p.left) || x in IdsAll(p.right)
      ensures 0.0 < s.width(x) <= 170.0 && 32.0 <= s.height(x) <= 44.0
    {
      BelowIsSmall(d, t, x);
    }
  }

  lemma PlanInside(left: seq<Tree>, right: seq<Tree>, kids: seq<Tree>)
    requires multiset(left + right) == multiset(kids)
    ensures IdsAll(left) <= IdsAll(kids) && IdsAll(right) <= IdsAll(kids)
  {
    forall u, x | (u in left || u in right) && x in Ids(u) ensures x in IdsAll(kids) {
      InEither(left, right, kids, u);
      var i := PositionIn(kids, u);
      SubsetIds(kids, i);
    }
    forall x | x in IdsAll(left) ensures x in IdsAll(kids) {
      var i :| 0 <= i < |left| && x in Ids(left[i]);
      assert left[i] in left;
    }
    forall x | x in IdsAll(right) ensures x in IdsAll(kids) {
      var i :| 0 <= i < |right| && x in Ids(right[i]);
      assert right[i] in right;
    }
  }

  // ---------------------------------------------------------------- what is drawn

  function IsNodeIn(nodes: map<string, Node>): string -> bool { (id: string) => KindOf(nodes, id) == "Node" }

  function StyleOf(d: Dash): Relayout.Style { Relayout.Style(IsNodeIn(d.nodes), d.before, d.order) }

  /** pos holds balanced plans for the trees below the roots, and its cards are
      clear of each other just when the plans leave room. */
  ghost predicate IsDrawing(d: Dash, roots: seq<string>, forest: seq<Tree>, plans: seq<L.Plan>,
                            pos: map<string, Card>) {
    && Relayout.ForestHere(SceneOf(d), roots, forest)
    && Relayout.Draws(SceneOf(d), StyleOf(d), forest, plans, pos)
    && (AllClear(pos) <==> L.Roomy(SceneOf(d), plans))
  }

  ghost predicate Balances(d: Dash, roots: seq<string>, pos: map<string, Card>) {
    exists forest, plans :: IsDrawing(d, roots, forest, plans, pos)
  }

  /** pos is the drawing that the trees below the roots determine. */
  ghost predicate IsDrawn(d: Dash, roots: seq<string>, pos: map<string, Card>) {
    exists forest :: Relayout.Shows(SceneOf(d), StyleOf(d), roots, forest, pos)
  }

  lemma ChildrenKnown(d: Dash)
    ensures Bounded(SceneOf(d), d.nodes.Keys)
  {
    forall id, c | c in ChildrenOf(d, id) ensures c in d.nodes { InChildren(d, id, c); }
  }

  /** relayout ends on any graph and draws exactly what hangs below the roots. Over
      a tree-like graph it draws balanced plans, and its cards overlap nowhere if and
      only if each childless root leaves room for the root after it. */
  method Relay(d: Dash, ids: seq<string>) returns (pos: map<string, Card>)
    requires NoRepeats(ids)
    ensures forall x :: x in pos <==> HasCard(d, ids, x)
    ensures TreeLike(d.nodes, d.edges) ==> IsDrawn(d, Roots(d, ids), pos) && Balances(d, Roots(d, ids), pos)
  {
    ghost var forest := MaybeForest(d, ids);
    pos := DrawRoots(d, Roots(d, ids), forest);
  }

  lemma MaybeForest(d: Dash, ids: seq<string>) returns (forest: Option<seq<Tree>>)
    requires NoRepeats(ids)
    ensures forest.Some? <==> TreeLike(d.nodes, d.edges)
    ensures forest.Some? ==> Relayout.ForestHere(SceneOf(d), Roots(d, ids), forest.value)
  {
    forest := None;
    if TreeLike(d.nodes, d.edges) {
      var trees := ForestBelow(d, ids);
      forest := Some(trees);
    }
  }

  method DrawRoots(d: Dash, roots: seq<string>, ghost forest: Option<seq<Tree>>)
    returns (pos: map<string, Card>)
    requires forest.Some? ==> TreeLike(d.nodes, d.edges) && Relayout.ForestHere(SceneOf(d), roots, forest.value)
    ensures forall x :: x in pos <==> LeadsFrom(SceneOf(d), roots, x)
    ensures forest.Some? ==> IsDrawn(d, roots, pos) && Balances(d, roots, pos)
  {
    ChildrenKnown(d);
    pos := Relayout.LayOut(SceneOf(d), StyleOf(d), roots, d.nodes.Keys, forest);
    if forest.Some? {
      PlansDrawn(d, roots, forest.value, pos);
    }
  }

  lemma PlansDrawn(d: Dash, roots: seq<string>, forest: seq<Tree>, pos: map<string, Card>)
    requires TreeLike(d.nodes, d.edges) && Relayout.ForestHere(SceneOf(d), roots, forest)
    requires exists plans :: Relayout.Draws(SceneOf(d), StyleOf(d), forest, plans, pos)
                             && Relayout.Planned(StyleOf(d), forest, plans)
    ensures IsDrawn(d, roots, pos) && Balances(d, roots, pos)
  {
    var plans :| Relayout.Draws(SceneOf(d), StyleOf(d), forest, plans, pos)
        && Relayout.Planned(StyleOf(d), forest, plans);
    PlansShow(d, roots, forest, plans, pos);
    PlansBalance(d, roots, forest, plans, pos);
  }

  lemma PlansShow(d: Dash, roots: seq<string>, forest: seq<Tree>, plans: seq<L.Plan>, pos: map<string, Card>)
    requires Relayout.ForestHere(SceneOf(d), roots, forest) && Relayout.Planned(StyleOf(d), forest, plans)
    requires Relayout.Draws(SceneOf(d), StyleOf(d), forest, plans, pos)
    ensures IsDrawn(d, roots, pos)
  {
    assert Relayout.Shows(SceneOf(d), StyleOf(d), roots, forest, pos);
  }

  lemma PlansBalance(d: Dash, roots: seq<string>, forest: seq<Tree>, plans: seq<L.Plan>, pos: map<string, Card>)
    requires TreeLike(d.nodes, d.edges) && Relayout.ForestHere(SceneOf(d), roots, forest)
    requires Relayout.Draws(SceneOf(d), StyleOf(d), forest, plans, pos)
    ensures Balances(d, roots, pos)
  {
    ClearIffRoomy(d, StyleOf(d), forest, plans, pos);
    assert IsDrawing(d, roots, forest, plans, pos);
  }

  lemma ClearIffRoomy(d: Dash, st: Relayout.Style, forest: seq<Tree>, plans: seq<L.Plan>, pos: map<string, Card>)
    requires TreeLike(d.nodes, d.edges) && ApartAll(forest)
    requires forall i :: 0 <= i < |forest| ==> Spans(SceneOf(d), forest[i])
    requires Relayout.Draws(SceneOf(d), st, forest, plans, pos)
    ensures AllClear(pos) <==> L.Roomy(SceneOf(d), plans)
  {
    forall i | 0 <= i < |plans| ensures L.Sized(SceneOf(d), plans[i]) { PlanIsSized(d, st, plans[i], forest[i]); }
    L.LayoutClearIff(SceneOf(d), plans);
  }

  // ---------------------------------------------------------- everything is drawn

  /** The vertices that relayout draws. */
  ghost predicate HasCard(d: Dash, ids: seq<string>, x: string) { LeadsFrom(SceneOf(d), Roots(d, ids), x) }

  ghost predicate NodesHoldNothing(d: Dash) {
    forall e :: e in d.edges && IsTreeEdge(e) && e.source in d.nodes ==> d.nodes[e.source].kind != "Node"
  }

  lemma ChildOf(d: Dash, e: Edge)
    requires e in d.edges && IsTreeEdge(e) && Drawn(d, e.target)
    ensures e.target in ChildrenOf(d, e.source)
  {
    assert e.target in TargetFrom(e.source)(e);
    InFlatMap(d.edges, TargetFrom(e.source), e.target);
    InChildren(d, e.source, e.target);
  }

  lemma ParentIsDrawn(d: Dash, x: string) returns (e: Edge)
    requires Deepens(d.nodes, d.edges) && NodesHoldNothing(d) && Drawn(d, x) && HasParent(d, x)
    ensures e in d.edges && IsTreeEdge(e) && e.target == x && Drawn(d, e.source) && Rank(d, e.source) < Rank(d, x)
  {
    e :| e in d.edges && IsTreeEdge(e) && e.target == x && Vis(d, e.source);
  }

  lemma ChildLeads(d: Dash, ids: seq<string>, e: Edge)
    requires e in d.edges && IsTreeEdge(e) && Drawn(d, e.target) && HasCard(d, ids, e.source)
    ensures HasCard(d, ids, e.target)
  {
    ChildOf(d, e);
    LeadsOn(SceneOf(d), Roots(d, ids), e.source, e.target);
  }

  lemma RootLeads(d: Dash, ids: seq<string>, x: string)
    requires x in ids && Drawn(d, x) && !HasParent(d, x)
    ensures HasCard(d, ids, x)
  {
    InRoots(d, ids, x);
    LeadsToSelf(SceneOf(d), Roots(d, ids), x);
  }

  /** Whatever is to be drawn hangs below a root. */
  lemma {:induction false} DrawnLeads(d: Dash, ids: seq<string>, x: string)
    requires Deepens(d.nodes, d.edges) && NodesHoldNothing(d) && (forall id :: id in d.nodes ==> id in ids)
    requires Drawn(d, x)
    ensures HasCard(d, ids, x)
    decreases Rank(d, x)
  {
    if HasParent(d, x) {
      var e := ParentIsDrawn(d, x);
      DrawnLeads(d, ids, e.source);
      ChildLeads(d, ids, e);
    } else {
      RootLeads(d, ids, x);
    }
  }

  lemma LedIsDrawn(d: Dash, ids: seq<string>, x: string)
    requires HasCard(d, ids, x)
    ensures Drawn(d, x) || x in Roots(d, ids)
  {
    var p :| Leads(SceneOf(d), p, Roots(d, ids), x);
    if |p| > 1 { InChildren(d, p[|p| - 2], x); }
  }

  /** Exactly what is visible has a card, other than Nodes below the Cluster while
      they are collapsed. */
  lemma DrawnIff(d: Dash, ids: seq<string>, x: string)
    requires Deepens(d.nodes, d.edges) && NodesHoldNothing(d) && forall id :: id in d.nodes ==> id in ids
    ensures HasCard(d, ids, x) <==> Drawn(d, x) || x in Roots(d, ids)
  {
    if HasCard(d, ids, x) { LedIsDrawn(d, ids, x); }
    if Drawn(d, x) { DrawnLeads(d, ids, x); }
    if x in Roots(d, ids) { LeadsToSelf(SceneOf(d), Roots(d, ids), x); }
  }

  lemma ChildlessPlan(d: Dash, t: Tree, p: L.Plan)
    requires Spans(SceneOf(d), t) && Relayout.IsPlanOf(SceneOf(d), StyleOf(d), p, t) && ChildrenOf(d, t.id) == []
    ensures p.Childless() && p.root == t.id
  {
    SameSize(p.left + p.right, t.kids);
  }

  lemma ChildlessRoots(d: Dash, forest: seq<Tree>, plans: seq<L.Plan>)
    requires Relayout.ArePlansOf(SceneOf(d), StyleOf(d), plans, forest)
    requires forall i :: 0 <= i < |forest| ==> Spans(SceneOf(d), forest[i])
    ensures forall i :: 0 <= i < |plans| && ChildrenOf(d, forest[i].id) == [] ==> plans[i].Childless()
  {
    forall i | 0 <= i < |plans| && ChildrenOf(d, forest[i].id) == [] ensures plans[i].Childless() {
      ChildlessPlan(d, forest[i], plans[i]);
    }
  }

  lemma NotRoomy(d: Dash, plans: seq<L.Plan>, i: nat)
    requires i + 1 < |plans| && plans[i].Childless() && plans[i + 1].Childless()
    ensures !L.Roomy(SceneOf(d), plans)
  {
    L.ChildlessPairsClash(SceneOf(d), plans[i], plans[i + 1]);
  }

  lemma NoRoomUnder(d: Dash, forest: seq<Tree>, plans: seq<L.Plan>, i: nat)
    requires Relayout.ArePlansOf(SceneOf(d), StyleOf(d), plans, forest) && i + 1 < |forest|
    requires forall j :: 0 <= j < |forest| ==> Spans(SceneOf(d), forest[j])
    requires ChildrenOf(d, forest[i].id) == [] && ChildrenOf(d, forest[i + 1].id) == []
    ensures !L.Roomy(SceneOf(d), plans)
  {
    ChildlessRoots(d, forest, plans);
    NotRoomy(d, plans, i);
  }

  lemma ChildlessRootsClash(d: Dash, roots: seq<string>, forest: seq<Tree>, plans: seq<L.Plan>, pos: map<string, Card>,
                            i: nat)
    requires IsDrawing(d, roots, forest, plans, pos) && i + 1 < |roots|
    requires ChildrenOf(d, roots[i]) == [] && ChildrenOf(d, roots[i + 1]) == []
    ensures !AllClear(pos)
  {
    NoRoomUnder(d, forest, plans, i);
  }

  /** Whatever relayout makes of these nodes, some cards overlap. */
  ghost predicate AlwaysOverlaps(d: Dash, ids: seq<string>) {
    forall forest, plans, pos :: IsDrawing(d, Roots(d, ids), forest, plans, pos) ==> !AllClear(pos)
  }

  /** Two roots in a row without drawn children do. */
  lemma ChildlessRootsOverlap(d: Dash, ids: seq<string>, i: nat)
    requires i + 1 < |Roots(d, ids)|
    requires ChildrenOf(d, Roots(d, ids)[i]) == [] && ChildrenOf(d, Roots(d, ids)[i + 1]) == []
    ensures AlwaysOverlaps(d, ids)
  {
    forall forest, plans, pos | IsDrawing(d, Roots(d, ids), forest, plans, pos) ensures !AllClear(pos) {
      ChildlessRootsClash(d, Roots(d, ids), forest, plans, pos, i);
    }
  }
}
