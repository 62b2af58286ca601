/** Which vertices a namespace selection leaves on screen
    (internal/web/static/app.js, treeChildrenIndex and computeVisible). */
module Visible {
  import opened Seqs
  import opened Topology

  function TargetFrom(id: string): Edge -> seq<string> {
    (e: Edge) => if IsTreeEdge(e) && e.source == id then [e.target] else []
  }

  /** Tree children in edge insertion order. */
  function Kids(edges: seq<Edge>, id: string): seq<string> {
    FlatMap(edges, TargetFrom(id))
  }

  function KidsIn(idx: map<string, seq<string>>, id: string): seq<string> {
    if id in idx then idx[id] else []
  }

  method TreeChildrenIndex(edges: seq<Edge>) returns (idx: map<string, seq<string>>)
    ensures forall id :: KidsIn(idx, id) == Kids(edges, id)
  {
    idx := map[];
    for i := 0 to |edges|
      invariant forall id :: KidsIn(idx, id) == Kids(edges[..i], id)
    {
      var e := edges[i];
      forall id ensures Kids(edges[..i + 1], id) == Kids(edges[..i], id) + TargetFrom(id)(e) {
        FlatMapStep(edges, i, TargetFrom(id));
      }
      if !IsTreeEdge(e) {
        continue;
      }
      idx := idx[e.source := KidsIn(idx, e.source) + [e.target]];
    }
    assert edges[..|edges|] == edges;
  }

  // -------------------------------------------------------------------- paths

  /** Always kept, but never expanded: the Cluster and every Node. */
  function Pinned(nodes: map<string, Node>): set<string> {
    {"Cluster"} + set id | id in nodes && nodes[id].kind == "Node" :: nodes[id].id
  }

  function NamespaceId(ns: string): string { "Namespace/" + ns }

  /** The selected namespaces that exist. */
  function Starts(nodes: map<string, Node>, filter: seq<string>): set<string> {
    set ns | ns in filter && NamespaceId(ns) in nodes :: NamespaceId(ns)
  }

  ghost predicate Path(edges: seq<Edge>, p: seq<string>) {
    p != [] && forall i :: 0 < i < |p| ==> p[i] in Kids(edges, p[i - 1])
  }

  ghost predicate PathTo(edges: seq<Edge>, from: set<string>, p: seq<string>, x: string) {
    Path(edges, p) && p[0] in from && p[|p| - 1] == x
  }

  /** p does not run through a pinned vertex. */
  ghost predicate Avoids(p: seq<string>, pinned: set<string>) {
    forall i :: 0 < i < |p| - 1 ==> p[i] !in pinned
  }

  ghost predicate Reachable(edges: seq<Edge>, from: set<string>, x: string) {
    exists p :: PathTo(edges, from, p, x)
  }

  ghost predicate ReachableAvoiding(edges: seq<Edge>, from: set<string>, pinned: set<string>, x: string) {
    exists p :: PathTo(edges, from, p, x) && Avoids(p, pinned)
  }

  ghost predicate Shown(nodes: map<string, Node>, edges: seq<Edge>, filter: seq<string>, x: string) {
    x in Pinned(nodes) || ReachableAvoiding(edges, Starts(nodes, filter), Pinned(nodes), x)
  }

  /** Paths may be extended beyond x. */
  predicate Expands(from: set<string>, pinned: set<string>, x: string) {
    x !in pinned || x in from
  }

  lemma ExtendPath(edges: seq<Edge>, from: set<string>, pinned: set<string>, x: string, c: string)
    requires ReachableAvoiding(edges, from, pinned, x) && Expands(from, pinned, x) && c in Kids(edges, x)
    ensures ReachableAvoiding(edges, from, pinned, c)
  {
    if x in from {
      assert PathTo(edges, from, [x, c], c) && Avoids([x, c], pinned);
    } else {
      var p :| PathTo(edges, from, p, x) && Avoids(p, pinned);
      assert PathTo(edges, from, p + [c], c) && Avoids(p + [c], pinned);
    }
  }

  /** A set closed under the children of whatever expands holds every shown vertex. */
  ghost predicate ClosedFrom(edges: seq<Edge>, from: set<string>, pinned: set<string>, keep: set<string>) {
    forall x, c :: x in keep && Expands(from, pinned, x) && c in Kids(edges, x) ==> c in keep
  }

  lemma {:induction false} PathStays(edges: seq<Edge>, from: set<string>, pinned: set<string>, keep: set<string>,
                                     p: seq<string>, i: nat)
    requires ClosedFrom(edges, from, pinned, keep) && from <= keep
    requires Path(edges, p) && p[0] in from && Avoids(p, pinned) && i < |p|
    ensures p[i] in keep
  {
    if i > 0 { PathStays(edges, from, pinned, keep, p, i - 1); }
  }

  // ----------------------------------------------------------------- worklist

  /** Everything a traversal could ever add. */
  function Targets(edges: seq<Edge>): set<string> { set e | e in edges :: e.target }

  lemma KidsAreTargets(edges: seq<Edge>, id: string, c: string)
    requires c in Kids(edges, id)
    ensures c in Targets(edges)
  {
    InFlatMap(edges, TargetFrom(id), c);
  }

  /** Kept vertices are justified, and those off the stack are expanded. */
  ghost predicate Justified(edges: seq<Edge>, from: set<string>, pinned: set<string>, keep: set<string>) {
    forall x :: x in keep ==> x in pinned || ReachableAvoiding(edges, from, pinned, x)
  }

  ghost predicate Expanded(edges: seq<Edge>, done: set<string>, pinned: set<string>, keep: set<string>,
                           stack: seq<string>) {
    forall x, c :: x in keep && x !in stack && Expands(done, pinned, x) && c in Kids(edges, x) ==> c in keep
  }

  ghost predicate Stacked(edges: seq<Edge>, from: set<string>, pinned: set<string>, keep: set<string>,
                          stack: seq<string>) {
    forall x :: x in stack ==> x in keep && Expands(from, pinned, x) && ReachableAvoiding(edges, from, pinned, x)
  }

  /** Pushes the children of id that are not kept yet. */
  method PushKids(edges: seq<Edge>, kids: seq<string>, ghost from: set<string>, ghost pinned: set<string>,
                  ghost id: string, keep: set<string>, stack: seq<string>)
    returns (keep': set<string>, stack': seq<string>)
    requires kids == Kids(edges, id) && Expands(from, pinned, id) && ReachableAvoiding(edges, from, pinned, id)
    requires Justified(edges, from, pinned, keep) && Stacked(edges, from, pinned, keep, stack) && pinned <= keep
    ensures Justified(edges, from, pinned, keep') && Stacked(edges, from, pinned, keep', stack')
    ensures keep' == keep + (set c | c in kids)
    ensures forall x :: x in keep' - keep ==> x in stack'
    ensures forall x :: x in stack ==> x in stack'
    ensures keep' == keep ==> stack' == stack
    ensures keep' - keep <= Targets(edges)
  {
    keep', stack' := keep, stack;
    for i := 0 to |kids|
      invariant Justified(edges, from, pinned, keep') && Stacked(edges, from, pinned, keep', stack')
      invariant keep' == keep + (set c | c in kids[..i])
      invariant forall x :: x in keep' - keep ==> x in stack'
      invariant forall x :: x in stack ==> x in stack'
      invariant keep' == keep ==> stack' == stack
      invariant keep' - keep <= Targets(edges)
    {
      var c := kids[i];
      if c !in keep' {
        ExtendPath(edges, from, pinned, id, c);
        KidsAreTargets(edges, id, c);
        keep' := keep' + {c};
        stack' := stack' + [c];
      }
    }
    assert kids[..|kids|] == kids;
  }

  /** Expanding the vertex taken off the stack leaves only the new ones to expand. */
  lemma ExpandedStep(edges: seq<Edge>, done: set<string>, pinned: set<string>, keep: set<string>, stack: seq<string>,
                     id: string, keep': set<string>, stack': seq<string>)
    requires Expanded(edges, done, pinned, keep, stack + [id])
    requires keep' == keep + (set c | c in Kids(edges, id))
    requires forall x :: x in keep' - keep ==> x in stack'
    requires forall x :: x in stack ==> x in stack'
    ensures Expanded(edges, done, pinned, keep', stack')
  {
    forall x, c | x in keep' && x !in stack' && Expands(done, pinned, x) && c in Kids(edges, x) ensures c in keep' {
      assert x != id ==> x !in stack + [id];
    }
  }

  lemma StackedLess(edges: seq<Edge>, from: set<string>, pinned: set<string>, keep: set<string>, stack: seq<string>,
                    id: string)
    requires Stacked(edges, from, pinned, keep, stack + [id])
    ensures Stacked(edges, from, pinned, keep, stack)
    ensures id in keep && Expands(from, pinned, id) && ReachableAvoiding(edges, from, pinned, id)
  {
    forall x | x in stack ensures x in stack + [id] {
    }
    assert id in stack + [id];
  }

  /** Takes a vertex off the stack and puts its children on that are not kept yet. */
  method Expand(edges: seq<Edge>, idx: map<string, seq<string>>, ghost from: set<string>, ghost pinned: set<string>,
                ghost done: set<string>, keep: set<string>, stack: seq<string>)
    returns (keep': set<string>, stack': seq<string>)
    requires stack != [] && pinned <= keep
    requires forall id :: KidsIn(idx, id) == Kids(edges, id)
    requires Justified(edges, from, pinned, keep) && Stacked(edges, from, pinned, keep, stack)
    requires Expanded(edges, done, pinned, keep, stack)
    ensures Justified(edges, from, pinned, keep') && Stacked(edges, from, pinned, keep', stack')
    ensures Expanded(edges, done, pinned, keep', stack')
    ensures keep <= keep' && keep' - keep <= Targets(edges)
    ensures keep' == keep ==> |stack'| < |stack|
  {
    var id, left := stack[|stack| - 1], stack[..|stack| - 1];
    assert stack == left + [id];
    StackedLess(edges, from, pinned, keep, left, id);
    keep', stack' := PushKids(edges, KidsIn(idx, id), from, pinned, id, keep, left);
    ExpandedStep(edges, done, pinned, keep, left, id, keep', stack');
  }

  lemma LessIsLeft(universe: set<string>, before: set<string>, after: set<string>)
    requires before <= after <= universe
    ensures universe - after <= universe - before
    ensures after != before ==> universe - after < universe - before
  {
    if after != before {
      var x :| x in after && x !in before;
      assert x in universe - before && x !in universe - after;
    }
  }

  /** The traversal from one selected namespace. */
  method Traverse(edges: seq<Edge>, idx: map<string, seq<string>>, ghost from: set<string>, ghost pinned: set<string>,
                  ghost done: set<string>, start: string, keep: set<string>) returns (keep': set<string>)
    requires forall id :: KidsIn(idx, id) == Kids(edges, id)
    requires start in from && done <= from && pinned <= keep
    requires Justified(edges, from, pinned, keep) && Expanded(edges, done, pinned, keep, [])
    ensures keep <= keep' && start in keep'
    ensures Justified(edges, from, pinned, keep') && Expanded(edges, done + {start}, pinned, keep', [])
  {
    var stack := [start];
    assert PathTo(edges, from, [start], start) && Avoids([start], pinned);
    keep' := keep + {start};
    ghost var universe := keep' + Targets(edges);
    while stack != []
      invariant keep <= keep' <= universe && start in keep' && pinned <= keep'
      invariant Justified(edges, from, pinned, keep') && Stacked(edges, from, pinned, keep', stack)
      invariant Expanded(edges, done + {start}, pinned, keep', stack)
      decreases universe - keep', |stack|
    {
      ghost var before := keep';
      keep', stack := Expand(edges, idx, from, pinned, done + {start}, keep', stack);
      LessIsLeft(universe, before, keep');
    }
  }

  method ComputeVisible(nodes: map<string, Node>, edges: seq<Edge>, filter: seq<string>)
    returns (keep: Option<set<string>>)
    ensures keep.None? <==> filter == []
    ensures keep.Some? ==> forall x :: x in keep.value <==> Shown(nodes, edges, filter, x)
  {
    if filter == [] {
      return None;
    }
    var idx := TreeChildrenIndex(edges);
    var kept := {"Cluster"};
    kept := kept + set id | id in nodes && nodes[id].kind == "Node" :: nodes[id].id;
    ghost var pinned, from := Pinned(nodes), Starts(nodes, filter);
    ghost var done: set<string> := {};
    for i := 0 to |filter|
      invariant pinned <= kept && done <= from && done <= kept
      invariant done == Starts(nodes, filter[..i])
      invariant Justified(edges, from, pinned, kept) && Expanded(edges, done, pinned, kept, [])
    {
      var start := NamespaceId(filter[i]);
      assert filter[..i + 1] == filter[..i] + [filter[i]];
      if start !in nodes {
        continue;
      }
      kept := Traverse(edges, idx, from, pinned, done, start, kept);
      done := done + {start};
    }
    assert filter[..|filter|] == filter;
    assert ClosedFrom(edges, from, pinned, kept);
    forall x ensures x in kept <==> Shown(nodes, edges, filter, x) {
      if x !in pinned && ReachableAvoiding(edges, from, pinned, x) {
        var p :| PathTo(edges, from, p, x) && Avoids(p, pinned);
        PathStays(edges, from, pinned, kept, p, |p| - 1);
      }
    }
    keep := Some(kept);
  }

  // --------------------------------------------------------------------- laws

  /** The tree edges that a traversal may follow: those out of a pinned vertex only
      if it is where the selection starts. */
  function Followed(edges: seq<Edge>, from: set<string>, pinned: set<string>): seq<Edge> {
    Filter(edges, (e: Edge) => e.source in from || e.source !in pinned)
  }

  lemma OneMoreKid(edges: seq<Edge>, e: Edge, id: string)
    ensures Kids(edges + [e], id)
            == if IsTreeEdge(e) && e.source == id then Kids(edges, id) + [e.target] else Kids(edges, id)
  {
    assert (edges + [e])[..|edges|] == edges;
    assert Kids(edges + [e], id) == Kids(edges, id) + TargetFrom(id)(e);
  }

  lemma FollowedOne(edges: seq<Edge>, e: Edge, from: set<string>, pinned: set<string>)
    ensures Followed(edges + [e], from, pinned)
            == if e.source in from || e.source !in pinned
               then Followed(edges, from, pinned) + [e] else Followed(edges, from, pinned)
  {
    var p := (e: Edge) => e.source in from || e.source !in pinned;
    assert (edges + [e])[..|edges|] == edges;
    assert Filter(edges + [e], p) == Filter(edges, p) + if p(e) then [e] else [];
  }

  lemma {:induction false} FollowedKids(edges: seq<Edge>, from: set<string>, pinned: set<string>, id: string)
    ensures Kids(Followed(edges, from, pinned), id) == if Expands(from, pinned, id) then Kids(edges, id) else []
    decreases |edges|
  {
    if edges != [] {
      var init, e := edges[..|edges| - 1], edges[|edges| - 1];
      FollowedKids(init, from, pinned, id);
      var kept := Followed(init, from, pinned);
      assert edges == init + [e];
      OneMoreKid(kept, e, id);
      OneMoreKid(init, e, id);
      FollowedOne(init, e, from, pinned);
    }
  }

  /** Every pinned vertex's children that the selection reaches through it are
      pinned themselves or reached along followed edges. */
  ghost predicate PinnedCostNothing(edges: seq<Edge>, from: set<string>, pinned: set<string>) {
    forall x, c :: x in pinned && Reachable(edges, from, x) && c in Kids(edges, x) ==>
      c in pinned || Reachable(Followed(edges, from, pinned), from, c)
  }

  lemma {:induction false} FollowedPath(edges: seq<Edge>, from: set<string>, pinned: set<string>, p: seq<string>,
                                        i: nat)
    requires Path(Followed(edges, from, pinned), p) && p[0] in from && i < |p|
    ensures Reachable(edges, from, p[i]) && ReachableAvoiding(edges, from, pinned, p[i])
  {
    if i == 0 {
      assert PathTo(edges, from, [p[0]], p[0]) && Avoids([p[0]], pinned);
    } else {
      FollowedPath(edges, from, pinned, p, i - 1);
      FollowedKids(edges, from, pinned, p[i - 1]);
      ExtendPath(edges, from, pinned, p[i - 1], p[i]);
      var q :| PathTo(edges, from, q, p[i]) && Avoids(q, pinned);
    }
  }

  /** Walks along followed edges are the walks that avoid pinned vertices. */
  lemma FollowedIff(edges: seq<Edge>, from: set<string>, pinned: set<string>, x: string)
    ensures Reachable(Followed(edges, from, pinned), from, x) <==> ReachableAvoiding(edges, from, pinned, x)
  {
    if Reachable(Followed(edges, from, pinned), from, x) {
      var p :| PathTo(Followed(edges, from, pinned), from, p, x);
      FollowedPath(edges, from, pinned, p, |p| - 1);
    }
    if ReachableAvoiding(edges, from, pinned, x) {
      var p :| PathTo(edges, from, p, x) && Avoids(p, pinned);
      forall i | 0 < i < |p| ensures p[i] in Kids(Followed(edges, from, pinned), p[i - 1]) {
        FollowedKids(edges, from, pinned, p[i - 1]);
      }
      assert PathTo(Followed(edges, from, pinned), from, p, x);
    }
  }

  lemma StepFurther(edges: seq<Edge>, from: set<string>, x: string, c: string)
    requires Reachable(edges, from, x) && c in Kids(edges, x)
    ensures Reachable(edges, from, c)
  {
    var p :| PathTo(edges, from, p, x);
    assert PathTo(edges, from, p + [c], c);
  }

  /** The shown set is the full closure exactly when leaving pinned vertices
      unexpanded costs nothing: a condition on the tree edges alone. */
  lemma ShownIsClosureIff(nodes: map<string, Node>, edges: seq<Edge>, filter: seq<string>)
    ensures var pinned, from := Pinned(nodes), Starts(nodes, filter);
      (forall x :: Reachable(edges, from, x) ==> Shown(nodes, edges, filter, x)) <==>
          PinnedCostNothing(edges, from, pinned)
  {
    var pinned, from := Pinned(nodes), Starts(nodes, filter);
    forall x
      ensures Shown(nodes, edges, filter, x) <==> x in pinned || Reachable(Followed(edges, from, pinned), from, x)
    {
      FollowedIff(edges, from, pinned, x);
    }
    if forall x :: Reachable(edges, from, x) ==> Shown(nodes, edges, filter, x) {
      forall x, c | x in pinned && Reachable(edges, from, x) && c in Kids(edges, x)
        ensures c in pinned || Reachable(Followed(edges, from, pinned), from, c)
      {
        StepFurther(edges, from, x, c);
      }
    }
    if PinnedCostNothing(edges, from, pinned) {
      forall x | Reachable(edges, from, x) ensures Shown(nodes, edges, filter, x) {
        var p :| PathTo(edges, from, p, x);
        PathShown(nodes, edges, filter, p, |p| - 1);
      }
    }
  }

  lemma {:induction false} PathShown(nodes: map<string, Node>, edges: seq<Edge>, filter: seq<string>, p: seq<string>,
                                     i: nat)
    requires Path(edges, p) && p[0] in Starts(nodes, filter) && i < |p|
    requires PinnedCostNothing(edges, Starts(nodes, filter), Pinned(nodes))
    ensures Shown(nodes, edges, filter, p[i])
  {
    var pinned, from := Pinned(nodes), Starts(nodes, filter);
    if i == 0 {
      assert PathTo(edges, from, [p[0]], p[0]) && Avoids([p[0]], pinned);
    } else {
      PathShown(nodes, edges, filter, p, i - 1);
      if p[i - 1] in pinned {
        assert PathTo(edges, from, p[..i], p[i - 1]);
        FollowedIff(edges, from, pinned, p[i]);
      } else {
        ExtendPath(edges, from, pinned, p[i - 1], p[i]);
      }
    }
  }

  /** Where the tree enters Nodes from the Cluster alone and never enters the
      Cluster, as in a built graph, the shown set is the full closure. */
  lemma TreesAreShownInFull(nodes: map<string, Node>, edges: seq<Edge>, filter: seq<string>, x: string)
    requires forall e :: e in edges && IsTreeEdge(e) && e.target in Pinned(nodes) ==> e.source == "Cluster" != e.target
    requires Reachable(edges, Starts(nodes, filter), x)
    ensures Shown(nodes, edges, filter, x)
  {
    var pinned, from := Pinned(nodes), Starts(nodes, filter);
    var p :| PathTo(edges, from, p, x);
    forall i | 0 < i < |p| ensures p[i] !in pinned {
      StaysOff(nodes, edges, filter, p, i);
    }
    assert Avoids(p, pinned);
  }

  lemma {:induction false} StaysOff(nodes: map<string, Node>, edges: seq<Edge>, filter: seq<string>, p: seq<string>,
                                    i: nat)
    requires forall e :: e in edges && IsTreeEdge(e) && e.target in Pinned(nodes) ==> e.source == "Cluster" != e.target
    requires Path(edges, p) && p[0] in Starts(nodes, filter) && i < |p|
    ensures p[i] != "Cluster" && (i > 0 ==> p[i] !in Pinned(nodes))
  {
    if i == 0 {
      StartIsNotCluster(nodes, filter, p[0]);
    } else {
      StaysOff(nodes, edges, filter, p, i - 1);
      InFlatMap(edges, TargetFrom(p[i - 1]), p[i]);
      var e :| e in edges && p[i] in TargetFrom(p[i - 1])(e);
    }
  }

  lemma StartIsNotCluster(nodes: map<string, Node>, filter: seq<string>, x: string)
    requires x in Starts(nodes, filter)
    ensures x != "Cluster"
  {
    var ns :| ns in filter && x == NamespaceId(ns);
    assert x[0] == 'N';
  }

  lemma BehindPinned(edges: seq<Edge>, pinned: set<string>, a: string, m: string, x: string)
    requires Kids(edges, a) == [m] && Kids(edges, m) == [x] && m in pinned && x !in pinned && x != a && m != a
    ensures Reachable(edges, {a}, x) && !ReachableAvoiding(edges, {a}, pinned, x)
  {
    assert PathTo(edges, {a}, [a, m, x], x);
    forall p | PathTo(edges, {a}, p, x) ensures !Avoids(p, pinned) {
      assert |p| > 1 && p[1] == m;
    }
  }

  /** A pinned vertex on the way hides what lies behind it. No build makes such a
      graph: in a built one the Cluster alone has edges to Nodes. */
  lemma PinnedHidesExample() returns (nodes: map<string, Node>, edges: seq<Edge>, x: string)
    ensures Reachable(edges, Starts(nodes, ["a"]), x) && !Shown(nodes, edges, ["a"], x)
  {
    var a := Node("Namespace/a", "Namespace", "a", "", "healthy", 1.0, [], map[]);
    var m := Node("Node/m", "Node", "m", "", "healthy", 1.0, [], map[]);
    nodes := map[a.id := a, m.id := m];
    x := "Pod/a/p";
    var e0, e1 := Edge("contains:1", a.id, m.id, "contains"), Edge("contains:2", m.id, x, "contains");
    edges := [e0, e1];
    ExampleKids(e0, e1);
    ExampleSets(nodes, a, m);
    BehindPinned(edges, Pinned(nodes), a.id, m.id, x);
  }

  lemma ExampleSets(nodes: map<string, Node>, a: Node, m: Node)
    requires nodes == map[a.id := a, m.id := m] && a.id == "Namespace/a" && m.id == "Node/m"
    requires a.kind == "Namespace" && m.kind == "Node"
    ensures Starts(nodes, ["a"]) == {a.id} && Pinned(nodes) == {"Cluster", m.id}
  {
    assert NamespaceId("a") == a.id && "a" in ["a"];
    assert |a.id| != |m.id| && |a.kind| != |m.kind|;
    assert nodes[a.id] == a && nodes[m.id] == m && m.id in nodes;
    assert (set id | id in nodes && nodes[id].kind == "Node" :: nodes[id].id) == {m.id} by {
      forall id | id in nodes && nodes[id].kind == "Node" ensures nodes[id].id == m.id {}
    }
  }

  lemma ExampleKids(e0: Edge, e1: Edge)
    requires IsTreeEdge(e0) && IsTreeEdge(e1) && e0.source != e1.source
    ensures forall id ::
              Kids([e0, e1], id)
              == if id == e0.source then [e0.target] else if id == e1.source then [e1.target] else []
  {
    forall id
      ensures Kids([e0, e1], id) == if id == e0.source then [e0.target] else if id == e1.source then [e1.target] else []
    {
      FlatMapOne(e0, TargetFrom(id));
      FlatMapStep([e0, e1], 1, TargetFrom(id));
      assert [e0, e1][..1] == [e0] && [e0, e1][..2] == [e0, e1];
    }
  }
}
