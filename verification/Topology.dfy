/** The graph model and its diff (internal/topology/topology.go). */
module Topology {
  import opened Keyed

  datatype Node = Node(id: string, kind: string, name: string, namespace: string,
                       health: string, score: real, reasons: seq<string>, meta: map<string, string>)

  datatype Edge = Edge(id: string, source: string, target: string, kind: string)

  /** updatedAt == 0 is Go's zero time. */
  datatype Graph = Graph(nodes: seq<Node>, edges: seq<Edge>, updatedAt: int)

  datatype MsgType = MsgSnapshot | MsgDiff

  datatype Diff = Diff(msgType: MsgType, upsertNodes: seq<Node>, upsertEdges: seq<Edge>,
                       removeNodes: seq<string>, removeEdges: seq<string>, timestamp: int)
  {
    predicate Empty() {
      |upsertNodes| == 0 && |upsertEdges| == 0 && |removeNodes| == 0 && |removeEdges| == 0
    }
  }

  /** A graph as the ID-indexed maps that the client holds. */
  datatype View = View(nodes: map<string, Node>, edges: map<string, Edge>)

  const EMPTY_VIEW := View(map[], map[])
  const ZERO_GRAPH := Graph([], [], 0)

  function NodeId(n: Node): string { n.id }

  function EdgeId(e: Edge): string { e.id }

  /** The edges that the dashboard draws its tree from. */
  predicate IsTreeEdge(e: Edge) { e.kind == "contains" || e.kind == "backs" }

  /** Reads an absent key as "", as Go's map lookup does. */
  function Lookup(m: map<string, string>, k: string): string {
    if k in m then m[k] else ""
  }

  // ---------------------------------------------------------------- nodeEqual

  predicate SameScalars(a: Node, b: Node) {
    && a.id == b.id && a.kind == b.kind && a.name == b.name && a.namespace == b.namespace
    && a.health == b.health && a.score == b.score
  }

  /** What nodeEqual decides. It is weaker than equality, and not symmetric. */
  predicate NodesAgree(a: Node, b: Node) {
    && SameScalars(a, b)
    && a.reasons == b.reasons
    && |a.meta| == |b.meta|
    && forall k :: k in a.meta ==> Lookup(b.meta, k) == a.meta[k]
  }

  /** Every key that `before` maps to "" is still a key of `after`. */
  predicate BlankKeysKept(before: map<string, string>, after: map<string, string>) {
    forall k :: k in before && before[k] == "" ==> k in after
  }

  method NodeEqual(a: Node, b: Node) returns (r: bool)
    ensures r <==> NodesAgree(a, b)
  {
    if !SameScalars(a, b) {
      return false;
    }
    if |a.reasons| != |b.reasons| || |a.meta| != |b.meta| {
      return false;
    }
    for i := 0 to |a.reasons|
      invariant a.reasons[..i] == b.reasons[..i]
    {
      if a.reasons[i] != b.reasons[i] {
        return false;
      }
    }
    assert a.reasons == a.reasons[..|a.reasons|] && b.reasons == b.reasons[..|b.reasons|];
    var rest := a.meta.Keys;
    while rest != {}
      invariant rest <= a.meta.Keys
      invariant forall k :: k in a.meta && k !in rest ==> Lookup(b.meta, k) == a.meta[k]
      decreases |rest|
    {
      var k :| k in rest;
      if Lookup(b.meta, k) != a.meta[k] {
        return false;
      }
      rest := rest - {k};
    }
    return true;
  }

  /** nodeEqual is equality exactly on nodes whose blank Meta keys survive. */
  lemma AgreeIsEqualIff(a: Node, b: Node)
    requires NodesAgree(a, b)
    ensures a == b <==> BlankKeysKept(a.meta, b.meta)
  {
    if BlankKeysKept(a.meta, b.meta) {
      assert a.meta.Keys <= b.meta.Keys;
      SubsetOfSameSize(a.meta.Keys, b.meta.Keys);
      assert a.meta == b.meta;
    }
  }

  lemma SubsetOfSameSize<T>(a: set<T>, b: set<T>)
    requires a <= b && |a| == |b|
    ensures a == b
  {
    assert |b - a| == |b| - |a|;
  }

  // -------------------------------------------------------------------- index

  function Index(g: Graph): View {
    View(PutAll(map[], g.nodes, NodeId), PutAll(map[], g.edges, EdgeId))
  }

  method BuildIndex(g: Graph) returns (nodes: map<string, Node>, edges: map<string, Edge>)
    ensures View(nodes, edges) == Index(g)
  {
    nodes := SetEach(map[], g.nodes, NodeId);
    edges := SetEach(map[], g.edges, EdgeId);
  }

  // --------------------------------------------------------------------- diff

  function ChangedNodes(was: map<string, Node>, now: map<string, Node>): set<string> {
    set id | id in now && (id !in was || !NodesAgree(was[id], now[id]))
  }

  function ChangedEdges(was: map<string, Edge>, now: map<string, Edge>): set<string> {
    set id | id in now && (id !in was || was[id] != now[id])
  }

  ghost predicate ListsIds(xs: seq<string>, ids: set<string>) {
    && (forall i, j :: 0 <= i < j < |xs| ==> xs[i] != xs[j])
    && (forall id :: id in xs <==> id in ids)
  }

  /** d says exactly what changed from prev to g, in some order. */
  ghost predicate IsDiff(prev: Graph, g: Graph, d: Diff) {
    var o, n := Index(prev), Index(g);
    && d.msgType == MsgDiff
    && d.timestamp == g.updatedAt
    && Lists(d.upsertNodes, NodeId, ChangedNodes(o.nodes, n.nodes), n.nodes)
    && Lists(d.upsertEdges, EdgeId, ChangedEdges(o.edges, n.edges), n.edges)
    && ListsIds(d.removeNodes, o.nodes.Keys - n.nodes.Keys)
    && ListsIds(d.removeEdges, o.edges.Keys - n.edges.Keys)
  }

  lemma ListsExtend<V>(xs: seq<V>, key: V -> string, keys: set<string>, index: map<string, V>, x: V)
    requires Lists(xs, key, keys, index) && key(x) !in keys && key(x) in index && x == index[key(x)]
    ensures Lists(xs + [x], key, keys + {key(x)}, index)
  {
    forall k | k in keys + {key(x)} ensures Written(xs + [x], key, k) {
      if k in keys {
        var i :| 0 <= i < |xs| && key(xs[i]) == k;
        assert key((xs + [x])[i]) == k;
      } else {
        assert key((xs + [x])[|xs|]) == k;
      }
    }
  }

  lemma IndexKeysAreIds(g: Graph)
    ensures forall id :: id in Index(g).nodes ==> Index(g).nodes[id].id == id
    ensures forall id :: id in Index(g).edges ==> Index(g).edges[id].id == id
  {
    PutAllKeyed(g.nodes, NodeId);
    PutAllKeyed(g.edges, EdgeId);
  }

  lemma {:induction false} PutAllKeyed<V>(xs: seq<V>, key: V -> string)
    ensures forall k :: k in PutAll(map[], xs, key) ==> key(PutAll(map[], xs, key)[k]) == k
    decreases |xs|
  {
    if xs != [] { PutAllKeyed(xs[..|xs| - 1], key); }
  }

  /** Each of the four loops ranges over a map in an order of its own choosing. */
  method DiffAgainst(g: Graph, prev: Graph) returns (d: Diff)
    ensures IsDiff(prev, g, d)
  {
    var oldNodes, oldEdges := BuildIndex(prev);
    var newNodes, newEdges := BuildIndex(g);
    IndexKeysAreIds(g);
    var upsertNodes := ChangedNodesListed(oldNodes, newNodes);
    var removeNodes := GoneIds(oldNodes.Keys, newNodes.Keys);
    var upsertEdges := ChangedEdgesListed(oldEdges, newEdges);
    var removeEdges := GoneIds(oldEdges.Keys, newEdges.Keys);
    d := Diff(MsgDiff, upsertNodes, upsertEdges, removeNodes, removeEdges, g.updatedAt);
  }

  method ChangedNodesListed(oldNodes: map<string, Node>, newNodes: map<string, Node>) returns (out: seq<Node>)
    requires forall id :: id in newNodes ==> newNodes[id].id == id
    ensures Lists(out, NodeId, ChangedNodes(oldNodes, newNodes), newNodes)
  {
    out := [];
    var rest := newNodes.Keys;
    while rest != {}
      invariant rest <= newNodes.Keys
      invariant Lists(out, NodeId, ChangedNodes(oldNodes, newNodes) - rest, newNodes)
      decreases |rest|
    {
      var id :| id in rest;
      ghost var done := ChangedNodes(oldNodes, newNodes) - rest;
      var changed := true;
      if id in oldNodes {
        var same := NodeEqual(oldNodes[id], newNodes[id]);
        changed := !same;
      }
      rest := rest - {id};
      if changed {
        ListsExtend(out, NodeId, done, newNodes, newNodes[id]);
        assert ChangedNodes(oldNodes, newNodes) - rest == done + {id};
        out := out + [newNodes[id]];
      } else {
        assert ChangedNodes(oldNodes, newNodes) - rest == done;
      }
    }
    assert ChangedNodes(oldNodes, newNodes) - {} == ChangedNodes(oldNodes, newNodes);
  }

  method ChangedEdgesListed(oldEdges: map<string, Edge>, newEdges: map<string, Edge>) returns (out: seq<Edge>)
    requires forall id :: id in newEdges ==> newEdges[id].id == id
    ensures Lists(out, EdgeId, ChangedEdges(oldEdges, newEdges), newEdges)
  {
    out := [];
    var rest := newEdges.Keys;
    while rest != {}
      invariant rest <= newEdges.Keys
      invariant Lists(out, EdgeId, ChangedEdges(oldEdges, newEdges) - rest, newEdges)
      decreases |rest|
    {
      var id :| id in rest;
      ghost var done := ChangedEdges(oldEdges, newEdges) - rest;
      rest := rest - {id};
      if id !in oldEdges || oldEdges[id] != newEdges[id] {
        ListsExtend(out, EdgeId, done, newEdges, newEdges[id]);
        assert ChangedEdges(oldEdges, newEdges) - rest == done + {id};
        out := out + [newEdges[id]];
      } else {
        assert ChangedEdges(oldEdges, newEdges) - rest == done;
      }
    }
    assert ChangedEdges(oldEdges, newEdges) - {} == ChangedEdges(oldEdges, newEdges);
  }

  method GoneIds(before: set<string>, after: set<string>) returns (out: seq<string>)
    ensures ListsIds(out, before - after)
  {
    out := [];
    var rest := before;
    while rest != {}
      invariant rest <= before
      invariant ListsIds(out, before - after - rest)
      decreases |rest|
    {
      var id :| id in rest;
      rest := rest - {id};
      if id !in after {
        out := out + [id];
      }
    }
  }

  function AsSnapshot(g: Graph): Diff {
    Diff(MsgSnapshot, g.nodes, g.edges, [], [], g.updatedAt)
  }

  // -------------------------------------------------------------------- patch

  /** What the client's applyMessage leaves in its maps. */
  function Apply(v: View, d: Diff): View {
    var base := if d.msgType == MsgSnapshot then EMPTY_VIEW else v;
    View(PutAll(base.nodes, d.upsertNodes, NodeId) - (set id | id in d.removeNodes),
         PutAll(base.edges, d.upsertEdges, EdgeId) - (set id | id in d.removeEdges))
  }

  /** No node that nodeEqual takes for unchanged has lost a blank Meta key. */
  predicate Disciplined(prev: Graph, g: Graph) {
    var o, n := Index(prev).nodes, Index(g).nodes;
    forall id :: id in o && id in n && NodesAgree(o[id], n[id]) ==> BlankKeysKept(o[id].meta, n[id].meta)
  }

  /** m with the keys in `changed` taken from `index` and those in `gone` removed. */
  ghost function Patched<V>(m: map<string, V>, changed: set<string>, index: map<string, V>,
                            gone: set<string>): map<string, V>
    requires changed <= index.Keys
  {
    map k | k in (m.Keys + changed) - gone :: if k in changed then index[k] else m[k]
  }

  /** Upserting a listing and deleting a listing, whatever order they list in. */
  lemma PutAndDelete<V>(m: map<string, V>, xs: seq<V>, key: V -> string, changed: set<string>,
                        index: map<string, V>, ids: seq<string>, gone: set<string>)
    requires Lists(xs, key, changed, index) && changed <= index.Keys && ListsIds(ids, gone)
    ensures PutAll(m, xs, key) - (set id | id in ids) == Patched(m, changed, index, gone)
  {
    PutAllListed(m, xs, key, changed, index);
    assert (set id | id in ids) == gone;
  }

  /** What patching any view with a diff does. */
  lemma PatchContents(prev: Graph, g: Graph, d: Diff, v: View)
    requires IsDiff(prev, g, d)
    ensures Apply(v, d).nodes == Patched(v.nodes, ChangedNodes(Index(prev).nodes, Index(g).nodes),
                                         Index(g).nodes, Index(prev).nodes.Keys - Index(g).nodes.Keys)
    ensures Apply(v, d).edges == Patched(v.edges, ChangedEdges(Index(prev).edges, Index(g).edges),
                                         Index(g).edges, Index(prev).edges.Keys - Index(g).edges.Keys)
  {
    var o, n := Index(prev), Index(g);
    PutAndDelete(v.nodes, d.upsertNodes, NodeId, ChangedNodes(o.nodes, n.nodes), n.nodes,
                 d.removeNodes, o.nodes.Keys - n.nodes.Keys);
    PutAndDelete(v.edges, d.upsertEdges, EdgeId, ChangedEdges(o.edges, n.edges), n.edges,
                 d.removeEdges, o.edges.Keys - n.edges.Keys);
  }

  /** Patching does not depend on the iteration order that produced the diff. */
  lemma PatchIsOrderBlind(prev: Graph, g: Graph, d: Diff, d': Diff, v: View)
    requires IsDiff(prev, g, d) && IsDiff(prev, g, d')
    ensures Apply(v, d) == Apply(v, d')
  {
    PatchContents(prev, g, d, v);
    PatchContents(prev, g, d', v);
  }

  /** Patching the old index gives the new one exactly for disciplined pairs. */
  lemma PatchLaw(prev: Graph, g: Graph, d: Diff)
    requires IsDiff(prev, g, d)
    ensures Apply(Index(prev), d) == Index(g) <==> Disciplined(prev, g)
  {
    var o, n := Index(prev), Index(g);
    PatchContents(prev, g, d, o);
    var p := Apply(o, d);
    assert p.edges == n.edges;
    assert p.nodes.Keys == n.nodes.Keys;
    forall id | id in o.nodes && id in n.nodes && NodesAgree(o.nodes[id], n.nodes[id])
      ensures p.nodes[id] == o.nodes[id]
      ensures p.nodes[id] == n.nodes[id] <==> BlankKeysKept(o.nodes[id].meta, n.nodes[id].meta)
    {
      AgreeIsEqualIff(o.nodes[id], n.nodes[id]);
    }
    if Disciplined(prev, g) {
      forall id | id in n.nodes ensures p.nodes[id] == n.nodes[id] {}
    }
  }

  /** A real change is listed once, and never both as an upsert and a removal. */
  lemma DiffIsMinimal(prev: Graph, g: Graph, d: Diff)
    requires IsDiff(prev, g, d)
    ensures forall i :: 0 <= i < |d.upsertNodes| ==>
      var n := d.upsertNodes[i];
      n.id !in d.removeNodes && (n.id in Index(prev).nodes ==> Index(prev).nodes[n.id] != n)
    ensures forall i :: 0 <= i < |d.upsertEdges| ==>
      var e := d.upsertEdges[i];
      e.id !in d.removeEdges && (e.id in Index(prev).edges ==> Index(prev).edges[e.id] != e)
  {
    forall i | 0 <= i < |d.upsertNodes|
      ensures d.upsertNodes[i].id !in d.removeNodes
      ensures d.upsertNodes[i].id in Index(prev).nodes ==> Index(prev).nodes[d.upsertNodes[i].id] != d.upsertNodes[i]
    {
      var n := d.upsertNodes[i];
      assert NodeId(n) in ChangedNodes(Index(prev).nodes, Index(g).nodes);
      assert NodesAgree(n, n);
    }
    forall i | 0 <= i < |d.upsertEdges|
      ensures d.upsertEdges[i].id !in d.removeEdges
      ensures d.upsertEdges[i].id in Index(prev).edges ==> Index(prev).edges[d.upsertEdges[i].id] != d.upsertEdges[i]
    {
      assert EdgeId(d.upsertEdges[i]) in ChangedEdges(Index(prev).edges, Index(g).edges);
    }
  }

  /** Applying an empty diff changes nothing. */
  lemma EmptyDiffIsIdle(v: View, d: Diff)
    requires d.msgType == MsgDiff && d.Empty()
    ensures Apply(v, d) == v
  {
    assert (set id | id in d.removeNodes) == {} && (set id | id in d.removeEdges) == {};
  }

  lemma DiffOfNothing(prev: Graph, g: Graph, d: Diff)
    requires IsDiff(prev, g, d)
    requires Index(prev).nodes.Keys == Index(g).nodes.Keys && Index(prev).edges == Index(g).edges
    requires forall id :: id in Index(g).nodes ==> NodesAgree(Index(prev).nodes[id], Index(g).nodes[id])
    ensures d.Empty()
  {
    var o, n := Index(prev), Index(g);
    assert ChangedNodes(o.nodes, n.nodes) == {} && ChangedEdges(o.edges, n.edges) == {};
    ListsNothing(d.upsertNodes, NodeId, n.nodes);
    ListsNothing(d.upsertEdges, EdgeId, n.edges);
    ListsNoIds(d.removeNodes);
    ListsNoIds(d.removeEdges);
  }

  lemma HeadListed<V>(xs: seq<V>, key: V -> string, keys: set<string>, index: map<string, V>)
    requires Lists(xs, key, keys, index) && xs != []
    ensures key(xs[0]) in keys
  {
  }

  lemma ListsNothing<V>(xs: seq<V>, key: V -> string, index: map<string, V>)
    requires Lists(xs, key, {}, index)
    ensures xs == []
  {
    if xs != [] { HeadListed(xs, key, {}, index); }
  }

  lemma ListsNoIds(xs: seq<string>)
    requires ListsIds(xs, {})
    ensures xs == []
  {
    if xs != [] { HeadIsIn(xs); }
  }

  lemma HeadIsIn<T>(xs: seq<T>)
    requires xs != []
    ensures xs[0] in xs
  {
  }

  /** Equal indexes always diff to nothing; an empty diff means equal indexes
      exactly for disciplined pairs. */
  lemma EmptyDiffIff(prev: Graph, g: Graph, d: Diff)
    requires IsDiff(prev, g, d)
    ensures Index(prev) == Index(g) ==> d.Empty()
    ensures d.Empty() ==> (Index(prev) == Index(g) <==> Disciplined(prev, g))
  {
    if Index(prev) == Index(g) {
      var n := Index(g).nodes;
      assert forall id :: id in n ==> NodesAgree(n[id], n[id]);
      DiffOfNothing(prev, g, d);
    }
    if d.Empty() {
      EmptyDiffIsIdle(Index(prev), d);
      PatchLaw(prev, g, d);
    }
  }

  /** A snapshot replaces whatever the client had. */
  lemma SnapshotLaw(v: View, g: Graph)
    ensures Apply(v, AsSnapshot(g)) == Index(g)
  {
    assert (set id | id in AsSnapshot(g).removeNodes) == {} && (set id | id in AsSnapshot(g).removeEdges) == {};
  }

  /** The comparison is not symmetric. */
  lemma AgreeIsOneSided() returns (a: Node, b: Node)
    ensures NodesAgree(a, b) && !NodesAgree(b, a)
  {
    a := Node("n", "", "", "", "", 0.0, [], map["x" := ""]);
    b := a.(meta := map["y" := "z"]);
    assert |a.meta| == |b.meta| && Lookup(b.meta, "x") == "";
    assert "y" in b.meta && Lookup(a.meta, "y") != b.meta["y"];
  }
}
