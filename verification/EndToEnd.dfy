/** From the caches to the screen: what the dashboard can rely on for graphs that
    buildGraph made. */
module EndToEnd {
  import opened Seqs
  import opened Keyed
  import opened Topology
  import opened Build
  import opened BuildLaws
  import opened Forest
  import Discipline
  import Visible
  import D = Dashboard
  import Order
  import Ids
  import Restart

  /** No two claims name the same volume. */
  ghost predicate VolumesClaimedOnce(g: Graph) {
    forall x, y :: x in g.edges && y in g.edges && x.kind == "backs" && y.kind == "backs" && x.target == y.target ==>
        x == y
  }

  lemma NodeIsIndexed(e: Env, l: Lists, n: Node)
    requires Hygienic(e, l) && n in Built(e, l).nodes
    ensures n.id in Index(Built(e, l)).nodes
    ensures Index(Built(e, l)).nodes[n.id].id == n.id && Index(Built(e, l)).nodes[n.id] in Built(e, l).nodes
  {
    var ns := Built(e, l).nodes;
    PutAllLookup(map[], ns, NodeId, n.id);
    var i := PositionIn(ns, n);
    assert NodeId(ns[i]) == n.id;
    Discipline.IndexedIsMember(ns, n.id);
  }

  /** A containment edge never enters a volume. */
  lemma ContainsOrBacks(e: Env, l: Lists, x: Edge, y: Edge)
    requires x in AllEdges(e, l) && y in AllEdges(e, l) && x.kind == "contains" && y.kind == "backs"
    ensures x.target != y.target
  {
    var p, k := EdgeComesFrom(e, l, x);
    var q, k' := EdgeComesFrom(e, l, y);
    TreeEdgeKind(x, k);
    TreeEdgeKind(y, k');
    if x.target == y.target {
      assert IdHasKind(x.target, KPV);
      assert IdHasKind(p.node.id, p.kind);
      IdHasOneKind(x.target, KPV, p.kind);
    }
  }

  lemma TreeEntriesDiffer(e: Env, l: Lists, x: Edge, y: Edge)
    requires Hygienic(e, l) && VolumesClaimedOnce(Built(e, l)) && x in Built(e, l).edges && y in Built(e, l).edges
    requires IsTreeEdge(x) && IsTreeEdge(y) && x.target == y.target
    ensures x == y
  {
    EdgesAreExact(e, l);
    if x.kind == "contains" && y.kind == "contains" {
      OneContainer(e, l, x, y);
    } else if x.kind == "contains" {
      ContainsOrBacks(e, l, x, y);
    } else if y.kind == "contains" {
      ContainsOrBacks(e, l, y, x);
    }
  }

  lemma AscendingNoRepeats(g: Graph)
    requires Order.Ascending(g.edges, ByEdgeId)
    ensures NoRepeats(g.edges)
  {
    forall i, j | 0 <= i < j < |g.edges| ensures g.edges[i] != g.edges[j] {
      Order.LessTotal(g.edges[i].id, g.edges[j].id);
    }
  }

  ghost predicate EntriesDiffer(edges: seq<Edge>) {
    forall x, y :: x in edges && y in edges && IsTreeEdge(x) && IsTreeEdge(y) && x.target == y.target ==> x == y
  }

  lemma EnteredOnceFrom(edges: seq<Edge>)
    requires NoRepeats(edges) && EntriesDiffer(edges)
    ensures D.EnteredOnce(edges)
  {
    forall i, j | 0 <= i < j < |edges| && IsTreeEdge(edges[i]) && IsTreeEdge(edges[j])
      ensures edges[i].target != edges[j].target
    {
      assert edges[i] in edges && edges[j] in edges && edges[i] != edges[j];
    }
  }

  lemma BuiltEntriesDiffer(e: Env, l: Lists)
    requires Hygienic(e, l) && VolumesClaimedOnce(Built(e, l))
    ensures EntriesDiffer(Built(e, l).edges)
  {
    var edges := Built(e, l).edges;
    forall x, y | x in edges && y in edges && IsTreeEdge(x) && IsTreeEdge(y) && x.target == y.target ensures x == y {
      TreeEntriesDiffer(e, l, x, y);
    }
  }

  lemma BuiltNoRepeats(e: Env, l: Lists)
    requires Hygienic(e, l)
    ensures NoRepeats(Built(e, l).edges)
  {
    EdgesAreExact(e, l);
    AscendingNoRepeats(Built(e, l));
  }

  /** The dashboard's maps for a built graph are tree-like, whatever order the
      edges arrived in, as long as no volume is claimed twice. */
  lemma BuiltIsTreeLike(e: Env, l: Lists, edges: seq<Edge>)
    requires Hygienic(e, l) && VolumesClaimedOnce(Built(e, l)) && Permuted(Built(e, l).edges, edges)
    ensures D.TreeLike(Index(Built(e, l)).nodes, edges)
  {
    PermutedMembers(Built(e, l).edges, edges);
    BuiltNoRepeats(e, l);
    NoRepeatsPermuted(Built(e, l).edges, edges);
    BuiltEntriesDiffer(e, l);
    EnteredOnceFrom(edges);
    forall x | x in edges && IsTreeEdge(x) { EndsIndexed(e, l, x); }
  }

  lemma EndsIndexed(e: Env, l: Lists, x: Edge)
    requires Hygienic(e, l) && x in Built(e, l).edges && IsTreeEdge(x)
    ensures var nodes := Index(Built(e, l)).nodes;
      x.source in nodes && x.target in nodes && TextDepth(nodes[x.source].kind) < TextDepth(nodes[x.target].kind)
  {
    var g := Built(e, l);
    BuiltIsForest(e, l);
    var s :| s in g.nodes && s.id == x.source;
    var t :| t in g.nodes && t.id == x.target;
    NodeIsIndexed(e, l, s);
    NodeIsIndexed(e, l, t);
    DepthAlong(g, x, Index(g).nodes[s.id], Index(g).nodes[t.id]);
  }

  lemma DepthAlong(g: Graph, x: Edge, s: Node, t: Node)
    requires DepthGrows(g) && x in g.edges && IsTreeEdge(x) && s in g.nodes && t in g.nodes && s.id == x.source
    requires t.id == x.target
    ensures TextDepth(s.kind) < TextDepth(t.kind)
  {
  }

  lemma ContainsTarget(x: Edge, s: Kind, t: Kind)
    requires Holds(x, s, t)
    ensures t != KCluster && IdHasKind(x.target, t)
    ensures t == KNode ==> x.source == CLUSTER_ID
  {
  }

  /** A tree edge's target, and who points at it. */
  lemma TreeTarget(e: Env, l: Lists, x: Edge) returns (k: Kind)
    requires x in AllEdges(e, l) && IsTreeEdge(x)
    ensures k != KCluster && IdHasKind(x.target, k)
    ensures k == KNode ==> x.source == CLUSTER_ID
  {
    var p, ek := EdgeComesFrom(e, l, x);
    TreeEdgeKind(x, ek);
    if ek == Contains {
      var s :| Holds(x, s, p.kind);
      ContainsTarget(x, s, p.kind);
      k := p.kind;
    } else {
      k := KPV;
    }
  }

  lemma PinnedIsNode(e: Env, l: Lists, id: string)
    requires id in Visible.Pinned(Index(Built(e, l)).nodes)
    ensures id == CLUSTER_ID || IdHasKind(id, KNode)
  {
    if id != CLUSTER_ID {
      var k := PinnedKey(Index(Built(e, l)).nodes, id);
      Discipline.IndexedVertex(e, l, k);
      NodeKindIsKNode(e, l, Index(Built(e, l)).nodes[k]);
    }
  }

  lemma PinnedKey(nodes: map<string, Node>, id: string) returns (k: string)
    requires id in Visible.Pinned(nodes) && id != "Cluster"
    ensures k in nodes && nodes[k].kind == "Node" && nodes[k].id == id
  {
    k :| k in nodes && nodes[k].kind == "Node" && nodes[k].id == id;
  }

  lemma NodeKindIsKNode(e: Env, l: Lists, n: Node)
    requires n in AllNodes(e, l) && n.kind == "Node"
    ensures IdHasKind(n.id, KNode)
  {
    var k := VertexHasKind(e, l, n);
    KindTextFacts(k, KNode);
  }

  /** In a built graph the tree enters Nodes from the Cluster alone, and nothing
      leads back to the Cluster. */
  lemma PinnedEntries(e: Env, l: Lists, x: Edge)
    requires x in AllEdges(e, l) && IsTreeEdge(x) && x.target in Visible.Pinned(Index(Built(e, l)).nodes)
    ensures x.source == "Cluster" != x.target
  {
    var k := TreeTarget(e, l, x);
    PinnedIsNode(e, l, x.target);
    if x.target == CLUSTER_ID {
      IdHasOneKind(x.target, k, KCluster);
    } else {
      IdHasOneKind(x.target, k, KNode);
    }
  }

  /** So selecting namespaces shows the whole of each: the Cluster, every Node
      and all that the selected ones contain, directly or not. */
  lemma SelectionShowsAll(e: Env, l: Lists, edges: seq<Edge>, filter: seq<string>, x: string)
    requires Hygienic(e, l) && Permuted(Built(e, l).edges, edges)
    requires Visible.Reachable(edges, Visible.Starts(Index(Built(e, l)).nodes, filter), x)
    ensures Visible.Shown(Index(Built(e, l)).nodes, edges, filter, x)
  {
    PermutedMembers(Built(e, l).edges, edges);
    EdgesAreExact(e, l);
    var nodes := Index(Built(e, l)).nodes;
    forall y | y in edges && IsTreeEdge(y) && y.target in Visible.Pinned(nodes)
      ensures y.source == "Cluster" != y.target
    {
      PinnedEntries(e, l, y);
    }
    Visible.TreesAreShownInFull(nodes, edges, filter, x);
  }

  // ------------------------------------------------------- everything is drawn

  lemma NodesHoldNothing(e: Env, l: Lists, x: Edge)
    requires Hygienic(e, l) && x in Built(e, l).edges && IsTreeEdge(x) && x.source in Index(Built(e, l)).nodes
    ensures Index(Built(e, l)).nodes[x.source].kind != "Node"
  {
    EdgesAreExact(e, l);
    var source, _ := TreeEdgeEnds(e, l, x);
    Discipline.IndexedVertex(e, l, x.source);
    NodesAreSorted(e, l);
    if Index(Built(e, l)).nodes[x.source].kind == "Node" {
      NodeKindIsKNode(e, l, Index(Built(e, l)).nodes[x.source]);
      IdHasOneKind(x.source, source, KNode);
    }
  }

  /** Of a built graph every visible vertex has a card, but for collapsed Nodes
      below the Cluster, and nothing else has. */
  lemma BuiltIsDrawn(e: Env, l: Lists, d: D.Dash, ids: seq<string>, x: string)
    requires Hygienic(e, l) && d.nodes == Index(Built(e, l)).nodes && Permuted(Built(e, l).edges, d.edges)
    requires forall id :: id in d.nodes ==> id in ids
    ensures D.HasCard(d, ids, x) <==> D.Drawn(d, x) || x in D.Roots(d, ids)
  {
    PermutedMembers(Built(e, l).edges, d.edges);
    forall y | y in d.edges && IsTreeEdge(y)
      ensures y.source in d.nodes && y.target in d.nodes && d.nodes[y.source].kind != "Node"
      ensures TextDepth(d.nodes[y.source].kind) < TextDepth(d.nodes[y.target].kind)
    {
      EndsIndexed(e, l, y);
      NodesHoldNothing(e, l, y);
    }
    D.DrawnIff(d, ids, x);
  }

  // ------------------------------------------------------------ loose volumes

  /** The caches hold volumes that nobody claims, and nothing else. */
  ghost predicate OnlyVolumes(e: Env, l: Lists) {
    && e.clusterScope && l.pvs != [] && l.nodes == [] && l.deployments == [] && l.statefulSets == []
    && l.daemonSets == [] && l.pvcs == [] && l.services == [] && l.pods == [] && l.namespaces == []
  }

  lemma VolumeRunHasNoEdges(e: Env, l: Lists, k: Kind, p: Part)
    requires OnlyVolumes(e, l)
    requires if k == KNamespace then p in FlatMap(Spaces(e, l), SpaceParts(e, ObjectParts(e, l)))
             else p in RunOf(e, l, k)
    ensures p.edges == []
  {
    if k == KPV { var v := FromFlatMap(l.pvs, PVParts(e), p); }
  }

  lemma VolumesHaveNoEdges(e: Env, l: Lists)
    requires OnlyVolumes(e, l)
    ensures AllEdges(e, l) == []
  {
    forall p | p in AllParts(e, l) ensures PartEdges(p) == [] {
      PartSource(e, l, p);
      VolumeRunHasNoEdges(e, l, p.kind, p);
    }
    FlatMapEmptyIff(AllParts(e, l), PartEdges);
  }

  lemma VolumesAreParts(e: Env, l: Lists, k: Kind, q: Part)
    requires k == KPV && q in FlatMap(l.pvs, PVParts(e))
    ensures q in AllParts(e, l)
  {
    InLoops(e, l, k, q);
  }

  lemma VolumeIsIndexed(e: Env, l: Lists)
    requires Hygienic(e, l) && OnlyVolumes(e, l)
    ensures CLUSTER_ID in Index(Built(e, l)).nodes
    ensures exists id :: id in Index(Built(e, l)).nodes && id != CLUSTER_ID
  {
    var v := PVPart(l.pvs[0]);
    assert v in PVParts(e)(l.pvs[0]);
    InFlatMap(l.pvs, PVParts(e), v);
    VolumesAreParts(e, l, KPV, v);
    InAllNodes(e, l, v.node);
    ClusterIsBuilt(e, l);
    NodesAreSorted(e, l);
    NodeIsIndexed(e, l, v.node);
    NodeIsIndexed(e, l, ClusterVertex(e, l));
    IdHasSlash(KPV, "", l.pvs[0].name);
  }

  /** Without edges every vertex is a root and has no children. */
  lemma EdgelessRoots(d: D.Dash, ids: seq<string>, a: string, b: string)
    requires d.edges == [] && d.visible == None && (forall id :: id in d.nodes ==> id in ids)
    requires a in d.nodes && b in d.nodes && a != b
    ensures |D.Roots(d, ids)| >= 2 && forall id :: D.ChildrenOf(d, id) == []
  {
    var roots := D.Roots(d, ids);
    D.InRoots(d, ids, a);
    D.InRoots(d, ids, b);
    assert a in roots && b in roots;
    var i := PositionIn(roots, a);
    var j := PositionIn(roots, b);
  }

  lemma EdgelessOverlap(d: D.Dash, ids: seq<string>, a: string, b: string)
    requires d.edges == [] && d.visible == None && (forall id :: id in d.nodes ==> id in ids)
    requires a in d.nodes && b in d.nodes && a != b
    ensures D.AlwaysOverlaps(d, ids)
  {
    EdgelessRoots(d, ids, a, b);
    D.ChildlessRootsOverlap(d, ids, 0);
  }

  lemma NoEdgesBuilt(e: Env, l: Lists, edges: seq<Edge>)
    requires Hygienic(e, l) && OnlyVolumes(e, l) && Permuted(Built(e, l).edges, edges)
    ensures edges == []
  {
    VolumesHaveNoEdges(e, l);
    EdgesAreExact(e, l);
    PermutedMembers(Built(e, l).edges, edges);
  }

  lemma VolumesHoldNothing(e: Env, l: Lists, x: Edge)
    requires x in AllEdges(e, l) && IsTreeEdge(x)
    ensures !IdHasKind(x.source, KPV)
  {
    var source, target := TreeEdgeEnds(e, l, x);
    NothingDeeper(source, target);
    IdHasNoOtherKind(x.source, source, KPV);
  }

  lemma NothingDeeper(k: Kind, k': Kind)
    requires Depth(k) < Depth(k')
    ensures k != KPV
  {
  }

  lemma ChildEdge(edges: seq<Edge>, d: D.Dash, id: string) returns (x: Edge)
    requires Permuted(edges, d.edges) && D.ChildrenOf(d, id) != []
    ensures x in edges && IsTreeEdge(x) && x.source == id
  {
    var c := D.ChildrenOf(d, id)[0];
    D.InChildren(d, id, c);
    x := D.KidEdge(d.edges, id, c);
    PermutedMembers(edges, d.edges);
  }

  lemma VolumeIsChildless(e: Env, l: Lists, d: D.Dash, id: string)
    requires Hygienic(e, l) && Permuted(Built(e, l).edges, d.edges) && IdHasKind(id, KPV)
    ensures D.ChildrenOf(d, id) == []
  {
    if D.ChildrenOf(d, id) != [] {
      var x := ChildEdge(Built(e, l).edges, d, id);
      EdgesAreExact(e, l);
      VolumesHoldNothing(e, l, x);
    }
  }

  /** In any built graph two volumes that are roots in a row, as unclaimed ones are,
      always overlap. */
  lemma VolumeRootsOverlap(e: Env, l: Lists, d: D.Dash, ids: seq<string>, i: nat)
    requires Hygienic(e, l) && Permuted(Built(e, l).edges, d.edges) && i + 1 < |D.Roots(d, ids)|
    requires IdHasKind(D.Roots(d, ids)[i], KPV) && IdHasKind(D.Roots(d, ids)[i + 1], KPV)
    ensures D.AlwaysOverlaps(d, ids)
  {
    VolumeIsChildless(e, l, d, D.Roots(d, ids)[i]);
    VolumeIsChildless(e, l, d, D.Roots(d, ids)[i + 1]);
    D.ChildlessRootsOverlap(d, ids, i);
  }

  /** So the cards of a cluster with unclaimed volumes can overlap: with nothing
      else in the caches they always do. */
  lemma UnclaimedVolumesOverlap(e: Env, l: Lists, d: D.Dash, ids: seq<string>)
    requires Hygienic(e, l) && OnlyVolumes(e, l)
    requires d.nodes == Index(Built(e, l)).nodes && Permuted(Built(e, l).edges, d.edges) && d.visible == None
    requires forall id :: id in d.nodes ==> id in ids
    ensures D.AlwaysOverlaps(d, ids)
  {
    NoEdgesBuilt(e, l, d.edges);
    VolumeIsIndexed(e, l);
    var v :| v in d.nodes && v != CLUSTER_ID;
    EdgelessOverlap(d, ids, CLUSTER_ID, v);
  }

  // ------------------------------------------------------------- tracker keys

  /** Names as Kubernetes admits them, pods and their containers listed once. */
  ghost predicate CleanPods(pods: seq<PodObject>) {
    && (forall p :: p in pods ==> '/' !in p.ns && '/' !in p.name)
    && (forall p, c :: p in pods && c in p.status.containers ==> '/' !in c.name)
    && (forall i, j :: 0 <= i < j < |pods| ==> pods[i].ns != pods[j].ns || pods[i].name != pods[j].name)
    && (forall p, a, b :: p in pods && 0 <= a < b < |p.status.containers| ==>
          p.status.containers[a].name != p.status.containers[b].name)
  }

  lemma SlashSplit(ns: string, name: string, ns': string, name': string)
    requires '/' !in ns && '/' !in ns' && ns + "/" + name == ns' + "/" + name'
    ensures ns == ns' && name == name'
  {
    Ids.SplitAtFirst(ns, name, ns', name', '/');
  }

  lemma ContainerKeySplits(p: PodObject, c: string, q: PodObject, c': string)
    requires '/' !in p.ns && '/' !in p.name && '/' !in q.ns && '/' !in q.name
    requires Restart.ContainerKey(Seen(p).key, c) == Restart.ContainerKey(Seen(q).key, c')
    ensures p.ns == q.ns && p.name == q.name && c == c'
  {
    assert Restart.ContainerKey(Seen(p).key, c) == p.ns + "/" + (p.name + "/" + c);
    assert Restart.ContainerKey(Seen(q).key, c') == q.ns + "/" + (q.name + "/" + c');
    SlashSplit(p.ns, p.name + "/" + c, q.ns, q.name + "/" + c');
    SlashSplit(p.name, c, q.name, c');
  }

  /** So the restart tracker never mixes two containers or two pods up. */
  lemma CleanPodsKeysApart(pods: seq<PodObject>)
    requires CleanPods(pods)
    ensures Restart.KeysApart(SeenPods(pods))
  {
    var seen := SeenPods(pods);
    forall i, j | 0 <= i < j < |seen| ensures seen[i].key != seen[j].key {
      assert pods[i] in pods && pods[j] in pods;
      if seen[i].key == seen[j].key { SlashSplit(pods[i].ns, pods[i].name, pods[j].ns, pods[j].name); }
    }
    forall i, j, a, b | 0 <= i < |seen| && 0 <= j < |seen|
      && 0 <= a < |seen[i].containers| && 0 <= b < |seen[j].containers|
      && Restart.ContainerKey(seen[i].key, seen[i].containers[a].name)
         == Restart.ContainerKey(seen[j].key, seen[j].containers[b].name)
      ensures i == j && a == b
    {
      assert pods[i] in pods && pods[j] in pods;
      ContainerKeySplits(pods[i], seen[i].containers[a].name, pods[j], seen[j].containers[b].name);
    }
  }
}
