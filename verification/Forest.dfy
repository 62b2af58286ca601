/** The shape of a built graph, and what it means for the stream and the
    namespace endpoint (internal/collector/graph.go). */
module Forest {
  import opened Seqs
  import opened Order
  import opened Topology
  import opened Build
  import opened BuildLaws
  import R = Rollup
  import Scope

  // ------------------------------------------------------------- containment

  /** Depth read off a vertex's kind. */
  function TextDepth(kind: string): (r: nat)
    ensures r <= 3
  {
    if kind == "Cluster" then 0
    else if kind == "Namespace" || kind == "Node" then 1
    else if kind == "Pod" || kind == "PersistentVolume" then 3
    else 2
  }

  lemma TextDepthIsDepth(k: Kind)
    ensures TextDepth(KindText(k)) == Depth(k)
  {
  }

  lemma EdgeComesFrom(e: Env, l: Lists, x: Edge) returns (p: Part, k: EdgeKind)
    requires x in AllEdges(e, l)
    ensures p in AllParts(e, l) && x in p.edges && PartOk(p)
    ensures x == MakeEdge(x.source, x.target, k)
    ensures k == Contains ==> p.edges != [] && x == p.edges[0] && x.target == p.node.id
                              && exists s :: Holds(x, s, p.kind)
    ensures k == Backs ==> Links(x, Backs, KPVC, KPV)
  {
    AllPartsOk(e, l);
    InFlatMap(AllParts(e, l), PartEdges, x);
    p :| p in AllParts(e, l) && x in PartEdges(p);
    k := EdgeKindOf(x, p);
  }

  lemma TreeEdgeKind(x: Edge, k: EdgeKind)
    requires x == MakeEdge(x.source, x.target, k)
    ensures x.kind == "contains" <==> k == Contains
    ensures x.kind == "backs" <==> k == Backs
  {
  }

  /** Tree edges lead away from the root: depth strictly grows along them. */
  lemma TreeEdgeDescends(e: Env, l: Lists, x: Edge, s: Node, t: Node)
    requires x in AllEdges(e, l) && IsTreeEdge(x)
    requires s in AllNodes(e, l) && t in AllNodes(e, l) && s.id == x.source && t.id == x.target
    ensures TextDepth(s.kind) < TextDepth(t.kind)
  {
    var ks, kt := TreeEdgeEnds(e, l, x);
    VertexDepth(e, l, s, ks);
    VertexDepth(e, l, t, kt);
  }

  /** The kinds that a tree edge joins. */
  lemma TreeEdgeEnds(e: Env, l: Lists, x: Edge) returns (source: Kind, target: Kind)
    requires x in AllEdges(e, l) && IsTreeEdge(x)
    ensures IdHasKind(x.source, source) && IdHasKind(x.target, target) && Depth(source) < Depth(target)
    ensures source != KNode
  {
    var p, k := EdgeComesFrom(e, l, x);
    source, target := KindEnds(x, k, p.kind);
  }

  lemma KindEnds(x: Edge, k: EdgeKind, partKind: Kind) returns (source: Kind, target: Kind)
    requires x == MakeEdge(x.source, x.target, k) && IsTreeEdge(x)
    requires k == Contains ==> exists s :: Holds(x, s, partKind)
    requires k == Backs ==> Links(x, Backs, KPVC, KPV)
    ensures IdHasKind(x.source, source) && IdHasKind(x.target, target) && Depth(source) < Depth(target)
    ensures source != KNode
  {
    TreeEdgeKind(x, k);
    source, target := KPVC, KPV;
    if k == Contains {
      target := partKind;
      source := ContainsEnds(x, target);
    } else {
      LinkedEnds(x, Backs, KPVC, KPV);
    }
  }

  lemma LinkedEnds(x: Edge, k: EdgeKind, source: Kind, target: Kind)
    requires Links(x, k, source, target)
    ensures IdHasKind(x.source, source) && IdHasKind(x.target, target)
  {
  }

  lemma ContainsEnds(x: Edge, target: Kind) returns (source: Kind)
    requires exists s :: Holds(x, s, target)
    ensures IdHasKind(x.source, source) && IdHasKind(x.target, target) && Depth(source) < Depth(target)
    ensures source != KNode
  {
    source :| Holds(x, source, target);
  }

  lemma VertexDepth(e: Env, l: Lists, n: Node, k: Kind)
    requires n in AllNodes(e, l) && IdHasKind(n.id, k)
    ensures TextDepth(n.kind) == Depth(k)
  {
    var k' := VertexHasKind(e, l, n);
    IdHasOneKind(n.id, k, k');
    TextDepthIsDepth(k);
  }

  lemma SamePart(parts: seq<Part>, p: Part, q: Part)
    requires forall r :: r in parts ==> PartOk(r) && CleanPart(r)
    requires NoRepeats(FlatMap(parts, Key)) && p in parts && q in parts && p.node.id == q.node.id
    ensures p == q
  {
    var i := PositionIn(parts, p);
    var j := PositionIn(parts, q);
    FlatMapPointwise(parts, Key);
    SameIdSameKey(p, q);
    assert FlatMap(parts, Key)[i] == FlatMap(parts, Key)[j];
  }

  /** No vertex is contained twice. */
  lemma OneContainer(e: Env, l: Lists, x: Edge, y: Edge)
    requires Hygienic(e, l) && x in AllEdges(e, l) && y in AllEdges(e, l)
    requires x.kind == "contains" && y.kind == "contains" && x.target == y.target
    ensures x == y
  {
    var p, k := EdgeComesFrom(e, l, x);
    var q, k' := EdgeComesFrom(e, l, y);
    TreeEdgeKind(x, k);
    TreeEdgeKind(y, k');
    AllPartsOk(e, l);
    SamePart(AllParts(e, l), p, q);
  }

  /** contains and backs edges of g lead from shallower kinds to deeper ones. */
  ghost predicate DepthGrows(g: Graph) {
    forall x, s, t :: x in g.edges && IsTreeEdge(x) && s in g.nodes && t in g.nodes && s.id == x.source
                      && t.id == x.target
      ==> TextDepth(s.kind) < TextDepth(t.kind)
  }

  ghost predicate ContainedOnce(g: Graph) {
    forall x, y :: x in g.edges && y in g.edges && x.kind == "contains" && y.kind == "contains" && x.target == y.target
      ==> x == y
  }

  /** A built graph is a containment forest: sorted unique IDs, no dangling
      edge, depth growing along contains and backs, one container at most. */
  lemma BuiltIsForest(e: Env, l: Lists)
    requires Hygienic(e, l)
    ensures Ascending(Built(e, l).nodes, ById) && Ascending(Built(e, l).edges, ByEdgeId)
    ensures Scope.Closed(Built(e, l)) && DepthGrows(Built(e, l)) && ContainedOnce(Built(e, l))
  {
    var g := Built(e, l);
    NodesAreSorted(e, l);
    EdgesAreExact(e, l);
    forall x | x in g.edges
      ensures (exists n :: n in g.nodes && n.id == x.source) && (exists n :: n in g.nodes && n.id == x.target)
    {
      var s :| s in AllNodes(e, l) && s.id == x.source;
      var t :| t in AllNodes(e, l) && t.id == x.target;
    }
    forall x, s, t | x in g.edges && IsTreeEdge(x) && s in g.nodes && t in g.nodes && s.id == x.source
                      && t.id == x.target
      ensures TextDepth(s.kind) < TextDepth(t.kind)
    {
      TreeEdgeDescends(e, l, x, s, t);
    }
    forall x, y | x in g.edges && y in g.edges && x.kind == "contains" && y.kind == "contains" && x.target == y.target
      ensures x == y
    {
      OneContainer(e, l, x, y);
    }
  }

  lemma InAllEdges(parts: seq<Part>, p: Part, x: Edge)
    requires p in parts && x in p.edges
    ensures x in FlatMap(parts, PartEdges)
  {
    assert x in PartEdges(p);
    InFlatMap(parts, PartEdges, x);
  }

  lemma PodsAreParts(e: Env, l: Lists, k: Kind, q: Part)
    requires k == KPod && q in FlatMap(l.pods, PodParts(e))
    ensures q in AllParts(e, l)
  {
    InLoops(e, l, k, q);
  }

  lemma PodInRun(e: Env, pods: seq<PodObject>, p: PodObject)
    requires p in pods
    ensures PodPart(e, p) in FlatMap(pods, PodParts(e))
  {
    assert PodParts(e)(p) == [PodPart(e, p)];
    InFlatMap(pods, PodParts(e), PodPart(e, p));
  }

  lemma PodIsPart(e: Env, l: Lists, k: Kind, p: PodObject)
    requires k == KPod && p in l.pods
    ensures PodPart(e, p) in AllParts(e, l)
  {
    PodInRun(e, l.pods, p);
    PodsAreParts(e, l, k, PodPart(e, p));
  }

  lemma ClaimsAreParts(e: Env, l: Lists, k: Kind, q: Part)
    requires k == KPVC && q in FlatMap(l.pvcs, PVCParts(e))
    ensures q in AllParts(e, l)
  {
    InLoops(e, l, k, q);
  }

  lemma ClaimInRun(e: Env, claims: seq<PVCObject>, c: PVCObject)
    requires c in claims
    ensures PVCPart(e, c) in FlatMap(claims, PVCParts(e))
  {
    assert PVCParts(e)(c) == [PVCPart(e, c)];
    InFlatMap(claims, PVCParts(e), PVCPart(e, c));
  }

  lemma EdgeIsBuilt(e: Env, l: Lists, x: Edge, s: Node, t: Node)
    requires Hygienic(e, l) && x in AllEdges(e, l)
    requires s in AllNodes(e, l) && t in AllNodes(e, l) && s.id == x.source && t.id == x.target
    ensures x in Built(e, l).edges
  {
    EdgesAreExact(e, l);
  }

  lemma ClusterIsBuilt(e: Env, l: Lists)
    ensures ClusterVertex(e, l) in AllNodes(e, l)
    ensures ClusterVertex(e, l).kind == "Cluster" && ClusterVertex(e, l).id == CLUSTER_ID
  {
    InAllNodes(e, l, ClusterVertex(e, l));
  }

  // -------------------------------------------------------- order independence

  /** The listers return the same objects in another order. */
  predicate SameObjects(l: Lists, l': Lists) {
    && Permuted(l.nodes, l'.nodes) && Permuted(l.pvs, l'.pvs) && Permuted(l.deployments, l'.deployments)
    && Permuted(l.statefulSets, l'.statefulSets) && Permuted(l.daemonSets, l'.daemonSets) && Permuted(l.pvcs, l'.pvcs)
    && Permuted(l.services, l'.services) && Permuted(l.pods, l'.pods) && Permuted(l.namespaces, l'.namespaces)
  }

  lemma RunPermuted(e: Env, l: Lists, l': Lists, k: Kind)
    requires SameObjects(l, l')
    ensures Permuted(RunOf(e, l, k), RunOf(e, l', k))
  {
    match k
    case KNode => FlatMapPermuted(l.nodes, l'.nodes, NodeParts(e));
    case KPV => FlatMapPermuted(l.pvs, l'.pvs, PVParts(e));
    case KDeployment => FlatMapPermuted(l.deployments, l'.deployments, WorkloadParts(e, KDeployment));
    case KStatefulSet => FlatMapPermuted(l.statefulSets, l'.statefulSets, WorkloadParts(e, KStatefulSet));
    case KDaemonSet => FlatMapPermuted(l.daemonSets, l'.daemonSets, WorkloadParts(e, KDaemonSet));
    case KPVC => FlatMapPermuted(l.pvcs, l'.pvcs, PVCParts(e));
    case KService => FlatMapPermuted(l.services, l'.services, ServiceParts(e));
    case KPod => FlatMapPermuted(l.pods, l'.pods, PodParts(e));
    case KNamespace =>
    case KCluster =>
  }

  lemma ObjectsPermuted(e: Env, l: Lists, l': Lists)
    requires SameObjects(l, l')
    ensures Permuted(ObjectParts(e, l), ObjectParts(e, l'))
  {
    forall k ensures Permuted(Runs(e, l)(k), Runs(e, l')(k)) { RunPermuted(e, l, l', k); }
    FlatMapPermutedEach(LOOPS, Runs(e, l), Runs(e, l'));
  }

  /** Each namespace's verdict survives the reordering of its children. */
  lemma SpacesCongruent(e: Env, spaces: seq<Space>, parts: seq<Part>, parts': seq<Part>)
    requires Permuted(parts, parts')
    ensures FlatMap(spaces, SpaceParts(e, parts)) == FlatMap(spaces, SpaceParts(e, parts'))
  {
    forall s | s in spaces ensures SpaceParts(e, parts)(s) == SpaceParts(e, parts')(s) {
      FlatMapPermuted(parts, parts', RollInto(s.name));
      R.AggregatePermuted(FlatMap(parts, RollInto(s.name)), FlatMap(parts', RollInto(s.name)), e.texts);
    }
    FlatMapCongruent(spaces, SpaceParts(e, parts), SpaceParts(e, parts'));
  }

  lemma PartsPermuted(e: Env, l: Lists, l': Lists)
    requires SameObjects(l, l')
    ensures Permuted(AllParts(e, l), AllParts(e, l'))
    ensures ClusterVertex(e, l) == ClusterVertex(e, l')
  {
    var parts, parts' := ObjectParts(e, l), ObjectParts(e, l');
    ObjectsPermuted(e, l, l');
    FlatMapPermuted(l.namespaces, l'.namespaces, PhaseSpace);
    SpacesCongruent(e, Spaces(e, l), parts, parts');
    FlatMapPermuted(Spaces(e, l), Spaces(e, l'), SpaceParts(e, parts'));
    PermutedConcat(parts, FlatMap(Spaces(e, l), SpaceParts(e, parts)),
                   parts', FlatMap(Spaces(e, l'), SpaceParts(e, parts')));
    FlatMapPermuted(AllParts(e, l), AllParts(e, l'), ClusterRoll);
    R.AggregatePermuted(FlatMap(AllParts(e, l), ClusterRoll), FlatMap(AllParts(e, l'), ClusterRoll), e.texts);
  }

  lemma HygienePermuted(e: Env, l: Lists, l': Lists)
    requires SameObjects(l, l') && Hygienic(e, l)
    ensures Hygienic(e, l')
  {
    PartsPermuted(e, l, l');
    PermutedMembers(AllParts(e, l), AllParts(e, l'));
    FlatMapPermuted(AllParts(e, l), AllParts(e, l'), Key);
    NoRepeatsPermuted(FlatMap(AllParts(e, l), Key), FlatMap(AllParts(e, l'), Key));
  }

  lemma MembersPermuted(e: Env, l: Lists, l': Lists)
    requires SameObjects(l, l')
    ensures forall n :: n in AllNodes(e, l) <==> n in AllNodes(e, l')
    ensures forall x :: x in AllEdges(e, l) <==> x in AllEdges(e, l')
  {
    PartsPermuted(e, l, l');
    FlatMapPermuted(AllParts(e, l), AllParts(e, l'), PartNode);
    PermutedMembers(FlatMap(AllParts(e, l), PartNode), FlatMap(AllParts(e, l'), PartNode));
    FlatMapPermuted(AllParts(e, l), AllParts(e, l'), PartEdges);
    PermutedMembers(AllEdges(e, l), AllEdges(e, l'));
  }

  lemma SortedGraphsEqual(g: Graph, g': Graph)
    requires Ascending(g.nodes, ById) && Ascending(g'.nodes, ById) && forall n :: n in g.nodes <==> n in g'.nodes
    requires Ascending(g.edges, ByEdgeId) && Ascending(g'.edges, ByEdgeId)
    requires forall x :: x in g.edges <==> x in g'.edges
    requires g.updatedAt == g'.updatedAt
    ensures g == g'
  {
    ByIdIsStrictOrder();
    AscendingUnique(g.nodes, g'.nodes, ById);
    AscendingUnique(g.edges, g'.edges, ByEdgeId);
  }

  lemma SameNodeIds(ns: seq<Node>, ns': seq<Node>)
    requires forall n :: n in ns <==> n in ns'
    ensures NodeIds(ns) == NodeIds(ns')
  {
  }

  /** Whatever order the listers return objects in, the graph is the same. */
  lemma BuildIsOrderBlind(e: Env, l: Lists, l': Lists)
    requires Hygienic(e, l) && SameObjects(l, l')
    ensures Built(e, l) == Built(e, l')
  {
    HygienePermuted(e, l, l');
    MembersPermuted(e, l, l');
    NodesAreSorted(e, l);
    NodesAreSorted(e, l');
    EdgesAreExact(e, l);
    EdgesAreExact(e, l');
    SameNodeIds(AllNodes(e, l), AllNodes(e, l'));
    SortedGraphsEqual(Built(e, l), Built(e, l'));
  }
}
