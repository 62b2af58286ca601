/** What every built graph satisfies: unique sorted IDs, and exactly the generated
    edges whose ends are both present. */
module BuildLaws {
  import opened Seqs
  import opened Order
  import opened Ids
  import opened Topology
  import opened Build
  import H = Health
  import R = Rollup

  // -------------------------------------------------------------- part shapes

  lemma KindTextFacts(k: Kind, k': Kind)
    ensures '/' !in KindText(k)
    ensures KindText(k) == KindText(k') ==> k == k'
  {
  }

  lemma EdgeTextFacts(k: EdgeKind, k': EdgeKind)
    ensures ':' !in EdgeText(k)
    ensures EdgeText(k) == EdgeText(k') ==> k == k'
  {
  }

  /** How far from the root a kind sits in the tree that the dashboard draws. */
  function Depth(k: Kind): nat {
    match k
    case KCluster => 0
    case KNamespace => 1
    case KNode => 1
    case KPod => 3
    case KPV => 3
    case _ => 2
  }

  /** An ID that only a vertex of kind k can have. */
  ghost predicate IdHasKind(id: string, k: Kind) {
    if k == KCluster then id == CLUSTER_ID else exists ns, name :: id == IdOf(k, ns, name)
  }

  lemma IdHasOneKind(id: string, k: Kind, k': Kind)
    requires IdHasKind(id, k) && IdHasKind(id, k')
    ensures k == k'
  {
    KindTextFacts(k, k');
    KindTextFacts(k', k);
    if k != KCluster && k' != KCluster {
      var ns, name :| id == IdOf(k, ns, name);
      var ns', name' :| id == IdOf(k', ns', name');
      IdTellsKind(KindText(k), ns, name, KindText(k'), ns', name');
    } else if k != KCluster {
      var ns, name :| id == IdOf(k, ns, name);
      IdHasSlash(k, ns, name);
    } else if k' != KCluster {
      var ns, name :| id == IdOf(k', ns, name);
      IdHasSlash(k', ns, name);
    }
  }

  lemma IdHasNoOtherKind(id: string, k: Kind, k': Kind)
    requires IdHasKind(id, k) && k != k'
    ensures !IdHasKind(id, k')
  {
    if IdHasKind(id, k') { IdHasOneKind(id, k, k'); }
  }

  lemma IdHasSlash(k: Kind, ns: string, name: string)
    ensures '/' in IdOf(k, ns, name) && '/' !in CLUSTER_ID
  {
    IdAsRest(KindText(k), ns, name);
    assert IdOf(k, ns, name)[|KindText(k)|] == '/';
  }

  /** An edge of some kind from one kind of vertex to another. */
  ghost predicate Links(e: Edge, k: EdgeKind, source: Kind, target: Kind) {
    e == MakeEdge(e.source, e.target, k) && IdHasKind(e.source, source) && IdHasKind(e.target, target)
  }

  /** A containment edge leads to a deeper kind, and never from a Node. */
  ghost predicate Holds(e: Edge, source: Kind, target: Kind) {
    Links(e, Contains, source, target) && Depth(source) < Depth(target) && source != KNode
  }

  /** The shapes an object's edges take. */
  ghost predicate EdgeOk(e: Edge, p: Part) {
    || (p.edges != [] && e == p.edges[0] && e.target == p.node.id
        && exists k :: Holds(e, k, p.kind))
    || (p.kind == KPod && exists k :: Links(e, RunsOn, KPod, k))
    || (p.kind == KPod && Links(e, Mounts, KPod, KPVC))
    || (p.kind == KPVC && Links(e, Backs, KPVC, KPV))
    || (p.kind == KService && Links(e, Routes, KService, KPod))
  }

  ghost predicate PartOk(p: Part) {
    && p.kind != KCluster && (p.kind == KPV ==> p.edges == [])
    && p.node.kind == KindText(p.kind) && p.node.id == IdOf(p.kind, p.node.namespace, p.node.name)
    && forall e :: e in p.edges ==> EdgeOk(e, p)
  }

  lemma ContainsOk(p: Part, k: Kind, ns: string, name: string)
    requires p.edges != [] && p.kind != KCluster && p.node.id == IdOf(p.kind, p.node.namespace, p.node.name)
    requires Depth(k) < Depth(p.kind) && k != KNode
    requires p.edges[0] == MakeEdge(if k == KCluster then CLUSTER_ID else IdOf(k, ns, name), p.node.id, Contains)
    ensures EdgeOk(p.edges[0], p)
  {
    assert IdHasKind(p.edges[0].source, k) && IdHasKind(p.node.id, p.kind);
    assert Holds(p.edges[0], k, p.kind);
  }

  lemma NodePartOk(n: NodeObject)
    ensures PartOk(NodePart(n))
  {
    ContainsOk(NodePart(n), KCluster, "", "");
  }

  lemma WorkloadPartOk(e: Env, k: Kind, w: WorkloadObject)
    requires k == KDeployment || k == KStatefulSet || k == KDaemonSet
    ensures PartOk(WorkloadPart(e, k, w))
  {
    ContainsOk(WorkloadPart(e, k, w), KNamespace, "", w.ns);
  }

  lemma PVCPartOk(e: Env, c: PVCObject)
    ensures PartOk(PVCPart(e, c))
  {
    var p := PVCPart(e, c);
    ContainsOk(p, KNamespace, "", c.ns);
    if c.volumeName != "" {
      assert IdHasKind(p.node.id, KPVC) && IdHasKind(IdOf(KPV, "", c.volumeName), KPV);
      assert Links(p.edges[1], Backs, KPVC, KPV);
    }
  }

  lemma ServicePartOk(e: Env, s: ServiceObject)
    ensures PartOk(ServicePart(e, s))
  {
    var p := ServicePart(e, s);
    var routes := FlatMap(Deduped(FlatMap(Subsets(e, s.ns, s.name), SubsetPods)), ServiceRoutes(e, s));
    ContainsOk(p, KNamespace, "", s.ns);
    forall edge | edge in p.edges ensures EdgeOk(edge, p) {
      InTwo(edge, [p.edges[0]], routes);
      if edge != p.edges[0] { RouteOk(e, s, p, edge); }
    }
  }

  lemma RouteOk(e: Env, s: ServiceObject, p: Part, edge: Edge)
    requires p.kind == KService && p.node.id == IdOf(KService, s.ns, s.name)
    requires edge in FlatMap(Deduped(FlatMap(Subsets(e, s.ns, s.name), SubsetPods)), ServiceRoutes(e, s))
    ensures EdgeOk(edge, p)
  {
    var names := Deduped(FlatMap(Subsets(e, s.ns, s.name), SubsetPods));
    InFlatMap(names, ServiceRoutes(e, s), edge);
    var name :| name in names && edge in ServiceRoutes(e, s)(name);
    assert IdHasKind(p.node.id, KService) && IdHasKind(IdOf(KPod, s.ns, name), KPod);
    assert Links(edge, Routes, KService, KPod);
  }

  lemma {:induction false} WorkloadForPodKind(e: Env, ns: string, owners: seq<Owner>)
    ensures var w := WorkloadForPod(e, ns, owners);
      w.Some? ==> w.value.0 == KDeployment || w.value.0 == KStatefulSet || w.value.0 == KDaemonSet
  {
    if owners != [] { WorkloadForPodKind(e, ns, owners[1..]); }
  }

  lemma PodParentOk(e: Env, o: PodObject, p: Part)
    requires p.kind == KPod && p.node.id == IdOf(KPod, o.ns, o.name) == IdOf(KPod, p.node.namespace, p.node.name)
    requires p.edges != [] && p.edges[0] == MakeEdge(ParentOfPod(e, o), p.node.id, Contains)
    ensures EdgeOk(p.edges[0], p)
  {
    var w := WorkloadForPod(e, o.ns, o.owners);
    WorkloadForPodKind(e, o.ns, o.owners);
    if w.Some? { ContainsOk(p, w.value.0, o.ns, w.value.1); } else { ContainsOk(p, KNamespace, "", o.ns); }
  }

  lemma PodLinkOk(p: Part, ns: string, name: string, k: EdgeKind, target: Kind, ns': string, name': string)
    requires p.kind == KPod && p.node.id == IdOf(KPod, ns, name)
    requires k == RunsOn || (k == Mounts && target == KPVC)
    requires target != KCluster
    ensures EdgeOk(MakeEdge(p.node.id, IdOf(target, ns', name'), k), p)
  {
    assert IdHasKind(p.node.id, KPod) && IdHasKind(IdOf(target, ns', name'), target);
    assert Links(MakeEdge(p.node.id, IdOf(target, ns', name'), k), k, KPod, target);
  }

  lemma InTwo<T>(x: T, a: seq<T>, b: seq<T>)
    requires x in a + b
    ensures x in a || x in b
  {
  }

  lemma PlacementOk(o: PodObject, p: Part, edge: Edge)
    requires p.kind == KPod && p.node.id == IdOf(KPod, o.ns, o.name) && edge in PlacementEdges(o)
    ensures EdgeOk(edge, p)
  {
    PodLinkOk(p, o.ns, o.name, RunsOn, KNode, "", o.nodeName);
  }

  lemma ClaimOk(o: PodObject, p: Part, edge: Edge)
    requires p.kind == KPod && p.node.id == IdOf(KPod, o.ns, o.name) && edge in FlatMap(o.claims, ClaimEdge(o))
    ensures EdgeOk(edge, p)
  {
    InFlatMap(o.claims, ClaimEdge(o), edge);
    var claim :| claim in o.claims && edge in ClaimEdge(o)(claim);
    PodLinkOk(p, o.ns, o.name, Mounts, KPVC, o.ns, claim);
  }

  lemma PodPartOk(e: Env, o: PodObject)
    ensures PartOk(PodPart(e, o))
  {
    var p := PodPart(e, o);
    PodParentOk(e, o, p);
    forall edge | edge in p.edges ensures EdgeOk(edge, p) {
      var claims := FlatMap(o.claims, ClaimEdge(o));
      InTwo(edge, [p.edges[0]], PlacementEdges(o) + claims);
      if edge != p.edges[0] {
        InTwo(edge, PlacementEdges(o), claims);
        if edge in PlacementEdges(o) { PlacementOk(o, p, edge); } else { ClaimOk(o, p, edge); }
      }
    }
  }

  lemma SpacePartOk(s: Space, r: H.Result)
    ensures PartOk(SpacePartAt(s, r))
  {
    ContainsOk(SpacePartAt(s, r), KCluster, "", "");
  }

  lemma {:induction false} FlatMapOk<X(!new)>(xs: seq<X>, f: X -> seq<Part>)
    requires forall x, p :: x in xs && p in f(x) ==> PartOk(p)
    ensures forall p :: p in FlatMap(xs, f) ==> PartOk(p)
  {
    forall p | p in FlatMap(xs, f) ensures PartOk(p) { InFlatMap(xs, f, p); }
  }

  lemma RunOk(e: Env, l: Lists, k: Kind)
    ensures forall p :: p in RunOf(e, l, k) ==> PartOk(p)
  {
    match k
    case KNode =>
      forall n ensures PartOk(NodePart(n)) { NodePartOk(n); }
      FlatMapOk(l.nodes, NodeParts(e));
    case KPV => FlatMapOk(l.pvs, PVParts(e));
    case KDeployment => WorkloadsOk(e, k, l.deployments);
    case KStatefulSet => WorkloadsOk(e, k, l.statefulSets);
    case KDaemonSet => WorkloadsOk(e, k, l.daemonSets);
    case KPVC =>
      forall c ensures PartOk(PVCPart(e, c)) { PVCPartOk(e, c); }
      FlatMapOk(l.pvcs, PVCParts(e));
    case KService =>
      forall s ensures PartOk(ServicePart(e, s)) { ServicePartOk(e, s); }
      FlatMapOk(l.services, ServiceParts(e));
    case KPod =>
      forall o ensures PartOk(PodPart(e, o)) { PodPartOk(e, o); }
      FlatMapOk(l.pods, PodParts(e));
    case KNamespace =>
    case KCluster =>
  }

  lemma WorkloadsOk(e: Env, k: Kind, xs: seq<WorkloadObject>)
    requires k == KDeployment || k == KStatefulSet || k == KDaemonSet
    ensures forall p :: p in FlatMap(xs, WorkloadParts(e, k)) ==> PartOk(p)
  {
    forall w ensures PartOk(WorkloadPart(e, k, w)) { WorkloadPartOk(e, k, w); }
    FlatMapOk(xs, WorkloadParts(e, k));
  }

  lemma ObjectPartsOk(e: Env, l: Lists)
    ensures forall p :: p in ObjectParts(e, l) ==> PartOk(p)
  {
    forall k ensures forall p :: p in RunOf(e, l, k) ==> PartOk(p) { RunOk(e, l, k); }
    FlatMapOk(LOOPS, Runs(e, l));
  }

  // ------------------------------------------------------------ parts by kind

  ghost predicate AllOfKind(ps: seq<Part>, k: Kind) {
    forall p :: p in ps ==> p.kind == k
  }

  lemma FlatMapKind<X(!new)>(xs: seq<X>, f: X -> seq<Part>, k: Kind)
    requires forall x, p :: x in xs && p in f(x) ==> p.kind == k
    ensures AllOfKind(FlatMap(xs, f), k)
  {
    forall p | p in FlatMap(xs, f) ensures p.kind == k { InFlatMap(xs, f, p); }
  }

  lemma RunKind(e: Env, l: Lists, k: Kind)
    ensures AllOfKind(RunOf(e, l, k), k)
  {
    match k
    case KNode => FlatMapKind(l.nodes, NodeParts(e), k);
    case KPV => FlatMapKind(l.pvs, PVParts(e), k);
    case KDeployment => FlatMapKind(l.deployments, WorkloadParts(e, KDeployment), k);
    case KStatefulSet => FlatMapKind(l.statefulSets, WorkloadParts(e, KStatefulSet), k);
    case KDaemonSet => FlatMapKind(l.daemonSets, WorkloadParts(e, KDaemonSet), k);
    case KPVC => FlatMapKind(l.pvcs, PVCParts(e), k);
    case KService => FlatMapKind(l.services, ServiceParts(e), k);
    case KPod => FlatMapKind(l.pods, PodParts(e), k);
    case KNamespace =>
    case KCluster =>
  }

  lemma SpaceLoopKind(e: Env, spaces: seq<Space>, objects: seq<Part>)
    ensures AllOfKind(FlatMap(spaces, SpaceParts(e, objects)), KNamespace)
  {
    FlatMapKind(spaces, SpaceParts(e, objects), KNamespace);
  }

  lemma InLoops(e: Env, l: Lists, k: Kind, p: Part)
    requires p in RunOf(e, l, k)
    ensures p in ObjectParts(e, l)
  {
    assert k in LOOPS && p in Runs(e, l)(k);
    InFlatMap(LOOPS, Runs(e, l), p);
  }

  lemma ObjectSource(e: Env, l: Lists, p: Part)
    requires p in ObjectParts(e, l)
    ensures p in RunOf(e, l, p.kind)
  {
    var k := FromFlatMap(LOOPS, Runs(e, l), p);
    RunKind(e, l, k);
  }

  /** The loop that a part comes from. */
  lemma PartSource(e: Env, l: Lists, p: Part)
    requires p in AllParts(e, l)
    ensures if p.kind == KNamespace then p in FlatMap(Spaces(e, l), SpaceParts(e, ObjectParts(e, l)))
            else p in RunOf(e, l, p.kind)
  {
    SpaceLoopKind(e, Spaces(e, l), ObjectParts(e, l));
    if p in ObjectParts(e, l) { ObjectSource(e, l, p); }
  }

  lemma AllPartsOk(e: Env, l: Lists)
    ensures forall p :: p in AllParts(e, l) ==> PartOk(p)
  {
    ObjectPartsOk(e, l);
    var f := SpaceParts(e, ObjectParts(e, l));
    forall s, p | s in Spaces(e, l) && p in f(s) ensures PartOk(p) {
      SpacePartOk(s, R.AggregateOf(FlatMap(ObjectParts(e, l), RollInto(s.name)), e.texts));
    }
    FlatMapOk(Spaces(e, l), f);
  }

  // ------------------------------------------------------------------ hygiene

  /** An object's kind, namespace and name: what a lister keeps unique. */
  function Key(p: Part): seq<(Kind, string, string)> {
    [(p.kind, p.node.namespace, p.node.name)]
  }

  predicate CleanPart(p: Part) {
    && '/' !in p.node.namespace && '/' !in p.node.name
    && forall e :: e in p.edges ==> '>' !in e.source
  }

  /** Names as Kubernetes admits them, and no object listed twice. */
  ghost predicate Hygienic(e: Env, l: Lists) {
    && (forall p :: p in AllParts(e, l) ==> CleanPart(p))
    && NoRepeats(FlatMap(AllParts(e, l), Key))
  }

  // ----------------------------------------------------------------- vertices

  function VerticesOf(parts: seq<Part>, cluster: Node): seq<Node> {
    FlatMap(parts, PartNode) + [cluster]
  }

  lemma InVertices(parts: seq<Part>, cluster: Node, n: Node)
    ensures n in VerticesOf(parts, cluster) <==> n == cluster || exists p :: p in parts && p.node == n
  {
    InFlatMap(parts, PartNode, n);
    if exists p :: p in parts && p.node == n {
      var p :| p in parts && p.node == n;
      assert n in PartNode(p);
    }
  }

  lemma InAllNodes(e: Env, l: Lists, n: Node)
    ensures n in AllNodes(e, l) <==> n == ClusterVertex(e, l) || exists p :: p in AllParts(e, l) && p.node == n
  {
    InVertices(AllParts(e, l), ClusterVertex(e, l), n);
    assert AllNodes(e, l) == VerticesOf(AllParts(e, l), ClusterVertex(e, l));
  }

  /** Every vertex has the ID of its kind. */
  lemma VertexHasKind(e: Env, l: Lists, n: Node) returns (k: Kind)
    requires n in AllNodes(e, l)
    ensures n.kind == KindText(k) && IdHasKind(n.id, k)
    ensures k == KCluster ==> n == ClusterVertex(e, l)
    ensures k != KCluster ==> exists p :: p in AllParts(e, l) && p.node == n && p.kind == k
  {
    InAllNodes(e, l, n);
    AllPartsOk(e, l);
    k := KCluster;
    if n != ClusterVertex(e, l) {
      var p :| p in AllParts(e, l) && p.node == n;
      k := p.kind;
      assert n.id == IdOf(k, n.namespace, n.name);
    }
  }

  lemma SameIdSameKey(p: Part, q: Part)
    requires PartOk(p) && PartOk(q) && CleanPart(p) && CleanPart(q) && p.node.id == q.node.id
    ensures Key(p) == Key(q)
  {
    KindTextFacts(p.kind, q.kind);
    KindTextFacts(q.kind, p.kind);
    IdInjective(KindText(p.kind), p.node.namespace, p.node.name, KindText(q.kind), q.node.namespace, q.node.name);
  }

  lemma PartIdsDiffer(parts: seq<Part>, i: nat, j: nat)
    requires forall p :: p in parts ==> PartOk(p) && CleanPart(p)
    requires NoRepeats(FlatMap(parts, Key)) && i < j < |parts|
    ensures parts[i].node.id != parts[j].node.id
  {
    FlatMapPointwise(parts, Key);
    assert parts[i] in parts && parts[j] in parts;
    assert FlatMap(parts, Key)[i] != FlatMap(parts, Key)[j];
    if parts[i].node.id == parts[j].node.id { SameIdSameKey(parts[i], parts[j]); }
  }

  lemma VertexIdsDiffer(parts: seq<Part>, cluster: Node, i: nat, j: nat)
    requires forall p :: p in parts ==> PartOk(p) && CleanPart(p)
    requires NoRepeats(FlatMap(parts, Key)) && cluster.id == CLUSTER_ID && i < j < |VerticesOf(parts, cluster)|
    ensures VerticesOf(parts, cluster)[i].id != VerticesOf(parts, cluster)[j].id
  {
    FlatMapPointwise(parts, PartNode);
    assert parts[i] in parts && VerticesOf(parts, cluster)[i] == parts[i].node;
    if j < |parts| {
      PartIdsDiffer(parts, i, j);
    } else {
      IdHasSlash(parts[i].kind, parts[i].node.namespace, parts[i].node.name);
    }
  }

  /** Distinct positions hold distinct IDs. */
  lemma NodeIdsDiffer(e: Env, l: Lists, i: nat, j: nat)
    requires Hygienic(e, l) && i < j < |AllNodes(e, l)|
    ensures AllNodes(e, l)[i].id != AllNodes(e, l)[j].id
  {
    AllPartsOk(e, l);
    assert AllNodes(e, l) == VerticesOf(AllParts(e, l), ClusterVertex(e, l));
    VertexIdsDiffer(AllParts(e, l), ClusterVertex(e, l), i, j);
  }

  lemma NodesAreSorted(e: Env, l: Lists)
    requires Hygienic(e, l)
    ensures Ascending(Built(e, l).nodes, ById)
    ensures forall n :: n in Built(e, l).nodes <==> n in AllNodes(e, l)
  {
    var ns := AllNodes(e, l);
    ByIdIsStrictOrder();
    forall i, j | 0 <= i < j < |ns| ensures ById(ns[i], ns[j]) || ById(ns[j], ns[i]) {
      NodeIdsDiffer(e, l, i, j);
      LessTotal(ns[i].id, ns[j].id);
    }
    SortBySorts(ns, ById);
  }

  lemma ByIdIsStrictOrder()
    ensures StrictOrder(ById) && StrictOrder(ByEdgeId)
  {
    forall a: Node, b: Node | ById(a, b) ensures !ById(b, a) { LessTotal(a.id, b.id); }
    forall a: Node, b: Node, c: Node | ById(a, b) && ById(b, c) ensures ById(a, c) { LessTransitive(a.id, b.id, c.id); }
    forall a: Edge, b: Edge | ByEdgeId(a, b) ensures !ByEdgeId(b, a) { LessTotal(a.id, b.id); }
    forall a: Edge, b: Edge, c: Edge | ByEdgeId(a, b) && ByEdgeId(b, c) ensures ByEdgeId(a, c) {
      LessTransitive(a.id, b.id, c.id);
    }
  }

  // -------------------------------------------------------------------- edges

  /** Filtering in place keeps, of the edges with both ends present, the first
      with each ID, in order. */
  lemma {:induction false} KeepFirstLaw(edges: seq<Edge>, present: set<string>)
    ensures var kept := KeepFirst(edges, present);
      && (forall e :: e in kept ==> e in edges && e.source in present && e.target in present)
      && (forall i, j :: 0 <= i < j < |kept| ==> kept[i].id != kept[j].id)
      && (forall e :: e in edges && e.source in present && e.target in present ==> e.id in EdgeIds(kept))
  {
    if edges != [] {
      var init, last := edges[..|edges| - 1], edges[|edges| - 1];
      assert edges == init + [last];
      KeepFirstLaw(init, present);
    }
  }

  /** Of two edges with one ID the second is dropped, though it may be another edge. */
  lemma ClashDropsSecond(a: Edge, b: Edge, present: set<string>)
    requires a.id == b.id && a.source in present && a.target in present
    ensures KeepFirst([a, b], present) == [a]
  {
    assert [a, b][..1] == [a] && [a][..0] == [];
    assert KeepFirst([a], present) == [a];
  }

  /** As happens to edges whose names hold an arrow in the wrong place. */
  lemma ClashingEdges() returns (a: Edge, b: Edge)
    ensures a == MakeEdge("a->b", "c", Contains) && b == MakeEdge("a", "b->c", Contains)
    ensures a != b && KeepFirst([a, b], {"a->b", "c", "a", "b->c"}) == [a]
  {
    a, b := MakeEdge("a->b", "c", Contains), MakeEdge("a", "b->c", Contains);
    EdgeIdClash();
    assert |a.source| != |b.source|;
    ClashDropsSecond(a, b, {"a->b", "c", "a", "b->c"});
  }

  /** The IDs of two edges of a build agree only if the edges do. */
  lemma EdgeIdDetermines(e: Env, l: Lists, a: Edge, b: Edge)
    requires Hygienic(e, l) && a in AllEdges(e, l) && b in AllEdges(e, l) && a.id == b.id
    ensures a == b
  {
    AllPartsOk(e, l);
    InFlatMap(AllParts(e, l), PartEdges, a);
    InFlatMap(AllParts(e, l), PartEdges, b);
    var p :| p in AllParts(e, l) && a in PartEdges(p);
    var q :| q in AllParts(e, l) && b in PartEdges(q);
    var k := EdgeKindOf(a, p);
    var k' := EdgeKindOf(b, q);
    EdgeTextFacts(k, k');
    EdgeTextFacts(k', k);
    EdgeIdInjective(EdgeText(k), a.source, a.target, EdgeText(k'), b.source, b.target);
  }

  lemma EdgeKindOf(e: Edge, p: Part) returns (k: EdgeKind)
    requires EdgeOk(e, p)
    ensures e == MakeEdge(e.source, e.target, k)
    ensures k == Contains ==> p.edges != [] && e == p.edges[0] && e.target == p.node.id
                              && exists s :: Holds(e, s, p.kind)
    ensures k == Backs ==> Links(e, Backs, KPVC, KPV)
  {
    if p.kind == KPod && exists s :: Links(e, RunsOn, KPod, s) { k := RunsOn; }
    else if p.kind == KPod && Links(e, Mounts, KPod, KPVC) { k := Mounts; }
    else if p.kind == KPVC && Links(e, Backs, KPVC, KPV) { k := Backs; }
    else if p.kind == KService && Links(e, Routes, KService, KPod) { k := Routes; }
    else { k := Contains; }
  }

  /** Deduplication by ID never discards a distinct edge: the built edges are
      exactly those generated with both ends present, in strict ID order. */
  lemma EdgesAreExact(e: Env, l: Lists)
    requires Hygienic(e, l)
    ensures Ascending(Built(e, l).edges, ByEdgeId)
    ensures forall x :: x in Built(e, l).edges <==>
      x in AllEdges(e, l) && x.source in NodeIds(AllNodes(e, l)) && x.target in NodeIds(AllNodes(e, l))
  {
    var all, present := AllEdges(e, l), NodeIds(AllNodes(e, l));
    var kept := KeepFirst(all, present);
    KeepFirstLaw(all, present);
    ByIdIsStrictOrder();
    forall i, j | 0 <= i < j < |kept| ensures ByEdgeId(kept[i], kept[j]) || ByEdgeId(kept[j], kept[i]) {
      LessTotal(kept[i].id, kept[j].id);
    }
    SortBySorts(kept, ByEdgeId);
    forall x | x in all && x.source in present && x.target in present ensures x in kept {
      var y :| y in kept && y.id == x.id;
      EdgeIdDetermines(e, l, x, y);
    }
  }
}
