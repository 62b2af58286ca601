/** What the namespace endpoint returns of a built graph, against what its comment
    promises (internal/collector/collector.go, NamespaceSnapshot): the namespace,
    the cluster vertex, and the nodes and volumes that its pods and claims refer to. */
module Endpoint {
  import opened Seqs
  import opened Ids
  import opened Topology
  import opened Build
  import opened BuildLaws
  import opened Forest
  import opened Hygiene
  import H = Health
  import R = Rollup
  import Scope
  import Order

  // ------------------------------------------------------------------ the promise

  /** A node that a pod of ns runs on, or a volume behind a claim of ns. */
  ghost predicate Referenced(g: Graph, ns: string, n: Node) {
    exists x, s :: x in g.edges && s in g.nodes && Refers(x, s, ns, n)
  }

  predicate Refers(x: Edge, s: Node, ns: string, n: Node) {
    && x.source == s.id && x.target == n.id && s.namespace == ns
    && ((s.kind == "Pod" && x.kind == "runs-on" && n.kind == "Node")
        || (s.kind == "PersistentVolumeClaim" && x.kind == "backs" && n.kind == "PersistentVolume"))
  }

  /** What the comment admits: the seeds, and what they refer to. */
  ghost predicate Promised(g: Graph, ns: string, n: Node) {
    Scope.IsSeed(n, ns) || Referenced(g, ns, n)
  }

  ghost predicate NoOtherNamespace(g: Graph, ns: string) {
    forall n :: n in g.nodes && n.kind == "Namespace" ==> n.name == ns
  }

  ghost predicate EveryNodeInUse(g: Graph, ns: string) {
    forall n :: n in g.nodes && n.kind == "Node" ==> Referenced(g, ns, n)
  }

  predicate Joins(g: Graph, x: Edge, s: Node, t: Node) {
    s in g.nodes && t in g.nodes && x.source == s.id && x.target == t.id
  }

  /** No edge leads from what is promised to what is not. */
  ghost predicate StaysPromised(g: Graph, ns: string) {
    forall x, s, t :: x in g.edges && Joins(g, x, s, t) && Promised(g, ns, s) ==> Promised(g, ns, t)
  }

  // ------------------------------------------------------------- what is kept

  ghost function PromisedIds(g: Graph, ns: string): set<string> {
    set n | n in g.nodes && Promised(g, ns, n) :: n.id
  }

  lemma {:induction false} SweptWithin(edges: seq<Edge>, seeds: set<string>, bound: set<string>)
    requires seeds <= bound && forall x :: x in edges && x.source in bound ==> x.target in bound
    ensures Scope.Swept(edges, seeds) <= bound
    decreases |edges|
  {
    if edges != [] {
      var init, last := edges[..|edges| - 1], edges[|edges| - 1];
      assert edges == init + [last] && last in edges;
      SweptWithin(init, seeds, bound);
    }
  }

  lemma SeedsPromised(g: Graph, ns: string)
    ensures Scope.Seeds(g, ns) <= PromisedIds(g, ns)
  {
  }

  lemma EdgeStays(g: Graph, ns: string, x: Edge)
    requires Scope.Closed(g) && StaysPromised(g, ns) && x in g.edges && x.source in PromisedIds(g, ns)
    ensures x.target in PromisedIds(g, ns)
  {
    var s :| s in g.nodes && Promised(g, ns, s) && s.id == x.source;
    var t :| t in g.nodes && t.id == x.target;
    assert Joins(g, x, s, t);
  }

  ghost predicate IdsApart(g: Graph) {
    forall n, m :: n in g.nodes && m in g.nodes && n.id == m.id ==> n == m
  }

  lemma KeptArePromised(g: Graph, ns: string, n: Node)
    requires Scope.Closed(g) && StaysPromised(g, ns) && IdsApart(g) && n in g.nodes && n.id in Scope.Kept(g, ns)
    ensures Promised(g, ns, n)
  {
    SeedsPromised(g, ns);
    forall x | x in g.edges && x.source in PromisedIds(g, ns)
      ensures x.target in PromisedIds(g, ns)
    {
      EdgeStays(g, ns, x);
    }
    SweptWithin(g.edges, Scope.Seeds(g, ns), PromisedIds(g, ns));
    var m :| m in g.nodes && Promised(g, ns, m) && m.id == n.id;
  }

  /** A Cluster vertex with an edge to every Namespace and every Node vertex. */
  ghost predicate ClusterHoldsAll(g: Graph) {
    forall n :: n in g.nodes && (n.kind == "Namespace" || n.kind == "Node") ==> HeldByCluster(g, n)
  }

  ghost predicate HeldByCluster(g: Graph, n: Node) {
    exists x, c :: x in g.edges && c in g.nodes && c.kind == "Cluster" && x.source == c.id && x.target == n.id
  }

  lemma HeldIsKept(g: Graph, ns: string, n: Node)
    requires n in g.nodes && HeldByCluster(g, n)
    ensures n.id in Scope.Kept(g, ns) && Returned(g, ns, n)
  {
    var x, c :| x in g.edges && c in g.nodes && c.kind == "Cluster" && x.source == c.id && x.target == n.id;
    Scope.KeepIsBetween(g, ns);
    assert c.id in Scope.Seeds(g, ns);
  }

  /** The vertices that the endpoint returns. */
  ghost predicate Returned(g: Graph, ns: string, n: Node) { n in Scope.Induced(g, Scope.Kept(g, ns)).nodes }

  /** On any graph, whatever is promised is returned. */
  lemma PromisedIsReturned(g: Graph, ns: string, n: Node)
    requires n in g.nodes && Promised(g, ns, n)
    ensures Returned(g, ns, n)
  {
    Scope.KeepIsBetween(g, ns);
    if Scope.IsSeed(n, ns) {
      assert n.id in Scope.Seeds(g, ns);
    } else {
      var x, s :| x in g.edges && s in g.nodes && Refers(x, s, ns, n);
      assert s.id in Scope.Seeds(g, ns);
    }
  }

  /** What is returned is what is promised. */
  ghost predicate AsPromised(g: Graph, ns: string) {
    forall n :: n in g.nodes ==> (Returned(g, ns, n) <==> Promised(g, ns, n))
  }

  /** The shape that a built graph has, as far as the endpoint is concerned. */
  ghost predicate Shaped(g: Graph, ns: string) {
    && Scope.Closed(g) && IdsApart(g) && ClusterHoldsAll(g)
    && (forall n :: n in g.nodes && (n.kind == "Namespace" || n.kind == "Node") ==> n.namespace != ns)
    && (NoOtherNamespace(g, ns) && EveryNodeInUse(g, ns) ==> StaysPromised(g, ns))
  }

  lemma AsPromisedIffShaped(g: Graph, ns: string)
    requires Shaped(g, ns)
    ensures AsPromised(g, ns) <==> NoOtherNamespace(g, ns) && EveryNodeInUse(g, ns)
  {
    if NoOtherNamespace(g, ns) && EveryNodeInUse(g, ns) {
      forall n | n in g.nodes ensures Returned(g, ns, n) <==> Promised(g, ns, n) {
        if Returned(g, ns, n) { KeptArePromised(g, ns, n); }
        if Promised(g, ns, n) { PromisedIsReturned(g, ns, n); }
      }
    }
    if AsPromised(g, ns) {
      forall n | n in g.nodes && n.kind == "Namespace" ensures n.name == ns { HeldIsKept(g, ns, n); }
      forall n | n in g.nodes && n.kind == "Node" ensures Referenced(g, ns, n) { HeldIsKept(g, ns, n); }
    }
  }

  // ---------------------------------------------------------- edges of a build

  predicate IsWorkload(k: Kind) { k == KDeployment || k == KStatefulSet || k == KDaemonSet }

  /** An edge to the object's vertex, from what contains it. */
  ghost predicate Inward(p: Part, x: Edge) {
    x.target == p.node.id
    && (|| (x.source == CLUSTER_ID && (p.kind == KNamespace || p.kind == KNode))
        || x.source == IdOf(KNamespace, "", p.node.namespace)
        || (exists k, w :: IsWorkload(k) && GoodName(w) && x.source == IdOf(k, p.node.namespace, w)))
  }

  /** An edge from the object's vertex, to something in its namespace, to the node
      it runs on, or to the volume behind it. */
  ghost predicate Outward(p: Part, x: Edge) {
    x.source == p.node.id
    && (|| (p.kind == KPod && x.kind == "runs-on" && exists m :: x.target == IdOf(KNode, "", m))
        || (p.kind == KPVC && x.kind == "backs" && exists v :: x.target == IdOf(KPV, "", v))
        || ((p.kind == KPod || p.kind == KService)
            && exists k, m :: (k == KPVC || k == KPod) && x.target == IdOf(k, p.node.namespace, m)))
  }

  ghost predicate EdgesShaped(p: Part) {
    forall x :: x in p.edges ==> Inward(p, x) || Outward(p, x)
  }

  lemma NodeShaped(n: NodeObject)
    ensures EdgesShaped(NodePart(n))
  {
  }

  lemma WorkloadShaped(e: Env, k: Kind, w: WorkloadObject)
    ensures EdgesShaped(WorkloadPart(e, k, w))
  {
  }

  lemma PVCShaped(e: Env, c: PVCObject)
    ensures EdgesShaped(PVCPart(e, c))
  {
    var p := PVCPart(e, c);
    assert Inward(p, p.edges[0]);
    if c.volumeName != "" {
      assert p.edges[1].target == IdOf(KPV, "", c.volumeName);
      assert Outward(p, p.edges[1]);
    }
  }

  lemma RouteShaped(e: Env, s: ServiceObject, p: Part, x: Edge)
    requires p.kind == KService && p.node.id == IdOf(KService, s.ns, s.name) && p.node.namespace == s.ns
    requires x in FlatMap(Deduped(FlatMap(Subsets(e, s.ns, s.name), SubsetPods)), ServiceRoutes(e, s))
    ensures Outward(p, x)
  {
    var name := FromFlatMap(Deduped(FlatMap(Subsets(e, s.ns, s.name), SubsetPods)), ServiceRoutes(e, s), x);
    assert x.target == IdOf(KPod, s.ns, name);
  }

  lemma ServiceShaped(e: Env, s: ServiceObject)
    ensures EdgesShaped(ServicePart(e, s))
  {
    var p := ServicePart(e, s);
    var routes := FlatMap(Deduped(FlatMap(Subsets(e, s.ns, s.name), SubsetPods)), ServiceRoutes(e, s));
    forall x | x in p.edges ensures Inward(p, x) || Outward(p, x) {
      InTwo(x, [p.edges[0]], routes);
      if x != p.edges[0] { RouteShaped(e, s, p, x); }
    }
  }

  lemma ParentShaped(e: Env, o: PodObject, p: Part, x: Edge)
    requires GoodName(o.ns) && GoodOwners(e, [o]) && p.node.namespace == o.ns
    requires x.source == ParentOfPod(e, o) && x.target == p.node.id
    ensures Inward(p, x)
  {
    assert o in [o];
    OwnersGood(e, o.ns, o.owners);
    WorkloadForPodKind(e, o.ns, o.owners);
  }

  lemma PlacementShaped(o: PodObject, p: Part, x: Edge)
    requires p.kind == KPod && p.node.id == IdOf(KPod, o.ns, o.name) && x in PlacementEdges(o)
    ensures Outward(p, x)
  {
    assert x.target == IdOf(KNode, "", o.nodeName);
  }

  lemma ClaimShaped(o: PodObject, p: Part, x: Edge)
    requires p.kind == KPod && p.node.id == IdOf(KPod, o.ns, o.name) && p.node.namespace == o.ns
    requires x in FlatMap(o.claims, ClaimEdge(o))
    ensures Outward(p, x)
  {
    var claim := FromFlatMap(o.claims, ClaimEdge(o), x);
    assert x.target == IdOf(KPVC, o.ns, claim);
  }

  lemma PodEdgeShaped(e: Env, o: PodObject, p: Part, x: Edge)
    requires GoodName(o.ns) && GoodOwners(e, [o]) && x in PodEdges(e, o)
    requires p.kind == KPod && p.node.id == IdOf(KPod, o.ns, o.name) && p.node.namespace == o.ns
    ensures Inward(p, x) || Outward(p, x)
  {
    var claims := FlatMap(o.claims, ClaimEdge(o));
    InTwo(x, [PodEdges(e, o)[0]], PlacementEdges(o) + claims);
    if x == PodEdges(e, o)[0] {
      ParentShaped(e, o, p, x);
    } else {
      InTwo(x, PlacementEdges(o), claims);
      if x in PlacementEdges(o) { PlacementShaped(o, p, x); } else { ClaimShaped(o, p, x); }
    }
  }

  lemma PodShaped(e: Env, o: PodObject)
    requires GoodName(o.ns) && GoodOwners(e, [o])
    ensures EdgesShaped(PodPart(e, o))
  {
    var p := PodPart(e, o);
    forall x | x in p.edges ensures Inward(p, x) || Outward(p, x) { PodEdgeShaped(e, o, p, x); }
  }

  lemma SpaceShaped(s: Space, r: H.Result)
    ensures EdgesShaped(SpacePartAt(s, r))
  {
  }

  lemma NodesShaped(e: Env, xs: seq<NodeObject>, p: Part)
    requires p in FlatMap(xs, NodeParts(e))
    ensures EdgesShaped(p)
  {
    var x := FromFlatMap(xs, NodeParts(e), p);
    NodeShaped(x);
  }

  lemma PVCsShaped(e: Env, xs: seq<PVCObject>, p: Part)
    requires p in FlatMap(xs, PVCParts(e))
    ensures EdgesShaped(p)
  {
    var x := FromFlatMap(xs, PVCParts(e), p);
    PVCShaped(e, x);
  }

  lemma OneServiceShaped(e: Env, x: ServiceObject, p: Part)
    requires p in ServiceParts(e)(x)
    ensures EdgesShaped(p)
  {
    ServiceShaped(e, x);
  }

  lemma ServicesShaped(e: Env, xs: seq<ServiceObject>, p: Part)
    requires p in FlatMap(xs, ServiceParts(e))
    ensures EdgesShaped(p)
  {
    var x := FromFlatMap(xs, ServiceParts(e), p);
    OneServiceShaped(e, x, p);
  }

  lemma PVsShaped(e: Env, xs: seq<PVObject>, p: Part)
    requires p in FlatMap(xs, PVParts(e))
    ensures EdgesShaped(p)
  {
    var x := FromFlatMap(xs, PVParts(e), p);
  }

  lemma WorkloadsShaped(e: Env, k: Kind, xs: seq<WorkloadObject>, p: Part)
    requires p in FlatMap(xs, WorkloadParts(e, k))
    ensures EdgesShaped(p)
  {
    var x := FromFlatMap(xs, WorkloadParts(e, k), p);
    WorkloadShaped(e, k, x);
  }

  lemma OnePodShaped(e: Env, x: PodObject, p: Part)
    requires GoodName(x.ns) && GoodOwners(e, [x]) && p in PodParts(e)(x)
    ensures EdgesShaped(p)
  {
    PodShaped(e, x);
  }

  lemma PodsShaped(e: Env, xs: seq<PodObject>, p: Part)
    requires Named(xs, PodAt) && GoodOwners(e, xs) && p in FlatMap(xs, PodParts(e))
    ensures EdgesShaped(p)
  {
    var x := FromFlatMap(xs, PodParts(e), p);
    GoodPod(e, xs, x);
    OnePodShaped(e, x, p);
  }

  lemma GoodPod(e: Env, xs: seq<PodObject>, x: PodObject)
    requires Named(xs, PodAt) && GoodOwners(e, xs) && x in xs
    ensures GoodName(x.ns) && GoodOwners(e, [x])
  {
    assert GoodNames(PodAt(x));
  }

  lemma SpacesShaped(e: Env, spaces: seq<Space>, objects: seq<Part>, p: Part)
    requires p in FlatMap(spaces, SpaceParts(e, objects))
    ensures EdgesShaped(p)
  {
    var s := FromFlatMap(spaces, SpaceParts(e, objects), p);
    SpaceShaped(s, R.AggregateOf(FlatMap(objects, RollInto(s.name)), e.texts));
  }

  lemma PartShaped(e: Env, l: Lists, p: Part)
    requires CleanLists(e, l) && p in AllParts(e, l) && p.kind != KCluster
    ensures EdgesShaped(p)
  {
    PartSource(e, l, p);
    match p.kind
    case KNode => NodesShaped(e, l.nodes, p);
    case KPV => PVsShaped(e, l.pvs, p);
    case KDeployment => WorkloadsShaped(e, KDeployment, l.deployments, p);
    case KStatefulSet => WorkloadsShaped(e, KStatefulSet, l.statefulSets, p);
    case KDaemonSet => WorkloadsShaped(e, KDaemonSet, l.daemonSets, p);
    case KPVC => PVCsShaped(e, l.pvcs, p);
    case KService => ServicesShaped(e, l.services, p);
    case KPod => PodsShaped(e, l.pods, p);
    case KNamespace => SpacesShaped(e, Spaces(e, l), ObjectParts(e, l), p);
    case KCluster =>
  }

  // ------------------------------------------------------------ reading IDs back

  /** n is a vertex whose ID was put together from clean names of kind k. */
  ghost predicate CleanVertex(n: Node, k: Kind) {
    k != KCluster && n.kind == KindText(k) && n.id == IdOf(k, n.namespace, n.name) && '/' !in n.namespace
      && '/' !in n.name
  }

  lemma RestTellsNamespace(ns: string, name: string, ns': string, name': string)
    requires '/' !in ns && '/' !in name && '/' !in ns' && ns' != "" && Rest(ns, name) == Rest(ns', name')
    ensures ns == ns'
  {
    assert Rest(ns', name')[|ns'|] == '/';
    assert '/' in Rest(ns', name');
    if ns != "" { SplitAtFirst(ns, name, ns', name', '/'); }
  }

  /** What an ID says about the vertex it is of. */
  lemma ReadBack(n: Node, k: Kind, k': Kind, ns: string, name: string)
    requires CleanVertex(n, k) && n.id == IdOf(k', ns, name)
    ensures k == k'
    ensures '/' !in ns && '/' !in name ==> n.namespace == ns && n.name == name
    ensures '/' !in ns && ns != "" ==> n.namespace == ns
  {
    KindTextFacts(k, k');
    KindTextFacts(k', k);
    IdTellsKind(KindText(k), n.namespace, n.name, KindText(k'), ns, name);
    if '/' !in ns && '/' !in name { RestInjective(n.namespace, n.name, ns, name); }
    if '/' !in ns && ns != "" { RestTellsNamespace(n.namespace, n.name, ns, name); }
  }

  lemma NotTheCluster(n: Node, k: Kind)
    requires CleanVertex(n, k)
    ensures n.id != CLUSTER_ID
  {
    IdHasSlash(k, n.namespace, n.name);
  }

  // ------------------------------------------------------------------- one step

  /** What holds of a built graph when the namespace is alone and every Node in use. */
  ghost predicate Alone(g: Graph, ns: string) { NoOtherNamespace(g, ns) && EveryNodeInUse(g, ns) && ns != "" }

  lemma KindsDiffer(k: Kind, k': Kind)
    requires k != k'
    ensures KindText(k) != KindText(k')
  {
  }

  /** A promised vertex of a namespaced kind lies in the namespace. */
  lemma PromisedNamespaced(g: Graph, ns: string, s: Node, k: Kind)
    requires CleanVertex(s, k) && k != KNamespace && k != KNode && k != KPV && Promised(g, ns, s)
    ensures s.namespace == ns
  {
    KindsDiffer(k, KNamespace);
    KindsDiffer(k, KNode);
    KindsDiffer(k, KPV);
    KindsDiffer(k, KCluster);
  }

  lemma PromisedNamespace(g: Graph, ns: string, s: Node)
    requires CleanVertex(s, KNamespace) && s.namespace == "" != ns && Promised(g, ns, s)
    ensures s.name == ns
  {
  }

  lemma InwardStep(g: Graph, ns: string, p: Part, x: Edge, s: Node, t: Node, ks: Option<Kind>, kt: Kind)
    requires Alone(g, ns) && Joins(g, x, s, t) && Promised(g, ns, s) && Inward(p, x)
    requires CleanVertex(t, kt) && CleanVertex(p.node, p.kind)
    requires if ks.None? then s.id == CLUSTER_ID else CleanVertex(s, ks.value)
    ensures Promised(g, ns, t)
  {
    ReadBack(t, kt, p.kind, p.node.namespace, p.node.name);
    if x.source == CLUSTER_ID && (p.kind == KNamespace || p.kind == KNode) {
      HeldStep(g, ns, t, kt);
    } else if x.source == IdOf(KNamespace, "", p.node.namespace) {
      IdHasSlash(KNamespace, "", p.node.namespace);
      ReadBack(s, ks.value, KNamespace, "", p.node.namespace);
      PromisedNamespace(g, ns, s);
    } else {
      var k, w :| IsWorkload(k) && GoodName(w) && x.source == IdOf(k, p.node.namespace, w);
      IdHasSlash(k, p.node.namespace, w);
      ReadBack(s, ks.value, k, p.node.namespace, w);
      PromisedNamespaced(g, ns, s, k);
    }
  }

  lemma HeldStep(g: Graph, ns: string, t: Node, k: Kind)
    requires Alone(g, ns) && t in g.nodes && CleanVertex(t, k) && (k == KNamespace || k == KNode)
    ensures Promised(g, ns, t)
  {
  }

  lemma OutwardStep(g: Graph, ns: string, p: Part, x: Edge, s: Node, t: Node, ks: Option<Kind>, kt: Kind)
    requires ns != "" && x in g.edges && Joins(g, x, s, t) && Promised(g, ns, s) && Outward(p, x)
    requires CleanVertex(t, kt) && CleanVertex(p.node, p.kind)
    requires if ks.None? then s.id == CLUSTER_ID else CleanVertex(s, ks.value)
    ensures Promised(g, ns, t)
  {
    NotTheCluster(p.node, p.kind);
    ReadBack(s, ks.value, p.kind, p.node.namespace, p.node.name);
    PromisedNamespaced(g, ns, s, p.kind);
    if p.kind == KPod && x.kind == "runs-on" && exists m :: x.target == IdOf(KNode, "", m) {
      var m :| x.target == IdOf(KNode, "", m);
      ReadBack(t, kt, KNode, "", m);
      assert Refers(x, s, ns, t);
    } else if p.kind == KPVC && x.kind == "backs" && exists v :: x.target == IdOf(KPV, "", v) {
      var v :| x.target == IdOf(KPV, "", v);
      ReadBack(t, kt, KPV, "", v);
      assert Refers(x, s, ns, t);
    } else {
      var k, m :| (k == KPVC || k == KPod) && x.target == IdOf(k, p.node.namespace, m);
      ReadBack(t, kt, k, p.node.namespace, m);
    }
  }

  // -------------------------------------------------------------------- theorem

  /** Each vertex of a build has a clean ID, the Cluster's apart. */
  lemma VertexIsClean(e: Env, l: Lists, n: Node) returns (k: Option<Kind>)
    requires Hygienic(e, l) && n in AllNodes(e, l)
    ensures if k.None? then n == ClusterVertex(e, l) else CleanVertex(n, k.value)
    ensures k.Some? && (k.value == KNamespace || k.value == KNode) ==> n.namespace == ""
  {
    InAllNodes(e, l, n);
    AllPartsOk(e, l);
    k := None;
    if n != ClusterVertex(e, l) {
      var p :| p in AllParts(e, l) && p.node == n;
      k := Some(p.kind);
      if p.kind == KNamespace || p.kind == KNode { HeldPart(e, l, p); }
    }
  }

  lemma NodeOutside(e: Env, xs: seq<NodeObject>, p: Part)
    requires p in FlatMap(xs, NodeParts(e))
    ensures p.node.namespace == "" && p.edges != [] && p.edges[0] == MakeEdge(CLUSTER_ID, p.node.id, Contains)
  {
    var x := FromFlatMap(xs, NodeParts(e), p);
  }

  lemma SpaceOutside(e: Env, spaces: seq<Space>, objects: seq<Part>, p: Part)
    requires p in FlatMap(spaces, SpaceParts(e, objects))
    ensures p.node.namespace == "" && p.edges != [] && p.edges[0] == MakeEdge(CLUSTER_ID, p.node.id, Contains)
  {
    var x := FromFlatMap(spaces, SpaceParts(e, objects), p);
  }

  lemma StepPromised(e: Env, l: Lists, g: Graph, ns: string, x: Edge, s: Node, t: Node)
    requires CleanLists(e, l) && Hygienic(e, l) && g.nodes == Built(e, l).nodes && Alone(g, ns)
    requires x in g.edges && x in AllEdges(e, l) && Joins(g, x, s, t) && s in AllNodes(e, l) && t in AllNodes(e, l)
    requires Promised(g, ns, s)
    ensures Promised(g, ns, t)
  {
    var p := EdgePart(e, l, x);
    var ks := VertexIsClean(e, l, s);
    var kt := VertexIsClean(e, l, t);
    TargetIsNoCluster(p, x);
    if Inward(p, x) {
      InwardStep(g, ns, p, x, s, t, ks, kt.value);
    } else {
      OutwardStep(g, ns, p, x, s, t, ks, kt.value);
    }
  }

  lemma EdgePart(e: Env, l: Lists, x: Edge) returns (p: Part)
    requires CleanLists(e, l) && Hygienic(e, l) && x in AllEdges(e, l)
    ensures (Inward(p, x) || Outward(p, x)) && CleanVertex(p.node, p.kind)
  {
    var k;
    p, k := EdgeComesFrom(e, l, x);
    PartShaped(e, l, p);
  }

  lemma TargetIsNoCluster(p: Part, x: Edge)
    requires (Inward(p, x) || Outward(p, x)) && CleanVertex(p.node, p.kind)
    ensures x.target != CLUSTER_ID
  {
    NotTheCluster(p.node, p.kind);
    if !Inward(p, x) { OutsideHasSlash(p, x); }
  }

  lemma OutsideHasSlash(p: Part, x: Edge)
    requires Outward(p, x)
    ensures x.target != CLUSTER_ID
  {
    if p.kind == KPod && x.kind == "runs-on" && exists m :: x.target == IdOf(KNode, "", m) {
      var m :| x.target == IdOf(KNode, "", m);
      IdHasSlash(KNode, "", m);
    } else if p.kind == KPVC && x.kind == "backs" && exists v :: x.target == IdOf(KPV, "", v) {
      var v :| x.target == IdOf(KPV, "", v);
      IdHasSlash(KPV, "", v);
    } else {
      var k, m :| (k == KPVC || k == KPod) && x.target == IdOf(k, p.node.namespace, m);
      IdHasSlash(k, p.node.namespace, m);
    }
  }

  lemma HeldEdge(e: Env, l: Lists, n: Node, k: Kind) returns (x: Edge)
    requires n in AllNodes(e, l) && CleanVertex(n, k) && (k == KNamespace || k == KNode)
    ensures x in AllEdges(e, l) && x == MakeEdge(CLUSTER_ID, n.id, Contains)
  {
    var p := PartOfVertex(e, l, n, k);
    HeldPart(e, l, p);
    x := p.edges[0];
    InAllEdges(AllParts(e, l), p, x);
  }

  lemma PartOfVertex(e: Env, l: Lists, n: Node, k: Kind) returns (p: Part)
    requires n in AllNodes(e, l) && CleanVertex(n, k)
    ensures p in AllParts(e, l) && p.node == n && p.kind == k
  {
    var k' := VertexHasKind(e, l, n);
    KindTextFacts(k, k');
    p :| p in AllParts(e, l) && p.node == n && p.kind == k;
  }

  lemma HeldPart(e: Env, l: Lists, p: Part)
    requires p in AllParts(e, l) && (p.kind == KNamespace || p.kind == KNode)
    ensures p.node.namespace == "" && p.edges != [] && p.edges[0] == MakeEdge(CLUSTER_ID, p.node.id, Contains)
  {
    PartSource(e, l, p);
    if p.kind == KNode { NodeOutside(e, l.nodes, p); } else { SpaceOutside(e, Spaces(e, l), ObjectParts(e, l), p); }
  }

  lemma HeldKind(n: Node, k: Kind)
    requires CleanVertex(n, k) && (n.kind == "Namespace" || n.kind == "Node")
    ensures k == KNamespace || k == KNode
  {
    if n.kind == "Namespace" { KindTextFacts(k, KNamespace); } else { KindTextFacts(k, KNode); }
  }

  lemma NotTheRoot(e: Env, l: Lists, n: Node)
    requires n.kind == "Namespace" || n.kind == "Node"
    ensures n != ClusterVertex(e, l)
  {
    ClusterIsBuilt(e, l);
    assert n.kind[0] == 'N' && "Cluster"[0] == 'C';
  }

  /** The part of a Namespace or Node vertex, and so its edge, is generated. */
  lemma HeldVertex(e: Env, l: Lists, n: Node) returns (x: Edge)
    requires Hygienic(e, l) && n in AllNodes(e, l) && (n.kind == "Namespace" || n.kind == "Node")
    ensures n.namespace == "" && x in AllEdges(e, l) && x == MakeEdge(CLUSTER_ID, n.id, Contains)
  {
    var k := VertexIsClean(e, l, n);
    NotTheRoot(e, l, n);
    HeldKind(n, k.value);
    x := HeldEdge(e, l, n, k.value);
  }

  lemma BuiltHolds(e: Env, l: Lists, n: Node)
    requires Hygienic(e, l) && n in AllNodes(e, l) && (n.kind == "Namespace" || n.kind == "Node")
    ensures HeldByCluster(Built(e, l), n) && n.namespace == ""
  {
    var x := HeldVertex(e, l, n);
    ClusterIsBuilt(e, l);
    EdgeIsBuilt(e, l, x, ClusterVertex(e, l), n);
    NodesAreSorted(e, l);
    assert ClusterVertex(e, l) in Built(e, l).nodes;
  }

  lemma BuiltIdsApart(e: Env, l: Lists)
    requires Hygienic(e, l)
    ensures IdsApart(Built(e, l))
  {
    NodesAreSorted(e, l);
    AscendingIdsApart(Built(e, l));
  }

  lemma AscendingIdsApart(g: Graph)
    requires Order.Ascending(g.nodes, ById)
    ensures IdsApart(g)
  {
    forall n, m | n in g.nodes && m in g.nodes && n.id == m.id ensures n == m {
      var i := PositionIn(g.nodes, n);
      var j := PositionIn(g.nodes, m);
      Order.LessTotal(n.id, m.id);
    }
  }

  lemma BuiltStays(e: Env, l: Lists, ns: string)
    requires CleanLists(e, l) && Hygienic(e, l) && Alone(Built(e, l), ns)
    ensures StaysPromised(Built(e, l), ns)
  {
    var g := Built(e, l);
    NodesAreSorted(e, l);
    EdgesAreExact(e, l);
    forall x, s, t | x in g.edges && Joins(g, x, s, t) && Promised(g, ns, s) ensures Promised(g, ns, t) {
      StepPromised(e, l, g, ns, x, s, t);
    }
  }

  lemma BuiltIsShaped(e: Env, l: Lists, ns: string)
    requires CleanLists(e, l) && ns != ""
    ensures Shaped(Built(e, l), ns)
  {
    CleanListsAreHygienic(e, l);
    BuiltIsForest(e, l);
    BuiltIdsApart(e, l);
    NodesAreSorted(e, l);
    var g := Built(e, l);
    forall n | n in g.nodes && (n.kind == "Namespace" || n.kind == "Node")
      ensures HeldByCluster(g, n) && n.namespace != ns
    {
      BuiltHolds(e, l, n);
    }
    if NoOtherNamespace(g, ns) && EveryNodeInUse(g, ns) { BuiltStays(e, l, ns); }
  }

  /** The endpoint keeps its promise for a namespace if and only if there is no
      other one and each Node runs a pod of it. */
  lemma AsPromisedIff(e: Env, l: Lists, ns: string)
    requires CleanLists(e, l) && ns != ""
    ensures AsPromised(Built(e, l), ns) <==> NoOtherNamespace(Built(e, l), ns) && EveryNodeInUse(Built(e, l), ns)
  {
    BuiltIsShaped(e, l, ns);
    AsPromisedIffShaped(Built(e, l), ns);
  }

  // ------------------------------------------------------- what else is returned

  lemma {:induction false} SharedPrefix(p: string, a: string, b: string)
    requires a != "" && b != "" && a[0] < b[0]
    ensures Order.Less(p + a, p + b)
  {
    if p == "" {
      assert p + a == a && p + b == b;
    } else {
      SharedPrefix(p[1..], a, b);
      assert (p + a)[1..] == p[1..] + a && (p + b)[1..] == p[1..] + b;
    }
  }

  /** The Cluster's edges come before those of the namespaces. */
  lemma ClusterEdgesFirst(target: string, m: string, target': string)
    ensures Order.Less(MakeEdge(CLUSTER_ID, target, Contains).id,
                       MakeEdge(IdOf(KNamespace, "", m), target', Contains).id)
  {
    var a, b := CLUSTER_ID + "->" + target, IdOf(KNamespace, "", m) + "->" + target';
    assert a[0] == 'C' && b[0] == 'N';
    SharedPrefix(EdgeText(Contains) + ":", a, b);
    assert MakeEdge(CLUSTER_ID, target, Contains).id == EdgeText(Contains) + ":" + a;
    assert MakeEdge(IdOf(KNamespace, "", m), target', Contains).id == EdgeText(Contains) + ":" + b;
  }

  /** So the one pass over the sorted edges goes from the Cluster to a namespace and
      on to what that contains. */
  lemma TwoStepsKept(g: Graph, ns: string, x: Edge, y: Edge)
    requires Order.Ascending(g.edges, ByEdgeId) && x in g.edges && y in g.edges && Order.Less(x.id, y.id)
    requires x.source in Scope.Seeds(g, ns) && y.source == x.target
    ensures y.target in Scope.Kept(g, ns)
  {
    var i := PositionIn(g.edges, x);
    var j := PositionIn(g.edges, y);
    Order.LessTotal(x.id, y.id);
    assert i < j;
    Scope.SweptClimbs(g.edges, Scope.Seeds(g, ns));
    assert Scope.Increasing([i, j]) && Scope.Walks(g.edges, Scope.Seeds(g, ns), y.target, [i, j]);
  }

  /** Whatever namespace is asked for, each one comes along with all that it contains
      directly. */
  lemma ContainedIsReturned(e: Env, l: Lists, ns: string, m: string, n: Node, t: Node)
    requires Hygienic(e, l) && n in AllNodes(e, l) && n.kind == "Namespace" && n.id == IdOf(KNamespace, "", m)
    requires t in AllNodes(e, l) && MakeEdge(n.id, t.id, Contains) in AllEdges(e, l)
    ensures Returned(Built(e, l), ns, t)
  {
    var g, c := Built(e, l), ClusterVertex(e, l);
    var x := HeldVertex(e, l, n);
    ClusterIsBuilt(e, l);
    NodesAreSorted(e, l);
    EdgeIsBuilt(e, l, x, c, n);
    EdgeIsBuilt(e, l, MakeEdge(n.id, t.id, Contains), n, t);
    EdgesAreExact(e, l);
    ClusterEdgesFirst(n.id, m, t.id);
    assert c.id in Scope.Seeds(g, ns);
    TwoStepsKept(g, ns, x, MakeEdge(n.id, t.id, Contains));
  }

  lemma SpacePartOf(e: Env, spaces: seq<Space>, objects: seq<Part>, s: Space) returns (p: Part)
    requires s in spaces
    ensures p in FlatMap(spaces, SpaceParts(e, objects))
    ensures p.node.kind == "Namespace" && p.node.id == IdOf(KNamespace, "", s.name)
  {
    p := SpacePartAt(s, R.AggregateOf(FlatMap(objects, RollInto(s.name)), e.texts));
    assert SpaceParts(e, objects)(s) == [p];
    InFlatMap(spaces, SpaceParts(e, objects), p);
  }

  lemma SpaceVertex(e: Env, l: Lists, s: Space) returns (n: Node)
    requires s in Spaces(e, l)
    ensures n in AllNodes(e, l) && n.kind == "Namespace" && n.id == IdOf(KNamespace, "", s.name)
  {
    var p := SpacePartOf(e, Spaces(e, l), ObjectParts(e, l), s);
    n := p.node;
    assert p in AllParts(e, l);
    InAllNodes(e, l, n);
  }

  lemma BarePodEdge(e: Env, p: PodObject)
    requires WorkloadForPod(e, p.ns, p.owners).None?
    ensures var q := PodPart(e, p);
      q.node.namespace == p.ns && MakeEdge(IdOf(KNamespace, "", p.ns), q.node.id, Contains) in q.edges
  {
    var q := PodPart(e, p);
    assert q.edges[0] == MakeEdge(IdOf(KNamespace, "", p.ns), q.node.id, Contains);
  }

  lemma PartIsReturned(e: Env, l: Lists, ns: string, s: Space, q: Part)
    requires Hygienic(e, l) && s in Spaces(e, l) && q in AllParts(e, l)
    requires MakeEdge(IdOf(KNamespace, "", s.name), q.node.id, Contains) in q.edges
    ensures Returned(Built(e, l), ns, q.node)
  {
    var n := SpaceVertex(e, l, s);
    InAllNodes(e, l, q.node);
    InAllEdges(AllParts(e, l), q, MakeEdge(n.id, q.node.id, Contains));
    ContainedIsReturned(e, l, ns, s.name, n, q.node);
  }

  /** So a pod without a workload is returned for every namespace asked for, its own
      or not. */
  lemma BarePodIsReturned(e: Env, l: Lists, ns: string, s: Space, p: PodObject)
    requires Hygienic(e, l) && s in Spaces(e, l) && p in l.pods && p.ns == s.name
    requires WorkloadForPod(e, p.ns, p.owners).None?
    ensures Returned(Built(e, l), ns, PodPart(e, p).node) && PodPart(e, p).node.namespace == p.ns
  {
    PodIsPart(e, l, KPod, p);
    BarePodEdge(e, p);
    PartIsReturned(e, l, ns, s, PodPart(e, p));
  }
}
