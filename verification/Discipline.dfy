/** Built graphs keep their blank Meta keys, so the live stream is exact for them. */
module Discipline {
  import opened Seqs
  import opened Keyed
  import opened Order
  import opened Topology
  import opened Build
  import opened BuildLaws
  import H = Health
  import R = Rollup
  import Stream

  /** The Meta keys that every vertex of a kind has. */
  function Always(k: Kind, clusterScope: bool): set<string> {
    match k
    case KCluster => {"scope"}
    case KNamespace => if clusterScope then {"phase"} else {}
    case KNode => {"schedulable", "kubelet", "roles"}
    case KPod => {"phase", "restarts"}
    case KPVC => {"phase"}
    case KPV => {"phase"}
    case KService => {"type", "clusterIP", "endpoints"}
    case _ => {"ready"}
  }

  /** Only keys that are always there may be blank. */
  predicate BlanksAreStandard(k: Kind, clusterScope: bool, meta: map<string, string>) {
    forall key :: key in meta && meta[key] == "" ==> key in Always(k, clusterScope)
  }

  /** The kinds with an optional key that buildGraph may set to "". */
  predicate HasOptional(k: Kind) { k == KPod || k == KPVC || k == KPV }

  /** v blank before means present after. */
  predicate Stays(v: Option<string>, v': Option<string>) { v == Some("") ==> v'.Some? }

  /** No object of the one listing loses a blank optional value by the other: a pod
      its image, a claim its storage class, a claim or volume its capacity. */
  ghost predicate BlanksStay(l: Lists, l': Lists) {
    && (forall p, p' :: p in l.pods && p' in l'.pods && IdOf(KPod, p.ns, p.name) == IdOf(KPod, p'.ns, p'.name) ==>
          Stays(p.image, p'.image))
    && (forall c, c' :: c in l.pvcs && c' in l'.pvcs && IdOf(KPVC, c.ns, c.name) == IdOf(KPVC, c'.ns, c'.name) ==>
          Stays(c.storageClass, c'.storageClass) && Stays(c.capacity, c'.capacity))
    && (forall v, v' :: v in l.pvs && v' in l'.pvs && IdOf(KPV, "", v.name) == IdOf(KPV, "", v'.name) ==>
          Stays(v.capacity, v'.capacity))
  }

  /** p has its standard keys and, but for optional ones, no other is blank. */
  ghost predicate MetaOk(e: Env, p: Part) {
    && Always(p.kind, e.clusterScope) <= p.node.meta.Keys
    && (HasOptional(p.kind) || BlanksAreStandard(p.kind, e.clusterScope, p.node.meta))
  }

  lemma PodBlanksKept(e: Env, p: PodObject, e': Env, p': PodObject)
    requires Stays(p.image, p'.image)
    ensures forall key :: key in PodMeta(e, p) && PodMeta(e, p)[key] == "" && key !in Always(KPod, true) ==>
              key in PodMeta(e', p')
  {
  }

  lemma PVCBlanksKept(c: PVCObject, c': PVCObject)
    requires Stays(c.storageClass, c'.storageClass) && Stays(c.capacity, c'.capacity)
    ensures forall key :: key in PVCMeta(c) && PVCMeta(c)[key] == "" && key !in Always(KPVC, true) ==>
              key in PVCMeta(c')
  {
  }

  lemma PVBlanksKept(v: PVObject, v': PVObject)
    requires Stays(v.capacity, v'.capacity)
    ensures forall key :: key in PVMeta(v) && PVMeta(v)[key] == "" && key !in Always(KPV, true) ==> key in PVMeta(v')
  {
  }

  lemma NodeMetaOk(n: NodeObject)
    ensures Always(KNode, true) <= NodeMeta(n).Keys && BlanksAreStandard(KNode, true, NodeMeta(n))
  {
  }

  lemma PVMetaOk(v: PVObject)
    ensures Always(KPV, true) <= PVMeta(v).Keys
  {
  }

  lemma PVCMetaOk(c: PVCObject)
    ensures Always(KPVC, true) <= PVCMeta(c).Keys
  {
  }

  lemma PodMetaOk(e: Env, p: PodObject)
    ensures Always(KPod, e.clusterScope) <= PodMeta(e, p).Keys
  {
  }

  lemma ServiceMetaOk(e: Env, s: ServiceObject)
    ensures Always(KService, e.clusterScope) <= ServiceMeta(e, s).Keys
    ensures BlanksAreStandard(KService, e.clusterScope, ServiceMeta(e, s))
  {
  }

  lemma MetaFlatMap<X(!new)>(e: Env, xs: seq<X>, f: X -> seq<Part>)
    requires forall x, p :: x in xs && p in f(x) ==> MetaOk(e, p)
    ensures forall p :: p in FlatMap(xs, f) ==> MetaOk(e, p)
  {
    forall p | p in FlatMap(xs, f) ensures MetaOk(e, p) { InFlatMap(xs, f, p); }
  }

  lemma NodePartMeta(e: Env, x: NodeObject)
    ensures MetaOk(e, NodePart(x))
  {
    NodeMetaOk(x);
  }

  lemma NodesMeta(e: Env, xs: seq<NodeObject>)
    ensures forall p :: p in FlatMap(xs, NodeParts(e)) ==> MetaOk(e, p)
  {
    forall x, p | x in xs && p in NodeParts(e)(x) ensures MetaOk(e, p) { NodePartMeta(e, x); }
    MetaFlatMap(e, xs, NodeParts(e));
  }

  lemma PVPartMeta(e: Env, x: PVObject)
    ensures MetaOk(e, PVPart(x))
  {
    PVMetaOk(x);
  }

  lemma PVsMeta(e: Env, xs: seq<PVObject>)
    ensures forall p :: p in FlatMap(xs, PVParts(e)) ==> MetaOk(e, p)
  {
    forall x, p | x in xs && p in PVParts(e)(x) ensures MetaOk(e, p) { PVPartMeta(e, x); }
    MetaFlatMap(e, xs, PVParts(e));
  }

  lemma PVCPartMeta(e: Env, x: PVCObject)
    ensures MetaOk(e, PVCPart(e, x))
  {
    PVCMetaOk(x);
  }

  lemma PVCsMeta(e: Env, xs: seq<PVCObject>)
    ensures forall p :: p in FlatMap(xs, PVCParts(e)) ==> MetaOk(e, p)
  {
    forall x, p | x in xs && p in PVCParts(e)(x) ensures MetaOk(e, p) { PVCPartMeta(e, x); }
    MetaFlatMap(e, xs, PVCParts(e));
  }

  lemma ServicePartMeta(e: Env, x: ServiceObject)
    ensures MetaOk(e, ServicePart(e, x))
  {
    ServiceMetaOk(e, x);
  }

  lemma ServicesMeta(e: Env, xs: seq<ServiceObject>)
    ensures forall p :: p in FlatMap(xs, ServiceParts(e)) ==> MetaOk(e, p)
  {
    forall x, p | x in xs && p in ServiceParts(e)(x) ensures MetaOk(e, p) { ServicePartMeta(e, x); }
    MetaFlatMap(e, xs, ServiceParts(e));
  }

  lemma PodPartMeta(e: Env, x: PodObject)
    ensures MetaOk(e, PodPart(e, x))
  {
    PodMetaOk(e, x);
  }

  lemma OnePodMeta(e: Env, x: PodObject, p: Part)
    requires p in PodParts(e)(x)
    ensures MetaOk(e, p)
  {
    PodPartMeta(e, x);
  }

  lemma PodsMeta(e: Env, xs: seq<PodObject>)
    ensures forall p :: p in FlatMap(xs, PodParts(e)) ==> MetaOk(e, p)
  {
    forall x, p | x in xs && p in PodParts(e)(x) ensures MetaOk(e, p) { OnePodMeta(e, x, p); }
    MetaFlatMap(e, xs, PodParts(e));
  }

  lemma WorkloadsMeta(e: Env, k: Kind, xs: seq<WorkloadObject>)
    requires k == KDeployment || k == KStatefulSet || k == KDaemonSet
    ensures forall p :: p in FlatMap(xs, WorkloadParts(e, k)) ==> MetaOk(e, p)
  {
    MetaFlatMap(e, xs, WorkloadParts(e, k));
  }

  lemma RunMeta(e: Env, l: Lists, k: Kind)
    ensures forall p :: p in RunOf(e, l, k) ==> MetaOk(e, p)
  {
    match k
    case KNode => NodesMeta(e, l.nodes);
    case KPV => PVsMeta(e, l.pvs);
    case KDeployment => WorkloadsMeta(e, k, l.deployments);
    case KStatefulSet => WorkloadsMeta(e, k, l.statefulSets);
    case KDaemonSet => WorkloadsMeta(e, k, l.daemonSets);
    case KPVC => PVCsMeta(e, l.pvcs);
    case KService => ServicesMeta(e, l.services);
    case KPod => PodsMeta(e, l.pods);
    case KNamespace =>
    case KCluster =>
  }

  lemma SpaceMetaOk(e: Env, l: Lists, s: Space)
    requires s in Spaces(e, l)
    ensures Always(KNamespace, e.clusterScope) == s.meta.Keys
  {
    InFlatMap(l.namespaces, PhaseSpace, s);
  }

  lemma SpacesMeta(e: Env, l: Lists, objects: seq<Part>, p: Part)
    requires p in FlatMap(Spaces(e, l), SpaceParts(e, objects))
    ensures MetaOk(e, p)
  {
    InFlatMap(Spaces(e, l), SpaceParts(e, objects), p);
    var s :| s in Spaces(e, l) && p in SpaceParts(e, objects)(s);
    SpaceMetaOk(e, l, s);
  }

  lemma PartMeta(e: Env, l: Lists, p: Part)
    requires p in AllParts(e, l)
    ensures MetaOk(e, p)
  {
    PartSource(e, l, p);
    if p.kind == KNamespace { SpacesMeta(e, l, ObjectParts(e, l), p); } else { RunMeta(e, l, p.kind); }
  }

  lemma PodVertex(e: Env, x: PodObject, p: Part)
    requires p in PodParts(e)(x)
    ensures p.node.meta == PodMeta(e, x) && p.node.id == IdOf(KPod, x.ns, x.name)
  {
  }

  lemma PodOf(e: Env, xs: seq<PodObject>, p: Part) returns (x: PodObject)
    requires p in FlatMap(xs, PodParts(e))
    ensures x in xs && p.node.meta == PodMeta(e, x) && p.node.id == IdOf(KPod, x.ns, x.name)
  {
    x := FromFlatMap(xs, PodParts(e), p);
    PodVertex(e, x, p);
  }

  lemma PVCOf(e: Env, xs: seq<PVCObject>, p: Part) returns (x: PVCObject)
    requires p in FlatMap(xs, PVCParts(e))
    ensures x in xs && p == PVCPart(e, x)
  {
    x := FromFlatMap(xs, PVCParts(e), p);
  }

  lemma PVOf(e: Env, xs: seq<PVObject>, p: Part) returns (x: PVObject)
    requires p in FlatMap(xs, PVParts(e))
    ensures x in xs && p == PVPart(x)
  {
    x := FromFlatMap(xs, PVParts(e), p);
  }

  lemma SamePodKeeps(e: Env, l: Lists, p: Part, e': Env, l': Lists, q: Part)
    requires p in FlatMap(l.pods, PodParts(e)) && q in FlatMap(l'.pods, PodParts(e'))
    requires BlanksStay(l, l') && p.node.id == q.node.id && Always(KPod, true) <= q.node.meta.Keys
    ensures BlankKeysKept(p.node.meta, q.node.meta)
  {
    var x := PodOf(e, l.pods, p);
    var y := PodOf(e', l'.pods, q);
    PodBlanksKept(e, x, e', y);
  }

  lemma PVCVertex(e: Env, x: PVCObject)
    ensures PVCPart(e, x).node.meta == PVCMeta(x) && PVCPart(e, x).node.id == IdOf(KPVC, x.ns, x.name)
  {
  }

  lemma SamePVCKeeps(e: Env, l: Lists, p: Part, e': Env, l': Lists, q: Part)
    requires p in FlatMap(l.pvcs, PVCParts(e)) && q in FlatMap(l'.pvcs, PVCParts(e'))
    requires BlanksStay(l, l') && p.node.id == q.node.id && Always(KPVC, true) <= q.node.meta.Keys
    ensures BlankKeysKept(p.node.meta, q.node.meta)
  {
    var x := PVCOf(e, l.pvcs, p);
    var y := PVCOf(e', l'.pvcs, q);
    PVCVertex(e, x);
    PVCVertex(e', y);
    PVCBlanksKept(x, y);
  }

  lemma PVVertex(e: Env, x: PVObject)
    ensures PVPart(x).node.meta == PVMeta(x) && PVPart(x).node.id == IdOf(KPV, "", x.name)
  {
  }

  lemma SamePVKeeps(e: Env, l: Lists, p: Part, e': Env, l': Lists, q: Part)
    requires p in FlatMap(l.pvs, PVParts(e)) && q in FlatMap(l'.pvs, PVParts(e'))
    requires BlanksStay(l, l') && p.node.id == q.node.id && Always(KPV, true) <= q.node.meta.Keys
    ensures BlankKeysKept(p.node.meta, q.node.meta)
  {
    var x := PVOf(e, l.pvs, p);
    var y := PVOf(e', l'.pvs, q);
    PVVertex(e, x);
    PVVertex(e', y);
    PVBlanksKept(x, y);
  }

  lemma AlwaysAnyScope(k: Kind, clusterScope: bool)
    requires HasOptional(k)
    ensures Always(k, clusterScope) == Always(k, true)
  {
  }

  /** A vertex keeps its blank keys from one build to the next. */
  lemma SameVertexKeeps(e: Env, l: Lists, p: Part, e': Env, l': Lists, q: Part)
    requires e.clusterScope == e'.clusterScope && BlanksStay(l, l')
    requires p in AllParts(e, l) && q in AllParts(e', l') && p.kind == q.kind && p.node.id == q.node.id
    ensures BlankKeysKept(p.node.meta, q.node.meta)
  {
    PartMeta(e, l, p);
    PartMeta(e', l', q);
    if HasOptional(p.kind) {
      PartSource(e, l, p);
      PartSource(e', l', q);
      AlwaysAnyScope(q.kind, e'.clusterScope);
      if p.kind == KPod { SamePodKeeps(e, l, p, e', l', q); }
      else if p.kind == KPVC { SamePVCKeeps(e, l, p, e', l', q); }
      else { SamePVKeeps(e, l, p, e', l', q); }
    }
  }

  /** A vertex of a build: the Cluster, or one of the parts. */
  lemma VertexPart(e: Env, l: Lists, n: Node) returns (k: Kind, p: Part)
    requires n in AllNodes(e, l)
    ensures IdHasKind(n.id, k)
    ensures if k == KCluster then n == ClusterVertex(e, l) else p in AllParts(e, l) && p.node == n && p.kind == k
  {
    k := VertexHasKind(e, l, n);
    p := Part(k, n, NoRoll, []);
    if k != KCluster {
      p :| p in AllParts(e, l) && p.node == n && p.kind == k;
    }
  }

  lemma ClusterKeeps(e: Env, l: Lists, e': Env, l': Lists)
    ensures BlankKeysKept(ClusterVertex(e, l).meta, ClusterVertex(e', l').meta)
  {
  }

  lemma {:induction false} IndexedIsMember(ns: seq<Node>, id: string)
    requires id in PutAll(map[], ns, NodeId)
    ensures PutAll(map[], ns, NodeId)[id] in ns && PutAll(map[], ns, NodeId)[id].id == id
    decreases |ns|
  {
    var init, last := ns[..|ns| - 1], ns[|ns| - 1];
    assert ns == init + [last];
    if id != last.id { IndexedIsMember(init, id); }
  }

  lemma IndexedVertex(e: Env, l: Lists, id: string)
    requires id in Index(Built(e, l)).nodes
    ensures Index(Built(e, l)).nodes[id] in AllNodes(e, l) && Index(Built(e, l)).nodes[id].id == id
  {
    IndexedIsMember(Built(e, l).nodes, id);
    SortByMembers(AllNodes(e, l), ById);
  }

  lemma VerticesKeep(e: Env, l: Lists, n: Node, e': Env, l': Lists, n': Node)
    requires e.clusterScope == e'.clusterScope && BlanksStay(l, l')
    requires n in AllNodes(e, l) && n' in AllNodes(e', l') && n.id == n'.id
    ensures BlankKeysKept(n.meta, n'.meta)
  {
    var k, p := VertexPart(e, l, n);
    var k', p' := VertexPart(e', l', n');
    IdHasOneKind(n.id, k, k');
    if k == KCluster {
      ClusterKeeps(e, l, e', l');
    } else {
      SameVertexKeeps(e, l, p, e', l', p');
    }
  }

  /** Two builds of one collector are disciplined when no object loses a blank
      optional value between their listings. */
  lemma BuildsAreDisciplined(e: Env, l: Lists, e': Env, l': Lists)
    requires e.clusterScope == e'.clusterScope && BlanksStay(l, l')
    ensures Disciplined(Built(e, l), Built(e', l'))
  {
    var o, n := Index(Built(e, l)).nodes, Index(Built(e', l')).nodes;
    forall id | id in o && id in n && NodesAgree(o[id], n[id]) ensures BlankKeysKept(o[id].meta, n[id].meta) {
      IndexedVertex(e, l, id);
      IndexedVertex(e', l', id);
      VerticesKeep(e, l, o[id], e', l', n[id]);
    }
  }

  // ------------------------------------------------------------ a hidden change

  /** Nothing is listed but one claim. */
  function OneClaim(c: PVCObject): Lists { Lists([], [], [], [], [], [c], [], [], []) }

  ghost function OneSpace(e: Env, p: Part): Part {
    SpacePartAt(Space(e.watched, map[]), WatchedRoll(e, p))
  }

  ghost function WatchedRoll(e: Env, p: Part): H.Result {
    R.AggregateOf(FlatMap([p], RollInto(e.watched)), e.texts)
  }

  lemma OnlyClaims(f: Kind -> seq<Part>, p: Part)
    requires f(KPVC) == [p] && forall k :: k != KPVC ==> f(k) == []
    ensures FlatMap(LOOPS, f) == [p]
  {
    var before, after := [KNode, KPV, KDeployment, KStatefulSet, KDaemonSet], [KService, KPod];
    FlatMapEmptyIff(before, f);
    FlatMapEmptyIff(after, f);
    FlatMapMiddle(before, KPVC, after, f);
    assert LOOPS == before + ([KPVC] + after);
  }

  lemma OneClaimRun(e: Env, c: PVCObject, k: Kind)
    ensures RunOf(e, OneClaim(c), k) == if k == KPVC then [PVCPart(e, c)] else []
  {
    FlatMapOne(c, PVCParts(e));
  }

  lemma OneClaimObjects(e: Env, c: PVCObject)
    ensures ObjectParts(e, OneClaim(c)) == [PVCPart(e, c)]
  {
    var f := Runs(e, OneClaim(c));
    forall k ensures f(k) == if k == KPVC then [PVCPart(e, c)] else [] { OneClaimRun(e, c, k); }
    OnlyClaims(f, PVCPart(e, c));
  }

  lemma OneClaimParts(e: Env, c: PVCObject)
    requires !e.clusterScope
    ensures AllParts(e, OneClaim(c)) == [PVCPart(e, c), OneSpace(e, PVCPart(e, c))]
  {
    var objects := [PVCPart(e, c)];
    OneClaimObjects(e, c);
    FlatMapOne(Space(e.watched, map[]), SpaceParts(e, objects));
  }

  /** A graph of these parts and this root. */
  function GraphOf(parts: seq<Part>, cluster: Node, at: int): Graph {
    var vertices := VerticesOf(parts, cluster);
    Graph(SortBy(vertices, ById), SortBy(KeepFirst(FlatMap(parts, PartEdges), NodeIds(vertices)), ByEdgeId), at)
  }

  lemma BuiltIsGraphOf(e: Env, l: Lists)
    ensures Built(e, l) == GraphOf(AllParts(e, l), ClusterVertex(e, l), e.now)
  {
  }

  lemma {:induction false} IndexFinds(ns: seq<Node>, n: Node)
    requires n in ns && forall m :: m in ns && m.id == n.id ==> m == n
    ensures n.id in PutAll(map[], ns, NodeId) && PutAll(map[], ns, NodeId)[n.id] == n
    decreases |ns|
  {
    var init, last := ns[..|ns| - 1], ns[|ns| - 1];
    assert ns == init + [last];
    if last != n {
      assert last in ns;
      IndexFinds(init, n);
    }
  }

  lemma ThreeVertices(p: Part, q: Part, cluster: Node, n: Node)
    ensures n in SortBy(VerticesOf([p, q], cluster), ById) <==> n == p.node || n == q.node || n == cluster
  {
    SortByMembers(VerticesOf([p, q], cluster), ById);
    InVertices([p, q], cluster, n);
    assert [p, q][0] == p && [p, q][1] == q;
  }

  /** The index of a graph of two parts with distinct IDs. */
  lemma IndexOfTwo(p: Part, q: Part, cluster: Node, at: int)
    requires p.node.id != q.node.id && p.node.id != cluster.id && q.node.id != cluster.id
    ensures Index(GraphOf([p, q], cluster, at)).nodes
            == map[p.node.id := p.node, q.node.id := q.node, cluster.id := cluster]
  {
    var ns := SortBy(VerticesOf([p, q], cluster), ById);
    forall n ensures n in ns <==> n == p.node || n == q.node || n == cluster { ThreeVertices(p, q, cluster, n); }
    IndexFinds(ns, p.node);
    IndexFinds(ns, q.node);
    IndexFinds(ns, cluster);
    var m := PutAll(map[], ns, NodeId);
    forall id | id in m ensures id == p.node.id || id == q.node.id || id == cluster.id { IndexedIsMember(ns, id); }
    assert m == map[p.node.id := p.node, q.node.id := q.node, cluster.id := cluster];
  }

  lemma TwoParts<T>(p: Part, q: Part, f: Part -> seq<T>)
    ensures FlatMap([p, q], f) == f(p) + f(q)
  {
    assert [p, q] == [p] + [q];
    FlatMapConcat([p], [q], f);
    FlatMapOne(p, f);
    FlatMapOne(q, f);
  }

  lemma TwoVertices(p: Part, q: Part, cluster: Node)
    ensures NodeIds(VerticesOf([p, q], cluster)) == {p.node.id, q.node.id, cluster.id}
  {
    TwoParts(p, q, PartNode);
    assert VerticesOf([p, q], cluster) == [p.node, q.node, cluster];
    var v := [p.node, q.node, cluster];
    assert v[0] in v && v[1] in v && v[2] in v;
  }

  lemma SameEdges(p: Part, p': Part, q: Part, cluster: Node, at: int, at': int)
    requires p.edges == p'.edges && p.node.id == p'.node.id
    ensures GraphOf([p, q], cluster, at).edges == GraphOf([p', q], cluster, at').edges
  {
    TwoParts(p, q, PartEdges);
    TwoParts(p', q, PartEdges);
    TwoVertices(p, q, cluster);
    TwoVertices(p', q, cluster);
  }

  lemma SelfAgrees(n: Node)
    ensures NodesAgree(n, n)
  {
  }

  lemma ThreeAgree(p: Node, p': Node, q: Node, r: Node)
    requires NodesAgree(p, p') && p.id == p'.id
    ensures var m, m' := map[p.id := p, q.id := q, r.id := r], map[p.id := p', q.id := q, r.id := r];
      m.Keys == m'.Keys && forall id :: id in m ==> NodesAgree(m[id], m'[id])
  {
    SelfAgrees(q);
    SelfAgrees(r);
  }

  /** If only a first part's vertex differs, and the comparison does not see it, no
      diff is sent although the indexes differ. */
  lemma UnseenChange(p: Part, p': Part, q: Part, cluster: Node, at: int, at': int, d: Diff)
    requires p.node.id != q.node.id && p.node.id != cluster.id && q.node.id != cluster.id
    requires p.edges == p'.edges && p.node != p'.node && NodesAgree(p.node, p'.node)
    requires IsDiff(GraphOf([p, q], cluster, at), GraphOf([p', q], cluster, at'), d)
    ensures d.Empty() && Index(GraphOf([p, q], cluster, at)) != Index(GraphOf([p', q], cluster, at'))
  {
    IndexOfTwo(p, q, cluster, at);
    IndexOfTwo(p', q, cluster, at');
    SameEdges(p, p', q, cluster, at, at');
    ThreeAgree(p.node, p'.node, q.node, cluster);
    var g, g' := GraphOf([p, q], cluster, at), GraphOf([p', q], cluster, at');
    DiffOfNothing(g, g', d);
    assert Index(g).nodes[p.node.id] != Index(g').nodes[p.node.id];
  }

  /** Two maps of two keys each that lookup with a default does not tell apart. */
  lemma BlankSwapped(k: string, a: string, b: string, x: string, y: string)
    requires k != a && k != b && a != b
    ensures var m, m' := map[k := x, a := ""], map[k := x, b := y];
      m != m' && |m| == |m'| && forall j :: j in m ==> Lookup(m', j) == m[j]
  {
    var m, m' := map[k := x, a := ""], map[k := x, b := y];
    assert a in m && a !in m';
    assert m.Keys == {k, a} && m'.Keys == {k, b};
    assert |m.Keys| == 2 && |m'.Keys| == 2;
  }

  lemma ClaimMetasAgree(c: PVCObject, q: string)
    requires c.storageClass == Some("") && c.capacity == None
    ensures var m, m' := PVCMeta(c), PVCMeta(c.(storageClass := None, capacity := Some(q)));
      m != m' && |m| == |m'| && forall k :: k in m ==> Lookup(m', k) == m[k]
  {
    KeysDiffer();
    BlankSwapped("phase", "storageClass", "capacity", PVCPhaseText(c.phase), q);
    BlankClass(c);
    CapacityOnly(c.(storageClass := None, capacity := Some(q)));
  }

  lemma KeysDiffer()
    ensures "phase" != "storageClass" && "phase" != "capacity" && "storageClass" != "capacity"
  {
    assert |"phase"| == 5 && |"storageClass"| == 12 && |"capacity"| == 8;
  }

  lemma BlankClass(c: PVCObject)
    requires c.storageClass == Some("") && c.capacity == None
    ensures PVCMeta(c) == map["phase" := PVCPhaseText(c.phase), "storageClass" := ""]
  {
  }

  lemma CapacityOnly(c: PVCObject)
    requires c.storageClass == None && c.capacity.Some?
    ensures PVCMeta(c) == map["phase" := PVCPhaseText(c.phase), "capacity" := c.capacity.value]
  {
  }

  lemma ClaimPartsAgree(e: Env, c: PVCObject, q: string)
    requires c.storageClass == Some("") && c.capacity == None
    ensures var p, p' := PVCPart(e, c), PVCPart(e, c.(storageClass := None, capacity := Some(q)));
      p.edges == p'.edges && p.roll == p'.roll && p.node != p'.node && NodesAgree(p.node, p'.node)
  {
    ClaimMetasAgree(c, q);
  }

  lemma OneClaimGraph(e: Env, c: PVCObject)
    requires !e.clusterScope
    ensures var p := PVCPart(e, c);
      Built(e, OneClaim(c)) == GraphOf([p, OneSpace(e, p)], ClusterNode(e, ClusterRollOf(e, p)), e.now)
  {
    OneClaimParts(e, c);
    BuiltIsGraphOf(e, OneClaim(c));
  }

  ghost function ClusterRollOf(e: Env, p: Part): H.Result {
    R.AggregateOf(FlatMap([p, OneSpace(e, p)], ClusterRoll), e.texts)
  }

  lemma TwoRolls(p: Part, s: Part)
    ensures FlatMap([p, s], ClusterRoll) == ClusterRoll(p) + ClusterRoll(s)
  {
    FlatMapOne(p, ClusterRoll);
    FlatMapOne(s, ClusterRoll);
    FlatMapConcat([p], [s], ClusterRoll);
    assert [p, s] == [p] + [s];
  }

  lemma RollsAgree(e: Env, p: Part, p': Part)
    requires p.roll == p'.roll
    ensures OneSpace(e, p) == OneSpace(e, p') && ClusterRollOf(e, p) == ClusterRollOf(e, p')
  {
    FlatMapOne(p, RollInto(e.watched));
    FlatMapOne(p', RollInto(e.watched));
    TwoRolls(p, OneSpace(e, p));
    TwoRolls(p', OneSpace(e, p));
  }

  lemma ThreeKinds(e: Env, c: PVCObject)
    ensures var p := PVCPart(e, c); var s := OneSpace(e, p);
      p.node.id != s.node.id && p.node.id != CLUSTER_ID && s.node.id != CLUSTER_ID
  {
    var p := PVCPart(e, c);
    var s := OneSpace(e, p);
    assert p.node.id == IdOf(KPVC, c.ns, c.name) && s.node.id == IdOf(KNamespace, "", e.watched);
    IdHasSlash(KPVC, c.ns, c.name);
    IdHasSlash(KNamespace, "", e.watched);
    assert IdHasKind(p.node.id, KPVC) && IdHasKind(s.node.id, KNamespace);
    if p.node.id == s.node.id { IdHasOneKind(p.node.id, KPVC, KNamespace); }
  }

  lemma BoundClaimTimeless(e: Env, e': Env, c: PVCObject)
    requires c.phase == H.ClaimBound && e' == e.(now := e'.now, before := e'.before)
    ensures PVCPart(e, c) == PVCPart(e', c)
  {
  }

  lemma RollsTimeless(e: Env, e': Env, p: Part)
    requires e' == e.(now := e'.now, before := e'.before)
    ensures OneSpace(e, p) == OneSpace(e', p)
    ensures ClusterNode(e, ClusterRollOf(e, p)) == ClusterNode(e', ClusterRollOf(e', p))
  {
  }

  /** Two builds of one collector that a rebuild does not tell apart: a bound claim
      whose storage class was set to "" has it unset, and gets a capacity. */
  lemma UndisciplinedBuilds(e: Env, e': Env, c: PVCObject, q: string, d: Diff)
    requires !e.clusterScope && e' == e.(now := e'.now, before := e'.before)
    requires c.phase == H.ClaimBound && c.storageClass == Some("") && c.capacity == None
    requires IsDiff(Built(e, OneClaim(c)), Built(e', OneClaim(c.(storageClass := None, capacity := Some(q)))), d)
    ensures d.Empty()
    ensures Index(Built(e, OneClaim(c))) != Index(Built(e', OneClaim(c.(storageClass := None, capacity := Some(q)))))
  {
    var c' := c.(storageClass := None, capacity := Some(q));
    var p, p' := PVCPart(e, c), PVCPart(e, c');
    ClaimPartsAgree(e, c, q);
    RollsAgree(e, p, p');
    BoundClaimTimeless(e, e', c');
    RollsTimeless(e, e', p');
    OneClaimGraph(e, c);
    OneClaimGraph(e', c');
    ThreeKinds(e, c);
    UnseenChange(p, p', OneSpace(e, p), ClusterNode(e, ClusterRollOf(e, p)), e.now, e'.now, d);
  }

  // --------------------------------------------------------------- end to end

  /** Two successive builds of one collector that lose no blank value. */
  ghost predicate SuccessiveBuilds(g: Graph, g': Graph) {
    exists e, l, e', l' ::
      g == Built(e, l) && g' == Built(e', l') && e.clusterScope == e'.clusterScope && BlanksStay(l, l')
  }

  lemma SuccessiveAreDisciplined(g: Graph, g': Graph)
    requires SuccessiveBuilds(g, g')
    ensures Disciplined(g, g')
  {
    var e, l, e', l' :|
      g == Built(e, l) && g' == Built(e', l') && e.clusterScope == e'.clusterScope && BlanksStay(l, l');
    BuildsAreDisciplined(e, l, e', l');
  }

  /** Each publication but the first is such a successor of the one before. */
  ghost predicate PublishesBuilds(ws: seq<Stream.World>, steps: seq<Stream.Step>)
    requires Stream.IsRun(ws, steps)
  {
    forall i :: 0 <= i < |steps| && steps[i].Publish? && ws[i].Last().updatedAt != 0 ==>
      SuccessiveBuilds(ws[i].Last(), steps[i].g)
  }

  lemma BuiltRunsAreDisciplined(ws: seq<Stream.World>, steps: seq<Stream.Step>)
    requires Stream.IsRun(ws, steps) && PublishesBuilds(ws, steps)
    ensures Stream.RunDisciplined(ws, steps)
  {
    forall i | 0 <= i < |steps| ensures Stream.KeepsReplicas(ws[i], steps[i]) {
      if steps[i].Publish? && ws[i].Last().updatedAt != 0 {
        SuccessiveAreDisciplined(ws[i].Last(), steps[i].g);
      }
    }
  }

  /** In every run whose publications are such builds every registered client adds
      up to the latest graph. */
  lemma BuiltRunsReplicate(ws: seq<Stream.World>, steps: seq<Stream.Step>, n: nat, id: nat)
    requires Stream.IsRun(ws, steps) && PublishesBuilds(ws, steps) && n < |ws|
    requires id in ws[n].broker.registered
    ensures id < |ws[n].sessions| == |ws[n].broker.queues| && ws[n].log != []
    ensures Stream.Client.Fold(ws[n].sessions[id].View(), ws[n].sessions[id].handoff + ws[n].broker.queues[id])
            == Index(ws[n].Last())
  {
    BuiltRunsAreDisciplined(ws, steps);
    Stream.RegisteredCatchUp(ws, steps, n, id);
  }
}
