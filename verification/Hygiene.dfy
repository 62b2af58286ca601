/** What the caches must look like for the build's laws: names as Kubernetes
    admits them, and no object listed twice (internal/collector/graph.go). */
module Hygiene {
  import opened Seqs
  import opened Ids
  import opened Topology
  import opened Build
  import opened BuildLaws
  import opened Forest
  import D = Dashboard
  import E = EndToEnd
  import R = Rollup

  /** Free of the characters that IDs are put together with. */
  predicate GoodName(s: string) { '/' !in s && '>' !in s }

  predicate GoodNames(at: (string, string)) { GoodName(at.0) && GoodName(at.1) }

  /** Every listed object has good names, and no two share theirs. */
  ghost predicate Named<X(!new)>(xs: seq<X>, at: X -> (string, string)) {
    (forall x :: x in xs ==> GoodNames(at(x))) && NoRepeats(Map(xs, at))
  }

  function NodeAt(n: NodeObject): (string, string) { ("", n.name) }

  function PVAt(v: PVObject): (string, string) { ("", v.name) }

  function WorkloadAt(w: WorkloadObject): (string, string) { (w.ns, w.name) }

  function PVCAt(c: PVCObject): (string, string) { (c.ns, c.name) }

  function ServiceAt(s: ServiceObject): (string, string) { (s.ns, s.name) }

  function PodAt(p: PodObject): (string, string) { (p.ns, p.name) }

  function NamespaceAt(n: NamespaceObject): (string, string) { ("", n.name) }

  /** The owners that pods and replica sets refer to have good names. */
  predicate GoodOwners(e: Env, pods: seq<PodObject>) {
    && (forall p, o :: p in pods && o in p.owners ==> GoodName(o.name))
    && (forall k, o :: k in e.replicaSets && o in e.replicaSets[k] ==> GoodName(o.name))
  }

  /** All of it can be read off the listers' results. */
  ghost predicate CleanLists(e: Env, l: Lists) {
    && Named(l.nodes, NodeAt) && Named(l.pvs, PVAt)
    && Named(l.deployments, WorkloadAt) && Named(l.statefulSets, WorkloadAt) && Named(l.daemonSets, WorkloadAt)
    && Named(l.pvcs, PVCAt) && Named(l.services, ServiceAt) && Named(l.pods, PodAt) && Named(l.namespaces, NamespaceAt)
    && GoodName(e.watched) && GoodOwners(e, l.pods)
  }

  // ----------------------------------------------------------------- segments

  /** Parts of one kind, of which no two share their names, all clean. */
  ghost predicate Segment(ps: seq<Part>, k: Kind) {
    (forall p :: p in ps ==> p.kind == k && CleanPart(p)) && NoRepeats(FlatMap(ps, Key))
  }

  /** f makes at most one part of an object, with its names and of this kind. */
  ghost predicate Makes<X(!new)>(f: X -> seq<Part>, k: Kind, at: X -> (string, string), x: X) {
    |f(x)| <= 1 && forall p :: p in f(x) ==> p.kind == k && CleanPart(p) && (p.node.namespace, p.node.name) == at(x)
  }

  lemma {:induction false} SegmentOf<X(!new)>(xs: seq<X>, f: X -> seq<Part>, k: Kind, at: X -> (string, string))
    requires NoRepeats(Map(xs, at)) && forall x :: x in xs ==> Makes(f, k, at, x)
    ensures Segment(FlatMap(xs, f), k)
    ensures forall p :: p in FlatMap(xs, f) ==> (p.node.namespace, p.node.name) in Map(xs, at)
    decreases |xs|
  {
    if xs != [] {
      var init, last := xs[..|xs| - 1], xs[|xs| - 1];
      assert xs == init + [last] && last in xs;
      assert Map(xs, at) == Map(init, at) + [at(last)];
      InitNoRepeats(Map(init, at), at(last));
      SegmentOf(init, f, k, at);
      var ps := FlatMap(init, f);
      if f(last) == [] {
        assert ps + f(last) == ps;
      } else {
        var p := f(last)[0];
        assert f(last) == [p] && p in f(last);
        SegmentGrows(ps, p, k);
      }
    }
  }

  lemma InitNoRepeats<T>(xs: seq<T>, x: T)
    requires NoRepeats(xs + [x])
    ensures NoRepeats(xs) && x !in xs
  {
    forall i, j | 0 <= i < j < |xs| ensures xs[i] != xs[j] { assert (xs + [x])[i] != (xs + [x])[j]; }
    forall i | 0 <= i < |xs| ensures xs[i] != x { assert (xs + [x])[i] != (xs + [x])[|xs|]; }
  }

  lemma SegmentGrows(ps: seq<Part>, p: Part, k: Kind)
    requires Segment(ps, k) && p.kind == k && CleanPart(p)
    requires forall q :: q in ps ==> (q.node.namespace, q.node.name) != (p.node.namespace, p.node.name)
    ensures Segment(ps + [p], k)
  {
    FlatMapConcat(ps, [p], Key);
    FlatMapOne(p, Key);
    FlatMapPointwise(ps, Key);
    forall i | 0 <= i < |ps| ensures FlatMap(ps, Key)[i] != Key(p)[0] { assert ps[i] in ps; }
  }

  /** Where the loops come to a kind. */
  function Turn(k: Kind): nat {
    match k
    case KNode => 0
    case KPV => 1
    case KDeployment => 2
    case KStatefulSet => 3
    case KDaemonSet => 4
    case KPVC => 5
    case KService => 6
    case KPod => 7
    case KNamespace => 8
    case KCluster => 9
  }

  /** Parts from the first n loops, all clean, no key twice. */
  ghost predicate FirstLoops(ps: seq<Part>, n: nat) {
    (forall p :: p in ps ==> Turn(p.kind) < n && CleanPart(p)) && NoRepeats(FlatMap(ps, Key))
  }

  lemma Join(ps: seq<Part>, qs: seq<Part>, k: Kind)
    requires FirstLoops(ps, Turn(k)) && Segment(qs, k)
    ensures FirstLoops(ps + qs, Turn(k) + 1)
  {
    FlatMapConcat(ps, qs, Key);
    FlatMapPointwise(ps, Key);
    FlatMapPointwise(qs, Key);
    forall i, j | 0 <= i < |ps| && 0 <= j < |qs| ensures FlatMap(ps, Key)[i] != FlatMap(qs, Key)[j] {
      assert ps[i] in ps && qs[j] in qs;
    }
  }

  // -------------------------------------------------------------- clean parts

  lemma IdIsGood(k: Kind, ns: string, name: string)
    requires '>' !in ns && '>' !in name
    ensures '>' !in IdOf(k, ns, name) && '>' !in CLUSTER_ID
  {
    KindTextGood(k);
    IdAsRest(KindText(k), ns, name);
    assert '>' !in "/";
    var rest := Rest(ns, name);
    assert '>' !in rest;
    forall i | 0 <= i < |IdOf(k, ns, name)| ensures IdOf(k, ns, name)[i] != '>' {
      assert IdOf(k, ns, name)[i] == (KindText(k) + ['/'] + rest)[i];
    }
  }

  lemma KindTextGood(k: Kind)
    ensures '>' !in KindText(k)
  {
  }

  lemma CleanFrom(p: Part)
    requires GoodName(p.node.namespace) && GoodName(p.node.name)
    requires forall x :: x in p.edges ==> '>' !in x.source
    ensures CleanPart(p)
  {
  }

  lemma FromNamespaceClean(ns: string, id: string)
    requires GoodName(ns)
    ensures '>' !in FromNamespace(ns, id).source
  {
    IdIsGood(KNamespace, "", ns);
  }

  lemma NodeMakes(e: Env, n: NodeObject)
    requires GoodNames(NodeAt(n))
    ensures Makes(NodeParts(e), KNode, NodeAt, n)
  {
    IdIsGood(KNode, "", n.name);
    CleanFrom(NodePart(n));
  }

  lemma PVMakes(e: Env, v: PVObject)
    requires GoodNames(PVAt(v))
    ensures Makes(PVParts(e), KPV, PVAt, v)
  {
    CleanFrom(PVPart(v));
  }

  lemma WorkloadMakes(e: Env, k: Kind, w: WorkloadObject)
    requires GoodNames(WorkloadAt(w))
    ensures Makes(WorkloadParts(e, k), k, WorkloadAt, w)
  {
    FromNamespaceClean(w.ns, IdOf(k, w.ns, w.name));
    CleanFrom(WorkloadPart(e, k, w));
  }

  lemma PVCMakes(e: Env, c: PVCObject)
    requires GoodNames(PVCAt(c))
    ensures Makes(PVCParts(e), KPVC, PVCAt, c)
  {
    IdIsGood(KPVC, c.ns, c.name);
    FromNamespaceClean(c.ns, IdOf(KPVC, c.ns, c.name));
    CleanFrom(PVCPart(e, c));
  }

  lemma ServiceMakes(e: Env, s: ServiceObject)
    requires GoodNames(ServiceAt(s))
    ensures Makes(ServiceParts(e), KService, ServiceAt, s)
  {
    IdIsGood(KService, s.ns, s.name);
    FromNamespaceClean(s.ns, IdOf(KService, s.ns, s.name));
    var p := ServicePart(e, s);
    var names := Deduped(FlatMap(Subsets(e, s.ns, s.name), SubsetPods));
    var routes := FlatMap(names, ServiceRoutes(e, s));
    forall x | x in routes ensures '>' !in x.source {
      InFlatMap(names, ServiceRoutes(e, s), x);
    }
    forall x | x in p.edges ensures '>' !in x.source {
      InTwo(x, [p.edges[0]], routes);
    }
    CleanFrom(p);
  }

  lemma {:induction false} OwnersGood(e: Env, ns: string, owners: seq<Owner>)
    requires forall o :: o in owners ==> GoodName(o.name)
    requires forall k, o :: k in e.replicaSets && o in e.replicaSets[k] ==> GoodName(o.name)
    ensures var w := WorkloadForPod(e, ns, owners); w.Some? ==> GoodName(w.value.1)
  {
    if owners != [] {
      var o := owners[0];
      if (ns, o.name) in e.replicaSets { DeploymentOwnerGood(e.replicaSets[(ns, o.name)]); }
      forall x | x in owners[1..] ensures GoodName(x.name) { assert x in owners; }
      OwnersGood(e, ns, owners[1..]);
    }
  }

  lemma {:induction false} DeploymentOwnerGood(owners: seq<Owner>)
    requires forall o :: o in owners ==> GoodName(o.name)
    ensures DeploymentOwner(owners).Some? ==> GoodName(DeploymentOwner(owners).value)
  {
    if owners != [] {
      forall x | x in owners[1..] ensures GoodName(x.name) { assert x in owners; }
      DeploymentOwnerGood(owners[1..]);
    }
  }

  lemma ParentGood(e: Env, p: PodObject)
    requires GoodName(p.ns) && GoodOwners(e, [p])
    ensures '>' !in ParentOfPod(e, p)
  {
    assert p in [p];
    OwnersGood(e, p.ns, p.owners);
    var w := WorkloadForPod(e, p.ns, p.owners);
    if w.Some? { IdIsGood(w.value.0, p.ns, w.value.1); } else { IdIsGood(KNamespace, "", p.ns); }
  }

  lemma PodMakes(e: Env, p: PodObject)
    requires GoodNames(PodAt(p)) && GoodOwners(e, [p])
    ensures Makes(PodParts(e), KPod, PodAt, p)
  {
    IdIsGood(KPod, p.ns, p.name);
    ParentGood(e, p);
    forall x | x in PodEdges(e, p) ensures '>' !in x.source { PodEdgeGood(e, p, x); }
    CleanFrom(PodPart(e, p));
  }

  lemma PodEdgeGood(e: Env, p: PodObject, x: Edge)
    requires x in PodEdges(e, p) && '>' !in IdOf(KPod, p.ns, p.name) && '>' !in ParentOfPod(e, p)
    ensures '>' !in x.source
  {
    var claims := FlatMap(p.claims, ClaimEdge(p));
    InTwo(x, [PodEdges(e, p)[0]], PlacementEdges(p) + claims);
    if x != PodEdges(e, p)[0] {
      InTwo(x, PlacementEdges(p), claims);
      InFlatMap(p.claims, ClaimEdge(p), x);
    }
  }

  function SpaceAt(s: Space): (string, string) { ("", s.name) }

  lemma SpaceMakes(e: Env, objects: seq<Part>, s: Space)
    requires GoodNames(SpaceAt(s))
    ensures Makes(SpaceParts(e, objects), KNamespace, SpaceAt, s)
  {
    var p := SpacePartAt(s, R.AggregateOf(FlatMap(objects, RollInto(s.name)), e.texts));
    IdIsGood(KNamespace, "", s.name);
    CleanFrom(p);
    assert SpaceParts(e, objects)(s) == [p];
  }

  // ----------------------------------------------------------------- theorems

  lemma NamedSegment<X(!new)>(xs: seq<X>, f: X -> seq<Part>, k: Kind, at: X -> (string, string))
    requires Named(xs, at) && forall x :: x in xs ==> Makes(f, k, at, x)
    ensures Segment(FlatMap(xs, f), k)
  {
    SegmentOf(xs, f, k, at);
  }

  lemma ClusterScopedSegments(e: Env, l: Lists)
    requires Named(l.nodes, NodeAt) && Named(l.pvs, PVAt)
    ensures Segment(FlatMap(l.nodes, NodeParts(e)), KNode) && Segment(FlatMap(l.pvs, PVParts(e)), KPV)
  {
    forall x | x in l.nodes ensures Makes(NodeParts(e), KNode, NodeAt, x) { NodeMakes(e, x); }
    NamedSegment(l.nodes, NodeParts(e), KNode, NodeAt);
    forall x | x in l.pvs ensures Makes(PVParts(e), KPV, PVAt, x) { PVMakes(e, x); }
    NamedSegment(l.pvs, PVParts(e), KPV, PVAt);
  }

  lemma WorkloadSegment(e: Env, ws: seq<WorkloadObject>, k: Kind)
    requires Named(ws, WorkloadAt)
    ensures Segment(FlatMap(ws, WorkloadParts(e, k)), k)
  {
    forall x | x in ws ensures Makes(WorkloadParts(e, k), k, WorkloadAt, x) { WorkloadMakes(e, k, x); }
    NamedSegment(ws, WorkloadParts(e, k), k, WorkloadAt);
  }

  lemma PVCSegment(e: Env, cs: seq<PVCObject>)
    requires Named(cs, PVCAt)
    ensures Segment(FlatMap(cs, PVCParts(e)), KPVC)
  {
    forall x | x in cs ensures Makes(PVCParts(e), KPVC, PVCAt, x) { PVCMakes(e, x); }
    NamedSegment(cs, PVCParts(e), KPVC, PVCAt);
  }

  lemma ServiceSegment(e: Env, ss: seq<ServiceObject>)
    requires Named(ss, ServiceAt)
    ensures Segment(FlatMap(ss, ServiceParts(e)), KService)
  {
    forall x | x in ss ensures Makes(ServiceParts(e), KService, ServiceAt, x) { ServiceMakes(e, x); }
    NamedSegment(ss, ServiceParts(e), KService, ServiceAt);
  }

  lemma PodSegment(e: Env, pods: seq<PodObject>)
    requires Named(pods, PodAt) && GoodOwners(e, pods)
    ensures Segment(FlatMap(pods, PodParts(e)), KPod)
  {
    forall x | x in pods ensures Makes(PodParts(e), KPod, PodAt, x) { PodMakes(e, x); }
    NamedSegment(pods, PodParts(e), KPod, PodAt);
  }

  lemma SpacesNamed(e: Env, l: Lists)
    requires Named(l.namespaces, NamespaceAt) && GoodName(e.watched)
    ensures Named(Spaces(e, l), SpaceAt)
  {
    if e.clusterScope {
      FlatMapPointwise(l.namespaces, PhaseSpace);
      assert Map(Spaces(e, l), SpaceAt) == Map(l.namespaces, NamespaceAt);
      forall s | s in Spaces(e, l) ensures GoodNames(SpaceAt(s)) { InFlatMap(l.namespaces, PhaseSpace, s); }
    }
  }

  lemma SpaceSegment(e: Env, spaces: seq<Space>, objects: seq<Part>)
    requires Named(spaces, SpaceAt)
    ensures Segment(FlatMap(spaces, SpaceParts(e, objects)), KNamespace)
  {
    forall x | x in spaces ensures Makes(SpaceParts(e, objects), KNamespace, SpaceAt, x) { SpaceMakes(e, objects, x); }
    NamedSegment(spaces, SpaceParts(e, objects), KNamespace, SpaceAt);
  }

  lemma HygienicFrom(e: Env, l: Lists)
    requires FirstLoops(AllParts(e, l), 9)
    ensures Hygienic(e, l)
  {
  }

  lemma RunSegment(e: Env, l: Lists, k: Kind)
    requires CleanLists(e, l) && k in LOOPS
    ensures Segment(RunOf(e, l, k), k)
  {
    match k
    case KNode => ClusterScopedSegments(e, l);
    case KPV => ClusterScopedSegments(e, l);
    case KDeployment => WorkloadSegment(e, l.deployments, k);
    case KStatefulSet => WorkloadSegment(e, l.statefulSets, k);
    case KDaemonSet => WorkloadSegment(e, l.daemonSets, k);
    case KPVC => PVCSegment(e, l.pvcs);
    case KService => ServiceSegment(e, l.services);
    case KPod => PodSegment(e, l.pods);
  }

  lemma TurnOf(n: nat)
    requires n < |LOOPS|
    ensures Turn(LOOPS[n]) == n
  {
  }

  lemma SegmentAdded(f: Kind -> seq<Part>, ks: seq<Kind>, n: nat)
    requires n < |ks| && Turn(ks[n]) == n && FirstLoops(FlatMap(ks[..n], f), n) && Segment(f(ks[n]), ks[n])
    ensures FirstLoops(FlatMap(ks[..n + 1], f), n + 1)
  {
    Join(FlatMap(ks[..n], f), f(ks[n]), ks[n]);
    FlatMapStep(ks, n, f);
  }

  lemma {:induction false} LoopSegments(e: Env, l: Lists, ks: seq<Kind>, n: nat)
    requires CleanLists(e, l) && ks == LOOPS && n <= |ks|
    ensures FirstLoops(FlatMap(ks[..n], Runs(e, l)), n)
  {
    if n > 0 {
      LoopSegments(e, l, ks, n - 1);
      RunSegment(e, l, ks[n - 1]);
      TurnOf(n - 1);
      SegmentAdded(Runs(e, l), ks, n - 1);
    }
  }

  /** Good names, listed once each, are all that the build's laws ask for. */
  lemma CleanListsAreHygienic(e: Env, l: Lists)
    requires CleanLists(e, l)
    ensures Hygienic(e, l)
  {
    LoopSegments(e, l, LOOPS, |LOOPS|);
    assert LOOPS[..|LOOPS|] == LOOPS;
    SpacesNamed(e, l);
    SpaceSegment(e, Spaces(e, l), ObjectParts(e, l));
    Join(ObjectParts(e, l), FlatMap(Spaces(e, l), SpaceParts(e, ObjectParts(e, l))), KNamespace);
    HygienicFrom(e, l);
  }

  // ------------------------------------------------------------------ volumes

  /** No two claims are bound to the same volume. */
  ghost predicate ClaimsApart(cs: seq<PVCObject>) {
    forall c, c' :: c in cs && c' in cs && c.volumeName == c'.volumeName != "" ==> c == c'
  }

  lemma BacksPart(x: Edge, p: Part)
    requires EdgeOk(x, p) && x.kind == "backs"
    ensures p.kind == KPVC
  {
  }

  lemma BacksEdge(e: Env, c: PVCObject, x: Edge)
    requires x in PVCPart(e, c).edges && x.kind == "backs"
    ensures c.volumeName != "" && x == MakeEdge(IdOf(KPVC, c.ns, c.name), IdOf(KPV, "", c.volumeName), Backs)
  {
  }

  /** A backs edge comes from a claim bound to the volume. */
  lemma BacksFrom(e: Env, l: Lists, x: Edge) returns (c: PVCObject)
    requires x in AllEdges(e, l) && x.kind == "backs"
    ensures c in l.pvcs && c.volumeName != ""
    ensures x == MakeEdge(IdOf(KPVC, c.ns, c.name), IdOf(KPV, "", c.volumeName), Backs)
  {
    var p, _ := EdgeComesFrom(e, l, x);
    BacksPart(x, p);
    PartSource(e, l, p);
    c := ClaimOf(e, l.pvcs, p);
    BacksEdge(e, c, x);
  }

  lemma ClaimOf(e: Env, cs: seq<PVCObject>, p: Part) returns (c: PVCObject)
    requires p in FlatMap(cs, PVCParts(e))
    ensures c in cs && p == PVCPart(e, c)
  {
    InFlatMap(cs, PVCParts(e), p);
    c :| c in cs && p in PVCParts(e)(c);
  }

  lemma SameVolume(e: Env, l: Lists, x: Edge, y: Edge)
    requires ClaimsApart(l.pvcs) && x in AllEdges(e, l) && y in AllEdges(e, l)
    requires x.kind == "backs" && y.kind == "backs" && x.target == y.target
    ensures x == y
  {
    var c := BacksFrom(e, l, x);
    var c' := BacksFrom(e, l, y);
    KindTextFacts(KPV, KPV);
    IdTellsKind(KindText(KPV), "", c.volumeName, KindText(KPV), "", c'.volumeName);
  }

  /** So for caches with good names and volumes bound once, the dashboard has
      trees to draw, whatever order the edges arrived in. */
  lemma CleanCachesDraw(e: Env, l: Lists, edges: seq<Edge>)
    requires CleanLists(e, l) && ClaimsApart(l.pvcs) && Permuted(Built(e, l).edges, edges)
    ensures D.TreeLike(Index(Built(e, l)).nodes, edges)
  {
    CleanListsAreHygienic(e, l);
    EdgesAreExact(e, l);
    forall x, y | x in Built(e, l).edges && y in Built(e, l).edges && x.kind == "backs" && y.kind == "backs"
      && x.target == y.target
      ensures x == y
    {
      SameVolume(e, l, x, y);
    }
    E.BuiltIsTreeLike(e, l, edges);
  }
}
