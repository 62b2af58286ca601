/** When a rebuild has nothing to send (internal/collector/graph.go): the caches
    unchanged, but the time later and the restart tracker further on. */
module Idle {
  import opened Seqs
  import opened Order
  import opened Keyed
  import opened Topology
  import opened Build
  import opened BuildLaws
  import opened Forest
  import H = Health
  import Discipline
  import Reasons
  import Restart

  /** The same collector at another time. */
  ghost predicate SameCollector(e: Env, e': Env) { e' == e.(now := e'.now, before := e'.before) }

  function RateIn(e: Env, p: PodObject): real {
    Restart.PodRateFrom(e.half, e.before, Seen(p), Minutes(e.now))
  }

  /** The pod's rate prints alike at both times, or is of no account. */
  predicate PodSteady(e: Env, e': Env, p: PodObject) {
    H.RateBlind(p.status) || H.PrintAlike(RateIn(e, p), RateIn(e', p), e.texts)
  }

  function Age(e: Env, c: PVCObject): int { e.now - c.createdAt }

  /** The claim is not pending, or is within its grace at both times, or is beyond it
      by ages that print alike. */
  predicate ClaimSteady(e: Env, e': Env, c: PVCObject) {
    || c.phase != H.ClaimPending || (Age(e, c) <= e.grace && Age(e', c) <= e.grace)
    || (Age(e, c) > e.grace && Age(e', c) > e.grace && e.texts.rounded(Age(e, c)) == e.texts.rounded(Age(e', c)))
  }

  predicate Steady(e: Env, e': Env, l: Lists) {
    && (forall p :: p in l.pods ==> PodSteady(e, e', p))
    && (forall c :: c in l.pvcs ==> ClaimSteady(e, e', c))
  }

  // ------------------------------------------------------------------ each loop

  lemma PodPartSteady(e: Env, e': Env, p: PodObject)
    requires SameCollector(e, e') && PodSteady(e, e', p)
    ensures PodPart(e, p) == PodPart(e', p)
  {
    H.AlikeRatesAgree(p.status, RateIn(e, p), RateIn(e', p), e.texts);
    ParentSteady(e, e', p.ns, p.owners);
  }

  lemma {:induction false} ParentSteady(e: Env, e': Env, ns: string, owners: seq<Owner>)
    requires SameCollector(e, e')
    ensures WorkloadForPod(e, ns, owners) == WorkloadForPod(e', ns, owners)
  {
    if owners != [] { ParentSteady(e, e', ns, owners[1..]); }
  }

  lemma PodsSteady(e: Env, e': Env, xs: seq<PodObject>)
    requires SameCollector(e, e') && forall p :: p in xs ==> PodSteady(e, e', p)
    ensures FlatMap(xs, PodParts(e)) == FlatMap(xs, PodParts(e'))
  {
    forall p | p in xs ensures PodParts(e)(p) == PodParts(e')(p) { PodPartSteady(e, e', p); }
    FlatMapCongruent(xs, PodParts(e), PodParts(e'));
  }

  function Overdue(e: Env, c: PVCObject): string {
    "Pending for " + e.texts.rounded(Age(e, c)) + (" (> " + e.texts.span(e.grace) + " grace)")
  }

  lemma OverdueIs(e: Env, c: PVCObject)
    requires c.phase == H.ClaimPending && Age(e, c) > e.grace
    ensures H.PVC(c.phase, c.createdAt, e.now, e.grace, e.texts) == H.Result(H.Unhealthy, 0.0, [Overdue(e, c)])
  {
    assert "Pending for " + e.texts.rounded(Age(e, c)) + " (> " + e.texts.span(e.grace) + " grace)" == Overdue(e, c);
  }

  lemma PVCVerdictSteady(e: Env, e': Env, c: PVCObject)
    requires SameCollector(e, e') && ClaimSteady(e, e', c)
    ensures H.PVC(c.phase, c.createdAt, e.now, e.grace, e.texts)
            == H.PVC(c.phase, c.createdAt, e'.now, e'.grace, e'.texts)
  {
    if c.phase == H.ClaimPending {
      if Age(e, c) > e.grace {
        OverdueIs(e, c);
        OverdueIs(e', c);
      } else {
        assert Age(e', c) <= e'.grace;
      }
    }
  }

  lemma PVCPartSteady(e: Env, e': Env, c: PVCObject)
    requires SameCollector(e, e') && ClaimSteady(e, e', c)
    ensures PVCPart(e, c) == PVCPart(e', c)
  {
    PVCVerdictSteady(e, e', c);
  }

  lemma PVCsSteady(e: Env, e': Env, xs: seq<PVCObject>)
    requires SameCollector(e, e') && forall c :: c in xs ==> ClaimSteady(e, e', c)
    ensures FlatMap(xs, PVCParts(e)) == FlatMap(xs, PVCParts(e'))
  {
    forall c | c in xs ensures PVCParts(e)(c) == PVCParts(e')(c) { PVCPartSteady(e, e', c); }
    FlatMapCongruent(xs, PVCParts(e), PVCParts(e'));
  }

  lemma ServicePartSteady(e: Env, e': Env, s: ServiceObject)
    requires SameCollector(e, e')
    ensures ServicePart(e, s) == ServicePart(e', s)
  {
    var names := Deduped(FlatMap(Subsets(e, s.ns, s.name), SubsetPods));
    FlatMapCongruent(names, ServiceRoutes(e, s), ServiceRoutes(e', s));
  }

  lemma ServicesSteady(e: Env, e': Env, xs: seq<ServiceObject>)
    requires SameCollector(e, e')
    ensures FlatMap(xs, ServiceParts(e)) == FlatMap(xs, ServiceParts(e'))
  {
    forall s | s in xs ensures ServiceParts(e)(s) == ServiceParts(e')(s) { ServicePartSteady(e, e', s); }
    FlatMapCongruent(xs, ServiceParts(e), ServiceParts(e'));
  }

  lemma WorkloadsSteady(e: Env, e': Env, xs: seq<WorkloadObject>, k: Kind)
    requires SameCollector(e, e')
    ensures FlatMap(xs, WorkloadParts(e, k)) == FlatMap(xs, WorkloadParts(e', k))
  {
    FlatMapCongruent(xs, WorkloadParts(e, k), WorkloadParts(e', k));
  }

  lemma ClusterScopedSteady(e: Env, e': Env, ns: seq<NodeObject>, vs: seq<PVObject>)
    requires SameCollector(e, e')
    ensures FlatMap(ns, NodeParts(e)) == FlatMap(ns, NodeParts(e'))
    ensures FlatMap(vs, PVParts(e)) == FlatMap(vs, PVParts(e'))
  {
    FlatMapCongruent(ns, NodeParts(e), NodeParts(e'));
    FlatMapCongruent(vs, PVParts(e), PVParts(e'));
  }

  lemma SpacesSteady(e: Env, e': Env, spaces: seq<Space>, objects: seq<Part>)
    requires SameCollector(e, e')
    ensures FlatMap(spaces, SpaceParts(e, objects)) == FlatMap(spaces, SpaceParts(e', objects))
  {
    FlatMapCongruent(spaces, SpaceParts(e, objects), SpaceParts(e', objects));
  }

  // ------------------------------------------------------------------- theorems

  lemma RunSteady(e: Env, e': Env, l: Lists, k: Kind)
    requires SameCollector(e, e') && Steady(e, e', l)
    ensures RunOf(e, l, k) == RunOf(e', l, k)
  {
    match k
    case KNode => ClusterScopedSteady(e, e', l.nodes, l.pvs);
    case KPV => ClusterScopedSteady(e, e', l.nodes, l.pvs);
    case KDeployment => WorkloadsSteady(e, e', l.deployments, k);
    case KStatefulSet => WorkloadsSteady(e, e', l.statefulSets, k);
    case KDaemonSet => WorkloadsSteady(e, e', l.daemonSets, k);
    case KPVC => PVCsSteady(e, e', l.pvcs);
    case KService => ServicesSteady(e, e', l.services);
    case KPod => PodsSteady(e, e', l.pods);
    case KNamespace =>
    case KCluster =>
  }

  lemma ObjectsSteady(e: Env, e': Env, l: Lists)
    requires SameCollector(e, e') && Steady(e, e', l)
    ensures ObjectParts(e, l) == ObjectParts(e', l)
  {
    forall k ensures Runs(e, l)(k) == Runs(e', l)(k) { RunSteady(e, e', l, k); }
    FlatMapCongruent(LOOPS, Runs(e, l), Runs(e', l));
  }

  lemma PartsSteady(e: Env, e': Env, l: Lists)
    requires SameCollector(e, e') && Steady(e, e', l)
    ensures AllParts(e, l) == AllParts(e', l) && ClusterVertex(e, l) == ClusterVertex(e', l)
  {
    ObjectsSteady(e, e', l);
    SpacesSteady(e, e', Spaces(e, l), ObjectParts(e, l));
  }

  /** Only the time stamp tells the two graphs apart. */
  lemma BuiltSteady(e: Env, e': Env, l: Lists)
    requires SameCollector(e, e') && Steady(e, e', l)
    ensures Built(e', l) == Built(e, l).(updatedAt := e'.now)
  {
    PartsSteady(e, e', l);
    Discipline.BuiltIsGraphOf(e, l);
    Discipline.BuiltIsGraphOf(e', l);
  }

  lemma SameIndex(g: Graph, g': Graph, d: Diff)
    requires g'.nodes == g.nodes && g'.edges == g.edges && IsDiff(g, g', d)
    ensures d.Empty()
  {
    EmptyDiffIff(g, g', d);
  }

  // ------------------------------------------------------ what a rebuild must send

  lemma {:induction false} DistinctIds(ns: seq<Node>, n: Node, m: Node)
    requires Ascending(ns, ById) && n in ns && m in ns && n.id == m.id
    ensures n == m
  {
    var i := PositionIn(ns, n);
    var j := PositionIn(ns, m);
    LessTotal(n.id, m.id);
  }

  lemma PartIndexed(e: Env, l: Lists, q: Part)
    requires Hygienic(e, l) && q in AllParts(e, l)
    ensures q.node.id in Index(Built(e, l)).nodes && Index(Built(e, l)).nodes[q.node.id] == q.node
  {
    var ns := Built(e, l).nodes;
    InAllNodes(e, l, q.node);
    NodesAreSorted(e, l);
    forall m | m in ns && m.id == q.node.id ensures m == q.node { DistinctIds(ns, q.node, m); }
    Discipline.IndexFinds(ns, q.node);
  }

  lemma ChangeIsSent(g: Graph, g': Graph, d: Diff, id: string)
    requires IsDiff(g, g', d) && id in Index(g).nodes && id in Index(g').nodes
    requires !NodesAgree(Index(g).nodes[id], Index(g').nodes[id])
    ensures !d.Empty()
  {
    assert id in ChangedNodes(Index(g).nodes, Index(g').nodes);
    assert Written(d.upsertNodes, NodeId, id);
  }

  /** The verdicts shown agree. */
  predicate SameShown(n: Node, n': Node) { n.health == n'.health && n.score == n'.score && n.reasons == n'.reasons }

  /** A vertex that an empty diff leaves alone shows the same verdict. */
  lemma UnsentAgrees(e: Env, e': Env, l: Lists, q: Part, q': Part, d: Diff)
    requires Hygienic(e, l) && Hygienic(e', l) && q in AllParts(e, l) && q' in AllParts(e', l)
    requires q.node.id == q'.node.id
    requires IsDiff(Built(e, l), Built(e', l), d) && d.Empty()
    ensures SameShown(q.node, q'.node)
  {
    PartIndexed(e, l, q);
    PartIndexed(e', l, q');
    if !NodesAgree(q.node, q'.node) { ChangeIsSent(Built(e, l), Built(e', l), d, q.node.id); }
  }

  lemma StateTextTells(s: H.State, s': H.State)
    requires StateText(s) == StateText(s')
    ensures s == s'
  {
  }

  // ---- pods

  function PodVerdictAt(e: Env, p: PodObject): H.Result { H.PodResult(p.status, RateIn(e, p), e.texts) }

  lemma PodShows(e: Env, p: PodObject)
    ensures var n, r := PodPart(e, p).node, PodVerdictAt(e, p);
      n.id == IdOf(KPod, p.ns, p.name) && n.health == StateText(r.state) && n.score == r.score
        && n.reasons == H.Normalized(r.reasons)
  {
  }

  lemma SamePodId(e: Env, e': Env, p: PodObject)
    ensures PodPart(e, p).node.id == PodPart(e', p).node.id
  {
  }

  lemma PodUnsentIsSteady(e: Env, e': Env, p: PodObject)
    requires SameCollector(e, e') && SameShown(PodPart(e, p).node, PodPart(e', p).node)
    requires forall c :: c in p.status.containers ==> Reasons.Plain(c.name)
    ensures PodSteady(e, e', p)
  {
    PodShows(e, p);
    PodShows(e', p);
    StateTextTells(PodVerdictAt(e, p).state, PodVerdictAt(e', p).state);
    Reasons.ShownVerdictIff(p.status, RateIn(e, p), RateIn(e', p), e.texts);
  }

  /** Pods show the same verdicts from one build to the next. */
  ghost predicate PodsAgree(e: Env, e': Env, pods: seq<PodObject>) {
    forall q, q' :: q in FlatMap(pods, PodParts(e)) && q' in FlatMap(pods, PodParts(e')) && q.node.id == q'.node.id ==>
      SameShown(q.node, q'.node)
  }

  lemma PodsUnsent(e: Env, e': Env, l: Lists, d: Diff)
    requires Hygienic(e, l) && Hygienic(e', l) && IsDiff(Built(e, l), Built(e', l), d) && d.Empty()
    ensures PodsAgree(e, e', l.pods)
  {
    forall q, q' | q in FlatMap(l.pods, PodParts(e)) && q' in FlatMap(l.pods, PodParts(e')) && q.node.id == q'.node.id
      ensures SameShown(q.node, q'.node)
    {
      PodsAreParts(e, l, KPod, q);
      PodsAreParts(e', l, KPod, q');
      UnsentAgrees(e, e', l, q, q', d);
    }
  }

  lemma PodSameShown(e: Env, e': Env, pods: seq<PodObject>, p: PodObject)
    requires p in pods && PodsAgree(e, e', pods)
    ensures SameShown(PodPart(e, p).node, PodPart(e', p).node)
  {
    PodInRun(e, pods, p);
    PodInRun(e', pods, p);
    SamePodId(e, e', p);
    var q, q' := PodPart(e, p), PodPart(e', p);
    assert q in FlatMap(pods, PodParts(e)) && q' in FlatMap(pods, PodParts(e'));
  }

  lemma PodAgreesIsSteady(e: Env, e': Env, pods: seq<PodObject>, p: PodObject)
    requires SameCollector(e, e') && p in pods && PodsAgree(e, e', pods)
    requires forall c :: c in p.status.containers ==> Reasons.Plain(c.name)
    ensures PodSteady(e, e', p)
  {
    PodSameShown(e, e', pods, p);
    PodUnsentIsSteady(e, e', p);
  }

  // ---- claims

  lemma OverdueTrimmed(e: Env, c: PVCObject)
    ensures H.Normalized([Overdue(e, c)]) == [Overdue(e, c)]
  {
    Reasons.EnclosedEnds(" (> ", e.texts.span(e.grace), " grace)");
    Reasons.EnclosedEnds("Pending for ", e.texts.rounded(Age(e, c)), " (> " + e.texts.span(e.grace) + " grace)");
    Reasons.TrimKeeps(Overdue(e, c));
  }

  lemma ClaimShows(e: Env, c: PVCObject)
    requires c.phase == H.ClaimPending
    ensures var n := PVCPart(e, c).node;
      n.score == (if Age(e, c) > e.grace then 0.0 else 0.5) && (Age(e, c) > e.grace ==> n.reasons == [Overdue(e, c)])
  {
    if Age(e, c) > e.grace {
      OverdueIs(e, c);
      OverdueTrimmed(e, c);
    }
  }

  lemma ClaimUnsentIsSteady(e: Env, e': Env, c: PVCObject)
    requires SameCollector(e, e') && SameShown(PVCPart(e, c).node, PVCPart(e', c).node)
    ensures ClaimSteady(e, e', c)
  {
    if c.phase == H.ClaimPending {
      ClaimShows(e, c);
      ClaimShows(e', c);
      Reasons.SameMiddle("Pending for ", e.texts.rounded(Age(e, c)), e.texts.rounded(Age(e', c)),
                         " (> " + e.texts.span(e.grace) + " grace)");
    }
  }

  lemma ClaimUnsent(e: Env, e': Env, l: Lists, c: PVCObject, d: Diff)
    requires SameCollector(e, e') && Hygienic(e, l) && Hygienic(e', l) && c in l.pvcs
    requires IsDiff(Built(e, l), Built(e', l), d) && d.Empty()
    ensures ClaimSteady(e, e', c)
  {
    ClaimInRun(e, l.pvcs, c);
    ClaimInRun(e', l.pvcs, c);
    ClaimsAreParts(e, l, KPVC, PVCPart(e, c));
    ClaimsAreParts(e', l, KPVC, PVCPart(e', c));
    SameId(e, e', c);
    UnsentAgrees(e, e', l, PVCPart(e, c), PVCPart(e', c), d);
    ClaimUnsentIsSteady(e, e', c);
  }

  lemma SameId(e: Env, e': Env, c: PVCObject)
    ensures PVCPart(e, c).node.id == PVCPart(e', c).node.id
  {
  }

  // ----------------------------------------------------------------- the theorem

  /** Container names as Kubernetes admits them. */
  predicate PlainContainers(l: Lists) {
    forall p, c :: p in l.pods && c in p.status.containers ==> Reasons.Plain(c.name)
  }

  lemma SteadyIsIdle(e: Env, e': Env, l: Lists, d: Diff)
    requires SameCollector(e, e') && Steady(e, e', l) && IsDiff(Built(e, l), Built(e', l), d)
    ensures d.Empty()
  {
    BuiltSteady(e, e', l);
    SameIndex(Built(e, l), Built(e', l), d);
  }

  lemma IdleIsSteady(e: Env, e': Env, l: Lists, d: Diff)
    requires SameCollector(e, e') && Hygienic(e, l) && Hygienic(e', l) && PlainContainers(l)
    requires IsDiff(Built(e, l), Built(e', l), d) && d.Empty()
    ensures Steady(e, e', l)
  {
    PodsUnsent(e, e', l, d);
    forall p | p in l.pods ensures PodSteady(e, e', p) { PodAgreesIsSteady(e, e', l.pods, p); }
    forall c | c in l.pvcs ensures ClaimSteady(e, e', c) { ClaimUnsent(e, e', l, c, d); }
  }

  /** A rebuild over unchanged caches, in any listing order and at any later time,
      has nothing to send if and only if each restart rate that matters, and each age
      of a claim beyond its grace, prints as it did. */
  lemma IdleIff(e: Env, e': Env, l: Lists, l': Lists, d: Diff)
    requires SameCollector(e, e') && Hygienic(e, l) && Hygienic(e', l) && SameObjects(l, l') && PlainContainers(l)
    requires IsDiff(Built(e, l), Built(e', l'), d)
    ensures d.Empty() <==> Steady(e, e', l)
  {
    BuildIsOrderBlind(e', l, l');
    if Steady(e, e', l) { SteadyIsIdle(e, e', l, d); }
    if d.Empty() { IdleIsSteady(e, e', l, d); }
  }
}
