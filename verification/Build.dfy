/** Building the graph from the caches (internal/collector/graph.go). Printing of
    numbers and durations, and the strings nodeRoles, nodeTaints and nodeGPU make,
    are inputs. */
module Build {
  import opened Seqs
  import opened Order
  import opened Ids
  import opened Topology
  import opened Restart
  import H = Health
  import R = Rollup

  // ------------------------------------------------------------------- caches

  datatype NodeObject = NodeObject(name: string, conditions: seq<H.Condition>, unschedulable: bool,
                                   kubelet: string, roles: string, gpu: bool, gpuCount: string, taints: string)

  datatype PVObject = PVObject(name: string, phase: H.PVPhase, storageClass: string, capacity: Option<string>)

  /** A DaemonSet's replicas are its scheduled count, a StatefulSet's available its current replicas. */
  datatype WorkloadObject = WorkloadObject(ns: string, name: string, replicas: Option<int>, ready: int, available: int)

  datatype PVCObject = PVCObject(ns: string, name: string, phase: H.PVCPhase, createdAt: int,
                                 storageClass: Option<string>, capacity: Option<string>, volumeName: string)

  datatype ServiceObject = ServiceObject(ns: string, name: string, hasSelector: bool, stype: string, clusterIP: string)

  datatype Target = Target(kind: string, name: string)

  datatype Subset = Subset(ready: seq<Option<Target>>, notReady: seq<Option<Target>>)

  datatype Owner = Owner(kind: string, name: string)

  datatype PodObject = PodObject(ns: string, name: string, status: H.PodStatus, nodeName: string,
                                 image: Option<string>, claims: seq<string>, owners: seq<Owner>)

  datatype NamespaceObject = NamespaceObject(name: string, phase: string)

  /** What the listers return, in whatever order. */
  datatype Lists = Lists(nodes: seq<NodeObject>, pvs: seq<PVObject>, deployments: seq<WorkloadObject>,
                         statefulSets: seq<WorkloadObject>, daemonSets: seq<WorkloadObject>, pvcs: seq<PVCObject>,
                         services: seq<ServiceObject>, pods: seq<PodObject>, namespaces: seq<NamespaceObject>)

  /** Everything else a build reads. Times are in nanoseconds. */
  datatype Env = Env(clusterScope: bool, watched: string, now: int, grace: int, half: Half,
                     before: map<string, Sample>, texts: H.Texts,
                     endpoints: map<(string, string), seq<Subset>>, replicaSets: map<(string, string), seq<Owner>>)

  function Minutes(now: int): real { now as real / 60000000000.0 }

  // ----------------------------------------------------------------- vertices

  datatype Kind = KCluster | KNamespace | KNode | KDeployment | KStatefulSet | KDaemonSet | KPod | KPVC | KPV | KService

  function KindText(k: Kind): string {
    match k
    case KCluster => "Cluster"
    case KNamespace => "Namespace"
    case KNode => "Node"
    case KDeployment => "Deployment"
    case KStatefulSet => "StatefulSet"
    case KDaemonSet => "DaemonSet"
    case KPod => "Pod"
    case KPVC => "PersistentVolumeClaim"
    case KPV => "PersistentVolume"
    case KService => "Service"
  }

  function IdOf(k: Kind, ns: string, name: string): string { Id(KindText(k), ns, name) }

  const CLUSTER_ID := "Cluster"

  datatype EdgeKind = Contains | RunsOn | Mounts | Backs | Routes

  function EdgeText(k: EdgeKind): string {
    match k
    case Contains => "contains"
    case RunsOn => "runs-on"
    case Mounts => "mounts"
    case Backs => "backs"
    case Routes => "routes"
  }

  function MakeEdge(source: string, target: string, kind: EdgeKind): Edge {
    Edge(EdgeIdOf(EdgeText(kind), source, target), source, target, EdgeText(kind))
  }

  function StateText(s: H.State): string {
    match s
    case Healthy => "healthy"
    case Degraded => "degraded"
    case Unhealthy => "unhealthy"
    case Unknown => "unknown"
  }

  function Vertex(k: Kind, ns: string, name: string, r: H.Result, reasons: seq<string>,
                  meta: map<string, string>): Node {
    Node(IdOf(k, ns, name), KindText(k), name, ns, StateText(r.state), r.score, reasons, meta)
  }

  function If(c: bool, k: string, v: string): map<string, string> {
    if c then map[k := v] else map[]
  }

  function IfSome(k: string, v: Option<string>): map<string, string> {
    if v.Some? then map[k := v.value] else map[]
  }

  // -------------------------------------------------------------------- parts

  /** Where an object's verdict is rolled up. */
  datatype Roll = NoRoll | ToCluster(result: H.Result) | ToNamespace(ns: string, result: H.Result)

  /** What one object contributes: its vertex, its verdict and its edges. */
  datatype Part = Part(kind: Kind, node: Node, roll: Roll, edges: seq<Edge>)

  function BoolText(b: bool): string { if b then "true" else "false" }

  function NodeMeta(n: NodeObject): map<string, string> {
    map["schedulable" := BoolText(!n.unschedulable), "kubelet" := n.kubelet, "roles" := n.roles]
    + If(n.gpu, "gpu", "true") + If(n.gpu && n.gpuCount != "", "gpuCount", n.gpuCount)
    + If(n.taints != "", "taints", n.taints)
  }

  function NodePart(n: NodeObject): Part {
    var r := H.NodeResult(n.conditions, n.unschedulable);
    var v := Vertex(KNode, "", n.name, r, H.Normalized(r.reasons), NodeMeta(n));
    Part(KNode, v, ToCluster(r), [MakeEdge(CLUSTER_ID, v.id, Contains)])
  }

  function PVPhaseText(p: H.PVPhase): string {
    match p
    case VolumeBound => "Bound"
    case VolumeAvailable => "Available"
    case VolumeReleased => "Released"
    case VolumeFailed => "Failed"
    case VolumePending => "Pending"
    case VolumeOther(text) => text
  }

  function PVMeta(v: PVObject): map<string, string> {
    map["phase" := PVPhaseText(v.phase)]
    + If(v.storageClass != "", "storageClass", v.storageClass) + IfSome("capacity", v.capacity)
  }

  function PVPart(v: PVObject): Part {
    var r := H.PV(v.phase);
    Part(KPV, Vertex(KPV, "", v.name, r, H.Normalized(r.reasons), PVMeta(v)), NoRoll, [])
  }

  /** The edge from the namespace that a namespaced object lies in. */
  function FromNamespace(ns: string, id: string): Edge {
    MakeEdge(IdOf(KNamespace, "", ns), id, Contains)
  }

  function Desired(w: WorkloadObject): int {
    if w.replicas.Some? then w.replicas.value else 1
  }

  function WorkloadPart(e: Env, k: Kind, w: WorkloadObject): Part {
    var r := H.Workload(Desired(w), w.ready, w.available, e.texts);
    var v := Vertex(k, w.ns, w.name, r, H.Normalized(r.reasons),
                    map["ready" := e.texts.num(w.ready) + "/" + e.texts.num(Desired(w))]);
    Part(k, v, ToNamespace(w.ns, r), [FromNamespace(w.ns, v.id)])
  }

  function PVCPhaseText(p: H.PVCPhase): string {
    match p
    case ClaimBound => "Bound"
    case ClaimLost => "Lost"
    case ClaimPending => "Pending"
    case ClaimOther(text) => text
  }

  function PVCMeta(c: PVCObject): map<string, string> {
    map["phase" := PVCPhaseText(c.phase)] + IfSome("storageClass", c.storageClass) + IfSome("capacity", c.capacity)
  }

  function PVCPart(e: Env, c: PVCObject): Part {
    var r := H.PVC(c.phase, c.createdAt, e.now, e.grace, e.texts);
    var v := Vertex(KPVC, c.ns, c.name, r, H.Normalized(r.reasons), PVCMeta(c));
    Part(KPVC, v, ToNamespace(c.ns, r), PVCEdges(c))
  }

  function PVCEdges(c: PVCObject): seq<Edge> {
    var id := IdOf(KPVC, c.ns, c.name);
    [FromNamespace(c.ns, id)] + if c.volumeName != "" then [MakeEdge(id, IdOf(KPV, "", c.volumeName), Backs)] else []
  }

  // ---- endpoints

  function PodNamed(t: Option<Target>): seq<string> {
    if t.Some? && t.value.kind == "Pod" then [t.value.name] else []
  }

  function SubsetPods(s: Subset): seq<string> {
    FlatMap(s.ready, PodNamed) + FlatMap(s.notReady, PodNamed)
  }

  /** Each string once, where it first occurs. */
  function Deduped(xs: seq<string>): (r: seq<string>)
    ensures forall x :: x in r <==> x in xs
    ensures forall i, j :: 0 <= i < j < |r| ==> r[i] != r[j]
  {
    if xs == [] then []
    else
      var init := Deduped(xs[..|xs| - 1]);
      assert xs == xs[..|xs| - 1] + [xs[|xs| - 1]];
      if xs[|xs| - 1] in init then init else init + [xs[|xs| - 1]]
  }

  function ReadyCount(ss: seq<Subset>): nat {
    if ss == [] then 0 else ReadyCount(ss[..|ss| - 1]) + |ss[|ss| - 1].ready|
  }

  function Subsets(e: Env, ns: string, name: string): seq<Subset> {
    if (ns, name) in e.endpoints then e.endpoints[(ns, name)] else []
  }

  /** The collect closure of endpointsFor. */
  method Collect(addrs: seq<Option<Target>>, names: seq<string>, ghost all: seq<string>) returns (r: seq<string>)
    requires names == Deduped(all)
    ensures r == Deduped(all + FlatMap(addrs, PodNamed))
  {
    r := names;
    var seen := set x | x in names;
    assert all + FlatMap(addrs[..0], PodNamed) == all;
    for i := 0 to |addrs|
      invariant r == Deduped(all + FlatMap(addrs[..i], PodNamed)) && forall x :: x in seen <==> x in r
    {
      FlatMapStep(addrs, i, PodNamed);
      ghost var sofar := all + FlatMap(addrs[..i], PodNamed);
      if addrs[i].Some? && addrs[i].value.kind == "Pod" {
        assert all + FlatMap(addrs[..i + 1], PodNamed) == sofar + [addrs[i].value.name];
        assert (sofar + [addrs[i].value.name])[..|sofar|] == sofar;
        if addrs[i].value.name !in seen {
          seen := seen + {addrs[i].value.name};
          r := r + [addrs[i].value.name];
        }
      } else {
        assert all + FlatMap(addrs[..i + 1], PodNamed) == sofar;
      }
    }
    assert addrs[..|addrs|] == addrs;
  }

  lemma SubsetStep(ss: seq<Subset>, i: nat)
    requires i < |ss|
    ensures FlatMap(ss[..i + 1], SubsetPods)
            == FlatMap(ss[..i], SubsetPods) + FlatMap(ss[i].ready, PodNamed) + FlatMap(ss[i].notReady, PodNamed)
    ensures ReadyCount(ss[..i + 1]) == ReadyCount(ss[..i]) + |ss[i].ready|
  {
    FlatMapStep(ss, i, SubsetPods);
    assert ss[..i + 1][..i] == ss[..i];
    assert SubsetPods(ss[i]) == FlatMap(ss[i].ready, PodNamed) + FlatMap(ss[i].notReady, PodNamed);
  }

  method WalkSubsets(ss: seq<Subset>) returns (readyCount: nat, podNames: seq<string>)
    ensures readyCount == ReadyCount(ss) && podNames == Deduped(FlatMap(ss, SubsetPods))
  {
    readyCount, podNames := 0, [];
    for i := 0 to |ss|
      invariant readyCount == ReadyCount(ss[..i]) && podNames == Deduped(FlatMap(ss[..i], SubsetPods))
    {
      ghost var all := FlatMap(ss[..i], SubsetPods);
      SubsetStep(ss, i);
      readyCount := readyCount + |ss[i].ready|;
      podNames := Collect(ss[i].ready, podNames, all);
      podNames := Collect(ss[i].notReady, podNames, all + FlatMap(ss[i].ready, PodNamed));
    }
    assert ss[..|ss|] == ss;
  }

  method EndpointsFor(e: Env, ns: string, name: string) returns (readyCount: nat, podNames: seq<string>)
    ensures readyCount == ReadyCount(Subsets(e, ns, name))
    ensures podNames == Deduped(FlatMap(Subsets(e, ns, name), SubsetPods))
  {
    if (ns, name) !in e.endpoints {
      return 0, [];
    }
    readyCount, podNames := WalkSubsets(e.endpoints[(ns, name)]);
  }

  function ServiceRoutes(e: Env, s: ServiceObject): string -> seq<Edge> {
    name => [MakeEdge(IdOf(KService, s.ns, s.name), IdOf(KPod, s.ns, name), Routes)]
  }

  function ServiceMeta(e: Env, s: ServiceObject): map<string, string> {
    map["type" := s.stype, "clusterIP" := s.clusterIP, "endpoints" := e.texts.num(ReadyCount(Subsets(e, s.ns, s.name)))]
  }

  function ServiceVerdict(e: Env, s: ServiceObject): H.Result {
    H.Service(s.hasSelector, ReadyCount(Subsets(e, s.ns, s.name)))
  }

  function ServiceVertex(e: Env, s: ServiceObject): Node {
    var r := ServiceVerdict(e, s);
    Vertex(KService, s.ns, s.name, r, H.Normalized(r.reasons), ServiceMeta(e, s))
  }

  function ServiceEdges(e: Env, s: ServiceObject): seq<Edge> {
    [FromNamespace(s.ns, IdOf(KService, s.ns, s.name))]
    + FlatMap(Deduped(FlatMap(Subsets(e, s.ns, s.name), SubsetPods)), ServiceRoutes(e, s))
  }

  function ServicePart(e: Env, s: ServiceObject): Part {
    Part(KService, ServiceVertex(e, s), ToNamespace(s.ns, ServiceVerdict(e, s)), ServiceEdges(e, s))
  }

  // ---- pods

  function DeploymentOwner(owners: seq<Owner>): Option<string> {
    if owners == [] then None
    else if owners[0].kind == "Deployment" then Some(owners[0].name)
    else DeploymentOwner(owners[1..])
  }

  /** The owning workload: the first owner that is a StatefulSet, a DaemonSet or
      a ReplicaSet owned by a Deployment. */
  function WorkloadForPod(e: Env, ns: string, owners: seq<Owner>): Option<(Kind, string)> {
    if owners == [] then None
    else
      var o := owners[0];
      if o.kind == "ReplicaSet" && (ns, o.name) in e.replicaSets
         && DeploymentOwner(e.replicaSets[(ns, o.name)]).Some? then
        Some((KDeployment, DeploymentOwner(e.replicaSets[(ns, o.name)]).value))
      else if o.kind == "StatefulSet" then Some((KStatefulSet, o.name))
      else if o.kind == "DaemonSet" then Some((KDaemonSet, o.name))
      else WorkloadForPod(e, ns, owners[1..])
  }

  function ParentOfPod(e: Env, p: PodObject): string {
    var w := WorkloadForPod(e, p.ns, p.owners);
    if w.Some? then IdOf(w.value.0, p.ns, w.value.1) else IdOf(KNamespace, "", p.ns)
  }

  function PodPhaseText(p: H.PodPhase): string {
    match p
    case Pending => "Pending"
    case Running => "Running"
    case Succeeded => "Succeeded"
    case Failed => "Failed"
    case OtherPhase(text) => text
  }

  function TotalRestarts(cs: seq<H.ContainerStatus>): int {
    if cs == [] then 0 else TotalRestarts(cs[..|cs| - 1]) + cs[|cs| - 1].restartCount
  }

  function PodMeta(e: Env, p: PodObject): map<string, string> {
    map["phase" := PodPhaseText(p.status.phase), "restarts" := e.texts.num(TotalRestarts(p.status.containers))]
    + If(p.nodeName != "", "node", p.nodeName) + IfSome("image", p.image)
  }

  function ClaimEdge(p: PodObject): string -> seq<Edge> {
    claim => [MakeEdge(IdOf(KPod, p.ns, p.name), IdOf(KPVC, p.ns, claim), Mounts)]
  }

  function PlacementEdges(p: PodObject): seq<Edge> {
    if p.nodeName != "" then [MakeEdge(IdOf(KPod, p.ns, p.name), IdOf(KNode, "", p.nodeName), RunsOn)] else []
  }

  function PodEdges(e: Env, p: PodObject): seq<Edge> {
    [MakeEdge(ParentOfPod(e, p), IdOf(KPod, p.ns, p.name), Contains)]
    + (PlacementEdges(p) + FlatMap(p.claims, ClaimEdge(p)))
  }

  function PodVertex(e: Env, p: PodObject, r: H.Result): Node {
    Vertex(KPod, p.ns, p.name, r, H.Normalized(r.reasons), PodMeta(e, p))
  }

  function PodPartAt(e: Env, p: PodObject, rate: real): Part {
    var r := H.PodResult(p.status, rate, e.texts);
    Part(KPod, PodVertex(e, p, r), ToNamespace(p.ns, r), PodEdges(e, p))
  }

  function Seen(p: PodObject): PodSeen {
    PodSeen(p.ns + "/" + p.name, p.status.containers)
  }

  function PodPart(e: Env, p: PodObject): Part {
    PodPartAt(e, p, PodRateFrom(e.half, e.before, Seen(p), Minutes(e.now)))
  }

  /** After a build the tracker holds, for each pod, the rate its part was scored with. */
  lemma ScoredWithTracked(e: Env, pods: seq<PodObject>, samples: map<string, Sample>, podRates: map<string, real>,
                          i: nat)
    requires i < |pods| && Tracked(e.half, e.before, SeenPods(pods), Minutes(e.now), samples, podRates)
    ensures Seen(pods[i]).key in podRates
    ensures PodPart(e, pods[i]) == PodPartAt(e, pods[i], podRates[Seen(pods[i]).key])
  {
    assert SeenPods(pods)[i] == Seen(pods[i]);
  }

  // ------------------------------------------------------------------ objects

  function NodeParts(e: Env): NodeObject -> seq<Part> { n => if e.clusterScope then [NodePart(n)] else [] }

  function PVParts(e: Env): PVObject -> seq<Part> { v => if e.clusterScope then [PVPart(v)] else [] }

  function WorkloadParts(e: Env, k: Kind): WorkloadObject -> seq<Part> { w => [WorkloadPart(e, k, w)] }

  function PVCParts(e: Env): PVCObject -> seq<Part> { c => [PVCPart(e, c)] }

  function ServiceParts(e: Env): ServiceObject -> seq<Part> { s => [ServicePart(e, s)] }

  function PodParts(e: Env): PodObject -> seq<Part> { p => [PodPart(e, p)] }

  /** What the loop over the objects of one kind contributes. */
  function RunOf(e: Env, l: Lists, k: Kind): seq<Part> {
    match k
    case KNode => FlatMap(l.nodes, NodeParts(e))
    case KPV => FlatMap(l.pvs, PVParts(e))
    case KDeployment => FlatMap(l.deployments, WorkloadParts(e, KDeployment))
    case KStatefulSet => FlatMap(l.statefulSets, WorkloadParts(e, KStatefulSet))
    case KDaemonSet => FlatMap(l.daemonSets, WorkloadParts(e, KDaemonSet))
    case KPVC => FlatMap(l.pvcs, PVCParts(e))
    case KService => FlatMap(l.services, ServiceParts(e))
    case KPod => FlatMap(l.pods, PodParts(e))
    case KNamespace => []
    case KCluster => []
  }

  function Runs(e: Env, l: Lists): Kind -> seq<Part> { k => RunOf(e, l, k) }

  /** The kinds in the order of the loops. */
  const LOOPS := [KNode, KPV, KDeployment, KStatefulSet, KDaemonSet, KPVC, KService, KPod]

  /** The contributions of all listed objects but the namespaces. */
  function ObjectParts(e: Env, l: Lists): seq<Part> { FlatMap(LOOPS, Runs(e, l)) }

  function PartNode(p: Part): seq<Node> { [p.node] }

  function PartEdges(p: Part): seq<Edge> { p.edges }

  function ClusterRoll(p: Part): seq<H.Result> {
    if p.roll.ToCluster? then [p.roll.result] else []
  }

  function RollInto(ns: string): Part -> seq<H.Result> {
    (p: Part) => if p.roll.ToNamespace? && p.roll.ns == ns then [p.roll.result] else []
  }

  // --------------------------------------------- namespaces and the cluster root

  datatype Space = Space(name: string, meta: map<string, string>)

  function PhaseSpace(n: NamespaceObject): seq<Space> { [Space(n.name, map["phase" := n.phase])] }

  function Spaces(e: Env, l: Lists): seq<Space> {
    if e.clusterScope then FlatMap(l.namespaces, PhaseSpace) else [Space(e.watched, map[])]
  }

  function SpacePartAt(s: Space, r: H.Result): Part {
    var v := Vertex(KNamespace, "", s.name, r, r.reasons, s.meta);
    Part(KNamespace, v, ToCluster(r), [MakeEdge(CLUSTER_ID, v.id, Contains)])
  }

  ghost function SpaceParts(e: Env, parts: seq<Part>): Space -> seq<Part> {
    (s: Space) => [SpacePartAt(s, R.AggregateOf(FlatMap(parts, RollInto(s.name)), e.texts))]
  }

  function ClusterNode(e: Env, r: H.Result): Node {
    Node(CLUSTER_ID, "Cluster", "cluster", "", StateText(r.state), r.score, r.reasons,
         map["scope" := if e.clusterScope then "cluster-wide" else "namespace:" + e.watched])
  }

  ghost function WithSpaces(e: Env, l: Lists, objects: seq<Part>): seq<Part> {
    objects + FlatMap(Spaces(e, l), SpaceParts(e, objects))
  }

  ghost function AllParts(e: Env, l: Lists): seq<Part> { WithSpaces(e, l, ObjectParts(e, l)) }

  ghost function ClusterVertex(e: Env, l: Lists): Node {
    ClusterNode(e, R.AggregateOf(FlatMap(AllParts(e, l), ClusterRoll), e.texts))
  }

  ghost function AllNodes(e: Env, l: Lists): seq<Node> {
    FlatMap(AllParts(e, l), PartNode) + [ClusterVertex(e, l)]
  }

  ghost function AllEdges(e: Env, l: Lists): seq<Edge> {
    FlatMap(AllParts(e, l), PartEdges)
  }

  function NodeIds(ns: seq<Node>): set<string> { set n | n in ns :: n.id }

  // ------------------------------------------------------------ edge filtering

  function EdgeIds(es: seq<Edge>): set<string> { set e | e in es :: e.id }

  /** The edges with both ends present, each ID where it first qualifies. */
  function KeepFirst(edges: seq<Edge>, present: set<string>): seq<Edge> {
    if edges == [] then []
    else
      var kept, e := KeepFirst(edges[..|edges| - 1], present), edges[|edges| - 1];
      if e.source in present && e.target in present && e.id !in EdgeIds(kept) then kept + [e] else kept
  }

  lemma KeepFirstOne(edges: seq<Edge>, e: Edge, present: set<string>)
    ensures KeepFirst(edges + [e], present)
            == (var kept := KeepFirst(edges, present);
                if e.source in present && e.target in present && e.id !in EdgeIds(kept) then kept + [e] else kept)
  {
    assert (edges + [e])[..|edges|] == edges;
  }

  lemma EdgeIdsOne(edges: seq<Edge>, e: Edge)
    ensures EdgeIds(edges + [e]) == EdgeIds(edges) + {e.id}
  {
    forall x | x in EdgeIds(edges) + {e.id} ensures x in EdgeIds(edges + [e]) {
      if x == e.id {
        assert e in edges + [e];
      } else {
        var f :| f in edges && f.id == x;
        assert f in edges + [e];
      }
    }
  }

  /** Writing e in front leaves what is still to be read as it was. */
  lemma WriteInFront(was: seq<Edge>, k: nat, i: nat, e: Edge)
    requires k <= i < |was|
    ensures was[k := e][..k + 1] == was[..k] + [e]
    ensures was[k := e][i + 1..] == was[i + 1..]
  {
  }

  /** kept := edges[:0] shares the array that the loop is still reading. */
  method FilterInPlace(edges: array<Edge>, present: set<string>) returns (kept: nat)
    modifies edges
    ensures kept <= edges.Length && edges[..kept] == KeepFirst(old(edges[..]), present)
  {
    kept := 0;
    var seen: set<string> := {};
    ghost var all := edges[..];
    for i := 0 to edges.Length
      invariant kept <= i
      invariant edges[..kept] == KeepFirst(all[..i], present)
      invariant edges[i..] == all[i..]
      invariant seen == EdgeIds(edges[..kept])
    {
      var e := edges[i];
      ghost var was := edges[..];
      assert was[i..] == all[i..] && was[..kept] == edges[..kept];
      assert e == was[i..][0] == all[i] && was[i..][1..] == was[i + 1..];
      assert all[..i + 1] == all[..i] + [e] && all[i..][1..] == all[i + 1..];
      KeepFirstOne(all[..i], e, present);
      if e.source in present && e.target in present && e.id !in seen {
        EdgeIdsOne(edges[..kept], e);
        WriteInFront(was, kept, i, e);
        seen := seen + {e.id};
        edges[kept] := e;
        assert edges[..] == was[kept := e];
        kept := kept + 1;
        assert edges[..kept] == edges[..][..kept];
      }
      assert edges[i + 1..] == edges[..][i + 1..];
    }
    assert all[..edges.Length] == all;
  }

  // ------------------------------------------------------------------ assembly

  predicate ById(a: Node, b: Node) { Less(a.id, b.id) }

  predicate ByEdgeId(a: Edge, b: Edge) { Less(a.id, b.id) }

  ghost function Built(e: Env, l: Lists): Graph {
    FinishedFrom(e, AllNodes(e, l), AllEdges(e, l))
  }

  function Children(m: map<string, seq<H.Result>>, ns: string): seq<H.Result> {
    if ns in m then m[ns] else []
  }

  /** buildGraph's accumulators. */
  datatype Acc = Acc(nodes: seq<Node>, edges: seq<Edge>, present: set<string>,
                     nsChildren: map<string, seq<H.Result>>, clusterChildren: seq<H.Result>)

  const NOTHING := Acc([], [], {}, map[], [])

  function Plus(a: Acc, p: Part): Acc {
    Acc(a.nodes + [p.node], a.edges + p.edges, a.present + {p.node.id},
        if p.roll.ToNamespace?
        then a.nsChildren[p.roll.ns := Children(a.nsChildren, p.roll.ns) + [p.roll.result]] else a.nsChildren,
        a.clusterChildren + ClusterRoll(p))
  }

  /** A namespaced object's vertex, edges and verdict added. */
  function Extended(a: Acc, n: Node, edges: seq<Edge>, ns: string, r: H.Result): Acc {
    Acc(a.nodes + [n], a.edges + edges, a.present + {n.id},
        a.nsChildren[ns := Children(a.nsChildren, ns) + [r]], a.clusterChildren)
  }

  lemma ExtendedBy(a: Acc, b: Acc, n: Node, edges: seq<Edge>, ns: string, r: H.Result)
    requires b.nodes == a.nodes + [n] && b.edges == a.edges + edges && b.present == a.present + {n.id}
    requires b.nsChildren == a.nsChildren[ns := Children(a.nsChildren, ns) + [r]]
    requires b.clusterChildren == a.clusterChildren
    ensures b == Extended(a, n, edges, ns, r)
  {
  }

  lemma PlusNamespaced(a: Acc, p: Part)
    requires p.roll.ToNamespace?
    ensures Plus(a, p) == Extended(a, p.node, p.edges, p.roll.ns, p.roll.result)
  {
    assert a.clusterChildren + [] == a.clusterChildren;
  }

  function PlusAll(a: Acc, ps: seq<Part>): Acc {
    if ps == [] then a else Plus(PlusAll(a, ps[..|ps| - 1]), ps[|ps| - 1])
  }

  lemma {:induction false} PlusAllConcat(a: Acc, ps: seq<Part>, qs: seq<Part>)
    ensures PlusAll(a, ps + qs) == PlusAll(PlusAll(a, ps), qs)
    decreases |qs|
  {
    if qs == [] {
      assert ps + qs == ps;
    } else {
      PlusAllConcat(a, ps, qs[..|qs| - 1]);
      assert (ps + qs)[..|ps + qs| - 1] == ps + qs[..|qs| - 1];
    }
  }

  lemma {:induction false} PlusAllContents(ps: seq<Part>)
    ensures var a := PlusAll(NOTHING, ps);
      && a.nodes == FlatMap(ps, PartNode) && a.edges == FlatMap(ps, PartEdges)
      && a.present == NodeIds(a.nodes) && a.clusterChildren == FlatMap(ps, ClusterRoll)
  {
    if ps != [] { PlusAllContents(ps[..|ps| - 1]); }
  }

  lemma {:induction false} PlusAllChildren(ps: seq<Part>, ns: string)
    ensures Children(PlusAll(NOTHING, ps).nsChildren, ns) == FlatMap(ps, RollInto(ns))
  {
    if ps != [] { PlusAllChildren(ps[..|ps| - 1], ns); }
  }

  /** buildGraph's local variables, with its add and addEdge closures. */
  class Assembly {
    var nodes: seq<Node>
    var edges: seq<Edge>
    var present: set<string>
    var nsChildren: map<string, seq<H.Result>>
    var clusterChildren: seq<H.Result>

    function Contents(): Acc
      reads this
    {
      Acc(nodes, edges, present, nsChildren, clusterChildren)
    }

    constructor ()
      ensures Contents() == NOTHING
    {
      nodes, edges, present, nsChildren, clusterChildren := [], [], {}, map[], [];
    }

    method AddNode(n: Node)
      modifies this`nodes, this`present
      ensures nodes == old(nodes) + [n] && present == old(present) + {n.id}
    {
      nodes := nodes + [n];
      present := present + {n.id};
    }

    method AddEdge(source: string, target: string, kind: EdgeKind)
      modifies this`edges
      ensures edges == old(edges) + [MakeEdge(source, target, kind)]
    {
      edges := edges + [Edge(EdgeText(kind) + ":" + source + "->" + target, source, target, EdgeText(kind))];
    }

    method AddChild(ns: string, r: H.Result)
      modifies this`nsChildren
      ensures nsChildren == old(nsChildren)[ns := Children(old(nsChildren), ns) + [r]]
    {
      nsChildren := nsChildren[ns := Children(nsChildren, ns) + [r]];
    }

    method AddClusterChild(r: H.Result)
      modifies this`clusterChildren
      ensures clusterChildren == old(clusterChildren) + [r]
    {
      clusterChildren := clusterChildren + [r];
    }
  }

  /** Of the objects xs, the parts of the first n have been added. */
  ghost predicate Added<X>(start: Acc, xs: seq<X>, n: nat, f: X -> seq<Part>, acc: Acc)
    requires n <= |xs|
  {
    acc == PlusAll(start, FlatMap(xs[..n], f))
  }

  lemma AddedNone<X>(start: Acc, xs: seq<X>, f: X -> seq<Part>)
    ensures Added(start, xs, 0, f, start)
  {
  }

  lemma AddedOne<X>(start: Acc, xs: seq<X>, i: nat, f: X -> seq<Part>, acc: Acc, p: Part)
    requires i < |xs| && f(xs[i]) == [p] && Added(start, xs, i, f, acc)
    ensures Added(start, xs, i + 1, f, Plus(acc, p))
  {
    FlatMapStep(xs, i, f);
    var sofar := FlatMap(xs[..i], f);
    assert (sofar + [p])[..|sofar|] == sofar;
  }

  lemma AddedAll<X>(start: Acc, xs: seq<X>, f: X -> seq<Part>, acc: Acc)
    requires Added(start, xs, |xs|, f, acc)
    ensures acc == PlusAll(start, FlatMap(xs, f))
  {
    assert xs[..|xs|] == xs;
  }

  // ---- nodes and volumes

  method AddNodeObject(n: NodeObject, a: Assembly)
    modifies a
    ensures a.Contents() == Plus(old(a.Contents()), NodePart(n))
  {
    var r := H.Node(n.conditions, n.unschedulable);
    a.AddClusterChild(r);
    var meta := NodeMetaFor(n);
    var reasons := H.NormalizeReasons(r.reasons);
    a.AddNode(Vertex(KNode, "", n.name, r, reasons, meta));
    a.AddEdge(CLUSTER_ID, IdOf(KNode, "", n.name), Contains);
    NodeAdded(old(a.Contents()), n, r);
  }

  method NodeMetaFor(n: NodeObject) returns (meta: map<string, string>)
    ensures meta == NodeMeta(n)
  {
    meta := map["schedulable" := BoolText(!n.unschedulable), "kubelet" := n.kubelet, "roles" := n.roles];
    ghost var first := meta;
    if n.gpu {
      meta := meta["gpu" := "true"];
      if n.gpuCount != "" { meta := meta["gpuCount" := n.gpuCount]; }
    }
    WithIf(first, n.gpu, "gpu", "true");
    WithIf(first + If(n.gpu, "gpu", "true"), n.gpu && n.gpuCount != "", "gpuCount", n.gpuCount);
    WithIf(meta, n.taints != "", "taints", n.taints);
    if n.taints != "" { meta := meta["taints" := n.taints]; }
  }

  lemma WithIf(m: map<string, string>, c: bool, k: string, v: string)
    ensures m + If(c, k, v) == if c then m[k := v] else m
  {
  }

  lemma WithSome(m: map<string, string>, k: string, v: Option<string>)
    ensures m + IfSome(k, v) == if v.Some? then m[k := v.value] else m
  {
  }

  lemma NodeAdded(acc: Acc, n: NodeObject, r: H.Result)
    requires r == H.NodeResult(n.conditions, n.unschedulable)
    ensures Plus(acc, NodePart(n))
            == Acc(acc.nodes + [Vertex(KNode, "", n.name, r, H.Normalized(r.reasons), NodeMeta(n))],
                   acc.edges + [MakeEdge(CLUSTER_ID, IdOf(KNode, "", n.name), Contains)],
                   acc.present + {IdOf(KNode, "", n.name)}, acc.nsChildren, acc.clusterChildren + [r])
  {
  }

  method AddNodes(e: Env, xs: seq<NodeObject>, a: Assembly)
    modifies a
    ensures a.Contents() == PlusAll(old(a.Contents()), FlatMap(xs, NodeParts(e)))
  {
    if !e.clusterScope {
      FlatMapEmptyIff(xs, NodeParts(e));
      return;
    }
    ghost var start := a.Contents();
    AddedNone(start, xs, NodeParts(e));
    for i := 0 to |xs|
      invariant Added(start, xs, i, NodeParts(e), a.Contents())
    {
      ghost var acc := a.Contents();
      AddNodeObject(xs[i], a);
      AddedOne(start, xs, i, NodeParts(e), acc, NodePart(xs[i]));
    }
    AddedAll(start, xs, NodeParts(e), a.Contents());
  }

  method AddPVObject(v: PVObject, a: Assembly)
    modifies a
    ensures a.Contents() == Plus(old(a.Contents()), PVPart(v))
  {
    var r := H.PV(v.phase);
    var meta := map["phase" := PVPhaseText(v.phase)];
    if v.storageClass != "" { meta := meta["storageClass" := v.storageClass]; }
    if v.capacity.Some? { meta := meta["capacity" := v.capacity.value]; }
    assert meta == PVMeta(v);
    var reasons := H.NormalizeReasons(r.reasons);
    a.AddNode(Vertex(KPV, "", v.name, r, reasons, meta));
  }

  method AddPVs(e: Env, xs: seq<PVObject>, a: Assembly)
    modifies a
    ensures a.Contents() == PlusAll(old(a.Contents()), FlatMap(xs, PVParts(e)))
  {
    if !e.clusterScope {
      FlatMapEmptyIff(xs, PVParts(e));
      return;
    }
    ghost var start := a.Contents();
    AddedNone(start, xs, PVParts(e));
    for i := 0 to |xs|
      invariant Added(start, xs, i, PVParts(e), a.Contents())
    {
      ghost var acc := a.Contents();
      AddPVObject(xs[i], a);
      AddedOne(start, xs, i, PVParts(e), acc, PVPart(xs[i]));
    }
    AddedAll(start, xs, PVParts(e), a.Contents());
  }

  // ---- workloads and claims

  method AddWorkloadObject(e: Env, k: Kind, w: WorkloadObject, a: Assembly)
    modifies a
    ensures a.Contents() == Plus(old(a.Contents()), WorkloadPart(e, k, w))
  {
    var desired := 1;
    if w.replicas.Some? { desired := w.replicas.value; }
    var r := H.Workload(desired, w.ready, w.available, e.texts);
    a.AddChild(w.ns, r);
    var reasons := H.NormalizeReasons(r.reasons);
    a.AddNode(Vertex(k, w.ns, w.name, r, reasons, map["ready" := e.texts.num(w.ready) + "/" + e.texts.num(desired)]));
    a.AddEdge(IdOf(KNamespace, "", w.ns), IdOf(k, w.ns, w.name), Contains);
  }

  method AddWorkloads(e: Env, k: Kind, xs: seq<WorkloadObject>, a: Assembly)
    modifies a
    ensures a.Contents() == PlusAll(old(a.Contents()), FlatMap(xs, WorkloadParts(e, k)))
  {
    ghost var start := a.Contents();
    AddedNone(start, xs, WorkloadParts(e, k));
    for i := 0 to |xs|
      invariant Added(start, xs, i, WorkloadParts(e, k), a.Contents())
    {
      ghost var acc := a.Contents();
      AddWorkloadObject(e, k, xs[i], a);
      AddedOne(start, xs, i, WorkloadParts(e, k), acc, WorkloadPart(e, k, xs[i]));
    }
    AddedAll(start, xs, WorkloadParts(e, k), a.Contents());
  }

  method AddPVCObject(e: Env, c: PVCObject, a: Assembly)
    modifies a
    ensures a.Contents() == Plus(old(a.Contents()), PVCPart(e, c))
  {
    var r := H.PVC(c.phase, c.createdAt, e.now, e.grace, e.texts);
    a.AddChild(c.ns, r);
    var meta := PVCMetaFor(c);
    var reasons := H.NormalizeReasons(r.reasons);
    a.AddNode(Vertex(KPVC, c.ns, c.name, r, reasons, meta));
    AddPVCEdges(c, a);
    PVCAdded(old(a.Contents()), e, c, r);
  }

  method PVCMetaFor(c: PVCObject) returns (meta: map<string, string>)
    ensures meta == PVCMeta(c)
  {
    meta := map["phase" := PVCPhaseText(c.phase)];
    if c.storageClass.Some? { meta := meta["storageClass" := c.storageClass.value]; }
    if c.capacity.Some? { meta := meta["capacity" := c.capacity.value]; }
  }

  method AddPVCEdges(c: PVCObject, a: Assembly)
    modifies a`edges
    ensures a.edges == old(a.edges) + PVCEdges(c)
  {
    a.AddEdge(IdOf(KNamespace, "", c.ns), IdOf(KPVC, c.ns, c.name), Contains);
    if c.volumeName != "" {
      a.AddEdge(IdOf(KPVC, c.ns, c.name), IdOf(KPV, "", c.volumeName), Backs);
    }
  }

  lemma PVCAdded(acc: Acc, e: Env, c: PVCObject, r: H.Result)
    requires r == H.PVC(c.phase, c.createdAt, e.now, e.grace, e.texts)
    ensures Plus(acc, PVCPart(e, c))
            == Acc(acc.nodes + [Vertex(KPVC, c.ns, c.name, r, H.Normalized(r.reasons), PVCMeta(c))],
                   acc.edges + PVCEdges(c), acc.present + {IdOf(KPVC, c.ns, c.name)},
                   acc.nsChildren[c.ns := Children(acc.nsChildren, c.ns) + [r]], acc.clusterChildren)
  {
    assert acc.clusterChildren + [] == acc.clusterChildren;
  }

  method AddPVCs(e: Env, xs: seq<PVCObject>, a: Assembly)
    modifies a
    ensures a.Contents() == PlusAll(old(a.Contents()), FlatMap(xs, PVCParts(e)))
  {
    ghost var start := a.Contents();
    AddedNone(start, xs, PVCParts(e));
    for i := 0 to |xs|
      invariant Added(start, xs, i, PVCParts(e), a.Contents())
    {
      ghost var acc := a.Contents();
      AddPVCObject(e, xs[i], a);
      AddedOne(start, xs, i, PVCParts(e), acc, PVCPart(e, xs[i]));
    }
    AddedAll(start, xs, PVCParts(e), a.Contents());
  }

  // ---- services

  /** One edge after another from a vertex. */
  method AddEdges<X>(xs: seq<X>, source: string, target: X -> string, kind: EdgeKind, ghost f: X -> seq<Edge>,
                     a: Assembly)
    requires forall i :: 0 <= i < |xs| ==> f(xs[i]) == [MakeEdge(source, target(xs[i]), kind)]
    modifies a`edges
    ensures a.edges == old(a.edges) + FlatMap(xs, f)
  {
    assert old(a.edges) + FlatMap(xs[..0], f) == old(a.edges);
    for i := 0 to |xs|
      invariant a.edges == old(a.edges) + FlatMap(xs[..i], f)
    {
      FlatMapStep(xs, i, f);
      a.AddEdge(source, target(xs[i]), kind);
    }
    assert xs[..|xs|] == xs;
  }

  method AddServiceEdges(e: Env, s: ServiceObject, targets: seq<string>, a: Assembly)
    requires targets == Deduped(FlatMap(Subsets(e, s.ns, s.name), SubsetPods))
    modifies a`edges
    ensures a.edges == old(a.edges) + ServiceEdges(e, s)
  {
    a.AddEdge(IdOf(KNamespace, "", s.ns), IdOf(KService, s.ns, s.name), Contains);
    AddEdges(targets, IdOf(KService, s.ns, s.name), name => IdOf(KPod, s.ns, name), Routes, ServiceRoutes(e, s), a);
    Regroup(old(a.edges), [FromNamespace(s.ns, IdOf(KService, s.ns, s.name))], FlatMap(targets, ServiceRoutes(e, s)));
  }

  /** Scores the service and adds its vertex and verdict. */
  method AddServiceVertex(e: Env, s: ServiceObject, a: Assembly) returns (targets: seq<string>)
    modifies a`nodes, a`present, a`nsChildren
    ensures targets == Deduped(FlatMap(Subsets(e, s.ns, s.name), SubsetPods))
    ensures a.nodes == old(a.nodes) + [ServiceVertex(e, s)] && a.present == old(a.present) + {ServiceVertex(e, s).id}
    ensures a.nsChildren == old(a.nsChildren)[s.ns := Children(old(a.nsChildren), s.ns) + [ServiceVerdict(e, s)]]
  {
    var ready;
    ready, targets := EndpointsFor(e, s.ns, s.name);
    var r := H.Service(s.hasSelector, ready);
    a.AddChild(s.ns, r);
    var meta := map["type" := s.stype, "clusterIP" := s.clusterIP, "endpoints" := e.texts.num(ready)];
    var reasons := H.NormalizeReasons(r.reasons);
    a.AddNode(Vertex(KService, s.ns, s.name, r, reasons, meta));
  }

  method AddServiceObject(e: Env, s: ServiceObject, a: Assembly)
    modifies a
    ensures a.Contents()
            == Extended(old(a.Contents()), ServiceVertex(e, s), ServiceEdges(e, s), s.ns, ServiceVerdict(e, s))
  {
    var targets := AddServiceVertex(e, s, a);
    AddServiceEdges(e, s, targets, a);
    ExtendedBy(old(a.Contents()), a.Contents(), ServiceVertex(e, s), ServiceEdges(e, s), s.ns, ServiceVerdict(e, s));
  }

  lemma Regroup<T>(a: seq<T>, b: seq<T>, c: seq<T>)
    ensures a + b + c == a + (b + c)
  {
  }

  method AddServices(e: Env, xs: seq<ServiceObject>, a: Assembly)
    modifies a
    ensures a.Contents() == PlusAll(old(a.Contents()), FlatMap(xs, ServiceParts(e)))
  {
    ghost var start := a.Contents();
    AddedNone(start, xs, ServiceParts(e));
    for i := 0 to |xs|
      invariant Added(start, xs, i, ServiceParts(e), a.Contents())
    {
      ghost var acc := a.Contents();
      AddServiceObject(e, xs[i], a);
      PlusNamespaced(acc, ServicePart(e, xs[i]));
      AddedOne(start, xs, i, ServiceParts(e), acc, ServicePart(e, xs[i]));
    }
    AddedAll(start, xs, ServiceParts(e), a.Contents());
  }

  // ---- pods

  method DeploymentAmong(owners: seq<Owner>) returns (name: Option<string>)
    ensures name == DeploymentOwner(owners)
  {
    for i := 0 to |owners|
      invariant DeploymentOwner(owners) == DeploymentOwner(owners[i..])
    {
      if owners[i].kind == "Deployment" {
        return Some(owners[i].name);
      }
      assert owners[i..][1..] == owners[i + 1..];
    }
    return None;
  }

  /** The ID of the workload that owns a pod: none, or as WorkloadForPod says. */
  ghost predicate IsWorkloadId(wid: Option<string>, e: Env, ns: string, owners: seq<Owner>) {
    var w := WorkloadForPod(e, ns, owners);
    wid == if w.Some? then Some(IdOf(w.value.0, ns, w.value.1)) else None
  }

  method WorkloadIdForPod(e: Env, ns: string, owners: seq<Owner>) returns (wid: Option<string>)
    ensures IsWorkloadId(wid, e, ns, owners)
  {
    for i := 0 to |owners|
      invariant WorkloadForPod(e, ns, owners) == WorkloadForPod(e, ns, owners[i..])
    {
      var o := owners[i];
      assert owners[i..][1..] == owners[i + 1..];
      if o.kind == "ReplicaSet" {
        if (ns, o.name) in e.replicaSets {
          var d := DeploymentAmong(e.replicaSets[(ns, o.name)]);
          if d.Some? {
            return Some(IdOf(KDeployment, ns, d.value));
          }
        }
      } else if o.kind == "StatefulSet" {
        return Some(IdOf(KStatefulSet, ns, o.name));
      } else if o.kind == "DaemonSet" {
        return Some(IdOf(KDaemonSet, ns, o.name));
      }
    }
    return None;
  }

  method SumRestarts(cs: seq<H.ContainerStatus>) returns (total: int)
    ensures total == TotalRestarts(cs)
  {
    total := 0;
    for i := 0 to |cs|
      invariant total == TotalRestarts(cs[..i])
    {
      assert cs[..i + 1][..i] == cs[..i];
      total := total + cs[i].restartCount;
    }
    assert cs[..|cs|] == cs;
  }

  method AddPodEdges(e: Env, p: PodObject, a: Assembly)
    modifies a`edges
    ensures a.edges == old(a.edges) + PodEdges(e, p)
  {
    var id := IdOf(KPod, p.ns, p.name);
    var wid := WorkloadIdForPod(e, p.ns, p.owners);
    if wid.Some? {
      a.AddEdge(wid.value, id, Contains);
    } else {
      a.AddEdge(IdOf(KNamespace, "", p.ns), id, Contains);
    }
    ghost var parent := MakeEdge(ParentOfPod(e, p), id, Contains);
    assert a.edges == old(a.edges) + [parent];
    if p.nodeName != "" {
      a.AddEdge(id, IdOf(KNode, "", p.nodeName), RunsOn);
    }
    assert a.edges == old(a.edges) + [parent] + PlacementEdges(p);
    AddEdges(p.claims, id, claim => IdOf(KPVC, p.ns, claim), Mounts, ClaimEdge(p), a);
    RegroupFour(old(a.edges), [parent], PlacementEdges(p), FlatMap(p.claims, ClaimEdge(p)));
  }

  lemma RegroupFour<T>(a: seq<T>, b: seq<T>, c: seq<T>, d: seq<T>)
    ensures a + b + c + d == a + (b + (c + d))
  {
  }

  method AddPodObject(e: Env, p: PodObject, rate: real, a: Assembly) returns (ghost r: H.Result)
    modifies a
    ensures r == H.PodResult(p.status, rate, e.texts)
    ensures a.Contents() == Extended(old(a.Contents()), PodVertex(e, p, r), PodEdges(e, p), p.ns, r)
  {
    var verdict := H.Pod(p.status, rate, e.texts);
    AddScoredPod(e, p, verdict, a);
    r := verdict;
  }

  method AddPodVertex(e: Env, p: PodObject, r: H.Result, a: Assembly)
    modifies a`nodes, a`present, a`nsChildren
    ensures a.nodes == old(a.nodes) + [PodVertex(e, p, r)] && a.present == old(a.present) + {PodVertex(e, p, r).id}
    ensures a.nsChildren == old(a.nsChildren)[p.ns := Children(old(a.nsChildren), p.ns) + [r]]
  {
    a.AddChild(p.ns, r);
    var meta := PodMetaFor(e, p);
    var reasons := H.NormalizeReasons(r.reasons);
    a.AddNode(Vertex(KPod, p.ns, p.name, r, reasons, meta));
  }

  method AddScoredPod(e: Env, p: PodObject, r: H.Result, a: Assembly)
    modifies a
    ensures a.Contents() == Extended(old(a.Contents()), PodVertex(e, p, r), PodEdges(e, p), p.ns, r)
  {
    AddPodVertex(e, p, r, a);
    AddPodEdges(e, p, a);
    ExtendedBy(old(a.Contents()), a.Contents(), PodVertex(e, p, r), PodEdges(e, p), p.ns, r);
  }

  method PodMetaFor(e: Env, p: PodObject) returns (meta: map<string, string>)
    ensures meta == PodMeta(e, p)
  {
    var total := SumRestarts(p.status.containers);
    meta := map["phase" := PodPhaseText(p.status.phase), "restarts" := e.texts.num(total)];
    WithIf(meta, p.nodeName != "", "node", p.nodeName);
    if p.nodeName != "" { meta := meta["node" := p.nodeName]; }
    WithSome(meta, "image", p.image);
    if p.image.Some? { meta := meta["image" := p.image.value]; }
  }

  function SeenPods(pods: seq<PodObject>): seq<PodSeen> {
    Map(pods, Seen)
  }

  /** The tracker has seen the first n pods. */
  ghost predicate PodsSeen(e: Env, pods: seq<PodObject>, n: nat, samples: map<string, Sample>,
                           podRates: map<string, real>,
                           livePods: set<string>, liveContainers: set<string>)
    requires n <= |pods|
  {
    Passing(e.half, e.before, SeenPods(pods), n, Minutes(e.now), samples, podRates, livePods, liveContainers)
  }

  /** The loop over the pods, which also feeds the restart tracker. */
  method AddPods(e: Env, pods: seq<PodObject>, a: Assembly, tracker: RestartTracker)
    requires KeysApart(SeenPods(pods)) && tracker.samples == e.before
    modifies a, tracker
    ensures a.Contents() == PlusAll(old(a.Contents()), FlatMap(pods, PodParts(e)))
    ensures Tracked(e.half, e.before, SeenPods(pods), Minutes(e.now), tracker.samples, tracker.podRates)
  {
    var livePods, liveContainers := AddEachPod(e, pods, a, tracker);
    PrunePods(e, pods, tracker, livePods, liveContainers);
  }

  method PrunePods(e: Env, pods: seq<PodObject>, tracker: RestartTracker, livePods: set<string>,
                   liveContainers: set<string>)
    requires KeysApart(SeenPods(pods))
    requires PodsSeen(e, pods, |pods|, tracker.samples, tracker.podRates, livePods, liveContainers)
    modifies tracker
    ensures Tracked(e.half, e.before, SeenPods(pods), Minutes(e.now), tracker.samples, tracker.podRates)
  {
    tracker.PruneAll(e.half, e.before, SeenPods(pods), Minutes(e.now), livePods, liveContainers);
  }

  method AddEachPod(e: Env, pods: seq<PodObject>, a: Assembly, tracker: RestartTracker)
    returns (livePods: set<string>, liveContainers: set<string>)
    requires KeysApart(SeenPods(pods)) && tracker.samples == e.before
    modifies a, tracker
    ensures a.Contents() == PlusAll(old(a.Contents()), FlatMap(pods, PodParts(e)))
    ensures PodsSeen(e, pods, |pods|, tracker.samples, tracker.podRates, livePods, liveContainers)
  {
    livePods, liveContainers := {}, {};
    ghost var start := a.Contents();
    AddedNone(start, pods, PodParts(e));
    PassingStarts(e.half, SeenPods(pods), Minutes(e.now), tracker.samples, tracker.podRates);
    for i := 0 to |pods|
      invariant Added(start, pods, i, PodParts(e), a.Contents())
      invariant PodsSeen(e, pods, i, tracker.samples, tracker.podRates, livePods, liveContainers)
    {
      livePods, liveContainers := AddOnePod(e, pods, i, start, a, tracker, livePods, liveContainers);
    }
    AddedAll(start, pods, PodParts(e), a.Contents());
  }

  /** Observes one pod's containers and adds the pod with the rate found. */
  method AddOnePod(e: Env, pods: seq<PodObject>, i: nat, ghost start: Acc, a: Assembly, tracker: RestartTracker,
                   livePods: set<string>, liveContainers: set<string>)
    returns (livePods': set<string>, liveContainers': set<string>)
    requires i < |pods| && KeysApart(SeenPods(pods)) && Added(start, pods, i, PodParts(e), a.Contents())
    requires PodsSeen(e, pods, i, tracker.samples, tracker.podRates, livePods, liveContainers)
    modifies a, tracker
    ensures Added(start, pods, i + 1, PodParts(e), a.Contents())
    ensures PodsSeen(e, pods, i + 1, tracker.samples, tracker.podRates, livePods', liveContainers')
  {
    var rate;
    rate, livePods', liveContainers' := ObserveOnePod(e, pods, i, tracker, livePods, liveContainers);
    AddRatedPod(e, pods, i, rate, start, a);
  }

  method ObserveOnePod(e: Env, pods: seq<PodObject>, i: nat, tracker: RestartTracker,
                       livePods: set<string>, liveContainers: set<string>)
    returns (rate: real, livePods': set<string>, liveContainers': set<string>)
    requires i < |pods| && KeysApart(SeenPods(pods))
    requires PodsSeen(e, pods, i, tracker.samples, tracker.podRates, livePods, liveContainers)
    modifies tracker
    ensures PodsSeen(e, pods, i + 1, tracker.samples, tracker.podRates, livePods', liveContainers')
    ensures rate == PodRateFrom(e.half, e.before, Seen(pods[i]), Minutes(e.now))
  {
    rate, livePods', liveContainers' :=
      tracker.ObservePod(e.half, e.before, SeenPods(pods), i, Minutes(e.now), livePods, liveContainers);
  }

  method AddRatedPod(e: Env, pods: seq<PodObject>, i: nat, rate: real, ghost start: Acc, a: Assembly)
    requires i < |pods| && rate == PodRateFrom(e.half, e.before, Seen(pods[i]), Minutes(e.now))
    requires Added(start, pods, i, PodParts(e), a.Contents())
    modifies a
    ensures Added(start, pods, i + 1, PodParts(e), a.Contents())
  {
    ghost var acc := a.Contents();
    ghost var r := AddPodObject(e, pods[i], rate, a);
    PodAdded(e, pods, i, start, acc, a.Contents(), rate, r);
  }

  lemma PodAdded(e: Env, pods: seq<PodObject>, n: nat, start: Acc, acc: Acc, acc': Acc, rate: real, r: H.Result)
    requires n < |pods| && Added(start, pods, n, PodParts(e), acc)
    requires rate == PodRateFrom(e.half, e.before, Seen(pods[n]), Minutes(e.now))
    requires r == H.PodResult(pods[n].status, rate, e.texts)
    requires acc' == Extended(acc, PodVertex(e, pods[n], r), PodEdges(e, pods[n]), pods[n].ns, r)
    ensures Added(start, pods, n + 1, PodParts(e), acc')
  {
    PlusNamespaced(acc, PodPartAt(e, pods[n], rate));
    AddedOne(start, pods, n, PodParts(e), acc, PodPartAt(e, pods[n], rate));
  }

  // ---- namespaces and the root

  method AddSpace(s: Space, r: H.Result, a: Assembly)
    modifies a
    ensures a.Contents() == Plus(old(a.Contents()), SpacePartAt(s, r))
    ensures a.nsChildren == old(a.nsChildren)
  {
    a.AddClusterChild(r);
    a.AddNode(Vertex(KNamespace, "", s.name, r, r.reasons, s.meta));
    a.AddEdge(CLUSTER_ID, IdOf(KNamespace, "", s.name), Contains);
  }

  /** The loop over the namespaces, each rolled up from its children. */
  method AddSpaces(e: Env, spaces: seq<Space>, a: Assembly, ghost objects: seq<Part>)
    requires a.Contents() == PlusAll(NOTHING, objects)
    modifies a
    ensures a.Contents() == PlusAll(NOTHING, objects + FlatMap(spaces, SpaceParts(e, objects)))
  {
    ghost var parts := objects;
    for i := 0 to |spaces|
      invariant parts == objects + FlatMap(spaces[..i], SpaceParts(e, objects))
      invariant a.Contents() == PlusAll(NOTHING, parts)
      invariant a.nsChildren == old(a.nsChildren)
    {
      PlusAllChildren(objects, spaces[i].name);
      var r := R.Aggregate(Children(a.nsChildren, spaces[i].name), e.texts);
      AddSpace(spaces[i], r, a);
      SpaceStep(e, spaces, i, objects, parts, r);
      parts := parts + [SpacePartAt(spaces[i], r)];
    }
    assert spaces[..|spaces|] == spaces;
  }

  lemma SpaceStep(e: Env, spaces: seq<Space>, i: nat, objects: seq<Part>, parts: seq<Part>, r: H.Result)
    requires i < |spaces| && r == R.AggregateOf(FlatMap(objects, RollInto(spaces[i].name)), e.texts)
    requires parts == objects + FlatMap(spaces[..i], SpaceParts(e, objects))
    ensures parts + [SpacePartAt(spaces[i], r)] == objects + FlatMap(spaces[..i + 1], SpaceParts(e, objects))
    ensures PlusAll(NOTHING, parts + [SpacePartAt(spaces[i], r)])
            == Plus(PlusAll(NOTHING, parts), SpacePartAt(spaces[i], r))
  {
    FlatMapStep(spaces, i, SpaceParts(e, objects));
    PlusAllOne(parts, SpacePartAt(spaces[i], r));
    Regroup(objects, FlatMap(spaces[..i], SpaceParts(e, objects)), [SpacePartAt(spaces[i], r)]);
  }

  lemma PlusAllOne(parts: seq<Part>, p: Part)
    ensures PlusAll(NOTHING, parts + [p]) == Plus(PlusAll(NOTHING, parts), p)
  {
    assert (parts + [p])[..|parts|] == parts;
  }

  /** All object loops in turn. */
  method AddObjects(e: Env, l: Lists, a: Assembly, tracker: RestartTracker)
    requires a.Contents() == NOTHING
    requires KeysApart(SeenPods(l.pods)) && tracker.samples == e.before
    modifies a, tracker
    ensures a.Contents() == PlusAll(NOTHING, ObjectParts(e, l))
    ensures Tracked(e.half, e.before, SeenPods(l.pods), Minutes(e.now), tracker.samples, tracker.podRates)
  {
    AddNodes(e, l.nodes, a);
    ghost var c1 := a.Contents();
    NodesAdd(e, l, KNode, NOTHING, c1);
    AddPVs(e, l.pvs, a);
    ghost var c2 := a.Contents();
    PVsAdd(e, l, KPV, c1, c2);
    AddWorkloads(e, KDeployment, l.deployments, a);
    ghost var c3 := a.Contents();
    DeploymentsAdd(e, l, KDeployment, c2, c3);
    AddWorkloads(e, KStatefulSet, l.statefulSets, a);
    ghost var c4 := a.Contents();
    StatefulSetsAdd(e, l, KStatefulSet, c3, c4);
    AddWorkloads(e, KDaemonSet, l.daemonSets, a);
    ghost var c5 := a.Contents();
    DaemonSetsAdd(e, l, KDaemonSet, c4, c5);
    AddPVCs(e, l.pvcs, a);
    ghost var c6 := a.Contents();
    PVCsAdd(e, l, KPVC, c5, c6);
    AddServices(e, l.services, a);
    ghost var c7 := a.Contents();
    ServicesAdd(e, l, KService, c6, c7);
    AddPods(e, l.pods, a, tracker);
    PodsAdd(e, l, KPod, c7, a.Contents());
    LoopsInTurn(LOOPS, Runs(e, l), c1, c2, c3, c4, c5, c6, c7, a.Contents());
  }

  // What each loop adds is the run of its kind, k.

  lemma NodesAdd(e: Env, l: Lists, k: Kind, a: Acc, b: Acc)
    requires k == KNode && b == PlusAll(a, FlatMap(l.nodes, NodeParts(e)))
    ensures b == PlusAll(a, Runs(e, l)(k))
  {
  }

  lemma PVsAdd(e: Env, l: Lists, k: Kind, a: Acc, b: Acc)
    requires k == KPV && b == PlusAll(a, FlatMap(l.pvs, PVParts(e)))
    ensures b == PlusAll(a, Runs(e, l)(k))
  {
  }

  lemma DeploymentsAdd(e: Env, l: Lists, k: Kind, a: Acc, b: Acc)
    requires k == KDeployment && b == PlusAll(a, FlatMap(l.deployments, WorkloadParts(e, KDeployment)))
    ensures b == PlusAll(a, Runs(e, l)(k))
  {
  }

  lemma StatefulSetsAdd(e: Env, l: Lists, k: Kind, a: Acc, b: Acc)
    requires k == KStatefulSet && b == PlusAll(a, FlatMap(l.statefulSets, WorkloadParts(e, KStatefulSet)))
    ensures b == PlusAll(a, Runs(e, l)(k))
  {
  }

  lemma DaemonSetsAdd(e: Env, l: Lists, k: Kind, a: Acc, b: Acc)
    requires k == KDaemonSet && b == PlusAll(a, FlatMap(l.daemonSets, WorkloadParts(e, KDaemonSet)))
    ensures b == PlusAll(a, Runs(e, l)(k))
  {
  }

  lemma PVCsAdd(e: Env, l: Lists, k: Kind, a: Acc, b: Acc)
    requires k == KPVC && b == PlusAll(a, FlatMap(l.pvcs, PVCParts(e)))
    ensures b == PlusAll(a, Runs(e, l)(k))
  {
  }

  lemma ServicesAdd(e: Env, l: Lists, k: Kind, a: Acc, b: Acc)
    requires k == KService && b == PlusAll(a, FlatMap(l.services, ServiceParts(e)))
    ensures b == PlusAll(a, Runs(e, l)(k))
  {
  }

  lemma PodsAdd(e: Env, l: Lists, k: Kind, a: Acc, b: Acc)
    requires k == KPod && b == PlusAll(a, FlatMap(l.pods, PodParts(e)))
    ensures b == PlusAll(a, Runs(e, l)(k))
  {
  }

  /** The first n loops have added what they contribute. */
  ghost predicate LoopsDone(ks: seq<Kind>, f: Kind -> seq<Part>, n: nat, a: Acc) {
    n <= |ks| && a == PlusAll(NOTHING, FlatMap(ks[..n], f))
  }

  lemma OneMoreLoop(ks: seq<Kind>, f: Kind -> seq<Part>, n: nat, a: Acc, b: Acc)
    requires n < |ks| && LoopsDone(ks, f, n, a) && b == PlusAll(a, f(ks[n]))
    ensures LoopsDone(ks, f, n + 1, b)
  {
    FlatMapStep(ks, n, f);
    PlusAllConcat(NOTHING, FlatMap(ks[..n], f), f(ks[n]));
  }

  lemma FourLoops(ks: seq<Kind>, f: Kind -> seq<Part>, n: nat, a: Acc, b: Acc, c: Acc, d: Acc, e: Acc)
    requires n + 4 <= |ks| && LoopsDone(ks, f, n, a)
    requires b == PlusAll(a, f(ks[n])) && c == PlusAll(b, f(ks[n + 1]))
    requires d == PlusAll(c, f(ks[n + 2])) && e == PlusAll(d, f(ks[n + 3]))
    ensures LoopsDone(ks, f, n + 4, e)
  {
    OneMoreLoop(ks, f, n, a, b);
    OneMoreLoop(ks, f, n + 1, b, c);
    OneMoreLoop(ks, f, n + 2, c, d);
    OneMoreLoop(ks, f, n + 3, d, e);
  }

  lemma EightLoops(ks: seq<Kind>, f: Kind -> seq<Part>, c1: Acc, c2: Acc, c3: Acc, c4: Acc, c5: Acc, c6: Acc, c7: Acc,
                   c8: Acc)
    requires |ks| == 8
    requires c1 == PlusAll(NOTHING, f(ks[0])) && c2 == PlusAll(c1, f(ks[1])) && c3 == PlusAll(c2, f(ks[2]))
    requires c4 == PlusAll(c3, f(ks[3])) && c5 == PlusAll(c4, f(ks[4])) && c6 == PlusAll(c5, f(ks[5]))
    requires c7 == PlusAll(c6, f(ks[6])) && c8 == PlusAll(c7, f(ks[7]))
    ensures c8 == PlusAll(NOTHING, FlatMap(ks, f))
  {
    FourLoops(ks, f, 0, NOTHING, c1, c2, c3, c4);
    FourLoops(ks, f, 4, c4, c5, c6, c7, c8);
    assert ks[..8] == ks;
  }

  lemma LoopOrder(ks: seq<Kind>)
    requires ks == LOOPS
    ensures |ks| == 8 && ks[0] == KNode && ks[1] == KPV && ks[2] == KDeployment && ks[3] == KStatefulSet
    ensures ks[4] == KDaemonSet && ks[5] == KPVC && ks[6] == KService && ks[7] == KPod
  {
  }

  lemma LoopsInTurn(ks: seq<Kind>, f: Kind -> seq<Part>, c1: Acc, c2: Acc, c3: Acc, c4: Acc, c5: Acc, c6: Acc, c7: Acc,
                    c8: Acc)
    requires ks == LOOPS
    requires c1 == PlusAll(NOTHING, f(KNode)) && c2 == PlusAll(c1, f(KPV)) && c3 == PlusAll(c2, f(KDeployment))
    requires c4 == PlusAll(c3, f(KStatefulSet)) && c5 == PlusAll(c4, f(KDaemonSet)) && c6 == PlusAll(c5, f(KPVC))
    requires c7 == PlusAll(c6, f(KService)) && c8 == PlusAll(c7, f(KPod))
    ensures c8 == PlusAll(NOTHING, FlatMap(ks, f))
  {
    LoopOrder(ks);
    EightLoops(ks, f, c1, c2, c3, c4, c5, c6, c7, c8);
  }

  method BuildGraph(e: Env, l: Lists, tracker: RestartTracker) returns (g: Graph)
    requires KeysApart(SeenPods(l.pods)) && tracker.samples == e.before
    modifies tracker
    ensures g == Built(e, l)
    ensures Tracked(e.half, e.before, SeenPods(l.pods), Minutes(e.now), tracker.samples, tracker.podRates)
  {
    var a := new Assembly();
    AddObjects(e, l, a, tracker);
    g := Complete(e, l, a);
  }

  method Complete(e: Env, l: Lists, a: Assembly) returns (g: Graph)
    requires a.Contents() == PlusAll(NOTHING, ObjectParts(e, l))
    modifies a
    ensures g == Built(e, l)
  {
    g := RollUp(e, l, a, ObjectParts(e, l));
    AssembledIsBuilt(e, l, g);
  }

  /** Adds the namespaces and the root over the objects, then finishes the graph. */
  method RollUp(e: Env, l: Lists, a: Assembly, ghost objects: seq<Part>) returns (g: Graph)
    requires a.Contents() == PlusAll(NOTHING, objects)
    modifies a
    ensures g == Assembled(e, WithSpaces(e, l, objects))
  {
    AddSpaces(e, Spaces(e, l), a, objects);
    g := Conclude(e, a, WithSpaces(e, l, objects));
  }

  lemma AssembledIsBuilt(e: Env, l: Lists, g: Graph)
    requires g == Assembled(e, WithSpaces(e, l, ObjectParts(e, l)))
    ensures g == Built(e, l)
  {
  }

  /** The graph of these parts, under a root that rolls them up. */
  ghost function Assembled(e: Env, parts: seq<Part>): Graph {
    FinishedFrom(e, FlatMap(parts, PartNode) + [ClusterNode(e, R.AggregateOf(FlatMap(parts, ClusterRoll), e.texts))],
                 FlatMap(parts, PartEdges))
  }

  /** Adds the root, drops edges, sorts. */
  method Conclude(e: Env, a: Assembly, ghost parts: seq<Part>) returns (g: Graph)
    requires a.Contents() == PlusAll(NOTHING, parts)
    modifies a
    ensures g == Assembled(e, parts)
  {
    PlusAllContents(parts);
    var r := R.Aggregate(a.clusterChildren, e.texts);
    var root := ClusterNode(e, r);
    OneMoreId(a.nodes, root);
    a.AddNode(root);
    g := Finish(e, a.nodes, a.edges, a.present);
  }

  lemma OneMoreId(ns: seq<Node>, n: Node)
    ensures NodeIds(ns + [n]) == NodeIds(ns) + {n.id}
  {
    assert n in ns + [n];
  }

  function FinishedFrom(e: Env, nodes: seq<Node>, allEdges: seq<Edge>): Graph {
    Graph(SortBy(nodes, ById), SortBy(KeepFirst(allEdges, NodeIds(nodes)), ByEdgeId), e.now)
  }

  /** Drops dangling and repeated edges, then sorts. */
  method Finish(e: Env, nodes: seq<Node>, allEdges: seq<Edge>, present: set<string>) returns (g: Graph)
    requires present == NodeIds(nodes)
    ensures g == FinishedFrom(e, nodes, allEdges)
  {
    var edges := new Edge[|allEdges|](i requires 0 <= i < |allEdges| => allEdges[i]);
    assert edges[..] == allEdges;
    var kept := FilterInPlace(edges, present);
    g := Graph(SortBy(nodes, ById), SortBy(edges[..kept], ByEdgeId), e.now);
  }
}
