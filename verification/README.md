# Verified model of Pulsebox

Pulsebox watches a Kubernetes cluster through informer caches, turns the caches
into one topology graph with health scores, streams changes of that graph to
dashboards over WebSocket, and the dashboard keeps a replica and draws it as a
tree. This project models that pipeline in Dafny and proves what its parts
promise each other. Paths below are those of the repository.

- **Diffs** (`Topology`, `Client`, `Keyed`). `nodeEqual`, `index`, `DiffAgainst`
  and the client's `applyMessage`, as loops over maps in arbitrary iteration
  order. Patching the old index with the diff gives the new index *if and only
  if* the pair of graphs is `Disciplined`.
- **The live stream** (`Broker`, `Stream`, `Collector`). The broker is a class
  over channels of 32; the whole stream is a transition system with the steps
  Publish, Subscribe, Unsubscribe and Receive (a broadcast drops a full
  subscriber as part of Publish), because `c.mu` makes each of them atomic. The
  collector's methods are proved to take exactly these steps. The replica
  theorems range over every run.
- **When rebuilds happen** (`Debounce`). The event handlers, the dirty token, the
  timer and the rebuild as a timed transition system: no update is lost, rebuilds
  keep their distance, quiet runs settle on the latest caches, and steady changes
  cannot put a change's rebuild off: where nothing dawdles it is shown once a
  debounce has passed besides the time spent rebuilding.
- **From cache to client** (`Pipeline`). The rebuild loop, the builder and the
  stream as one system: a registered client adds up to what `buildGraph` makes of
  the caches that the loop says are shown, and, once a run has settled, of the
  latest ones.
- **Building the graph** (`Ids`, `Build`, `BuildLaws`, `Forest`, `Hygiene`,
  `Discipline`, `Idle`, `Restart`). `buildGraph`, loop by loop over its
  accumulators, with the restart tracker it feeds and the in-place edge filter,
  and what every built graph satisfies: unique IDs, no edge lost, a containment
  forest, independence of the listers' order. Which pairs of builds a diff tells
  apart, and exactly when a rebuild over unchanged caches sends nothing.
- **The namespace endpoint** (`Scope`, `Endpoint`). `NamespaceSnapshot` is
  characterised exactly, and so are the built graphs for which it returns what its
  documentation promises, and nothing else.
- **Health** (`Health`, `Rollup`, `Reasons`). The leaf scorers, `Aggregate` and
  `topReasons`, and what a verdict tells of a restart rate.
- **The dashboard** (`Visible`, `Balance`, `Sides`, `Placing`, `Clear`,
  `Layout`, `Relayout`, `Dashboard`, `Arrival`, `EndToEnd`). Namespace selection,
  the balancing of a root's two sides, and the recursive weighing and placement, on
  any graph; that all visible vertices are drawn; when cards overlap; and when the
  drawing shows in which order nodes and edges arrived.
- **Warnings** (`Events`). The choice of lister, the exchange sort and the cut in
  `WarningEvents`.

`Seqs` and `Order` hold sequence and ordering lemmas that the rest shares.
`dafny verify dfyconfig.toml` checks the project.

## Conventions

- Scores, rates, minutes and coordinates are `real`: Go's and JavaScript's
  floating-point addition is not associative, and none of the results is about
  rounding. Counts are unbounded integers.
- A loop over a Go map picks its next key arbitrarily (`:|`), so each result
  holds for every iteration order.
- What the libraries print or compare is a parameter: `fmt` verbs and durations
  (`Texts`), `math.Pow(0.5, dt)` (`half`, assumed multiplicative and at most 1
  for non-negative times), `localeCompare` and the kind ranking (`order`,
  `before`), the strings of `nodeRoles`, `nodeTaints` and `nodeGPU`.
- Sorting is `Order.SortBy`, which is stable, as JavaScript's `sort` is. Go's
  `sort.Slice` is not, but is applied only where all elements are comparable, so
  its treatment of equal elements is never seen.
- The clock is a parameter, and a published graph's time is never the zero time,
  as `time.Now()` guarantees. The zero time is 0.
- The caches are the listers' results (`Build.Lists`). `Hygiene.CleanLists` says
  what Kubernetes guarantees about them: no '/' or '>' in names, no object
  listed twice.
- `rebuild` is `Build.BuildGraph`, run without the lock, followed by
  `Collector.Collector.PublishGraph`, run under it.
- `place`, `weight` and `relayout` are verified on any graph: they end, and draw
  each vertex that the roots lead to once. What they draw is specified where the
  visible children form trees, as they do for a built graph whose volumes are each
  claimed once (`Hygiene.CleanCachesDraw`, `Dashboard.ForestBelow`).

## Where the code and its documentation differ

The model follows the code.

- `nodeEqual` reads an absent Meta key as `""`, so it is neither symmetric
  (`Topology.AgreeIsOneSided`) nor equality, and an empty diff may hide a change:
  of a claim whose storage class was `""`, when at the next rebuild the claim of that
  name has none but its first capacity (`Discipline.UndisciplinedBuilds`). The exact condition is
  that no key that was `""` disappears (`Topology.PatchLaw`,
  `Stream.PublishKeepsReplicaIff`). Built graphs meet it when no object loses a
  blank pod image, claim storage class or capacity between the two listings
  (`Discipline.BuildsAreDisciplined`).
- `NamespaceSnapshot` promises a single namespace, with only the nodes and volumes
  that it uses. But the Cluster vertex is a seed too, and its edges pull in every
  namespace and every node. On built graphs the promise is kept if and only if there
  is no other namespace and each node runs a pod of this one
  (`Endpoint.AsPromisedIff`). All that is promised is always there
  (`Endpoint.PromisedIsReturned`); but so is, say, each pod of any other namespace
  that no workload owns (`Endpoint.BarePodIsReturned`).
- The documentation has a hard failure pin a namespace's state. It does so
  exactly when the mean stays below 0.99 (`Rollup.FailurePinsIff`), which is sure
  below 80 scored children a failure and not from 80 on (`Rollup.FailuresPin`,
  `Rollup.FailuresPinTight`).
- `computeVisible` starts with the Cluster and every Node already kept, so it
  never expands them. On arbitrary graphs that can hide something the selection
  leads to (`Visible.PinnedHidesExample`), exactly when `Visible.ShownIsClosureIff`
  says; the graphs that `buildGraph` makes hide nothing
  (`EndToEnd.SelectionShowsAll`).
- A root without visible children moves the drawing cursor by 24 only, whatever
  its height, so the next root may be drawn over it. Cards are clear of each
  other if and only if `Layout.Roomy` (`Layout.LayoutClearIff`). Unclaimed volumes
  are such roots, and two in a row overlap (`Dashboard.ChildlessRootsOverlap`,
  `EndToEnd.VolumeRootsOverlap`, `EndToEnd.UnclaimedVolumesOverlap`).
- The layout is called deterministic. It does not depend on the order in which
  nodes and edges arrived, as long as no two siblings or roots tie in kind rank and
  name (`Arrival.DrawingIsOrderBlind`). A Deployment and a StatefulSet of one name
  do tie, and then the two swap places with their edges
  (`Arrival.TiesKeepArrival`, `Arrival.TiesAreSeen`).
- A pod's score is not monotone in its restart rate: with no container ready it
  goes from 0.1 up to 0.2 (`Health.ScoreRisesWithRate`). It is exactly for pods to
  which the rate does not matter or that have a container ready, or none at all
  (`Health.ScoreFallsIff`). The severity always is (`Health.SeverityRisesWithRate`).
- Two different edges share an ID when a name holds `->` in the wrong place, exactly
  as `Ids.EdgeIdIff` says, and the second is then dropped as a duplicate
  (`BuildLaws.ClashDropsSecond`, `BuildLaws.ClashingEdges`). Kubernetes admits no
  such name.

## Model

| member | source | states |
|---|---|---|
| Topology.NodeEqual | internal/topology/topology.go:135-154 | the early-return loops decide agreement of scalars, reasons and Meta with absent keys read as "" |
| Topology.AgreeIsEqualIff | internal/topology/topology.go:147-152 | nodes that nodeEqual accepts are equal if and only if no key mapped to "" is missing from the second; by counting keys |
| Topology.BuildIndex | internal/topology/topology.go:84-94 | the two loops give the ID-indexed view of a graph, later writes winning |
| Topology.DiffAgainst | internal/topology/topology.go:97-123 | in whatever order the maps iterate, each changed or new ID is upserted once with its new value and each vanished ID removed once |
| Topology.PatchContents | internal/web/static/app.js:47-52 | what patching any view at all with a diff leaves, key by key |
| Topology.PatchIsOrderBlind | internal/topology/topology.go:97-123 | any two diffs of the same pair patch any view alike, so iteration order cannot be observed |
| Topology.PatchLaw | internal/topology/topology.go:97-123 | patching the index of prev with g.DiffAgainst(prev) gives the index of g if and only if the pair keeps its blank Meta keys |
| Topology.DiffIsMinimal | internal/topology/topology.go:97-123 | no ID is both upserted and removed, and every upsert differs from what the old index holds |
| Topology.EmptyDiffIff | internal/topology/topology.go:78-81 | equal indexes diff to nothing, and a diff with nothing in it means equal indexes exactly for disciplined pairs |
| Topology.AgreeIsOneSided | internal/topology/topology.go:147-152 | two nodes of which nodeEqual accepts one as the other but not the other way round |
| Keyed.PutAllLookup | internal/topology/topology.go:84-94 | after the writing loop a key is present iff it was or was written, with the last value written |
| Keyed.SetEach | internal/web/static/app.js:49-50 | a loop of Map.set is the map with all elements written in order |
| Keyed.DeleteEach | internal/web/static/app.js:51-52 | a loop of Map.delete leaves exactly the keys not listed |
| Broker.Channel.TrySend | internal/collector/broker.go:48-50 | a non-blocking send succeeds iff fewer than 32 are buffered, and needs an open channel |
| Broker.Broker.Subscribe | internal/collector/broker.go:23-31 | a fresh channel under an ID never used before; open-iff-registered and all other queues are kept |
| Broker.Broker.Unsubscribe | internal/collector/broker.go:34-41 | removes and closes at most once, also after a drop; queues stay readable |
| Broker.Broker.Offer | internal/collector/broker.go:47-54 | one subscriber gets the diff if it has room and is otherwise deregistered and closed |
| Broker.Broker.Broadcast | internal/collector/broker.go:44-56 | whatever order the map is visited in, every registered queue with room grows by the diff, full ones are dropped, and no send or close hits a closed channel |
| Broker.PartlyStep | internal/collector/broker.go:44-56 | visiting one more subscriber turns a partial broadcast into the next, for any order |
| Broker.TakeOne | internal/api/api.go:144-151 | receiving takes the oldest buffered diff, from a closed channel too, and touches no other queue |
| Client.Replica.ApplyMessage | internal/web/static/app.js:47-52 | the replica after a message is the patch of the replica before |
| Client.FoldConcat | internal/web/static/app.js:47-52 | folding two runs of messages one after the other is folding their concatenation |
| Collector.Collector.PublishGraph | internal/collector/graph.go:30-42 | swaps lastGraph and broadcasts under the lock, and is an enabled Publish step of every stream state the objects represent |
| Collector.Collector.Subscribe | internal/collector/collector.go:247-253 | snapshot and registration in one step of the stream, the snapshot being the session's handoff |
| Collector.Collector.Unsubscribe | internal/collector/collector.go:252 | the handed-out function is an Unsubscribe step and leaves lastGraph alone |
| Stream.DeliveryStep | internal/collector/collector.go:243-253 | every step keeps the delivery invariant: each session holds its snapshot and then a gap-free run of broadcasts, up to the latest while registered |
| Stream.PublishFoldsIff | internal/collector/graph.go:30-42 | after a publication the broadcasts alone still rebuild every published index if and only if it kept the blank Meta keys |
| Stream.RunDelivers | internal/collector/broker.go:22-56 | the delivery invariant holds in every state of every run |
| Stream.RunInv | internal/collector/graph.go:27-43 | in every disciplined run the broadcasts, folded from nothing, give each published index |
| Stream.RegisteredCatchUp | internal/collector/collector.go:247-253 | in every disciplined run a registered client's view, folded over the snapshot in flight and the queued diffs, is the index of the latest graph |
| Stream.EveryViewWasPublished | internal/collector/broker.go:44-56 | in every disciplined run each session, dropped ones draining their buffers included, moves through published graphs in order, never back, starting with the one it subscribed at |
| Stream.DeliveriesAreContiguous | internal/collector/broker.go:22-56 | in every run deliveries are a contiguous run of the broadcasts since subscribing, all of them while registered, and no queue exceeds 32 |
| Stream.PublishKeepsReplicaIff | internal/collector/graph.go:30-42 | publishing leaves a subscriber with room exact if and only if the graph keeps the blank Meta keys |
| Debounce.InvStep | internal/collector/collector.go:150-197 | every step keeps the debounce invariant: no change lost, versions and times in order, rebuilds spaced |
| Debounce.RunInv | internal/collector/collector.go:150-197 | in every reachable state a change that no rebuild has read is still on its way, and each rebuild starts at least the debounce after the one before ended |
| Debounce.RebuildsPerPeriod | internal/collector/collector.go:178-197 | in any run the number of rebuilds after the first, times the debounce, is at most the time since the first began |
| Debounce.WorkLowersRank | internal/collector/collector.go:150-197 | each handler, token, timer or rebuild step lowers a natural-valued rank and waiting never raises it |
| Debounce.StaleHasWork | internal/collector/collector.go:179-197 | while the published graph is stale some such step is enabled, or will be when the timer's deadline passes |
| Debounce.QuietRunSettles | internal/collector/collector.go:150-197 | once changes stop, boundedly much work remains, and a run leaving none undone ends with the latest caches published |
| Debounce.ArmedStands | internal/collector/collector.go:185-190 | an armed deadline stands through every step but the firing: no token or change puts it off |
| Debounce.ArmedStandsThrough | internal/collector/collector.go:178-197 | over any run without a firing in between the deadline stays the same, and once a debounce has passed the rebuild can begin, however many changes came in |
| Debounce.HelpsLowersDistance | internal/collector/collector.go:150-197 | whatever else changes, no step takes a given change further from being shown, and taking the token, firing, finishing or its handler brings it nearer |
| Debounce.SomethingHelps | internal/collector/collector.go:178-197 | until a change is shown such a step is enabled now or within one debounce |
| Debounce.EveryChangeGetsShown | internal/collector/collector.go:150-197 | in any run, changes going on or not, a change is shown after at most five such steps, and as long as it is not one is due within a debounce; this counts steps, not time |
| Debounce.WaitShrinks | internal/collector/collector.go:178-197 | whatever happens, the time a waiting loop lets pass comes off what is left to wait for a change, where it lets no helping step go by: nothing adds to the wait |
| Debounce.ShownInTime | internal/collector/collector.go:178-197 | in any run in which the waiting loop lets no step that helps a change go by, the change is shown once more than a debounce, and the time spent rebuilding, has passed |
| Pipeline.ClientsFollow | internal/collector/graph.go:27-43 | in every run over caches that lose no blank keys, a registered client's view with its queue folded in is the index of a build of the caches that the loop has shown last |
| Pipeline.SettledClients | internal/collector/collector.go:150-197 | in a run with no work left those are the latest caches |
| Pipeline.ClientsInTime | internal/collector/collector.go:178-197 | and, once a debounce and the time spent rebuilding have passed since a change, caches no older than it |
| Pipeline.SettledReplicas | internal/collector/graph.go:47-302 | with buildGraph as the builder: in a settled run a registered client adds up to the index of the built graph of the latest caches, for some clock and samples |
| Scope.Sweep | internal/collector/collector.go:223-227 | the one pass over the edges keeps exactly what is reachable from the seeds by edges in list order |
| Scope.SweptClimbs | internal/collector/collector.go:223-227 | a vertex is kept if and only if a walk whose edge positions strictly increase leads to it from a seed |
| Scope.NamespaceSnapshot | internal/collector/collector.go:215-241 | the result is the order-preserving subgraph induced by what the pass keeps |
| Scope.ClimbsOneMore | internal/collector/collector.go:223-227 | one more edge adds its target exactly when its source was already reachable |
| Scope.KeepIsBetween | internal/collector/collector.go:215-227 | keep contains the seeds and their direct targets and nothing outside their transitive closure |
| Scope.NoDanglingEdge | internal/collector/collector.go:228-240 | the subgraph of a graph without dangling edges has none, and holds exactly the vertices and edges within keep |
| Endpoint.AsPromisedIff | internal/collector/collector.go:213-241 | for built graphs the result holds only the Cluster, what is of the namespace, and the nodes and volumes its pods and claims reference, if and only if there is no other namespace and each node runs a pod of it |
| Endpoint.PromisedIsReturned | internal/collector/collector.go:213-241 | everything promised is returned, for any graph at all |
| Endpoint.ContainedIsReturned | internal/collector/collector.go:219-227 | whatever any namespace directly contains is returned too, whichever namespace was asked for |
| Endpoint.BarePodIsReturned | internal/collector/graph.go:230-235 | so from any clean caches a pod that no workload owns is returned for every namespace, its own or not |
| Ids.IdTellsKind | internal/collector/graph.go:17-22 | for kinds without '/' an ID determines its kind, whatever namespace and name hold |
| Ids.IdInjective | internal/collector/graph.go:17-22 | for names without '/' IDs agree iff kind, namespace and name do, cluster-scoped or not |
| Ids.EdgeIdIff | internal/collector/graph.go:57-62 | edge IDs agree iff the kinds do and either the ends do too or one source runs into the other across an arrow inside a name |
| BuildLaws.ClashDropsSecond | internal/collector/graph.go:288-295 | of two edges with one ID the filter keeps the first only, even if they differ |
| BuildLaws.ClashingEdges | internal/collector/graph.go:286-295 | two different edges of which the second is dropped |
| Restart.RestartTracker.Observe | internal/collector/restart.go:34-59 | the stored sample and the rate returned, in all four cases, other keys unchanged |
| Restart.RestartTracker.SetPodRate | internal/collector/restart.go:62-66 | stores one pod's rate |
| Restart.RestartTracker.PodRate | internal/collector/restart.go:69-73 | after any rebuild, a listed pod's rate is the one that rebuild computed from the samples before it, and that of any other key is 0 |
| Build.ScoredWithTracked | internal/collector/graph.go:206-212 | which is the rate the pod's vertex was scored with |
| Restart.RestartTracker.Prune | internal/collector/restart.go:76-89 | keeps exactly the live keys with their values |
| Restart.RestartTracker.ObservePod | internal/collector/graph.go:192-207 | one pod's pass observes each container once and returns the largest rate |
| Restart.RestartTracker.PruneAll | internal/collector/graph.go:247 | after pruning, samples hold exactly the live containers and pod rates exactly the live pods |
| Restart.PodRateIsMaximum | internal/collector/graph.go:196-207 | the stored pod rate is an upper bound of the stored container rates and is one of them or 0 |
| Restart.DecayIsSamplingBlind | internal/collector/restart.go:49-54 | quiet decay over any sampling of an interval equals one decay over the whole, with the 0.05 floor |
| Restart.RateNonNegative | internal/collector/restart.go:34-59 | one observation never yields a negative rate |
| Restart.ReplayNonNegative | internal/collector/restart.go:34-59 | nor does any run of them |
| Restart.TrackerReplays | internal/collector/restart.go:34-59 | over a run of rebuilds that all list a container, each starting from the samples the last one left, its stored sample is the replay of what they saw |
| Restart.AreaIsRestarts | internal/collector/restart.go:42-45 | over increasing times and counts that do not fall, rate times elapsed time over the rising steps adds up to the restarts |
| Build.EndpointsFor | internal/collector/graph.go:337-357 | the ready count and each backing pod's name once, in order of first occurrence |
| Build.FilterInPlace | internal/collector/graph.go:286-295 | the loop that writes into the array it reads leaves, at the front, the filtered first-of-each-ID sequence of the original |
| Build.AddNodes | internal/collector/graph.go:68-96 | the loop over nodes adds each one's vertex, edge and verdict in order, and nothing in namespaced mode |
| Build.AddPVs | internal/collector/graph.go:99-117 | likewise for volumes, which get no edge |
| Build.AddWorkloads | internal/collector/graph.go:119-145 | likewise for deployments, stateful sets and daemon sets, each under its namespace |
| Build.AddPVCs | internal/collector/graph.go:147-167 | likewise for claims, with the edge to the volume a claim names |
| Build.AddServices | internal/collector/graph.go:169-188 | likewise for services, with an edge to each backing pod |
| Build.WorkloadIdForPod | internal/collector/graph.go:314-333 | the early-return loops find the first owner that resolves to a workload |
| Build.AddPodEdges | internal/collector/graph.go:230-245 | the parent's edge, the placement and one edge a mounted claim, in that order |
| Build.AddPods | internal/collector/graph.go:190-247 | the pod loop observes each pod's containers, adds the pod scored with the largest rate, and leaves the tracker in step with the live pods |
| Build.AddSpaces | internal/collector/graph.go:249-272 | each namespace is rolled up from exactly the verdicts of the objects in it |
| Build.BuildGraph | internal/collector/graph.go:47-302 | the imperative build returns the specified graph for the caches and leaves one sample per live container and one rate per live pod |
| BuildLaws.KeepFirstLaw | internal/collector/graph.go:288-295 | filtering keeps only edges with both ends present, one of each ID, and loses no such ID |
| BuildLaws.NodesAreSorted | internal/collector/graph.go:298 | built nodes are in strict ID order, hence with unique IDs, and are all the vertices generated |
| BuildLaws.EdgeIdDetermines | internal/collector/graph.go:57-62 | two edges of one build with the same ID are the same edge |
| BuildLaws.EdgesAreExact | internal/collector/graph.go:286-299 | the built edges are exactly the generated ones with both ends present, in strict ID order: deduplication discards nothing |
| Forest.TreeEdgeDescends | internal/collector/graph.go:90-283 | contains and backs edges lead to strictly deeper kinds |
| Forest.OneContainer | internal/collector/graph.go:230-235 | no vertex is contained twice |
| Forest.BuiltIsForest | internal/collector/graph.go:47-302 | a built graph has sorted unique IDs, no dangling edge, growing depth and one container a vertex |
| Forest.BuildIsOrderBlind | internal/collector/graph.go:47-302 | permuting what any lister returns changes nothing in the graph |
| Hygiene.CleanListsAreHygienic | internal/collector/graph.go:17-62 | names without '/' and '>' and no object listed twice are all that these laws need of the caches |
| Hygiene.BacksFrom | internal/collector/graph.go:164-166 | a backs edge comes from a listed claim and leads to the volume it names |
| Hygiene.CleanCachesDraw | internal/web/static/app.js:59-67 | with volumes bound once as well, the client's maps for the built graph are tree-like in whatever order edges arrived |
| Idle.BuiltSteady | internal/collector/graph.go:47-302 | over the same caches, if each pod's restart rate and each pending claim's age print alike, or do not matter, a later build with the tracker's new samples differs in its time only |
| Idle.IdleIff | internal/collector/graph.go:297-299 | over unchanged caches, each lister in any order and container names without spaces, a rebuild has an empty diff if and only if for each pod the rate prints alike or does not matter, and each claim is within its grace both times, or past it with an age that prints alike, or not pending |
| Discipline.BuildsAreDisciplined | internal/collector/graph.go:76-284 | any two builds of a collector are disciplined if no object loses a blank optional Meta value between their listings |
| Discipline.UndisciplinedBuilds | internal/collector/graph.go:152-158 | two builds with different indexes whose every diff is empty: a bound claim's blank storage class goes as its capacity comes |
| Discipline.BuiltRunsAreDisciplined | internal/collector/graph.go:27-43 | so is every run in which each publication is such a successor of the one before |
| Discipline.BuiltRunsReplicate | internal/collector/graph.go:27-43 | in every such run a registered client adds up to the latest graph |
| Health.Node | internal/health/health.go:88-131 | the condition loop computes the specified verdict |
| Health.NodeVerdict | internal/health/health.go:88-131 | each state exactly when: by the last Ready condition, pressure and cordoning |
| Health.Inspect | internal/health/health.go:156-176 | the loop over containers, early return included, finds the first that is down, or all reasons and counts |
| Health.Pod | internal/health/health.go:136-205 | the method computes the specified verdict |
| Health.PodVerdict | internal/health/health.go:136-205 | a pod that has not ended is Unhealthy, or Healthy, exactly under conditions on its containers and rate, and never Unknown |
| Health.PodOrderBlind | internal/health/health.go:156-176 | container order affects neither state nor score, in spite of the early return |
| Health.HardFailureFails | internal/health/health.go:162-164 | one container waiting for a hard reason makes the pod Unhealthy with score 0 unless it succeeded |
| Health.SeverityRisesWithRate | internal/health/health.go:183-189 | severity never falls as the restart rate rises |
| Health.ScoreFallsIff | internal/health/health.go:136-205 | the score is monotone in the rate if and only if the pod has ended or is starting, a container is down, one is ready, or there is none |
| Health.ScoreRisesWithRate | internal/health/health.go:183-200 | a pod whose score goes up with its restart rate |
| Health.AlikeRatesAgree | internal/health/health.go:183-189 | rates on one side of each threshold that print alike leave the same verdict, and on some pods no rate leaves a trace |
| Reasons.ShownVerdictIff | internal/health/health.go:400-412 | two rates give a pod the same state, score and trimmed, deduplicated reasons if and only if they print alike or do not matter to it, container names being without spaces |
| Health.LeafScorersSound | internal/health/health.go:88-299 | scores in [0, 1], 1 when Healthy, at most 0.2 when Unhealthy, for every leaf scorer |
| Health.WorkloadSoundIff | internal/health/health.go:209-225 | a workload's verdict is sound exactly for sensible replica counts |
| Health.NormalizeReasons | internal/health/health.go:400-412 | the loop keeps each trimmed reason where it first occurs |
| Health.NormalizedMembers | internal/health/health.go:400-412 | nothing is lost but blanks and repetitions |
| Rollup.TopReasons | internal/health/health.go:359-389 | the first five of the ranking, each with its count, whatever order the map iterates in |
| Rollup.RankingUnique | internal/health/health.go:368-373 | there is one order by falling count and then rising name |
| Rollup.Tally | internal/health/health.go:305-324 | the loop's sum, count, worst state and reason counts over the children that are not Unknown |
| Rollup.Aggregate | internal/health/health.go:305-344 | the method computes the specified roll-up |
| Rollup.AggregateOrderBlind | internal/health/health.go:305-344 | the verdict depends only on which scored children there are |
| Rollup.AggregatePermuted | internal/health/health.go:305-344 | permuting children or dropping Unknown ones changes nothing, reasons included |
| Rollup.VerdictIff | internal/health/health.go:330-341 | Healthy iff the mean is at least 0.99, otherwise the state of the worst child; the verdict is a fit child in turn, so it holds at both levels |
| Rollup.FailurePinsIff | internal/health/health.go:334-341 | a failure among the children pins the state exactly when the mean is below 0.99 |
| Rollup.FailuresPin | internal/health/health.go:334-341 | k failures among fewer than 80k scored leaves always give Unhealthy |
| Rollup.FailuresPinTight | internal/health/health.go:334-341 | for every k, 80k pods of which k restart once a minute can give Healthy |
| Rollup.AggregateMonotone | internal/health/health.go:305-344 | a child replaced by a worse one never raises the score or lowers the severity |
| Visible.TreeChildrenIndex | internal/web/static/app.js:59-67 | the index lists each vertex's tree targets in edge order |
| Visible.Traverse | internal/web/static/app.js:74-81 | the stack loop ends on any graph, cycles included, and closes the kept set under the children of what it expands |
| Visible.ComputeVisible | internal/web/static/app.js:68-84 | null for an empty selection, otherwise exactly the Cluster, the Nodes and what a selected existing namespace reaches without passing through them |
| Visible.ShownIsClosureIff | internal/web/static/app.js:68-84 | that is the full closure exactly when each child of a reached pinned vertex is pinned or reached by edges that leave no pinned vertex: a condition on the edges alone |
| Visible.TreesAreShownInFull | internal/web/static/app.js:68-84 | it is where the tree enters Nodes from the Cluster alone |
| Visible.PinnedHidesExample | internal/web/static/app.js:71-72 | a graph, not one that is ever built, in which a reachable vertex is not shown |
| Balance.GapBounded | internal/web/static/app.js:149-155 | the sides differ by no more than the heaviest child, or what the left began with |
| Balance.FewAreOptimal | internal/web/static/app.js:149-155 | against any split with at most two children a side, heaviest-first is at least as good |
| Balance.GreedyWithinSevenSixths | internal/web/static/app.js:149-155 | the heavier side is within 7/6 of that of any other split of the children |
| Balance.SevenSixthsIsTight | internal/web/static/app.js:149-155 | five children for which the ratio is 7/6 |
| Sides.HandOut | internal/web/static/app.js:152-155 | every child ends up on one side, with the side weights of the greedy rule |
| Sides.SplitSides | internal/web/static/app.js:148-155 | Nodes go left, the rest is handed out heaviest first, and together the sides are a permutation of the children |
| Placing.Placement.Place | internal/web/static/app.js:111-127 | on any graph the recursion ends and gives each vertex it meets first one card; on a tree each is drawn at the specified place and the shared cursor moves by the subtree's span |
| Placing.Placement.PlaceAll | internal/web/static/app.js:120-122 | likewise for a run of subtrees, drawn one below the other, with the centres of those not seen before returned in order |
| Placing.Weights.Weight | internal/web/static/app.js:131-140 | on any graph the memoised recursion ends and keeps what the memo held; on a tree the weight is the number of leaves, the provisional 1 never being read |
| Clear.CardKeys | internal/web/static/app.js:111-127 | the vertices drawn are exactly those of the tree |
| Clear.ParentIsCentred | internal/web/static/app.js:120-125 | a parent is drawn midway between its first and last child, which sit one column further out on its side |
| Clear.MidInBand | internal/web/static/app.js:118-123 | a subtree's root is centred at least 16 below the top and 28 above the bottom of its span |
| Clear.TreeBand | internal/web/static/app.js:111-127 | all cards of a subtree lie in its span and beyond its column |
| Clear.TreeClear | internal/web/static/app.js:111-127 | no two cards of a placed tree overlap, on either side |
| Clear.ForestClear | internal/web/static/app.js:111-127 | nor do those of trees placed one after the other |
| Layout.RootClear | internal/web/static/app.js:158-164 | nor those below one root, with both sides and the root's own card |
| Layout.RoomySettles | internal/web/static/app.js:144-165 | with room after childless roots, no two cards of the whole layout overlap |
| Layout.NoRoomOverlaps | internal/web/static/app.js:158-164 | a childless root without room is overlapped by the next root's card |
| Layout.ChildlessPairsClash | internal/web/static/app.js:158-164 | two childless roots in a row never have room |
| Layout.LayoutClearIff | internal/web/static/app.js:144-165 | a layout is free of overlaps if and only if each childless root that another follows leaves it room |
| Relayout.PlanRoot | internal/web/static/app.js:144-156 | weighing, splitting and sorting a root's children gives two sides that together hold each child once, balanced by leaf counts |
| Relayout.PlaceRoot | internal/web/static/app.js:158-164 | draws both sides and the root and moves on to the next root's start |
| Relayout.LayOut | internal/web/static/app.js:109-165 | on any graph the loop over the roots, with its shared memo, seen set and positions, ends and draws exactly what the roots lead to; over disjoint trees it gives the cards of the one balanced plan a root that the trees determine |
| Relayout.CollapsedSidesBalance | internal/web/static/app.js:144-156 | with Nodes collapsed the sides of a drawn root differ by at most the heaviest child, and the heavier is within 7/6 of any other division |
| Dashboard.SizeOf | internal/web/static/app.js:13-18 | every card is 150 to 170 wide and 32 to 52 high, and at most 44 unless the Cluster's |
| Dashboard.TreeBelow | internal/web/static/app.js:92-99 | below every vertex of a tree-like graph hangs a finite tree of visible children |
| Dashboard.TreeApart | internal/web/static/app.js:92-99 | in which no vertex occurs twice |
| Dashboard.ForestBelow | internal/web/static/app.js:101-107 | and the roots head disjoint trees |
| Dashboard.PlanIsSized | internal/web/static/app.js:13-20 | cards below a root are at most 170 wide and 44 high |
| Dashboard.Relay | internal/web/static/app.js:85-167 | on any graph relayout draws exactly what drawn children lead to from the roots; over a tree-like one the trees determine the drawing, and its cards overlap nowhere if and only if childless roots leave room |
| Dashboard.DrawnIff | internal/web/static/app.js:85-107 | where depth grows along tree edges and nothing hangs below a Node, a vertex is drawn if and only if it is a root or visible and not a collapsed Node: no visible vertex is lost |
| Dashboard.ChildlessRootsOverlap | internal/web/static/app.js:158-164 | two roots in a row without drawn children always overlap |
| Arrival.DrawingIsOrderBlind | internal/web/static/app.js:92-107 | over a tree-like graph, nodes and edges that arrived in other orders give the same drawing, if no two siblings or roots tie |
| Arrival.TiesKeepArrival | internal/web/static/app.js:92-99 | two children that tie are drawn in the order their edges arrived in |
| Arrival.TiesAreSeen | internal/web/static/app.js:144-156 | and of two such leaves below a root the first to arrive is drawn on the left, so the order is seen |
| EndToEnd.BuiltIsTreeLike | internal/collector/graph.go:286-295 | a built graph with each volume claimed once is tree-like for the dashboard |
| EndToEnd.BuiltIsDrawn | internal/web/static/app.js:85-107 | so on every built graph, with its edges in any order of arrival, relayout draws every visible vertex but collapsed Nodes that are no roots |
| EndToEnd.PinnedEntries | internal/collector/graph.go:68-95 | in a built graph the tree enters Nodes from the Cluster alone and never re-enters the Cluster |
| EndToEnd.SelectionShowsAll | internal/web/static/app.js:68-84 | so selecting namespaces of a built graph shows the whole of each |
| EndToEnd.UnclaimedVolumesOverlap | internal/collector/graph.go:99-117 | the built graph of caches that hold unclaimed volumes only is always drawn with overlapping cards |
| EndToEnd.VolumeRootsOverlap | internal/collector/graph.go:99-117 | in any built graph, two volumes that are roots one after the other are drawn with overlapping cards |
| EndToEnd.CleanPodsKeysApart | internal/collector/graph.go:191-203 | for clean names the tracker's keys never mix two pods or containers up |
| Events.SortNewestFirst | internal/collector/accessors.go:155-162 | the exchange sort leaves the slice newest first and a permutation of what it was |
| Events.WarningEvents | internal/collector/accessors.go:125-171 | the trimmed texts of the newest matching warnings of the right lister, at most limit of them |
| Events.TopIsOrderBlind | internal/collector/accessors.go:155-170 | in whatever order events were listed, equally many texts come back, for the same times, and the same texts if no two matching events share a time |

## Left out

- HTTP routing, WebSocket framing, pings and deadlines, JSON encoding (which omits empty fields): only handleStream's order, the snapshot first and then diffs until the channel closes, is used.
- client-go informers and listers: caches are the listings they return, and an event handler runs after its cache update.
- Prometheus export: one gauge per object over library calls.
- Canvas drawing, tooltips, detail panel, filters, pan and zoom: user interface only.
- The client's polling fallback and reconnect backoff: the replica theorems speak of one socket session at a time, from whatever view the client held before.
- The wording of reasons beyond what the scorers concatenate, and the strings of nodeGPU, nodeRoles and nodeTaints, whose results are inputs.
- GetResource and the list accessors: library lookups.
- main, embedded assets, Docker, Helm and Kubernetes manifests.
- Interleavings finer than the two locks: each locked section is one step.
- 32-bit overflow of restart and replica counts, and scores that are not numbers.
