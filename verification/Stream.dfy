/** The live stream as a state machine: rebuilds publish, sessions come and go,
    slow ones are dropped, and each client folds what it receives. */
module Stream {
  import opened Topology
  import opened Broker
  import opened Client

  /** One connection. `handoff` is the snapshot until it is written, `got` what
      the client has folded into the view it happened to hold on connecting. */
  datatype Session = Session(since: nat, handoff: seq<Diff>, before: View, got: seq<Diff>)
  {
    function View(): Topology.View { Fold(before, got) }
  }

  /** log holds every published graph after the zero graph, sent every broadcast,
      and sentBy[k] how many broadcasts publications 0..k made. */
  datatype World = World(log: seq<Graph>, sent: seq<Diff>, sentBy: seq<nat>,
                         broker: BrokerState, sessions: seq<Session>)
  {
    function Last(): Graph
      requires log != []
    {
      log[|log| - 1]
    }
  }

  const START := World([ZERO_GRAPH], [], [0], NEW_BROKER, [])

  datatype Step =
    | Publish(g: Graph, d: Diff)
    | Subscribe(before: View)
    | Unsubscribe(id: nat)
    | Receive(id: nat)

  /** The message rebuild computes under the collector's lock. */
  ghost predicate RebuildMessage(prev: Graph, g: Graph, d: Diff) {
    if prev.updatedAt == 0 then d == AsSnapshot(g) else IsDiff(prev, g, d)
  }

  ghost predicate Enabled(w: World, step: Step)
    requires w.log != []
  {
    match step
    case Publish(g, d) => g.updatedAt != 0 && RebuildMessage(w.Last(), g, d)
    case Subscribe(_) => true
    case Unsubscribe(_) => true
    case Receive(id) =>
      0 <= id < |w.sessions| && id < |w.broker.queues| && (w.sessions[id].handoff != [] || w.broker.queues[id] != [])
  }

  ghost function After(w: World, step: Step): World
    requires w.log != [] && Enabled(w, step)
  {
    match step
    case Publish(g, d) =>
      if d.Empty() then w.(log := w.log + [g], sentBy := w.sentBy + [|w.sent|])
      else w.(log := w.log + [g], sent := w.sent + [d], sentBy := w.sentBy + [|w.sent| + 1],
              broker := Broadcasted(w.broker, d))
    case Subscribe(before) =>
      w.(broker := Subscribed(w.broker),
         sessions := w.sessions + [Session(|w.log| - 1, [AsSnapshot(w.Last())], before, [])])
    case Unsubscribe(id) =>
      w.(broker := Unsubscribed(w.broker, id))
    case Receive(id) =>
      var s := w.sessions[id];
      if s.handoff != [] then
        w.(sessions := w.sessions[id := s.(handoff := s.handoff[1..], got := s.got + [s.handoff[0]])])
      else
        w.(sessions := w.sessions[id := s.(got := s.got + [w.broker.queues[id][0]])],
           broker := Received(w.broker, id))
  }

  /** Every node kept through a rebuild keeps its blank Meta keys. */
  predicate KeepsReplicas(w: World, step: Step)
    requires w.log != []
  {
    step.Publish? && w.Last().updatedAt != 0 ==> Disciplined(w.Last(), step.g)
  }

  // ---------------------------------------------------------------- invariant

  /** All a session was ever given: received, being written, still queued. */
  function Given(w: World, id: nat): seq<Diff>
    requires 0 <= id < |w.sessions| && id < |w.broker.queues|
  {
    w.sessions[id].got + w.sessions[id].handoff + w.broker.queues[id]
  }

  ghost predicate LogInv(w: World) {
    && |w.log| == |w.sentBy| > 0
    && w.sentBy[0] == 0 && w.sentBy[|w.log| - 1] == |w.sent|
    && (forall k :: 0 < k < |w.log| ==> w.sentBy[k - 1] <= w.sentBy[k] <= w.sentBy[k - 1] + 1)
    && (forall k :: 0 <= k < |w.log| ==> w.sentBy[k] <= |w.sent|)
    && (w.Last().updatedAt == 0 ==> w.Last() == ZERO_GRAPH)
  }

  /** The broadcasts alone, folded from nothing, rebuild every published index. */
  ghost predicate LogFolds(w: World)
    requires LogInv(w)
  {
    forall k :: 0 <= k < |w.log| ==> Index(w.log[k]) == Fold(EMPTY_VIEW, w.sent[..w.sentBy[k]])
  }

  /** A session was given its snapshot and then a gap-free run of the broadcasts
      made since, right up to the latest one while it is registered. */
  ghost predicate SessionInv(w: World, id: nat)
    requires LogInv(w) && 0 <= id < |w.sessions| && id < |w.broker.queues|
  {
    var s, given := w.sessions[id], Given(w, id);
    && s.since < |w.log|
    && |given| > 0 && given[0] == AsSnapshot(w.log[s.since])
    && (s.got == [] ==> |s.handoff| == 1) && (s.got != [] ==> s.handoff == [])
    && var from := w.sentBy[s.since];
    && from + |given| - 1 <= |w.sent|
    && (forall m :: 1 <= m < |given| ==> given[m] == w.sent[from + m - 1])
    && (id in w.broker.registered ==> from + |given| - 1 == |w.sent|)
  }

  ghost predicate BrokerInv(s: BrokerState) {
    && (forall id :: id in s.registered ==> 0 <= id < |s.queues|)
    && (forall id :: 0 <= id < |s.queues| ==> |s.queues[id]| <= BUFFER)
  }

  /** Holds whether or not the published graphs are disciplined. */
  ghost predicate DeliveryInv(w: World) {
    && LogInv(w) && BrokerInv(w.broker)
    && |w.sessions| == |w.broker.queues|
    && forall id :: 0 <= id < |w.sessions| ==> SessionInv(w, id)
  }

  ghost predicate Inv(w: World) {
    DeliveryInv(w) && LogFolds(w)
  }

  lemma {:induction false} StartInv()
    ensures Inv(START)
  {
    assert START.sent[..0] == [];
    assert Index(ZERO_GRAPH) == EMPTY_VIEW;
  }

  lemma DeliveryStep(w: World, step: Step)
    requires DeliveryInv(w) && Enabled(w, step)
    ensures DeliveryInv(After(w, step))
  {
    match step
    case Publish(_, _) =>
      PublishKeepsLog(w, step);
      forall id | 0 <= id < |w.sessions| ensures SessionInv(After(w, step), id) {
        PublishKeepsSession(w, step, id);
      }
    case Subscribe(_) => SubscribeKeeps(w, step);
    case Unsubscribe(_) => UnsubscribeKeeps(w, step);
    case Receive(_) => ReceiveKeeps(w, step);
  }

  lemma PublishKeepsLog(w: World, step: Step)
    requires DeliveryInv(w) && step.Publish? && Enabled(w, step)
    ensures LogInv(After(w, step)) && BrokerInv(After(w, step).broker)
  {
    var w' := After(w, step);
    assert forall k :: 0 <= k < |w.log| ==> w'.sentBy[k] == w.sentBy[k];
  }

  lemma PublishKeepsSession(w: World, step: Step, id: nat)
    requires DeliveryInv(w) && step.Publish? && Enabled(w, step) && 0 <= id < |w.sessions|
    requires LogInv(After(w, step))
    ensures SessionInv(After(w, step), id)
  {
    var w' := After(w, step);
    var given, given' := Given(w, id), Given(w', id);
    assert SessionInv(w, id);
    var since := w.sessions[id].since;
    assert w'.log[since] == w.log[since] && w'.sentBy[since] == w.sentBy[since];
    if !step.d.Empty() && HasRoom(w.broker, id) {
      assert given' == given + [step.d];
    } else {
      assert given' == given;
    }
  }

  /** Sessions that were given nothing new keep their invariant. */
  lemma SessionKept(w: World, w': World, id: nat)
    requires DeliveryInv(w) && 0 <= id < |w.sessions| && LogInv(w')
    requires w'.log == w.log && w'.sent == w.sent && w'.sentBy == w.sentBy
    requires id < |w'.sessions| && id < |w'.broker.queues| && Given(w', id) == Given(w, id)
    requires w'.sessions[id].since == w.sessions[id].since
    requires var s := w'.sessions[id]; (s.got == [] ==> |s.handoff| == 1) && (s.got != [] ==> s.handoff == [])
    requires id in w'.broker.registered ==> id in w.broker.registered
    ensures SessionInv(w', id)
  {
    assert SessionInv(w, id);
  }

  lemma SubscribeKeeps(w: World, step: Step)
    requires DeliveryInv(w) && step.Subscribe?
    ensures DeliveryInv(After(w, step))
  {
    var w' := After(w, step);
    forall id | 0 <= id < |w'.sessions| ensures SessionInv(w', id) {
      if id < |w.sessions| {
        assert SessionInv(w, id);
        SessionKept(w, w', id);
      } else {
        assert Given(w', id) == [AsSnapshot(w.Last())];
      }
    }
  }

  lemma UnsubscribeKeeps(w: World, step: Step)
    requires DeliveryInv(w) && step.Unsubscribe?
    ensures DeliveryInv(After(w, step))
  {
    forall id | 0 <= id < |w.sessions| ensures SessionInv(After(w, step), id) {
      assert SessionInv(w, id);
      SessionKept(w, After(w, step), id);
    }
  }

  lemma ReceiveKeeps(w: World, step: Step)
    requires DeliveryInv(w) && step.Receive? && Enabled(w, step)
    ensures DeliveryInv(After(w, step))
  {
    ReceiveKeepsBroker(w, step);
    forall id | 0 <= id < |w.sessions| ensures SessionInv(After(w, step), id) {
      ReceiveKeepsSession(w, step, id);
    }
  }

  lemma ReceiveKeepsBroker(w: World, step: Step)
    requires DeliveryInv(w) && step.Receive? && Enabled(w, step)
    ensures var w' := After(w, step);
      LogInv(w') && BrokerInv(w'.broker) && |w'.sessions| == |w'.broker.queues| == |w.sessions|
  {
  }

  lemma ReceiveKeepsSession(w: World, step: Step, id: nat)
    requires DeliveryInv(w) && step.Receive? && Enabled(w, step) && 0 <= id < |w.sessions|
    requires LogInv(After(w, step))
    ensures SessionInv(After(w, step), id)
  {
    assert SessionInv(w, id);
    ReceiveMovesOne(w, step, id);
    SessionKept(w, After(w, step), id);
  }

  /** Receiving moves a message along without adding or losing any. */
  lemma ReceiveMovesOne(w: World, step: Step, id: nat)
    requires DeliveryInv(w) && step.Receive? && Enabled(w, step) && 0 <= id < |w.sessions|
    ensures Given(After(w, step), id) == Given(w, id)
    ensures var s := After(w, step).sessions[id]; s.got == w.sessions[id].got || (s.got != [] && s.handoff == [])
  {
    assert SessionInv(w, id);
    var s, queue := w.sessions[id], w.broker.queues[id];
    if id == step.id {
      if s.handoff != [] {
        assert s.handoff == [s.handoff[0]] + s.handoff[1..];
      } else {
        assert queue == [queue[0]] + queue[1..];
      }
    }
  }

  /** A publication keeps the fold exact if and only if it is disciplined. */
  lemma PublishFoldsIff(w: World, step: Step)
    requires Inv(w) && step.Publish? && Enabled(w, step) && LogInv(After(w, step))
    ensures LogFolds(After(w, step)) <==> KeepsReplicas(w, step)
  {
    FoldsIffLatest(w, step);
    LatestFold(w);
    if !step.d.Empty() { FoldExtend(EMPTY_VIEW, w.sent, step.d); }
    if w.Last().updatedAt == 0 {
      SnapshotLaw(Index(w.Last()), step.g);
    } else {
      PatchLaw(w.Last(), step.g, step.d);
      if step.d.Empty() { EmptyDiffIsIdle(Index(w.Last()), step.d); }
    }
  }

  lemma InvStep(w: World, step: Step)
    requires Inv(w) && Enabled(w, step) && KeepsReplicas(w, step)
    ensures Inv(After(w, step))
  {
    DeliveryStep(w, step);
    if step.Publish? {
      PublishFoldsIff(w, step);
    }
  }

  // --------------------------------------------------------------------- runs

  /** ws is a run of the stream taking exactly these steps. */
  ghost predicate IsRun(ws: seq<World>, steps: seq<Step>) {
    && |ws| == |steps| + 1 && ws[0] == START
    && forall i :: 0 <= i < |steps| ==>
         ws[i].log != [] && Enabled(ws[i], steps[i]) && ws[i + 1] == After(ws[i], steps[i])
  }

  ghost predicate RunDisciplined(ws: seq<World>, steps: seq<Step>)
    requires IsRun(ws, steps)
  {
    forall i :: 0 <= i < |steps| ==> KeepsReplicas(ws[i], steps[i])
  }

  lemma {:induction false} RunDelivers(ws: seq<World>, steps: seq<Step>, n: nat)
    requires IsRun(ws, steps) && n < |ws|
    ensures DeliveryInv(ws[n])
  {
    StartInv();
    if n > 0 {
      RunDelivers(ws, steps, n - 1);
      DeliveryStep(ws[n - 1], steps[n - 1]);
    }
  }

  lemma {:induction false} RunInv(ws: seq<World>, steps: seq<Step>, n: nat)
    requires IsRun(ws, steps) && RunDisciplined(ws, steps) && n < |ws|
    ensures Inv(ws[n])
  {
    StartInv();
    if n > 0 {
      RunInv(ws, steps, n - 1);
      InvStep(ws[n - 1], steps[n - 1]);
    }
  }

  // ----------------------------------------------------------------- theorems

  /** How many broadcasts had been made when the session subscribed. */
  ghost function From(w: World, id: nat): (n: nat)
    requires DeliveryInv(w) && 0 <= id < |w.sessions|
    ensures n + |Given(w, id)| - 1 <= |w.sent|
  {
    assert SessionInv(w, id);
    w.sentBy[w.sessions[id].since]
  }

  lemma GivenIsContiguous(w: World, id: nat, m: nat)
    requires DeliveryInv(w) && 0 <= id < |w.sessions| && 1 <= m <= |Given(w, id)|
    ensures w.sessions[id].since < |w.log|
    ensures Given(w, id)[..m] == [AsSnapshot(w.log[w.sessions[id].since])] + w.sent[From(w, id)..From(w, id) + m - 1]
  {
    assert SessionInv(w, id);
  }

  /** A session's view after its first m messages (m >= 1) is the fold of the
      broadcasts up to some point. */
  lemma ViewOfPrefix(w: World, id: nat, m: nat)
    requires Inv(w) && 0 <= id < |w.sessions| && 1 <= m <= |Given(w, id)|
    ensures Fold(w.sessions[id].before, Given(w, id)[..m]) == Fold(EMPTY_VIEW, w.sent[..From(w, id) + m - 1])
  {
    assert SessionInv(w, id);
    GivenIsContiguous(w, id, m);
    SnapshotThenRun(w.sessions[id].before, w.log[w.sessions[id].since], w.sent, From(w, id), From(w, id) + m - 1);
  }

  lemma SnapshotThenRun(before: Topology.View, g: Graph, sent: seq<Diff>, from: nat, to: nat)
    requires from <= to <= |sent| && Index(g) == Fold(EMPTY_VIEW, sent[..from])
    ensures Fold(before, [AsSnapshot(g)] + sent[from..to]) == Fold(EMPTY_VIEW, sent[..to])
  {
    FoldConcat(before, [AsSnapshot(g)], sent[from..to]);
    FoldOne(before, AsSnapshot(g));
    SnapshotLaw(before, g);
    assert sent[..to] == sent[..from] + sent[from..to];
    FoldConcat(EMPTY_VIEW, sent[..from], sent[from..to]);
  }

  /** Broadcast counts climb one at a time, so none is skipped. */
  lemma {:induction false} SomePublicationSent(w: World, lo: nat, hi: nat, n: nat) returns (k: nat)
    requires LogInv(w) && lo <= hi < |w.log| && w.sentBy[lo] <= n <= w.sentBy[hi]
    ensures lo <= k <= hi && w.sentBy[k] == n
    decreases hi - lo
  {
    if w.sentBy[lo] == n {
      k := lo;
    } else {
      assert lo < hi && w.sentBy[lo + 1] <= w.sentBy[lo] + 1;
      k := SomePublicationSent(w, lo + 1, hi, n);
    }
  }

  /** In every disciplined run, what a registered subscriber holds, is being
      handed and still has queued adds up to the latest graph. */
  lemma RegisteredCatchUp(ws: seq<World>, steps: seq<Step>, n: nat, id: nat)
    requires IsRun(ws, steps) && RunDisciplined(ws, steps) && n < |ws|
    requires id in ws[n].broker.registered
    ensures 0 <= id < |ws[n].sessions| == |ws[n].broker.queues| && ws[n].log != []
    ensures Fold(ws[n].sessions[id].View(), ws[n].sessions[id].handoff + ws[n].broker.queues[id]) == Index(ws[n].Last())
  {
    RunInv(ws, steps, n);
    CatchUpInState(ws[n], id);
  }

  lemma CatchUpInState(w: World, id: nat)
    requires Inv(w) && id in w.broker.registered
    ensures 0 <= id < |w.sessions|
    ensures Fold(w.sessions[id].View(), w.sessions[id].handoff + w.broker.queues[id]) == Index(w.Last())
  {
    var s, given := w.sessions[id], Given(w, id);
    assert SessionInv(w, id);
    assert given == s.got + (s.handoff + w.broker.queues[id]);
    FoldConcat(s.before, s.got, s.handoff + w.broker.queues[id]);
    assert given[..|given|] == given;
    ViewOfPrefix(w, id, |given|);
    assert w.sent[..|w.sent|] == w.sent[..w.sentBy[|w.log| - 1]];
  }

  /** ks[m] names the published graph a session sees after m + 1 messages. */
  ghost predicate Trail(w: World, id: nat, ks: seq<nat>)
    requires 0 <= id < |w.sessions| && id < |w.broker.queues|
  {
    var s, given := w.sessions[id], Given(w, id);
    && (ks != [] ==> ks[0] == s.since)
    && |ks| <= |given|
    && (forall m :: 0 <= m < |ks| ==> ks[m] < |w.log| && Fold(s.before, given[..m + 1]) == Index(w.log[ks[m]]))
    && (forall m :: 0 < m < |ks| ==> ks[m - 1] <= ks[m])
  }

  /** In every disciplined run every session, dropped or not, walks forward
      through the published graphs: after each message, received or still to
      come, its view is one published no earlier than the view before. */
  lemma EveryViewWasPublished(ws: seq<World>, steps: seq<Step>, n: nat, id: nat)
    requires IsRun(ws, steps) && RunDisciplined(ws, steps) && n < |ws|
    requires 0 <= id < |ws[n].sessions|
    ensures |ws[n].sessions| == |ws[n].broker.queues|
    ensures exists ks :: Trail(ws[n], id, ks) && |ks| == |Given(ws[n], id)|
  {
    RunInv(ws, steps, n);
    var ks := TrailOf(ws[n], id, |Given(ws[n], id)|);
  }

  lemma {:induction false} TrailOf(w: World, id: nat, n: nat) returns (ks: seq<nat>)
    requires Inv(w) && 0 <= id < |w.sessions| && n <= |Given(w, id)|
    ensures Trail(w, id, ks) && |ks| == n
    ensures n > 0 ==> w.sentBy[ks[n - 1]] == From(w, id) + n - 1
  {
    assert SessionInv(w, id);
    if n == 0 {
      ks := [];
    } else {
      var init := TrailOf(w, id, n - 1);
      var k := NextOnTrail(w, id, n, if n == 1 then w.sessions[id].since else init[n - 2]);
      TrailGrows(w, id, init, k);
      ks := init + [k];
    }
  }

  lemma TrailGrows(w: World, id: nat, ks: seq<nat>, k: nat)
    requires 0 <= id < |w.sessions| && id < |w.broker.queues| && Trail(w, id, ks) && |ks| < |Given(w, id)|
    requires k < |w.log| && Fold(w.sessions[id].before, Given(w, id)[..|ks| + 1]) == Index(w.log[k])
    requires if ks == [] then k == w.sessions[id].since else ks[|ks| - 1] <= k
    ensures Trail(w, id, ks + [k])
  {
    var s, given, ks' := w.sessions[id], Given(w, id), ks + [k];
    forall m | 0 <= m < |ks'| ensures ks'[m] < |w.log| && Fold(s.before, given[..m + 1]) == Index(w.log[ks'[m]]) {
      if m < |ks| { assert ks'[m] == ks[m]; }
    }
    forall m | 0 < m < |ks'| ensures ks'[m - 1] <= ks'[m] {
      if m < |ks| { assert ks[m - 1] <= ks[m]; }
    }
  }

  /** The graph seen after n messages, looking no earlier than publication lo. */
  lemma NextOnTrail(w: World, id: nat, n: nat, lo: nat) returns (k: nat)
    requires Inv(w) && 0 <= id < |w.sessions| && 1 <= n <= |Given(w, id)|
    requires lo < |w.log| && if n == 1 then lo == w.sessions[id].since else w.sentBy[lo] == From(w, id) + n - 2
    ensures lo <= k < |w.log| && (n == 1 ==> k == lo) && w.sentBy[k] == From(w, id) + n - 1
    ensures Fold(w.sessions[id].before, Given(w, id)[..n]) == Index(w.log[k])
  {
    k := PublicationAfter(w, id, n, lo);
    ViewAtPublication(w, id, n, k);
  }

  lemma PublicationAfter(w: World, id: nat, n: nat, lo: nat) returns (k: nat)
    requires DeliveryInv(w) && 0 <= id < |w.sessions| && 1 <= n <= |Given(w, id)|
    requires lo < |w.log| && if n == 1 then lo == w.sessions[id].since else w.sentBy[lo] == From(w, id) + n - 2
    ensures lo <= k < |w.log| && (n == 1 ==> k == lo) && w.sentBy[k] == From(w, id) + n - 1
  {
    k := lo;
    if n > 1 {
      k := SomePublicationSent(w, lo, |w.log| - 1, From(w, id) + n - 1);
    }
  }

  lemma ViewAtPublication(w: World, id: nat, n: nat, k: nat)
    requires Inv(w) && 0 <= id < |w.sessions| && 1 <= n <= |Given(w, id)|
    requires k < |w.log| && w.sentBy[k] == From(w, id) + n - 1
    ensures Fold(w.sessions[id].before, Given(w, id)[..n]) == Index(w.log[k])
  {
    ViewOfPrefix(w, id, n);
  }

  /** In every run, disciplined or not, deliveries are a contiguous run of the
      broadcasts, queues stay within the buffer and only live IDs are registered. */
  lemma DeliveriesAreContiguous(ws: seq<World>, steps: seq<Step>, n: nat, id: nat)
    requires IsRun(ws, steps) && n < |ws| && 0 <= id < |ws[n].sessions|
    ensures DeliveryInv(ws[n])
    ensures |ws[n].broker.queues[id]| <= BUFFER
    ensures var s, given := ws[n].sessions[id], Given(ws[n], id);
      && s.since < |ws[n].log| && 0 < |given| && given[0] == AsSnapshot(ws[n].log[s.since])
      && given[1..] <= ws[n].sent[ws[n].sentBy[s.since]..]
      && (id in ws[n].broker.registered ==> given[1..] == ws[n].sent[ws[n].sentBy[s.since]..])
  {
    RunDelivers(ws, steps, n);
    assert SessionInv(ws[n], id);
  }

  /** Once every replica is exact, publishing g leaves a registered subscriber
      with room exact if and only if g keeps the blank Meta keys. */
  lemma PublishKeepsReplicaIff(w: World, step: Step, id: nat)
    requires Inv(w) && step.Publish? && Enabled(w, step) && HasRoom(w.broker, id)
    ensures var w' := After(w, step);
      && 0 <= id < |w'.sessions| == |w'.broker.queues| && id in w'.broker.registered
      && (Fold(w'.sessions[id].View(), w'.sessions[id].handoff + w'.broker.queues[id]) == Index(step.g)
          <==> KeepsReplicas(w, step))
  {
    PublishKeepsLog(w, step);
    PublishFoldsIff(w, step);
    FoldsIffLatest(w, step);
    PublishIsFolded(w, step, id);
  }

  /** A subscriber with room ends up where the broadcasts alone lead. */
  lemma PublishIsFolded(w: World, step: Step, id: nat)
    requires Inv(w) && step.Publish? && Enabled(w, step) && HasRoom(w.broker, id)
    ensures var w' := After(w, step);
      && 0 <= id < |w'.sessions| == |w'.broker.queues| && id in w'.broker.registered
      && Fold(w'.sessions[id].View(), w'.sessions[id].handoff + w'.broker.queues[id]) == Fold(EMPTY_VIEW, w'.sent)
  {
    CatchUpInState(w, id);
    LatestFold(w);
    var s, d := w.sessions[id], step.d;
    PublishOffers(w, step, id);
    if !d.Empty() {
      FoldExtend(s.View(), s.handoff + w.broker.queues[id], d);
      FoldExtend(EMPTY_VIEW, w.sent, d);
    }
  }

  lemma PublishOffers(w: World, step: Step, id: nat)
    requires Inv(w) && step.Publish? && Enabled(w, step) && HasRoom(w.broker, id)
    ensures var w', d := After(w, step), step.d;
      && 0 <= id < |w.sessions| && w'.sessions == w.sessions && |w'.broker.queues| == |w.sessions|
      && id in w'.broker.registered
      && w.sessions[id].handoff + w'.broker.queues[id]
         == w.sessions[id].handoff + w.broker.queues[id] + (if d.Empty() then [] else [d])
      && w'.sent == w.sent + (if d.Empty() then [] else [d])
  {
  }

  lemma FoldExtend(v: Topology.View, msgs: seq<Diff>, d: Diff)
    ensures Fold(v, msgs + [d]) == Apply(Fold(v, msgs), d)
  {
    assert (msgs + [d])[..|msgs|] == msgs;
  }

  lemma LatestFold(w: World)
    requires Inv(w)
    ensures Index(w.Last()) == Fold(EMPTY_VIEW, w.sent)
  {
    assert w.sent[..w.sentBy[|w.log| - 1]] == w.sent;
  }

  /** After a publication only the newest index can be out of step. */
  lemma FoldsIffLatest(w: World, step: Step)
    requires Inv(w) && step.Publish? && Enabled(w, step) && LogInv(After(w, step))
    ensures LogFolds(After(w, step)) <==> Index(step.g) == Fold(EMPTY_VIEW, After(w, step).sent)
  {
    var w' := After(w, step);
    forall k | 0 <= k < |w.log| ensures Index(w'.log[k]) == Fold(EMPTY_VIEW, w'.sent[..w'.sentBy[k]]) {
      assert w'.sent[..w'.sentBy[k]] == w.sent[..w.sentBy[k]];
    }
    assert w'.sent[..w'.sentBy[|w.log|]] == w'.sent;
    assert w'.log[|w.log|] == step.g;
  }
}
