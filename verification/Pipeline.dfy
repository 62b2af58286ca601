/** The whole way from a cache change to a client's replica: the rebuild loop, the
    builds it makes and the stream they are published on (internal/collector). */
module Pipeline {
  import opened Topology
  import opened Build
  import D = Debounce
  import S = Stream
  import Client
  import Discipline
  import Idle

  // ------------------------------------------------------ loop, builder, stream

  /** Whether a graph may be built from what the caches hold. */
  type Builder<!C> = (Graph, C) -> bool

  /** caches[v] is what the caches held after change v, building the graph that the
      rebuild under way has made. */
  datatype State<C> = State(loop: D.State, stream: S.World, caches: seq<C>, building: Graph)

  datatype Step<C> =
    | Change(c: C)                  // an informer updates its cache
    | Begin(move: D.Step, g: Graph) // a rebuild begins, reads the caches and makes g of them
    | Publish(d: Diff)              // it publishes what it has made
    | Loop(move: D.Step)            // the other steps of handlers, loop and clock
    | Connect(act: S.Step)          // a client comes, goes or receives

  /** What a step is to the rebuild loop: for a client's, no time at all. */
  function LoopStep<C>(step: Step<C>): D.Step {
    match step
    case Change(_) => D.Change
    case Begin(move, _) => move
    case Publish(_) => D.Finish
    case Loop(move) => move
    case Connect(_) => D.Tick(0.0)
  }

  ghost predicate Enabled<C>(s: State, step: Step, makes: Builder<C>)
    requires s.caches != [] && s.stream.log != []
  {
    && D.Enabled(s.loop, LoopStep(step))
    && match step
       case Change(_) => true
       case Begin(move, g) =>
         (move.FirstRebuild? || move.Fire?) && g.updatedAt != 0 && makes(g, s.caches[|s.caches| - 1])
       case Publish(d) => S.Enabled(s.stream, S.Publish(s.building, d))
       case Loop(move) => move.Notify? || move.TakeDirty? || move.Stop? || move.Tick?
       case Connect(act) => !act.Publish? && S.Enabled(s.stream, act)
  }

  ghost function After<C>(s: State, step: Step, makes: Builder<C>, debounce: real): State
    requires s.caches != [] && s.stream.log != [] && Enabled(s, step, makes)
  {
    var s' := s.(loop := D.After(s.loop, LoopStep(step), debounce));
    match step
    case Change(c) => s'.(caches := s.caches + [c])
    case Begin(_, g) => s'.(building := g)
    case Publish(d) => s'.(stream := S.After(s.stream, S.Publish(s.building, d)))
    case Loop(_) => s'
    case Connect(act) => s'.(stream := S.After(s.stream, act))
  }

  ghost predicate Initial<C>(s: State<C>) {
    D.Initial(s.loop) && s.stream == S.START && |s.caches| == s.loop.version + 1
  }

  ghost predicate IsRun<C>(ss: seq<State>, steps: seq<Step>, makes: Builder<C>, debounce: real) {
    && |ss| == |steps| + 1 && Initial(ss[0])
    && forall i :: 0 <= i < |steps| ==>
         && ss[i].caches != [] && ss[i].stream.log != []
         && Enabled(ss[i], steps[i], makes) && ss[i + 1] == After(ss[i], steps[i], makes, debounce)
  }

  /** Builds of earlier and later caches keep the blank Meta keys. */
  ghost predicate Orderly<C>(caches: seq<C>, makes: Builder<C>) {
    forall i, j, g, g' :: 0 <= i <= j < |caches| && makes(g, caches[i]) && makes(g', caches[j]) ==> Disciplined(g, g')
  }

  // ---------------------------------------------------------------- invariant

  /** What is published is made of the caches that the loop says are shown, and what
      is being built of those it has read. */
  ghost predicate Tells<C>(loop: D.State, last: Graph, building: Graph, caches: seq<C>, makes: Builder<C>) {
    && loop.shown < |caches| && loop.built < |caches|
    && (loop.ends == [] ==> last.updatedAt == 0)
    && (loop.ends != [] ==> makes(last, caches[loop.shown]))
    && (loop.phase == D.Rebuilding ==> makes(building, caches[loop.built]))
  }

  ghost predicate Inv<C>(s: State, makes: Builder<C>, debounce: real) {
    && D.Inv(s.loop, debounce) && S.Inv(s.stream) && |s.caches| == s.loop.version + 1
    && Tells(s.loop, s.stream.Last(), s.building, s.caches, makes)
  }

  lemma InvStarts<C>(s: State, makes: Builder<C>, debounce: real)
    requires Initial(s)
    ensures Inv(s, makes, debounce)
  {
    S.StartInv();
  }

  lemma PublishKeeps(w: S.World, g: Graph, d: Diff)
    requires S.Inv(w) && S.Enabled(w, S.Publish(g, d)) && (w.Last().updatedAt != 0 ==> Disciplined(w.Last(), g))
    ensures S.Inv(S.After(w, S.Publish(g, d))) && S.After(w, S.Publish(g, d)).Last() == g
  {
    S.InvStep(w, S.Publish(g, d));
  }

  lemma ConnectKeeps(w: S.World, act: S.Step)
    requires S.Inv(w) && S.Enabled(w, act) && !act.Publish?
    ensures S.Inv(S.After(w, act)) && S.After(w, act).Last() == w.Last()
  {
    S.InvStep(w, act);
  }

  /** The loop's step, the publication and the caches agree again after each step. */
  lemma TellsStep<C>(loop: D.State, move: D.Step, last: Graph, building: Graph, caches: seq<C>,
                     last': Graph, building': Graph, caches': seq<C>, makes: Builder<C>, debounce: real)
    requires Tells(loop, last, building, caches, makes) && |caches| == loop.version + 1 && D.Enabled(loop, move)
    requires caches <= caches' && |caches'| == D.After(loop, move, debounce).version + 1
    requires last' == if move.Finish? then building else last
    requires if move.FirstRebuild? || move.Fire? then makes(building', caches[loop.version]) else building' == building
    ensures Tells(D.After(loop, move, debounce), last', building', caches', makes)
  {
    assert forall i :: 0 <= i < |caches| ==> caches'[i] == caches[i];
  }

  /** The stream stays in order, and its latest graph is the one just published. */
  lemma StreamKeeps<C>(s: State, step: Step, makes: Builder<C>, debounce: real)
    requires S.Inv(s.stream) && s.caches != [] && Enabled(s, step, makes)
    requires step.Publish? && s.stream.Last().updatedAt != 0 ==> Disciplined(s.stream.Last(), s.building)
    ensures var w := After(s, step, makes, debounce).stream;
      S.Inv(w) && w.Last() == if LoopStep(step).Finish? then s.building else s.stream.Last()
  {
    match step {
      case Publish(d) => PublishKeeps(s.stream, s.building, d);
      case Connect(act) => ConnectKeeps(s.stream, act);
      case _ =>
    }
  }

  lemma InvStep<C>(s: State, step: Step, makes: Builder<C>, debounce: real)
    requires Inv(s, makes, debounce) && Enabled(s, step, makes) && Orderly(s.caches, makes)
    ensures Inv(After(s, step, makes, debounce), makes, debounce)
  {
    var s' := After(s, step, makes, debounce);
    D.InvStep(s.loop, LoopStep(step), debounce);
    StreamKeeps(s, step, makes, debounce);
    TellsStep(s.loop, LoopStep(step), s.stream.Last(), s.building, s.caches,
              s'.stream.Last(), s'.building, s'.caches, makes, debounce);
  }

  lemma {:induction false} CachesGrow<C>(ss: seq<State>, steps: seq<Step>, makes: Builder<C>, debounce: real, i: nat,
                                         n: nat)
    requires IsRun(ss, steps, makes, debounce) && i <= n <= |steps|
    ensures ss[i].caches <= ss[n].caches
  {
    if i < n { CachesGrow(ss, steps, makes, debounce, i, n - 1); }
  }

  lemma {:induction false} RunInv<C>(ss: seq<State>, steps: seq<Step>, makes: Builder<C>, debounce: real, n: nat)
    requires IsRun(ss, steps, makes, debounce) && n <= |steps| && Orderly(ss[n].caches, makes)
    ensures Inv(ss[n], makes, debounce)
  {
    if n == 0 {
      InvStarts(ss[0], makes, debounce);
    } else {
      CachesGrow(ss, steps, makes, debounce, n - 1, n);
      OrderlyPrefix(ss[n - 1].caches, ss[n].caches, makes);
      RunInv(ss, steps, makes, debounce, n - 1);
      InvStep(ss[n - 1], steps[n - 1], makes, debounce);
    }
  }

  lemma OrderlyPrefix<C>(a: seq<C>, b: seq<C>, makes: Builder<C>)
    requires a <= b && Orderly(b, makes)
    ensures Orderly(a, makes)
  {
    assert forall i :: 0 <= i < |a| ==> a[i] == b[i];
  }

  // ----------------------------------------------------------------- theorems

  /** What a session's client will hold once it has received what is on its way. */
  function CaughtUp(w: S.World, id: nat): View
    requires id < |w.sessions| && id < |w.broker.queues|
  {
    Client.Fold(w.sessions[id].View(), w.sessions[id].handoff + w.broker.queues[id])
  }

  /** The client ends up with a graph made of the caches after change v. */
  ghost predicate Holds<C>(s: State<C>, id: nat, v: nat, makes: Builder<C>) {
    && v < |s.caches| && id < |s.stream.sessions| && id < |s.stream.broker.queues|
    && exists g :: makes(g, s.caches[v]) && CaughtUp(s.stream, id) == Index(g)
  }

  lemma HoldsShown<C>(s: State, makes: Builder<C>, debounce: real, id: nat)
    requires Inv(s, makes, debounce) && s.loop.ends != [] && id in s.stream.broker.registered
    ensures Holds(s, id, s.loop.shown, makes)
  {
    S.CatchUpInState(s.stream, id);
  }

  /** The run as the loop sees it. */
  ghost function Loops<C>(ss: seq<State<C>>): (r: seq<D.State>)
    ensures |r| == |ss| && forall i :: 0 <= i < |ss| ==> r[i] == ss[i].loop
  {
    seq(|ss|, i requires 0 <= i < |ss| => ss[i].loop)
  }

  ghost function LoopSteps<C>(steps: seq<Step<C>>): (r: seq<D.Step>)
    ensures |r| == |steps| && forall i :: 0 <= i < |steps| ==> r[i] == LoopStep(steps[i])
  {
    seq(|steps|, i requires 0 <= i < |steps| => LoopStep(steps[i]))
  }

  lemma LoopRuns<C>(ss: seq<State>, steps: seq<Step>, makes: Builder<C>, debounce: real)
    requires IsRun(ss, steps, makes, debounce)
    ensures D.IsRun(Loops(ss), LoopSteps(steps), debounce) && D.Initial(Loops(ss)[0])
  {
  }

  /** Once a first rebuild has ended, in every state every registered client ends up
      with a graph made of the caches that the loop says are shown. */
  lemma ClientsFollow<C>(ss: seq<State>, steps: seq<Step>, makes: Builder<C>, debounce: real, n: nat, id: nat)
    requires IsRun(ss, steps, makes, debounce) && n <= |steps| && Orderly(ss[n].caches, makes)
    requires ss[n].loop.ends != [] && id in ss[n].stream.broker.registered
    ensures Holds(ss[n], id, ss[n].loop.shown, makes)
  {
    RunInv(ss, steps, makes, debounce, n);
    HoldsShown(ss[n], makes, debounce, id);
  }

  /** When nothing is left to do every registered client ends up with a graph made of
      the latest caches. */
  lemma SettledClients<C>(ss: seq<State>, steps: seq<Step>, makes: Builder<C>, debounce: real, n: nat, id: nat)
    requires IsRun(ss, steps, makes, debounce) && n <= |steps| && Orderly(ss[n].caches, makes)
    requires D.AllDone(ss[n].loop) && ss[n].loop.phase != D.Stopped && id in ss[n].stream.broker.registered
    ensures ss[n].loop.version == |ss[n].caches| - 1 && Holds(ss[n], id, ss[n].loop.version, makes)
  {
    RunInv(ss, steps, makes, debounce, n);
    var s := ss[n];
    if s.loop.phase != D.Waiting || s.loop.shown < s.loop.version { D.StaleHasWork(s.loop, debounce); }
    HoldsShown(s, makes, debounce, id);
  }

  /** And in a run that puts nothing off from state m on, once a debounce has passed
      since, the time spent rebuilding not counted, with one made of caches at least
      as new as any change v that was there at m. */
  lemma ClientsInTime<C>(ss: seq<State>, steps: seq<Step>, makes: Builder<C>, debounce: real, v: nat, m: nat, n: nat,
                         id: nat)
    requires IsRun(ss, steps, makes, debounce) && m <= n <= |steps| && Orderly(ss[n].caches, makes) && debounce >= 0.0
    requires v <= ss[m].loop.version && D.PromptFrom(Loops(ss), LoopSteps(steps), v, m)
    requires ss[n].loop.phase != D.Stopped && ss[n].loop.ends != [] && id in ss[n].stream.broker.registered
    requires ss[n].loop.now - ss[m].loop.now > debounce + D.BusyIn(Loops(ss)[m..], LoopSteps(steps)[m..], n - m)
    ensures ss[n].loop.shown >= v && Holds(ss[n], id, ss[n].loop.shown, makes)
  {
    ClientsFollow(ss, steps, makes, debounce, n, id);
    LoopRuns(ss, steps, makes, debounce);
    D.ShownInTime(Loops(ss), LoopSteps(steps), debounce, v, m, n);
  }

  // ------------------------------------------------------ the collector's builds

  /** What the caches hold; the clock and the tracker's samples are left open. */
  datatype Cache = Cache(e: Env, l: Lists)

  ghost predicate BuildAt(g: Graph, c: Cache, e: Env) {
    Idle.SameCollector(c.e, e) && g == Built(e, c.l)
  }

  /** A build of these caches, at some time and with some samples. */
  ghost predicate IsBuild(g: Graph, c: Cache) { exists e :: BuildAt(g, c, e) }

  ghost function Builds(): Builder<Cache> { (g, c) => IsBuild(g, c) }

  /** One collector's caches, in which no object ever loses a blank optional value. */
  ghost predicate BlanksKept(caches: seq<Cache>) {
    forall i, j :: 0 <= i <= j < |caches| ==>
      caches[i].e.clusterScope == caches[j].e.clusterScope && Discipline.BlanksStay(caches[i].l, caches[j].l)
  }

  lemma BuildsAtDisciplined(g: Graph, c: Cache, e: Env, g': Graph, c': Cache, e': Env)
    requires BuildAt(g, c, e) && BuildAt(g', c', e')
    requires c.e.clusterScope == c'.e.clusterScope && Discipline.BlanksStay(c.l, c'.l)
    ensures Disciplined(g, g')
  {
    Discipline.BuildsAreDisciplined(e, c.l, e', c'.l);
  }

  lemma BuildsDisciplined(g: Graph, c: Cache, g': Graph, c': Cache)
    requires IsBuild(g, c) && IsBuild(g', c') && c.e.clusterScope == c'.e.clusterScope
    requires Discipline.BlanksStay(c.l, c'.l)
    ensures Disciplined(g, g')
  {
    var e :| BuildAt(g, c, e);
    var e' :| BuildAt(g', c', e');
    BuildsAtDisciplined(g, c, e, g', c', e');
  }

  lemma BlanksKeptIsOrderly(caches: seq<Cache>)
    requires BlanksKept(caches)
    ensures Orderly(caches, Builds())
  {
    forall i, j, g, g' | 0 <= i <= j < |caches| && Builds()(g, caches[i]) && Builds()(g', caches[j])
      ensures Disciplined(g, g')
    {
      BuildsDisciplined(g, caches[i], g', caches[j]);
    }
  }

  /** A registered client ends up with the index of a build of these caches. */
  ghost predicate HoldsBuild(s: State<Cache>, id: nat, c: Cache)
    requires id < |s.stream.sessions| && id < |s.stream.broker.queues|
  {
    exists g :: IsBuild(g, c) && CaughtUp(s.stream, id) == Index(g)
  }

  lemma HeldIsBuild(s: State<Cache>, id: nat, v: nat)
    requires Holds(s, id, v, Builds())
    ensures HoldsBuild(s, id, s.caches[v])
  {
    var g :| Builds()(g, s.caches[v]) && CaughtUp(s.stream, id) == Index(g);
    assert IsBuild(g, s.caches[v]);
  }

  /** So in every run of the collector in which no object loses a blank value: once
      nothing is left to do, what a registered client holds, is being handed and has
      queued adds up to the graph built of the latest caches. */
  lemma SettledReplicas(ss: seq<State<Cache>>, steps: seq<Step<Cache>>, debounce: real, n: nat, id: nat)
    requires IsRun(ss, steps, Builds(), debounce) && n <= |steps| && BlanksKept(ss[n].caches)
    requires D.AllDone(ss[n].loop) && ss[n].loop.phase != D.Stopped && id in ss[n].stream.broker.registered
    ensures id < |ss[n].stream.sessions| && id < |ss[n].stream.broker.queues| && ss[n].caches != []
    ensures HoldsBuild(ss[n], id, ss[n].caches[|ss[n].caches| - 1])
  {
    BlanksKeptIsOrderly(ss[n].caches);
    SettledClients(ss, steps, Builds(), debounce, n, id);
    HeldIsBuild(ss[n], id, ss[n].loop.version);
  }
}
