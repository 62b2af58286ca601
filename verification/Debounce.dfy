/** When rebuilds happen (internal/collector/collector.go: markDirty, Start and
    rebuildLoop), as a state machine with time. Time is real-valued. */
module Debounce {

  import opened Seqs

  datatype Phase = Syncing | Waiting | Rebuilding | Stopped

  /** version counts cache changes, and handlers holds those whose event handler
      has yet to run. dirty is the one-slot channel, deadline the armed timer. built
      is the version that the last rebuild began reading, shown the one it
      published. starts and ends log the rebuilds. */
  datatype State = State(now: real, version: nat, handlers: set<nat>, dirty: bool, deadline: Option<real>,
                         phase: Phase, built: nat, shown: nat, starts: seq<real>, ends: seq<real>)

  ghost predicate Initial(s: State) {
    && s.phase == Syncing && !s.dirty && s.deadline == None
    && (forall v :: v in s.handlers <==> 1 <= v <= s.version) && s.built == s.shown == 0 && s.starts == s.ends == []
  }

  datatype Step =
    | Change        // an informer updates its cache, its handler still to run
    | Notify(v: nat)  // the handler of change v runs markDirty
    | FirstRebuild  // Start, once the caches have synced
    | TakeDirty     // the loop takes the token and arms an idle timer
    | Fire          // the loop sees the timer and begins a rebuild
    | Finish        // the rebuild has published
    | Stop          // the context is cancelled
    | Tick(dt: real)

  predicate Enabled(s: State, step: Step) {
    match step
    case Change => true
    case Notify(v) => v in s.handlers
    case FirstRebuild => s.phase == Syncing
    case TakeDirty => s.phase == Waiting && s.dirty
    case Fire => s.phase == Waiting && s.deadline.Some? && s.deadline.value <= s.now
    case Finish => s.phase == Rebuilding
    case Stop => s.phase == Waiting
    case Tick(dt) => dt >= 0.0
  }

  function Begin(s: State): State {
    s.(phase := Rebuilding, deadline := None, built := s.version, starts := s.starts + [s.now])
  }

  function After(s: State, step: Step, debounce: real): State
    requires Enabled(s, step)
  {
    match step
    case Change => s.(version := s.version + 1, handlers := s.handlers + {s.version + 1})
    case Notify(v) => s.(handlers := s.handlers - {v}, dirty := true)
    case FirstRebuild => Begin(s)
    case TakeDirty =>
      s.(dirty := false, deadline := if s.deadline == None then Some(s.now + debounce) else s.deadline)
    case Fire => Begin(s)
    case Finish => s.(phase := Waiting, shown := s.built, ends := s.ends + [s.now])
    case Stop => s.(phase := Stopped)
    case Tick(dt) => s.(now := s.now + dt)
  }

  // --------------------------------------------------------------- invariant

  /** Each change that no rebuild has read is still on its way to one. */
  ghost predicate NothingLost(s: State) {
    s.phase == Stopped || s.phase == Syncing || s.dirty || s.deadline.Some?
    || forall v :: s.built < v <= s.version ==> v in s.handlers
  }

  predicate SpacedLogs(starts: seq<real>, ends: seq<real>, debounce: real) {
    && (forall i :: 0 <= i < |ends| ==> i < |starts| && starts[i] <= ends[i])
    && (forall i :: 0 < i < |starts| ==> i - 1 < |ends| && starts[i] >= ends[i - 1] + debounce)
  }

  /** Each rebuild starts at least `debounce` after the one before ended. */
  predicate Spaced(s: State, debounce: real) { SpacedLogs(s.starts, s.ends, debounce) }

  /** How the versions and the phase go together. */
  predicate Ordered(s: State) {
    && s.shown <= s.built <= s.version
    && (forall v :: v in s.handlers ==> v <= s.version)
    && (s.phase == Waiting ==> s.shown == s.built)
    && (s.phase == Syncing ==> s.built == 0)
    && (s.deadline.Some? ==> s.phase == Waiting || s.phase == Stopped)
  }

  /** How the logged times and the clock go together. */
  predicate Timed(s: State, debounce: real) {
    && (s.phase == Syncing ==> s.starts == [])
    && |s.starts| == |s.ends| + (if s.phase == Rebuilding then 1 else 0)
    && (s.starts != [] ==> s.starts[|s.starts| - 1] <= s.now)
    && (s.ends != [] ==> s.ends[|s.ends| - 1] <= s.now)
    && (s.phase == Waiting ==> s.ends != [])
    && (s.deadline.Some? ==>
          s.ends != [] && s.ends[|s.ends| - 1] + debounce <= s.deadline.value <= s.now + debounce)
  }

  ghost predicate Inv(s: State, debounce: real) {
    NothingLost(s) && Ordered(s) && Timed(s, debounce) && Spaced(s, debounce)
  }

  ghost predicate IsRun(ss: seq<State>, steps: seq<Step>, debounce: real) {
    && |ss| == |steps| + 1
    && forall i :: 0 <= i < |steps| ==> Enabled(ss[i], steps[i]) && ss[i + 1] == After(ss[i], steps[i], debounce)
  }

  lemma InvStep(s: State, step: Step, debounce: real)
    requires Inv(s, debounce) && Enabled(s, step)
    ensures Inv(After(s, step, debounce), debounce)
  {
    OrderedStep(s, step, debounce);
    TimedStep(s, step, debounce);
    SpacedStep(s, step, debounce);
  }

  lemma OrderedStep(s: State, step: Step, debounce: real)
    requires NothingLost(s) && Ordered(s) && Enabled(s, step)
    ensures NothingLost(After(s, step, debounce)) && Ordered(After(s, step, debounce))
  {
  }

  lemma TimedStep(s: State, step: Step, debounce: real)
    requires Ordered(s) && Timed(s, debounce) && Enabled(s, step)
    ensures Timed(After(s, step, debounce), debounce)
  {
  }

  lemma SpacedStep(s: State, step: Step, debounce: real)
    requires Ordered(s) && Timed(s, debounce) && Spaced(s, debounce) && Enabled(s, step)
    ensures Spaced(After(s, step, debounce), debounce)
  {
    if step.Fire? || step.FirstRebuild? {
      BeginSpaced(s.starts, s.ends, s.now, debounce);
    } else if step.Finish? {
      EndSpaced(s.starts, s.ends, s.now, debounce);
    }
  }

  lemma BeginSpaced(starts: seq<real>, ends: seq<real>, now: real, debounce: real)
    requires SpacedLogs(starts, ends, debounce) && |starts| == |ends|
    requires ends != [] ==> ends[|ends| - 1] + debounce <= now
    ensures SpacedLogs(starts + [now], ends, debounce)
  {
    var more := starts + [now];
    forall i | 0 < i < |more| ensures i - 1 < |ends| && more[i] >= ends[i - 1] + debounce {
      if i < |starts| { assert more[i] == starts[i]; }
    }
  }

  lemma EndSpaced(starts: seq<real>, ends: seq<real>, now: real, debounce: real)
    requires SpacedLogs(starts, ends, debounce) && |starts| == |ends| + 1 && starts[|ends|] <= now
    ensures SpacedLogs(starts, ends + [now], debounce)
  {
    var more := ends + [now];
    forall i | 0 < i < |starts| ensures i - 1 < |more| && starts[i] >= more[i - 1] + debounce {
      assert more[i - 1] == ends[i - 1];
    }
  }

  /** No reachable state has lost an update, and rebuilds keep their distance. */
  lemma {:induction false} RunInv(ss: seq<State>, steps: seq<Step>, debounce: real, n: nat)
    requires IsRun(ss, steps, debounce) && Initial(ss[0]) && n < |ss|
    ensures Inv(ss[n], debounce)
  {
    if n > 0 {
      RunInv(ss, steps, debounce, n - 1);
      InvStep(ss[n - 1], steps[n - 1], debounce);
    }
  }

  /** n debounce periods, end to end. */
  function Periods(n: nat, debounce: real): real {
    if n == 0 then 0.0 else Periods(n - 1, debounce) + debounce
  }

  lemma {:induction false} PeriodsIsProduct(n: nat, debounce: real)
    ensures Periods(n, debounce) == n as real * debounce
  {
    if n > 0 {
      PeriodsIsProduct(n - 1, debounce);
      Distribute((n - 1) as real, n as real, debounce);
    }
  }

  lemma Distribute(x: real, y: real, d: real)
    requires y == x + 1.0
    ensures y * d == x * d + d
  {
  }

  lemma {:induction false} StartsSpread(starts: seq<real>, ends: seq<real>, debounce: real, i: nat)
    requires SpacedLogs(starts, ends, debounce) && i < |starts|
    ensures starts[0] + Periods(i, debounce) <= starts[i]
  {
    if i > 0 {
      StartsSpread(starts, ends, debounce, i - 1);
    }
  }

  /** The starts logged by now lie that far apart. */
  lemma ReachedSpread(ss: seq<State>, steps: seq<Step>, debounce: real, n: nat)
    requires IsRun(ss, steps, debounce) && Initial(ss[0]) && n < |ss| && ss[n].starts != []
    ensures ss[n].starts[0] + Periods(|ss[n].starts| - 1, debounce) <= ss[n].now
  {
    RunInv(ss, steps, debounce, n);
    StartsSpread(ss[n].starts, ss[n].ends, debounce, |ss[n].starts| - 1);
  }

  /** So a run of whatever length makes at most one rebuild per debounce period,
      counted from the first. */
  lemma RebuildsPerPeriod(ss: seq<State>, steps: seq<Step>, debounce: real, n: nat)
    requires IsRun(ss, steps, debounce) && Initial(ss[0]) && n < |ss| && ss[n].starts != []
    ensures (|ss[n].starts| - 1) as real * debounce <= ss[n].now - ss[n].starts[0]
  {
    ReachedSpread(ss, steps, debounce, n);
    PeriodsIsProduct(|ss[n].starts| - 1, debounce);
  }

  // ---------------------------------------------------------------- progress

  /** The steps that the handlers and the loop owe. */
  predicate IsWork(step: Step) {
    step.Notify? || step.FirstRebuild? || step.TakeDirty? || step.Fire? || step.Finish?
  }

  /** How much of that work is left. */
  function Rank(s: State): nat {
    4 * |s.handlers| + (if s.dirty then 3 else 0) + (if s.deadline.Some? then 2 else 0)
    + (match s.phase case Syncing => 2 case Rebuilding => 1 case _ => 0)
  }

  /** Each piece of work lowers the rank, and waiting does not raise it. */
  lemma WorkLowersRank(s: State, step: Step, debounce: real)
    requires Inv(s, debounce) && Enabled(s, step) && (IsWork(step) || step.Tick?)
    ensures Rank(After(s, step, debounce)) <= Rank(s) - (if IsWork(step) then 1 else 0)
  {
  }

  function Later(s: State, dt: real): State {
    s.(now := s.now + dt)
  }

  /** Nothing is left to do, now or at any later time. */
  ghost predicate AllDone(s: State) {
    forall step, dt :: IsWork(step) && dt >= 0.0 ==> !Enabled(Later(s, dt), step)
  }

  /** While the published graph is stale some work is enabled, or will be once
      the timer's deadline passes. */
  lemma StaleHasWork(s: State, debounce: real)
    requires Inv(s, debounce) && s.phase != Stopped && (s.shown < s.version || s.phase != Waiting)
    ensures !AllDone(s)
  {
    var step, dt := Finish, 0.0;
    if s.phase == Syncing { step := FirstRebuild; }
    else if s.phase == Rebuilding { step := Finish; }
    else if s.handlers != {} { var v :| v in s.handlers; step := Notify(v); }
    else if s.dirty { step := TakeDirty; }
    else {
      assert s.version !in s.handlers;
      step, dt := Fire, if s.deadline.value <= s.now then 0.0 else s.deadline.value - s.now;
    }
    assert dt >= 0.0 && IsWork(step) && Enabled(Later(s, dt), step);
  }

  /** How much work the first n steps did. */
  function WorkIn(steps: seq<Step>, n: nat): nat
    requires n <= |steps|
  {
    if n == 0 then 0 else WorkIn(steps, n - 1) + if IsWork(steps[n - 1]) then 1 else 0
  }

  ghost predicate Quiet(steps: seq<Step>) {
    forall i :: 0 <= i < |steps| ==> IsWork(steps[i]) || steps[i].Tick?
  }

  lemma QuietStep(s: State, step: Step, debounce: real)
    requires Enabled(s, step) && (IsWork(step) || step.Tick?)
    ensures After(s, step, debounce).version == s.version
    ensures s.phase != Stopped ==> After(s, step, debounce).phase != Stopped
  {
  }

  lemma {:induction false} WorkIsBounded(ss: seq<State>, steps: seq<Step>, debounce: real, n: nat)
    requires IsRun(ss, steps, debounce) && Inv(ss[0], debounce) && Quiet(steps) && n <= |steps|
    ensures Inv(ss[n], debounce) && Rank(ss[n]) + WorkIn(steps, n) <= Rank(ss[0])
    ensures ss[n].version == ss[0].version
    ensures ss[0].phase != Stopped ==> ss[n].phase != Stopped
  {
    if n > 0 {
      WorkIsBounded(ss, steps, debounce, n - 1);
      WorkLowersRank(ss[n - 1], steps[n - 1], debounce);
      QuietStep(ss[n - 1], steps[n - 1], debounce);
      InvStep(ss[n - 1], steps[n - 1], debounce);
    }
  }

  /** Once changes stop, at most Rank many pieces of work remain, and a run that
      leaves none undone ends with the latest caches published. */
  lemma QuietRunSettles(ss: seq<State>, steps: seq<Step>, debounce: real)
    requires IsRun(ss, steps, debounce) && Inv(ss[0], debounce) && Quiet(steps) && ss[0].phase != Stopped
    ensures WorkIn(steps, |steps|) <= Rank(ss[0])
    ensures AllDone(ss[|steps|]) ==>
      ss[|steps|].phase == Waiting && ss[|steps|].shown == ss[|steps|].version == ss[0].version
  {
    WorkIsBounded(ss, steps, debounce, |steps|);
    var last := ss[|steps|];
    if last.phase != Waiting || last.shown < last.version {
      StaleHasWork(last, debounce);
    }
  }

  // ----------------------------------------------------- progress under changes

  /** An armed timer stands until it fires: no later token, change or handler
      puts it off. */
  lemma ArmedStands(s: State, step: Step, debounce: real)
    requires Inv(s, debounce) && Enabled(s, step) && s.deadline.Some? && !step.Fire?
    ensures After(s, step, debounce).deadline == s.deadline
  {
  }

  /** So over any run without a rebuild in between the deadline is one and the
      same, and was never more than a debounce away: once that long has passed the
      rebuild can begin, however many changes came in meanwhile. */
  lemma {:induction false} ArmedStandsThrough(ss: seq<State>, steps: seq<Step>, debounce: real, i: nat, j: nat)
    requires IsRun(ss, steps, debounce) && Initial(ss[0]) && i <= j < |ss| && ss[i].deadline.Some?
    requires forall k :: i <= k < j ==> !steps[k].Fire?
    ensures ss[j].deadline == ss[i].deadline && ss[j].deadline.value <= ss[i].now + debounce
    ensures ss[j].phase != Stopped && ss[j].now >= ss[i].now + debounce ==> Enabled(ss[j], Fire)
  {
    RunInv(ss, steps, debounce, i);
    if i < j {
      ArmedStandsThrough(ss, steps, debounce, i, j - 1);
      RunInv(ss, steps, debounce, j - 1);
      ArmedStands(ss[j - 1], steps[j - 1], debounce);
      RunInv(ss, steps, debounce, j);
    }
  }

  /** How far change v is from being shown, whatever else changes. */
  function Distance(s: State, v: nat): (r: nat)
    ensures r <= 5
  {
    if s.shown >= v then 0
    else if s.built >= v then 1
    else if s.phase == Syncing || s.deadline.Some? then 2
    else (if s.dirty then 3 else 4) + (if s.phase == Rebuilding then 1 else 0)
  }

  /** The steps that bring change v nearer: any rebuild begun or finished, a token
      taken while no timer runs, and a handler run while neither is there. */
  predicate Helps(s: State, step: Step, v: nat) {
    && s.shown < v
    && (match step
        case Fire => true
        case Finish => true
        case FirstRebuild => true
        case TakeDirty => s.deadline == None
        case Notify(_) => s.built < v && s.phase != Syncing && s.deadline == None && !s.dirty
        case _ => false)
  }

  /** No step, and no further change, takes v further away; helping steps bring it nearer. */
  lemma HelpsLowersDistance(s: State, step: Step, debounce: real, v: nat)
    requires Inv(s, debounce) && Enabled(s, step) && v <= s.version
    ensures Distance(After(s, step, debounce), v) <= Distance(s, v) - (if Helps(s, step, v) then 1 else 0)
  {
  }

  /** Until v is shown some helping step is enabled, or will be within a debounce
      if the loop is not stopped. */
  lemma SomethingHelps(s: State, debounce: real, v: nat) returns (step: Step, dt: real)
    requires Inv(s, debounce) && debounce >= 0.0 && s.phase != Stopped && s.shown < v <= s.version
    ensures 0.0 <= dt <= debounce && Enabled(Later(s, dt), step) && Helps(Later(s, dt), step, v)
  {
    step, dt := Finish, 0.0;
    if s.phase == Syncing { step := FirstRebuild; }
    else if s.phase == Rebuilding { step := Finish; }
    else if s.deadline.Some? { step, dt := Fire, if s.deadline.value <= s.now then 0.0 else s.deadline.value - s.now; }
    else if s.dirty { step := TakeDirty; }
    else { step := Notify(v); }
  }

  function HelpIn(ss: seq<State>, steps: seq<Step>, v: nat, n: nat): nat
    requires n <= |steps| <= |ss|
  {
    if n == 0 then 0 else HelpIn(ss, steps, v, n - 1) + if Helps(ss[n - 1], steps[n - 1], v) then 1 else 0
  }

  lemma {:induction false} HelpIsBounded(ss: seq<State>, steps: seq<Step>, debounce: real, v: nat, n: nat)
    requires IsRun(ss, steps, debounce) && Inv(ss[0], debounce) && v <= ss[0].version && n <= |steps|
    ensures Inv(ss[n], debounce) && v <= ss[n].version
    ensures Distance(ss[n], v) + HelpIn(ss, steps, v, n) <= Distance(ss[0], v)
  {
    if n > 0 {
      HelpIsBounded(ss, steps, debounce, v, n - 1);
      HelpsLowersDistance(ss[n - 1], steps[n - 1], debounce, v);
      InvStep(ss[n - 1], steps[n - 1], debounce);
    }
  }

  /** However fast the caches go on changing, a change is shown after at most five
      helping steps, and until then one is due within a debounce: either the run
      has stopped, or it shows v, or it has a helping step yet to take. */
  lemma EveryChangeGetsShown(ss: seq<State>, steps: seq<Step>, debounce: real, v: nat)
    requires IsRun(ss, steps, debounce) && Inv(ss[0], debounce) && debounce >= 0.0 && v <= ss[0].version
    ensures HelpIn(ss, steps, v, |steps|) <= 5
    ensures HelpIn(ss, steps, v, |steps|) == 5 ==> ss[|steps|].shown >= v
    ensures ss[|steps|].phase == Stopped || ss[|steps|].shown >= v || HelpDue(ss[|steps|], debounce, v)
  {
    HelpIsBounded(ss, steps, debounce, v, |steps|);
    var last := ss[|steps|];
    if last.phase != Stopped && last.shown < v {
      var step, dt := SomethingHelps(last, debounce, v);
    }
  }

  ghost predicate HelpDue(s: State, debounce: real, v: nat) {
    exists step, dt :: 0.0 <= dt <= debounce && Enabled(Later(s, dt), step) && Helps(Later(s, dt), step, v)
  }

  // --------------------------------------------------------------- in real time

  /** Time does not pass over something that brings v nearer while the loop waits.
      How long a rebuild takes, or the caches take to sync, is left open. */
  ghost predicate Prompt(s: State, step: Step, v: nat) {
    step.Tick? && s.phase == Waiting ==>
      forall h, t :: 0.0 <= t < step.dt && Enabled(Later(s, t), h) ==> !Helps(Later(s, t), h, v)
  }

  /** From state m on nothing is put off. */
  ghost predicate PromptFrom(ss: seq<State>, steps: seq<Step>, v: nat, m: nat)
    requires |steps| <= |ss|
  {
    forall i :: m <= i < |steps| ==> Prompt(ss[i], steps[i], v)
  }

  /** The time that a step lets the waiting loop pass. */
  function Idle(s: State, step: Step): real {
    if step.Tick? && s.phase == Waiting then step.dt else 0.0
  }

  function IdleIn(ss: seq<State>, steps: seq<Step>, n: nat): real
    requires n <= |steps| <= |ss|
  {
    if n == 0 then 0.0 else IdleIn(ss, steps, n - 1) + Idle(ss[n - 1], steps[n - 1])
  }

  /** The time spent rebuilding or syncing. */
  function BusyIn(ss: seq<State>, steps: seq<Step>, n: nat): real
    requires n <= |steps| <= |ss|
  {
    if n == 0 then 0.0
    else
      BusyIn(ss, steps, n - 1)
      + if steps[n - 1].Tick? && ss[n - 1].phase != Waiting then steps[n - 1].dt else 0.0
  }

  lemma {:induction false} IdleAndBusy(ss: seq<State>, steps: seq<Step>, debounce: real, n: nat)
    requires IsRun(ss, steps, debounce) && n <= |steps|
    ensures ss[n].now == ss[0].now + IdleIn(ss, steps, n) + BusyIn(ss, steps, n)
  {
    if n > 0 { IdleAndBusy(ss, steps, debounce, n - 1); }
  }

  /** How long the loop may still wait before a rebuild reads change v. */
  function Wait(s: State, debounce: real, v: nat): real {
    if s.built >= v then 0.0
    else if s.deadline.Some? then (if s.deadline.value > s.now then s.deadline.value - s.now else 0.0)
    else debounce
  }

  /** Waiting with no timer running, something can be done for v at once. */
  lemma NoIdleUnarmed(s: State, debounce: real, v: nat, dt: real)
    requires Inv(s, debounce) && s.phase == Waiting && s.built < v <= s.version
    requires s.deadline == None && Prompt(s, Tick(dt), v)
    ensures dt <= 0.0
  {
    if s.dirty {
      assert Enabled(Later(s, 0.0), TakeDirty) && Helps(Later(s, 0.0), TakeDirty, v);
    } else {
      assert Enabled(Later(s, 0.0), Notify(v)) && Helps(Later(s, 0.0), Notify(v), v);
    }
  }

  /** With the timer running time stops at the deadline. */
  lemma IdleToDeadline(s: State, debounce: real, v: nat, dt: real)
    requires Inv(s, debounce) && s.phase == Waiting && s.built < v && s.deadline.Some? && Prompt(s, Tick(dt), v)
    ensures dt <= 0.0 || s.now + dt <= s.deadline.value
  {
    var t := if s.deadline.value > s.now then s.deadline.value - s.now else 0.0;
    assert Enabled(Later(s, t), Fire) && Helps(Later(s, t), Fire, v);
  }

  /** Each step uses up the wait by the time it lets pass, and none makes it longer:
      this is where a timer started afresh at each token would fail. */
  lemma WaitShrinks(s: State, step: Step, debounce: real, v: nat)
    requires Inv(s, debounce) && debounce >= 0.0 && Enabled(s, step) && v <= s.version && Prompt(s, step, v)
    requires s.shown < v && s.phase != Stopped
    ensures Wait(After(s, step, debounce), debounce, v) + Idle(s, step) <= Wait(s, debounce, v)
  {
    if step.Tick? && s.phase == Waiting {
      if s.deadline == None {
        NoIdleUnarmed(s, debounce, v, step.dt);
      } else {
        IdleToDeadline(s, debounce, v, step.dt);
      }
    }
  }

  lemma NotShownBefore(s: State, step: Step, debounce: real, v: nat)
    requires Ordered(s) && Enabled(s, step) && After(s, step, debounce).shown < v
    ensures s.shown < v && (After(s, step, debounce).phase != Stopped ==> s.phase != Stopped)
  {
  }

  lemma {:induction false} WaitIsBounded(ss: seq<State>, steps: seq<Step>, debounce: real, v: nat, n: nat)
    requires IsRun(ss, steps, debounce) && Inv(ss[0], debounce) && debounce >= 0.0 && v <= ss[0].version && n <= |steps|
    requires PromptFrom(ss, steps, v, 0)
    requires ss[n].shown < v && ss[n].phase != Stopped
    ensures Wait(ss[n], debounce, v) + IdleIn(ss, steps, n) <= Wait(ss[0], debounce, v)
  {
    if n > 0 {
      HelpIsBounded(ss, steps, debounce, v, n - 1);
      NotShownBefore(ss[n - 1], steps[n - 1], debounce, v);
      WaitIsBounded(ss, steps, debounce, v, n - 1);
      WaitShrinks(ss[n - 1], steps[n - 1], debounce, v);
    }
  }

  lemma ShownInTimeFromStart(ss: seq<State>, steps: seq<Step>, debounce: real, v: nat, n: nat)
    requires IsRun(ss, steps, debounce) && Inv(ss[0], debounce) && debounce >= 0.0 && v <= ss[0].version && n <= |steps|
    requires PromptFrom(ss, steps, v, 0)
    requires ss[n].phase != Stopped && ss[n].now - ss[0].now > debounce + BusyIn(ss, steps, n)
    ensures ss[n].shown >= v
  {
    IdleAndBusy(ss, steps, debounce, n);
    if ss[n].shown < v { WaitIsBounded(ss, steps, debounce, v, n); }
  }

  lemma SuffixRuns(ss: seq<State>, steps: seq<Step>, debounce: real, m: nat)
    requires IsRun(ss, steps, debounce) && m <= |steps|
    ensures IsRun(ss[m..], steps[m..], debounce)
  {
  }

  /** So in any run that from state m on puts nothing off, however fast the caches go
      on changing, a change made by then is shown once a debounce has passed, the time
      spent rebuilding not counted. */
  lemma ShownInTime(ss: seq<State>, steps: seq<Step>, debounce: real, v: nat, m: nat, n: nat)
    requires IsRun(ss, steps, debounce) && Initial(ss[0]) && debounce >= 0.0 && m <= n <= |steps| && v <= ss[m].version
    requires PromptFrom(ss, steps, v, m)
    requires ss[n].phase != Stopped && ss[n].now - ss[m].now > debounce + BusyIn(ss[m..], steps[m..], n - m)
    ensures ss[n].shown >= v
  {
    RunInv(ss, steps, debounce, m);
    SuffixRuns(ss, steps, debounce, m);
    ShownInTimeFromStart(ss[m..], steps[m..], debounce, v, n - m);
  }
}
