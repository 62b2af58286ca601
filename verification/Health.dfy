/** Scoring of single resources (internal/health/health.go). Scores and rates are
    real numbers; how numbers and durations print is a parameter. */
module Health {
  import opened Seqs

  datatype State = Healthy | Degraded | Unhealthy | Unknown

  datatype Result = Result(state: State, score: real, reasons: seq<string>)

  /** fmt's verbs: %d, %.1f, a duration, and a duration rounded to seconds. */
  datatype Texts = Texts(num: int -> string, tenths: real -> string,
                         span: int -> string, rounded: int -> string)

  function StateScore(s: State): real {
    match s
    case Healthy => 1.0
    case Degraded => 0.5
    case Unhealthy => 0.0
    case Unknown => 0.5
  }

  function Bare(s: State): Result { Result(s, StateScore(s), []) }

  function Rank(s: State): int {
    match s
    case Healthy => 0
    case Degraded => 1
    case Unhealthy => 2
    case Unknown => -1
  }

  // --------------------------------------------------------------------- Node

  datatype Status = StatusTrue | StatusFalse | StatusUnknown | StatusOther

  datatype ConditionType = Ready | MemoryPressure | DiskPressure | PIDPressure | NetworkUnavailable | OtherCondition

  datatype Condition = Condition(ctype: ConditionType, status: Status)

  function ConditionText(c: ConditionType): string {
    match c
    case Ready => "Ready"
    case MemoryPressure => "MemoryPressure"
    case DiskPressure => "DiskPressure"
    case PIDPressure => "PIDPressure"
    case NetworkUnavailable => "NetworkUnavailable"
    case OtherCondition => ""
  }

  /** The last Ready condition decides; none means Unknown. */
  function ReadyStatus(cs: seq<Condition>): Status {
    if cs == [] then StatusUnknown
    else
      var last := cs[|cs| - 1];
      if last.ctype == Ready then last.status else ReadyStatus(cs[..|cs| - 1])
  }

  function Pressure(c: Condition): seq<string> {
    if c.status == StatusTrue && c.ctype != Ready && c.ctype != OtherCondition then [ConditionText(c.ctype)] else []
  }

  function NodeResult(cs: seq<Condition>, unschedulable: bool): Result {
    var ready := ReadyStatus(cs);
    var pressures := FlatMap(cs, Pressure);
    if ready == StatusUnknown then Result(Unknown, StateScore(Unknown), ["NodeReady=Unknown (kubelet not reporting)"])
    else if ready != StatusTrue then Result(Unhealthy, 0.0, ["NodeReady=False"] + pressures)
    else
      var reasons := pressures + if unschedulable then ["cordoned (SchedulingDisabled)"] else [];
      if |reasons| > 1 then Result(Degraded, 0.5, reasons)
      else if |reasons| == 1 then Result(Degraded, 0.7, reasons)
      else Bare(Healthy)
  }

  method Node(cs: seq<Condition>, unschedulable: bool) returns (r: Result)
    ensures r == NodeResult(cs, unschedulable)
  {
    var reasons: seq<string> := [];
    var ready, readyStatus := false, StatusUnknown;
    for i := 0 to |cs|
      invariant readyStatus == ReadyStatus(cs[..i]) && reasons == FlatMap(cs[..i], Pressure)
      invariant ready <==> readyStatus == StatusTrue
    {
      var c := cs[i];
      assert cs[..i + 1][..i] == cs[..i];
      match c.ctype
      case Ready =>
        readyStatus := c.status;
        ready := c.status == StatusTrue;
      case MemoryPressure | DiskPressure | PIDPressure =>
        if c.status == StatusTrue { reasons := reasons + [ConditionText(c.ctype)]; }
      case NetworkUnavailable =>
        if c.status == StatusTrue { reasons := reasons + ["NetworkUnavailable"]; }
      case OtherCondition =>
    }
    assert cs[..|cs|] == cs;
    if readyStatus == StatusUnknown {
      return Result(Unknown, StateScore(Unknown), ["NodeReady=Unknown (kubelet not reporting)"]);
    }
    if !ready {
      return Result(Unhealthy, 0.0, ["NodeReady=False"] + reasons);
    }
    if unschedulable {
      reasons := reasons + ["cordoned (SchedulingDisabled)"];
    }
    if |reasons| > 0 {
      var score := 0.7;
      if |reasons| > 1 { score := 0.5; }
      return Result(Degraded, score, reasons);
    }
    return Bare(Healthy);
  }

  // ---------------------------------------------------------------------- Pod

  datatype Terminated = Terminated(exitCode: int, reason: string)

  datatype ContainerStatus = ContainerStatus(name: string, ready: bool, waiting: Option<string>,
                                             terminated: Option<Terminated>, restartCount: int)

  datatype PodPhase = Pending | Running | Succeeded | Failed | OtherPhase(text: string)

  datatype PodStatus = PodStatus(phase: PodPhase, reason: string, containers: seq<ContainerStatus>)

  const WAIT_REASONS_DOWN := {
    "CrashLoopBackOff", "ImagePullBackOff", "ErrImagePull", "CreateContainerConfigError",
    "CreateContainerError", "InvalidImageName", "RunContainerError" }

  predicate IsDown(c: ContainerStatus) {
    c.waiting.Some? && c.waiting.value in WAIT_REASONS_DOWN
  }

  function DownText(c: ContainerStatus): string {
    c.name + ": " + if c.waiting.Some? then c.waiting.value else ""
  }

  predicate IsStartReason(reason: string) {
    reason == "ContainerCreating" || reason == "PodInitializing" || reason == ""
  }

  predicate IsStarting(c: ContainerStatus) {
    c.waiting.Some? && !IsDown(c) && IsStartReason(c.waiting.value)
  }

  /** What a container adds to the reasons of a pod with no hard failure. */
  function Notes(c: ContainerStatus, phase: PodPhase): seq<string> {
    (if c.waiting.Some? && !IsDown(c) && !IsStarting(c) then [c.name + " waiting: " + c.waiting.value] else [])
    + (if c.terminated.Some? && c.terminated.value.exitCode != 0 && phase == Running
       then [c.name + " terminated: " + c.terminated.value.reason] else [])
  }

  function NotesIn(phase: PodPhase): ContainerStatus -> seq<string> {
    c => Notes(c, phase)
  }

  function Unready(c: ContainerStatus): seq<ContainerStatus> {
    if c.ready then [] else [c]
  }

  function StartMark(c: ContainerStatus): seq<ContainerStatus> {
    if IsStarting(c) then [c] else []
  }

  function PodResult(pod: PodStatus, rate: real, t: Texts): Result {
    if pod.phase == Succeeded then Result(Healthy, 1.0, ["Succeeded (terminal)"])
    else if pod.phase == Failed then
      Result(Unhealthy, 0.0, [if pod.reason == "" then "pod Failed" else pod.reason])
    else
      var down := FirstWhere(pod.containers, IsDown);
      if down.Some? then Result(Unhealthy, 0.0, [DownText(down.value)])
      else LivePodResult(pod.phase, FlatMap(pod.containers, NotesIn(pod.phase)),
                         |FlatMap(pod.containers, StartMark)| > 0,
                         |FlatMap(pod.containers, Unready)|, |pod.containers|, rate, t)
  }

  /** The verdict once the containers have been inspected. */
  function LivePodResult(phase: PodPhase, notes: seq<string>, starting: bool,
                         notReady: int, total: int, rate: real, t: Texts): Result
  {
    if phase == Pending || starting then Result(Degraded, 0.4, ["Pending/ContainerCreating"] + notes)
    else if rate >= 1.0 then Result(Unhealthy, 0.2, notes + ["restarting rapidly (" + t.tenths(rate) + "/min)"])
    else
      var reasons := notes + if rate >= 0.2 then ["elevated restarts (" + t.tenths(rate) + "/min)"] else [];
      if phase == Running && notReady == 0 && |reasons| == 0 then Bare(Healthy)
      else if 0 < notReady < total then
        Result(Degraded, 0.5, [t.num(notReady) + "/" + t.num(total) + " containers not ready"] + reasons)
      else if notReady > 0 then Result(Unhealthy, 0.1, ["no containers ready"] + reasons)
      else if |reasons| > 0 then Result(Degraded, 0.6, reasons)
      else Bare(Healthy)
  }

  /** The loop over the container statuses; a hard failure ends it early. */
  method Inspect(cs: seq<ContainerStatus>, phase: PodPhase)
    returns (down: Option<ContainerStatus>, reasons: seq<string>, starting: bool, notReady: nat)
    ensures down == FirstWhere(cs, IsDown)
    ensures down.None? ==>
      && reasons == FlatMap(cs, NotesIn(phase))
      && starting == (|FlatMap(cs, StartMark)| > 0)
      && notReady == |FlatMap(cs, Unready)|
  {
    down, reasons, starting, notReady := None, [], false, 0;
    for i := 0 to |cs|
      invariant forall j :: 0 <= j < i ==> !IsDown(cs[j])
      invariant down.None? && reasons == FlatMap(cs[..i], NotesIn(phase))
      invariant starting <==> |FlatMap(cs[..i], StartMark)| > 0
      invariant notReady == |FlatMap(cs[..i], Unready)|
    {
      var c := cs[i];
      InspectStep(cs, i, phase);
      if !c.ready { notReady := notReady + 1; }
      if c.waiting.Some? {
        if IsDown(c) {
          FirstWhereAt(cs, IsDown, i);
          down := Some(c);
          return;
        }
        if IsStartReason(c.waiting.value) {
          starting := true;
        } else {
          reasons := reasons + [c.name + " waiting: " + c.waiting.value];
        }
      }
      if c.terminated.Some? && c.terminated.value.exitCode != 0 && phase == Running {
        reasons := reasons + [c.name + " terminated: " + c.terminated.value.reason];
      }
    }
    assert cs[..|cs|] == cs;
    FirstWhereAt(cs, IsDown, |cs|);
  }

  /** What the container at i adds. */
  lemma InspectStep(cs: seq<ContainerStatus>, i: nat, phase: PodPhase)
    requires i < |cs|
    ensures FlatMap(cs[..i + 1], NotesIn(phase)) == FlatMap(cs[..i], NotesIn(phase)) + Notes(cs[i], phase)
    ensures |FlatMap(cs[..i + 1], StartMark)| == |FlatMap(cs[..i], StartMark)| + if IsStarting(cs[i]) then 1 else 0
    ensures |FlatMap(cs[..i + 1], Unready)| == |FlatMap(cs[..i], Unready)| + if cs[i].ready then 0 else 1
  {
    FlatMapStep(cs, i, NotesIn(phase));
    FlatMapStep(cs, i, StartMark);
    FlatMapStep(cs, i, Unready);
  }

  method Pod(pod: PodStatus, rate: real, t: Texts) returns (r: Result)
    ensures r == PodResult(pod, rate, t)
  {
    if pod.phase == Succeeded {
      return Result(Healthy, 1.0, ["Succeeded (terminal)"]);
    } else if pod.phase == Failed {
      var reason := pod.reason;
      if reason == "" { reason := "pod Failed"; }
      return Result(Unhealthy, 0.0, [reason]);
    }
    var cs := pod.containers;
    var down, reasons, starting, notReady := Inspect(cs, pod.phase);
    if down.Some? {
      return Result(Unhealthy, 0.0, [DownText(down.value)]);
    }
    if pod.phase == Pending || starting {
      return Result(Degraded, 0.4, ["Pending/ContainerCreating"] + reasons);
    }
    if rate >= 1.0 {
      return Result(Unhealthy, 0.2, reasons + ["restarting rapidly (" + t.tenths(rate) + "/min)"]);
    }
    if rate >= 0.2 {
      reasons := reasons + ["elevated restarts (" + t.tenths(rate) + "/min)"];
    }
    if pod.phase == Running && notReady == 0 && |reasons| == 0 {
      return Bare(Healthy);
    }
    if notReady > 0 && notReady < |cs| {
      return Result(Degraded, 0.5, [t.num(notReady) + "/" + t.num(|cs|) + " containers not ready"] + reasons);
    }
    if notReady > 0 {
      return Result(Unhealthy, 0.1, ["no containers ready"] + reasons);
    }
    if |reasons| > 0 {
      return Result(Degraded, 0.6, reasons);
    }
    return Bare(Healthy);
  }

  // ------------------------------------------------- workloads, storage, services

  function Workload(desired: int, ready: int, available: int, t: Texts): Result {
    if desired == 0 then Result(Healthy, 1.0, ["scaled to 0 (desired)"])
    else
      var eff := if available < ready then available else ready;
      if eff >= desired then Bare(Healthy)
      else
        var reason := t.num(eff) + "/" + t.num(desired) + " ready";
        if eff == 0 then Result(Unhealthy, 0.0, [reason + " (none available)"])
        else Result(Degraded, eff as real / desired as real, [reason])
  }

  datatype PVPhase =
    VolumeBound | VolumeAvailable | VolumeReleased | VolumeFailed | VolumePending | VolumeOther(text: string)

  function PV(phase: PVPhase): Result {
    match phase
    case VolumeBound => Bare(Healthy)
    case VolumeAvailable => Bare(Healthy)
    case VolumeReleased => Result(Degraded, 0.5, ["Released (awaiting reclaim)"])
    case VolumeFailed => Result(Unhealthy, 0.0, ["Failed"])
    case VolumePending => Result(Degraded, 0.4, ["Pending"])
    case VolumeOther(_) => Bare(Unknown)
  }

  datatype PVCPhase = ClaimBound | ClaimLost | ClaimPending | ClaimOther(text: string)

  function PVC(phase: PVCPhase, createdAt: int, now: int, pendingGrace: int, t: Texts): Result {
    match phase
    case ClaimBound => Bare(Healthy)
    case ClaimLost => Result(Unhealthy, 0.0, ["Lost (bound PV gone)"])
    case ClaimPending =>
      var age := now - createdAt;
      if age > pendingGrace then
        Result(Unhealthy, 0.0, ["Pending for " + t.rounded(age) + " (> " + t.span(pendingGrace) + " grace)"])
      else Result(Degraded, 0.5, ["Pending (within grace)"])
    case ClaimOther(_) => Bare(Unknown)
  }

  function Service(hasSelector: bool, readyEndpoints: int): Result {
    if !hasSelector then Result(Unknown, StateScore(Unknown), ["no selector (headless/external)"])
    else if readyEndpoints == 0 then Result(Unhealthy, 0.0, ["0 ready endpoints"])
    else Bare(Healthy)
  }

  // --------------------------------------------------------- NormalizeReasons

  predicate IsSpace(c: char) {
    var n := c as int;
    || 9 <= n <= 13 || n == 32 || n == 0x85 || n == 0xA0 || n == 0x1680 || 0x2000 <= n <= 0x200A
    || n == 0x2028 || n == 0x2029 || n == 0x202F || n == 0x205F || n == 0x3000
  }

  /** strings.TrimSpace. */
  function Trim(s: string): string {
    if s != "" && IsSpace(s[0]) then Trim(s[1..])
    else if s != "" && IsSpace(s[|s| - 1]) then Trim(s[..|s| - 1])
    else s
  }

  /** The non-blank trimmed reasons, each where it first occurs. */
  function Normalized(reasons: seq<string>): (r: seq<string>)
    ensures forall i, j :: 0 <= i < j < |r| ==> r[i] != r[j]
  {
    if reasons == [] then []
    else
      var init, last := Normalized(reasons[..|reasons| - 1]), Trim(reasons[|reasons| - 1]);
      if last == "" || last in init then init else init + [last]
  }

  /** Nothing is lost but blanks and repetitions. */
  lemma {:induction false} NormalizedMembers(reasons: seq<string>, x: string)
    ensures x in Normalized(reasons) <==> x != "" && exists y :: y in reasons && Trim(y) == x
  {
    if reasons != [] {
      var init, last := reasons[..|reasons| - 1], reasons[|reasons| - 1];
      assert reasons == init + [last];
      assert last in reasons;
      NormalizedMembers(init, x);
      NormalizedMembers(init, Trim(last));
    }
  }

  method NormalizeReasons(reasons: seq<string>) returns (out: seq<string>)
    ensures out == Normalized(reasons)
  {
    out := [];
    var seen: set<string> := {};
    for i := 0 to |reasons|
      invariant out == Normalized(reasons[..i]) && forall x :: x in seen <==> x in out
    {
      assert reasons[..i + 1][..i] == reasons[..i];
      var r := Trim(reasons[i]);
      if r == "" || r in seen {
        continue;
      }
      seen := seen + {r};
      out := out + [r];
    }
    assert reasons[..|reasons|] == reasons;
  }

  // --------------------------------------------------------------------- laws

  /** Position i holds the last Ready condition. */
  ghost predicate LastReady(cs: seq<Condition>, i: nat) {
    i < |cs| && cs[i].ctype == Ready && forall j :: i < j < |cs| ==> cs[j].ctype != Ready
  }

  predicate UnderPressure(c: Condition) {
    c.status == StatusTrue && c.ctype != Ready && c.ctype != OtherCondition
  }

  lemma {:induction false} ReadyStatusIsLast(cs: seq<Condition>)
    ensures forall i: nat :: LastReady(cs, i) ==> ReadyStatus(cs) == cs[i].status
    ensures ReadyStatus(cs) != StatusUnknown ==> exists i: nat :: LastReady(cs, i)
  {
    if cs != [] {
      var n := |cs| - 1;
      ReadyStatusIsLast(cs[..n]);
      if cs[n].ctype == Ready {
        assert LastReady(cs, n);
      } else {
        assert forall i: nat :: LastReady(cs[..n], i) ==> LastReady(cs, i);
        assert forall i: nat :: LastReady(cs, i) ==> LastReady(cs[..n], i);
      }
    }
  }

  lemma {:induction false} PressuresCount(cs: seq<Condition>)
    ensures |FlatMap(cs, Pressure)| == 0 <==> forall c :: c in cs ==> !UnderPressure(c)
  {
    if cs != [] {
      assert cs == cs[..|cs| - 1] + [cs[|cs| - 1]];
      assert cs[|cs| - 1] in cs;
      PressuresCount(cs[..|cs| - 1]);
    }
  }

  /** A node with a definite last Ready condition is Unhealthy if that is not
      True, Degraded if under pressure or cordoned, and Healthy otherwise. */
  lemma NodeVerdict(cs: seq<Condition>, unschedulable: bool, i: nat)
    requires LastReady(cs, i)
    ensures var r := NodeResult(cs, unschedulable);
      && (r.state == Unknown <==> cs[i].status == StatusUnknown)
      && (r.state == Unhealthy <==> cs[i].status == StatusFalse || cs[i].status == StatusOther)
      && (r.state == Degraded <==>
            cs[i].status == StatusTrue && (unschedulable || exists c :: c in cs && UnderPressure(c)))
      && (r.state == Healthy <==>
            cs[i].status == StatusTrue && !unschedulable && forall c :: c in cs ==> !UnderPressure(c))
  {
    ReadyStatusIsLast(cs);
    PressuresCount(cs);
  }

  /** What every leaf verdict satisfies. */
  predicate LeafSound(r: Result) {
    && 0.0 <= r.score <= 1.0
    && (r.state == Healthy ==> r.score == 1.0)
    && (r.state == Unhealthy ==> r.score <= 0.2)
  }

  /** Every leaf scorer is sound, a workload exactly for sensible replica counts. */
  lemma LeafScorersSound(cs: seq<Condition>, unschedulable: bool, pod: PodStatus, rate: real, pv: PVPhase,
                         pvc: PVCPhase, createdAt: int, now: int, grace: int, hasSelector: bool, endpoints: int,
                         t: Texts)
    ensures LeafSound(NodeResult(cs, unschedulable)) && LeafSound(PodResult(pod, rate, t))
    ensures LeafSound(PV(pv)) && LeafSound(PVC(pvc, createdAt, now, grace, t))
    ensures LeafSound(Service(hasSelector, endpoints))
  {
    NodeSound(cs, unschedulable);
    PodSound(pod, rate, t);
    StorageSound(pv, pvc, createdAt, now, grace, t);
  }

  lemma NodeSound(cs: seq<Condition>, unschedulable: bool)
    ensures LeafSound(NodeResult(cs, unschedulable))
  {
  }

  lemma PodSound(pod: PodStatus, rate: real, t: Texts)
    ensures LeafSound(PodResult(pod, rate, t))
  {
    LiveSound(pod.phase, FlatMap(pod.containers, NotesIn(pod.phase)), |FlatMap(pod.containers, StartMark)| > 0,
              |FlatMap(pod.containers, Unready)|, |pod.containers|, rate, t);
  }

  lemma LiveSound(phase: PodPhase, notes: seq<string>, starting: bool, notReady: int, total: int, rate: real, t: Texts)
    ensures LeafSound(LivePodResult(phase, notes, starting, notReady, total, rate, t))
  {
  }

  lemma StorageSound(pv: PVPhase, pvc: PVCPhase, createdAt: int, now: int, grace: int, t: Texts)
    ensures LeafSound(PV(pv)) && LeafSound(PVC(pvc, createdAt, now, grace, t))
  {
  }

  function Effective(ready: int, available: int): int {
    if available < ready then available else ready
  }

  lemma WorkloadSoundIff(desired: int, ready: int, available: int, t: Texts)
    ensures LeafSound(Workload(desired, ready, available, t))
            <==> desired == 0 || Effective(ready, available) >= desired || Effective(ready, available) >= 0
  {
    var eff := Effective(ready, available);
    if desired != 0 && eff < desired && eff != 0 {
      QuotientBounds(eff as real, desired as real);
    }
  }

  lemma QuotientBounds(x: real, d: real)
    requires d != 0.0 && x < d && x != 0.0
    ensures 0.0 <= x / d <= 1.0 <==> x >= 0.0
  {
    var q := x / d;
    assert q * d == x;
    if x >= 0.0 {
      if q < 0.0 { NegativeProduct(q, d); }
      if q > 1.0 { ProductGrows(q, d); }
    } else if d > 0.0 {
      if q >= 0.0 { NonNegativeProduct(q, d); }
    } else if q <= 1.0 {
      ProductGrows(q, d);
    }
  }

  lemma NegativeProduct(q: real, d: real)
    requires q < 0.0 && d > 0.0
    ensures q * d < 0.0
  {
  }

  lemma NonNegativeProduct(q: real, d: real)
    requires q >= 0.0 && d > 0.0
    ensures q * d >= 0.0
  {
  }

  lemma ProductGrows(q: real, d: real)
    ensures d > 0.0 && q > 1.0 ==> q * d > d
    ensures d < 0.0 && q <= 1.0 ==> q * d >= d
  {
    assert (q - 1.0) * d == q * d - d;
    if d > 0.0 && q > 1.0 { assert (q - 1.0) * d > 0.0; }
    if d < 0.0 && q <= 1.0 { assert (q - 1.0) * d >= 0.0; }
  }

  /** Container order does not reach the verdict, in spite of the early return. */
  lemma PodOrderBlind(pod: PodStatus, cs: seq<ContainerStatus>, rate: real, t: Texts)
    requires Permuted(pod.containers, cs)
    ensures var r, r' := PodResult(pod, rate, t), PodResult(pod.(containers := cs), rate, t);
      r.state == r'.state && r.score == r'.score
  {
    FlatMapPermuted(pod.containers, cs, NotesIn(pod.phase));
    FlatMapPermuted(pod.containers, cs, StartMark);
    FlatMapPermuted(pod.containers, cs, Unready);
    SameSize(FlatMap(pod.containers, NotesIn(pod.phase)), FlatMap(cs, NotesIn(pod.phase)));
    SameSize(FlatMap(pod.containers, StartMark), FlatMap(cs, StartMark));
    SameSize(FlatMap(pod.containers, Unready), FlatMap(cs, Unready));
    SameSize(pod.containers, cs);
    FirstWherePermuted(pod.containers, cs, IsDown);
    if FirstWhere(cs, IsDown).None? {
      LiveVerdict(pod.phase, FlatMap(pod.containers, NotesIn(pod.phase)), FlatMap(cs, NotesIn(pod.phase)),
                  |FlatMap(cs, StartMark)| > 0, |FlatMap(cs, Unready)|, |cs|, rate, t);
    }
  }

  lemma FirstWherePermuted(xs: seq<ContainerStatus>, ys: seq<ContainerStatus>, p: ContainerStatus -> bool)
    requires Permuted(xs, ys)
    ensures FirstWhere(xs, p).Some? == FirstWhere(ys, p).Some?
  {
    PermutedMembers(xs, ys);
    FirstWhereExists(xs, p);
    FirstWhereExists(ys, p);
  }

  /** Only the number of notes matters to the state and the score. */
  lemma LiveVerdict(phase: PodPhase, notes: seq<string>, notes': seq<string>, starting: bool,
                    notReady: int, total: int, rate: real, t: Texts)
    requires |notes| == |notes'|
    ensures var r, r' := LivePodResult(phase, notes, starting, notReady, total, rate, t),
                         LivePodResult(phase, notes', starting, notReady, total, rate, t);
      r.state == r'.state && r.score == r'.score
  {
  }

  lemma {:induction false} UnreadyCount(cs: seq<ContainerStatus>)
    ensures |FlatMap(cs, Unready)| <= |cs|
    ensures |FlatMap(cs, Unready)| == |cs| <==> forall c :: c in cs ==> !c.ready
  {
    if cs != [] {
      var init, last := cs[..|cs| - 1], cs[|cs| - 1];
      assert cs == init + [last] && last in cs;
      UnreadyCount(init);
    }
  }

  predicate NoneReady(cs: seq<ContainerStatus>) {
    cs != [] && forall c :: c in cs ==> !c.ready
  }

  /** What a container shows when nothing is wrong with it. */
  predicate AtEase(c: ContainerStatus, phase: PodPhase) {
    c.ready && c.waiting.None? && !(c.terminated.Some? && c.terminated.value.exitCode != 0 && phase == Running)
  }

  predicate StartingUp(pod: PodStatus) {
    pod.phase == Pending || exists c :: c in pod.containers && IsStarting(c)
  }

  /** A pod that has not ended is Unhealthy exactly when a container is down or,
      once started, it restarts every minute or has no container ready; and
      Healthy exactly when it has started, restarts less than once in five
      minutes and every container is at ease. */
  lemma PodVerdict(pod: PodStatus, rate: real, t: Texts)
    requires pod.phase != Succeeded && pod.phase != Failed
    ensures var r, down := PodResult(pod, rate, t), exists c :: c in pod.containers && IsDown(c);
      && (r.state == Unhealthy <==> down || (!StartingUp(pod) && (rate >= 1.0 || NoneReady(pod.containers))))
      && (r.state == Healthy <==>
            !down && !StartingUp(pod) && rate < 0.2 && forall c :: c in pod.containers ==> AtEase(c, pod.phase))
      && r.state != Unknown
  {
    var cs := pod.containers;
    FirstWhereExists(cs, IsDown);
    FlatMapEmptyIff(cs, StartMark);
    FlatMapEmptyIff(cs, Unready);
    FlatMapEmptyIff(cs, NotesIn(pod.phase));
    UnreadyCount(cs);
    if FirstWhere(cs, IsDown).None? {
      EaseIff(cs, pod.phase);
      LiveState(pod.phase, FlatMap(cs, NotesIn(pod.phase)), |FlatMap(cs, StartMark)| > 0, |FlatMap(cs, Unready)|, |cs|,
                rate, t);
    }
  }

  lemma EaseIff(cs: seq<ContainerStatus>, phase: PodPhase)
    requires forall c :: c in cs ==> !IsDown(c)
    ensures (forall c :: c in cs ==> AtEase(c, phase))
            <==> forall c :: c in cs ==> Unready(c) == [] && Notes(c, phase) == [] && !IsStarting(c)
  {
    forall c | c in cs ensures AtEase(c, phase) <==> Unready(c) == [] && Notes(c, phase) == [] && !IsStarting(c) {}
  }

  lemma LiveState(phase: PodPhase, notes: seq<string>, starting: bool, notReady: nat, total: nat, rate: real, t: Texts)
    requires notReady <= total
    ensures var s, early := LivePodResult(phase, notes, starting, notReady, total, rate, t).state,
                            phase == Pending || starting;
      && (s == Unhealthy <==> !early && (rate >= 1.0 || (notReady == total && total > 0)))
      && (s == Healthy <==> !early && rate < 0.2 && notReady == 0 && notes == [])
      && s != Unknown
  {
  }

  /** One container that is down fails a pod outright unless it has ended. */
  lemma HardFailureFails(pod: PodStatus, rate: real, t: Texts)
    requires pod.phase != Succeeded && exists c :: c in pod.containers && IsDown(c)
    ensures PodResult(pod, rate, t).state == Unhealthy && PodResult(pod, rate, t).score == 0.0
  {
    FirstWhereExists(pod.containers, IsDown);
  }

  /** Severity never falls as the restart rate rises. */
  lemma SeverityRisesWithRate(pod: PodStatus, rate: real, rate': real, t: Texts)
    requires rate <= rate'
    ensures Rank(PodResult(pod, rate, t).state) <= Rank(PodResult(pod, rate', t).state)
  {
    RatedResult(pod, rate, t);
    RatedResult(pod, rate', t);
  }

  lemma RatedResult(pod: PodStatus, rate: real, t: Texts)
    ensures var r := PodResult(pod, rate, t);
      if pod.phase == Succeeded || pod.phase == Failed || FirstWhere(pod.containers, IsDown).Some?
         || pod.phase == Pending || |FlatMap(pod.containers, StartMark)| > 0
      then r.state == PodResult(pod, 0.0, t).state
      else if rate >= 1.0 then r.state == Unhealthy
      else r.state == PodResult(pod, 0.0, t).state
           || (rate >= 0.2 && PodResult(pod, 0.0, t).state == Healthy && r.state == Degraded)
  {
  }

  function ScoreAt(pod: PodStatus, rate: real, t: Texts): real { PodResult(pod, rate, t).score }

  /** The score never rises with the restart rate. */
  ghost predicate ScoreFalls(pod: PodStatus, t: Texts) {
    forall rate, rate' :: rate <= rate' ==> ScoreAt(pod, rate', t) <= ScoreAt(pod, rate, t)
  }

  /** The rate has no say: the pod has ended, is starting or has a container down. */
  predicate RateBlind(pod: PodStatus) {
    || pod.phase == Succeeded || pod.phase == Failed || StartingUp(pod)
    || exists c :: c in pod.containers && IsDown(c)
  }

  /** Both rates are too low to be mentioned, or are on one side of each threshold
      and print alike. */
  predicate PrintAlike(rate: real, rate': real, t: Texts) {
    || (rate < 0.2 && rate' < 0.2)
    || (rate >= 0.2 && rate' >= 0.2 && (rate >= 1.0 <==> rate' >= 1.0) && t.tenths(rate) == t.tenths(rate'))
  }

  /** Such rates leave the same trace in the verdict, reasons included, and to some
      pods they do not matter at all. */
  lemma AlikeRatesAgree(pod: PodStatus, rate: real, rate': real, t: Texts)
    requires RateBlind(pod) || PrintAlike(rate, rate', t)
    ensures PodResult(pod, rate, t) == PodResult(pod, rate', t)
  {
    FirstWhereExists(pod.containers, IsDown);
    FlatMapEmptyIff(pod.containers, StartMark);
  }

  /** The score is monotone in the rate exactly for pods to which the rate does
      not matter or that have a container ready, or none at all. */
  lemma ScoreFallsIff(pod: PodStatus, t: Texts)
    ensures ScoreFalls(pod, t) <==> RateBlind(pod) || !NoneReady(pod.containers)
  {
    var cs := pod.containers;
    FirstWhereExists(cs, IsDown);
    FlatMapEmptyIff(cs, StartMark);
    UnreadyCount(cs);
    var notes, notReady := FlatMap(cs, NotesIn(pod.phase)), |FlatMap(cs, Unready)|;
    if RateBlind(pod) {
    } else if NoneReady(cs) {
      LiveScore(pod.phase, notes, notReady, |cs|, 0.0, 1.0, t);
      assert ScoreAt(pod, 0.0, t) < ScoreAt(pod, 1.0, t);
    } else {
      forall rate, rate' | rate <= rate' ensures ScoreAt(pod, rate', t) <= ScoreAt(pod, rate, t) {
        LiveScore(pod.phase, notes, notReady, |cs|, rate, rate', t);
      }
    }
  }

  lemma LiveScore(phase: PodPhase, notes: seq<string>, notReady: nat, total: nat, rate: real, rate': real, t: Texts)
    requires phase != Pending && notReady <= total && rate <= rate'
    ensures var x, x' := LivePodResult(phase, notes, false, notReady, total, rate, t).score,
                         LivePodResult(phase, notes, false, notReady, total, rate', t).score;
      if notReady == total > 0 then (x == if rate >= 1.0 then 0.2 else 0.1) && (x' == if rate' >= 1.0 then 0.2 else 0.1)
      else x' <= x
  {
  }

  /** The score is not monotone: with no container ready it rises from 0.1 to 0.2. */
  lemma ScoreRisesWithRate(t: Texts) returns (pod: PodStatus)
    ensures PodResult(pod, 0.0, t).score < PodResult(pod, 1.0, t).score
  {
    var c := ContainerStatus("c", false, None, None, 0);
    pod := PodStatus(Running, "", [c]);
    FlatMapOne(c, Unready);
    FlatMapOne(c, StartMark);
    FlatMapOne(c, NotesIn(Running));
    FirstWhereAt(pod.containers, IsDown, 1);
  }
}
