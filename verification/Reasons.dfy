/** What the reasons shown for a pod or a claim tell of its restart rate or age
    (internal/health/health.go, NormalizeReasons and the scorers). */
module Reasons {
  import opened Seqs
  import opened Health

  // ------------------------------------------------------------------- trimming

  lemma TrimKeeps(s: string)
    requires s != "" && !IsSpace(s[0]) && !IsSpace(s[|s| - 1])
    ensures Trim(s) == s && Normalized([s]) == [s]
  {
    assert [s][..0] == [];
  }

  /** What stands between two characters that are no spaces stays. */
  lemma {:induction false} TrimPrefix(s: string, k: nat)
    requires k < |s| && !IsSpace(s[0]) && !IsSpace(s[k])
    ensures |Trim(s)| > k && Trim(s)[..k + 1] == s[..k + 1]
    decreases |s|
  {
    if IsSpace(s[|s| - 1]) {
      TrimPrefix(s[..|s| - 1], k);
      assert s[..|s| - 1][..k + 1] == s[..k + 1];
    }
  }

  lemma {:induction false} TrimLast(s: string)
    requires s != "" && !IsSpace(s[|s| - 1])
    ensures Trim(s) != "" && Trim(s)[|Trim(s)| - 1] == s[|s| - 1]
  {
    if IsSpace(s[0]) { TrimLast(s[1..]); }
  }

  lemma SameMiddle(a: string, m: string, m': string, b: string)
    ensures a + m + b == a + m' + b ==> m == m'
  {
    var s, s' := a + m + b, a + m' + b;
    assert s[|a|..|s| - |b|] == m && s'[|a|..|s'| - |b|] == m';
  }

  lemma EnclosedEnds(a: string, m: string, b: string)
    requires a != "" && b != ""
    ensures var s := a + m + b; s != "" && s[0] == a[0] && s[|s| - 1] == b[|b| - 1]
  {
  }

  /** One more reason that is new. */
  lemma NewReason(reasons: seq<string>, s: string)
    requires Trim(s) == s != "" && s !in Normalized(reasons)
    ensures Normalized(reasons + [s]) == Normalized(reasons) + [s]
  {
    assert (reasons + [s])[..|reasons|] == reasons;
  }

  // ------------------------------------------------------------------- the rate

  function RateText(rate: real, t: Texts): string {
    (if rate >= 1.0 then "restarting rapidly (" else "elevated restarts (") + t.tenths(rate) + "/min)"
  }

  lemma RateTextTrimmed(rate: real, t: Texts)
    ensures Trim(RateText(rate, t)) == RateText(rate, t) != ""
  {
    EnclosedEnds(if rate >= 1.0 then "restarting rapidly (" else "elevated restarts (", t.tenths(rate), "/min)");
    TrimKeeps(RateText(rate, t));
  }

  lemma RateTextTells(rate: real, rate': real, t: Texts)
    requires (rate >= 1.0 <==> rate' >= 1.0) && RateText(rate, t) == RateText(rate', t)
    ensures t.tenths(rate) == t.tenths(rate')
  {
    SameMiddle(if rate >= 1.0 then "restarting rapidly (" else "elevated restarts (", t.tenths(rate), t.tenths(rate'),
               "/min)");
  }

  /** A name as Kubernetes admits it for a container: no spaces in it. */
  predicate Plain(name: string) {
    name != "" && forall i :: 0 <= i < |name| ==> !IsSpace(name[i])
  }

  /** Where the second word of a rate's reason starts. */
  lemma SecondWord(rate: real, t: Texts, k: nat)
    requires k + 1 < |RateText(rate, t)| && RateText(rate, t)[k] == ' '
    requires forall i :: 0 <= i < k ==> RateText(rate, t)[i] != ' '
    ensures RateText(rate, t)[k + 1] == 'r'
  {
    var s := RateText(rate, t);
    if rate >= 1.0 {
      assert s[10] == ' ' && s[11] == 'r';
      assert forall i :: 0 <= i < 10 ==> s[i] == "restarting"[i];
    } else {
      assert s[8] == ' ' && s[9] == 'r';
      assert forall i :: 0 <= i < 8 ==> s[i] == "elevated"[i];
    }
  }

  lemma SamePrefix(a: string, b: string, k: nat)
    requires k < |a| && k < |b| && a[..k + 1] == b[..k + 1]
    ensures forall i :: 0 <= i <= k ==> a[i] == b[i]
  {
    forall i | 0 <= i <= k ensures a[i] == b[i] { assert a[i] == a[..k + 1][i] && b[i] == b[..k + 1][i]; }
  }

  /** A container's note is never taken for it: its second word is another. */
  lemma NoteIsNoRate(name: string, rest: string, rate: real, t: Texts)
    requires Plain(name) && |rest| >= 2 && rest[0] == ' ' && (rest[1] == 'w' || rest[1] == 't')
    ensures Trim(name + rest) != RateText(rate, t)
  {
    var s, k := name + rest, |name|;
    TrimPrefix(s, k + 1);
    if Trim(s) == RateText(rate, t) {
      SamePrefix(RateText(rate, t), s, k + 1);
      SecondWord(rate, t, k);
    }
  }

  lemma NotesAreNoRate(c: ContainerStatus, phase: PodPhase, x: string, rate: real, t: Texts)
    requires Plain(c.name) && x in Notes(c, phase)
    ensures Trim(x) != RateText(rate, t)
  {
    if c.waiting.Some? && x == c.name + " waiting: " + c.waiting.value {
      assert x == c.name + (" waiting: " + c.waiting.value);
      NoteIsNoRate(c.name, " waiting: " + c.waiting.value, rate, t);
    } else {
      assert x == c.name + (" terminated: " + c.terminated.value.reason);
      NoteIsNoRate(c.name, " terminated: " + c.terminated.value.reason, rate, t);
    }
  }

  /** Nor is a count of unready containers: it ends otherwise. */
  lemma CountIsNoRate(s: string, rate: real, t: Texts)
    requires s != "" && s[|s| - 1] == 'y'
    ensures Trim(s) != RateText(rate, t)
  {
    TrimLast(s);
    EnclosedEnds(if rate >= 1.0 then "restarting rapidly (" else "elevated restarts (", t.tenths(rate), "/min)");
  }

  ghost predicate NoRateAmong(reasons: seq<string>, t: Texts) {
    forall x, rate :: x in reasons ==> Trim(x) != RateText(rate, t)
  }

  lemma RateIsNew(reasons: seq<string>, rate: real, t: Texts)
    requires NoRateAmong(reasons, t)
    ensures Normalized(reasons + [RateText(rate, t)]) == Normalized(reasons) + [RateText(rate, t)]
  {
    RateTextTrimmed(rate, t);
    NormalizedMembers(reasons, RateText(rate, t));
    NewReason(reasons, RateText(rate, t));
  }

  lemma ContainersTellNoRate(cs: seq<ContainerStatus>, phase: PodPhase, t: Texts)
    requires forall c :: c in cs ==> Plain(c.name)
    ensures NoRateAmong(FlatMap(cs, NotesIn(phase)), t)
  {
    forall x, rate | x in FlatMap(cs, NotesIn(phase)) ensures Trim(x) != RateText(rate, t) {
      var c := FromFlatMap(cs, NotesIn(phase), x);
      NotesAreNoRate(c, phase, x, rate, t);
    }
  }

  /** What comes before the rate's reason below the upper threshold. */
  function Before(notes: seq<string>, notReady: int, total: int, t: Texts): seq<string> {
    (if 0 < notReady < total then [t.num(notReady) + "/" + t.num(total) + " containers not ready"]
     else if notReady > 0 then ["no containers ready"] else []) + notes
  }

  lemma BeforeTellsNoRate(notes: seq<string>, notReady: int, total: int, t: Texts)
    requires NoRateAmong(notes, t)
    ensures NoRateAmong(Before(notes, notReady, total, t), t)
  {
    forall x, rate | x in Before(notes, notReady, total, t) ensures Trim(x) != RateText(rate, t) {
      if x !in notes { CountIsNoRate(x, rate, t); }
    }
  }

  lemma LiveReasons(phase: PodPhase, notes: seq<string>, notReady: int, total: int, rate: real, t: Texts)
    requires phase != Pending
    ensures var r := LivePodResult(phase, notes, false, notReady, total, rate, t);
      && (r.score == 0.2 <==> rate >= 1.0)
      && r.reasons == if rate >= 1.0 then notes + [RateText(rate, t)]
                      else if rate >= 0.2 then Before(notes, notReady, total, t) + [RateText(rate, t)]
                      else Before(notes, notReady, total, t)
  {
  }

  /** So score and shown reasons tell rates apart that do not print alike. */
  lemma LiveTells(phase: PodPhase, notes: seq<string>, notReady: int, total: int, rate: real, rate': real, t: Texts)
    requires phase != Pending && NoRateAmong(notes, t)
    requires var r, r' := LivePodResult(phase, notes, false, notReady, total, rate, t),
                          LivePodResult(phase, notes, false, notReady, total, rate', t);
      r.score == r'.score && Normalized(r.reasons) == Normalized(r'.reasons)
    ensures PrintAlike(rate, rate', t)
  {
    LiveReasons(phase, notes, notReady, total, rate, t);
    LiveReasons(phase, notes, notReady, total, rate', t);
    BeforeTellsNoRate(notes, notReady, total, t);
    var shown := if rate >= 1.0 then notes else Before(notes, notReady, total, t);
    RateIsNew(shown, rate, t);
    RateIsNew(shown, rate', t);
    if rate >= 0.2 && rate' >= 0.2 {
      assert Normalized(shown) + [RateText(rate, t)] == Normalized(shown) + [RateText(rate', t)];
      assert (Normalized(shown) + [RateText(rate, t)])[|Normalized(shown)|] == RateText(rate, t);
      RateTextTells(rate, rate', t);
    }
  }

  /** For pods whose containers have names as Kubernetes admits them, two rates give
      the same shown verdict if and only if they do not matter or print alike. */
  lemma ShownVerdictIff(pod: PodStatus, rate: real, rate': real, t: Texts)
    requires forall c :: c in pod.containers ==> Plain(c.name)
    ensures var r, r' := PodResult(pod, rate, t), PodResult(pod, rate', t);
      r.state == r'.state && r.score == r'.score && Normalized(r.reasons) == Normalized(r'.reasons)
      <==> RateBlind(pod) || PrintAlike(rate, rate', t)
  {
    var cs, r, r' := pod.containers, PodResult(pod, rate, t), PodResult(pod, rate', t);
    if RateBlind(pod) || PrintAlike(rate, rate', t) {
      AlikeRatesAgree(pod, rate, rate', t);
    } else if r.score == r'.score && Normalized(r.reasons) == Normalized(r'.reasons) {
      FirstWhereExists(cs, IsDown);
      FlatMapEmptyIff(cs, StartMark);
      ContainersTellNoRate(cs, pod.phase, t);
      LiveTells(pod.phase, FlatMap(cs, NotesIn(pod.phase)), |FlatMap(cs, Unready)|, |cs|, rate, rate', t);
    }
  }
}
