/** Rolling children up into one verdict (internal/health/health.go, Aggregate
    and topReasons), and the laws the dashboard relies on. */
module Rollup {
  import opened Seqs
  import opened Order
  import opened Health

  // --------------------------------------------------------------- topReasons

  type Counts = map<string, nat>

  function Count(m: Counts, k: string): nat { if k in m then m[k] else 0 }

  /** How often each string occurs. */
  function CountsOf(xs: seq<string>): Counts {
    map k | k in xs :: multiset(xs)[k]
  }

  /** Higher counts first, then names in ascending order. */
  predicate Precedes(m: Counts, a: string, b: string) {
    Count(m, a) > Count(m, b) || (Count(m, a) == Count(m, b) && Less(a, b))
  }

  function ByCount(m: Counts): (string, string) -> bool {
    (a, b) => Precedes(m, a, b)
  }

  lemma ByCountIsStrictOrder(m: Counts)
    ensures StrictOrder(ByCount(m))
  {
    forall a, b | Precedes(m, a, b) ensures !Precedes(m, b, a) { LessTotal(a, b); }
    forall a, b, c | Precedes(m, a, b) && Precedes(m, b, c) ensures Precedes(m, a, c) {
      if Count(m, a) == Count(m, b) == Count(m, c) { LessTransitive(a, b, c); }
    }
  }

  lemma SortByCountRanks(m: Counts, list: seq<string>)
    requires NoRepeats(list) && forall k :: k in list <==> k in m
    ensures IsRanking(m, SortBy(list, ByCount(m)))
  {
    ByCountIsStrictOrder(m);
    forall i, j | 0 <= i < j < |list| ensures Precedes(m, list[i], list[j]) || Precedes(m, list[j], list[i]) {
      LessTotal(list[i], list[j]);
    }
    SortBySorts(list, ByCount(m));
  }

  /** list is the keys of m, most frequent first. */
  ghost predicate IsRanking(m: Counts, list: seq<string>) {
    Ascending(list, ByCount(m)) && forall k :: k in list <==> k in m
  }

  /** Whatever order the map iterates in, there is one ranking. */
  lemma RankingUnique(m: Counts, a: seq<string>, b: seq<string>)
    requires IsRanking(m, a) && IsRanking(m, b)
    ensures a == b
  {
    ByCountIsStrictOrder(m);
    AscendingUnique(a, b, ByCount(m));
  }

  ghost function Listed(keys: set<string>): (r: seq<string>)
    ensures NoRepeats(r) && forall k :: k in r <==> k in keys
  {
    if keys == {} then []
    else
      var k :| k in keys;
      [k] + Listed(keys - {k})
  }

  ghost function Ranking(m: Counts): (r: seq<string>)
    ensures IsRanking(m, r)
  {
    SortByCountRanks(m, Listed(m.Keys));
    SortBy(Listed(m.Keys), ByCount(m))
  }

  function Entry(m: Counts, k: string, t: Texts): string {
    if Count(m, k) > 1 then k + " (x" + t.num(Count(m, k)) + ")" else k
  }

  function Take<T>(xs: seq<T>, n: nat): seq<T> {
    if n < |xs| then xs[..n] else xs
  }

  ghost function TopReasonsOf(m: Counts, limit: nat, t: Texts): seq<string> {
    Map(Take(Ranking(m), limit), k => Entry(m, k, t))
  }

  /** The map's keys, in an iteration order of its own choosing. */
  method KeysOf(counts: Counts) returns (list: seq<string>)
    ensures NoRepeats(list) && forall k :: k in list <==> k in counts
  {
    list := [];
    var rest := counts.Keys;
    while rest != {}
      invariant rest <= counts.Keys && NoRepeats(list)
      invariant forall k :: k in list <==> k in counts && k !in rest
      decreases |rest|
    {
      var k :| k in rest;
      list, rest := list + [k], rest - {k};
    }
  }

  method Rendered(counts: Counts, list: seq<string>, limit: nat, t: Texts) returns (out: seq<string>)
    ensures out == Map(Take(list, limit), k => Entry(counts, k, t))
  {
    out := [];
    var i := 0;
    while i < |list| && i < limit
      invariant i <= |list| && i <= limit && |out| == i
      invariant forall j :: 0 <= j < i ==> out[j] == Entry(counts, list[j], t)
    {
      if Count(counts, list[i]) > 1 {
        out := out + [list[i] + " (x" + t.num(Count(counts, list[i])) + ")"];
      } else {
        out := out + [list[i]];
      }
      i := i + 1;
    }
  }

  method TopReasons(counts: Counts, limit: nat, t: Texts) returns (out: seq<string>)
    ensures out == TopReasonsOf(counts, limit, t)
  {
    if |counts| == 0 {
      NoMembers(Ranking(counts));
      return [];
    }
    var list := KeysOf(counts);
    SortByCountRanks(counts, list);
    list := SortBy(list, ByCount(counts));
    RankingUnique(counts, list, Ranking(counts));
    out := Rendered(counts, list, limit, t);
  }

  // ---------------------------------------------------------------- Aggregate

  predicate IsScored(r: Result) { r.state != Unknown }

  /** The children that take part. */
  function Scored(children: seq<Result>): seq<Result> {
    Filter(children, IsScored)
  }

  function Sum(rs: seq<Result>): real {
    if rs == [] then 0.0 else Sum(rs[..|rs| - 1]) + rs[|rs| - 1].score
  }

  /** The most severe state present. */
  function Worst(rs: seq<Result>): State {
    if rs == [] then Healthy
    else
      var w, last := Worst(rs[..|rs| - 1]), rs[|rs| - 1].state;
      if Rank(last) > Rank(w) then last else w
  }

  function Complaints(r: Result): seq<string> {
    if r.state == Healthy then [] else r.reasons
  }

  function Mean(rs: seq<Result>): real
    requires rs != []
  {
    Sum(rs) / |rs| as real
  }

  const PASS := 0.99

  function StateFor(mean: real, worst: State): State {
    if mean >= PASS then Healthy else if worst == Healthy then Degraded else worst
  }

  ghost function AggregateOf(children: seq<Result>, t: Texts): Result {
    var rs := Scored(children);
    if rs == [] then Bare(Unknown)
    else
      var mean := Mean(rs);
      Result(StateFor(mean, Worst(rs)), mean, TopReasonsOf(CountsOf(FlatMap(rs, Complaints)), 5, t))
  }

  lemma ScoredStep(children: seq<Result>, i: nat)
    requires i < |children|
    ensures Scored(children[..i + 1])
            == if IsScored(children[i]) then Scored(children[..i]) + [children[i]] else Scored(children[..i])
  {
    assert children[..i + 1][..i] == children[..i];
  }

  lemma CountsStep(xs: seq<string>, k: string)
    ensures CountsOf(xs + [k]) == CountsOf(xs)[k := Count(CountsOf(xs), k) + 1]
  {
  }

  /** What the loop has made of these scored children. */
  ghost predicate Tallied(rs: seq<Result>, sum: real, n: nat, worst: State, reasons: Counts) {
    sum == Sum(rs) && n == |rs| && worst == Worst(rs) && reasons == CountsOf(FlatMap(rs, Complaints))
  }

  lemma TallyOne(rs: seq<Result>, c: Result, sum: real, n: nat, worst: State, worst': State, reasons: Counts,
                 reasons': Counts)
    requires Tallied(rs, sum, n, worst, reasons)
    requires worst' == if Rank(c.state) > Rank(worst) then c.state else worst
    requires reasons' == if c.state != Healthy then CountsOf(FlatMap(rs, Complaints) + c.reasons) else reasons
    ensures Tallied(rs + [c], sum + c.score, n + 1, worst', reasons')
  {
    assert (rs + [c])[..|rs|] == rs;
    NoneAdded(FlatMap(rs, Complaints));
  }

  method CountAll(counts: Counts, ghost before: seq<string>, reasons: seq<string>) returns (r: Counts)
    requires counts == CountsOf(before)
    ensures r == CountsOf(before + reasons)
  {
    r := counts;
    assert before + reasons[..0] == before;
    for j := 0 to |reasons|
      invariant r == CountsOf(before + reasons[..j])
    {
      CountsStep(before + reasons[..j], reasons[j]);
      assert before + reasons[..j + 1] == before + reasons[..j] + [reasons[j]];
      r := r[reasons[j] := Count(r, reasons[j]) + 1];
    }
    assert reasons[..|reasons|] == reasons;
  }

  lemma NoneAdded(xs: seq<string>)
    ensures xs + [] == xs
  {
  }

  /** Aggregate's loop over the children. */
  method Tally(children: seq<Result>) returns (sum: real, n: nat, worst: State, reasons: Counts)
    ensures var rs := Scored(children);
      sum == Sum(rs) && n == |rs| && worst == Worst(rs) && reasons == CountsOf(FlatMap(rs, Complaints))
  {
    sum, n, worst, reasons := 0.0, 0, Healthy, map[];
    var worstRank := Rank(Healthy);
    for i := 0 to |children|
      invariant Tallied(Scored(children[..i]), sum, n, worst, reasons) && worstRank == Rank(worst)
    {
      var c := children[i];
      ghost var rs := Scored(children[..i]);
      ScoredStep(children, i);
      if c.state == Unknown {
        continue;
      }
      ghost var was, counted, total := worst, reasons, sum;
      sum, n := sum + c.score, n + 1;
      if Rank(c.state) > worstRank {
        worstRank, worst := Rank(c.state), c.state;
      }
      if c.state != Healthy {
        reasons := CountAll(reasons, FlatMap(rs, Complaints), c.reasons);
      }
      TallyOne(rs, c, total, n - 1, was, worst, counted, reasons);
    }
    assert children[..|children|] == children;
  }

  method Aggregate(children: seq<Result>, t: Texts) returns (r: Result)
    ensures r == AggregateOf(children, t)
  {
    var sum, n, worst, reasons := Tally(children);
    if n == 0 {
      return Bare(Unknown);
    }
    var mean := sum / n as real;
    var state := worst;
    if mean >= PASS {
      state := Healthy;
    } else if state == Healthy {
      state := Degraded;
    }
    var top := TopReasons(reasons, 5, t);
    return Result(state, mean, top);
  }

  // ---------------------------------------------------------- order blindness

  function Self(r: Result): seq<Result> {
    if IsScored(r) then [r] else []
  }

  lemma {:induction false} ScoredIsFlatMap(children: seq<Result>)
    ensures Scored(children) == FlatMap(children, Self)
  {
    if children != [] { ScoredIsFlatMap(children[..|children| - 1]); }
  }

  lemma {:induction false} SumConcat(a: seq<Result>, b: seq<Result>)
    ensures Sum(a + b) == Sum(a) + Sum(b)
    decreases |b|
  {
    if b == [] {
      assert a + b == a;
    } else {
      SumConcat(a, b[..|b| - 1]);
      assert (a + b)[..|a + b| - 1] == a + b[..|b| - 1];
    }
  }

  lemma SumOne(r: Result)
    ensures Sum([r]) == r.score
  {
    assert [r][..0] == [];
  }

  lemma {:induction false} SumPermuted(xs: seq<Result>, ys: seq<Result>)
    requires Permuted(xs, ys)
    ensures Sum(xs) == Sum(ys)
    decreases |xs|
  {
    if xs == [] {
      PermutedMembers(xs, ys);
    } else {
      var i := PermutedHead(xs, ys);
      SumPermuted(xs[1..], ys[..i] + ys[i + 1..]);
      SumConcat([xs[0]], xs[1..]);
      SumConcat(ys[..i], ys[i + 1..]);
      SumConcat(ys[..i], [ys[i]] + ys[i + 1..]);
      SumConcat([ys[i]], ys[i + 1..]);
      SumOne(xs[0]);
      assert xs == [xs[0]] + xs[1..] && ys == ys[..i] + ([ys[i]] + ys[i + 1..]);
    }
  }

  /** Worst is present unless nothing is worse than Healthy, and bounds all. */
  lemma {:induction false} WorstIsWorst(rs: seq<Result>)
    ensures forall r :: r in rs ==> Rank(r.state) <= Rank(Worst(rs))
    ensures Worst(rs) == Healthy || exists r :: r in rs && r.state == Worst(rs)
    ensures Rank(Worst(rs)) >= 0
  {
    if rs != [] {
      var init, last := rs[..|rs| - 1], rs[|rs| - 1];
      WorstIsWorst(init);
      assert rs == init + [last];
      assert last in rs;
    }
  }

  lemma WorstOfMembers(xs: seq<Result>, ys: seq<Result>)
    requires forall r :: r in xs ==> r in ys
    ensures Rank(Worst(xs)) <= Rank(Worst(ys))
  {
    WorstIsWorst(xs);
    WorstIsWorst(ys);
  }

  lemma CountsPermuted(xs: seq<string>, ys: seq<string>)
    requires Permuted(xs, ys)
    ensures CountsOf(xs) == CountsOf(ys)
  {
    PermutedMembers(xs, ys);
  }

  lemma RankInjective(a: State, b: State)
    requires Rank(a) == Rank(b)
    ensures a == b
  {
  }

  /** The verdict depends only on which scored children there are. */
  lemma AggregateOrderBlind(xs: seq<Result>, ys: seq<Result>, t: Texts)
    requires Permuted(Scored(xs), Scored(ys))
    ensures AggregateOf(xs, t) == AggregateOf(ys, t)
  {
    var a, b := Scored(xs), Scored(ys);
    PermutedMembers(a, b);
    SumPermuted(a, b);
    WorstOfMembers(a, b);
    WorstOfMembers(b, a);
    RankInjective(Worst(a), Worst(b));
    FlatMapPermuted(a, b, Complaints);
    CountsPermuted(FlatMap(a, Complaints), FlatMap(b, Complaints));
  }

  /** Permuting the children or dropping Unknown ones changes nothing. */
  lemma AggregatePermuted(xs: seq<Result>, ys: seq<Result>, t: Texts)
    requires Permuted(xs, ys)
    ensures AggregateOf(xs, t) == AggregateOf(ys, t) == AggregateOf(Scored(xs), t)
  {
    FlatMapPermuted(xs, ys, Self);
    ScoredIsFlatMap(xs);
    ScoredIsFlatMap(ys);
    AggregateOrderBlind(xs, ys, t);
    AllScored(Scored(xs));
    AggregateOrderBlind(xs, Scored(xs), t);
  }

  // ------------------------------------------------------------------ verdict

  lemma MeanPasses(sum: real, n: nat)
    requires n > 0
    ensures sum / n as real >= PASS <==> sum >= PASS * n as real
  {
    var d := n as real;
    var q := sum / d;
    assert q * d == sum;
    if q >= PASS { Scale(PASS, q, d); }
    if q < PASS { ScaleStrictly(q, PASS, d); }
  }

  lemma Scale(x: real, y: real, d: real)
    requires x <= y && d > 0.0
    ensures x * d <= y * d
  {
  }

  lemma ScaleStrictly(x: real, y: real, d: real)
    requires x < y && d > 0.0
    ensures x * d < y * d
  {
  }

  /** What a child must satisfy for Healthy to mean nearly perfect. */
  predicate Faithful(r: Result) {
    0.0 <= r.score <= 1.0 && (r.state == Healthy ==> r.score >= PASS)
  }

  lemma {:induction false} SumBounds(rs: seq<Result>)
    requires forall r :: r in rs ==> Faithful(r)
    ensures 0.0 <= Sum(rs) <= |rs| as real
    ensures (forall r :: r in rs ==> r.state == Healthy) ==> Sum(rs) >= PASS * |rs| as real
  {
    if rs != [] {
      var init, last := rs[..|rs| - 1], rs[|rs| - 1];
      assert rs == init + [last];
      assert last in rs;
      SumBounds(init);
      assert |rs| as real == |init| as real + 1.0;
    }
  }

  lemma MeanBounds(rs: seq<Result>)
    requires rs != [] && forall r :: r in rs ==> Faithful(r)
    ensures 0.0 <= Mean(rs) <= 1.0
  {
    SumBounds(rs);
    DivideMonotone(0.0, Sum(rs), |rs| as real);
    DivideMonotone(Sum(rs), |rs| as real, |rs| as real);
  }

  lemma WorstHealthy(rs: seq<Result>)
    requires Worst(rs) == Healthy && forall r :: r in rs ==> IsScored(r)
    ensures forall r :: r in rs ==> r.state == Healthy
  {
    WorstIsWorst(rs);
    forall r | r in rs ensures r.state == Healthy { RankInjective(r.state, Healthy); }
  }

  /** Healthy exactly when the mean reaches 0.99, and otherwise the state of the
      worst child. The verdict is a faithful child in turn, so this holds for a
      namespace and for the cluster of namespaces alike. */
  lemma VerdictIff(children: seq<Result>, t: Texts)
    requires Scored(children) != [] && forall r :: r in Scored(children) ==> Faithful(r)
    ensures var rs, v := Scored(children), AggregateOf(children, t);
      && Faithful(v)
      && (v.state == Healthy <==> Sum(rs) >= PASS * |rs| as real)
      && (v.state != Healthy ==> v.state == Worst(rs) && exists r :: r in rs && r.state == v.state)
  {
    var rs := Scored(children);
    MeanPasses(Sum(rs), |rs|);
    MeanBounds(rs);
    WorstIsWorst(rs);
    if Worst(rs) == Healthy {
      WorstHealthy(rs);
      SumBounds(rs);
    }
  }

  /** A failure among the children pins the state exactly when the mean stays
      below 0.99. */
  lemma FailurePinsIff(children: seq<Result>, t: Texts)
    requires forall r :: r in Scored(children) ==> Faithful(r)
    requires exists r :: r in children && r.state == Unhealthy
    ensures AggregateOf(children, t).state == Unhealthy <==> Sum(Scored(children)) < PASS * |Scored(children)| as real
  {
    var r :| r in children && r.state == Unhealthy;
    assert r in Scored(children);
    WorstIsWorst(Scored(children));
    VerdictIff(children, t);
  }

  function Unhealthies(rs: seq<Result>): nat {
    if rs == [] then 0 else Unhealthies(rs[..|rs| - 1]) + if rs[|rs| - 1].state == Unhealthy then 1 else 0
  }

  lemma {:induction false} FailuresCost(rs: seq<Result>)
    requires forall r :: r in rs ==> LeafSound(r)
    ensures Sum(rs) <= |rs| as real - 0.8 * Unhealthies(rs) as real
    ensures Unhealthies(rs) > 0 ==> exists r :: r in rs && r.state == Unhealthy
  {
    if rs != [] {
      var init, last := rs[..|rs| - 1], rs[|rs| - 1];
      assert rs == init + [last];
      assert last in rs;
      FailuresCost(init);
      assert |rs| as real == |init| as real + 1.0;
      if last.state == Unhealthy {
        assert Unhealthies(rs) as real == Unhealthies(init) as real + 1.0;
      }
    }
  }

  /** k failures among fewer than 80k scored leaves pin a namespace Unhealthy. */
  lemma FailuresPin(children: seq<Result>, t: Texts)
    requires forall r :: r in Scored(children) ==> LeafSound(r)
    requires |Scored(children)| < 80 * Unhealthies(Scored(children))
    ensures AggregateOf(children, t).state == Unhealthy
  {
    var rs := Scored(children);
    var k := Unhealthies(rs);
    assert rs != [];
    FailuresCost(rs);
    assert |rs| as real < 80.0 * k as real;
    VerdictIff(children, t);
    WorstIsWorst(rs);
  }

  function Copies(n: nat, r: Result): (rs: seq<Result>)
    ensures |rs| == n && forall x :: x in rs ==> x == r
  {
    seq(n, _ => r)
  }

  lemma {:induction false} CopiesSum(n: nat, r: Result)
    ensures Sum(Copies(n, r)) == n as real * r.score
    ensures Unhealthies(Copies(n, r)) == if r.state == Unhealthy then n else 0
  {
    if n > 0 {
      CopiesSum(n - 1, r);
      assert Copies(n, r)[..n - 1] == Copies(n - 1, r);
      assert n as real == (n - 1) as real + 1.0;
      assert ((n - 1) as real + 1.0) * r.score == (n - 1) as real * r.score + r.score;
    }
  }

  lemma {:induction false} UnhealthiesConcat(a: seq<Result>, b: seq<Result>)
    ensures Unhealthies(a + b) == Unhealthies(a) + Unhealthies(b)
    decreases |b|
  {
    if b == [] {
      assert a + b == a;
    } else {
      UnhealthiesConcat(a, b[..|b| - 1]);
      assert (a + b)[..|a + b| - 1] == a + b[..|b| - 1];
    }
  }

  lemma {:induction false} AllScored(xs: seq<Result>)
    requires forall r :: r in xs ==> IsScored(r)
    ensures Scored(xs) == xs
  {
    if xs != [] {
      assert xs == xs[..|xs| - 1] + [xs[|xs| - 1]];
      AllScored(xs[..|xs| - 1]);
      assert xs[|xs| - 1] in xs;
    }
  }

  /** The bound is tight: for every k, 80k pods of which k fail, restarting once a
      minute, can still roll up Healthy. */
  lemma FailuresPinTight(k: nat, t: Texts) returns (children: seq<Result>)
    requires k > 0
    ensures Scored(children) == children && |children| == 80 * k && Unhealthies(children) == k
    ensures forall r :: r in children ==> exists pod, rate :: r == PodResult(pod, rate, t)
    ensures AggregateOf(children, t).state == Healthy
  {
    var idle := PodStatus(Running, "", []);
    var down, up := PodResult(idle, 1.0, t), PodResult(idle, 0.0, t);
    IdlePods(t);
    children := Mixed(k, down, up);
    MixedPasses(k, down, up, t);
  }

  /** A pod without containers is judged by its restart rate alone. */
  lemma IdlePods(t: Texts)
    ensures var idle := PodStatus(Running, "", []); var down := PodResult(idle, 1.0, t);
      down.state == Unhealthy && down.score == 0.2 && PodResult(idle, 0.0, t) == Bare(Healthy)
  {
  }

  ghost function Mixed(k: nat, down: Result, up: Result): seq<Result> { Copies(k, down) + Copies(79 * k, up) }

  lemma MixedMean(k: nat, sum: real)
    requires k > 0 && sum == k as real * 0.2 + (79 * k) as real * 1.0
    ensures sum / (80 * k) as real >= PASS
  {
    MeanPasses(sum, 80 * k);
    assert (79 * k) as real == 79.0 * k as real && (80 * k) as real == 80.0 * k as real;
  }

  lemma MixedPasses(k: nat, down: Result, up: Result, t: Texts)
    requires k > 0 && down.state == Unhealthy && down.score == 0.2 && up == Bare(Healthy)
    ensures var rs := Mixed(k, down, up);
      && Scored(rs) == rs && |rs| == 80 * k && Unhealthies(rs) == k && AggregateOf(rs, t).state == Healthy
      && forall r :: r in rs ==> r == down || r == up
  {
    var rs := Mixed(k, down, up);
    CopiesSum(k, down);
    CopiesSum(79 * k, up);
    SumConcat(Copies(k, down), Copies(79 * k, up));
    UnhealthiesConcat(Copies(k, down), Copies(79 * k, up));
    AllScored(rs);
    MixedMean(k, Sum(rs));
    assert rs != [];
  }

  // ------------------------------------------------------------- monotonicity

  /** Replacing a scored child by one that scores no higher and is no less
      severe never raises the score or lowers the severity. */
  lemma AggregateMonotone(children: seq<Result>, i: nat, worse: Result, t: Texts)
    requires i < |children| && IsScored(children[i]) && IsScored(worse)
    requires worse.score <= children[i].score && Rank(worse.state) >= Rank(children[i].state)
    ensures var v, v' := AggregateOf(children, t), AggregateOf(children[i := worse], t);
      v'.score <= v.score && Rank(v'.state) >= Rank(v.state)
  {
    var a, b := Scored(children[..i]), Scored(children[i + 1..]);
    ScoredAround(children, i, children[i]);
    ScoredAround(children, i, worse);
    assert children[i := children[i]] == children;
    WorseMean(a, children[i], worse, b);
    WorseWorst(a, children[i], worse, b);
    StateMonotone(Mean(a + [children[i]] + b), Mean(a + [worse] + b),
                  Worst(a + [children[i]] + b), Worst(a + [worse] + b));
  }

  lemma StateMonotone(mean: real, mean': real, worst: State, worst': State)
    requires mean' <= mean && Rank(worst') >= Rank(worst) >= 0
    ensures Rank(StateFor(mean', worst')) >= Rank(StateFor(mean, worst))
  {
  }

  lemma WorseMean(a: seq<Result>, c: Result, worse: Result, b: seq<Result>)
    requires worse.score <= c.score
    ensures Mean(a + [worse] + b) <= Mean(a + [c] + b)
  {
    SumAround(a, c, b);
    SumAround(a, worse, b);
    DivideMonotone(Sum(a + [worse] + b), Sum(a + [c] + b), |a + [c] + b| as real);
  }

  lemma WorseWorst(a: seq<Result>, c: Result, worse: Result, b: seq<Result>)
    requires Rank(worse.state) >= Rank(c.state)
    ensures Rank(Worst(a + [worse] + b)) >= Rank(Worst(a + [c] + b)) >= 0
  {
    var rs, rs' := a + [c] + b, a + [worse] + b;
    WorstIsWorst(rs);
    WorstIsWorst(rs');
    assert worse in rs';
    assert forall r :: r in rs ==> r == c || r in rs';
  }

  lemma ScoredAround(children: seq<Result>, i: nat, c: Result)
    requires i < |children| && IsScored(c)
    ensures Scored(children[i := c]) == Scored(children[..i]) + [c] + Scored(children[i + 1..])
  {
    assert children[i := c] == children[..i] + [c] + children[i + 1..];
    ScoredIsFlatMap(children[i := c]);
    ScoredIsFlatMap(children[..i]);
    ScoredIsFlatMap(children[i + 1..]);
    FlatMapConcat(children[..i] + [c], children[i + 1..], Self);
    FlatMapConcat(children[..i], [c], Self);
    FlatMapOne(c, Self);
  }

  lemma SumAround(a: seq<Result>, c: Result, b: seq<Result>)
    ensures Sum(a + [c] + b) == Sum(a) + c.score + Sum(b)
  {
    SumConcat(a + [c], b);
    SumConcat(a, [c]);
    SumOne(c);
  }

  lemma DivideMonotone(x: real, y: real, d: real)
    requires x <= y && d > 0.0
    ensures x / d <= y / d
  {
    var p, q := x / d, y / d;
    assert p * d == x && q * d == y;
    if p > q { ScaleStrictly(q, p, d); }
  }
}
