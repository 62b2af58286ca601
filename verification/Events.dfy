/** Recent warnings of an object (internal/collector/accessors.go, WarningEvents). */
module Events {
  import opened Seqs
  import H = Health

  /** An event as listed. A lastTimestamp of 0 is Go's zero time. */
  datatype Event = Event(warning: bool, kind: string, name: string, lastTimestamp: int, eventTime: int,
                         reason: string, message: string)

  /** The lister: all events, and those of each namespace, in orders of its own. */
  datatype Lister = Lister(all: seq<Event>, byNamespace: string -> seq<Event>)

  datatype Msg = Msg(at: int, text: string)

  function Text(e: Event): string { e.reason + ": " + H.Trim(e.message) }

  function Matching(kind: string, name: string): Event -> seq<Msg> {
    (e: Event) =>
      if e.warning && e.kind == kind && e.name == name
      then [Msg(if e.lastTimestamp == 0 then e.eventTime else e.lastTimestamp, Text(e))] else []
  }

  /** Cluster-scoped kinds, and an empty namespace, are looked up everywhere. */
  function InScope(l: Lister, kind: string, ns: string): seq<Event> {
    if kind == "Node" || kind == "PersistentVolume" || ns == "" then l.all else l.byNamespace(ns)
  }

  ghost predicate NewestFirst(ms: seq<Msg>) {
    forall i, j :: 0 <= i < j < |ms| ==> ms[i].at >= ms[j].at
  }

  /** a's first n elements are in place: newest first, none older than what follows. */
  ghost predicate Settled(ms: seq<Msg>, n: nat)
    requires n <= |ms|
  {
    forall i, j :: 0 <= i < n && i < j < |ms| ==> ms[i].at >= ms[j].at
  }

  /** Element i is the newest of those from i up to j. */
  ghost predicate NewestUpTo(ms: seq<Msg>, i: nat, j: nat)
    requires i < j <= |ms|
  {
    forall k :: i <= k < j ==> ms[i].at >= ms[k].at
  }

  lemma SwapPermutes(ms: seq<Msg>, i: nat, j: nat)
    requires i < j < |ms|
    ensures Permuted(ms, ms[i := ms[j]][j := ms[i]])
  {
  }

  lemma SwapKeeps(ms: seq<Msg>, i: nat, j: nat)
    requires i < j < |ms| && Settled(ms, i) && NewestUpTo(ms, i, j) && ms[j].at > ms[i].at
    ensures var s := ms[i := ms[j]][j := ms[i]]; Settled(s, i) && NewestUpTo(s, i, j + 1)
  {
  }

  lemma NewestStays(ms: seq<Msg>, i: nat, j: nat)
    requires i < j < |ms| && NewestUpTo(ms, i, j) && ms[j].at <= ms[i].at
    ensures NewestUpTo(ms, i, j + 1)
  {
  }

  /** The exchange sort, on the slice itself. */
  method SortNewestFirst(a: array<Msg>)
    modifies a
    ensures NewestFirst(a[..]) && Permuted(old(a[..]), a[..])
  {
    ghost var was := a[..];
    for i := 0 to a.Length
      invariant Settled(a[..], i) && Permuted(was, a[..])
    {
      for j := i + 1 to a.Length
        invariant Settled(a[..], i) && Permuted(was, a[..]) && NewestUpTo(a[..], i, j)
      {
        ghost var before := a[..];
        if a[j].at > a[i].at {
          SwapPermutes(before, i, j);
          SwapKeeps(before, i, j);
          a[i], a[j] := a[j], a[i];
          assert a[..] == before[i := before[j]][j := before[i]];
        } else {
          NewestStays(before, i, j);
        }
      }
    }
  }

  /** out is the texts of the newest `limit` of the matching messages: some
      ordering of them all, newest first, cut off at limit. */
  ghost predicate IsTop(matches: seq<Msg>, limit: int, sorted: seq<Msg>, out: seq<string>) {
    && Permuted(matches, sorted) && NewestFirst(sorted)
    && out == Map(sorted[..Cut(limit, |sorted|)], (m: Msg) => m.text)
  }

  function Cut(limit: int, n: nat): (r: nat)
    ensures r <= n
  {
    if limit < 0 then 0 else if limit < n then limit else n
  }

  method WarningEvents(l: Lister, kind: string, ns: string, name: string, limit: int) returns (out: seq<string>)
    ensures exists sorted :: IsTop(FlatMap(InScope(l, kind, ns), Matching(kind, name)), limit, sorted, out)
  {
    var scope := ns;
    if kind == "Node" || kind == "PersistentVolume" {
      scope := "";
    }
    var evs := if scope == "" then l.all else l.byNamespace(scope);
    assert evs == InScope(l, kind, ns);
    var matches := Matches(evs, kind, name);
    out := Newest(matches, limit);
  }

  /** Sorts the matches and cuts them off at the limit. */
  method Newest(matches: seq<Msg>, limit: int) returns (out: seq<string>)
    ensures exists sorted :: IsTop(matches, limit, sorted, out)
  {
    var a := new Msg[|matches|](i requires 0 <= i < |matches| => matches[i]);
    assert a[..] == matches;
    SortNewestFirst(a);
    ghost var sorted := a[..];
    out := [];
    var i := 0;
    while i < a.Length && i < limit
      invariant 0 <= i <= a.Length && (i == 0 || i <= limit) && |out| == i
      invariant forall k :: 0 <= k < i ==> out[k] == sorted[k].text
    {
      out := out + [a[i].text];
      i := i + 1;
    }
    assert IsTop(matches, limit, sorted, out);
  }

  method Matches(evs: seq<Event>, kind: string, name: string) returns (matches: seq<Msg>)
    ensures matches == FlatMap(evs, Matching(kind, name))
  {
    matches := [];
    for i := 0 to |evs|
      invariant matches == FlatMap(evs[..i], Matching(kind, name))
    {
      FlatMapStep(evs, i, Matching(kind, name));
      var e := evs[i];
      if !e.warning || e.kind != kind || e.name != name {
        continue;
      }
      var t := e.lastTimestamp;
      if t == 0 {
        t := e.eventTime;
      }
      matches := matches + [Msg(t, e.reason + ": " + H.Trim(e.message))];
    }
    assert evs[..|evs|] == evs;
  }

  lemma TailsPermuted(x: int, a: seq<int>, b: seq<int>)
    requires Permuted([x] + a, [x] + b)
    ensures Permuted(a, b)
  {
    assert multiset(a) == multiset([x] + a) - multiset{x};
    assert multiset(b) == multiset([x] + b) - multiset{x};
  }

  ghost predicate Falling(a: seq<int>) { forall i, j :: 0 <= i < j < |a| ==> a[i] >= a[j] }

  lemma SameHead(a: seq<int>, b: seq<int>)
    requires Permuted(a, b) && Falling(a) && Falling(b) && a != []
    ensures b != [] && a[0] == b[0]
  {
    PermutedMembers(a, b);
    assert a[0] in b && b[0] in a;
  }

  lemma {:induction false} FallingUnique(a: seq<int>, b: seq<int>)
    requires Permuted(a, b) && Falling(a) && Falling(b)
    ensures a == b
  {
    if a == [] {
      assert |multiset(b)| == 0;
    } else {
      SameHead(a, b);
      assert a == [a[0]] + a[1..] && b == [a[0]] + b[1..];
      TailsPermuted(a[0], a[1..], b[1..]);
      FallingUnique(a[1..], b[1..]);
    }
  }

  lemma SameTimes(a: seq<Msg>, b: seq<Msg>)
    requires Permuted(a, b) && NewestFirst(a) && NewestFirst(b)
    ensures |a| == |b| && forall i :: 0 <= i < |a| ==> a[i].at == b[i].at
  {
    var times := (m: Msg) => m.at;
    PermutedMembers(a, b);
    MapPermuted(a, b, times);
    FallingUnique(Map(a, times), Map(b, times));
    forall i | 0 <= i < |a| ensures a[i].at == b[i].at { assert Map(a, times)[i] == Map(b, times)[i]; }
  }

  /** In whatever order the events were listed, equally many texts come back, for
      the same times; and the same texts, if no two matching events share a time. */
  lemma TopIsOrderBlind(matches: seq<Msg>, matches': seq<Msg>, limit: int, sorted: seq<Msg>, sorted': seq<Msg>,
                        out: seq<string>, out': seq<string>)
    requires Permuted(matches, matches') && IsTop(matches, limit, sorted, out) && IsTop(matches', limit, sorted', out')
    ensures |out| == |out'| && forall i :: 0 <= i < |out| ==> sorted[i].at == sorted'[i].at
    ensures (forall m, m' :: m in matches && m' in matches && m.at == m'.at ==> m == m') ==> out == out'
  {
    SameTimes(sorted, sorted');
    if forall m, m' :: m in matches && m' in matches && m.at == m'.at ==> m == m' {
      PermutedMembers(matches, sorted);
      PermutedMembers(matches, sorted');
      forall i | 0 <= i < |sorted|
        ensures sorted[i] == sorted'[i]
      {
        assert sorted[i] in matches && sorted'[i] in matches;
      }
      assert sorted == sorted';
    }
  }
}
