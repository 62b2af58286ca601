/** Filtering, mapping and permuting sequences. */
module Seqs {

  function Filter<T(!new)>(xs: seq<T>, p: T -> bool): (r: seq<T>)
    ensures forall x :: x in r <==> x in xs && p(x)
    decreases |xs|
  {
    if xs == [] then []
    else
      var last := xs[|xs| - 1];
      Filter(xs[..|xs| - 1], p) + if p(last) then [last] else []
  }

  function Map<T, U>(xs: seq<T>, f: T -> U): (r: seq<U>)
    ensures |r| == |xs| && forall i :: 0 <= i < |xs| ==> r[i] == f(xs[i])
  {
    seq(|xs|, i requires 0 <= i < |xs| => f(xs[i]))
  }

  /** f's lists for each element, end to end. */
  function FlatMap<T, U>(xs: seq<T>, f: T -> seq<U>): (r: seq<U>)
    decreases |xs|
  {
    if xs == [] then [] else FlatMap(xs[..|xs| - 1], f) + f(xs[|xs| - 1])
  }

  lemma {:induction false} InFlatMap<T(!new), U>(xs: seq<T>, f: T -> seq<U>, u: U)
    ensures u in FlatMap(xs, f) <==> exists x :: x in xs && u in f(x)
    decreases |xs|
  {
    if xs != [] {
      var init, last := xs[..|xs| - 1], xs[|xs| - 1];
      InFlatMap(init, f, u);
      assert xs == init + [last];
    }
  }

  lemma FromFlatMap<T(!new), U>(xs: seq<T>, f: T -> seq<U>, u: U) returns (x: T)
    requires u in FlatMap(xs, f)
    ensures x in xs && u in f(x)
  {
    InFlatMap(xs, f, u);
    x :| x in xs && u in f(x);
  }

  predicate Permuted<T(==)>(xs: seq<T>, ys: seq<T>) {
    multiset(xs) == multiset(ys)
  }

  lemma PermutedMembers<T(!new)>(xs: seq<T>, ys: seq<T>)
    requires Permuted(xs, ys)
    ensures |xs| == |ys| && forall x :: x in xs <==> x in ys
  {
    assert |multiset(xs)| == |multiset(ys)|;
    forall x ensures x in xs <==> x in ys {
      assert x in xs <==> x in multiset(xs);
      assert x in ys <==> x in multiset(ys);
    }
  }

  lemma RemoveAt<T>(xs: seq<T>, i: nat)
    requires i < |xs|
    ensures multiset(xs[..i] + xs[i + 1..]) == multiset(xs) - multiset{xs[i]}
  {
    assert xs == xs[..i] + ([xs[i]] + xs[i + 1..]);
  }

  lemma {:induction false} FlatMapConcat<T, U>(xs: seq<T>, ys: seq<T>, f: T -> seq<U>)
    ensures FlatMap(xs + ys, f) == FlatMap(xs, f) + FlatMap(ys, f)
    decreases |ys|
  {
    if ys == [] {
      assert xs + ys == xs;
    } else {
      FlatMapConcat(xs, ys[..|ys| - 1], f);
      assert (xs + ys)[..|xs + ys| - 1] == xs + ys[..|ys| - 1];
    }
  }

  lemma {:induction false} FlatMapEmptyIff<T(!new), U>(xs: seq<T>, f: T -> seq<U>)
    ensures FlatMap(xs, f) == [] <==> forall x :: x in xs ==> f(x) == []
    decreases |xs|
  {
    if xs != [] {
      var init, last := xs[..|xs| - 1], xs[|xs| - 1];
      assert xs == init + [last] && last in xs;
      FlatMapEmptyIff(init, f);
    }
  }

  lemma FlatMapOne<T, U>(x: T, f: T -> seq<U>)
    ensures FlatMap([x], f) == f(x)
  {
    assert [x][..0] == [];
    assert FlatMap([x], f) == FlatMap([], f) + f(x);
  }

  lemma FlatMapMiddle<T, U>(a: seq<T>, x: T, b: seq<T>, f: T -> seq<U>)
    ensures FlatMap(a + ([x] + b), f) == FlatMap(a, f) + (f(x) + FlatMap(b, f))
  {
    FlatMapConcat(a, [x] + b, f);
    FlatMapConcat([x], b, f);
    FlatMapOne(x, f);
  }

  lemma MiddleMoves<T>(p: seq<T>, q: seq<T>, r: seq<T>)
    ensures multiset(p + (q + r)) == multiset(p + r) + multiset(q)
  {
  }

  lemma FlatMapRemove<T, U>(xs: seq<T>, i: nat, f: T -> seq<U>)
    requires i < |xs|
    ensures multiset(FlatMap(xs, f)) == multiset(FlatMap(xs[..i] + xs[i + 1..], f)) + multiset(f(xs[i]))
  {
    var a, b := xs[..i], xs[i + 1..];
    assert xs == a + ([xs[i]] + b);
    FlatMapMiddle(a, xs[i], b, f);
    FlatMapConcat(a, b, f);
    MiddleMoves(FlatMap(a, f), f(xs[i]), FlatMap(b, f));
  }

  /** A permutation has the head somewhere, and the rests are permutations. */
  lemma PermutedHead<T(!new)>(xs: seq<T>, ys: seq<T>) returns (i: nat)
    requires Permuted(xs, ys) && xs != []
    ensures i < |ys| && ys[i] == xs[0] && Permuted(xs[1..], ys[..i] + ys[i + 1..])
  {
    PermutedMembers(xs, ys);
    i := PositionIn(ys, xs[0]);
    RemoveAt(ys, i);
    assert xs == [xs[0]] + xs[1..];
  }

  lemma MorePermuted<T>(a: seq<T>, b: seq<T>, a': seq<T>, b': seq<T>, more: multiset<T>)
    requires Permuted(a', b') && multiset(a) == multiset(a') + more && multiset(b) == multiset(b') + more
    ensures Permuted(a, b)
  {
  }

  lemma HeadsPermuted<T, U>(xs: seq<T>, ys: seq<T>, i: nat, f: T -> seq<U>)
    requires xs != [] && i < |ys| && ys[i] == xs[0]
    requires Permuted(FlatMap(xs[1..], f), FlatMap(ys[..i] + ys[i + 1..], f))
    ensures Permuted(FlatMap(xs, f), FlatMap(ys, f))
  {
    var rest := ys[..i] + ys[i + 1..];
    assert xs[..0] + xs[1..] == xs[1..];
    FlatMapRemove(xs, 0, f);
    FlatMapRemove(ys, i, f);
    MorePermuted(FlatMap(xs, f), FlatMap(ys, f), FlatMap(xs[1..], f), FlatMap(rest, f), multiset(f(xs[0])));
  }

  /** Permuting the inputs permutes the outputs. */
  lemma {:induction false} FlatMapPermuted<T(!new), U>(xs: seq<T>, ys: seq<T>, f: T -> seq<U>)
    requires Permuted(xs, ys)
    ensures Permuted(FlatMap(xs, f), FlatMap(ys, f))
    decreases |xs|
  {
    if xs == [] {
      PermutedMembers(xs, ys);
    } else {
      var i := PermutedHead(xs, ys);
      var rest := ys[..i] + ys[i + 1..];
      FlatMapPermuted(xs[1..], rest, f);
      HeadsPermuted(xs, ys, i, f);
    }
  }

  lemma MapMiddle<T, U>(a: seq<T>, x: T, b: seq<T>, f: T -> U)
    ensures Map(a + ([x] + b), f) == Map(a, f) + ([f(x)] + Map(b, f)) && Map(a + b, f) == Map(a, f) + Map(b, f)
  {
  }

  lemma {:induction false} MapPermuted<T(!new), U>(xs: seq<T>, ys: seq<T>, f: T -> U)
    requires Permuted(xs, ys)
    ensures Permuted(Map(xs, f), Map(ys, f))
    decreases |xs|
  {
    if xs == [] {
      PermutedMembers(xs, ys);
    } else {
      var i := PermutedHead(xs, ys);
      var a, b := ys[..i], ys[i + 1..];
      assert ys == a + ([ys[i]] + b) && xs == [] + ([xs[0]] + xs[1..]);
      MapPermuted(xs[1..], a + b, f);
      MapMiddle(a, ys[i], b, f);
      MapMiddle([], xs[0], xs[1..], f);
      MiddleMoves(Map(a, f), [f(ys[i])], Map(b, f));
      MiddleMoves([], [f(xs[0])], Map(xs[1..], f));
    }
  }

  lemma PositionIn<T>(xs: seq<T>, x: T) returns (i: nat)
    requires x in xs
    ensures i < |xs| && xs[i] == x
  {
    i :| 0 <= i < |xs| && xs[i] == x;
  }

  lemma FlatMapStep<T, U>(xs: seq<T>, i: nat, f: T -> seq<U>)
    requires i < |xs|
    ensures FlatMap(xs[..i + 1], f) == FlatMap(xs[..i], f) + f(xs[i])
  {
    assert xs[..i + 1][..i] == xs[..i];
  }

  lemma SameSize<T>(xs: seq<T>, ys: seq<T>)
    requires Permuted(xs, ys)
    ensures |xs| == |ys|
  {
    assert |multiset(xs)| == |multiset(ys)|;
  }

  datatype Option<T> = None | Some(value: T)

  function FirstWhere<T>(xs: seq<T>, p: T -> bool): Option<T> {
    if xs == [] then None else if p(xs[0]) then Some(xs[0]) else FirstWhere(xs[1..], p)
  }

  lemma {:induction false} FirstWhereAt<T>(xs: seq<T>, p: T -> bool, i: nat)
    requires i <= |xs| && (i < |xs| ==> p(xs[i])) && forall j :: 0 <= j < i ==> !p(xs[j])
    ensures FirstWhere(xs, p) == if i < |xs| then Some(xs[i]) else None
  {
    if i > 0 { FirstWhereAt(xs[1..], p, i - 1); }
  }

  lemma {:induction false} FirstWhereExists<T(!new)>(xs: seq<T>, p: T -> bool)
    ensures FirstWhere(xs, p).Some? <==> exists x :: x in xs && p(x)
    ensures FirstWhere(xs, p).Some? ==> FirstWhere(xs, p).value in xs && p(FirstWhere(xs, p).value)
  {
    if xs != [] {
      assert xs == [xs[0]] + xs[1..];
      FirstWhereExists(xs[1..], p);
    }
  }

  lemma {:induction false} FlatMapCongruent<T(!new), U>(xs: seq<T>, f: T -> seq<U>, g: T -> seq<U>)
    requires forall x :: x in xs ==> f(x) == g(x)
    ensures FlatMap(xs, f) == FlatMap(xs, g)
    decreases |xs|
  {
    if xs != [] {
      assert xs == xs[..|xs| - 1] + [xs[|xs| - 1]];
      assert xs[|xs| - 1] in xs;
      FlatMapCongruent(xs[..|xs| - 1], f, g);
    }
  }

  lemma {:induction false} FlatMapPermutedEach<T(!new), U>(xs: seq<T>, f: T -> seq<U>, g: T -> seq<U>)
    requires forall x :: x in xs ==> Permuted(f(x), g(x))
    ensures Permuted(FlatMap(xs, f), FlatMap(xs, g))
    decreases |xs|
  {
    if xs != [] {
      FlatMapPermutedEach(xs[..|xs| - 1], f, g);
      PermutedConcat(FlatMap(xs[..|xs| - 1], f), f(xs[|xs| - 1]), FlatMap(xs[..|xs| - 1], g), g(xs[|xs| - 1]));
    }
  }

  /** One output for each input: position by position. */
  lemma {:induction false} FlatMapPointwise<T, U>(xs: seq<T>, f: T -> seq<U>)
    requires forall i :: 0 <= i < |xs| ==> |f(xs[i])| == 1
    ensures |FlatMap(xs, f)| == |xs| && forall i :: 0 <= i < |xs| ==> FlatMap(xs, f)[i] == f(xs[i])[0]
    decreases |xs|
  {
    if xs != [] { FlatMapPointwise(xs[..|xs| - 1], f); }
  }

  lemma PermutedConcat<T>(a: seq<T>, b: seq<T>, a': seq<T>, b': seq<T>)
    requires Permuted(a, a') && Permuted(b, b')
    ensures Permuted(a + b, a' + b')
  {
  }

  ghost predicate NoRepeats<T>(xs: seq<T>) {
    forall i, j :: 0 <= i < j < |xs| ==> xs[i] != xs[j]
  }

  lemma RepeatCounts<T>(xs: seq<T>, i: nat, j: nat)
    requires i < j < |xs| && xs[i] == xs[j]
    ensures multiset(xs)[xs[i]] >= 2
  {
    assert xs == xs[..j] + xs[j..];
    assert xs[..j][i] == xs[i] && xs[j..][0] == xs[i];
    assert xs[i] in xs[..j] && xs[i] in xs[j..];
  }

  lemma {:induction false} NoRepeatsCount<T>(xs: seq<T>, x: T)
    requires NoRepeats(xs)
    ensures multiset(xs)[x] <= 1
    decreases |xs|
  {
    if xs != [] {
      var init, last := xs[..|xs| - 1], xs[|xs| - 1];
      assert xs == init + [last];
      NoRepeatsCount(init, x);
      forall i | 0 <= i < |init| ensures init[i] != last { assert xs[i] != xs[|xs| - 1]; }
      assert last !in init;
    }
  }

  lemma NoRepeatsPermuted<T>(xs: seq<T>, ys: seq<T>)
    requires Permuted(xs, ys) && NoRepeats(xs)
    ensures NoRepeats(ys)
  {
    forall i, j | 0 <= i < j < |ys| ensures ys[i] != ys[j] {
      NoRepeatsCount(xs, ys[i]);
      if ys[i] == ys[j] { RepeatCounts(ys, i, j); }
    }
  }
}
