/** Orders, sorting and Go's string comparison. */
module Order {
  import opened Seqs

  // ------------------------------------------------------------ string order

  /** Go's < on strings. */
  predicate Less(a: string, b: string) {
    if b == "" then false
    else if a == "" then true
    else a[0] < b[0] || (a[0] == b[0] && Less(a[1..], b[1..]))
  }

  lemma {:induction false} LessTotal(a: string, b: string)
    ensures Less(a, b) ==> !Less(b, a) && a != b
    ensures !Less(a, b) && !Less(b, a) ==> a == b
  {
    if a != "" && b != "" {
      LessTotal(a[1..], b[1..]);
      assert a == [a[0]] + a[1..] && b == [b[0]] + b[1..];
    }
  }

  lemma {:induction false} LessTransitive(a: string, b: string, c: string)
    requires Less(a, b) && Less(b, c)
    ensures Less(a, c)
  {
    if a != "" {
      if a[0] == b[0] == c[0] { LessTransitive(a[1..], b[1..], c[1..]); }
    }
  }

  // ------------------------------------------------------------------ sorting

  /** The kind of order sort.Slice needs. */
  ghost predicate StrictOrder<T(!new)>(less: (T, T) -> bool) {
    && (forall a, b :: less(a, b) ==> !less(b, a))
    && (forall a, b, c :: less(a, b) && less(b, c) ==> less(a, c))
  }

  /** Any two elements are ordered one way or the other, so none repeats. */
  ghost predicate Comparable<T>(xs: seq<T>, less: (T, T) -> bool) {
    forall i, j :: 0 <= i < j < |xs| ==> less(xs[i], xs[j]) || less(xs[j], xs[i])
  }

  /** Strictly ascending, so also free of duplicates. */
  ghost predicate Ascending<T>(xs: seq<T>, less: (T, T) -> bool) {
    forall i, j :: 0 <= i < j < |xs| ==> less(xs[i], xs[j])
  }

  function Insert<T>(x: T, xs: seq<T>, less: (T, T) -> bool): seq<T> {
    if xs == [] then [x]
    else if !less(xs[0], x) then [x] + xs
    else [xs[0]] + Insert(x, xs[1..], less)
  }

  /** Stands for sort.Slice, whose elements are all comparable here, so that the result
      is the ascending one, and for the dashboard's sort, which is stable: elements that
      tie stay in order. */
  function SortBy<T>(xs: seq<T>, less: (T, T) -> bool): seq<T> {
    if xs == [] then [] else Insert(xs[0], SortBy(xs[1..], less), less)
  }

  lemma {:induction false} InsertSorted<T(!new)>(x: T, xs: seq<T>, less: (T, T) -> bool)
    requires StrictOrder(less) && Ascending(xs, less)
    requires forall y :: y in xs ==> less(x, y) || less(y, x)
    ensures Ascending(Insert(x, xs, less), less)
    ensures forall y :: y in Insert(x, xs, less) <==> y == x || y in xs
  {
    if xs != [] {
      assert xs == [xs[0]] + xs[1..];
      assert xs[0] in xs;
      if less(xs[0], x) {
        InsertSorted(x, xs[1..], less);
        var r := Insert(x, xs[1..], less);
        forall y | y in r ensures less(xs[0], y) {
          if y != x {
            var i := PositionIn(xs[1..], y);
            assert xs[i + 1] == y;
          }
        }
        forall j | 0 <= j < |r| ensures less(xs[0], r[j]) { assert r[j] in r; }
      }
    }
  }

  /** Sorting comparable elements puts them in strictly ascending order. */
  lemma {:induction false} SortBySorts<T(!new)>(xs: seq<T>, less: (T, T) -> bool)
    requires StrictOrder(less) && Comparable(xs, less)
    ensures Ascending(SortBy(xs, less), less)
    ensures forall y :: y in SortBy(xs, less) <==> y in xs
  {
    if xs != [] {
      assert xs == [xs[0]] + xs[1..];
      SortBySorts(xs[1..], less);
      forall y | y in SortBy(xs[1..], less) ensures less(xs[0], y) || less(y, xs[0]) {
        var i := PositionIn(xs[1..], y);
        assert xs[i + 1] == y;
      }
      InsertSorted(xs[0], SortBy(xs[1..], less), less);
    }
  }

  /** Sorting keeps exactly the members, whatever the order relation. */
  lemma {:induction false} SortByMembers<T(!new)>(xs: seq<T>, less: (T, T) -> bool)
    ensures forall y :: y in SortBy(xs, less) <==> y in xs
  {
    if xs != [] {
      assert xs == [xs[0]] + xs[1..];
      SortByMembers(xs[1..], less);
      InsertMembers(xs[0], SortBy(xs[1..], less), less);
    }
  }

  lemma {:induction false} InsertMembers<T(!new)>(x: T, xs: seq<T>, less: (T, T) -> bool)
    ensures forall y :: y in Insert(x, xs, less) <==> y == x || y in xs
  {
    if xs != [] {
      assert xs == [xs[0]] + xs[1..];
      InsertMembers(x, xs[1..], less);
    }
  }

  /** There is one strictly ascending sequence with given members. */
  lemma {:induction false} AscendingUnique<T(!new)>(xs: seq<T>, ys: seq<T>, less: (T, T) -> bool)
    requires StrictOrder(less) && Ascending(xs, less) && Ascending(ys, less)
    requires forall x :: x in xs <==> x in ys
    ensures xs == ys
  {
    if xs == [] {
      NoMembers(ys);
    } else {
      assert xs[0] in ys;
      SameHead(xs, ys, less);
      assert xs == [xs[0]] + xs[1..] && ys == [ys[0]] + ys[1..];
      forall x ensures x in xs[1..] <==> x in ys[1..] {
        assert x in xs[1..] <==> x in xs && x != xs[0] by { HeadNotInTail(xs, less); }
        assert x in ys[1..] <==> x in ys && x != ys[0] by { HeadNotInTail(ys, less); }
      }
      AscendingUnique(xs[1..], ys[1..], less);
    }
  }

  lemma NoMembers<T(!new)>(xs: seq<T>)
    requires forall x :: x !in xs
    ensures xs == []
  {
    if xs != [] { HeadIn(xs); }
  }

  lemma HeadIn<T>(xs: seq<T>)
    requires xs != []
    ensures xs[0] in xs
  {
  }

  lemma HeadNotInTail<T(!new)>(xs: seq<T>, less: (T, T) -> bool)
    requires StrictOrder(less) && Ascending(xs, less) && xs != []
    ensures xs[0] !in xs[1..]
  {
    forall i | 0 <= i < |xs[1..]| ensures xs[1..][i] != xs[0] {
      assert less(xs[0], xs[i + 1]);
    }
  }

  lemma SameHead<T(!new)>(xs: seq<T>, ys: seq<T>, less: (T, T) -> bool)
    requires StrictOrder(less) && Ascending(xs, less) && Ascending(ys, less)
    requires xs != [] && xs[0] in ys && forall y :: y in ys ==> y in xs
    ensures xs[0] == ys[0]
  {
    var i := PositionIn(ys, xs[0]);
    var j := PositionIn(xs, ys[0]);
    assert i > 0 ==> less(ys[0], ys[i]);
    assert j > 0 ==> less(xs[0], xs[j]);
  }

  lemma {:induction false} InsertPermutes<T>(x: T, xs: seq<T>, less: (T, T) -> bool)
    ensures multiset(Insert(x, xs, less)) == multiset{x} + multiset(xs)
  {
    if xs != [] {
      assert xs == [xs[0]] + xs[1..];
      InsertPermutes(x, xs[1..], less);
    }
  }

  /** Sorting permutes, whatever the order relation. */
  lemma {:induction false} SortByPermutes<T>(xs: seq<T>, less: (T, T) -> bool)
    ensures Permuted(xs, SortBy(xs, less))
  {
    if xs != [] {
      assert xs == [xs[0]] + xs[1..];
      SortByPermutes(xs[1..], less);
      InsertPermutes(xs[0], SortBy(xs[1..], less), less);
    }
  }

  /** Two relations that agree on the elements sort them alike. */
  ghost predicate SameOrder<T(!new)>(xs: seq<T>, less: (T, T) -> bool, less': (T, T) -> bool) {
    forall a, b :: a in xs && b in xs ==> less(a, b) == less'(a, b)
  }

  lemma {:induction false} InsertSame<T(!new)>(x: T, xs: seq<T>, less: (T, T) -> bool, less': (T, T) -> bool)
    requires forall y :: y in xs ==> less(y, x) == less'(y, x)
    ensures Insert(x, xs, less) == Insert(x, xs, less')
  {
    if xs != [] {
      assert xs == [xs[0]] + xs[1..];
      assert xs[0] in xs;
      InsertSame(x, xs[1..], less, less');
    }
  }

  lemma {:induction false} SortBySame<T(!new)>(xs: seq<T>, less: (T, T) -> bool, less': (T, T) -> bool)
    requires SameOrder(xs, less, less')
    ensures SortBy(xs, less) == SortBy(xs, less')
  {
    if xs != [] {
      assert xs == [xs[0]] + xs[1..];
      SortBySame(xs[1..], less, less');
      SortByMembers(xs[1..], less);
      InsertSame(xs[0], SortBy(xs[1..], less), less, less');
    }
  }

  /** Without ties the input's order does not matter. */
  lemma SortByOrderBlind<T(!new)>(xs: seq<T>, ys: seq<T>, less: (T, T) -> bool)
    requires StrictOrder(less) && Comparable(xs, less) && Comparable(ys, less) && forall x :: x in xs <==> x in ys
    ensures SortBy(xs, less) == SortBy(ys, less)
  {
    SortBySorts(xs, less);
    SortBySorts(ys, less);
    AscendingUnique(SortBy(xs, less), SortBy(ys, less), less);
  }
}
