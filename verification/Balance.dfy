/** Splitting a root's children over its two sides (internal/web/static/app.js,
    relayout): heaviest first, each to the lighter side. */
module Balance {

  datatype Loads = Loads(left: nat, right: nat)
  {
    function Max(): nat { if left >= right then left else right }
    function Gap(): nat { if left >= right then left - right else right - left }
  }

  function Give(s: Loads, w: nat): Loads {
    if s.left <= s.right then s.(left := s.left + w) else s.(right := s.right + w)
  }

  /** The side weights after the first n children, the left starting at l0. */
  function Greedy(l0: nat, ws: seq<nat>, n: nat): Loads
    requires n <= |ws|
  {
    if n == 0 then Loads(l0, 0) else Give(Greedy(l0, ws, n - 1), ws[n - 1])
  }

  /** What the first n children weigh on one side of any other split. */
  function SideSum(ws: seq<nat>, split: seq<bool>, side: bool, n: nat): nat
    requires n <= |ws| == |split|
  {
    if n == 0 then 0 else SideSum(ws, split, side, n - 1) + if split[n - 1] == side then ws[n - 1] else 0
  }

  function SideCount(split: seq<bool>, side: bool, n: nat): nat
    requires n <= |split|
  {
    if n == 0 then 0 else SideCount(split, side, n - 1) + if split[n - 1] == side then 1 else 0
  }

  function Heavier(ws: seq<nat>, split: seq<bool>, n: nat): nat
    requires n <= |ws| == |split|
  {
    var a, b := SideSum(ws, split, true, n), SideSum(ws, split, false, n);
    if a >= b then a else b
  }

  ghost predicate HeaviestFirst(ws: seq<nat>) {
    forall i, j :: 0 <= i < j < |ws| ==> ws[i] >= ws[j]
  }

  /** The sides never differ by more than the heaviest child, or than what the
      left side started with. */
  lemma {:induction false} GapBounded(l0: nat, ws: seq<nat>, n: nat, heaviest: nat)
    requires n <= |ws| && l0 <= heaviest && forall i :: 0 <= i < n ==> ws[i] <= heaviest
    ensures Greedy(l0, ws, n).Gap() <= heaviest
  {
    if n > 0 { GapBounded(l0, ws, n - 1, heaviest); }
  }

  lemma {:induction false} SidesAddUp(l0: nat, ws: seq<nat>, split: seq<bool>, n: nat)
    requires n <= |ws| == |split|
    ensures Greedy(l0, ws, n).left + Greedy(l0, ws, n).right
            == l0 + SideSum(ws, split, true, n) + SideSum(ws, split, false, n)
    ensures SideCount(split, true, n) + SideCount(split, false, n) == n
  {
    if n > 0 { SidesAddUp(l0, ws, split, n - 1); }
  }

  /** Three children on one side weigh at least three times the lightest. */
  lemma {:induction false} CountedWeigh(ws: seq<nat>, split: seq<bool>, side: bool, n: nat, least: nat)
    requires n <= |ws| == |split| && forall i :: 0 <= i < n ==> ws[i] >= least
    ensures SideCount(split, side, n) >= 1 ==> SideSum(ws, split, side, n) >= least
    ensures SideCount(split, side, n) >= 2 ==> SideSum(ws, split, side, n) >= 2 * least
    ensures SideCount(split, side, n) >= 3 ==> SideSum(ws, split, side, n) >= 3 * least
  {
    if n > 0 { CountedWeigh(ws, split, side, n - 1, least); }
  }

  function Side(chosen: bool, w: nat): nat { if chosen then w else 0 }

  lemma GreedyOfFew(ws: seq<nat>, n: nat) returns (loads: seq<Loads>)
    requires n <= |ws| && n <= 5
    ensures |loads| == n + 1 && loads[0] == Loads(0, 0) && loads[n] == Greedy(0, ws, n)
    ensures forall i :: 0 <= i < n ==> loads[i + 1] == Give(loads[i], ws[i])
  {
    if n == 0 {
      loads := [Loads(0, 0)];
    } else {
      var init := GreedyOfFew(ws, n - 1);
      loads := init + [Give(init[n - 1], ws[n - 1])];
    }
  }

  lemma SideOfFew(ws: seq<nat>, split: seq<bool>, side: bool, n: nat) returns (sums: seq<nat>, counts: seq<nat>)
    requires n <= |ws| == |split| && n <= 5
    ensures |sums| == n + 1 && sums[0] == 0 && sums[n] == SideSum(ws, split, side, n)
    ensures |counts| == n + 1 && counts[0] == 0 && counts[n] == SideCount(split, side, n)
    ensures forall i :: 0 <= i < n ==> sums[i + 1] == sums[i] + Side(split[i] == side, ws[i])
    ensures forall i :: 0 <= i < n ==> counts[i + 1] == counts[i] + Side(split[i] == side, 1)
  {
    if n == 0 {
      sums, counts := [0], [0];
    } else {
      var s, c := SideOfFew(ws, split, side, n - 1);
      sums := s + [s[n - 1] + Side(split[n - 1] == side, ws[n - 1])];
      counts := c + [c[n - 1] + Side(split[n - 1] == side, 1)];
    }
  }

  lemma Four(a: nat, b: nat, c: nat, d: nat, s0: bool, s1: bool, s2: bool, s3: bool)
    requires a >= b >= c >= d
    requires Side(s0, 1) + Side(s1, 1) + Side(s2, 1) + Side(s3, 1) == 2
    ensures var l, r := Side(s0, a) + Side(s1, b) + Side(s2, c) + Side(s3, d),
                        Side(!s0, a) + Side(!s1, b) + Side(!s2, c) + Side(!s3, d);
      Give(Give(Give(Give(Loads(0, 0), a), b), c), d).Max() <= if l >= r then l else r
  {
  }

  lemma Three(a: nat, b: nat, c: nat, s0: bool, s1: bool, s2: bool)
    requires a >= b >= c && 1 <= Side(s0, 1) + Side(s1, 1) + Side(s2, 1) <= 2
    ensures var l, r := Side(s0, a) + Side(s1, b) + Side(s2, c), Side(!s0, a) + Side(!s1, b) + Side(!s2, c);
      Give(Give(Give(Loads(0, 0), a), b), c).Max() <= if l >= r then l else r
  {
  }

  lemma GreedyOfFour(ws: seq<nat>)
    ensures |ws| >= 3 ==> Greedy(0, ws, 3) == Give(Give(Give(Loads(0, 0), ws[0]), ws[1]), ws[2])
    ensures |ws| >= 4 ==> Greedy(0, ws, 4) == Give(Give(Give(Give(Loads(0, 0), ws[0]), ws[1]), ws[2]), ws[3])
  {
    if |ws| >= 3 { var g := GreedyOfFew(ws, 3); }
  }

  lemma SideOfFour(ws: seq<nat>, split: seq<bool>, side: bool)
    requires |ws| == |split|
    ensures |ws| >= 3 ==>
      && SideSum(ws, split, side, 3)
         == Side(split[0] == side, ws[0]) + Side(split[1] == side, ws[1]) + Side(split[2] == side, ws[2])
      && SideCount(split, side, 3)
         == Side(split[0] == side, 1) + Side(split[1] == side, 1) + Side(split[2] == side, 1)
    ensures |ws| >= 4 ==> SideSum(ws, split, side, 4) == SideSum(ws, split, side, 3) + Side(split[3] == side, ws[3])
    ensures |ws| >= 4 ==> SideCount(split, side, 4) == SideCount(split, side, 3) + Side(split[3] == side, 1)
  {
    if |ws| >= 3 { var s, c := SideOfFew(ws, split, side, 3); }
  }

  lemma FourAreOptimal(ws: seq<nat>, split: seq<bool>)
    requires 4 <= |ws| == |split| && HeaviestFirst(ws)
    requires SideCount(split, true, 4) == 2
    ensures Greedy(0, ws, 4).Max() <= Heavier(ws, split, 4)
  {
    GreedyOfFour(ws);
    SideOfFour(ws, split, true);
    SideOfFour(ws, split, false);
    Four(ws[0], ws[1], ws[2], ws[3], split[0], split[1], split[2], split[3]);
  }

  lemma ThreeAreOptimal(ws: seq<nat>, split: seq<bool>)
    requires 3 <= |ws| == |split| && HeaviestFirst(ws)
    requires 1 <= SideCount(split, true, 3) <= 2
    ensures Greedy(0, ws, 3).Max() <= Heavier(ws, split, 3)
  {
    GreedyOfFour(ws);
    SideOfFour(ws, split, true);
    SideOfFour(ws, split, false);
    Three(ws[0], ws[1], ws[2], split[0], split[1], split[2]);
  }

  lemma TwoAreOptimal(ws: seq<nat>, split: seq<bool>, n: nat)
    requires n <= 2 && n <= |ws| == |split| && HeaviestFirst(ws)
    ensures Greedy(0, ws, n).Max() <= Heavier(ws, split, n)
  {
    if n == 2 {
      assert Greedy(0, ws, 1) == Give(Greedy(0, ws, 0), ws[0]);
      assert SideSum(ws, split, true, 1) == Side(split[0], ws[0])
             && SideSum(ws, split, false, 1) == Side(!split[0], ws[0]);
    }
  }

  /** With at most two children a side, heaviest-first is optimal. */
  lemma FewAreOptimal(ws: seq<nat>, split: seq<bool>, n: nat)
    requires n <= |ws| == |split| && HeaviestFirst(ws)
    requires SideCount(split, true, n) <= 2 && SideCount(split, false, n) <= 2
    ensures Greedy(0, ws, n).Max() <= Heavier(ws, split, n)
  {
    SidesAddUp(0, ws, split, n);
    if n == 4 {
      FourAreOptimal(ws, split);
    } else if n == 3 {
      ThreeAreOptimal(ws, split);
    } else {
      TwoAreOptimal(ws, split, n);
    }
  }

  /** A last child of at most a third of the best keeps the ratio. */
  lemma LightLast(before: Loads, last: nat, best: nat)
    requires before.left + before.right + last <= 2 * best && 3 * last <= best && 6 * before.Max() <= 7 * best
    ensures 6 * Give(before, last).Max() <= 7 * best
  {
  }

  lemma LightLastWithin(ws: seq<nat>, split: seq<bool>, n: nat)
    requires 0 < n <= |ws| == |split| && 3 * ws[n - 1] <= Heavier(ws, split, n)
    requires 6 * Greedy(0, ws, n - 1).Max() <= 7 * Heavier(ws, split, n - 1)
    ensures 6 * Greedy(0, ws, n).Max() <= 7 * Heavier(ws, split, n)
  {
    SidesAddUp(0, ws, split, n);
    LightLast(Greedy(0, ws, n - 1), ws[n - 1], Heavier(ws, split, n));
  }

  /** Where the last child is heavier, no side of the best split has three. */
  lemma HeavyLastWithin(ws: seq<nat>, split: seq<bool>, n: nat)
    requires 0 < n <= |ws| == |split| && HeaviestFirst(ws) && 3 * ws[n - 1] > Heavier(ws, split, n)
    ensures 6 * Greedy(0, ws, n).Max() <= 7 * Heavier(ws, split, n)
  {
    CountedWeigh(ws, split, true, n, ws[n - 1]);
    CountedWeigh(ws, split, false, n, ws[n - 1]);
    FewAreOptimal(ws, split, n);
  }

  /** With nothing on the left to begin with, the heavier side is within 7/6 of
      the heavier side of any split whatever. */
  lemma {:induction false} GreedyWithinSevenSixths(ws: seq<nat>, split: seq<bool>, n: nat)
    requires n <= |ws| == |split| && HeaviestFirst(ws)
    ensures 6 * Greedy(0, ws, n).Max() <= 7 * Heavier(ws, split, n)
  {
    if n > 0 {
      GreedyWithinSevenSixths(ws, split, n - 1);
      if 3 * ws[n - 1] <= Heavier(ws, split, n) {
        LightLastWithin(ws, split, n);
      } else {
        HeavyLastWithin(ws, split, n);
      }
    }
  }

  /** The ratio is reached: 3, 3, 2, 2, 2 goes 7 to 5 where 6 to 6 is possible. */
  lemma SevenSixthsIsTight() returns (ws: seq<nat>, split: seq<bool>)
    ensures HeaviestFirst(ws) && |ws| == |split|
    ensures 6 * Greedy(0, ws, |ws|).Max() == 7 * Heavier(ws, split, |ws|) > 0
  {
    ws, split := [3, 3, 2, 2, 2], [true, true, false, false, false];
    var g := GreedyOfFew(ws, 5);
    var l, _ := SideOfFew(ws, split, true, 5);
    var r, _ := SideOfFew(ws, split, false, 5);
    assert g[1] == Loads(3, 0) && g[2] == Loads(3, 3) && g[3] == Loads(5, 3) && g[4] == Loads(5, 5)
           && g[5] == Loads(7, 5);
    assert l[1] == 3 && l[2] == l[3] == l[4] == l[5] == 6;
    assert r[1] == r[2] == 0 && r[3] == 2 && r[4] == 4 && r[5] == 6;
  }
}
