/** The loop over the roots (internal/web/static/app.js, relayout): when do the
    cards of a whole layout stay clear of each other? */
module Layout {
  import opened Placing
  import opened Clear

  /** A root with the subtrees drawn on each side of it. */
  datatype Plan = Plan(root: string, left: seq<Tree>, right: seq<Tree>)
  {
    predicate Childless() { left == [] && right == [] }
  }

  function Min(a: real, b: real): real { if a <= b then a else b }

  function Max(a: real, b: real): real { if a >= b then a else b }

  function Lowest(rs: seq<real>): real
    requires rs != []
  {
    if |rs| == 1 then rs[0] else Min(Lowest(rs[..|rs| - 1]), rs[|rs| - 1])
  }

  function Highest(rs: seq<real>): real
    requires rs != []
  {
    if |rs| == 1 then rs[0] else Max(Highest(rs[..|rs| - 1]), rs[|rs| - 1])
  }

  /** The root sits midway between its extreme children. */
  function RootY(s: Scene, p: Plan, y: real): real {
    if p.Childless() then y + s.height(p.root) / 2.0
    else
      var all := Centres(s, p.right, y) + Centres(s, p.left, y);
      (Lowest(all) + Highest(all)) / 2.0
  }

  function PlanCards(s: Scene, p: Plan, y: real): map<string, Card> {
    var below := CardsAll(s, p.right, 1, Right, y) + CardsAll(s, p.left, 1, Left, y);
    below[p.root := CardAt(s, p.root, 0, Right, RootY(s, p, y))]
  }

  function Reach(s: Scene, p: Plan): real {
    Max(SpanAll(s, p.right), SpanAll(s, p.left))
  }

  /** Where the next root starts after these. */
  function Top(s: Scene, ps: seq<Plan>): real {
    if ps == [] then 0.0 else Top(s, ps[..|ps| - 1]) + Reach(s, ps[|ps| - 1]) + 2.0 * VGAP
  }

  function Cards(s: Scene, ps: seq<Plan>): map<string, Card> {
    if ps == [] then map[] else Cards(s, ps[..|ps| - 1]) + PlanCards(s, ps[|ps| - 1], Top(s, ps[..|ps| - 1]))
  }

  // ----------------------------------------------------------------- one root

  function PlanIds(p: Plan): set<string> { {p.root} + IdsAll(p.right) + IdsAll(p.left) }

  ghost predicate Sized(s: Scene, p: Plan) {
    RootCard(s, p.root) && SmallCards(s, IdsAll(p.left)) && SmallCards(s, IdsAll(p.right))
  }

  lemma {:induction false} ExtremesWithin(rs: seq<real>, lo: real, hi: real)
    requires rs != [] && forall i :: 0 <= i < |rs| ==> lo <= rs[i] <= hi
    ensures lo <= Lowest(rs) <= hi && lo <= Highest(rs) <= hi
  {
    if |rs| > 1 { ExtremesWithin(rs[..|rs| - 1], lo, hi); }
  }

  lemma {:induction false} CentresInBand(s: Scene, ts: seq<Tree>, y: real)
    requires SmallCards(s, IdsAll(ts))
    ensures forall i :: 0 <= i < |ts| ==> y + 16.0 <= Centres(s, ts, y)[i] <= y + SpanAll(s, ts) - 28.0
    ensures SpanAll(s, ts) >= 0.0 && (ts != [] ==> SpanAll(s, ts) >= 44.0)
    decreases ts
  {
    if ts != [] {
      LastInForest(s, ts);
      CentresInBand(s, ts[..|ts| - 1], y);
      MidInBand(s, ts[|ts| - 1]);
    }
  }

  /** A root with children is centred among them. */
  lemma RootInBand(s: Scene, p: Plan, y: real)
    requires Sized(s, p) && !p.Childless()
    ensures y + 16.0 <= RootY(s, p, y) <= y + Reach(s, p) - 28.0 && Reach(s, p) >= 44.0
  {
    CentresInBand(s, p.right, y);
    CentresInBand(s, p.left, y);
    ExtremesWithin(Centres(s, p.right, y) + Centres(s, p.left, y), y + 16.0, y + Reach(s, p) - 28.0);
  }

  /** Cards to the left, in the middle and to the right are clear of each other. */
  lemma SidesClear(right: map<string, Card>, left: map<string, Card>, c: Card, y: real, a: real, b: real)
    requires AllInBand(right, 1, Right, y, a) && AllInBand(left, 1, Left, y, b) && c.x == 0.0 && 0.0 < c.w <= 170.0
    ensures CrossClear(right, left) && CrossClear(right + left, map["" := c])
  {
    assert Column(1) == COLGAP;
  }

  /** Below one root no two cards overlap. */
  lemma RootClear(s: Scene, p: Plan, y: real)
    requires Sized(s, p)
    ensures AllClear(PlanCards(s, p, y))
  {
    var right, left := CardsAll(s, p.right, 1, Right, y), CardsAll(s, p.left, 1, Left, y);
    var c := CardAt(s, p.root, 0, Right, RootY(s, p, y));
    ForestClear(s, p.right, 1, Right, y);
    ForestClear(s, p.left, 1, Left, y);
    ForestBand(s, p.right, 1, Right, y);
    ForestBand(s, p.left, 1, Left, y);
    SidesClear(right, left, c, y, SpanAll(s, p.right), SpanAll(s, p.left));
    UnionClear(right, left);
    AddClear(right + left, p.root, c);
  }

  // -------------------------------------------------------------- several roots

  /** c is clear of whatever is drawn from cursor y on. */
  predicate WellAbove(c: Card, y: real) {
    32.0 <= c.h <= 52.0 && c.y + (c.h + 52.0) / 2.0 <= y + 16.0
  }

  /** What a plan's cards look like from above: centred below y + 16, at most 52
      high, and away from column 0 unless the root's. */
  lemma PlanShape(s: Scene, p: Plan, y: real, id: string)
    requires Sized(s, p) && id in PlanCards(s, p, y)
    ensures var c := PlanCards(s, p, y)[id];
      && c.y >= y + 16.0 && 32.0 <= c.h <= 52.0
      && (id != p.root ==> c.x >= COLGAP || c.x + c.w <= -COLGAP)
      && (!p.Childless() ==> c.y <= y + Reach(s, p) - 28.0)
  {
    assert p.Childless() ==> PlanCards(s, p, y).Keys == {p.root};
    if id == p.root {
      if !p.Childless() { RootInBand(s, p, y); }
    } else {
      ForestBand(s, p.right, 1, Right, y);
      ForestBand(s, p.left, 1, Left, y);
      assert Column(1) == COLGAP;
    }
  }

  /** The room that a childless root leaves to the next one: its cursor advances
      by 24 only, whatever its height. */
  predicate RoomBetween(s: Scene, p: Plan, q: Plan) {
    p.Childless() ==> 2.0 * VGAP + RootY(s, q, 0.0) >= s.height(p.root) + s.height(q.root) / 2.0
  }

  predicate Roomy(s: Scene, ps: seq<Plan>) {
    forall i :: 0 <= i < |ps| - 1 ==> RoomBetween(s, ps[i], ps[i + 1])
  }

  lemma {:induction false} CentresShift(s: Scene, ts: seq<Tree>, y: real)
    ensures forall i :: 0 <= i < |ts| ==> Centres(s, ts, y)[i] == y + Centres(s, ts, 0.0)[i]
    decreases ts
  {
    if ts != [] { CentresShift(s, ts[..|ts| - 1], y); }
  }

  lemma {:induction false} ExtremesShift(rs: seq<real>, rs': seq<real>, y: real)
    requires rs != [] && |rs| == |rs'| && forall i :: 0 <= i < |rs| ==> rs'[i] == y + rs[i]
    ensures Lowest(rs') == y + Lowest(rs) && Highest(rs') == y + Highest(rs)
  {
    if |rs| > 1 { ExtremesShift(rs[..|rs| - 1], rs'[..|rs'| - 1], y); }
  }

  lemma RootYShift(s: Scene, p: Plan, y: real)
    ensures RootY(s, p, y) == y + RootY(s, p, 0.0)
  {
    if !p.Childless() {
      CentresShift(s, p.right, y);
      CentresShift(s, p.left, y);
      ExtremesShift(Centres(s, p.right, 0.0) + Centres(s, p.left, 0.0), Centres(s, p.right, y) + Centres(s, p.left, y),
                    y);
    }
  }

  /** After ps, every card is well above the cursor, but for a childless last root. */
  ghost predicate Settled(s: Scene, ps: seq<Plan>) {
    forall id :: id in Cards(s, ps) ==>
      || WellAbove(Cards(s, ps)[id], Top(s, ps))
      || (ps != [] && ps[|ps| - 1].Childless() && id == ps[|ps| - 1].root)
  }

  /** Two childless roots in a row never have room. */
  lemma ChildlessPairsClash(s: Scene, p: Plan, q: Plan)
    requires RootCard(s, p.root) && p.Childless() && q.Childless()
    ensures !RoomBetween(s, p, q)
  {
  }

  lemma LastRootCard(s: Scene, ps: seq<Plan>)
    requires ps != []
    ensures ps[|ps| - 1].root in Cards(s, ps)
    ensures var p, y := ps[|ps| - 1], Top(s, ps[..|ps| - 1]);
      Cards(s, ps)[p.root] == CardAt(s, p.root, 0, Right, RootY(s, p, y))
  {
  }

  /** One card of the layout so far against one card of the next root. */
  lemma NextRootClear(s: Scene, init: seq<Plan>, q: Plan, a: string, b: string)
    requires Settled(s, init) && Sized(s, q) && a in Cards(s, init) && b in PlanCards(s, q, Top(s, init))
    requires init != [] ==> Sized(s, init[|init| - 1]) && RoomBetween(s, init[|init| - 1], q)
    ensures ClearOf(Cards(s, init)[a], PlanCards(s, q, Top(s, init))[b])
  {
    var y := Top(s, init);
    PlanShape(s, q, y, b);
    if !WellAbove(Cards(s, init)[a], y) {
      var p := init[|init| - 1];
      LastRootCard(s, init);
      RootYShift(s, q, y);
      assert SpanAll(s, p.right) == SpanAll(s, p.left) == 0.0;
    }
  }

  /** The next root, too, leaves everything settled. */
  lemma NextRootSettles(s: Scene, init: seq<Plan>, q: Plan, id: string)
    requires Settled(s, init) && Sized(s, q) && id in Cards(s, init + [q])
    requires init != [] ==> Sized(s, init[|init| - 1]) && RoomBetween(s, init[|init| - 1], q)
    ensures WellAbove(Cards(s, init + [q])[id], Top(s, init + [q])) || (q.Childless() && id == q.root)
  {
    var y := Top(s, init);
    assert (init + [q])[..|init|] == init;
    CentresInBand(s, q.right, y);
    CentresInBand(s, q.left, y);
    if id in PlanCards(s, q, y) {
      PlanShape(s, q, y, id);
      assert q.Childless() ==> PlanCards(s, q, y).Keys == {q.root};
    } else if !WellAbove(Cards(s, init)[id], y) {
      LastRootCard(s, init);
      var p := init[|init| - 1];
      if q.Childless() {
        ChildlessPairsClash(s, p, q);
      } else {
        RootInBand(s, q, y);
      }
      assert SpanAll(s, p.right) == SpanAll(s, p.left) == 0.0;
    }
  }

  lemma RoomyStep(s: Scene, init: seq<Plan>, q: Plan)
    requires Settled(s, init) && AllClear(Cards(s, init)) && Sized(s, q)
    requires init != [] ==> Sized(s, init[|init| - 1]) && RoomBetween(s, init[|init| - 1], q)
    ensures Settled(s, init + [q]) && AllClear(Cards(s, init + [q]))
  {
    var y := Top(s, init);
    forall a, b | a in Cards(s, init) && b in PlanCards(s, q, y)
      ensures ClearOf(Cards(s, init)[a], PlanCards(s, q, y)[b])
    {
      NextRootClear(s, init, q, a, b);
    }
    RootClear(s, q, y);
    UnionClear(Cards(s, init), PlanCards(s, q, y));
    assert (init + [q])[..|init|] == init;
    forall id | id in Cards(s, init + [q])
      ensures WellAbove(Cards(s, init + [q])[id], Top(s, init + [q])) || (q.Childless() && id == q.root)
    {
      NextRootSettles(s, init, q, id);
    }
  }

  lemma {:induction false} RoomySettles(s: Scene, ps: seq<Plan>)
    requires Roomy(s, ps) && forall i :: 0 <= i < |ps| ==> Sized(s, ps[i])
    ensures Settled(s, ps) && AllClear(Cards(s, ps))
  {
    if ps != [] {
      var init, q := ps[..|ps| - 1], ps[|ps| - 1];
      RoomySettles(s, init);
      assert init != [] ==> RoomBetween(s, ps[|ps| - 2], ps[|ps| - 1]);
      RoomyStep(s, init, q);
      assert ps == init + [q];
    }
  }

  // ------------------------------------------------------------------ converse

  ghost predicate RootsApart(ps: seq<Plan>) {
    forall i, j :: 0 <= i < j < |ps| ==> PlanIds(ps[i]) !! PlanIds(ps[j])
  }

  lemma PlanKeys(s: Scene, p: Plan, y: real)
    ensures PlanCards(s, p, y).Keys == PlanIds(p)
  {
    CardKeysAll(s, p.right, 1, Right, y);
    CardKeysAll(s, p.left, 1, Left, y);
    UnionKeys(CardsAll(s, p.right, 1, Right, y), CardsAll(s, p.left, 1, Left, y), IdsAll(p.right), IdsAll(p.left));
  }

  /** Later roots leave the card of root i alone. */
  lemma {:induction false} RootCardStays(s: Scene, ps: seq<Plan>, i: nat)
    requires RootsApart(ps) && i < |ps|
    ensures ps[i].root in Cards(s, ps)
    ensures Cards(s, ps)[ps[i].root] == CardAt(s, ps[i].root, 0, Right, RootY(s, ps[i], Top(s, ps[..i])))
  {
    var n := |ps| - 1;
    if i < n {
      RootCardStays(s, ps[..n], i);
      assert ps[..n][..i] == ps[..i];
      LaterRootAway(s, ps, i);
      Elsewhere(Cards(s, ps[..n]), PlanCards(s, ps[n], Top(s, ps[..n])), ps[i].root);
    } else {
      LastRootCard(s, ps);
    }
  }

  lemma Elsewhere(m: map<string, Card>, n: map<string, Card>, k: string)
    requires k in m && k !in n
    ensures k in m + n && (m + n)[k] == m[k]
  {
  }

  lemma LaterRootAway(s: Scene, ps: seq<Plan>, i: nat)
    requires RootsApart(ps) && i < |ps| - 1
    ensures ps[i].root !in PlanCards(s, ps[|ps| - 1], Top(s, ps[..|ps| - 1]))
  {
    var n := |ps| - 1;
    PlanKeys(s, ps[n], Top(s, ps[..n]));
    assert PlanIds(ps[i]) !! PlanIds(ps[n]);
    assert ps[i].root in PlanIds(ps[i]);
  }

  lemma RootsOverlap(s: Scene, p: Plan, q: Plan, y: real)
    requires Sized(s, p) && Sized(s, q) && !RoomBetween(s, p, q)
    ensures !ClearOf(CardAt(s, p.root, 0, Right, RootY(s, p, y)),
                     CardAt(s, q.root, 0, Right, RootY(s, q, y + 2.0 * VGAP)))
  {
    RootYShift(s, q, y + 2.0 * VGAP);
    if !q.Childless() { RootInBand(s, q, 0.0); }
  }

  lemma TopAfterChildless(s: Scene, ps: seq<Plan>, i: nat)
    requires i < |ps| && ps[i].Childless()
    ensures Top(s, ps[..i + 1]) == Top(s, ps[..i]) + 2.0 * VGAP
  {
    assert ps[..i + 1][..i] == ps[..i];
    assert SpanAll(s, ps[i].right) == SpanAll(s, ps[i].left) == 0.0;
  }

  /** m holds the card of p's root, the root's rows starting at y. */
  ghost predicate RootDrawn(s: Scene, p: Plan, y: real, m: map<string, Card>) {
    p.root in m && m[p.root] == CardAt(s, p.root, 0, Right, RootY(s, p, y))
  }

  /** A childless root and the next one, as drawn. */
  lemma NextRootCards(s: Scene, ps: seq<Plan>, i: nat)
    requires RootsApart(ps) && i + 1 < |ps| && ps[i].Childless()
    ensures RootDrawn(s, ps[i], Top(s, ps[..i]), Cards(s, ps))
    ensures RootDrawn(s, ps[i + 1], Top(s, ps[..i]) + 2.0 * VGAP, Cards(s, ps))
  {
    RootCardStays(s, ps, i);
    RootCardStays(s, ps, i + 1);
    TopAfterChildless(s, ps, i);
  }

  /** Without room the two root cards overlap. */
  lemma NoRoomOverlaps(s: Scene, ps: seq<Plan>, i: nat)
    requires RootsApart(ps) && i + 1 < |ps| && Sized(s, ps[i]) && Sized(s, ps[i + 1])
    requires !RoomBetween(s, ps[i], ps[i + 1])
    ensures !AllClear(Cards(s, ps))
  {
    NextRootCards(s, ps, i);
    var y, m := Top(s, ps[..i]), Cards(s, ps);
    assert RootDrawn(s, ps[i], y, m) && RootDrawn(s, ps[i + 1], y + 2.0 * VGAP, m);
    RootsDiffer(ps[i], ps[i + 1]);
    RootsClash(s, ps[i], ps[i + 1], y, m);
  }

  /** Wherever two such roots are drawn like that. */
  lemma RootsClash(s: Scene, p: Plan, q: Plan, y: real, m: map<string, Card>)
    requires Sized(s, p) && Sized(s, q) && !RoomBetween(s, p, q) && p.root != q.root
    requires RootDrawn(s, p, y, m) && RootDrawn(s, q, y + 2.0 * VGAP, m)
    ensures !AllClear(m)
  {
    RootsOverlap(s, p, q, y);
    assert !ClearOf(m[p.root], m[q.root]);
  }

  lemma RootsDiffer(p: Plan, q: Plan)
    requires PlanIds(p) !! PlanIds(q)
    ensures p.root != q.root
  {
    assert p.root in PlanIds(p) && q.root in PlanIds(q);
  }

  /** A layout has no overlapping cards if and only if each childless root that
      another root follows leaves it room. */
  lemma LayoutClearIff(s: Scene, ps: seq<Plan>)
    requires RootsApart(ps) && forall i :: 0 <= i < |ps| ==> Sized(s, ps[i])
    ensures AllClear(Cards(s, ps)) <==> Roomy(s, ps)
  {
    if Roomy(s, ps) {
      RoomySettles(s, ps);
    } else {
      var i :| 0 <= i < |ps| - 1 && !RoomBetween(s, ps[i], ps[i + 1]);
      NoRoomOverlaps(s, ps, i);
    }
  }
}
