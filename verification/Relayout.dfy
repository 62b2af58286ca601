/** Laying out the whole forest (internal/web/static/app.js, relayout). The three
    sort orders, of children, by name and by kind and name, are parameters. */
module Relayout {
  import opened Seqs
  import opened Order
  import opened Balance
  import opened Sides
  import opened Placing
  import L = Layout

  // ------------------------------------------------------ subtrees by their IDs

  ghost function Pick(ts: seq<Tree>, id: string): Tree {
    if exists i :: 0 <= i < |ts| && ts[i].id == id
    then (var i :| 0 <= i < |ts| && ts[i].id == id; ts[i]) else Tree(id, [])
  }

  ghost function PickAll(ts: seq<Tree>, ids: seq<string>): (r: seq<Tree>)
    ensures |r| == |ids| && forall i :: 0 <= i < |ids| ==> r[i] == Pick(ts, ids[i])
  {
    seq(|ids|, i requires 0 <= i < |ids| => Pick(ts, ids[i]))
  }

  function IdList(ts: seq<Tree>): seq<string> { Map(ts, (t: Tree) => t.id) }

  lemma OwnId(t: Tree)
    ensures t.id in Ids(t)
  {
  }

  lemma PickAt(ts: seq<Tree>, i: nat)
    requires ApartAll(ts) && i < |ts|
    ensures Pick(ts, ts[i].id) == ts[i]
  {
    var id := ts[i].id;
    assert exists k :: 0 <= k < |ts| && ts[k].id == id;
    var j :| 0 <= j < |ts| && ts[j].id == id && Pick(ts, id) == ts[j];
    IdListNoRepeats(ts);
    assert IdList(ts)[i] == IdList(ts)[j];
  }

  lemma IdListNoRepeats(ts: seq<Tree>)
    requires ApartAll(ts)
    ensures NoRepeats(IdList(ts))
  {
    forall i, j | 0 <= i < j < |ts| ensures ts[i].id != ts[j].id {
      OwnId(ts[i]);
      OwnId(ts[j]);
      assert Ids(ts[i]) !! Ids(ts[j]);
    }
  }

  /** Picking an ID gives the subtree it heads. */
  lemma PickIn(ts: seq<Tree>, id: string) returns (i: nat)
    requires ApartAll(ts) && id in IdList(ts)
    ensures i < |ts| && ts[i].id == id && Pick(ts, id) == ts[i]
  {
    i := PositionIn(IdList(ts), id);
    PickAt(ts, i);
  }

  /** Some of the subtrees, in another order, are as good as the whole. */
  lemma PickedApart(s: Scene, ts: seq<Tree>, ids: seq<string>)
    requires ApartAll(ts) && NoRepeats(ids) && forall id :: id in ids ==> id in IdList(ts)
    requires forall i :: 0 <= i < |ts| ==> Spans(s, ts[i])
    ensures ApartAll(PickAll(ts, ids)) && IdsAll(PickAll(ts, ids)) <= IdsAll(ts)
    ensures forall i :: 0 <= i < |ids| ==> PickAll(ts, ids)[i].id == ids[i] && Spans(s, PickAll(ts, ids)[i])
  {
    forall i | 0 <= i < |ids|
      ensures Apart(Pick(ts, ids[i])) && Pick(ts, ids[i]).id == ids[i] && Spans(s, Pick(ts, ids[i]))
      ensures Ids(Pick(ts, ids[i])) <= IdsAll(ts)
    {
      var k := PickIn(ts, ids[i]);
      SubsetIds(ts, k);
    }
    forall i, j | 0 <= i < j < |ids| ensures Ids(Pick(ts, ids[i])) !! Ids(Pick(ts, ids[j])) {
      PicksApart(ts, ids[i], ids[j]);
    }
  }

  lemma PicksApart(ts: seq<Tree>, a: string, b: string)
    requires ApartAll(ts) && a in IdList(ts) && b in IdList(ts) && a != b
    ensures Ids(Pick(ts, a)) !! Ids(Pick(ts, b))
  {
    var i := PickIn(ts, a);
    var j := PickIn(ts, b);
    if i < j { assert Ids(ts[i]) !! Ids(ts[j]); } else { assert Ids(ts[j]) !! Ids(ts[i]); }
  }

  /** The two sides share no vertex and lose none. */
  lemma SidesPartition(ts: seq<Tree>, left: seq<string>, right: seq<string>)
    requires ApartAll(ts) && Permuted(left + right, IdList(ts))
    ensures NoRepeats(left) && NoRepeats(right)
    ensures forall id :: id in left || id in right ==> id in IdList(ts)
    ensures IdsAll(PickAll(ts, left)) !! IdsAll(PickAll(ts, right))
    ensures IdsAll(PickAll(ts, left)) + IdsAll(PickAll(ts, right)) == IdsAll(ts)
  {
    var both := left + right;
    IdListNoRepeats(ts);
    NoRepeatsPermuted(IdList(ts), both);
    PermutedMembers(both, IdList(ts));
    HalvesNoRepeats(left, right);
    forall x ensures x in IdsAll(PickAll(ts, left)) || x in IdsAll(PickAll(ts, right)) <==> x in IdsAll(ts) {
      PickedMember(ts, left, right, x);
    }
    forall x | x in IdsAll(PickAll(ts, left)) ensures x !in IdsAll(PickAll(ts, right)) {
      var i :| 0 <= i < |left| && x in Ids(PickAll(ts, left)[i]);
      forall j | 0 <= j < |right| ensures x !in Ids(PickAll(ts, right)[j]) {
        assert left[i] in left && right[j] in right;
        PicksApart(ts, left[i], right[j]);
      }
    }
  }

  lemma HalvesNoRepeats(left: seq<string>, right: seq<string>)
    requires NoRepeats(left + right)
    ensures NoRepeats(left) && NoRepeats(right)
    ensures forall a, b :: a in left && b in right ==> a != b
  {
    var both := left + right;
    forall i, j | 0 <= i < j < |left| ensures left[i] != left[j] { assert both[i] != both[j]; }
    forall i, j | 0 <= i < j < |right| ensures right[i] != right[j] { assert both[|left| + i] != both[|left| + j]; }
    forall i, j | 0 <= i < |left| && 0 <= j < |right|
      ensures left[i] != right[j]
    {
      assert both[i] != both[|left| + j];
    }
  }

  lemma PickedMember(ts: seq<Tree>, left: seq<string>, right: seq<string>, x: string)
    requires ApartAll(ts) && forall id :: id in left || id in right <==> id in IdList(ts)
    ensures x in IdsAll(PickAll(ts, left)) || x in IdsAll(PickAll(ts, right)) <==> x in IdsAll(ts)
  {
    if x in IdsAll(ts) {
      var i :| 0 <= i < |ts| && x in Ids(ts[i]);
      PickAt(ts, i);
      assert ts[i].id == IdList(ts)[i];
      assert ts[i].id in IdList(ts);
      if ts[i].id in left {
        var k := PositionIn(left, ts[i].id);
        assert x in Ids(PickAll(ts, left)[k]);
      } else {
        var k := PositionIn(right, ts[i].id);
        assert x in Ids(PickAll(ts, right)[k]);
      }
    }
    PickedInside(ts, left, x);
    PickedInside(ts, right, x);
  }

  lemma PickedInside(ts: seq<Tree>, ids: seq<string>, x: string)
    requires ApartAll(ts) && forall id :: id in ids ==> id in IdList(ts)
    ensures x in IdsAll(PickAll(ts, ids)) ==> x in IdsAll(ts)
  {
    if x in IdsAll(PickAll(ts, ids)) {
      var k :| 0 <= k < |ids| && x in Ids(PickAll(ts, ids)[k]);
      var i := PickIn(ts, ids[k]);
      assert x in Ids(ts[i]);
    }
  }

  // ------------------------------------------------------------------ one root

  /** Each child's weight, from the memo. */
  method WeighKids(s: Scene, kids: seq<string>, w: Weights, ghost u: set<string>, ghost ts: Option<seq<Tree>>)
    returns (weights: map<string, nat>)
    requires Bounded(s, u) && (forall id :: id in kids ==> id in u)
    requires (ts.Some? ==> Weighable(s, kids, ts.value, w.memo))
    modifies w
    ensures Keeps(old(w.memo), w.memo, u)
    ensures ts.Some? ==> Weighed(kids, ts.value, weights, |kids|) && SameOutside(old(w.memo), w.memo, IdsAll(ts.value))
  {
    weights := map[];
    for i := 0 to |kids|
      invariant Keeps(old(w.memo), w.memo, u)
      invariant ts.Some? ==> Weighable(s, kids, ts.value, w.memo) && Weighed(kids, ts.value, weights, i)
      invariant ts.Some? ==> SameOutside(old(w.memo), w.memo, IdsAll(ts.value))
    {
      ghost var was := w.memo;
      var k := w.Weight(s, kids[i], u, if ts.Some? then Some(ts.value[i]) else None);
      if ts.Some? {
        SubsetIds(ts.value, i);
        WeighedStep(kids, ts.value, weights, i);
        AllFit(was, w.memo, ts.value, i);
      }
      weights := weights[kids[i] := k];
    }
  }

  /** The first n children's weights are recorded. */
  ghost predicate Weighed(kids: seq<string>, ts: seq<Tree>, weights: map<string, nat>, n: nat)
    requires n <= |kids| == |ts|
  {
    forall j :: 0 <= j < n ==> kids[j] in weights && weights[kids[j]] == Leaves(ts[j])
  }

  lemma WeighedStep(kids: seq<string>, ts: seq<Tree>, weights: map<string, nat>, i: nat)
    requires i < |kids| == |ts| && ApartAll(ts) && forall j :: 0 <= j < |ts| ==> ts[j].id == kids[j]
    requires Weighed(kids, ts, weights, i)
    ensures Weighed(kids, ts, weights[kids[i] := Leaves(ts[i])], i + 1)
  {
    IdListNoRepeats(ts);
    forall j | 0 <= j < i ensures kids[j] != kids[i] { assert IdList(ts)[j] != IdList(ts)[i]; }
  }

  function WeightIn(weights: map<string, nat>): Weighing {
    (id: string) => if id in weights then weights[id] else 0
  }

  /** The weight of a side is the leaf count of its subtrees. */
  lemma {:induction false} TotalIsLeaves(ts: seq<Tree>, ids: seq<string>, w: Weighing)
    requires forall id :: id in ids ==> w(id) == Leaves(Pick(ts, id))
    ensures Total(ids, w) == LeavesAll(PickAll(ts, ids))
    decreases |ids|
  {
    if ids != [] {
      var init := ids[..|ids| - 1];
      assert ids == init + [ids[|ids| - 1]];
      assert ids[|ids| - 1] in ids;
      TotalIsLeaves(ts, init, w);
      assert PickAll(ts, ids)[..|ids| - 1] == PickAll(ts, init);
    }
  }

  ghost function LeafCounts(ts: seq<Tree>): (r: seq<nat>)
    ensures |r| == |ts| && forall i :: 0 <= i < |ts| ==> r[i] == Leaves(ts[i])
  {
    seq(|ts|, i requires 0 <= i < |ts| => Leaves(ts[i]))
  }

  /** The left side started with the Nodes, and ws lists what the other children
      weigh, heaviest first, as they were handed out. */
  ghost predicate Balanced(p: L.Plan, nodes: seq<Tree>, others: seq<Tree>, ws: seq<nat>) {
    && HeaviestFirst(ws) && multiset(ws) == multiset(LeafCounts(others))
    && Loads(LeavesAll(p.left), LeavesAll(p.right)) == Greedy(LeavesAll(nodes), ws, |ws|)
  }

  lemma CountsAreWeights(ts: seq<Tree>, ids: seq<string>, w: Weighing)
    requires forall id :: id in ids ==> w(id) == Leaves(Pick(ts, id))
    ensures LeafCounts(PickAll(ts, ids)) == Map(ids, w)
  {
    forall i | 0 <= i < |ids| ensures Leaves(PickAll(ts, ids)[i]) == w(ids[i]) { assert ids[i] in ids; }
  }

  /** How children are told apart and ordered: Nodes from others, by name, and by
      kind and name. */
  datatype Style = Style(isNode: string -> bool, before: (string, string) -> bool, order: (string, string) -> bool)

  ghost function LeafWeight(ts: seq<Tree>): Weighing { (id: string) => Leaves(Pick(ts, id)) }

  /** The two sides, each sorted again, that these subtrees are divided over. */
  ghost function SidesOf(st: Style, ts: seq<Tree>): (seq<string>, seq<string>) {
    var (l, r) := Split(IdList(ts), st.isNode, LeafWeight(ts), st.before);
    (SortBy(l, st.order), SortBy(r, st.order))
  }

  /** What is made of a tree. */
  ghost function PlanOf(st: Style, t: Tree): L.Plan {
    var (l, r) := SidesOf(st, t.kids);
    L.Plan(t.id, PickAll(t.kids, l), PickAll(t.kids, r))
  }

  ghost function PlansOf(st: Style, forest: seq<Tree>): seq<L.Plan> {
    if forest == [] then [] else PlansOf(st, forest[..|forest| - 1]) + [PlanOf(st, forest[|forest| - 1])]
  }

  /** The plans are the ones that the trees determine. */
  ghost predicate Planned(st: Style, forest: seq<Tree>, plans: seq<L.Plan>) { plans == PlansOf(st, forest) }

  lemma PlannedStep(st: Style, forest: seq<Tree>, i: nat, plans: seq<L.Plan>)
    requires i < |forest| && Planned(st, forest[..i], plans)
    ensures Planned(st, forest[..i + 1], plans + [PlanOf(st, forest[i])])
  {
    assert forest[..i + 1][..i] == forest[..i];
  }

  /** Weighs, splits and sorts a root's children. */
  method PlanRoot(s: Scene, st: Style,
                  root: string, w: Weights, ghost u: set<string>, ghost ts: Option<seq<Tree>>)
    returns (left: seq<string>, right: seq<string>, ghost ws: seq<nat>)
    requires Bounded(s, u) && (ts.Some? ==> Weighable(s, s.kids(root), ts.value, w.memo))
    modifies w
    ensures Keeps(old(w.memo), w.memo, u) && Permuted(left + right, s.kids(root))
    ensures ts.Some? ==> SameOutside(old(w.memo), w.memo, IdsAll(ts.value)) && (left, right) == SidesOf(st, ts.value)
    ensures ts.Some? ==> Balanced(L.Plan(root, PickAll(ts.value, left), PickAll(ts.value, right)),
                                  PickAll(ts.value, Filter(s.kids(root), st.isNode)),
                                  PickAll(ts.value, Filter(s.kids(root), Not(st.isNode))), ws)
  {
    var kids := s.kids(root);
    var weights := WeighKids(s, kids, w, u, ts);
    var l, r;
    l, r, ws := SplitSides(kids, st.isNode, WeightIn(weights), st.before);
    left, right := SortBy(l, st.order), SortBy(r, st.order);
    SortByPermutes(l, st.order);
    SortByPermutes(r, st.order);
    PermutedConcat(left, right, l, r);
    if ts.Some? {
      SidesKnownByLeaves(st, kids, ts.value, weights);
      SidesBalanced(s, st, root, kids, ts.value, weights, l, r, left, right, ws);
    }
  }

  lemma SidesKnownByLeaves(st: Style, kids: seq<string>, ts: seq<Tree>, weights: map<string, nat>)
    requires |kids| == |ts| && ApartAll(ts) && (forall i :: 0 <= i < |ts| ==> ts[i].id == kids[i])
    requires Weighed(kids, ts, weights, |kids|)
    ensures var (l, r) := Split(kids, st.isNode, WeightIn(weights), st.before);
      (SortBy(l, st.order), SortBy(r, st.order)) == SidesOf(st, ts)
  {
    assert kids == IdList(ts);
    WeighedByLeaves(kids, ts, weights);
    SplitSame(kids, st.isNode, WeightIn(weights), LeafWeight(ts), st.before);
  }

  /** The split by weights is balanced by leaves. */
  lemma SidesBalanced(s: Scene, st: Style, root: string, kids: seq<string>,
                      ts: seq<Tree>, weights: map<string, nat>, l: seq<string>, r: seq<string>,
                      left: seq<string>, right: seq<string>, ws: seq<nat>)
    requires |kids| == |ts| && ApartAll(ts) && (forall i :: 0 <= i < |ts| ==> ts[i].id == kids[i])
    requires Weighed(kids, ts, weights, |kids|) && Permuted(l + r, kids)
    requires left == SortBy(l, st.order) && right == SortBy(r, st.order)
    requires HeaviestFirst(ws) && multiset(ws) == multiset(Map(Filter(kids, Not(st.isNode)), WeightIn(weights)))
    requires Loads(Total(l, WeightIn(weights)), Total(r, WeightIn(weights)))
             == Greedy(Total(Filter(kids, st.isNode), WeightIn(weights)), ws, |ws|)
    ensures Balanced(L.Plan(root, PickAll(ts, left), PickAll(ts, right)),
                     PickAll(ts, Filter(kids, st.isNode)), PickAll(ts, Filter(kids, Not(st.isNode))), ws)
  {
    var weigh := WeightIn(weights);
    assert kids == IdList(ts);
    WeighedByLeaves(kids, ts, weights);
    PermutedMembers(l + r, kids);
    TotalIsLeaves(ts, Filter(kids, st.isNode), weigh);
    CountsAreWeights(ts, Filter(kids, Not(st.isNode)), weigh);
    SortedSide(ts, l, left, weigh, st.order);
    SortedSide(ts, r, right, weigh, st.order);
  }

  lemma WeighedByLeaves(kids: seq<string>, ts: seq<Tree>, weights: map<string, nat>)
    requires kids == IdList(ts) && ApartAll(ts) && Weighed(kids, ts, weights, |kids|)
    ensures forall id :: id in kids ==> WeightIn(weights)(id) == Leaves(Pick(ts, id))
  {
    forall id | id in kids ensures WeightIn(weights)(id) == Leaves(Pick(ts, id)) {
      var i := PickIn(ts, id);
      assert kids[i] == id;
    }
  }

  lemma SortedSide(ts: seq<Tree>, ids: seq<string>, sorted: seq<string>, w: Weighing, order: (string, string) -> bool)
    requires sorted == SortBy(ids, order) && forall id :: id in ids ==> w(id) == Leaves(Pick(ts, id))
    ensures Permuted(ids, sorted) && LeavesAll(PickAll(ts, sorted)) == Total(ids, w)
  {
    SortByPermutes(ids, order);
    PermutedMembers(ids, sorted);
    TotalPermuted(ids, sorted, w);
    TotalIsLeaves(ts, sorted, w);
  }

  method Extremes(rs: seq<real>) returns (lo: real, hi: real)
    requires rs != []
    ensures lo == L.Lowest(rs) && hi == L.Highest(rs)
  {
    lo, hi := rs[0], rs[0];
    for i := 1 to |rs|
      invariant lo == L.Lowest(rs[..i]) && hi == L.Highest(rs[..i])
    {
      assert rs[..i + 1][..i] == rs[..i];
      lo, hi := L.Min(lo, rs[i]), L.Max(hi, rs[i]);
    }
    assert rs[..|rs|] == rs;
  }

  /** Places one side from the cursor's start. */
  method PlaceSide(s: Scene, ids: seq<string>, dir: Dir, y: real, p: Placement, ghost u: set<string>,
                   ghost ts: Option<seq<Tree>>)
    returns (ys: seq<real>, end: real)
    requires Bounded(s, u) && (forall id :: id in ids ==> id in u) && (ts.Some? ==> TreesHere(s, ids, ts.value, p.seen))
    modifies p
    ensures old(p.placed) <= p.placed && Visited(s, ids, old(p.seen), p.seen, p.placed[|old(p.placed)|..])
    ensures Carded(old(p.pos), p.pos, p.placed[|old(p.placed)|..])
    ensures ts.Some? ==> ys == Centres(s, ts.value, y) && end == y + SpanAll(s, ts.value)
    ensures ts.Some? ==>
      p.seen == old(p.seen) + IdsAll(ts.value) && p.pos == old(p.pos) + CardsAll(s, ts.value, 1, dir, y)
  {
    var cur := new Cursor(y);
    ys := p.PlaceAll(s, ids, 1, dir, cur, u, ts);
    end := cur.y;
  }

  /** Both sides, the right one first. */
  method PlaceSides(s: Scene, root: string, left: seq<string>, right: seq<string>, y: real, p: Placement,
                    ghost u: set<string>, ghost ts: Option<seq<Tree>>)
    returns (all: seq<real>, end: real)
    requires Bounded(s, u) && Permuted(left + right, s.kids(root))
    requires ts.Some? ==> TreesHere(s, s.kids(root), ts.value, p.seen)
    modifies p
    ensures old(p.placed) <= p.placed && Visited(s, s.kids(root), old(p.seen), p.seen, p.placed[|old(p.placed)|..])
    ensures Carded(old(p.pos), p.pos, p.placed[|old(p.placed)|..])
    ensures ts.Some? ==> SidesPlaced(s, L.Plan(root, PickAll(ts.value, left), PickAll(ts.value, right)), y,
                                     old(p.pos), p.pos, all, end)
    ensures ts.Some? ==> p.seen == old(p.seen) + IdsAll(ts.value)
  {
    PermutedMembers(left + right, s.kids(root));
    SidesKnown(s, left, right, root, u);
    ghost var was, seen, placed := p.pos, p.seen, p.placed;
    if ts.Some? { SidesHere(s, root, ts.value, left, right, p.seen); }
    var ysR, endR := PlaceSide(s, right, Right, y, p, u, if ts.Some? then Some(PickAll(ts.value, right)) else None);
    ghost var mid, seen', met := p.pos, p.seen, p.placed[|placed|..];
    ghost var placed' := p.placed;
    var ysL, endL := PlaceSide(s, left, Left, y, p, u, if ts.Some? then Some(PickAll(ts.value, left)) else None);
    ghost var met' := p.placed[|placed'|..];
    assert p.placed[|placed|..] == met + met';
    VisitedBoth(s, right, left, seen, seen', p.seen, met, met');
    VisitedSame(s, right + left, s.kids(root), seen, p.seen, met + met');
    CardedBoth(was, mid, p.pos, met, met');
    all, end := ysR + ysL, L.Max(endR, endL);
  }

  lemma SidesKnown(s: Scene, left: seq<string>, right: seq<string>, root: string, u: set<string>)
    requires Bounded(s, u) && forall id :: id in left + right <==> id in s.kids(root)
    ensures (forall id :: id in left ==> id in u) && (forall id :: id in right ==> id in u)
    ensures forall id :: id in right + left <==> id in s.kids(root)
  {
    forall id
      ensures id in left || id in right <==> id in s.kids(root)
    {
      assert id in left + right <==> id in left || id in right;
    }
  }

  lemma VisitedSame(s: Scene, from: seq<string>, from': seq<string>, was: set<string>, seen: set<string>,
                    met: seq<string>)
    requires Visited(s, from, was, seen, met) && forall id :: id in from <==> id in from'
    ensures Visited(s, from', was, seen, met)
  {
    forall x | x in met ensures LeadsFrom(s, from', x) { LeadsFromMore(s, from, from', x); }
  }

  /** Each side's trees are there to be drawn, also once the right side is. */
  lemma SidesHere(s: Scene, root: string, ts: seq<Tree>, left: seq<string>, right: seq<string>, seen: set<string>)
    requires TreesHere(s, s.kids(root), ts, seen) && Permuted(left + right, s.kids(root))
    ensures TreesHere(s, right, PickAll(ts, right), seen)
    ensures TreesHere(s, left, PickAll(ts, left), seen + IdsAll(PickAll(ts, right)))
    ensures IdsAll(PickAll(ts, left)) + IdsAll(PickAll(ts, right)) == IdsAll(ts)
  {
    assert s.kids(root) == IdList(ts);
    SidesPartition(ts, left, right);
    PickedApart(s, ts, left);
    PickedApart(s, ts, right);
  }

  ghost predicate SidesPlaced(s: Scene, plan: L.Plan, y: real, was: map<string, Card>, pos: map<string, Card>,
                              all: seq<real>, end: real)
  {
    && all == Centres(s, plan.right, y) + Centres(s, plan.left, y) && end == y + L.Reach(s, plan)
    && pos == was + CardsAll(s, plan.right, 1, Right, y) + CardsAll(s, plan.left, 1, Left, y)
  }

  method RootCentre(s: Scene, root: string, all: seq<real>, y: real) returns (rootY: real)
    ensures rootY == if all == [] then y + s.height(root) / 2.0 else (L.Lowest(all) + L.Highest(all)) / 2.0
  {
    rootY := y + s.height(root) / 2.0;
    if |all| > 0 {
      var lo, hi := Extremes(all);
      rootY := (lo + hi) / 2.0;
    }
  }

  method PlaceRoot(s: Scene, root: string, left: seq<string>, right: seq<string>, y: real, p: Placement,
                   ghost u: set<string>, ghost ts: Option<seq<Tree>>)
    returns (next: real)
    requires Bounded(s, u) && Permuted(left + right, s.kids(root))
    requires ts.Some? ==> TreesHere(s, s.kids(root), ts.value, p.seen)
    modifies p
    ensures old(p.placed) <= p.placed && Visited(s, s.kids(root), old(p.seen), p.seen, p.placed[|old(p.placed)|..])
    ensures Carded(old(p.pos), p.pos, p.placed[|old(p.placed)|..] + [root])
    ensures ts.Some? ==>
      var plan := L.Plan(root, PickAll(ts.value, left), PickAll(ts.value, right));
      && next == y + L.Reach(s, plan) + 2.0 * VGAP && p.pos == old(p.pos) + L.PlanCards(s, plan, y)
    ensures ts.Some? ==> p.seen == old(p.seen) + IdsAll(ts.value)
  {
    ghost var was := p.pos;
    var all, end := PlaceSides(s, root, left, right, y, p, u, ts);
    var rootY := RootCentre(s, root, all, y);
    if ts.Some? {
      RootDrawn(s, L.Plan(root, PickAll(ts.value, left), PickAll(ts.value, right)), y, was, p.pos, all, end, rootY);
    }
    p.pos := p.pos[root := CardAt(s, root, 0, Right, rootY)];
    next := end + 2.0 * VGAP;
  }

  lemma RootDrawn(s: Scene, plan: L.Plan, y: real, was: map<string, Card>, pos: map<string, Card>,
                  all: seq<real>, end: real, rootY: real)
    requires SidesPlaced(s, plan, y, was, pos, all, end)
    requires rootY == if all == [] then y + s.height(plan.root) / 2.0 else (L.Lowest(all) + L.Highest(all)) / 2.0
    ensures pos[plan.root := CardAt(s, plan.root, 0, Right, rootY)] == was + L.PlanCards(s, plan, y)
  {
    assert rootY == L.RootY(s, plan, y);
    PosOfRoot(was, CardsAll(s, plan.right, 1, Right, y), CardsAll(s, plan.left, 1, Left, y), plan.root,
              CardAt(s, plan.root, 0, Right, rootY));
  }

  lemma PosOfRoot(was: map<string, Card>, r: map<string, Card>, l: map<string, Card>, root: string, c: Card)
    ensures (was + r + l)[root := c] == was + (r + l)[root := c]
  {
  }

  // ------------------------------------------------------------------ all roots

  method LayOutRoot(s: Scene, st: Style,
                    root: string, y: real, w: Weights, p: Placement, ghost u: set<string>, ghost t: Option<Tree>)
    returns (next: real, ghost plan: L.Plan)
    requires Bounded(s, u) && (t.Some? ==> TreeHere(s, root, t.value, p.seen) && Fits(w.memo, t.value))
    modifies w, p
    ensures old(p.placed) <= p.placed && Visited(s, s.kids(root), old(p.seen), p.seen, p.placed[|old(p.placed)|..])
    ensures Carded(old(p.pos), p.pos, p.placed[|old(p.placed)|..] + [root])
    ensures t.Some? ==> IsPlanOf(s, st, plan, t.value) && plan == PlanOf(st, t.value)
    ensures t.Some? ==> next == y + L.Reach(s, plan) + 2.0 * VGAP && p.pos == old(p.pos) + L.PlanCards(s, plan, y)
    ensures t.Some? ==> p.seen <= old(p.seen) + Ids(t.value) && SameOutside(old(w.memo), w.memo, Ids(t.value))
  {
    ghost var ts: Option<seq<Tree>> := if t.Some? then Some(t.value.kids) else None;
    ghost var seen, memo := p.seen, w.memo;
    if t.Some? { KidsReady(s, root, t.value, seen, memo); }
    var left, right;
    ghost var ws;
    left, right, ws := PlanRoot(s, st, root, w, u, ts);
    next := PlaceRoot(s, root, left, right, y, p, u, ts);
    plan := L.Plan(root, [], []);
    if t.Some? {
      plan := L.Plan(root, PickAll(t.value.kids, left), PickAll(t.value.kids, right));
      RootPlanned(s, st, root, t.value, left, right, ws, seen, p.seen, memo, w.memo);
    }
  }

  lemma KidsReady(s: Scene, root: string, t: Tree, seen: set<string>, memo: map<string, nat>)
    requires TreeHere(s, root, t, seen) && Fits(memo, t)
    ensures TreesHere(s, s.kids(root), t.kids, seen) && Weighable(s, s.kids(root), t.kids, memo)
  {
    IdsOfTree(t);
  }

  lemma RootPlanned(s: Scene, st: Style, root: string, t: Tree, left: seq<string>, right: seq<string>, ws: seq<nat>,
                    seen: set<string>, seen': set<string>, memo: map<string, nat>, memo': map<string, nat>)
    requires TreeHere(s, root, t, seen) && Permuted(left + right, s.kids(root)) && (left, right) == SidesOf(st, t.kids)
    requires Balanced(L.Plan(root, PickAll(t.kids, left), PickAll(t.kids, right)),
                      PickAll(t.kids, Filter(s.kids(root), st.isNode)),
                      PickAll(t.kids, Filter(s.kids(root), Not(st.isNode))), ws)
    requires seen' == seen + IdsAll(t.kids) && SameOutside(memo, memo', IdsAll(t.kids))
    ensures IsPlanOf(s, st, L.Plan(root, PickAll(t.kids, left), PickAll(t.kids, right)), t)
    ensures PlanOf(st, t) == L.Plan(root, PickAll(t.kids, left), PickAll(t.kids, right))
    ensures seen' <= seen + Ids(t) && SameOutside(memo, memo', Ids(t))
  {
    IdsOfTree(t);
    assert s.kids(root) == IdList(t.kids);
    PlanIsOf(s, st, t, left, right, ws);
    PlanOfSides(st, t, left, right);
  }

  /** The first i trees are planned and drawn, and the others' weights are as good as unknown. */
  ghost predicate LaidOut(s: Scene, st: Style, forest: seq<Tree>, i: nat, plans: seq<L.Plan>, y: real,
                          pos: map<string, Card>, seen: set<string>, memo: map<string, nat>)
    requires i <= |forest|
  {
    && y == L.Top(s, plans) && pos == L.Cards(s, plans) && ArePlansOf(s, st, plans, forest[..i])
    && Planned(st, forest[..i], plans)
    && seen <= IdsAll(forest[..i])
    && forall j :: i <= j < |forest| ==> Fits(memo, forest[j])
  }

  lemma LaidOutStep(s: Scene, st: Style, forest: seq<Tree>, i: nat, plans: seq<L.Plan>, y: real,
                    pos: map<string, Card>, seen: set<string>, memo: map<string, nat>,
                    plan: L.Plan, seen': set<string>, memo': map<string, nat>)
    requires i < |forest| && ApartAll(forest) && LaidOut(s, st, forest, i, plans, y, pos, seen, memo)
    requires IsPlanOf(s, st, plan, forest[i]) && plan == PlanOf(st, forest[i])
    requires seen' <= seen + Ids(forest[i]) && SameOutside(memo, memo', Ids(forest[i]))
    ensures LaidOut(s, st, forest, i + 1, plans + [plan], y + L.Reach(s, plan) + 2.0 * VGAP,
                    pos + L.PlanCards(s, plan, y), seen', memo')
  {
    CardsGrow(s, plans, plan);
    PlansGrow(s, st, plans, plan, forest, i);
    PlannedStep(st, forest, i, plans);
    LaterFit(memo, memo', forest, i);
    SeenGrows(forest, i, seen, seen');
  }

  /** The first n roots and everything below them have cards, and nothing else has. */
  ghost predicate Covered(s: Scene, roots: seq<string>, n: nat, seen: set<string>, pos: map<string, Card>)
    requires n <= |roots|
  {
    && (forall x :: x in pos <==> x in roots[..n] || x in seen)
    && (forall x, c :: x in seen && c in s.kids(x) ==> c in seen)
    && (forall r, c :: r in roots[..n] && c in s.kids(r) ==> c in seen)
    && (forall x :: x in seen ==> LeadsFrom(s, roots[..n], x))
  }

  lemma CoveredStep(s: Scene, roots: seq<string>, n: nat, seen: set<string>, seen': set<string>,
                    pos: map<string, Card>, pos': map<string, Card>, met: seq<string>)
    requires n < |roots| && Covered(s, roots, n, seen, pos)
    requires Visited(s, s.kids(roots[n]), seen, seen', met) && Carded(pos, pos', met + [roots[n]])
    ensures Covered(s, roots, n + 1, seen', pos')
  {
    var more := roots[..n + 1];
    assert more == roots[..n] + [roots[n]];
    assert roots[n] in more;
    forall x | x in seen' ensures LeadsFrom(s, more, x) {
      if x in seen { LeadsFromMore(s, roots[..n], more, x); } else { LeadsThrough(s, more, roots[n], x); }
    }
  }

  lemma {:induction false} PathCovered(s: Scene, roots: seq<string>, seen: set<string>, pos: map<string, Card>,
                                       p: seq<string>, i: nat)
    requires Covered(s, roots, |roots|, seen, pos) && KidPath(s, p) && p[0] in roots && i < |p|
    ensures p[i] in pos && (i > 0 ==> p[i] in seen)
  {
    assert roots[..|roots|] == roots;
    if i > 0 { PathCovered(s, roots, seen, pos, p, i - 1); }
  }

  /** So exactly what the roots lead to is drawn. */
  lemma CoveredIff(s: Scene, roots: seq<string>, seen: set<string>, pos: map<string, Card>, x: string)
    requires Covered(s, roots, |roots|, seen, pos)
    ensures x in pos <==> LeadsFrom(s, roots, x)
  {
    assert roots[..|roots|] == roots;
    if x in roots { LeadsToSelf(s, roots, x); }
    if LeadsFrom(s, roots, x) {
      var p :| Leads(s, p, roots, x);
      PathCovered(s, roots, seen, pos, p, |p| - 1);
    }
  }

  /** A forest with disjoint trees below the roots. */
  ghost predicate ForestHere(s: Scene, roots: seq<string>, forest: seq<Tree>) {
    |forest| == |roots| && ApartAll(forest) && forall i :: 0 <= i < |roots| ==>
        forest[i].id == roots[i] && Spans(s, forest[i])
  }

  /** The loop over the roots. On any graph it ends and draws exactly what the roots
      lead to; where disjoint trees hang below them, it draws one balanced plan a
      root, with the cards that Layout's theorems speak of. */
  method LayOut(s: Scene, st: Style,
                roots: seq<string>, ghost u: set<string>, ghost forest: Option<seq<Tree>>)
    returns (pos: map<string, Card>)
    requires Bounded(s, u) && (forest.Some? ==> ForestHere(s, roots, forest.value))
    ensures forall x :: x in pos <==> LeadsFrom(s, roots, x)
    ensures forest.Some? ==> exists plans :: Draws(s, st, forest.value, plans, pos) && Planned(st, forest.value, plans)
  {
    var w := new Weights();
    var p := new Placement();
    var y := 0.0;
    ghost var plans: seq<L.Plan> := [];
    if forest.Some? { NothingLaidOut(s, st, roots, forest.value); }
    for i := 0 to |roots|
      invariant Covered(s, roots, i, p.seen, p.pos)
      invariant forest.Some? ==> LaidOut(s, st, forest.value, i, plans, y, p.pos, p.seen, w.memo)
    {
      y, plans := LayOutNext(s, st, roots, i, y, w, p, u, forest, plans);
    }
    pos := p.pos;
    forall x ensures x in pos <==> LeadsFrom(s, roots, x) { CoveredIff(s, roots, p.seen, p.pos, x); }
    if forest.Some? { AllLaidOut(s, st, forest.value, plans, y, p.pos, p.seen, w.memo); }
  }

  /** One turn of the loop. */
  method LayOutNext(s: Scene, st: Style,
                    roots: seq<string>, i: nat, y: real, w: Weights, p: Placement,
                    ghost u: set<string>, ghost forest: Option<seq<Tree>>, ghost plans: seq<L.Plan>)
    returns (next: real, ghost plans': seq<L.Plan>)
    requires Bounded(s, u) && i < |roots| && (forest.Some? ==> ForestHere(s, roots, forest.value))
    requires Covered(s, roots, i, p.seen, p.pos)
    requires forest.Some? ==> LaidOut(s, st, forest.value, i, plans, y, p.pos, p.seen, w.memo)
    modifies w, p
    ensures Covered(s, roots, i + 1, p.seen, p.pos)
    ensures forest.Some? ==> LaidOut(s, st, forest.value, i + 1, plans', next, p.pos, p.seen, w.memo)
  {
    ghost var sofar, drawn, was, placed := p.seen, p.pos, w.memo, p.placed;
    if forest.Some? { UnseenYet(forest.value, i, sofar); }
    ghost var plan;
    next, plan := LayOutRoot(s, st, roots[i], y, w, p, u, if forest.Some? then Some(forest.value[i]) else None);
    CoveredStep(s, roots, i, sofar, p.seen, drawn, p.pos, p.placed[|placed|..]);
    plans' := plans + [plan];
    if forest.Some? { LaidOutStep(s, st, forest.value, i, plans, y, drawn, sofar, was, plan, p.seen, w.memo); }
  }

  lemma NothingLaidOut(s: Scene, st: Style, roots: seq<string>, forest: seq<Tree>)
    requires ForestHere(s, roots, forest)
    ensures LaidOut(s, st, forest, 0, [], 0.0, map[], {}, map[])
  {
    FreshMemoFits(forest);
  }

  lemma AllLaidOut(s: Scene, st: Style, forest: seq<Tree>, plans: seq<L.Plan>, y: real,
                   pos: map<string, Card>, seen: set<string>, memo: map<string, nat>)
    requires ApartAll(forest) && LaidOut(s, st, forest, |forest|, plans, y, pos, seen, memo)
    ensures Draws(s, st, forest, plans, pos) && Planned(st, forest, plans)
  {
    assert forest[..|forest|] == forest;
    PlansApart(s, st, plans, forest);
  }

  /** pos holds the cards of one balanced plan a tree. */
  ghost predicate Draws(s: Scene, st: Style, forest: seq<Tree>, plans: seq<L.Plan>, pos: map<string, Card>) {
    pos == L.Cards(s, plans) && L.RootsApart(plans) && ArePlansOf(s, st, plans, forest)
  }

  /** pos is what these trees, and nothing else, determine. */
  ghost predicate Shows(s: Scene, st: Style, roots: seq<string>, forest: seq<Tree>, pos: map<string, Card>) {
    ForestHere(s, roots, forest) && pos == L.Cards(s, PlansOf(st, forest))
  }

  /** One plan for each tree. */
  ghost predicate ArePlansOf(s: Scene, st: Style, plans: seq<L.Plan>, forest: seq<Tree>) {
    |plans| == |forest| && forall i :: 0 <= i < |plans| ==> IsPlanOf(s, st, plans[i], forest[i])
  }

  lemma PlansGrow(s: Scene, st: Style, plans: seq<L.Plan>, plan: L.Plan, forest: seq<Tree>, i: nat)
    requires i < |forest| && ArePlansOf(s, st, plans, forest[..i]) && IsPlanOf(s, st, plan, forest[i])
    ensures ArePlansOf(s, st, plans + [plan], forest[..i + 1])
  {
    forall j | 0 <= j <= i ensures IsPlanOf(s, st, (plans + [plan])[j], forest[..i + 1][j]) {
      if j < i { assert IsPlanOf(s, st, plans[j], forest[..i][j]); }
    }
  }

  lemma UnseenYet(forest: seq<Tree>, i: nat, seen: set<string>)
    requires i < |forest| && ApartAll(forest) && seen <= IdsAll(forest[..i])
    ensures Ids(forest[i]) !! seen
  {
    PrefixApart(forest, i);
  }

  lemma SeenGrows(forest: seq<Tree>, i: nat, was: set<string>, seen: set<string>)
    requires i < |forest| && was <= IdsAll(forest[..i]) && seen <= was + Ids(forest[i])
    ensures seen <= IdsAll(forest[..i + 1])
  {
    IdsSplit(forest, i);
  }

  lemma LaterFit(was: map<string, nat>, memo: map<string, nat>, ts: seq<Tree>, i: nat)
    requires ApartAll(ts) && i < |ts| && SameOutside(was, memo, Ids(ts[i]))
    requires forall j :: i <= j < |ts| ==> Fits(was, ts[j])
    ensures forall j :: i + 1 <= j < |ts| ==> Fits(memo, ts[j])
  {
    forall j | i + 1 <= j < |ts| ensures Fits(memo, ts[j]) { OthersFit(was, memo, ts, i, j); }
  }

  lemma CardsGrow(s: Scene, plans: seq<L.Plan>, plan: L.Plan)
    ensures L.Cards(s, plans + [plan]) == L.Cards(s, plans) + L.PlanCards(s, plan, L.Top(s, plans))
    ensures L.Top(s, plans + [plan]) == L.Top(s, plans) + L.Reach(s, plan) + 2.0 * VGAP
  {
    assert (plans + [plan])[..|plans|] == plans;
  }

  lemma FreshMemoFits(ts: seq<Tree>)
    ensures forall i :: 0 <= i < |ts| ==> Fits(map[], ts[i])
  {
    forall i | 0 <= i < |ts| ensures Fits(map[], ts[i]) { EmptyFits(ts[i]); }
  }

  lemma {:induction false} EmptyFits(t: Tree)
    ensures Fits(map[], t)
  {
    forall i | 0 <= i < |t.kids| ensures Fits(map[], t.kids[i]) { EmptyFits(t.kids[i]); }
  }

  /** p draws exactly t's vertices, its children divided over the sides
      heaviest first. */
  ghost predicate IsPlanOf(s: Scene, st: Style, p: L.Plan, t: Tree) {
    && p.root == t.id && L.PlanIds(p) == Ids(t)
    && multiset(p.left + p.right) == multiset(t.kids)
    && exists ws :: Balanced(p, PickAll(t.kids, Filter(s.kids(t.id), st.isNode)),
                             PickAll(t.kids, Filter(s.kids(t.id), Not(st.isNode))), ws)
  }

  lemma PlanIsOf(s: Scene, st: Style, t: Tree, left: seq<string>, right: seq<string>, ws: seq<nat>)
    requires Spans(s, t) && ApartAll(t.kids) && Permuted(left + right, IdList(t.kids))
    requires Balanced(L.Plan(t.id, PickAll(t.kids, left), PickAll(t.kids, right)),
                      PickAll(t.kids, Filter(s.kids(t.id), st.isNode)),
                      PickAll(t.kids, Filter(s.kids(t.id), Not(st.isNode))), ws)
    ensures IsPlanOf(s, st, L.Plan(t.id, PickAll(t.kids, left), PickAll(t.kids, right)), t)
  {
    PlanHoldsAll(t, left, right);
  }

  lemma PlanOfSides(st: Style, t: Tree, left: seq<string>, right: seq<string>)
    requires (left, right) == SidesOf(st, t.kids)
    ensures PlanOf(st, t) == L.Plan(t.id, PickAll(t.kids, left), PickAll(t.kids, right))
  {
  }

  /** The plan's vertices and subtrees are the tree's. */
  lemma PlanHoldsAll(t: Tree, left: seq<string>, right: seq<string>)
    requires ApartAll(t.kids) && Permuted(left + right, IdList(t.kids))
    ensures var p := L.Plan(t.id, PickAll(t.kids, left), PickAll(t.kids, right));
      L.PlanIds(p) == Ids(t) && multiset(p.left + p.right) == multiset(t.kids)
  {
    SidesPartition(t.kids, left, right);
    IdsOfTree(t);
    PickedPermuted(t.kids, left + right);
    PickAllConcat(t.kids, left, right);
  }

  lemma PickAllConcat(ts: seq<Tree>, a: seq<string>, b: seq<string>)
    ensures PickAll(ts, a + b) == PickAll(ts, a) + PickAll(ts, b)
  {
  }

  lemma PickedPermuted(ts: seq<Tree>, ids: seq<string>)
    requires ApartAll(ts) && Permuted(ids, IdList(ts))
    ensures multiset(PickAll(ts, ids)) == multiset(ts)
  {
    var f := (id: string) => [Pick(ts, id)];
    FlatMapPermuted(ids, IdList(ts), f);
    FlatMapPointwise(ids, f);
    FlatMapPointwise(IdList(ts), f);
    assert FlatMap(ids, f) == PickAll(ts, ids);
    forall i | 0 <= i < |ts| ensures FlatMap(IdList(ts), f)[i] == ts[i] { PickAt(ts, i); }
    assert FlatMap(IdList(ts), f) == ts;
  }

  lemma PlansApart(s: Scene, st: Style, plans: seq<L.Plan>, forest: seq<Tree>)
    requires ApartAll(forest) && ArePlansOf(s, st, plans, forest)
    ensures L.RootsApart(plans)
  {
    forall i, j | 0 <= i < j < |plans| ensures L.PlanIds(plans[i]) !! L.PlanIds(plans[j]) {
      assert IsPlanOf(s, st, plans[i], forest[i]) && IsPlanOf(s, st, plans[j], forest[j]);
      assert Ids(forest[i]) !! Ids(forest[j]);
    }
  }

  /** With Nodes collapsed the sides differ by no more than the heaviest child,
      and the heavier side is within 7/6 of that of any other division. */
  lemma CollapsedSidesBalance(s: Scene, st: Style, p: L.Plan, t: Tree, heaviest: nat) returns (ws: seq<nat>)
    requires IsPlanOf(s, st, p, t) && Filter(s.kids(t.id), st.isNode) == []
    requires forall u :: u in PickAll(t.kids, Filter(s.kids(t.id), Not(st.isNode))) ==> Leaves(u) <= heaviest
    ensures multiset(ws) == multiset(LeafCounts(PickAll(t.kids, Filter(s.kids(t.id), Not(st.isNode)))))
    ensures Loads(LeavesAll(p.left), LeavesAll(p.right)).Gap() <= heaviest
    ensures forall split :: |split| == |ws| ==>
      6 * Loads(LeavesAll(p.left), LeavesAll(p.right)).Max() <= 7 * Heavier(ws, split, |ws|)
  {
    var nodes := PickAll(t.kids, Filter(s.kids(t.id), st.isNode));
    var others := PickAll(t.kids, Filter(s.kids(t.id), Not(st.isNode)));
    ws :| Balanced(p, nodes, others, ws);
    assert nodes == [];
    forall i | 0 <= i < |ws| ensures ws[i] <= heaviest {
      assert ws[i] in multiset(ws);
      assert ws[i] in multiset(LeafCounts(others));
      var k := PositionIn(LeafCounts(others), ws[i]);
      assert others[k] in others;
    }
    GapBounded(0, ws, |ws|, heaviest);
    forall split: seq<bool> | |split| == |ws|
      ensures 6 * Loads(LeavesAll(p.left), LeavesAll(p.right)).Max() <= 7 * Heavier(ws, split, |ws|)
    {
      GreedyWithinSevenSixths(ws, split, |ws|);
    }
  }
}
