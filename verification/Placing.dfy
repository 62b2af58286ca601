/** Placing the visible tree (internal/web/static/app.js, relayout's place and
    weight). Coordinates are real numbers. */
module Placing {
  import opened Seqs

  const COLGAP := 214.0
  const VGAP := 12.0

  /** What the recursion looks up: the visible children of a vertex, in drawing
      order, and the size of its card. */
  datatype Scene = Scene(kids: string -> seq<string>, width: string -> real, height: string -> real)

  /** The tree below a vertex, when there is one. */
  datatype Tree = Tree(id: string, kids: seq<Tree>)

  predicate Spans(s: Scene, t: Tree) {
    && |t.kids| == |s.kids(t.id)|
    && forall i :: 0 <= i < |t.kids| ==> t.kids[i].id == s.kids(t.id)[i] && Spans(s, t.kids[i])
  }

  function Ids(t: Tree): set<string> {
    {t.id} + set i, x | 0 <= i < |t.kids| && x in Ids(t.kids[i]) :: x
  }

  function IdsAll(ts: seq<Tree>): set<string> {
    set i, x | 0 <= i < |ts| && x in Ids(ts[i]) :: x
  }

  /** No vertex occurs twice in t. */
  predicate Apart(t: Tree) {
    && t.id !in IdsAll(t.kids)
    && (forall i :: 0 <= i < |t.kids| ==> Apart(t.kids[i]))
    && forall i, j :: 0 <= i < j < |t.kids| ==> Ids(t.kids[i]) !! Ids(t.kids[j])
  }

  predicate ApartAll(ts: seq<Tree>) {
    && (forall i :: 0 <= i < |ts| ==> Apart(ts[i]))
    && forall i, j :: 0 <= i < j < |ts| ==> Ids(ts[i]) !! Ids(ts[j])
  }

  lemma IdsSplit(ts: seq<Tree>, n: nat)
    requires n < |ts|
    ensures IdsAll(ts[..n + 1]) == IdsAll(ts[..n]) + Ids(ts[n])
  {
    var a, b := ts[..n], ts[..n + 1];
    forall x ensures x in IdsAll(b) <==> x in IdsAll(a) || x in Ids(ts[n]) {
      if x in IdsAll(a) {
        var i :| 0 <= i < |a| && x in Ids(a[i]);
        assert x in Ids(b[i]);
      }
      if x in Ids(ts[n]) { assert x in Ids(b[n]); }
      if x in IdsAll(b) {
        var i :| 0 <= i < |b| && x in Ids(b[i]);
        if i < n { assert x in Ids(a[i]); }
      }
    }
  }

  lemma PrefixApart(ts: seq<Tree>, n: nat)
    requires n < |ts| && ApartAll(ts)
    ensures IdsAll(ts[..n]) !! Ids(ts[n])
  {
    forall x | x in IdsAll(ts[..n]) ensures x !in Ids(ts[n]) {
      var i :| 0 <= i < n && x in Ids(ts[..n][i]);
      assert Ids(ts[i]) !! Ids(ts[n]);
    }
  }

  // -------------------------------------------------------------------- cards

  datatype Dir = Right | Left

  /** A card's left edge, its vertical centre and its size. */
  datatype Card = Card(x: real, y: real, w: real, h: real)

  function Column(depth: nat): real { depth as real * COLGAP }

  function CardAt(s: Scene, id: string, depth: nat, dir: Dir, y: real): Card {
    var w := s.width(id);
    Card(if depth == 0 then 0.0 else if dir == Right then Column(depth) else -Column(depth) - w, y, w, s.height(id))
  }

  /** How far placing t moves the cursor down. */
  function Span(s: Scene, t: Tree): real {
    if t.kids == [] then s.height(t.id) + VGAP else SpanAll(s, t.kids)
  }

  function SpanAll(s: Scene, ts: seq<Tree>): real {
    if ts == [] then 0.0 else SpanAll(s, ts[..|ts| - 1]) + Span(s, ts[|ts| - 1])
  }

  /** How far below the cursor t's root is centred. */
  function Mid(s: Scene, t: Tree): real {
    if t.kids == [] then s.height(t.id) / 2.0
    else
      var n := |t.kids| - 1;
      (Mid(s, t.kids[0]) + (SpanAll(s, t.kids[..n]) + Mid(s, t.kids[n]))) / 2.0
  }

  function Cards(s: Scene, t: Tree, depth: nat, dir: Dir, y: real): map<string, Card> {
    CardsAll(s, t.kids, depth + 1, dir, y)[t.id := CardAt(s, t.id, depth, dir, y + Mid(s, t))]
  }

  function CardsAll(s: Scene, ts: seq<Tree>, depth: nat, dir: Dir, y: real): map<string, Card> {
    if ts == [] then map[]
    else
      CardsAll(s, ts[..|ts| - 1], depth, dir, y)
      + Cards(s, ts[|ts| - 1], depth, dir, y + SpanAll(s, ts[..|ts| - 1]))
  }

  // -------------------------------------------------------------------- place

  /** The mutable { y } that place threads through. */
  class Cursor {
    var y: real

    constructor (y: real)
      ensures this.y == y
    {
      this.y := y;
    }
  }

  /** The centres of trees placed one below the other from y. */
  function Centres(s: Scene, ts: seq<Tree>, y: real): (r: seq<real>)
    ensures |r| == |ts|
  {
    if ts == [] then []
    else Centres(s, ts[..|ts| - 1], y) + [y + SpanAll(s, ts[..|ts| - 1]) + Mid(s, ts[|ts| - 1])]
  }

  lemma CentresStep(s: Scene, ts: seq<Tree>, n: nat, y: real)
    requires n < |ts|
    ensures Centres(s, ts[..n + 1], y) == Centres(s, ts[..n], y) + [y + SpanAll(s, ts[..n]) + Mid(s, ts[n])]
    ensures SpanAll(s, ts[..n + 1]) == SpanAll(s, ts[..n]) + Span(s, ts[n])
  {
    assert ts[..n + 1][..n] == ts[..n];
  }

  lemma CentresGrow(s: Scene, ts: seq<Tree>, n: nat, y: real, ys: seq<real>, c: real)
    requires n < |ts| && ys == Centres(s, ts[..n], y) && c == y + SpanAll(s, ts[..n]) + Mid(s, ts[n])
    ensures ys + [c] == Centres(s, ts[..n + 1], y)
  {
    CentresStep(s, ts, n, y);
  }

  lemma CardsStep(s: Scene, ts: seq<Tree>, n: nat, depth: nat, dir: Dir, y: real)
    requires n < |ts|
    ensures CardsAll(s, ts[..n + 1], depth, dir, y)
            == CardsAll(s, ts[..n], depth, dir, y) + Cards(s, ts[n], depth, dir, y + SpanAll(s, ts[..n]))
  {
    assert ts[..n + 1][..n] == ts[..n];
  }

  lemma CentresEnds(s: Scene, ts: seq<Tree>, y: real)
    requires ts != []
    ensures Centres(s, ts, y)[0] == y + Mid(s, ts[0])
    ensures Centres(s, ts, y)[|ts| - 1] == y + SpanAll(s, ts[..|ts| - 1]) + Mid(s, ts[|ts| - 1])
  {
    CentresAt(s, ts, 0, y);
    assert ts[..0] == [];
  }

  lemma MidOfKids(s: Scene, t: Tree, y: real)
    requires t.kids != []
    ensures var cs := Centres(s, t.kids, y); (cs[0] + cs[|cs| - 1]) / 2.0 == y + Mid(s, t)
  {
    CentresEnds(s, t.kids, y);
  }

  lemma {:induction false} CentresAt(s: Scene, ts: seq<Tree>, i: nat, y: real)
    requires i < |ts|
    ensures Centres(s, ts, y)[i] == y + SpanAll(s, ts[..i]) + Mid(s, ts[i])
    decreases |ts|
  {
    if i < |ts| - 1 {
      CentresAt(s, ts[..|ts| - 1], i, y);
      assert ts[..|ts| - 1][..i] == ts[..i];
    }
  }

  /** The state that placing runs over. */
  datatype Spot = Spot(y: real, seen: set<string>, pos: map<string, Card>)

  function Placed(s: Scene, t: Tree, depth: nat, dir: Dir, at: Spot): Spot {
    Spot(at.y + Span(s, t), at.seen + Ids(t), at.pos + Cards(s, t, depth, dir, at.y))
  }

  function PlacedAll(s: Scene, ts: seq<Tree>, depth: nat, dir: Dir, at: Spot): Spot {
    Spot(at.y + SpanAll(s, ts), at.seen + IdsAll(ts), at.pos + CardsAll(s, ts, depth, dir, at.y))
  }

  lemma PosStep(s: Scene, ts: seq<Tree>, n: nat, depth: nat, dir: Dir, y: real, pos: map<string, Card>)
    requires n < |ts|
    ensures pos + CardsAll(s, ts[..n + 1], depth, dir, y)
            == pos + CardsAll(s, ts[..n], depth, dir, y) + Cards(s, ts[n], depth, dir, y + SpanAll(s, ts[..n]))
  {
    CardsStep(s, ts, n, depth, dir, y);
    MapUnion(pos, CardsAll(s, ts[..n], depth, dir, y), Cards(s, ts[n], depth, dir, y + SpanAll(s, ts[..n])));
  }

  lemma SetUnion(a: set<string>, b: set<string>, c: set<string>)
    ensures a + b + c == a + (b + c)
  {
  }

  lemma PlacedStep(s: Scene, ts: seq<Tree>, n: nat, depth: nat, dir: Dir, at: Spot)
    requires n < |ts|
    ensures Placed(s, ts[n], depth, dir, PlacedAll(s, ts[..n], depth, dir, at))
            == PlacedAll(s, ts[..n + 1], depth, dir, at)
  {
    SeenStep(ts, n, at.seen);
    CentresStep(s, ts, n, at.y);
    PosStep(s, ts, n, depth, dir, at.y, at.pos);
    SameSpot(Placed(s, ts[n], depth, dir, PlacedAll(s, ts[..n], depth, dir, at)),
             PlacedAll(s, ts[..n + 1], depth, dir, at));
  }

  lemma SeenStep(ts: seq<Tree>, n: nat, seen: set<string>)
    requires n < |ts|
    ensures seen + IdsAll(ts[..n + 1]) == seen + IdsAll(ts[..n]) + Ids(ts[n])
  {
    IdsSplit(ts, n);
    SetUnion(seen, IdsAll(ts[..n]), Ids(ts[n]));
  }

  lemma SameSpot(a: Spot, b: Spot)
    requires a.y == b.y && a.seen == b.seen && a.pos == b.pos
    ensures a == b
  {
  }

  lemma MapUnion(a: map<string, Card>, b: map<string, Card>, c: map<string, Card>)
    ensures a + b + c == a + (b + c)
  {
  }

  lemma MapUpdate(a: map<string, Card>, b: map<string, Card>, k: string, c: Card)
    ensures (a + b)[k := c] == a + b[k := c]
  {
  }

  lemma IdsOfTree(t: Tree)
    ensures Ids(t) == {t.id} + IdsAll(t.kids)
  {
  }

  /** Placing a vertex with children is placing the children, then its card. */
  lemma PlacedParent(s: Scene, t: Tree, depth: nat, dir: Dir, at: Spot, all: Spot)
    requires t.kids != [] && all == PlacedAll(s, t.kids, depth + 1, dir, at.(seen := at.seen + {t.id}))
    ensures Placed(s, t, depth, dir, at) == WithCard(all, s, t, depth, dir, at.y)
  {
    IdsOfTree(t);
    SetUnion(at.seen, {t.id}, IdsAll(t.kids));
    MapUpdate(at.pos, CardsAll(s, t.kids, depth + 1, dir, at.y), t.id, CardAt(s, t.id, depth, dir, at.y + Mid(s, t)));
  }

  /** The card of t itself, its span starting at y. */
  function WithCard(all: Spot, s: Scene, t: Tree, depth: nat, dir: Dir, y: real): Spot {
    all.(pos := all.pos[t.id := CardAt(s, t.id, depth, dir, y + Mid(s, t))])
  }

  lemma PlacedLeaf(s: Scene, t: Tree, depth: nat, dir: Dir, at: Spot, all: Spot)
    requires t.kids == [] && all == Spot(at.y + s.height(t.id) + VGAP, at.seen + {t.id}, at.pos)
    ensures Placed(s, t, depth, dir, at) == WithCard(all, s, t, depth, dir, at.y)
  {
    assert Ids(t) == {t.id};
    assert CardsAll(s, t.kids, depth + 1, dir, at.y) == map[];
  }

  // ------------------------------------------------------- placing on any graph

  /** Children always lie in u: the client's nodes. */
  ghost predicate Bounded(s: Scene, u: set<string>) {
    forall id, c :: c in s.kids(id) ==> c in u
  }

  /** Each vertex a child of the one before. */
  ghost predicate KidPath(s: Scene, p: seq<string>) {
    p != [] && forall i :: 0 < i < |p| ==> p[i] in s.kids(p[i - 1])
  }

  ghost predicate Leads(s: Scene, p: seq<string>, from: seq<string>, x: string) {
    KidPath(s, p) && p[0] in from && p[|p| - 1] == x
  }

  ghost predicate LeadsFrom(s: Scene, from: seq<string>, x: string) {
    exists p :: Leads(s, p, from, x)
  }

  lemma LeadsToSelf(s: Scene, from: seq<string>, x: string)
    requires x in from
    ensures LeadsFrom(s, from, x)
  {
    assert Leads(s, [x], from, x);
  }

  lemma LeadsOn(s: Scene, from: seq<string>, x: string, c: string)
    requires LeadsFrom(s, from, x) && c in s.kids(x)
    ensures LeadsFrom(s, from, c)
  {
    var p :| Leads(s, p, from, x);
    assert Leads(s, p + [c], from, c);
  }

  lemma LeadsThrough(s: Scene, from: seq<string>, id: string, x: string)
    requires LeadsFrom(s, s.kids(id), x) && id in from
    ensures LeadsFrom(s, from, x)
  {
    var p :| Leads(s, p, s.kids(id), x);
    var q := [id] + p;
    forall i | 0 < i < |q| ensures q[i] in s.kids(q[i - 1]) {
      if i > 1 { assert p[i - 1] in s.kids(p[i - 2]); }
    }
    assert Leads(s, q, from, x);
  }

  lemma LeadsFromMore(s: Scene, from: seq<string>, more: seq<string>, x: string)
    requires LeadsFrom(s, from, x) && forall id :: id in from ==> id in more
    ensures LeadsFrom(s, more, x)
  {
    var p :| Leads(s, p, from, x);
    assert Leads(s, p, more, x);
  }

  /** A traversal from these vertices: it turned `was` into `seen`, met each vertex
      of `met` once and no other, left no child of theirs out, and met only what
      the start leads to. */
  ghost predicate Visited(s: Scene, from: seq<string>, was: set<string>, seen: set<string>, met: seq<string>) {
    && NoRepeats(met) && (forall x :: x in met ==> x !in was)
    && (forall x :: x in seen <==> x in was || x in met)
    && (forall x :: x in from ==> x in seen)
    && (forall x, c :: x in met && c in s.kids(x) ==> c in seen)
    && (forall x :: x in met ==> LeadsFrom(s, from, x))
  }

  lemma VisitedNone(s: Scene, was: set<string>)
    ensures Visited(s, [], was, was, [])
  {
  }

  lemma VisitedSeen(s: Scene, id: string, was: set<string>)
    requires id in was
    ensures Visited(s, [id], was, was, [])
  {
  }

  lemma JoinNoRepeats(a: seq<string>, b: seq<string>)
    requires NoRepeats(a) && NoRepeats(b) && forall x :: x in b ==> x !in a
    ensures NoRepeats(a + b)
  {
    forall i, j | 0 <= i < j < |a + b| ensures (a + b)[i] != (a + b)[j] {
      if i < |a| <= j { assert a[i] in a && b[j - |a|] in b; }
    }
  }

  /** First some, then others. */
  lemma VisitedBoth(s: Scene, from: seq<string>, more: seq<string>, was: set<string>, mid: set<string>,
                    seen: set<string>,
                    met: seq<string>, met': seq<string>)
    requires Visited(s, from, was, mid, met) && Visited(s, more, mid, seen, met')
    ensures Visited(s, from + more, was, seen, met + met')
  {
    JoinNoRepeats(met, met');
    forall x | x in met + met' ensures LeadsFrom(s, from + more, x) {
      if x in met { LeadsFromMore(s, from, from + more, x); } else { LeadsFromMore(s, more, from + more, x); }
    }
  }

  /** The children first, then the vertex itself. */
  lemma VisitedVertex(s: Scene, id: string, was: set<string>, seen: set<string>, met: seq<string>)
    requires id !in was && Visited(s, s.kids(id), was + {id}, seen, met)
    ensures Visited(s, [id], was, seen, met + [id])
  {
    JoinNoRepeats(met, [id]);
    LeadsToSelf(s, [id], id);
    forall x | x in met ensures LeadsFrom(s, [id], x) { LeadsThrough(s, [id], id, x); }
  }

  /** Exactly the vertices met got a card. */
  ghost predicate Carded(pos: map<string, Card>, pos': map<string, Card>, met: seq<string>) {
    && (forall x :: x in pos' <==> x in pos || x in met)
    && (forall x :: x in pos && x !in met ==> pos'[x] == pos[x])
  }

  lemma CardedBoth(a: map<string, Card>, b: map<string, Card>, c: map<string, Card>, met: seq<string>,
                   met': seq<string>)
    requires Carded(a, b, met) && Carded(b, c, met')
    ensures Carded(a, c, met + met')
  {
  }

  lemma CardedOne(a: map<string, Card>, b: map<string, Card>, met: seq<string>, id: string, c: Card)
    requires Carded(a, b, met)
    ensures Carded(a, b[id := c], met + [id])
  {
  }

  /** A vertex is drawn after what lies below it. */
  lemma MetVertex(s: Scene, id: string, was: set<string>, seen: set<string>, a: map<string, Card>, b: map<string, Card>,
                  c: Card, before: seq<string>, placed: seq<string>)
    requires before <= placed && id !in was && Visited(s, s.kids(id), was + {id}, seen, placed[|before|..])
    requires Carded(a, b, placed[|before|..])
    ensures before <= placed + [id] && Visited(s, [id], was, seen, (placed + [id])[|before|..])
    ensures Carded(a, b[id := c], (placed + [id])[|before|..])
  {
    var met := placed[|before|..];
    assert (placed + [id])[|before|..] == met + [id];
    VisitedVertex(s, id, was, seen, met);
    CardedOne(a, b, met, id, c);
  }

  /** One more vertex of a list. */
  lemma MetNext(s: Scene, ids: seq<string>, i: nat, was: set<string>, mid: set<string>, seen: set<string>,
                a: map<string, Card>, b: map<string, Card>, c: map<string, Card>,
                before: seq<string>, between: seq<string>, placed: seq<string>)
    requires i < |ids| && before <= between <= placed
    requires Visited(s, ids[..i], was, mid, between[|before|..]) && Visited(s, [ids[i]], mid, seen, placed[|between|..])
    requires Carded(a, b, between[|before|..]) && Carded(b, c, placed[|between|..])
    ensures before <= placed && Visited(s, ids[..i + 1], was, seen, placed[|before|..])
    ensures Carded(a, c, placed[|before|..])
  {
    var met, met' := between[|before|..], placed[|between|..];
    assert placed[|before|..] == met + met';
    assert ids[..i + 1] == ids[..i] + [ids[i]];
    VisitedBoth(s, ids[..i], [ids[i]], was, mid, seen, met, met');
    CardedBoth(a, b, c, met, met');
  }

  /** t is the tree below id, and none of it has been seen. */
  ghost predicate TreeHere(s: Scene, id: string, t: Tree, seen: set<string>) {
    t.id == id && Spans(s, t) && Apart(t) && Ids(t) !! seen
  }

  ghost predicate TreesHere(s: Scene, ids: seq<string>, ts: seq<Tree>, seen: set<string>) {
    && |ids| == |ts| && (forall i :: 0 <= i < |ts| ==> ts[i].id == ids[i] && Spans(s, ts[i]))
    && ApartAll(ts) && IdsAll(ts) !! seen
  }

  /** Where a tree is, its centre and everything drawn are the specified ones. */
  ghost predicate Arrived(s: Scene, t: Option<Tree>, depth: nat, dir: Dir, at: Spot, y: Option<real>, now: Spot) {
    t.Some? ==> y == Some(at.y + Mid(s, t.value)) && now == Placed(s, t.value, depth, dir, at)
  }

  class Placement {
    var seen: set<string>
    var pos: map<string, Card>
    ghost var placed: seq<string>  // the vertices given a card, in turn

    constructor ()
      ensures seen == {} && pos == map[] && placed == []
    {
      seen, pos, placed := {}, map[], [];
    }

    function At(cur: Cursor): Spot
      reads this, cur
    {
      Spot(cur.y, seen, pos)
    }

    /** On any graph, cyclic or not, the recursion ends, and gives a card to each
        vertex met for the first time, once, and to no other. Where a tree hangs
        below, the cards are the tree's. */
    method Place(s: Scene, id: string, depth: nat, dir: Dir, cur: Cursor, ghost u: set<string>, ghost t: Option<Tree>)
      returns (y: Option<real>)
      requires Bounded(s, u) && id in u && (t.Some? ==> TreeHere(s, id, t.value, seen))
      modifies this, cur
      ensures old(placed) <= placed && Visited(s, [id], old(seen), seen, placed[|old(placed)|..])
      ensures Carded(old(pos), pos, placed[|old(placed)|..]) && (y.None? <==> id in old(seen))
      ensures Arrived(s, t, depth, dir, old(At(cur)), y, At(cur))
      decreases u - seen, 0
    {
      if id in seen {
        VisitedSeen(s, id, seen);
        TreeRoot(t, id, s, seen);
        return None;
      }
      ghost var at, before := At(cur), placed;
      seen := seen + {id};
      var centre := PlaceBelow(s, id, depth, dir, cur, u, t, at);
      var card := CardAt(s, id, depth, dir, centre);
      MetVertex(s, id, at.seen, seen, at.pos, pos, card, before, placed);
      pos := pos[id := card];
      placed := placed + [id];
      y := Some(centre);
    }

    /** What lies below a vertex just met, and where that puts its centre. */
    method PlaceBelow(s: Scene, id: string, depth: nat, dir: Dir, cur: Cursor, ghost u: set<string>,
                      ghost t: Option<Tree>,
                      ghost at: Spot)
      returns (centre: real)
      requires Bounded(s, u) && At(cur) == at.(seen := at.seen + {id})
      requires t.Some? ==> TreeHere(s, id, t.value, at.seen)
      modifies this, cur
      ensures old(placed) <= placed && Visited(s, s.kids(id), at.seen + {id}, seen, placed[|old(placed)|..])
      ensures Carded(at.pos, pos, placed[|old(placed)|..])
      ensures Arrived(s, t, depth, dir, at, Some(centre),
                      Spot(cur.y, seen, pos[id := CardAt(s, id, depth, dir, centre)]))
      decreases u - seen, 4
    {
      if |s.kids(id)| == 0 {
        centre := cur.y + s.height(id) / 2.0;
        cur.y := cur.y + s.height(id) + VGAP;
        VisitedNone(s, seen);
        if t.Some? { PlacedLeaf(s, t.value, depth, dir, at, At(cur)); }
      } else {
        if t.Some? { KidsFresh(s, t.value, at.seen); }
        centre := PlaceKids(s, id, depth, dir, cur, u, t);
        if t.Some? { PlacedParent(s, t.value, depth, dir, at, At(cur)); }
      }
    }

    method PlaceKids(s: Scene, id: string, depth: nat, dir: Dir, cur: Cursor, ghost u: set<string>,
                     ghost t: Option<Tree>)
      returns (centre: real)
      requires Bounded(s, u) && s.kids(id) != []
      requires t.Some? ==> t.value.id == id && TreesHere(s, s.kids(id), t.value.kids, seen)
      modifies this, cur
      ensures old(placed) <= placed && Visited(s, s.kids(id), old(seen), seen, placed[|old(placed)|..])
      ensures Carded(old(pos), pos, placed[|old(placed)|..])
      ensures t.Some? ==> centre == old(cur.y) + Mid(s, t.value)
      ensures t.Some? ==> At(cur) == PlacedAll(s, t.value.kids, depth + 1, dir, old(At(cur)))
      decreases u - seen, 3
    {
      ghost var top := cur.y;
      var ys := PlaceAll(s, s.kids(id), depth + 1, dir, cur, u, if t.Some? then Some(t.value.kids) else None);
      centre := cur.y + s.height(id) / 2.0;
      if |ys| > 0 {
        centre := (ys[0] + ys[|ys| - 1]) / 2.0;
      }
      if t.Some? { MidOfKids(s, t.value, top); }
    }

    /** kids.map(place).filter(notNull). */
    method PlaceAll(s: Scene, ids: seq<string>, depth: nat, dir: Dir, cur: Cursor, ghost u: set<string>,
                    ghost ts: Option<seq<Tree>>)
      returns (ys: seq<real>)
      requires Bounded(s, u) && (forall id :: id in ids ==> id in u) && (ts.Some? ==> TreesHere(s, ids, ts.value, seen))
      modifies this, cur
      ensures old(placed) <= placed && Visited(s, ids, old(seen), seen, placed[|old(placed)|..])
      ensures Carded(old(pos), pos, placed[|old(placed)|..])
      ensures ts.Some? ==>
        ys == Centres(s, ts.value, old(cur.y)) && At(cur) == PlacedAll(s, ts.value, depth, dir, old(At(cur)))
      decreases u - seen, 2
    {
      ys := [];
      ghost var at, before := At(cur), placed;
      VisitedNone(s, seen);
      for i := 0 to |ids|
        invariant before <= placed && Visited(s, ids[..i], at.seen, seen, placed[|before|..])
        invariant Carded(at.pos, pos, placed[|before|..])
        invariant ts.Some? ==> Lined(s, ts.value, i, depth, dir, at, At(cur), ys)
      {
        ys := PlaceNext(s, ids, i, depth, dir, cur, u, ts, at, before, ys);
      }
      assert ids[..|ids|] == ids;
      if ts.Some? { assert ts.value[..|ts.value|] == ts.value; }
    }

    /** One turn of that loop. */
    method PlaceNext(s: Scene, ids: seq<string>, i: nat, depth: nat, dir: Dir, cur: Cursor, ghost u: set<string>,
                     ghost ts: Option<seq<Tree>>, ghost at: Spot, ghost before: seq<string>, ys: seq<real>)
      returns (ys': seq<real>)
      requires Bounded(s, u) && i < |ids| && ids[i] in u && (ts.Some? ==> TreesHere(s, ids, ts.value, at.seen))
      requires before <= placed && Visited(s, ids[..i], at.seen, seen, placed[|before|..])
      requires Carded(at.pos, pos, placed[|before|..])
      requires ts.Some? ==> Lined(s, ts.value, i, depth, dir, at, At(cur), ys)
      modifies this, cur
      ensures before <= placed && Visited(s, ids[..i + 1], at.seen, seen, placed[|before|..])
      ensures Carded(at.pos, pos, placed[|before|..])
      ensures ts.Some? ==> Lined(s, ts.value, i + 1, depth, dir, at, At(cur), ys')
      ensures old(seen) <= seen
      decreases u - seen, 1
    {
      ghost var now, was := At(cur), placed;
      if ts.Some? { StillFresh(s, ts.value, i, depth, dir, at, now, ys); }
      var y := Place(s, ids[i], depth, dir, cur, u, if ts.Some? then Some(ts.value[i]) else None);
      MetNext(s, ids, i, at.seen, now.seen, seen, at.pos, now.pos, pos, before, was, placed);
      ys' := ys;
      if ts.Some? { LinedStep(s, ts.value, i, depth, dir, at, now, ys, y.value, At(cur)); }
      if y.Some? {
        ys' := ys + [y.value];
      }
    }
  }

  lemma TreeRoot(t: Option<Tree>, id: string, s: Scene, seen: set<string>)
    requires t.Some? ==> TreeHere(s, id, t.value, seen)
    ensures t.Some? ==> id !in seen
  {
    if t.Some? { IdsOfTree(t.value); }
  }

  lemma KidsFresh(s: Scene, t: Tree, seen: set<string>)
    requires TreeHere(s, t.id, t, seen)
    ensures TreesHere(s, s.kids(t.id), t.kids, seen + {t.id})
  {
    IdsOfTree(t);
  }

  /** The first n trees are placed, with these centres. */
  ghost predicate Lined(s: Scene, ts: seq<Tree>, n: nat, depth: nat, dir: Dir, at: Spot, now: Spot, ys: seq<real>)
    requires n <= |ts|
  {
    now == PlacedAll(s, ts[..n], depth, dir, at) && ys == Centres(s, ts[..n], at.y)
  }

  lemma LinedStep(s: Scene, ts: seq<Tree>, n: nat, depth: nat, dir: Dir, at: Spot, now: Spot, ys: seq<real>, c: real,
                  after: Spot)
    requires n < |ts| && Lined(s, ts, n, depth, dir, at, now, ys)
    requires c == now.y + Mid(s, ts[n]) && after == Placed(s, ts[n], depth, dir, now)
    ensures Lined(s, ts, n + 1, depth, dir, at, after, ys + [c])
  {
    PlacedStep(s, ts, n, depth, dir, at);
    CentresGrow(s, ts, n, at.y, ys, c);
  }

  lemma StillFresh(s: Scene, ts: seq<Tree>, i: nat, depth: nat, dir: Dir, at: Spot, now: Spot, ys: seq<real>)
    requires i < |ts| && ApartAll(ts) && IdsAll(ts) !! at.seen && Lined(s, ts, i, depth, dir, at, now, ys)
    ensures Apart(ts[i]) && Ids(ts[i]) !! now.seen
  {
    PrefixApart(ts, i);
    SubsetIds(ts, i);
  }

  lemma SubsetIds(ts: seq<Tree>, i: nat)
    requires i < |ts|
    ensures Ids(ts[i]) <= IdsAll(ts)
  {
  }

  // ------------------------------------------------------------------- weight

  /** The number of leaves. */
  function Leaves(t: Tree): nat {
    if t.kids == [] then 1 else LeavesAll(t.kids)
  }

  function LeavesAll(ts: seq<Tree>): nat {
    if ts == [] then 0 else LeavesAll(ts[..|ts| - 1]) + Leaves(ts[|ts| - 1])
  }

  /** What the memo says about t's vertices is right. */
  predicate Fits(memo: map<string, nat>, t: Tree) {
    && (t.id in memo ==> memo[t.id] == Leaves(t))
    && forall i :: 0 <= i < |t.kids| ==> Fits(memo, t.kids[i])
  }

  lemma {:induction false} FitsElsewhere(memo: map<string, nat>, memo': map<string, nat>, t: Tree)
    requires Fits(memo, t)
    requires forall k :: k in Ids(t) ==> (k in memo <==> k in memo') && (k in memo ==> memo[k] == memo'[k])
    ensures Fits(memo', t)
  {
    assert t.id in Ids(t);
    forall i | 0 <= i < |t.kids| ensures Fits(memo', t.kids[i]) {
      assert forall k :: k in Ids(t.kids[i]) ==> k in Ids(t);
      FitsElsewhere(memo, memo', t.kids[i]);
    }
  }

  ghost predicate SameOutside(memo: map<string, nat>, memo': map<string, nat>, ids: set<string>) {
    forall k :: k !in ids ==> (k in memo <==> k in memo') && (k in memo ==> memo[k] == memo'[k])
  }

  /** Entries once made are never changed, and nothing outside u is added. */
  ghost predicate Keeps(memo: map<string, nat>, memo': map<string, nat>, u: set<string>) {
    && (forall k :: k in memo ==> k in memo' && memo'[k] == memo[k])
    && (forall k :: k in memo' ==> k in memo || k in u)
  }

  class Weights {
    var memo: map<string, nat>

    constructor ()
      ensures memo == map[]
    {
      memo := map[];
    }

    /** On any graph the recursion ends, with an answer that stands from then on;
        on a tree the provisional entry is never read back. */
    method Weight(s: Scene, id: string, ghost u: set<string>, ghost t: Option<Tree>) returns (w: nat)
      requires Bounded(s, u) && id in u
      requires t.Some? ==> t.value.id == id && Spans(s, t.value) && Apart(t.value) && Fits(memo, t.value)
      modifies this
      ensures Keeps(old(memo), memo, u) && id in memo && memo[id] == w
      ensures t.Some? ==> w == Leaves(t.value) && Fits(memo, t.value) && SameOutside(old(memo), memo, Ids(t.value))
      decreases u - memo.Keys, 0
    {
      if id in memo {
        return memo[id];
      }
      ghost var was := memo;
      memo := memo[id := 1];
      assert id in u - was.Keys && u - memo.Keys == u - was.Keys - {id};
      var kids := s.kids(id);
      if t.Some? { ProvisionalFits(was, memo, t.value, 1); }
      w := WeightAll(s, kids, u, if t.Some? then Some(t.value.kids) else None);
      if |kids| == 0 {
        w := 1;
      }
      ghost var all := memo;
      memo := memo[id := w];
      if t.Some? { ProvisionalFits(all, memo, t.value, w); }
    }

    method WeightAll(s: Scene, ids: seq<string>, ghost u: set<string>, ghost ts: Option<seq<Tree>>) returns (w: nat)
      requires Bounded(s, u) && forall id :: id in ids ==> id in u
      requires ts.Some? ==> Weighable(s, ids, ts.value, memo)
      modifies this
      ensures Keeps(old(memo), memo, u) && forall id :: id in ids ==> id in memo
      ensures ts.Some? ==> w == LeavesAll(ts.value) && SameOutside(old(memo), memo, IdsAll(ts.value))
      ensures ts.Some? ==> Weighable(s, ids, ts.value, memo)
      decreases u - memo.Keys, 1
    {
      w := 0;
      for i := 0 to |ids|
        invariant Keeps(old(memo), memo, u) && forall id :: id in ids[..i] ==> id in memo
        invariant ts.Some? ==> w == LeavesAll(ts.value[..i]) && SameOutside(old(memo), memo, IdsAll(ts.value))
        invariant ts.Some? ==> Weighable(s, ids, ts.value, memo)
      {
        ghost var was := memo;
        var k := Weight(s, ids[i], u, if ts.Some? then Some(ts.value[i]) else None);
        w := w + k;
        if ts.Some? {
          LeavesStep(ts.value, i);
          SubsetIds(ts.value, i);
          AllFit(was, memo, ts.value, i);
        }
      }
      if ts.Some? { assert ts.value[..|ts.value|] == ts.value; }
    }
  }

  lemma LeavesStep(ts: seq<Tree>, i: nat)
    requires i < |ts|
    ensures LeavesAll(ts[..i + 1]) == LeavesAll(ts[..i]) + Leaves(ts[i])
  {
    assert ts[..i + 1][..i] == ts[..i];
  }

  /** Trees below these vertices, about which the memo is right as far as it goes. */
  ghost predicate Weighable(s: Scene, ids: seq<string>, ts: seq<Tree>, memo: map<string, nat>) {
    && |ids| == |ts| && (forall i :: 0 <= i < |ts| ==> ts[i].id == ids[i] && Spans(s, ts[i]))
    && ApartAll(ts) && forall i :: 0 <= i < |ts| ==> Fits(memo, ts[i])
  }

  lemma ProvisionalFits(was: map<string, nat>, memo: map<string, nat>, t: Tree, w: nat)
    requires Apart(t) && memo == was[t.id := w] && forall i :: 0 <= i < |t.kids| ==> Fits(was, t.kids[i])
    ensures forall i :: 0 <= i < |t.kids| ==> Fits(memo, t.kids[i])
  {
    forall i | 0 <= i < |t.kids| ensures Fits(memo, t.kids[i]) {
      SubsetIds(t.kids, i);
      FitsElsewhere(was, memo, t.kids[i]);
    }
  }

  lemma OthersFit(was: map<string, nat>, memo: map<string, nat>, ts: seq<Tree>, i: nat, j: nat)
    requires ApartAll(ts) && i < |ts| && j < |ts| && i != j && Fits(was, ts[j]) && SameOutside(was, memo, Ids(ts[i]))
    ensures Fits(memo, ts[j])
  {
    if i < j { assert Ids(ts[i]) !! Ids(ts[j]); } else { assert Ids(ts[j]) !! Ids(ts[i]); }
    FitsElsewhere(was, memo, ts[j]);
  }

  lemma AllFit(was: map<string, nat>, memo: map<string, nat>, ts: seq<Tree>, i: nat)
    requires ApartAll(ts) && i < |ts| && Fits(memo, ts[i]) && SameOutside(was, memo, Ids(ts[i]))
    requires forall j :: 0 <= j < |ts| ==> Fits(was, ts[j])
    ensures forall j :: 0 <= j < |ts| ==> Fits(memo, ts[j])
  {
    forall j | 0 <= j < |ts| && j != i ensures Fits(memo, ts[j]) { OthersFit(was, memo, ts, i, j); }
  }
}
