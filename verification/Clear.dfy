/** No two placed cards overlap (internal/web/static/app.js, place and the loop
    over the roots in relayout). */
module Clear {
  import opened Placing

  /** Two cards do not overlap. */
  predicate ClearOf(a: Card, b: Card) {
    || a.x + a.w <= b.x || b.x + b.w <= a.x
    || b.y - a.y >= (a.h + b.h) / 2.0 || a.y - b.y >= (a.h + b.h) / 2.0
  }

  /** The size table's bounds for cards below a root, and for any card. */
  ghost predicate SmallCards(s: Scene, ids: set<string>) {
    forall id :: id in ids ==> 0.0 < s.width(id) <= 170.0 && 32.0 <= s.height(id) <= 44.0
  }

  predicate RootCard(s: Scene, id: string) {
    0.0 < s.width(id) <= 170.0 && 32.0 <= s.height(id) <= 52.0
  }

  // -------------------------------------------------------------------- bands

  lemma SmallKid(s: Scene, t: Tree, i: nat)
    requires SmallCards(s, Ids(t)) && i < |t.kids|
    ensures SmallCards(s, Ids(t.kids[i])) && Ids(t.kids[i]) <= IdsAll(t.kids) <= Ids(t)
  {
    SubsetIds(t.kids, i);
    IdsOfTree(t);
  }

  lemma SmallOf(s: Scene, ids: set<string>, some: set<string>)
    requires SmallCards(s, ids) && some <= ids
    ensures SmallCards(s, some)
  {
  }

  /** Spans are tall enough for a leaf, and centres keep a leaf's half from the ends. */
  lemma {:induction false} MidInBand(s: Scene, t: Tree)
    requires SmallCards(s, Ids(t))
    ensures 16.0 <= Mid(s, t) <= Span(s, t) - 28.0
    decreases t, 0
  {
    if t.kids != [] {
      var n := |t.kids| - 1;
      SmallKid(s, t, 0);
      SmallKid(s, t, n);
      SmallOf(s, Ids(t), IdsAll(t.kids));
      MidInBand(s, t.kids[0]);
      MidInBand(s, t.kids[n]);
      SpanGrows(s, t.kids, 0);
      SpanGrows(s, t.kids, n);
      SpanMonotone(s, t.kids, 1, n + 1);
      SpanMonotone(s, t.kids, 0, n);
      assert t.kids[..0] == [] && t.kids[..n + 1] == t.kids;
    }
  }

  lemma SpanGrows(s: Scene, ts: seq<Tree>, n: nat)
    requires n < |ts|
    ensures SpanAll(s, ts[..n + 1]) == SpanAll(s, ts[..n]) + Span(s, ts[n])
  {
    CentresStep(s, ts, n, 0.0);
  }

  lemma {:induction false} SpanMonotone(s: Scene, ts: seq<Tree>, m: nat, n: nat)
    requires SmallCards(s, IdsAll(ts)) && m <= n <= |ts|
    ensures SpanAll(s, ts[..m]) <= SpanAll(s, ts[..n])
    ensures m < n ==> SpanAll(s, ts[..m]) + 44.0 <= SpanAll(s, ts[..n])
    decreases ts, n
  {
    if m < n {
      SpanMonotone(s, ts, m, n - 1);
      SpanGrows(s, ts, n - 1);
      SubsetIds(ts, n - 1);
      SmallOf(s, IdsAll(ts), Ids(ts[n - 1]));
      MidInBand(s, ts[n - 1]);
    }
  }

  // -------------------------------------------------------------------- cards

  /** Strictly on its own side of the column before depth. */
  predicate Beyond(c: Card, depth: nat, dir: Dir) {
    if dir == Right then c.x >= Column(depth) else c.x + c.w <= -Column(depth)
  }

  /** A card of a subtree that was given the cursor from y to y + span. */
  predicate InBand(c: Card, depth: nat, dir: Dir, y: real, span: real) {
    && Beyond(c, depth, dir)
    && y + 16.0 <= c.y <= y + span - 28.0
    && 0.0 < c.w <= 170.0 && 32.0 <= c.h <= 44.0
  }

  ghost predicate AllInBand(m: map<string, Card>, depth: nat, dir: Dir, y: real, span: real) {
    forall id :: id in m ==> InBand(m[id], depth, dir, y, span)
  }

  ghost predicate AllClear(m: map<string, Card>) {
    forall a, b :: a in m && b in m && a != b ==> ClearOf(m[a], m[b])
  }

  ghost predicate CrossClear(m: map<string, Card>, n: map<string, Card>) {
    forall a, b :: a in m && b in n ==> ClearOf(m[a], n[b])
  }

  lemma UnionClear(m: map<string, Card>, n: map<string, Card>)
    requires AllClear(m) && AllClear(n) && CrossClear(m, n)
    ensures AllClear(m + n)
  {
  }

  lemma UnionInBand(m: map<string, Card>, n: map<string, Card>, depth: nat, dir: Dir, y: real, a: real, b: real)
    requires AllInBand(m, depth, dir, y, a) && AllInBand(n, depth, dir, y + a, b) && a >= 0.0 && b >= 0.0
    ensures AllInBand(m + n, depth, dir, y, a + b)
  {
  }

  /** Bands one below the other are clear of each other: centres are 44 apart. */
  lemma BandsClear(m: map<string, Card>, n: map<string, Card>, depth: nat, dir: Dir, y: real, a: real, y': real,
                   b: real)
    requires AllInBand(m, depth, dir, y, a) && AllInBand(n, depth, dir, y', b) && y + a <= y'
    ensures CrossClear(m, n)
  {
  }

  /** A card is clear of everything a column further out. */
  lemma ColumnsClear(c: Card, m: map<string, Card>, depth: nat, dir: Dir, y: real, span: real)
    requires depth > 0 && 0.0 < c.w <= 170.0 && AllInBand(m, depth + 1, dir, y, span)
    requires c.x == if dir == Right then Column(depth) else -Column(depth) - c.w
    ensures CrossClear(m, map["" := c])
  {
    assert Column(depth + 1) == Column(depth) + COLGAP;
  }

  lemma AddClear(m: map<string, Card>, k: string, c: Card)
    requires AllClear(m) && CrossClear(m, map["" := c])
    ensures AllClear(m[k := c])
  {
    assert map["" := c][""] == c;
    forall a | a in m ensures ClearOf(m[a], c) { assert "" in map["" := c]; }
  }

  lemma {:induction false} TreeBand(s: Scene, t: Tree, depth: nat, dir: Dir, y: real)
    requires SmallCards(s, Ids(t)) && depth > 0
    ensures AllInBand(Cards(s, t, depth, dir, y), depth, dir, y, Span(s, t))
    decreases t, 0
  {
    MidInBand(s, t);
    IdsOfTree(t);
    SmallOf(s, Ids(t), IdsAll(t.kids));
    ForestBand(s, t.kids, depth + 1, dir, y);
    assert Column(depth) <= Column(depth + 1);
    if t.kids == [] { assert CardsAll(s, t.kids, depth + 1, dir, y) == map[]; }
    assert t.id in Ids(t);
  }

  lemma {:induction false} ForestBand(s: Scene, ts: seq<Tree>, depth: nat, dir: Dir, y: real)
    requires SmallCards(s, IdsAll(ts)) && depth > 0
    ensures AllInBand(CardsAll(s, ts, depth, dir, y), depth, dir, y, SpanAll(s, ts))
    decreases ts
  {
    if ts != [] {
      var init, last := ts[..|ts| - 1], ts[|ts| - 1];
      LastInForest(s, ts);
      ForestBand(s, init, depth, dir, y);
      TreeBand(s, last, depth, dir, y + SpanAll(s, init));
      UnionInBand(CardsAll(s, init, depth, dir, y), Cards(s, last, depth, dir, y + SpanAll(s, init)),
                  depth, dir, y, SpanAll(s, init), Span(s, last));
    }
  }

  lemma LastInForest(s: Scene, ts: seq<Tree>)
    requires SmallCards(s, IdsAll(ts)) && ts != []
    ensures SmallCards(s, Ids(ts[|ts| - 1])) && SmallCards(s, IdsAll(ts[..|ts| - 1]))
    ensures SpanAll(s, ts[..|ts| - 1]) >= 0.0 && Span(s, ts[|ts| - 1]) >= 44.0
    ensures IdsAll(ts) == IdsAll(ts[..|ts| - 1]) + Ids(ts[|ts| - 1])
  {
    var n := |ts| - 1;
    IdsSplit(ts, n);
    assert ts[..n + 1] == ts && ts[..0] == [];
    SmallOf(s, IdsAll(ts), Ids(ts[n]));
    SmallOf(s, IdsAll(ts), IdsAll(ts[..n]));
    MidInBand(s, ts[n]);
    SpanMonotone(s, ts, 0, n);
  }

  /** Within a placed tree no two cards overlap. */
  lemma {:induction false} TreeClear(s: Scene, t: Tree, depth: nat, dir: Dir, y: real)
    requires SmallCards(s, Ids(t)) && depth > 0
    ensures AllClear(Cards(s, t, depth, dir, y))
    decreases t, 0
  {
    IdsOfTree(t);
    SmallOf(s, Ids(t), IdsAll(t.kids));
    ForestClear(s, t.kids, depth + 1, dir, y);
    ForestBand(s, t.kids, depth + 1, dir, y);
    assert t.id in Ids(t);
    var c := CardAt(s, t.id, depth, dir, y + Mid(s, t));
    ColumnsClear(c, CardsAll(s, t.kids, depth + 1, dir, y), depth, dir, y, SpanAll(s, t.kids));
    AddClear(CardsAll(s, t.kids, depth + 1, dir, y), t.id, c);
  }

  lemma {:induction false} ForestClear(s: Scene, ts: seq<Tree>, depth: nat, dir: Dir, y: real)
    requires SmallCards(s, IdsAll(ts)) && depth > 0
    ensures AllClear(CardsAll(s, ts, depth, dir, y))
    decreases ts
  {
    if ts != [] {
      var init, last := ts[..|ts| - 1], ts[|ts| - 1];
      LastInForest(s, ts);
      var top := y + SpanAll(s, init);
      var above, below := CardsAll(s, init, depth, dir, y), Cards(s, last, depth, dir, top);
      ForestClear(s, init, depth, dir, y);
      ForestBand(s, init, depth, dir, y);
      TreeClear(s, last, depth, dir, top);
      TreeBand(s, last, depth, dir, top);
      BandsClear(above, below, depth, dir, y, SpanAll(s, init), top, Span(s, last));
      UnionClear(above, below);
    }
  }

  // -------------------------------------------------------- every vertex placed

  lemma UnionKeys(m: map<string, Card>, n: map<string, Card>, a: set<string>, b: set<string>)
    requires m.Keys == a && n.Keys == b
    ensures (m + n).Keys == a + b
  {
  }

  /** Every vertex of the tree gets a card. */
  lemma {:induction false} CardKeys(s: Scene, t: Tree, depth: nat, dir: Dir, y: real)
    ensures Cards(s, t, depth, dir, y).Keys == Ids(t)
    decreases t, 0
  {
    CardKeysAll(s, t.kids, depth + 1, dir, y);
    IdsOfTree(t);
  }

  lemma {:induction false} CardKeysAll(s: Scene, ts: seq<Tree>, depth: nat, dir: Dir, y: real)
    ensures CardsAll(s, ts, depth, dir, y).Keys == IdsAll(ts)
    decreases ts
  {
    if ts != [] {
      var n := |ts| - 1;
      var top := y + SpanAll(s, ts[..n]);
      CardKeysAll(s, ts[..n], depth, dir, y);
      CardKeys(s, ts[n], depth, dir, top);
      IdsSplit(ts, n);
      assert ts[..n + 1] == ts;
      UnionKeys(CardsAll(s, ts[..n], depth, dir, y), Cards(s, ts[n], depth, dir, top), IdsAll(ts[..n]), Ids(ts[n]));
    }
  }

  // --------------------------------------------------------- parents and children

  ghost predicate Has(m: map<string, Card>, k: string, c: Card) { k in m && m[k] == c }

  lemma HasBelow(m: map<string, Card>, n: map<string, Card>, all: map<string, Card>, k: string, c: Card)
    requires Has(n, k, c) && all == m + n
    ensures Has(all, k, c)
  {
  }

  lemma HasAbove(m: map<string, Card>, n: map<string, Card>, k: string, c: Card)
    requires Has(m, k, c) && k !in n.Keys
    ensures Has(m + n, k, c)
  {
  }

  lemma OwnCard(s: Scene, t: Tree, depth: nat, dir: Dir, y: real)
    ensures Has(Cards(s, t, depth, dir, y), t.id, CardAt(s, t.id, depth, dir, y + Mid(s, t)))
  {
  }

  lemma HeadOutside(ts: seq<Tree>, i: nat, j: nat)
    requires ApartAll(ts) && i < j < |ts|
    ensures ts[i].id !in Ids(ts[j])
  {
    IdsOfTree(ts[i]);
    assert Ids(ts[i]) !! Ids(ts[j]);
  }

  /** Where the i-th of the trees is centred. */
  function CentreOf(s: Scene, ts: seq<Tree>, i: nat, y: real): real
    requires i < |ts|
  {
    y + SpanAll(s, ts[..i]) + Mid(s, ts[i])
  }

  lemma CentreInPrefix(s: Scene, ts: seq<Tree>, i: nat, n: nat, y: real)
    requires i < n <= |ts|
    ensures CentreOf(s, ts[..n], i, y) == CentreOf(s, ts, i, y)
  {
    assert ts[..n][..i] == ts[..i];
  }

  lemma OneTreeMore(s: Scene, init: seq<Tree>, last: Tree, depth: nat, dir: Dir, y: real)
    ensures CardsAll(s, init + [last], depth, dir, y)
            == CardsAll(s, init, depth, dir, y) + Cards(s, last, depth, dir, y + SpanAll(s, init))
  {
    assert (init + [last])[..|init|] == init;
  }

  lemma NextTreeApart(s: Scene, init: seq<Tree>, last: Tree, id: string, c: Card, depth: nat, dir: Dir, y: real)
    requires Has(CardsAll(s, init, depth, dir, y), id, c) && id !in Ids(last)
    ensures Has(CardsAll(s, init + [last], depth, dir, y), id, c)
  {
    OneTreeMore(s, init, last, depth, dir, y);
    CardKeys(s, last, depth, dir, y + SpanAll(s, init));
    HasAbove(CardsAll(s, init, depth, dir, y), Cards(s, last, depth, dir, y + SpanAll(s, init)), id, c);
  }

  lemma LaterTreeApart(s: Scene, ts: seq<Tree>, id: string, c: Card, depth: nat, dir: Dir, y: real)
    requires ts != [] && Has(CardsAll(s, ts[..|ts| - 1], depth, dir, y), id, c) && id !in Ids(ts[|ts| - 1])
    ensures Has(CardsAll(s, ts, depth, dir, y), id, c)
  {
    NextTreeApart(s, ts[..|ts| - 1], ts[|ts| - 1], id, c, depth, dir, y);
    assert ts[..|ts| - 1] + [ts[|ts| - 1]] == ts;
  }

  lemma LastTreeOnTop(s: Scene, ts: seq<Tree>, depth: nat, dir: Dir, y: real)
    requires ts != []
    ensures var n := |ts| - 1;
      Has(CardsAll(s, ts, depth, dir, y), ts[n].id, CardAt(s, ts[n].id, depth, dir, CentreOf(s, ts, n, y)))
  {
    var n := |ts| - 1;
    var top := y + SpanAll(s, ts[..n]);
    CardsOfLast(s, ts, depth, dir, y);
    OwnCard(s, ts[n], depth, dir, top);
    HasBelow(CardsAll(s, ts[..n], depth, dir, y), Cards(s, ts[n], depth, dir, top), CardsAll(s, ts, depth, dir, y),
             ts[n].id, CardAt(s, ts[n].id, depth, dir, top + Mid(s, ts[n])));
  }

  /** Each child's card is where its centre says, and no sibling's overwrites it. */
  lemma {:induction false} ChildCard(s: Scene, ts: seq<Tree>, i: nat, depth: nat, dir: Dir, y: real)
    requires ApartAll(ts) && i < |ts|
    ensures Has(CardsAll(s, ts, depth, dir, y), ts[i].id, CardAt(s, ts[i].id, depth, dir, CentreOf(s, ts, i, y)))
    decreases |ts|
  {
    var n := |ts| - 1;
    if i == n {
      LastTreeOnTop(s, ts, depth, dir, y);
    } else {
      ChildCard(s, ts[..n], i, depth, dir, y);
      CentreInPrefix(s, ts, i, n, y);
      HeadOutside(ts, i, n);
      LaterTreeApart(s, ts, ts[i].id, CardAt(s, ts[i].id, depth, dir, CentreOf(s, ts, i, y)), depth, dir, y);
    }
  }

  lemma CardsOfLast(s: Scene, ts: seq<Tree>, depth: nat, dir: Dir, y: real)
    requires ts != []
    ensures var n := |ts| - 1;
      CardsAll(s, ts, depth, dir, y)
        == CardsAll(s, ts[..n], depth, dir, y) + Cards(s, ts[n], depth, dir, y + SpanAll(s, ts[..n]))
  {
  }

  /** A parent is drawn midway between its first and last child, one column
      further in. */
  lemma ParentIsCentred(s: Scene, t: Tree, depth: nat, dir: Dir, y: real)
    requires Apart(t) && t.kids != []
    ensures var m, a, b := Cards(s, t, depth, dir, y), t.kids[0].id, t.kids[|t.kids| - 1].id;
      && t.id in m && a in m && b in m
      && m[t.id].y == (m[a].y + m[b].y) / 2.0
      && (depth > 0 && dir == Right ==> m[a].x == m[b].x == m[t.id].x + COLGAP)
      && (depth > 0 && dir == Left ==> m[a].x + m[a].w == m[b].x + m[b].w == m[t.id].x + m[t.id].w - COLGAP)
  {
    var n := |t.kids| - 1;
    var m := CardsAll(s, t.kids, depth + 1, dir, y);
    OwnCard(s, t, depth, dir, y);
    ChildCard(s, t.kids, 0, depth + 1, dir, y);
    ChildCard(s, t.kids, n, depth + 1, dir, y);
    NotOwnId(t, 0);
    NotOwnId(t, n);
    assert t.kids[..0] == [];
    assert Column(depth + 1) == Column(depth) + COLGAP;
  }

  lemma NotOwnId(t: Tree, i: nat)
    requires Apart(t) && i < |t.kids|
    ensures t.kids[i].id != t.id
  {
    SubsetIds(t.kids, i);
    IdsOfTree(t.kids[i]);
  }
}
