/** One namespace's part of the graph (internal/collector/collector.go, NamespaceSnapshot). */
module Scope {
  import opened Seqs
  import opened Topology

  predicate IsSeed(n: Node, ns: string) {
    n.namespace == ns || (n.kind == "Namespace" && n.name == ns) || n.kind == "Cluster"
  }

  function Seeds(g: Graph, ns: string): set<string> {
    set n | n in g.nodes && IsSeed(n, ns) :: n.id
  }

  // ------------------------------------------------------------ reachability

  /** ps are edge positions, each edge starting where the one before ended,
      leading from a member of `from` to x. */
  ghost predicate Walks(edges: seq<Edge>, from: set<string>, x: string, ps: seq<nat>) {
    && (forall i :: 0 <= i < |ps| ==> ps[i] < |edges|)
    && (forall i :: 0 < i < |ps| ==> edges[ps[i]].source == edges[ps[i - 1]].target)
    && (if ps == [] then x in from else edges[ps[0]].source in from && edges[ps[|ps| - 1]].target == x)
  }

  ghost predicate Increasing(ps: seq<nat>) {
    forall i, j :: 0 <= i < j < |ps| ==> ps[i] < ps[j]
  }

  /** Reachable by a walk whose edges come in list order. */
  ghost predicate Climbs(edges: seq<Edge>, from: set<string>, x: string) {
    exists ps :: Increasing(ps) && Walks(edges, from, x, ps)
  }

  lemma ClimbsOneMore(edges: seq<Edge>, from: set<string>, e: Edge, x: string)
    ensures Climbs(edges + [e], from, x)
            <==> Climbs(edges, from, x) || (x == e.target && Climbs(edges, from, e.source))
  {
    var more := edges + [e];
    if Climbs(edges, from, x) {
      var ps :| Increasing(ps) && Walks(edges, from, x, ps);
      assert Walks(more, from, x, ps);
    }
    if x == e.target && Climbs(edges, from, e.source) {
      var ps: seq<nat> :| Increasing(ps) && Walks(edges, from, e.source, ps);
      ClimbExtend(edges, from, e, ps);
    }
    if Climbs(more, from, x) {
      var ps :| Increasing(ps) && Walks(more, from, x, ps);
      ClimbSplit(edges, from, e, x, ps);
    }
  }

  lemma ClimbExtend(edges: seq<Edge>, from: set<string>, e: Edge, ps: seq<nat>)
    requires Increasing(ps) && Walks(edges, from, e.source, ps)
    ensures Climbs(edges + [e], from, e.target)
  {
    var ps' := ps + [|edges|];
    assert Increasing(ps');
    assert Walks(edges + [e], from, e.target, ps');
  }

  lemma ClimbSplit(edges: seq<Edge>, from: set<string>, e: Edge, x: string, ps: seq<nat>)
    requires Increasing(ps) && Walks(edges + [e], from, x, ps)
    ensures Climbs(edges, from, x) || (x == e.target && Climbs(edges, from, e.source))
  {
    if ps != [] && ps[|ps| - 1] == |edges| {
      var init := ps[..|ps| - 1];
      assert Increasing(init) && Walks(edges, from, e.source, init);
    } else {
      assert Walks(edges, from, x, ps);
    }
  }

  // ------------------------------------------------------------------- method

  /** What one pass over the edges keeps: a target when its source is kept already. */
  function Swept(edges: seq<Edge>, seeds: set<string>): set<string> {
    if edges == [] then seeds
    else
      var kept, e := Swept(edges[..|edges| - 1], seeds), edges[|edges| - 1];
      if e.source in kept then kept + {e.target} else kept
  }

  function Kept(g: Graph, ns: string): set<string> {
    Swept(g.edges, Seeds(g, ns))
  }

  /** The subgraph induced by keep, in g's order. */
  function Induced(g: Graph, keep: set<string>): Graph {
    Graph(Filter(g.nodes, (n: Node) => n.id in keep),
          Filter(g.edges, (e: Edge) => e.source in keep && e.target in keep), g.updatedAt)
  }

  /** The single pass keeps exactly what a walk along edges in list order reaches. */
  lemma {:induction false} SweptClimbs(edges: seq<Edge>, seeds: set<string>)
    ensures forall x :: x in Swept(edges, seeds) <==> Climbs(edges, seeds, x)
    decreases |edges|
  {
    if edges == [] {
      ClimbsNowhere(seeds);
    } else {
      var init, e := edges[..|edges| - 1], edges[|edges| - 1];
      assert edges == init + [e];
      SweptClimbs(init, seeds);
      forall x ensures x in Swept(edges, seeds) <==> Climbs(edges, seeds, x) {
        ClimbsOneMore(init, seeds, e, x);
      }
    }
  }

  method NamespaceSnapshot(full: Graph, ns: string) returns (out: Graph)
    ensures out == Induced(full, Kept(full, ns))
  {
    var seeds := SeedIds(full, ns);
    var keep := Sweep(full.edges, seeds);
    var nodes := KeptNodes(full.nodes, keep);
    var edges := KeptEdges(full.edges, keep);
    out := Graph(nodes, edges, full.updatedAt);
  }

  method SeedIds(full: Graph, ns: string) returns (kept: set<string>)
    ensures kept == Seeds(full, ns)
  {
    kept := {};
    for i := 0 to |full.nodes|
      invariant kept == set n | n in full.nodes[..i] && IsSeed(n, ns) :: n.id
    {
      if IsSeed(full.nodes[i], ns) {
        kept := kept + {full.nodes[i].id};
      }
    }
    assert full.nodes[..|full.nodes|] == full.nodes;
  }

  method Sweep(edges: seq<Edge>, seeds: set<string>) returns (kept: set<string>)
    ensures kept == Swept(edges, seeds)
    ensures forall x :: x in kept <==> Climbs(edges, seeds, x)
  {
    kept := seeds;
    for i := 0 to |edges|
      invariant kept == Swept(edges[..i], seeds)
    {
      assert edges[..i + 1][..i] == edges[..i];
      if edges[i].source in kept {
        kept := kept + {edges[i].target};
      }
    }
    assert edges[..|edges|] == edges;
    SweptClimbs(edges, seeds);
  }

  lemma ClimbsNowhere(from: set<string>)
    ensures forall x :: x in from <==> Climbs([], from, x)
  {
    forall x ensures x in from <==> Climbs([], from, x) {
      if x in from { assert Increasing([]) && Walks([], from, x, []); }
    }
  }

  method KeptNodes(nodes: seq<Node>, keep: set<string>) returns (out: seq<Node>)
    ensures out == Filter(nodes, (n: Node) => n.id in keep)
  {
    out := [];
    for i := 0 to |nodes|
      invariant out == Filter(nodes[..i], (n: Node) => n.id in keep)
    {
      assert nodes[..i + 1][..i] == nodes[..i];
      if nodes[i].id in keep {
        out := out + [nodes[i]];
      }
    }
    assert nodes[..|nodes|] == nodes;
  }

  method KeptEdges(edges: seq<Edge>, keep: set<string>) returns (out: seq<Edge>)
    ensures out == Filter(edges, (e: Edge) => e.source in keep && e.target in keep)
  {
    out := [];
    for i := 0 to |edges|
      invariant out == Filter(edges[..i], (e: Edge) => e.source in keep && e.target in keep)
    {
      assert edges[..i + 1][..i] == edges[..i];
      if edges[i].source in keep && edges[i].target in keep {
        out := out + [edges[i]];
      }
    }
    assert edges[..|edges|] == edges;
  }

  // --------------------------------------------------------------------- laws

  ghost predicate Closed(g: Graph) {
    forall e :: e in g.edges ==>
      (exists n :: n in g.nodes && n.id == e.source) && (exists n :: n in g.nodes && n.id == e.target)
  }

  /** keep lies between the seeds' one-hop neighbourhood and their closure. */
  lemma KeepIsBetween(g: Graph, ns: string)
    ensures Seeds(g, ns) <= Kept(g, ns)
    ensures forall e :: e in g.edges && e.source in Seeds(g, ns) ==> e.target in Kept(g, ns)
    ensures forall x :: x in Kept(g, ns) ==> exists ps :: Walks(g.edges, Seeds(g, ns), x, ps)
  {
    var s := Seeds(g, ns);
    SweptClimbs(g.edges, s);
    forall x | x in s ensures x in Kept(g, ns) {
      assert Increasing([]) && Walks(g.edges, s, x, []);
    }
    forall e | e in g.edges && e.source in s ensures e.target in Kept(g, ns) {
      var i :| 0 <= i < |g.edges| && g.edges[i] == e;
      assert Increasing([i]) && Walks(g.edges, s, e.target, [i]);
    }
  }

  /** The result has no dangling edge, and is exactly the part of g within keep. */
  lemma NoDanglingEdge(g: Graph, keep: set<string>)
    requires Closed(g)
    ensures Closed(Induced(g, keep))
    ensures forall n :: n in Induced(g, keep).nodes <==> n in g.nodes && n.id in keep
    ensures forall e :: e in Induced(g, keep).edges <==> e in g.edges && e.source in keep && e.target in keep
  {
    var out := Induced(g, keep);
    forall e | e in out.edges
      ensures exists n :: n in out.nodes && n.id == e.source
      ensures exists n :: n in out.nodes && n.id == e.target
    {
      var s :| s in g.nodes && s.id == e.source;
      var t :| t in g.nodes && t.id == e.target;
      assert s in out.nodes && t in out.nodes;
    }
  }
}
