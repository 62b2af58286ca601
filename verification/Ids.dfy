/** The string IDs of nodes and edges (internal/collector/graph.go, id and addEdge). */
module Ids {

  function Id(kind: string, ns: string, name: string): string {
    if ns == "" then kind + "/" + name else kind + "/" + ns + "/" + name
  }

  function EdgeIdOf(kind: string, source: string, target: string): string {
    kind + ":" + source + "->" + target
  }

  lemma FirstAt(a: string, b: string, c: char)
    requires c !in a
    ensures (a + [c] + b)[|a|] == c && forall i :: 0 <= i < |a| ==> (a + [c] + b)[i] != c
    ensures (a + [c] + b)[..|a|] == a && (a + [c] + b)[|a| + 1..] == b
  {
    forall i | 0 <= i < |a| ensures (a + [c] + b)[i] != c { assert a[i] in a; }
  }

  /** A string splits in one way at the first c. */
  lemma SplitAtFirst(a: string, b: string, a': string, b': string, c: char)
    requires c !in a && c !in a' && a + [c] + b == a' + [c] + b'
    ensures a == a' && b == b'
  {
    FirstAt(a, b, c);
    FirstAt(a', b', c);
  }

  function Rest(ns: string, name: string): string {
    if ns == "" then name else ns + "/" + name
  }

  lemma IdAsRest(kind: string, ns: string, name: string)
    ensures Id(kind, ns, name) == kind + ['/'] + Rest(ns, name)
  {
    assert kind + "/" + ns + "/" + name == kind + "/" + (ns + "/" + name);
  }

  /** The kind can be read off an ID, whatever the namespace and name hold. */
  lemma IdTellsKind(kind: string, ns: string, name: string, kind': string, ns': string, name': string)
    requires '/' !in kind && '/' !in kind' && Id(kind, ns, name) == Id(kind', ns', name')
    ensures kind == kind' && Rest(ns, name) == Rest(ns', name')
  {
    IdAsRest(kind, ns, name);
    IdAsRest(kind', ns', name');
    SplitAtFirst(kind, Rest(ns, name), kind', Rest(ns', name'), '/');
  }

  /** For slash-free parts the ID determines kind, namespace and name, across
      cluster-scoped and namespaced kinds. */
  lemma IdInjective(kind: string, ns: string, name: string, kind': string, ns': string, name': string)
    requires '/' !in kind && '/' !in ns && '/' !in name && '/' !in kind' && '/' !in ns' && '/' !in name'
    ensures Id(kind, ns, name) == Id(kind', ns', name') <==> kind == kind' && ns == ns' && name == name'
  {
    if Id(kind, ns, name) == Id(kind', ns', name') {
      IdTellsKind(kind, ns, name, kind', ns', name');
      RestInjective(ns, name, ns', name');
    }
  }

  lemma RestInjective(ns: string, name: string, ns': string, name': string)
    requires '/' !in ns && '/' !in name && '/' !in ns' && '/' !in name' && Rest(ns, name) == Rest(ns', name')
    ensures ns == ns' && name == name'
  {
    RestSlash(ns, name);
    RestSlash(ns', name');
    if ns != "" {
      SplitAtFirst(ns, name, ns', name', '/');
    }
  }

  lemma RestSlash(ns: string, name: string)
    requires '/' !in ns && '/' !in name
    ensures '/' in Rest(ns, name) <==> ns != ""
  {
    if ns != "" { assert Rest(ns, name)[|ns|] == '/'; }
  }

  /** The edge ID determines the edge when sources are free of '>'. */
  lemma EdgeIdInjective(kind: string, s: string, t: string, kind': string, s': string, t': string)
    requires ':' !in kind && ':' !in kind' && '>' !in s && '>' !in s'
    ensures EdgeIdOf(kind, s, t) == EdgeIdOf(kind', s', t') <==> kind == kind' && s == s' && t == t'
  {
    if EdgeIdOf(kind, s, t) == EdgeIdOf(kind', s', t') {
      EdgeIdAsSplit(kind, s, t);
      EdgeIdAsSplit(kind', s', t');
      SplitAtFirst(kind, (s + "-") + ['>'] + t, kind', (s' + "-") + ['>'] + t', ':');
      SplitAtFirst(s + "-", t, s' + "-", t', '>');
      assert s == (s + "-")[..|s + "-"| - 1] && s' == (s' + "-")[..|s' + "-"| - 1];
    }
  }

  lemma EdgeIdAsSplit(kind: string, s: string, t: string)
    ensures EdgeIdOf(kind, s, t) == kind + [':'] + ((s + "-") + ['>'] + t)
  {
    assert s + "->" + t == (s + "-") + ['>'] + t;
  }

  const ARROW := "->"

  /** One pair of ends runs into the other across an arrow inside a name. */
  predicate Overlaps(s: string, t: string, s': string, t': string) {
    |s'| >= |s| + 2 && s'[..|s| + 2] == s + ARROW && t == s'[|s| + 2..] + ARROW + t'
  }

  lemma OverlapMakesClash(s: string, t: string, s': string, t': string)
    requires Overlaps(s, t, s', t')
    ensures s + ARROW + t == s' + ARROW + t'
  {
    var u := s'[|s| + 2..];
    assert s' == s + ARROW + u;
    assert s + ARROW + (u + ARROW + t') == s + ARROW + u + ARROW + t';
  }

  lemma ClashMakesOverlap(s: string, t: string, s': string, t': string)
    requires s + ARROW + t == s' + ARROW + t' && |s| < |s'|
    ensures Overlaps(s, t, s', t')
  {
    var a, b := s + ARROW + t, s' + ARROW + t';
    assert a[..|s|] == s && b[..|s'|] == s';
    assert a[|s|] == '-' && a[|s| + 1] == '>';
    assert b[|s'|] == '-' && b[|s'| + 1] == '>';
    assert |s'| >= |s| + 2;
    assert s'[..|s| + 2] == b[..|s| + 2] == a[..|s| + 2] == s + ARROW;
    assert t == a[|s| + 2..] == b[|s| + 2..] == s'[|s| + 2..] + ARROW + t';
  }

  /** Two edge IDs agree if and only if the edges do, or a name holds an arrow at
      just the place where the other edge has its own. */
  lemma EdgeIdIff(kind: string, s: string, t: string, kind': string, s': string, t': string)
    requires ':' !in kind && ':' !in kind'
    ensures EdgeIdOf(kind, s, t) == EdgeIdOf(kind', s', t')
            <==> kind == kind' && ((s == s' && t == t') || Overlaps(s, t, s', t') || Overlaps(s', t', s, t))
  {
    EdgeIdAsPair(kind, s, t);
    EdgeIdAsPair(kind', s', t');
    if EdgeIdOf(kind, s, t) == EdgeIdOf(kind', s', t') {
      SplitAtFirst(kind, s + ARROW + t, kind', s' + ARROW + t', ':');
      if |s| < |s'| {
        ClashMakesOverlap(s, t, s', t');
      } else if |s'| < |s| {
        ClashMakesOverlap(s', t', s, t);
      } else {
        assert (s + ARROW + t)[..|s|] == s && (s' + ARROW + t')[..|s'|] == s';
        assert (s + ARROW + t)[|s| + 2..] == t && (s' + ARROW + t')[|s'| + 2..] == t';
      }
    }
    if Overlaps(s, t, s', t') { OverlapMakesClash(s, t, s', t'); }
    if Overlaps(s', t', s, t) { OverlapMakesClash(s', t', s, t); }
  }

  lemma EdgeIdAsPair(kind: string, s: string, t: string)
    ensures EdgeIdOf(kind, s, t) == kind + [':'] + (s + ARROW + t)
  {
    assert kind + ":" + s + "->" + t == kind + ":" + (s + "->" + t);
  }

  /** With a '>' in a name two different edges can share an ID. */
  lemma EdgeIdClash()
    ensures EdgeIdOf("contains", "a->b", "c") == EdgeIdOf("contains", "a", "b->c")
  {
    assert "contains" + ":" + "a->b" + "->" + "c" == "contains:a->b->c";
    assert "contains" + ":" + "a" + "->" + "b->c" == "contains:a->b->c";
  }
}
