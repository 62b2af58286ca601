/** The dashboard's replica of the graph (internal/web/static/app.js, applyMessage). */
module Client {
  import opened Keyed
  import opened Topology

  class Replica {
    var nodes: map<string, Node>
    var edges: map<string, Edge>

    function Contents(): View
      reads this
    {
      View(nodes, edges)
    }

    method ApplyMessage(msg: Diff)
      modifies this
      ensures Contents() == Apply(old(Contents()), msg)
    {
      if msg.msgType == MsgSnapshot {
        nodes, edges := map[], map[];
      }
      nodes := SetEach(nodes, msg.upsertNodes, NodeId);
      edges := SetEach(edges, msg.upsertEdges, EdgeId);
      nodes := DeleteEach(nodes, msg.removeNodes);
      edges := DeleteEach(edges, msg.removeEdges);
    }
  }

  /** The view after a run of messages. */
  function Fold(v: View, msgs: seq<Diff>): View
    decreases |msgs|
  {
    if msgs == [] then v else Apply(Fold(v, msgs[..|msgs| - 1]), msgs[|msgs| - 1])
  }

  lemma {:induction false} FoldConcat(v: View, a: seq<Diff>, b: seq<Diff>)
    ensures Fold(v, a + b) == Fold(Fold(v, a), b)
    decreases |b|
  {
    if b == [] {
      assert a + b == a;
    } else {
      FoldConcat(v, a, b[..|b| - 1]);
      assert (a + b)[..|a + b| - 1] == a + b[..|b| - 1];
    }
  }

  lemma FoldOne(v: View, d: Diff)
    ensures Fold(v, [d]) == Apply(v, d)
  {
    assert [d][..0] == [];
    assert Fold(v, [d]) == Apply(Fold(v, []), d);
  }
}
