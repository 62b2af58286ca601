/** The collector's published state (internal/collector/collector.go, and the
    locked half of graph.go's rebuild). */
module Collector {
  import opened Topology
  import B = Broker
  import opened Stream

  /** The swap and what became of the broker, as a step. */
  lemma PublishTaken(w: World, prev: Graph, g: Graph, d: Diff, b: B.BrokerState, b': B.BrokerState)
    requires w.log != [] && w.Last() == prev && w.broker == b && g.updatedAt != 0 && RebuildMessage(prev, g, d)
    requires b' == if d.Empty() then b else B.Broadcasted(b, d)
    ensures Enabled(w, Publish(g, d))
    ensures var w' := After(w, Publish(g, d)); w'.log != [] && w'.Last() == g && w'.broker == b'
  {
  }

  class Collector {
    var lastGraph: Graph
    const broker: B.Broker

    ghost predicate Valid()
      reads this, broker, broker.issued
    {
      broker.Valid()
    }

    /** This object's part of a world of the stream's state machine. */
    ghost predicate Represents(w: World)
      requires Valid()
      reads this, broker, broker.issued
    {
      w.log != [] && w.Last() == lastGraph && w.broker == broker.State()
    }

    constructor ()
      ensures Valid() && fresh(broker) && Represents(START)
    {
      lastGraph := ZERO_GRAPH;
      broker := new B.Broker();
    }

    /** Publishes a freshly built graph: one Publish step, taken under the lock. */
    method PublishGraph(g: Graph) returns (ghost d: Diff)
      requires Valid() && g.updatedAt != 0
      modifies this, broker`subs, broker.issued
      ensures Valid() && lastGraph == g
      ensures forall w :: old(Represents(w)) ==>
        Enabled(w, Publish(g, d)) && Represents(After(w, Publish(g, d)))
    {
      var prev := lastGraph;
      ghost var before := broker.State();
      lastGraph := g;
      var message: Diff;
      if prev.updatedAt == 0 {
        message := AsSnapshot(g);
      } else {
        message := DiffAgainst(g, prev);
      }
      if !message.Empty() {
        broker.Broadcast(message);
      }
      d := message;
      forall w | old(Represents(w)) ensures Enabled(w, Publish(g, d)) && Represents(After(w, Publish(g, d))) {
        PublishTaken(w, prev, g, d, before, broker.State());
      }
    }

    /** Registers a stream and captures its snapshot: one Subscribe step. */
    method Subscribe() returns (snap: Diff, id: nat, ch: B.Channel)
      requires Valid()
      modifies broker
      ensures Valid() && lastGraph == old(lastGraph) && broker.issued == old(broker.issued) + [ch]
      ensures forall w, before :: old(Represents(w)) && |w.sessions| == |w.broker.queues| ==>
        var w' := After(w, Step.Subscribe(before));
        Represents(w') && id == |w.sessions| && w'.sessions[id].handoff == [snap]
    {
      id, ch := broker.Subscribe();
      snap := AsSnapshot(lastGraph);
    }

    /** The unsubscribe function that Subscribe hands back; it takes only the broker's lock. */
    method Unsubscribe(id: nat)
      requires Valid()
      modifies broker`subs, broker.issued
      ensures Valid() && lastGraph == old(lastGraph)
      ensures forall w :: old(Represents(w)) ==> Represents(After(w, Step.Unsubscribe(id)))
    {
      broker.Unsubscribe(id);
    }
  }
}
