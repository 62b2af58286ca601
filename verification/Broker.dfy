/** Bounded fan-out of diffs to stream subscribers (internal/collector/broker.go). */
module Broker {
  import opened Topology

  const BUFFER := 32

  /** A buffered Go channel of diffs. */
  class Channel {
    var queue: seq<Diff>
    var closed: bool
    ghost const number: nat  // the ID it was issued under

    constructor (ghost number: nat)
      ensures queue == [] && !closed && this.number == number
    {
      queue, closed, this.number := [], false, number;
    }

    /** A select with a default branch. Sending on a closed channel panics. */
    method TrySend(d: Diff) returns (sent: bool)
      requires !closed
      modifies `queue
      ensures sent <==> |old(queue)| < BUFFER
      ensures queue == if sent then old(queue) + [d] else old(queue)
    {
      sent := |queue| < BUFFER;
      if sent { queue := queue + [d]; }
    }

    /** Closing twice panics. What is buffered stays readable. */
    method Close()
      requires !closed
      modifies `closed
      ensures closed
    {
      closed := true;
    }
  }

  /** The broker seen from outside: every queue it ever issued, by subscriber ID,
      and the IDs still registered. */
  datatype BrokerState = BrokerState(queues: seq<seq<Diff>>, registered: set<nat>)

  const NEW_BROKER := BrokerState([], {})

  function Subscribed(s: BrokerState): BrokerState {
    BrokerState(s.queues + [[]], s.registered + {|s.queues|})
  }

  function Unsubscribed(s: BrokerState, id: nat): BrokerState {
    s.(registered := s.registered - {id})
  }

  predicate HasRoom(s: BrokerState, id: nat) {
    id in s.registered && 0 <= id < |s.queues| && |s.queues[id]| < BUFFER
  }

  function Offered(s: BrokerState, d: Diff, id: nat): seq<Diff>
    requires 0 <= id < |s.queues|
  {
    if HasRoom(s, id) then s.queues[id] + [d] else s.queues[id]
  }

  function Broadcasted(s: BrokerState, d: Diff): BrokerState {
    BrokerState(seq(|s.queues|, i requires 0 <= i < |s.queues| => Offered(s, d, i)),
                set id | id in s.registered && HasRoom(s, id))
  }

  function Received(s: BrokerState, id: nat): BrokerState
    requires 0 <= id < |s.queues| && s.queues[id] != []
  {
    s.(queues := s.queues[id := s.queues[id][1..]])
  }

  /** A broadcast that has yet to visit the IDs in `rest`. */
  function Partly(s: BrokerState, d: Diff, rest: set<nat>): BrokerState {
    BrokerState(seq(|s.queues|, i requires 0 <= i < |s.queues| => if i in rest then s.queues[i] else Offered(s, d, i)),
                set id | id in s.registered && (id in rest || HasRoom(s, id)))
  }

  lemma PartlyStep(s: BrokerState, d: Diff, rest: set<nat>, id: nat, t: BrokerState)
    requires id in rest && rest <= s.registered && 0 <= id < |s.queues|
    requires var p := Partly(s, d, rest);
      && t.queues == p.queues[id := Offered(p, d, id)]
      && t.registered == if HasRoom(p, id) then p.registered else p.registered - {id}
    ensures t == Partly(s, d, rest - {id})
  {
    var p := Partly(s, d, rest);
    assert HasRoom(p, id) <==> HasRoom(s, id);
    assert t.queues == Partly(s, d, rest - {id}).queues;
    assert t.registered == Partly(s, d, rest - {id}).registered;
  }

  class Broker {
    var subs: map<nat, Channel>
    var next: nat
    ghost var issued: seq<Channel>  // every channel ever handed out, by ID

    /** Each channel has an ID of its own, and is open exactly while its ID is registered. */
    ghost predicate Valid()
      reads this, issued
    {
      && next == |issued|
      && (forall id :: id in subs ==> 0 <= id < |issued| && subs[id] == issued[id])
      && (forall id :: 0 <= id < |issued| ==>
            issued[id].number == id && (issued[id].closed <==> id !in subs) && |issued[id].queue| <= BUFFER)
    }

    ghost function State(): (s: BrokerState)
      requires Valid()
      reads this, issued
      ensures |s.queues| == next && s.registered == subs.Keys
      ensures forall id :: 0 <= id < next ==> s.queues[id] == issued[id].queue
    {
      BrokerState(seq(|issued|, i requires 0 <= i < |issued| reads this, issued => issued[i].queue), subs.Keys)
    }

    constructor ()
      ensures Valid() && State() == NEW_BROKER && issued == []
    {
      subs, next, issued := map[], 0, [];
    }

    method Subscribe() returns (id: nat, ch: Channel)
      requires Valid()
      modifies this
      ensures Valid() && State() == Subscribed(old(State()))
      ensures id == old(next) && id !in old(subs)
      ensures fresh(ch) && issued == old(issued) + [ch]
    {
      id := next;
      next := next + 1;
      ch := new Channel(id);
      subs := subs[id := ch];
      issued := issued + [ch];
      assert State().queues == Subscribed(old(State())).queues;
    }

    method Unsubscribe(id: nat)
      requires Valid()
      modifies this`subs, issued
      ensures Valid() && State() == Unsubscribed(old(State()), id)
    {
      if id in subs {
        var ch := subs[id];
        subs := subs - {id};
        ch.Close();
      }
      assert State().queues == old(State()).queues;
    }

    /** Offers d to one subscriber, and drops it when its buffer is full. */
    method Offer(id: nat, d: Diff)
      requires Valid() && id in subs
      modifies this`subs, issued[id]
      ensures Valid() && State().queues == old(State()).queues[id := Offered(old(State()), d, id)]
      ensures subs == if HasRoom(old(State()), id) then old(subs) else old(subs) - {id}
    {
      var ch := subs[id];
      var sent := ch.TrySend(d);
      if !sent {
        subs := subs - {id};
        ch.Close();
      }
    }

    /** Visits the subscribers in an order of the map's choosing. */
    method Broadcast(d: Diff)
      requires Valid()
      modifies this`subs, issued
      ensures Valid() && State() == Broadcasted(old(State()), d)
    {
      ghost var before := State();
      var rest := subs.Keys;
      assert before.queues == Partly(before, d, rest).queues;
      while rest != {}
        invariant Valid() && rest <= subs.Keys && rest <= before.registered
        invariant State() == Partly(before, d, rest)
        decreases |rest|
      {
        var id: nat :| id in rest;
        Offer(id, d);
        PartlyStep(before, d, rest, id, State());
        rest := rest - {id};
      }
      assert State().queues == Broadcasted(before, d).queues;
    }

    method Count() returns (n: int)
      requires Valid()
      ensures n == |State().registered|
    {
      n := |subs|;
    }
  }

  /** handleStream takes one diff off its channel. The broker lock is not held,
      and a closed channel still yields what it buffered. */
  method TakeOne(ghost b: Broker, ghost id: nat, ch: Channel) returns (d: Diff)
    requires b.Valid() && 0 <= id < b.next && ch == b.issued[id] && ch.queue != []
    modifies ch`queue
    ensures b.Valid() && d == old(ch.queue)[0] && b.State() == Received(old(b.State()), id)
  {
    d := ch.queue[0];
    ch.queue := ch.queue[1..];
    assert b.State().queues == Received(old(b.State()), id).queues;
  }
}
