/** The simulated network: one pending-message queue shared by every node (paxosAlg/network.py). */
module PaxosNetwork {
  import opened PaxosMessage

  /** The pending messages addressed to `id`, in queue order. */
  function Addressed(q: seq<Message>, id: NodeId): (r: seq<Message>)
    ensures |r| <= |q|
    ensures forall i :: 0 <= i < |r| ==> r[i].receiver == id
  {
    if q == [] then []
    else (if q[0].receiver == id then [q[0]] else []) + Addressed(q[1..], id)
  }

  /** The pending messages not addressed to `id`, in queue order. */
  function Others(q: seq<Message>, id: NodeId): (r: seq<Message>)
    ensures |r| <= |q|
    ensures forall i :: 0 <= i < |r| ==> r[i].receiver != id
  {
    if q == [] then []
    else (if q[0].receiver != id then [q[0]] else []) + Others(q[1..], id)
  }

  /** A message is drained for `id` exactly when it is pending and addressed to `id`. */
  lemma {:induction false} DrainMembers(q: seq<Message>, id: NodeId, m: Message)
    ensures m in Addressed(q, id) <==> m in q && m.receiver == id
    ensures m in Others(q, id) <==> m in q && m.receiver != id
  {
    if q != [] {
      DrainMembers(q[1..], id, m);
      assert q == [q[0]] + q[1..];
    }
  }

  lemma {:induction false} AddressedAppend(a: seq<Message>, b: seq<Message>, id: NodeId)
    ensures Addressed(a + b, id) == Addressed(a, id) + Addressed(b, id)
    ensures Others(a + b, id) == Others(a, id) + Others(b, id)
  {
    if a != [] {
      assert (a + b)[1..] == a[1..] + b;
      AddressedAppend(a[1..], b, id);
    } else {
      assert a + b == b;
    }
  }

  /** Draining splits the queue: nothing is lost or duplicated. */
  lemma {:induction false} DrainPartition(q: seq<Message>, id: NodeId)
    ensures multiset(Addressed(q, id)) + multiset(Others(q, id)) == multiset(q)
    ensures |Addressed(q, id)| + |Others(q, id)| == |q|
  {
    if q != [] {
      DrainPartition(q[1..], id);
      assert q == [q[0]] + q[1..];
    }
  }

  /** A second drain right after the first finds nothing and changes nothing. */
  lemma {:induction false} DrainTwice(q: seq<Message>, id: NodeId)
    ensures Addressed(Others(q, id), id) == []
    ensures Others(Others(q, id), id) == Others(q, id)
  {
    AddressedNone(Others(q, id), id);
  }

  /** Draining one node leaves every other node's pending messages, in their order. */
  lemma {:induction false} DrainKeepsOthers(q: seq<Message>, id: NodeId, other: NodeId)
    requires other != id
    ensures Addressed(Others(q, id), other) == Addressed(q, other)
    ensures Others(Addressed(q, other), id) == Addressed(q, other)
  {
    AddressedNone(Addressed(q, other), id);
    if q != [] {
      DrainKeepsOthers(q[1..], id, other);
      assert q == [q[0]] + q[1..];
      AddressedAppend([q[0]], q[1..], id);
      AddressedAppend(Others([q[0]], id), Others(q[1..], id), other);
      AddressedAppend([q[0]], q[1..], other);
    }
  }

  lemma {:induction false} AddressedSelf(q: seq<Message>, id: NodeId)
    requires forall i :: 0 <= i < |q| ==> q[i].receiver == id
    ensures Addressed(q, id) == q && Others(q, id) == []
  {
    if q != [] {
      AddressedSelf(q[1..], id);
      assert q == [q[0]] + q[1..];
    }
  }

  lemma {:induction false} AddressedNone(q: seq<Message>, id: NodeId)
    requires forall i :: 0 <= i < |q| ==> q[i].receiver != id
    ensures Addressed(q, id) == [] && Others(q, id) == q
  {
    if q != [] {
      AddressedNone(q[1..], id);
      assert q == [q[0]] + q[1..];
    }
  }

  /** The message bus. In the source it is a class-level list; here it is one object given to every node. */
  class Network {
    var queue: seq<Message>

    constructor ()
      ensures queue == []
    {
      queue := [];
    }

    /** Appends a message at the end of the queue. */
    method SendMessage(m: Message)
      modifies this
      ensures queue == old(queue) + [m]
    {
      queue := queue + [m];
    }

    /** Removes and returns, in queue order, every pending message addressed to `id`. */
    method GetMessagesForNode(id: NodeId) returns (msgs: seq<Message>)
      modifies this
      ensures msgs == Addressed(old(queue), id)
      ensures queue == Others(old(queue), id)
    {
      var q := queue;
      var rest: seq<Message> := [];
      msgs := [];
      var i := 0;
      while i < |q|
        invariant 0 <= i <= |q|
        invariant msgs == Addressed(q[..i], id)
        invariant rest == Others(q[..i], id)
      {
        assert q[..i + 1] == q[..i] + [q[i]];
        AddressedAppend(q[..i], [q[i]], id);
        if q[i].receiver == id {
          msgs := msgs + [q[i]];
        } else {
          rest := rest + [q[i]];
        }
        i := i + 1;
      }
      assert q[..i] == q;
      queue := rest;
    }
  }
}
