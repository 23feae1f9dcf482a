/** The acceptor role: phase-1 and phase-2 responder (paxosAlg/acceptor.py). */
module PaxosAcceptor {
  import opened PaxosMessage
  import opened PaxosNetwork
  import opened PaxosNode

  /** The acceptor's voting state; it starts at promised = accepted = -1 with no value. */
  datatype AcceptorState = AcceptorState(promisedId: int, acceptedId: int, acceptedValue: Option<Value>)

  const Fresh := AcceptorState(-1, -1, None)

  /** What handling one or more messages does: the new state, the messages sent, how it ended. */
  datatype Step = Step(state: AcceptorState, out: seq<Message>, outcome: Outcome)

  /** Prepends earlier sends to a step. */
  function After(out: seq<Message>, r: Step): Step
  {
    Step(r.state, out + r.out, r.outcome)
  }

  /** The acceptor's invariant: it never holds an accepted id above its promise. */
  ghost predicate Valid(s: AcceptorState)
  {
    s.acceptedId <= s.promisedId
  }

  /** One LEARN per learner id, in the order of the ids; nothing goes to a broadcast marker. */
  function LearnBroadcast(id: NodeId, learners: seq<NodeId>, n: int, v: Option<Value>): (ms: seq<Message>)
    ensures |ms| == |learners|
    ensures forall i :: 0 <= i < |ms| ==> ms[i] == Message(id, learners[i], Learn, Some(n), v)
  {
    if learners == [] then [] else [Message(id, learners[0], Learn, Some(n), v)] + LearnBroadcast(id, learners[1..], n, v)
  }

  /** _handle_prepare: comparing a missing proposal id with an int raises TypeError in Python. */
  function OnPrepare(id: NodeId, s: AcceptorState, m: Message): Step
  {
    match m.proposalId
    case None => Step(s, [], Raised(TypeError))
    case Some(n) =>
      if n > s.promisedId then
        Step(s.(promisedId := n), [Message(id, m.sender, Promise, Some(n), s.acceptedValue, Some(s.acceptedId))], Ok)
      else
        Step(s, [Message(id, m.sender, Promise, Some(s.promisedId))], Ok)
  }

  /** _handle_accept: accept when n >= promised, reply ACCEPTED and tell every learner; else stay silent. */
  function OnAccept(id: NodeId, learners: seq<NodeId>, s: AcceptorState, m: Message): Step
  {
    match m.proposalId
    case None => Step(s, [], Raised(TypeError))
    case Some(n) =>
      if n >= s.promisedId then
        Step(AcceptorState(n, n, m.value),
             [Message(id, m.sender, Accepted, Some(n), m.value)] + LearnBroadcast(id, learners, n, m.value), Ok)
      else
        Step(s, [], Ok)
  }

  /** _handle_message: PREPARE and ACCEPT are handled, every other kind is only logged. */
  function OnMessage(id: NodeId, learners: seq<NodeId>, s: AcceptorState, m: Message): Step
  {
    match m.msgType
    case Prepare => OnPrepare(id, s, m)
    case Accept => OnAccept(id, learners, s, m)
    case _ => Step(s, [], Ok)
  }

  /** Handling drained messages in order; an exception stops the loop and the rest is not handled. */
  function Run(id: NodeId, learners: seq<NodeId>, s: AcceptorState, msgs: seq<Message>): Step
    decreases |msgs|
  {
    if msgs == [] then Step(s, [], Ok)
    else
      var r := OnMessage(id, learners, s, msgs[0]);
      if r.outcome.Raised? then r else After(r.out, Run(id, learners, r.state, msgs[1..]))
  }

  /** A PREPARE above the promise raises it and answers with the previously accepted proposal. */
  lemma PrepareGranted(id: NodeId, learners: seq<NodeId>, s: AcceptorState, m: Message)
    requires m.msgType == Prepare && m.proposalId.Some? && m.proposalId.value > s.promisedId
    ensures var r := OnMessage(id, learners, s, m);
      && r.outcome == Ok
      && r.state == s.(promisedId := m.proposalId.value)
      && r.out == [Message(id, m.sender, Promise, m.proposalId, s.acceptedValue, Some(s.acceptedId))]
  {
  }

  /** A PREPARE at or below the promise changes nothing and echoes the promise with no accepted fields. */
  lemma PrepareRejected(id: NodeId, learners: seq<NodeId>, s: AcceptorState, m: Message)
    requires m.msgType == Prepare && m.proposalId.Some? && m.proposalId.value <= s.promisedId
    ensures var r := OnMessage(id, learners, s, m);
      && r.outcome == Ok && r.state == s
      && r.out == [Message(id, m.sender, Promise, Some(s.promisedId), None, None)]
  {
  }

  /** An ACCEPT at or above the promise is accepted, acknowledged to the sender and reported to each learner. */
  lemma AcceptGranted(id: NodeId, learners: seq<NodeId>, s: AcceptorState, m: Message)
    requires m.msgType == Accept && m.proposalId.Some? && m.proposalId.value >= s.promisedId
    ensures var r := OnMessage(id, learners, s, m);
      && r.outcome == Ok
      && r.state == AcceptorState(m.proposalId.value, m.proposalId.value, m.value)
      && |r.out| == 1 + |learners|
      && r.out[0] == Message(id, m.sender, Accepted, m.proposalId, m.value)
      && (forall i :: 1 <= i < |r.out| ==> r.out[i] == Message(id, learners[i - 1], Learn, m.proposalId, m.value))
  {
  }

  /** An ACCEPT below the promise is dropped without a reply; other kinds are ignored. */
  lemma Ignored(id: NodeId, learners: seq<NodeId>, s: AcceptorState, m: Message)
    requires || (m.msgType == Accept && m.proposalId.Some? && m.proposalId.value < s.promisedId)
             || m.msgType !in {Prepare, Accept}
    ensures OnMessage(id, learners, s, m) == Step(s, [], Ok)
  {
  }

  /** A PREPARE or ACCEPT without a proposal id raises TypeError and changes nothing. */
  lemma MissingIdRaises(id: NodeId, learners: seq<NodeId>, s: AcceptorState, m: Message)
    requires m.msgType in {Prepare, Accept} && m.proposalId.None?
    ensures OnMessage(id, learners, s, m) == Step(s, [], Raised(TypeError))
  {
  }

  lemma RunUnfold(id: NodeId, learners: seq<NodeId>, s: AcceptorState, msgs: seq<Message>)
    requires msgs != []
    ensures var r := OnMessage(id, learners, s, msgs[0]);
      Run(id, learners, s, msgs) == if r.outcome.Raised? then r else After(r.out, Run(id, learners, r.state, msgs[1..]))
  {
  }

  /** Behaviour of a run split in two: the second part runs from where the first ended, unless it raised. */
  lemma {:induction false} RunAppend(id: NodeId, learners: seq<NodeId>, s: AcceptorState, a: seq<Message>, b: seq<Message>)
    ensures var ra := Run(id, learners, s, a);
      Run(id, learners, s, a + b) == if ra.outcome.Raised? then ra else After(ra.out, Run(id, learners, ra.state, b))
    decreases |a|
  {
    if a == [] {
      assert a + b == b;
    } else {
      assert (a + b)[0] == a[0] && (a + b)[1..] == a[1..] + b;
      var r := OnMessage(id, learners, s, a[0]);
      if r.outcome.Ok? {
        RunAppend(id, learners, r.state, a[1..], b);
        var p := Run(id, learners, r.state, a[1..]);
        if p.outcome.Ok? {
          var t := Run(id, learners, p.state, b);
          assert r.out + (p.out + t.out) == (r.out + p.out) + t.out;
        }
      }
    }
  }

  /** Handling one more message of a stream that has not raised extends the run of its prefix by that message's step. */
  lemma RunSnoc(id: NodeId, learners: seq<NodeId>, s: AcceptorState, msgs: seq<Message>, i: nat)
    requires i < |msgs| && Run(id, learners, s, msgs[..i]).outcome == Ok
    ensures var p := Run(id, learners, s, msgs[..i]);
      var r := OnMessage(id, learners, p.state, msgs[i]);
      Run(id, learners, s, msgs[..i + 1]) == After(p.out, r)
  {
    assert msgs[..i + 1] == msgs[..i] + [msgs[i]];
    RunAppend(id, learners, s, msgs[..i], [msgs[i]]);
    var p := Run(id, learners, s, msgs[..i]);
    var r := OnMessage(id, learners, p.state, msgs[i]);
    if r.outcome.Ok? {
      assert Run(id, learners, p.state, [msgs[i]]) == After(r.out, Step(r.state, [], Ok));
      assert r.out + [] == r.out;
    }
  }

  /** One more learner in the prefix sent to adds its LEARN at the end. */
  lemma LearnBroadcastSnoc(id: NodeId, learners: seq<NodeId>, i: nat, n: int, v: Option<Value>)
    requires i < |learners|
    ensures LearnBroadcast(id, learners[..i + 1], n, v)
         == LearnBroadcast(id, learners[..i], n, v) + [Message(id, learners[i], Learn, Some(n), v)]
  {
  }

  /**
   * Over any run the promise never decreases, the accepted id never exceeds it, and every
   * proposal the acceptor votes for (ACCEPTED and LEARN) is at least the promise it started with;
   * every positive PROMISE for n reports an accepted id strictly below n.
   */
  lemma {:induction false} RunSafety(id: NodeId, learners: seq<NodeId>, s: AcceptorState, msgs: seq<Message>)
    requires Valid(s)
    ensures var r := Run(id, learners, s, msgs);
      && Valid(r.state)
      && r.state.promisedId >= s.promisedId
      && r.state.acceptedId >= s.acceptedId
      && (forall i :: 0 <= i < |r.out| && r.out[i].msgType in {Accepted, Learn} ==>
            r.out[i].proposalId.Some? && r.out[i].proposalId.value >= s.promisedId)
      && (forall i :: 0 <= i < |r.out| && r.out[i].msgType == Promise && r.out[i].acceptedProposalId.Some? ==>
            r.out[i].proposalId.Some? && r.out[i].acceptedProposalId.value < r.out[i].proposalId.value)
      && (forall i :: 0 <= i < |r.out| ==> r.out[i].sender == id)
    decreases |msgs|
  {
    if msgs != [] {
      var r := OnMessage(id, learners, s, msgs[0]);
      if r.outcome.Ok? {
        RunSafety(id, learners, r.state, msgs[1..]);
      }
    }
  }

  /** The acceptor (paxosAlg/acceptor.py:8-93). */
  class Acceptor {
    const id: NodeId
    const learnerIds: seq<NodeId>
    const network: Network
    var promisedId: int
    var acceptedId: int
    var acceptedValue: Option<Value>

    function State(): AcceptorState
      reads this
    {
      AcceptorState(promisedId, acceptedId, acceptedValue)
    }

    constructor (id: NodeId, learnerIds: seq<NodeId>, network: Network)
      ensures this.id == id && this.learnerIds == learnerIds && this.network == network
      ensures State() == Fresh
    {
      this.id := id;
      this.learnerIds := learnerIds;
      this.network := network;
      promisedId := -1;
      acceptedId := -1;
      acceptedValue := None;
    }

    method HandleMessage(m: Message) returns (o: Outcome)
      modifies this, network
      ensures var r := OnMessage(id, learnerIds, old(State()), m);
        State() == r.state && network.queue == old(network.queue) + r.out && o == r.outcome
    {
      if m.msgType == Prepare {
        o := HandlePrepare(m);
      } else if m.msgType == Accept {
        o := HandleAccept(m);
      } else {
        o := Ok;
      }
    }

    method HandlePrepare(m: Message) returns (o: Outcome)
      modifies this, network
      ensures var r := OnPrepare(id, old(State()), m);
        State() == r.state && network.queue == old(network.queue) + r.out && o == r.outcome
    {
      if m.proposalId.None? {
        return Raised(TypeError);
      }
      var promise: Message;
      if m.proposalId.value > promisedId {
        promisedId := m.proposalId.value;
        promise := Message(id, m.sender, Promise, Some(promisedId), acceptedValue, Some(acceptedId));
      } else {
        promise := Message(id, m.sender, Promise, Some(promisedId));
      }
      network.SendMessage(promise);
      o := Ok;
    }

    method HandleAccept(m: Message) returns (o: Outcome)
      modifies this, network
      ensures var r := OnAccept(id, learnerIds, old(State()), m);
        State() == r.state && network.queue == old(network.queue) + r.out && o == r.outcome
    {
      if m.proposalId.None? {
        return Raised(TypeError);
      }
      var n := m.proposalId.value;
      if n >= promisedId {
        promisedId := n;
        acceptedId := n;
        acceptedValue := m.value;
        network.SendMessage(Message(id, m.sender, Accepted, Some(acceptedId), acceptedValue));
        ghost var sent := network.queue;
        var i := 0;
        while i < |learnerIds|
          invariant 0 <= i <= |learnerIds|
          invariant network.queue == sent + LearnBroadcast(id, learnerIds[..i], n, m.value)
          invariant State() == AcceptorState(n, n, m.value)
        {
          LearnBroadcastSnoc(id, learnerIds, i, n, m.value);
          network.SendMessage(Message(id, learnerIds[i], Learn, Some(acceptedId), acceptedValue));
          i := i + 1;
        }
        assert learnerIds[..i] == learnerIds;
      }
      o := Ok;
    }

    /** Node.process_messages for an acceptor: drain, then handle each message in queue order. */
    method ProcessMessages() returns (o: Outcome)
      modifies this, network
      ensures var r := Run(id, learnerIds, old(State()), Addressed(old(network.queue), id));
        State() == r.state && network.queue == Others(old(network.queue), id) + r.out && o == r.outcome
    {
      var received := network.GetMessagesForNode(id);
      o := HandleAll(received);
    }

    /** The dispatch loop of Node.process_messages; a raised exception ends it. */
    method HandleAll(received: seq<Message>) returns (o: Outcome)
      modifies this, network
      ensures var r := Run(id, learnerIds, old(State()), received);
        State() == r.state && network.queue == old(network.queue) + r.out && o == r.outcome
    {
      ghost var s0 := State();
      o := Ok;
      var i := 0;
      while i < |received|
        invariant 0 <= i <= |received|
        invariant var p := Run(id, learnerIds, s0, received[..i]);
          p.outcome == Ok && o == Ok && State() == p.state && network.queue == old(network.queue) + p.out
      {
        RunSnoc(id, learnerIds, s0, received, i);
        o := HandleMessage(received[i]);
        if o.Raised? {
          RunAppend(id, learnerIds, s0, received[..i + 1], received[i + 1..]);
          assert received[..i + 1] + received[i + 1..] == received;
          return;
        }
        i := i + 1;
      }
      assert received[..i] == received;
    }
  }
}
