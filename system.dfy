/**
 * The whole simulation as one state machine: the shared queue and every node's state, driven by
 * an arbitrary schedule of node turns (a turn is one process_messages call, or a start_proposal).
 * Its theorem: whatever the schedule, two learners that have decided hold the same value, and no
 * acceptor ever raises.
 */
module PaxosSystem {
  import opened PaxosMessage
  import opened PaxosNetwork
  import opened PaxosNode
  import A = PaxosAcceptor
  import L = PaxosLearner
  import P = PaxosProposer

  /** The node ids of each role; every acceptor knows all learners and every node knows all acceptors. */
  datatype Config = Config(acceptorIds: seq<NodeId>, learnerIds: seq<NodeId>, proposerIds: seq<NodeId>)

  ghost predicate Distinct(xs: seq<NodeId>)
  {
    forall i, j :: 0 <= i < j < |xs| ==> xs[i] != xs[j]
  }

  /** Ids are given as sets in the source, so they are distinct; the three roles use different ids. */
  ghost predicate WellFormed(c: Config)
  {
    && Distinct(c.acceptorIds) && Distinct(c.learnerIds) && Distinct(c.proposerIds)
    && (forall x :: x in c.acceptorIds ==> x !in c.learnerIds && x !in c.proposerIds)
    && (forall x :: x in c.learnerIds ==> x !in c.proposerIds)
  }

  /** Learners and proposers both use len(acceptor ids) // 2 + 1. */
  function Quorum(c: Config): nat
  {
    |c.acceptorIds| / 2 + 1
  }

  /**
   * The node states and the queue. `delivered` records, per learner, the messages it has handled so
   * far; it is bookkeeping for the proof and plays no part in any decision.
   */
  datatype World = World(
    queue: seq<Message>,
    acceptors: seq<A.AcceptorState>,
    learners: seq<L.LearnerState>,
    proposers: seq<P.ProposerState>,
    delivered: seq<seq<Message>>)

  ghost predicate Shaped(c: Config, w: World)
  {
    && |w.acceptors| == |c.acceptorIds|
    && |w.learners| == |c.learnerIds| && |w.delivered| == |c.learnerIds|
    && |w.proposers| == |c.proposerIds|
  }

  /** The start: nothing pending and every learner fresh; acceptors and proposers may hold any state. */
  ghost predicate Init(c: Config, w: World)
  {
    && Shaped(c, w)
    && w.queue == []
    && (forall j :: 0 <= j < |w.learners| ==> w.learners[j] == L.Fresh && w.delivered[j] == [])
  }

  datatype Event = AcceptorTurn(i: nat) | LearnerTurn(j: nat) | ProposerTurn(k: nat) | ProposerStart(k: nat)

  /**
   * One turn. A node's turn drains its messages and handles them in order (an out-of-range index
   * is no turn at all). An acceptor's TypeError would end the program; NeverRaises shows it cannot
   * happen, so the run's sends and state are taken as they are.
   */
  function Next(c: Config, w: World, e: Event): (w': World)
    ensures |w'.acceptors| == |w.acceptors| && |w'.learners| == |w.learners|
    ensures |w'.proposers| == |w.proposers| && |w'.delivered| == |w.delivered|
  {
    match e
    case AcceptorTurn(i) =>
      if i < |w.acceptors| && i < |c.acceptorIds| then
        var id := c.acceptorIds[i];
        var r := A.Run(id, c.learnerIds, w.acceptors[i], Addressed(w.queue, id));
        w.(queue := Others(w.queue, id) + r.out, acceptors := w.acceptors[i := r.state])
      else w
    case LearnerTurn(j) =>
      if j < |w.learners| && j < |w.delivered| && j < |c.learnerIds| then
        var id := c.learnerIds[j];
        var drained := Addressed(w.queue, id);
        w.(queue := Others(w.queue, id),
           learners := w.learners[j := L.Run(Quorum(c), w.learners[j], drained)],
           delivered := w.delivered[j := w.delivered[j] + drained])
      else w
    case ProposerTurn(k) =>
      if k < |w.proposers| && k < |c.proposerIds| then
        var id := c.proposerIds[k];
        var r := P.Run(id, c.acceptorIds, Quorum(c), w.proposers[k], Addressed(w.queue, id));
        w.(queue := Others(w.queue, id) + r.out, proposers := w.proposers[k := r.state])
      else w
    case ProposerStart(k) =>
      if k < |w.proposers| && k < |c.proposerIds| then
        var r := P.StartRound(c.proposerIds[k], c.acceptorIds, w.proposers[k]);
        w.(queue := w.queue + r.out, proposers := w.proposers[k := r.state])
      else w
  }

  function Exec(c: Config, w: World, es: seq<Event>): (w': World)
    ensures |w'.acceptors| == |w.acceptors| && |w'.learners| == |w.learners|
    ensures |w'.proposers| == |w.proposers| && |w'.delivered| == |w.delivered|
    decreases |es|
  {
    if es == [] then w else Exec(c, Next(c, w, es[0]), es[1..])
  }

  // ---- receiver-blind views of message streams ----

  /** A message with its receiver erased: what a learner's handler looks at. */
  function Anon(m: Message): Message
  {
    m.(receiver := "")
  }

  function StripAll(ms: seq<Message>): (r: seq<Message>)
    ensures |r| == |ms| && forall i :: 0 <= i < |ms| ==> r[i] == Anon(ms[i])
  {
    seq(|ms|, i requires 0 <= i < |ms| => Anon(ms[i]))
  }

  lemma StripAppend(a: seq<Message>, b: seq<Message>)
    ensures StripAll(a + b) == StripAll(a) + StripAll(b)
  {
  }

  /** A learner ignores the receiver field: running it on erased messages gives the same state. */
  lemma {:induction false} LearnerBlind(q: nat, s: L.LearnerState, msgs: seq<Message>)
    ensures L.Run(q, s, StripAll(msgs)) == L.Run(q, s, msgs)
    decreases |msgs|
  {
    if msgs != [] {
      assert StripAll(msgs)[1..] == StripAll(msgs[1..]);
      assert L.OnMessage(q, s, StripAll(msgs)[0]) == L.OnMessage(q, s, msgs[0]);
      LearnerBlind(q, L.OnMessage(q, s, msgs[0]), msgs[1..]);
    }
  }

  // ---- what each role sends ----

  /** Acceptors send only PROMISE, ACCEPTED and LEARN, always with a proposal id. */
  ghost predicate AcceptorOut(out: seq<Message>)
  {
    forall m :: m in out ==> m.proposalId.Some? && m.msgType != Prepare && m.msgType != Accept
  }

  /** Proposers send only PREPARE and ACCEPT, from themselves to acceptors, always with a proposal id. */
  ghost predicate ProposerOut(out: seq<Message>, id: NodeId, acceptors: seq<NodeId>)
  {
    forall m :: m in out ==> m.proposalId.Some? && m.sender == id && m.receiver in acceptors
                             && (m.msgType == Prepare || m.msgType == Accept)
  }

  /** Every learner is sent the same stream, up to the receiver field. */
  ghost predicate Uniform(out: seq<Message>, learners: seq<NodeId>)
  {
    forall l1, l2 :: l1 in learners && l2 in learners ==> StripAll(Addressed(out, l1)) == StripAll(Addressed(out, l2))
  }

  lemma {:induction false} AcceptorRunOut(id: NodeId, learners: seq<NodeId>, s: A.AcceptorState, msgs: seq<Message>)
    ensures AcceptorOut(A.Run(id, learners, s, msgs).out)
    decreases |msgs|
  {
    if msgs != [] {
      var r := A.OnMessage(id, learners, s, msgs[0]);
      AcceptorRunOut(id, learners, r.state, msgs[1..]);
    }
  }

  lemma {:induction false} ProposerRunOut(id: NodeId, acceptors: seq<NodeId>, q: nat, s: P.ProposerState, msgs: seq<Message>)
    ensures ProposerOut(P.Run(id, acceptors, q, s, msgs).out, id, acceptors)
    decreases |msgs|
  {
    if msgs != [] {
      var r := P.OnMessage(id, acceptors, q, s, msgs[0]);
      ProposerRunOut(id, acceptors, q, r.state, msgs[1..]);
      forall m | m in r.out
        ensures m.proposalId.Some? && m.sender == id && m.receiver in acceptors && (m.msgType == Prepare || m.msgType == Accept)
      {
        var i :| 0 <= i < |r.out| && r.out[i] == m;
      }
    }
  }

  lemma ProposerStartOut(id: NodeId, acceptors: seq<NodeId>, s: P.ProposerState)
    ensures ProposerOut(P.StartRound(id, acceptors, s).out, id, acceptors)
  {
    var out := P.StartRound(id, acceptors, s).out;
    forall m | m in out
      ensures m.proposalId.Some? && m.sender == id && m.receiver in acceptors && (m.msgType == Prepare || m.msgType == Accept)
    {
      var i :| 0 <= i < |out| && out[i] == m;
    }
  }

  /** A LEARN broadcast holds exactly one message for each learner. */
  lemma {:induction false} BroadcastAddressed(id: NodeId, learners: seq<NodeId>, n: int, v: Option<Value>, l: NodeId)
    requires Distinct(learners) && l in learners
    ensures Addressed(A.LearnBroadcast(id, learners, n, v), l) == [Message(id, l, Learn, Some(n), v)]
    decreases |learners|
  {
    var rest := A.LearnBroadcast(id, learners[1..], n, v);
    assert A.LearnBroadcast(id, learners, n, v) == [Message(id, learners[0], Learn, Some(n), v)] + rest;
    AddressedAppend([Message(id, learners[0], Learn, Some(n), v)], rest, l);
    if learners[0] == l {
      forall i | 0 <= i < |rest| ensures rest[i].receiver != l {
        assert rest[i].receiver == learners[i + 1];
      }
      AddressedNone(rest, l);
    } else {
      assert l in learners[1..];
      assert Distinct(learners[1..]) by {
        forall i, j | 0 <= i < j < |learners[1..]| ensures learners[1..][i] != learners[1..][j] {
          assert learners[1..][i] == learners[i + 1] && learners[1..][j] == learners[j + 1];
        }
      }
      BroadcastAddressed(id, learners[1..], n, v, l);
    }
  }

  lemma OnMessageUniform(id: NodeId, learners: seq<NodeId>, s: A.AcceptorState, m: Message)
    requires Distinct(learners)
    requires (m.msgType == Prepare || m.msgType == Accept) ==> m.sender !in learners
    ensures Uniform(A.OnMessage(id, learners, s, m).out, learners)
  {
    var out := A.OnMessage(id, learners, s, m).out;
    forall l1, l2 | l1 in learners && l2 in learners
      ensures StripAll(Addressed(out, l1)) == StripAll(Addressed(out, l2))
    {
      if m.msgType == Accept && m.proposalId.Some? && m.proposalId.value >= s.promisedId {
        var n := m.proposalId.value;
        var head := [Message(id, m.sender, Accepted, Some(n), m.value)];
        var lb := A.LearnBroadcast(id, learners, n, m.value);
        assert out == head + lb;
        AddressedAppend(head, lb, l1);
        AddressedAppend(head, lb, l2);
        BroadcastAddressed(id, learners, n, m.value, l1);
        BroadcastAddressed(id, learners, n, m.value, l2);
        assert Addressed(head, l1) == [] && Addressed(head, l2) == [];
      } else if m.msgType == Prepare && m.proposalId.Some? {
        assert Addressed(out, l1) == [] && Addressed(out, l2) == [];
      } else {
        assert out == [];
      }
    }
  }

  lemma {:induction false} AcceptorRunUniform(id: NodeId, learners: seq<NodeId>, s: A.AcceptorState, msgs: seq<Message>)
    requires Distinct(learners)
    requires forall m :: m in msgs && (m.msgType == Prepare || m.msgType == Accept) ==> m.sender !in learners
    ensures Uniform(A.Run(id, learners, s, msgs).out, learners)
    decreases |msgs|
  {
    if msgs == [] {
    } else {
      var r := A.OnMessage(id, learners, s, msgs[0]);
      OnMessageUniform(id, learners, s, msgs[0]);
      if r.outcome.Ok? {
        var t := A.Run(id, learners, r.state, msgs[1..]);
        assert forall m :: m in msgs[1..] ==> m in msgs;
        AcceptorRunUniform(id, learners, r.state, msgs[1..]);
        forall l1, l2 | l1 in learners && l2 in learners
          ensures StripAll(Addressed(r.out + t.out, l1)) == StripAll(Addressed(r.out + t.out, l2))
        {
          AddressedAppend(r.out, t.out, l1);
          AddressedAppend(r.out, t.out, l2);
          StripAppend(Addressed(r.out, l1), Addressed(t.out, l1));
          StripAppend(Addressed(r.out, l2), Addressed(t.out, l2));
        }
      }
    }
  }

  /** With every drained message carrying a proposal id, an acceptor's run ends normally. */
  lemma {:induction false} AcceptorRunOk(id: NodeId, learners: seq<NodeId>, s: A.AcceptorState, msgs: seq<Message>)
    requires forall m :: m in msgs ==> m.proposalId.Some?
    ensures A.Run(id, learners, s, msgs).outcome == Ok
    decreases |msgs|
  {
    if msgs != [] {
      assert msgs[0] in msgs;
      assert forall m :: m in msgs[1..] ==> m in msgs;
      AcceptorRunOk(id, learners, A.OnMessage(id, learners, s, msgs[0]).state, msgs[1..]);
    }
  }

  // ---- the invariant ----

  /** What learner j has handled, followed by what is pending for it, receivers erased. */
  function Stream(c: Config, w: World, j: nat): seq<Message>
    requires j < |w.delivered| && j < |c.learnerIds|
  {
    StripAll(w.delivered[j] + Addressed(w.queue, c.learnerIds[j]))
  }

  ghost predicate QueueOk(c: Config, q: seq<Message>)
  {
    forall m :: m in q ==> m.proposalId.Some? && ((m.msgType == Prepare || m.msgType == Accept) ==> m.sender in c.proposerIds)
  }

  ghost predicate Inv(c: Config, w: World)
  {
    && Shaped(c, w)
    && QueueOk(c, w.queue)
    && (forall j :: 0 <= j < |w.learners| ==> w.learners[j] == L.Run(Quorum(c), L.Fresh, w.delivered[j]))
    && (forall j1, j2 :: 0 <= j1 < |c.learnerIds| && 0 <= j2 < |c.learnerIds| ==> Stream(c, w, j1) == Stream(c, w, j2))
  }

  lemma InitInv(c: Config, w: World)
    requires Init(c, w)
    ensures Inv(c, w)
  {
  }

  /** Appending sends that reach every learner alike keeps the learners' streams equal. */
  lemma ExtendStreams(c: Config, w: World, w': World, out: seq<Message>)
    requires WellFormed(c) && Inv(c, w) && Shaped(c, w')
    requires w'.delivered == w.delivered && w'.learners == w.learners && Uniform(out, c.learnerIds)
    requires forall j :: 0 <= j < |c.learnerIds| ==> Addressed(w'.queue, c.learnerIds[j]) == Addressed(w.queue, c.learnerIds[j]) + Addressed(out, c.learnerIds[j])
    ensures forall j1, j2 :: 0 <= j1 < |c.learnerIds| && 0 <= j2 < |c.learnerIds| ==> Stream(c, w', j1) == Stream(c, w', j2)
  {
    forall j1, j2 | 0 <= j1 < |c.learnerIds| && 0 <= j2 < |c.learnerIds|
      ensures Stream(c, w', j1) == Stream(c, w', j2)
    {
      var l1, l2 := c.learnerIds[j1], c.learnerIds[j2];
      var d1, d2 := w.delivered[j1], w.delivered[j2];
      assert d1 + Addressed(w'.queue, l1) == (d1 + Addressed(w.queue, l1)) + Addressed(out, l1);
      assert d2 + Addressed(w'.queue, l2) == (d2 + Addressed(w.queue, l2)) + Addressed(out, l2);
      StripAppend(d1 + Addressed(w.queue, l1), Addressed(out, l1));
      StripAppend(d2 + Addressed(w.queue, l2), Addressed(out, l2));
      assert Stream(c, w, j1) == Stream(c, w, j2);
    }
  }

  lemma QueueOkSend(c: Config, q: seq<Message>, id: NodeId, out: seq<Message>)
    requires QueueOk(c, q)
    requires forall m :: m in out ==> m.proposalId.Some? && ((m.msgType == Prepare || m.msgType == Accept) ==> m.sender in c.proposerIds)
    ensures QueueOk(c, Others(q, id) + out)
  {
    forall m | m in Others(q, id) ensures m in q {
      DrainMembers(q, id, m);
    }
  }

  lemma AcceptorTurnInv(c: Config, w: World, i: nat)
    requires WellFormed(c) && Inv(c, w)
    ensures Inv(c, Next(c, w, AcceptorTurn(i)))
  {
    if i < |w.acceptors| {
      var id := c.acceptorIds[i];
      var drained := Addressed(w.queue, id);
      var r := A.Run(id, c.learnerIds, w.acceptors[i], drained);
      var w' := Next(c, w, AcceptorTurn(i));
      AcceptorRunOut(id, c.learnerIds, w.acceptors[i], drained);
      QueueOkSend(c, w.queue, id, r.out);
      forall m | m in drained && (m.msgType == Prepare || m.msgType == Accept) ensures m.sender !in c.learnerIds {
        DrainMembers(w.queue, id, m);
      }
      AcceptorRunUniform(id, c.learnerIds, w.acceptors[i], drained);
      forall j | 0 <= j < |c.learnerIds|
        ensures Addressed(w'.queue, c.learnerIds[j]) == Addressed(w.queue, c.learnerIds[j]) + Addressed(r.out, c.learnerIds[j])
      {
        assert id in c.acceptorIds && c.learnerIds[j] in c.learnerIds;
        AddressedAppend(Others(w.queue, id), r.out, c.learnerIds[j]);
        DrainKeepsOthers(w.queue, id, c.learnerIds[j]);
      }
      ExtendStreams(c, w, w', r.out);
    }
  }

  lemma ProposerOutUniform(c: Config, out: seq<Message>, id: NodeId)
    requires WellFormed(c) && ProposerOut(out, id, c.acceptorIds)
    ensures Uniform(out, c.learnerIds)
    ensures forall l :: l in c.learnerIds ==> Addressed(out, l) == []
  {
    forall l | l in c.learnerIds ensures Addressed(out, l) == [] {
      forall i | 0 <= i < |out| ensures out[i].receiver != l {
        assert out[i] in out;
      }
      AddressedNone(out, l);
    }
  }

  lemma ProposerTurnInv(c: Config, w: World, k: nat)
    requires WellFormed(c) && Inv(c, w)
    ensures Inv(c, Next(c, w, ProposerTurn(k)))
  {
    if k < |w.proposers| {
      var id := c.proposerIds[k];
      var r := P.Run(id, c.acceptorIds, Quorum(c), w.proposers[k], Addressed(w.queue, id));
      var w' := Next(c, w, ProposerTurn(k));
      ProposerRunOut(id, c.acceptorIds, Quorum(c), w.proposers[k], Addressed(w.queue, id));
      assert id in c.proposerIds;
      QueueOkSend(c, w.queue, id, r.out);
      ProposerOutUniform(c, r.out, id);
      forall j | 0 <= j < |c.learnerIds|
        ensures Addressed(w'.queue, c.learnerIds[j]) == Addressed(w.queue, c.learnerIds[j]) + Addressed(r.out, c.learnerIds[j])
      {
        assert c.learnerIds[j] in c.learnerIds;
        AddressedAppend(Others(w.queue, id), r.out, c.learnerIds[j]);
        DrainKeepsOthers(w.queue, id, c.learnerIds[j]);
      }
      ExtendStreams(c, w, w', r.out);
    }
  }

  lemma ProposerStartInv(c: Config, w: World, k: nat)
    requires WellFormed(c) && Inv(c, w)
    ensures Inv(c, Next(c, w, ProposerStart(k)))
  {
    if k < |w.proposers| {
      var id := c.proposerIds[k];
      var r := P.StartRound(id, c.acceptorIds, w.proposers[k]);
      var w' := Next(c, w, ProposerStart(k));
      ProposerStartOut(id, c.acceptorIds, w.proposers[k]);
      assert id in c.proposerIds;
      ProposerOutUniform(c, r.out, id);
      forall j | 0 <= j < |c.learnerIds|
        ensures Addressed(w'.queue, c.learnerIds[j]) == Addressed(w.queue, c.learnerIds[j]) + Addressed(r.out, c.learnerIds[j])
      {
        AddressedAppend(w.queue, r.out, c.learnerIds[j]);
      }
      ExtendStreams(c, w, w', r.out);
    }
  }

  lemma LearnerTurnInv(c: Config, w: World, j: nat)
    requires WellFormed(c) && Inv(c, w)
    ensures Inv(c, Next(c, w, LearnerTurn(j)))
  {
    if j < |w.learners| {
      var id := c.learnerIds[j];
      var drained := Addressed(w.queue, id);
      var w' := Next(c, w, LearnerTurn(j));
      forall m | m in Others(w.queue, id) ensures m in w.queue {
        DrainMembers(w.queue, id, m);
      }
      L.RunAppend(Quorum(c), L.Fresh, w.delivered[j], drained);
      DrainTwice(w.queue, id);
      assert w'.delivered[j] + Addressed(w'.queue, id) == w.delivered[j] + drained;
      forall j2 | 0 <= j2 < |c.learnerIds| ensures Stream(c, w', j2) == Stream(c, w, j2) {
        if j2 != j {
          DrainKeepsOthers(w.queue, id, c.learnerIds[j2]);
        }
      }
    }
  }

  lemma NextInv(c: Config, w: World, e: Event)
    requires WellFormed(c) && Inv(c, w)
    ensures Inv(c, Next(c, w, e))
  {
    match e
    case AcceptorTurn(i) => AcceptorTurnInv(c, w, i);
    case LearnerTurn(j) => LearnerTurnInv(c, w, j);
    case ProposerTurn(k) => ProposerTurnInv(c, w, k);
    case ProposerStart(k) => ProposerStartInv(c, w, k);
  }

  lemma {:induction false} ExecInv(c: Config, w: World, es: seq<Event>)
    requires WellFormed(c) && Inv(c, w)
    ensures Inv(c, Exec(c, w, es))
    decreases |es|
  {
    if es != [] {
      NextInv(c, w, es[0]);
      ExecInv(c, Next(c, w, es[0]), es[1..]);
    }
  }

  // ---- the theorems ----

  /** Two learners fed prefixes of one stream: once the shorter-fed one has decided, the other equals it. */
  lemma PrefixAgreement(q: nat, d1: seq<Message>, a1: seq<Message>, d2: seq<Message>, a2: seq<Message>)
    requires StripAll(d1 + a1) == StripAll(d2 + a2) && |d1| <= |d2|
    requires L.Run(q, L.Fresh, d1).isLearned
    ensures L.Run(q, L.Fresh, d2) == L.Run(q, L.Fresh, d1)
  {
    var s := StripAll(d1 + a1);
    StripAppend(d1, a1);
    StripAppend(d2, a2);
    var x := s[|d1|..|d2|];
    assert StripAll(d2) == StripAll(d1) + x;
    LearnerBlind(q, L.Fresh, d1);
    LearnerBlind(q, L.Fresh, d2);
    L.RunAppend(q, L.Fresh, StripAll(d1), x);
    L.WriteOnce(q, L.Run(q, L.Fresh, d1), x);
  }

  /**
   * Agreement among learners: from any start, under any schedule, two learners that have both
   * decided hold the same value.
   */
  lemma Agreement(c: Config, w0: World, es: seq<Event>, j1: nat, j2: nat)
    requires WellFormed(c) && Init(c, w0)
    requires j1 < |c.learnerIds| && j2 < |c.learnerIds|
    ensures var w := Exec(c, w0, es);
      w.learners[j1].isLearned && w.learners[j2].isLearned ==> w.learners[j1].learnedValue == w.learners[j2].learnedValue
  {
    InitInv(c, w0);
    ExecInv(c, w0, es);
    var w := Exec(c, w0, es);
    var l1, l2 := c.learnerIds[j1], c.learnerIds[j2];
    assert Stream(c, w, j1) == Stream(c, w, j2);
    if w.learners[j1].isLearned && w.learners[j2].isLearned {
      if |w.delivered[j1]| <= |w.delivered[j2]| {
        PrefixAgreement(Quorum(c), w.delivered[j1], Addressed(w.queue, l1), w.delivered[j2], Addressed(w.queue, l2));
      } else {
        PrefixAgreement(Quorum(c), w.delivered[j2], Addressed(w.queue, l2), w.delivered[j1], Addressed(w.queue, l1));
      }
    }
  }

  /** Under the invariant, no acceptor's turn raises TypeError. */
  lemma AcceptorTurnOk(c: Config, w: World, i: nat)
    requires Inv(c, w) && i < |c.acceptorIds|
    ensures A.Run(c.acceptorIds[i], c.learnerIds, w.acceptors[i], Addressed(w.queue, c.acceptorIds[i])).outcome == Ok
  {
    var id := c.acceptorIds[i];
    forall m | m in Addressed(w.queue, id) ensures m.proposalId.Some? {
      DrainMembers(w.queue, id, m);
    }
    AcceptorRunOk(id, c.learnerIds, w.acceptors[i], Addressed(w.queue, id));
  }

  /** No PREPARE or ACCEPT without a proposal id is ever sent, so no acceptor turn raises TypeError. */
  lemma NeverRaises(c: Config, w0: World, es: seq<Event>, i: nat)
    requires WellFormed(c) && Init(c, w0) && i < |c.acceptorIds|
    ensures var w := Exec(c, w0, es);
      A.Run(c.acceptorIds[i], c.learnerIds, w.acceptors[i], Addressed(w.queue, c.acceptorIds[i])).outcome == Ok
  {
    InitInv(c, w0);
    ExecInv(c, w0, es);
    AcceptorTurnOk(c, Exec(c, w0, es), i);
  }
}
