/**
 * The driver of paxosAlg/main.py: five acceptors, two learners, proposers P1 and P2, three network
 * cycles at most, P2 starting after the second cycle's processing, and a stop once a learner has
 * decided. The id sets are iterated in one fixed order (A1..A5, L1, L2).
 *
 * The run is worked out for any list of five distinct acceptor ids that are neither a learner's
 * nor a proposer's id; main.py's own list is the instance AcceptorIds.
 */
module PaxosScenario {
  import opened PaxosMessage
  import opened PaxosNetwork
  import opened PaxosNode
  import opened PaxosSystem
  import A = PaxosAcceptor
  import L = PaxosLearner
  import P = PaxosProposer

  const V1: Value := "Valor_Original_P1"
  const V2: Value := "Valor_Concorrente_P2"
  const AcceptorIds: seq<NodeId> := ["A1", "A2", "A3", "A4", "A5"]
  const LearnerIds: seq<NodeId> := ["L1", "L2"]
  const ProposerIds: seq<NodeId> := ["P1", "P2"]
  const Setup := Config(AcceptorIds, LearnerIds, ProposerIds)

  /** The node list of main.py: each acceptor, each learner, then P1 and P2, one turn each. */
  const AcceptorTurns: seq<Event> := [AcceptorTurn(0), AcceptorTurn(1), AcceptorTurn(2), AcceptorTurn(3), AcceptorTurn(4)]
  const LearnerTurns: seq<Event> := [LearnerTurn(0), LearnerTurn(1)]
  const ProposerTurns: seq<Event> := [ProposerTurn(0), ProposerTurn(1)]
  const Cycle: seq<Event> := AcceptorTurns + LearnerTurns + ProposerTurns

  const Seeded1 := P.ProposerState(100, Some(V1), false, [], -1, None)
  const Seeded2 := P.ProposerState(200, Some(V2), false, [], -1, None)

  // the messages of the run
  function Prom(a: NodeId): Message { Message(a, "P1", Promise, Some(101), None, Some(-1)) }
  function Acc(a: NodeId): Message { Message("P1", a, Accept, Some(101), Some(V1)) }
  function Acked(a: NodeId): Message { Message(a, "P1", Accepted, Some(101), Some(V1)) }
  function Lrn(a: NodeId, l: NodeId): Message { Message(a, l, Learn, Some(101), Some(V1)) }

  const Promised := A.AcceptorState(101, -1, None)
  const Accepted101 := A.AcceptorState(101, 101, Some(V1))
  const Round1 := P.ProposerState(101, Some(V1), true, [], -1, None)
  const Round2 := P.ProposerState(201, Some(V2), true, [], -1, None)

  /** A learner that decided V1 on the votes of the first three acceptors. */
  function Decided(ids: seq<NodeId>): L.LearnerState
    requires |ids| >= 3
  {
    L.LearnerState(map[(Some(101), Some(V1)) := {ids[0], ids[1], ids[2]}], Some(V1), true)
  }

  /** The PROMISE(101, -1, None) of each acceptor of ids, in turn order. */
  function Promises(ids: seq<NodeId>): (ms: seq<Message>)
    ensures |ms| == |ids| && forall i :: 0 <= i < |ids| ==> ms[i] == Prom(ids[i])
  {
    seq(|ids|, i requires 0 <= i < |ids| => Prom(ids[i]))
  }

  /** What an acceptor sends on ACCEPT(101, V1): ACCEPTED to P1, then LEARN to L1 and to L2. */
  function AcceptOut(a: NodeId): seq<Message> { [Acked(a), Lrn(a, "L1"), Lrn(a, "L2")] }

  /** The replies of the acceptors ids, in turn order. */
  function Outs(ids: seq<NodeId>): (ms: seq<Message>)
    ensures |ms| == 3 * |ids|
    decreases |ids|
  {
    if ids == [] then [] else Outs(ids[..|ids| - 1]) + AcceptOut(ids[|ids| - 1])
  }

  /** The LEARNs the acceptors ids send to l, in turn order. */
  function Lrns(ids: seq<NodeId>, l: NodeId): (ms: seq<Message>)
    ensures |ms| == |ids| && forall i :: 0 <= i < |ms| ==> ms[i] == Lrn(ids[i], l)
    decreases |ids|
  {
    if ids == [] then [] else Lrns(ids[..|ids| - 1], l) + [Lrn(ids[|ids| - 1], l)]
  }

  /** The ACCEPTEDs the acceptors ids send to P1, in turn order. */
  function Ackeds(ids: seq<NodeId>): (ms: seq<Message>)
    ensures |ms| == |ids| && forall i :: 0 <= i < |ms| ==> ms[i].msgType == Accepted
    decreases |ids|
  {
    if ids == [] then [] else Ackeds(ids[..|ids| - 1]) + [Acked(ids[|ids| - 1])]
  }

  // ---- the worlds of the run ----

  /** Every node as constructed, nothing pending. */
  function StartWorld(ids: seq<NodeId>): World
  {
    World([], seq(|ids|, i requires 0 <= i < |ids| => A.Fresh), [L.Fresh, L.Fresh], [Seeded1, Seeded2], [[], []])
  }

  /** What cycle 1 does not touch: fresh learners, P1 in round 101, P2 as seeded. */
  const Base1 := World([], [], [L.Fresh, L.Fresh], [Round1, Seeded2], [[], []])

  /** Cycle 1 after k acceptor turns: PREPAREs pending for the rest, PROMISEs from the first k. */
  function PromisePhase(ids: seq<NodeId>, k: nat, base: World): World
    requires k <= |ids|
  {
    base.(queue := P.PrepareBroadcast("P1", ids[k..], 101) + Promises(ids[..k]),
          acceptors := seq(|ids|, i requires 0 <= i < |ids| => if i < k then Promised else A.Fresh))
  }

  /** What cycle 2 does not touch before the learners: fresh learners, P1 holding every promise. */
  function Base2(ids: seq<NodeId>): World
  {
    World([], [], [L.Fresh, L.Fresh], [Round1.(promises := Promises(ids)), Seeded2], [[], []])
  }

  /** Cycle 2 after k acceptor turns: ACCEPTs pending for the rest, the replies of the first k. */
  function AcceptPhase(ids: seq<NodeId>, k: nat, base: World): World
    requires k <= |ids|
  {
    base.(queue := P.AcceptBroadcast("P1", ids[k..], 101, Some(V1)) + Outs(ids[..k]),
          acceptors := seq(|ids|, i requires 0 <= i < |ids| => if i < k then Accepted101 else Promised))
  }

  /** The end of cycle 2: all acceptors accepted (101, V1), both learners decided V1, nothing pending. */
  function EndWorld(ids: seq<NodeId>): World
    requires |ids| >= 3
  {
    AcceptPhase(ids, |ids|, Base2(ids)).(queue := [], learners := [Decided(ids), Decided(ids)],
                                         delivered := [Lrns(ids, "L1"), Lrns(ids, "L2")])
  }

  /** After P2.start_proposal() at the end of cycle 2: round 201 open, its PREPAREs pending. */
  function P2Started(ids: seq<NodeId>): World
    requires |ids| >= 3
  {
    EndWorld(ids).(queue := P.PrepareBroadcast("P2", ids, 201), proposers := [Round1.(promises := Promises(ids)), Round2])
  }

  const Start := StartWorld(AcceptorIds)
  /** After P1.start_proposal(): round 101 open, one PREPARE(101) per acceptor pending. */
  const AfterStart := PromisePhase(AcceptorIds, 0, Base1)
  /** After cycle 1: every acceptor promised 101 and P1, at its third promise, sent ACCEPT(101, V1) to all. */
  const AfterCycle1 := AcceptPhase(AcceptorIds, 0, Base2(AcceptorIds))
  const AfterCycle2 := EndWorld(AcceptorIds)
  const AfterP2Start := P2Started(AcceptorIds)

  /** None of the ids is P1, P2, L1 or L2. */
  ghost predicate Apart(ids: seq<NodeId>)
  {
    forall i :: 0 <= i < |ids| ==> ids[i] != "P1" && ids[i] != "P2" && ids[i] != "L1" && ids[i] != "L2"
  }

  /** The configuration of main.py over the acceptor ids `ids`. */
  ghost predicate Fits(c: Config, ids: seq<NodeId>)
  {
    && c.acceptorIds == ids && c.learnerIds == ["L1", "L2"] && c.proposerIds == ["P1", "P2"]
    && |ids| == 5 && Distinct(ids) && Apart(ids)
  }

  lemma DistinctAcceptors()
    ensures Distinct(AcceptorIds) && Apart(AcceptorIds)
  {
  }

  lemma SetupFits()
    ensures Fits(Setup, AcceptorIds)
  {
    DistinctAcceptors();
  }

  // ---- runs of several turns ----

  lemma {:induction false} ExecAppend(c: Config, w: World, a: seq<Event>, b: seq<Event>)
    ensures Exec(c, w, a + b) == Exec(c, Exec(c, w, a), b)
    decreases |a|
  {
    if a == [] {
      assert a + b == b;
    } else {
      assert (a + b)[1..] == a[1..] + b;
      ExecAppend(c, Next(c, w, a[0]), a[1..], b);
    }
  }

  lemma ExecCons(c: Config, w: World, es: seq<Event>)
    requires es != []
    ensures Exec(c, w, es) == Exec(c, Next(c, w, es[0]), es[1..])
  {
  }

  /** A run whose every step is known: the world after each event is the next one listed. */
  lemma {:induction false} ExecSteps(c: Config, ws: seq<World>, es: seq<Event>)
    requires |ws| == |es| + 1
    requires forall i :: 0 <= i < |es| ==> Next(c, ws[i], es[i]) == ws[i + 1]
    ensures Exec(c, ws[0], es) == ws[|es|]
    decreases |es|
  {
    if es != [] {
      ExecSteps(c, ws[1..], es[1..]);
    }
  }

  lemma ExecThree(c: Config, w0: World, a: seq<Event>, b: seq<Event>, d: seq<Event>, w1: World, w2: World, w3: World)
    requires Exec(c, w0, a) == w1 && Exec(c, w1, b) == w2 && Exec(c, w2, d) == w3
    ensures Exec(c, w0, a + b + d) == w3
  {
    ExecAppend(c, w0, a + b, d);
    ExecAppend(c, w0, a, b);
  }

  // ---- single turns, for any configuration ----

  /** A queue holding one node's messages, then others' ones: its turn drains exactly the first part. */
  lemma SplitThree(head: seq<Message>, mid: seq<Message>, tail: seq<Message>, id: NodeId)
    requires forall i :: 0 <= i < |head| ==> head[i].receiver == id
    requires forall i :: 0 <= i < |mid| ==> mid[i].receiver != id
    requires forall i :: 0 <= i < |tail| ==> tail[i].receiver != id
    ensures Addressed((head + mid) + tail, id) == head && Others((head + mid) + tail, id) == mid + tail
  {
    var none: seq<Message> := [];
    var hm := head + mid;
    assert Addressed(hm, id) == head && Others(hm, id) == mid by {
      AddressedSelf(head, id);
      AddressedNone(mid, id);
      AddressedAppend(head, mid, id);
      assert head + none == head && none + mid == mid;
    }
    assert Addressed(hm + tail, id) == head && Others(hm + tail, id) == mid + tail by {
      AddressedNone(tail, id);
      AddressedAppend(hm, tail, id);
      assert head + none == head;
    }
  }

  /** An acceptor's turn: drain, run, send. */
  lemma AcceptorTurnIs(c: Config, w: World, i: nat, drained: seq<Message>, rest: seq<Message>, r: A.Step)
    requires i < |w.acceptors| && i < |c.acceptorIds|
    requires drained == Addressed(w.queue, c.acceptorIds[i]) && rest == Others(w.queue, c.acceptorIds[i])
    requires r == A.Run(c.acceptorIds[i], c.learnerIds, w.acceptors[i], drained)
    ensures Next(c, w, AcceptorTurn(i)) == w.(queue := rest + r.out, acceptors := w.acceptors[i := r.state])
  {
  }

  /** A learner's turn: drain, run, record what was delivered. */
  lemma LearnerTurnIs(c: Config, w: World, j: nat, drained: seq<Message>, rest: seq<Message>, s: L.LearnerState)
    requires j < |w.learners| && j < |w.delivered| && j < |c.learnerIds|
    requires drained == Addressed(w.queue, c.learnerIds[j]) && rest == Others(w.queue, c.learnerIds[j])
    requires s == L.Run(Quorum(c), w.learners[j], drained)
    ensures Next(c, w, LearnerTurn(j))
         == w.(queue := rest, learners := w.learners[j := s], delivered := w.delivered[j := w.delivered[j] + drained])
  {
  }

  /** A learner turn that drains nothing changes nothing. */
  lemma LearnerIdle(c: Config, w: World, j: nat)
    requires j < |w.learners| && j < |w.delivered| && j < |c.learnerIds|
    requires forall i :: 0 <= i < |w.queue| ==> w.queue[i].receiver != c.learnerIds[j]
    ensures Next(c, w, LearnerTurn(j)) == w
  {
    AddressedNone(w.queue, c.learnerIds[j]);
    var none: seq<Message> := [];
    assert w.delivered[j] + none == w.delivered[j];
    assert w.learners[j := w.learners[j]] == w.learners;
    assert w.delivered[j := w.delivered[j]] == w.delivered;
  }

  /** A proposer's turn: drain, run, send. */
  lemma ProposerTurnIs(c: Config, w: World, k: nat, drained: seq<Message>, rest: seq<Message>, r: P.Step)
    requires k < |w.proposers| && k < |c.proposerIds|
    requires drained == Addressed(w.queue, c.proposerIds[k]) && rest == Others(w.queue, c.proposerIds[k])
    requires r == P.Run(c.proposerIds[k], c.acceptorIds, Quorum(c), w.proposers[k], drained)
    ensures Next(c, w, ProposerTurn(k)) == w.(queue := rest + r.out, proposers := w.proposers[k := r.state])
  {
  }

  ghost predicate NoPromise(ms: seq<Message>)
  {
    forall i :: 0 <= i < |ms| ==> ms[i].msgType != Promise
  }

  /** A proposer handling no PROMISE changes nothing and sends nothing. */
  lemma {:induction false} RunIgnores(id: NodeId, acc: seq<NodeId>, q: nat, s: P.ProposerState, ms: seq<Message>)
    requires NoPromise(ms)
    ensures P.Run(id, acc, q, s, ms) == P.Step(s, [])
    decreases |ms|
  {
    if ms != [] {
      RunIgnores(id, acc, q, s, ms[1..]);
    }
  }

  /** A proposer turn that drains no PROMISE changes only the queue. */
  lemma ProposerIdle(c: Config, w: World, k: nat)
    requires k < |w.proposers| && k < |c.proposerIds|
    requires NoPromise(Addressed(w.queue, c.proposerIds[k]))
    ensures Next(c, w, ProposerTurn(k)) == w.(queue := Others(w.queue, c.proposerIds[k]))
  {
    var id := c.proposerIds[k];
    var d := Addressed(w.queue, id);
    RunIgnores(id, c.acceptorIds, Quorum(c), w.proposers[k], d);
    var none: seq<Message> := [];
    ProposerTurnIs(c, w, k, d, Others(w.queue, id), P.Step(w.proposers[k], none));
    assert Others(w.queue, id) + none == Others(w.queue, id);
    assert w.proposers[k := w.proposers[k]] == w.proposers;
  }

  /** P2's turns find nothing when no message is addressed to it. */
  lemma P2Idle(c: Config, w: World)
    requires c.proposerIds == ["P1", "P2"] && |w.proposers| == 2
    requires forall i :: 0 <= i < |w.queue| ==> w.queue[i].receiver != "P2"
    ensures Next(c, w, ProposerTurn(1)) == w
  {
    AddressedNone(w.queue, "P2");
    ProposerIdle(c, w, 1);
  }

  // ---- P1.start_proposal() ----

  lemma StartGen(c: Config, ids: seq<NodeId>)
    requires Fits(c, ids)
    ensures Next(c, StartWorld(ids), ProposerStart(0)) == PromisePhase(ids, 0, Base1)
  {
    var w, w1 := StartWorld(ids), PromisePhase(ids, 0, Base1);
    var pb := P.PrepareBroadcast("P1", ids, 101);
    assert P.StartRound("P1", ids, Seeded1) == P.Step(Round1, pb);
    var none: seq<Message> := [];
    assert w1.queue == none + pb by {
      assert ids[0..] == ids && ids[..0] == [];
      assert Promises(ids[..0]) == none;
      assert pb + none == pb;
    }
    assert w.acceptors == w1.acceptors;
    assert w.proposers[0 := Round1] == w1.proposers;
  }

  lemma StartStep()
    ensures Next(Setup, Start, ProposerStart(0)) == AfterStart
  {
    SetupFits();
    StartGen(Setup, AcceptorIds);
  }

  // ---- cycle 1 ----

  /** P1's PREPAREs to ids[k..]: the one for ids[k] first, and none of the others is for ids[k]. */
  lemma PrepareHead(ids: seq<NodeId>, k: nat)
    requires Distinct(ids) && k < |ids|
    ensures P.PrepareBroadcast("P1", ids[k..], 101) == [Message("P1", ids[k], Prepare, Some(101))] + P.PrepareBroadcast("P1", ids[k + 1..], 101)
    ensures var pb := P.PrepareBroadcast("P1", ids[k + 1..], 101); forall i :: 0 <= i < |pb| ==> pb[i].receiver != ids[k]
  {
    assert ids[k..][1..] == ids[k + 1..];
    var pb := P.PrepareBroadcast("P1", ids[k + 1..], 101);
    forall i | 0 <= i < |pb| ensures pb[i].receiver != ids[k] {
      assert pb[i].receiver == ids[k + 1 + i];
    }
  }

  /** The k-th acceptor drains exactly its PREPARE; the rest of the queue keeps its order. */
  lemma PromiseQueue(ids: seq<NodeId>, k: nat)
    requires Distinct(ids) && Apart(ids) && k < |ids|
    ensures var q := P.PrepareBroadcast("P1", ids[k..], 101) + Promises(ids[..k]);
      && Addressed(q, ids[k]) == [Message("P1", ids[k], Prepare, Some(101))]
      && Others(q, ids[k]) == P.PrepareBroadcast("P1", ids[k + 1..], 101) + Promises(ids[..k])
  {
    PrepareHead(ids, k);
    var pr := Promises(ids[..k]);
    assert forall i :: 0 <= i < |pr| ==> pr[i].receiver == "P1";
    SplitThree([Message("P1", ids[k], Prepare, Some(101))], P.PrepareBroadcast("P1", ids[k + 1..], 101), pr, ids[k]);
  }

  /** A fresh acceptor grants PREPARE(101) and answers PROMISE(101, -1, None). */
  lemma PromiseRun(id: NodeId, learners: seq<NodeId>)
    ensures A.Run(id, learners, A.Fresh, [Message("P1", id, Prepare, Some(101))]) == A.Step(Promised, [Prom(id)], Ok)
  {
  }

  /** The k-th acceptor's turn in cycle 1: it grants PREPARE(101) and PROMISE(101, -1, None) goes to P1. */
  lemma PromiseTurn(c: Config, ids: seq<NodeId>, k: nat, base: World)
    requires c.acceptorIds == ids && Distinct(ids) && Apart(ids) && k < |ids|
    ensures Next(c, PromisePhase(ids, k, base), AcceptorTurn(k)) == PromisePhase(ids, k + 1, base)
  {
    var id := ids[k];
    var w, w1 := PromisePhase(ids, k, base), PromisePhase(ids, k + 1, base);
    var prep := Message("P1", id, Prepare, Some(101));
    var pb := P.PrepareBroadcast("P1", ids[k + 1..], 101);
    var pr := Promises(ids[..k]);
    var r := A.Step(Promised, [Prom(id)], Ok);
    assert Addressed(w.queue, id) == [prep] && Others(w.queue, id) == pb + pr by {
      PromiseQueue(ids, k);
    }
    assert A.Run(id, c.learnerIds, w.acceptors[k], [prep]) == r by {
      PromiseRun(id, c.learnerIds);
    }
    AcceptorTurnIs(c, w, k, [prep], pb + pr, r);
    assert (pb + pr) + r.out == w1.queue by {
      assert ids[..k + 1] == ids[..k] + [id];
      assert Promises(ids[..k + 1]) == pr + [Prom(id)];
    }
    assert w.acceptors[k := Promised] == w1.acceptors;
  }

  /** Each acceptor turn of cycle 1 moves the phase one acceptor on. */
  lemma PromiseSteps(c: Config, ids: seq<NodeId>, base: World)
    requires c.acceptorIds == ids && Distinct(ids) && Apart(ids)
    ensures forall k :: 0 <= k < |ids| ==> Next(c, PromisePhase(ids, k, base), AcceptorTurn(k)) == PromisePhase(ids, k + 1, base)
  {
    forall k | 0 <= k < |ids| ensures Next(c, PromisePhase(ids, k, base), AcceptorTurn(k)) == PromisePhase(ids, k + 1, base) {
      PromiseTurn(c, ids, k, base);
    }
  }

  /** The acceptor turns of cycle 1, one per acceptor in order. */
  lemma AcceptorsPromise(c: Config, ids: seq<NodeId>, es: seq<Event>, base: World)
    requires c.acceptorIds == ids && Distinct(ids) && Apart(ids)
    requires |es| == |ids| && forall k :: 0 <= k < |es| ==> es[k] == AcceptorTurn(k)
    ensures Exec(c, PromisePhase(ids, 0, base), es) == PromisePhase(ids, |ids|, base)
  {
    var ws := seq(|ids| + 1, k requires 0 <= k <= |ids| => PromisePhase(ids, k, base));
    PromiseSteps(c, ids, base);
    ExecSteps(c, ws, es);
  }

  /** The learners' turns in cycle 1 find nothing: every pending message is for P1. */
  lemma IdleLearners(c: Config, w: World)
    requires c.learnerIds == ["L1", "L2"] && |w.learners| == 2 && |w.delivered| == 2
    requires forall i :: 0 <= i < |w.queue| ==> w.queue[i].receiver == "P1"
    ensures Exec(c, w, LearnerTurns) == w
  {
    LearnerIdle(c, w, 0);
    LearnerIdle(c, w, 1);
    ExecSteps(c, [w, w, w], LearnerTurns);
  }

  /** The promises of cycle 1 are fresh ones for round 101 from distinct acceptors. */
  lemma PromisesFresh(ids: seq<NodeId>)
    requires Distinct(ids)
    ensures P.FreshPromises(101, Promises(ids))
  {
  }

  /** P1 records the promises in arrival order and sends ACCEPT(101, V1) to all at the third one. */
  lemma CollectPromises(ids: seq<NodeId>, ms: seq<Message>)
    requires Distinct(ids) && |ids| == 5 && ms == Promises(ids)
    ensures P.Run("P1", ids, 3, Round1, ms) == P.Step(Round1.(promises := ms), P.AcceptBroadcast("P1", ids, 101, Some(V1)))
  {
    PromisesFresh(ids);
    P.CollectFresh("P1", ids, 3, Round1, ms, 0);
    assert ms[..0] == [] && ms[0..] == ms;
    assert Round1.(promises := []) == Round1;
  }

  /** P1's turn in cycle 1: it drains the five promises and answers with ACCEPT(101, V1) to every acceptor. */
  lemma P1Turn1(c: Config, ids: seq<NodeId>, w: World)
    requires Fits(c, ids)
    requires w.queue == Promises(ids) && w.proposers == [Round1, Seeded2]
    ensures Next(c, w, ProposerTurn(0))
         == w.(queue := P.AcceptBroadcast("P1", ids, 101, Some(V1)), proposers := [Round1.(promises := w.queue), Seeded2])
  {
    var ab := P.AcceptBroadcast("P1", ids, 101, Some(V1));
    var s1 := Round1.(promises := w.queue);
    var none: seq<Message> := [];
    assert Addressed(w.queue, "P1") == w.queue && Others(w.queue, "P1") == none by {
      AddressedSelf(w.queue, "P1");
    }
    assert P.Run(c.proposerIds[0], c.acceptorIds, Quorum(c), w.proposers[0], w.queue) == P.Step(s1, ab) by {
      assert c.proposerIds[0] == "P1" && Quorum(c) == 3 && w.proposers[0] == Round1;
      CollectPromises(ids, w.queue);
    }
    ProposerTurnIs(c, w, 0, w.queue, none, P.Step(s1, ab));
    assert none + ab == ab;
    assert w.proposers[0 := s1] == [s1, Seeded2];
  }

  /** P1's turn at the end of cycle 1 opens phase 2 of round 101. */
  lemma P1Answers(c: Config, ids: seq<NodeId>)
    requires Fits(c, ids)
    ensures Next(c, PromisePhase(ids, |ids|, Base1), ProposerTurn(0)) == AcceptPhase(ids, 0, Base2(ids))
  {
    var w, w1 := PromisePhase(ids, |ids|, Base1), AcceptPhase(ids, 0, Base2(ids));
    var ab := P.AcceptBroadcast("P1", ids, 101, Some(V1));
    var none: seq<Message> := [];
    assert w.queue == Promises(ids) by {
      assert ids[|ids|..] == [] && ids[..|ids|] == ids;
      assert none + Promises(ids) == Promises(ids);
    }
    assert w1.queue == ab by {
      assert ids[0..] == ids && ids[..0] == [];
      assert ab + none == ab;
    }
    P1Turn1(c, ids, w);
    assert w.acceptors == w1.acceptors;
  }

  /** P2's turn at the end of cycle 1 finds nothing: every ACCEPT is for an acceptor. */
  lemma P2Waits1(c: Config, ids: seq<NodeId>)
    requires Fits(c, ids)
    ensures Next(c, AcceptPhase(ids, 0, Base2(ids)), ProposerTurn(1)) == AcceptPhase(ids, 0, Base2(ids))
  {
    var w1 := AcceptPhase(ids, 0, Base2(ids));
    assert forall i :: 0 <= i < |w1.queue| ==> w1.queue[i].receiver == ids[i] by {
      assert ids[0..] == ids && ids[..0] == [];
    }
    P2Idle(c, w1);
  }

  /** The proposer turns of cycle 1: P1 answers the promises, and nothing is pending for P2. */
  lemma ProposersAnswer(c: Config, ids: seq<NodeId>)
    requires Fits(c, ids)
    ensures Exec(c, PromisePhase(ids, |ids|, Base1), ProposerTurns) == AcceptPhase(ids, 0, Base2(ids))
  {
    P1Answers(c, ids);
    P2Waits1(c, ids);
    ExecSteps(c, [PromisePhase(ids, |ids|, Base1), AcceptPhase(ids, 0, Base2(ids)), AcceptPhase(ids, 0, Base2(ids))], ProposerTurns);
  }

  /** The learner turns of cycle 1 find nothing: every PROMISE is for P1. */
  lemma LearnersWait1(c: Config, ids: seq<NodeId>)
    requires Fits(c, ids)
    ensures Exec(c, PromisePhase(ids, |ids|, Base1), LearnerTurns) == PromisePhase(ids, |ids|, Base1)
  {
    var w := PromisePhase(ids, |ids|, Base1);
    assert forall i :: 0 <= i < |w.queue| ==> w.queue[i].receiver == "P1" by {
      assert ids[|ids|..] == [] && ids[..|ids|] == ids;
    }
    IdleLearners(c, w);
  }

  lemma Cycle1Gen(c: Config, ids: seq<NodeId>)
    requires Fits(c, ids)
    ensures Exec(c, PromisePhase(ids, 0, Base1), Cycle) == AcceptPhase(ids, 0, Base2(ids))
  {
    var w := PromisePhase(ids, |ids|, Base1);
    AcceptorsPromise(c, ids, AcceptorTurns, Base1);
    LearnersWait1(c, ids);
    ProposersAnswer(c, ids);
    ExecThree(c, PromisePhase(ids, 0, Base1), AcceptorTurns, LearnerTurns, ProposerTurns, w, w, AcceptPhase(ids, 0, Base2(ids)));
  }

  /** Cycle 1 of main.py: every acceptor promises 101 and P1 answers with ACCEPT(101, V1) to all. */
  lemma Cycle1()
    ensures Exec(Setup, AfterStart, Cycle) == AfterCycle1
  {
    SetupFits();
    Cycle1Gen(Setup, AcceptorIds);
  }

  // ---- cycle 2 ----

  lemma OutsSnoc(ids: seq<NodeId>, a: NodeId)
    ensures Outs(ids + [a]) == Outs(ids) + AcceptOut(a)
  {
    assert (ids + [a])[..|ids|] == ids;
  }

  /** Every reply goes to P1, L1 or L2. */
  lemma {:induction false} OutsReceivers(ids: seq<NodeId>, id: NodeId)
    requires id != "P1" && id != "L1" && id != "L2"
    ensures forall i :: 0 <= i < |Outs(ids)| ==> Outs(ids)[i].receiver != id
    decreases |ids|
  {
    if ids != [] {
      OutsReceivers(ids[..|ids| - 1], id);
    }
  }

  /** P1's ACCEPTs to ids[k..]: the one for ids[k] first, and none of the others is for ids[k]. */
  lemma AcceptHead(ids: seq<NodeId>, k: nat)
    requires Distinct(ids) && k < |ids|
    ensures P.AcceptBroadcast("P1", ids[k..], 101, Some(V1)) == [Acc(ids[k])] + P.AcceptBroadcast("P1", ids[k + 1..], 101, Some(V1))
    ensures var ab := P.AcceptBroadcast("P1", ids[k + 1..], 101, Some(V1)); forall i :: 0 <= i < |ab| ==> ab[i].receiver != ids[k]
  {
    assert ids[k..][1..] == ids[k + 1..];
    var ab := P.AcceptBroadcast("P1", ids[k + 1..], 101, Some(V1));
    forall i | 0 <= i < |ab| ensures ab[i].receiver != ids[k] {
      assert ab[i].receiver == ids[k + 1 + i];
    }
  }

  /** The k-th acceptor drains exactly its ACCEPT; the rest of the queue keeps its order. */
  lemma AcceptQueue(ids: seq<NodeId>, k: nat)
    requires Distinct(ids) && Apart(ids) && k < |ids|
    ensures var q := P.AcceptBroadcast("P1", ids[k..], 101, Some(V1)) + Outs(ids[..k]);
      && Addressed(q, ids[k]) == [Acc(ids[k])]
      && Others(q, ids[k]) == P.AcceptBroadcast("P1", ids[k + 1..], 101, Some(V1)) + Outs(ids[..k])
  {
    AcceptHead(ids, k);
    OutsReceivers(ids[..k], ids[k]);
    SplitThree([Acc(ids[k])], P.AcceptBroadcast("P1", ids[k + 1..], 101, Some(V1)), Outs(ids[..k]), ids[k]);
  }

  /** An acceptor that promised 101 accepts (101, V1) and tells P1, L1 and L2. */
  lemma AcceptRun(id: NodeId, learners: seq<NodeId>)
    requires learners == ["L1", "L2"]
    ensures A.Run(id, learners, Promised, [Acc(id)]) == A.Step(Accepted101, AcceptOut(id), Ok)
  {
    assert learners[1..][1..] == [];
  }

  /** The k-th acceptor's turn in cycle 2. */
  lemma AcceptTurn(c: Config, ids: seq<NodeId>, k: nat, base: World)
    requires c.acceptorIds == ids && c.learnerIds == ["L1", "L2"] && Distinct(ids) && Apart(ids) && k < |ids|
    ensures Next(c, AcceptPhase(ids, k, base), AcceptorTurn(k)) == AcceptPhase(ids, k + 1, base)
  {
    var id := ids[k];
    var w, w1 := AcceptPhase(ids, k, base), AcceptPhase(ids, k + 1, base);
    var ab := P.AcceptBroadcast("P1", ids[k + 1..], 101, Some(V1));
    var os := Outs(ids[..k]);
    var r := A.Step(Accepted101, AcceptOut(id), Ok);
    assert Addressed(w.queue, id) == [Acc(id)] && Others(w.queue, id) == ab + os by {
      AcceptQueue(ids, k);
    }
    assert A.Run(id, c.learnerIds, w.acceptors[k], [Acc(id)]) == r by {
      AcceptRun(id, c.learnerIds);
    }
    AcceptorTurnIs(c, w, k, [Acc(id)], ab + os, r);
    assert (ab + os) + r.out == w1.queue by {
      assert ids[..k + 1] == ids[..k] + [id];
      OutsSnoc(ids[..k], id);
    }
    assert w.acceptors[k := Accepted101] == w1.acceptors;
  }

  /** Each acceptor turn of cycle 2 moves the phase one acceptor on. */
  lemma AcceptSteps(c: Config, ids: seq<NodeId>, base: World)
    requires c.acceptorIds == ids && c.learnerIds == ["L1", "L2"] && Distinct(ids) && Apart(ids)
    ensures forall k :: 0 <= k < |ids| ==> Next(c, AcceptPhase(ids, k, base), AcceptorTurn(k)) == AcceptPhase(ids, k + 1, base)
  {
    forall k | 0 <= k < |ids| ensures Next(c, AcceptPhase(ids, k, base), AcceptorTurn(k)) == AcceptPhase(ids, k + 1, base) {
      AcceptTurn(c, ids, k, base);
    }
  }

  /** The acceptor turns of cycle 2, one per acceptor in order. */
  lemma AcceptorsAccept(c: Config, ids: seq<NodeId>, es: seq<Event>, base: World)
    requires c.acceptorIds == ids && c.learnerIds == ["L1", "L2"] && Distinct(ids) && Apart(ids)
    requires |es| == |ids| && forall k :: 0 <= k < |es| ==> es[k] == AcceptorTurn(k)
    ensures Exec(c, AcceptPhase(ids, 0, base), es) == AcceptPhase(ids, |ids|, base)
  {
    var ws := seq(|ids| + 1, k requires 0 <= k <= |ids| => AcceptPhase(ids, k, base));
    AcceptSteps(c, ids, base);
    ExecSteps(c, ws, es);
  }

  /** One acceptor's replies split by receiver. */
  lemma ReplyDrain(a: NodeId)
    ensures var t, t1, t2 := AcceptOut(a), [Acked(a), Lrn(a, "L2")], [Acked(a)];
      && Addressed(t, "L1") == [Lrn(a, "L1")] && Others(t, "L1") == t1
      && Addressed(t1, "L2") == [Lrn(a, "L2")] && Others(t1, "L2") == t2
      && Addressed(t2, "P1") == t2 && Others(t2, "P1") == []
  {
    var t, t1 := AcceptOut(a), [Acked(a), Lrn(a, "L2")];
    assert t[1..] == [Lrn(a, "L1"), Lrn(a, "L2")] && t[1..][1..] == [Lrn(a, "L2")] && t[1..][1..][1..] == [];
    assert t1[1..] == [Lrn(a, "L2")] && t1[1..][1..] == [];
    assert Addressed(t[1..][1..], "L1") == [] && Others(t[1..][1..], "L1") == [Lrn(a, "L2")];
    assert Addressed(t[1..], "L1") == [Lrn(a, "L1")] && Others(t[1..], "L1") == [Lrn(a, "L2")];
  }

  /** The replies of cycle 2 split by receiver: L1 takes its LEARNs, L2 its LEARNs, P1 the ACCEPTEDs. */
  lemma {:induction false} OutsDrain(ids: seq<NodeId>)
    ensures var q1 := Others(Outs(ids), "L1");
      var q2 := Others(q1, "L2");
      && Addressed(Outs(ids), "L1") == Lrns(ids, "L1")
      && Addressed(q1, "L2") == Lrns(ids, "L2")
      && Addressed(q2, "P1") == Ackeds(ids)
      && Others(q2, "P1") == []
    decreases |ids|
  {
    if ids != [] {
      var init, a := ids[..|ids| - 1], ids[|ids| - 1];
      OutsDrain(init);
      var o := Outs(init);
      var q1, q2 := Others(o, "L1"), Others(Others(o, "L1"), "L2");
      var t, t1, t2 := AcceptOut(a), [Acked(a), Lrn(a, "L2")], [Acked(a)];
      assert Outs(ids) == o + t;
      ReplyDrain(a);
      assert Addressed(o + t, "L1") == Lrns(ids, "L1") && Others(o + t, "L1") == q1 + t1 by {
        AddressedAppend(o, t, "L1");
      }
      assert Addressed(q1 + t1, "L2") == Lrns(ids, "L2") && Others(q1 + t1, "L2") == q2 + t2 by {
        AddressedAppend(q1, t1, "L2");
      }
      assert Addressed(q2 + t2, "P1") == Ackeds(ids) && Others(q2 + t2, "P1") == [] by {
        AddressedAppend(q2, t2, "P1");
        var none: seq<Message> := [];
        assert none + none == none;
      }
    }
  }

  /** A learner hearing (101, V1) from five distinct acceptors decides at the third vote; the last two come too late. */
  lemma LearnsDecide(ids: seq<NodeId>, l: NodeId)
    requires |ids| == 5 && Distinct(ids)
    ensures L.Run(3, L.Fresh, Lrns(ids, l)) == Decided(ids)
  {
    var ms := Lrns(ids, l);
    var k: L.Key := (Some(101), Some(V1));
    var s1 := L.LearnerState(map[k := {ids[0]}], None, false);
    var s2 := L.LearnerState(map[k := {ids[0], ids[1]}], None, false);
    assert L.OnMessage(3, L.Fresh, ms[0]) == s1;
    assert {ids[0]} + {ids[1]} == {ids[0], ids[1]};
    assert L.OnMessage(3, s1, ms[1]) == s2;
    assert {ids[0], ids[1]} + {ids[2]} == {ids[0], ids[1], ids[2]};
    assert |{ids[0], ids[1], ids[2]}| == 3;
    assert L.OnMessage(3, s2, ms[2]) == Decided(ids);
    L.WriteOnce(3, Decided(ids), ms[3..]);
    assert L.Run(3, s2, ms[2..]) == L.Run(3, Decided(ids), ms[3..]);
    assert L.Run(3, s1, ms[1..]) == L.Run(3, s2, ms[2..]);
    assert L.Run(3, L.Fresh, ms) == L.Run(3, s1, ms[1..]);
  }

  lemma L1Decides(c: Config, ids: seq<NodeId>, w: World)
    requires Fits(c, ids) && |w.learners| == 2 && |w.delivered| == 2
    requires w.queue == Outs(ids) && w.learners[0] == L.Fresh && w.delivered[0] == []
    ensures Next(c, w, LearnerTurn(0))
         == w.(queue := Others(w.queue, "L1"), learners := w.learners[0 := Decided(ids)], delivered := w.delivered[0 := Lrns(ids, "L1")])
  {
    var d1 := Lrns(ids, "L1");
    OutsDrain(ids);
    LearnsDecide(ids, "L1");
    var none: seq<Message> := [];
    assert Quorum(c) == 3;
    LearnerTurnIs(c, w, 0, d1, Others(Outs(ids), "L1"), Decided(ids));
    assert none + d1 == d1;
  }

  lemma L2Decides(c: Config, ids: seq<NodeId>, w: World)
    requires Fits(c, ids) && |w.learners| == 2 && |w.delivered| == 2
    requires w.queue == Others(Outs(ids), "L1") && w.learners[1] == L.Fresh && w.delivered[1] == []
    ensures Next(c, w, LearnerTurn(1))
         == w.(queue := Others(w.queue, "L2"), learners := w.learners[1 := Decided(ids)], delivered := w.delivered[1 := Lrns(ids, "L2")])
  {
    var d2 := Lrns(ids, "L2");
    OutsDrain(ids);
    LearnsDecide(ids, "L2");
    var none: seq<Message> := [];
    assert Quorum(c) == 3;
    LearnerTurnIs(c, w, 1, d2, Others(w.queue, "L2"), Decided(ids));
    assert none + d2 == d2;
  }

  /** Both learner turns of cycle 2: each decides V1 on its five LEARNs. */
  lemma LearnersDecide(c: Config, ids: seq<NodeId>, w: World)
    requires Fits(c, ids)
    requires w.queue == Outs(ids) && w.learners == [L.Fresh, L.Fresh] && w.delivered == [[], []]
    ensures Exec(c, w, LearnerTurns)
         == w.(queue := Others(Others(Outs(ids), "L1"), "L2"), learners := [Decided(ids), Decided(ids)],
               delivered := [Lrns(ids, "L1"), Lrns(ids, "L2")])
  {
    L1Decides(c, ids, w);
    var w1 := Next(c, w, LearnerTurn(0));
    L2Decides(c, ids, w1);
    var w2 := Next(c, w1, LearnerTurn(1));
    ExecSteps(c, [w, w1, w2], LearnerTurns);
  }

  /** Cycle 2 after the learner turns: both learners decided, the ACCEPTEDs still pending for P1. */
  function LearnedWorld(ids: seq<NodeId>): World
    requires |ids| >= 3
  {
    EndWorld(ids).(queue := Others(Others(Outs(ids), "L1"), "L2"))
  }

  /** The learner turns of cycle 2. */
  lemma LearnersDecide2(c: Config, ids: seq<NodeId>)
    requires Fits(c, ids)
    ensures Exec(c, AcceptPhase(ids, |ids|, Base2(ids)), LearnerTurns) == LearnedWorld(ids)
  {
    var w := AcceptPhase(ids, |ids|, Base2(ids));
    assert w.queue == Outs(ids) by {
      assert ids[|ids|..] == [] && ids[..|ids|] == ids;
      var none: seq<Message> := [];
      assert none + Outs(ids) == Outs(ids);
    }
    LearnersDecide(c, ids, w);
  }

  /** P1's turn in cycle 2: it reads the five ACCEPTEDs and does nothing. */
  lemma P1Reads2(c: Config, ids: seq<NodeId>)
    requires Fits(c, ids)
    ensures Next(c, LearnedWorld(ids), ProposerTurn(0)) == EndWorld(ids)
  {
    var w := LearnedWorld(ids);
    OutsDrain(ids);
    assert NoPromise(Ackeds(ids));
    ProposerIdle(c, w, 0);
  }

  /** P2's turn in cycle 2 finds an empty queue. */
  lemma P2Waits2(c: Config, ids: seq<NodeId>)
    requires Fits(c, ids)
    ensures Next(c, EndWorld(ids), ProposerTurn(1)) == EndWorld(ids)
  {
    P2Idle(c, EndWorld(ids));
  }

  /** The proposer turns of cycle 2: P1 reads the ACCEPTEDs and does nothing; nothing is left for P2. */
  lemma ProposersIgnore(c: Config, ids: seq<NodeId>)
    requires Fits(c, ids)
    ensures Exec(c, LearnedWorld(ids), ProposerTurns) == EndWorld(ids)
  {
    P1Reads2(c, ids);
    P2Waits2(c, ids);
    ExecSteps(c, [LearnedWorld(ids), EndWorld(ids), EndWorld(ids)], ProposerTurns);
  }

  lemma Cycle2Gen(c: Config, ids: seq<NodeId>)
    requires Fits(c, ids)
    ensures Exec(c, AcceptPhase(ids, 0, Base2(ids)), Cycle) == EndWorld(ids)
  {
    var w := AcceptPhase(ids, |ids|, Base2(ids));
    AcceptorsAccept(c, ids, AcceptorTurns, Base2(ids));
    LearnersDecide2(c, ids);
    ProposersIgnore(c, ids);
    ExecThree(c, AcceptPhase(ids, 0, Base2(ids)), AcceptorTurns, LearnerTurns, ProposerTurns, w, LearnedWorld(ids), EndWorld(ids));
  }

  /** Cycle 2 of main.py: every acceptor accepts (101, V1), and both learners decide V1. */
  lemma Cycle2()
    ensures Exec(Setup, AfterCycle1, Cycle) == AfterCycle2
  {
    SetupFits();
    Cycle2Gen(Setup, AcceptorIds);
  }

  // ---- P2.start_proposal() after cycle 2 ----

  lemma P2StartGen(c: Config, ids: seq<NodeId>)
    requires Fits(c, ids)
    ensures Next(c, EndWorld(ids), ProposerStart(1)) == P2Started(ids)
  {
    var w := EndWorld(ids);
    var pb := P.PrepareBroadcast("P2", ids, 201);
    assert P.StartRound("P2", ids, Seeded2) == P.Step(Round2, pb);
    var none: seq<Message> := [];
    assert none + pb == pb;
    assert w.proposers[1 := Round2] == [Round1.(promises := Promises(ids)), Round2];
  }

  lemma P2StartStep()
    ensures Next(Setup, AfterCycle2, ProposerStart(1)) == AfterP2Start
  {
    SetupFits();
    P2StartGen(Setup, AcceptorIds);
  }

  /** After cycle 1 every acceptor has promised 101 and accepted nothing, and P1's five ACCEPT(101, V1) are pending. */
  lemma AfterCycle1Shape()
    ensures |AfterCycle1.acceptors| == 5
    ensures forall i :: 0 <= i < 5 ==> AfterCycle1.acceptors[i] == A.AcceptorState(101, -1, None)
    ensures AfterCycle1.queue == P.AcceptBroadcast("P1", AcceptorIds, 101, Some(V1))
    ensures AfterCycle1.proposers[0].promises == Promises(AcceptorIds) && !AfterCycle1.learners[0].isLearned
  {
    assert AcceptorIds[0..] == AcceptorIds && AcceptorIds[..0] == [];
  }

  /** How main.py ends: both learners decided V1, and P2's PREPARE(201) messages are pending. */
  lemma AfterP2StartShape()
    ensures |AfterP2Start.learners| == 2
    ensures AfterP2Start.learners[0].isLearned && AfterP2Start.learners[0].learnedValue == Some(V1)
    ensures AfterP2Start.learners[1].isLearned && AfterP2Start.learners[1].learnedValue == Some(V1)
    ensures AfterP2Start.queue == P.PrepareBroadcast("P2", AcceptorIds, 201)
  {
  }
}
