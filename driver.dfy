/**
 * The simulation of paxosAlg/main.py run on the node objects themselves: every node shares one
 * network, P1 opens the first round, each network cycle lets every node process its messages in
 * the order of the node list, P2 starts after the second cycle, and the loop stops once a learner
 * has decided.
 */
module PaxosDriver {
  import opened PaxosMessage
  import opened PaxosNetwork
  import opened PaxosNode
  import opened PaxosSystem
  import opened PaxosScenario
  import A = PaxosAcceptor
  import L = PaxosLearner
  import P = PaxosProposer

  const AcceptorSet: set<NodeId> := {"A1", "A2", "A3", "A4", "A5"}

  lemma AcceptorSetSize()
    ensures |AcceptorSet| == 5 && L.QuorumSize(AcceptorSet) == 3
  {
    assert AcceptorSet == {"A1", "A2", "A3", "A4"} + {"A5"};
    assert {"A1", "A2", "A3", "A4"} == {"A1", "A2", "A3"} + {"A4"};
    assert {"A1", "A2", "A3"} == {"A1", "A2"} + {"A3"};
  }

  lemma SetupWellFormed()
    ensures WellFormed(Setup)
  {
  }

  /** A proposer's start, for any configuration. */
  lemma ProposerStartIs(c: Config, w: World, k: nat, r: P.Step)
    requires k < |w.proposers| && k < |c.proposerIds|
    requires r == P.StartRound(c.proposerIds[k], c.acceptorIds, w.proposers[k])
    ensures Next(c, w, ProposerStart(k)) == w.(queue := w.queue + r.out, proposers := w.proposers[k := r.state])
  {
  }

  /** The run of the i-th acceptor of main.py on the messages addressed to it. */
  ghost function AcceptorRun(w: World, i: nat): A.Step
    requires i < |w.acceptors| && i < 5
  {
    A.Run(AcceptorIds[i], LearnerIds, w.acceptors[i], Addressed(w.queue, AcceptorIds[i]))
  }

  /** The world after the i-th acceptor's run. */
  ghost function AcceptorAfter(w: World, i: nat): World
    requires i < |w.acceptors| && i < 5
  {
    var r := AcceptorRun(w, i);
    w.(queue := Others(w.queue, AcceptorIds[i]) + r.out, acceptors := w.acceptors[i := r.state])
  }

  /** The world after the j-th learner's run, with what it drained added to its record. */
  ghost function LearnerAfter(w: World, j: nat): World
    requires j < |w.learners| && j < |w.delivered| && j < 2
  {
    var drained := Addressed(w.queue, LearnerIds[j]);
    w.(queue := Others(w.queue, LearnerIds[j]), learners := w.learners[j := L.Run(3, w.learners[j], drained)],
       delivered := w.delivered[j := w.delivered[j] + drained])
  }

  /** The world after the k-th proposer's run. */
  ghost function ProposerAfter(w: World, k: nat): World
    requires k < |w.proposers| && k < 2
  {
    var r := P.Run(ProposerIds[k], AcceptorIds, 3, w.proposers[k], Addressed(w.queue, ProposerIds[k]));
    w.(queue := Others(w.queue, ProposerIds[k]) + r.out, proposers := w.proposers[k := r.state])
  }

  /** The world after the k-th proposer's start_proposal(). */
  ghost function ProposerStarted(w: World, k: nat): World
    requires k < |w.proposers| && k < 2
  {
    var r := P.StartRound(ProposerIds[k], AcceptorIds, w.proposers[k]);
    w.(queue := w.queue + r.out, proposers := w.proposers[k := r.state])
  }

  /** The world after an acceptor's run is the next world of its turn; the invariant holds and nothing raised. */
  lemma AcceptorMoved(c: Config, w: World, i: nat, w': World)
    requires c == Setup && Inv(c, w) && i < 5
    requires w' == AcceptorAfter(w, i)
    ensures w' == Next(c, w, AcceptorTurn(i)) && Inv(c, w') && AcceptorRun(w, i).outcome == Ok
  {
    SetupWellFormed();
    AcceptorTurnIs(c, w, i, Addressed(w.queue, AcceptorIds[i]), Others(w.queue, AcceptorIds[i]), AcceptorRun(w, i));
    AcceptorTurnOk(c, w, i);
    NextInv(c, w, AcceptorTurn(i));
  }

  /** The world after a learner's run is the next world of its turn, and the invariant holds. */
  lemma LearnerMoved(c: Config, w: World, j: nat, w': World)
    requires c == Setup && Inv(c, w) && j < 2
    requires w' == LearnerAfter(w, j)
    ensures w' == Next(c, w, LearnerTurn(j)) && Inv(c, w')
  {
    SetupWellFormed();
    var drained := Addressed(w.queue, LearnerIds[j]);
    LearnerTurnIs(c, w, j, drained, Others(w.queue, LearnerIds[j]), L.Run(3, w.learners[j], drained));
    NextInv(c, w, LearnerTurn(j));
  }

  /** The world after a proposer's run is the next world of its turn, and the invariant holds. */
  lemma ProposerMoved(c: Config, w: World, k: nat, w': World)
    requires c == Setup && Inv(c, w) && k < 2
    requires w' == ProposerAfter(w, k)
    ensures w' == Next(c, w, ProposerTurn(k)) && Inv(c, w')
  {
    SetupWellFormed();
    var drained := Addressed(w.queue, ProposerIds[k]);
    ProposerTurnIs(c, w, k, drained, Others(w.queue, ProposerIds[k]),
                   P.Run(ProposerIds[k], AcceptorIds, 3, w.proposers[k], drained));
    NextInv(c, w, ProposerTurn(k));
  }

  /** The world after a proposer's start is the next world of that event, and the invariant holds. */
  lemma ProposerStartMoved(c: Config, w: World, k: nat, w': World)
    requires c == Setup && Inv(c, w) && k < 2
    requires w' == ProposerStarted(w, k)
    ensures w' == Next(c, w, ProposerStart(k)) && Inv(c, w')
  {
    SetupWellFormed();
    ProposerStartIs(c, w, k, P.StartRound(ProposerIds[k], AcceptorIds, w.proposers[k]));
    NextInv(c, w, ProposerStart(k));
  }

  /** The acceptor turns of a cycle, known step by step. */
  lemma AcceptorsChain(c: Config, w0: World, w1: World, w2: World, w3: World, w4: World, w5: World)
    requires Next(c, w0, AcceptorTurn(0)) == w1 && Next(c, w1, AcceptorTurn(1)) == w2
    requires Next(c, w2, AcceptorTurn(2)) == w3 && Next(c, w3, AcceptorTurn(3)) == w4
    requires Next(c, w4, AcceptorTurn(4)) == w5
    ensures Exec(c, w0, AcceptorTurns) == w5
  {
    var es := AcceptorTurns;
    ExecCons(c, w0, es);
    ExecCons(c, w1, es[1..]);
    ExecCons(c, w2, es[2..]);
    ExecCons(c, w3, es[3..]);
    ExecCons(c, w4, es[4..]);
    assert es[5..] == [];
  }

  lemma PairChain(c: Config, e1: Event, e2: Event, w0: World, w1: World, w2: World)
    requires Next(c, w0, e1) == w1 && Next(c, w1, e2) == w2
    ensures Exec(c, w0, [e1, e2]) == w2
  {
    ExecCons(c, w0, [e1, e2]);
    ExecCons(c, w1, [e2]);
  }

  /** A cycle whose nine turns are known step by step. */
  lemma CycleChain(c: Config, w0: World, w1: World, w2: World, w3: World, w4: World, w5: World,
                   w6: World, w7: World, w8: World, w9: World)
    requires Next(c, w0, AcceptorTurn(0)) == w1 && Next(c, w1, AcceptorTurn(1)) == w2
    requires Next(c, w2, AcceptorTurn(2)) == w3 && Next(c, w3, AcceptorTurn(3)) == w4
    requires Next(c, w4, AcceptorTurn(4)) == w5 && Next(c, w5, LearnerTurn(0)) == w6
    requires Next(c, w6, LearnerTurn(1)) == w7 && Next(c, w7, ProposerTurn(0)) == w8
    requires Next(c, w8, ProposerTurn(1)) == w9
    ensures Exec(c, w0, Cycle) == w9
  {
    AcceptorsChain(c, w0, w1, w2, w3, w4, w5);
    PairChain(c, LearnerTurn(0), LearnerTurn(1), w5, w6, w7);
    PairChain(c, ProposerTurn(0), ProposerTurn(1), w7, w8, w9);
    ExecThree(c, w0, AcceptorTurns, LearnerTurns, ProposerTurns, w5, w7, w9);
  }

  /** The states of the given acceptors, in order. */
  ghost function AcceptorStates(acceptors: seq<A.Acceptor>): (r: seq<A.AcceptorState>)
    reads acceptors
    ensures |r| == |acceptors| && forall x :: 0 <= x < |acceptors| ==> r[x] == acceptors[x].State()
  {
    if acceptors == [] then [] else [acceptors[0].State()] + AcceptorStates(acceptors[1..])
  }

  /** The acceptors of main.py, one per id, each knowing both learners. */
  method NewAcceptors(net: Network) returns (nodes: seq<A.Acceptor>)
    ensures |nodes| == 5
    ensures forall x :: 0 <= x < 5 ==>
      && fresh(nodes[x]) && nodes[x].network == net && nodes[x].id == AcceptorIds[x]
      && nodes[x].learnerIds == LearnerIds && nodes[x].State() == A.Fresh
  {
    var a1 := new A.Acceptor("A1", LearnerIds, net);
    var a2 := new A.Acceptor("A2", LearnerIds, net);
    var a3 := new A.Acceptor("A3", LearnerIds, net);
    var a4 := new A.Acceptor("A4", LearnerIds, net);
    var a5 := new A.Acceptor("A5", LearnerIds, net);
    nodes := [a1, a2, a3, a4, a5];
  }

  /** The start of main.py, written out. */
  lemma StartIs(w: World)
    requires w == World([], [A.Fresh, A.Fresh, A.Fresh, A.Fresh, A.Fresh], [L.Fresh, L.Fresh], [Seeded1, Seeded2], [[], []])
    ensures w == Start
  {
    assert w.acceptors == Start.acceptors;
  }

  /** The nodes of main.py, all attached to one network, with the bookkeeping of what each learner handled. */
  class Cluster {
    const network: Network
    const acceptors: seq<A.Acceptor>
    const l1: L.Learner
    const l2: L.Learner
    const p1: P.Proposer
    const p2: P.Proposer
    ghost var delivered: seq<seq<Message>>

    /** Every node is wired as main.py wires it; the acceptors are told apart by their ids. */
    ghost predicate Valid()
      reads this
    {
      && |acceptors| == 5
      && (forall x :: 0 <= x < 5 ==>
            acceptors[x].network == network && acceptors[x].id == AcceptorIds[x] && acceptors[x].learnerIds == LearnerIds)
      && l1.network == network && l2.network == network && p1.network == network && p2.network == network
      && l1.id == "L1" && l2.id == "L2" && l1.quorumSize == 3 && l2.quorumSize == 3
      && p1.id == "P1" && p2.id == "P2" && p1.acceptorIds == AcceptorIds && p2.acceptorIds == AcceptorIds
      && p1.quorumSize == 3 && p2.quorumSize == 3
      && l1 != l2 && p1 != p2
      && |delivered| == 2
    }

    /** The whole system as one world value. */
    ghost function Snap(): World
      reads this, network, acceptors, l1, l2, p1, p2
    {
      World(network.queue, AcceptorStates(acceptors), [l1.State(), l2.State()], [p1.State(), p2.State()], delivered)
    }

    /** The set-up of main.py; the hashes stand for Python's hash of each proposer's id. */
    constructor (hash1: int, hash2: int)
      ensures Valid() && Snap() == Start
      ensures fresh(network) && fresh(l1) && fresh(l2) && fresh(p1) && fresh(p2)
      ensures forall x :: 0 <= x < |acceptors| ==> fresh(acceptors[x])
    {
      var net := new Network();
      network := net;
      AcceptorSetSize();
      l1 := new L.Learner("L1", AcceptorSet, net);
      l2 := new L.Learner("L2", AcceptorSet, net);
      DistinctAcceptors();
      P.SeedExamples(hash1);
      P.SeedExamples(hash2);
      p1 := new P.Proposer("P1", AcceptorIds, Some(V1), hash1, net);
      p2 := new P.Proposer("P2", AcceptorIds, Some(V2), hash2, net);
      var nodes := NewAcceptors(net);
      acceptors := nodes;
      delivered := [[], []];
      new;
      assert AcceptorStates(nodes) == [A.Fresh, A.Fresh, A.Fresh, A.Fresh, A.Fresh];
      StartIs(Snap());
    }

    /** The turn of the i-th acceptor of the node list: it drains its messages and handles them in order. */
    method AcceptorStep(i: nat) returns (o: Outcome)
      requires Valid() && i < 5
      modifies network, acceptors[i]
      ensures Snap() == AcceptorAfter(old(Snap()), i)
      ensures o == AcceptorRun(old(Snap()), i).outcome
    {
      ghost var w := Snap();
      DistinctAcceptors();
      var a := acceptors[i];
      o := a.ProcessMessages();
      assert AcceptorStates(acceptors) == w.acceptors[i := a.State()] by {
        forall x | 0 <= x < 5
          ensures AcceptorStates(acceptors)[x] == w.acceptors[i := a.State()][x]
        {
          assert acceptors[x] == a <==> x == i;
        }
      }
    }

    /** The turn of the j-th learner; what it drains is added to its delivered record. */
    method LearnerStep(j: nat)
      requires Valid() && j < 2
      modifies this, network, [l1, l2][j]
      ensures Valid() && Snap() == LearnerAfter(old(Snap()), j)
    {
      ghost var w := Snap();
      var l := [l1, l2][j];
      l.ProcessMessages();
      delivered := delivered[j := delivered[j] + Addressed(w.queue, l.id)];
      assert AcceptorStates(acceptors) == w.acceptors;
    }

    /** The turn of the k-th proposer. */
    method ProposerStep(k: nat)
      requires Valid() && k < 2
      modifies network, [p1, p2][k]
      ensures Snap() == ProposerAfter(old(Snap()), k)
    {
      ghost var w := Snap();
      var p := [p1, p2][k];
      p.ProcessMessages();
      assert AcceptorStates(acceptors) == w.acceptors;
    }

    /** proposer.start_proposal() for the k-th proposer. */
    method ProposerStartStep(k: nat)
      requires Valid() && k < 2
      modifies network, [p1, p2][k]
      ensures Snap() == ProposerStarted(old(Snap()), k)
    {
      ghost var w := Snap();
      var p := [p1, p2][k];
      p.StartProposal();
      assert AcceptorStates(acceptors) == w.acceptors;
    }

    /**
     * One network cycle of main.py: every node, in the order of the node list, processes the
     * messages addressed to it. No acceptor raises.
     */
    method RunCycle() returns (raised: bool)
      requires Valid() && Inv(Setup, Snap())
      modifies this, network, acceptors, l1, l2, p1, p2
      ensures Valid() && Inv(Setup, Snap()) && Snap() == Exec(Setup, old(Snap()), Cycle) && !raised
    {
      ghost var c := Setup;
      ghost var w0 := Snap();
      var o1 := AcceptorStep(0);
      ghost var w1 := Snap();
      AcceptorMoved(c, w0, 0, w1);
      var o2 := AcceptorStep(1);
      ghost var w2 := Snap();
      AcceptorMoved(c, w1, 1, w2);
      var o3 := AcceptorStep(2);
      ghost var w3 := Snap();
      AcceptorMoved(c, w2, 2, w3);
      var o4 := AcceptorStep(3);
      ghost var w4 := Snap();
      AcceptorMoved(c, w3, 3, w4);
      var o5 := AcceptorStep(4);
      ghost var w5 := Snap();
      AcceptorMoved(c, w4, 4, w5);
      LearnerStep(0);
      ghost var w6 := Snap();
      LearnerMoved(c, w5, 0, w6);
      LearnerStep(1);
      ghost var w7 := Snap();
      LearnerMoved(c, w6, 1, w7);
      ProposerStep(0);
      ghost var w8 := Snap();
      ProposerMoved(c, w7, 0, w8);
      ProposerStep(1);
      ProposerMoved(c, w8, 1, Snap());
      CycleChain(c, w0, w1, w2, w3, w4, w5, w6, w7, w8, Snap());
      raised := o1.Raised? || o2.Raised? || o3.Raised? || o4.Raised? || o5.Raised?;
    }
  }

  lemma StartInit()
    ensures Init(Setup, Start) && Inv(Setup, Start)
  {
    InitInv(Setup, Start);
  }

  /**
   * main(): P1 opens its round, then up to three network cycles run; P2 starts after the second,
   * and the loop stops after the first cycle at whose end a learner has decided. The run stops
   * after two cycles with both learners holding P1's value, nothing raised, and P2's PREPAREs
   * still pending.
   */
  method Simulate(hash1: int, hash2: int) returns (cycles: nat, learned: seq<Option<Value>>, pending: seq<Message>, raised: bool)
    ensures cycles == 2 && learned == [Some(V1), Some(V1)] && !raised
    ensures pending == P.PrepareBroadcast("P2", AcceptorIds, 201)
  {
    var cl := new Cluster(hash1, hash2);
    StartInit();
    cl.ProposerStartStep(0);
    ProposerStartMoved(Setup, Start, 0, cl.Snap());
    StartStep();
    raised := false;
    cycles := 1;
    while cycles < 4
      invariant cl.Valid() && Inv(Setup, cl.Snap()) && !raised
      invariant 1 <= cycles <= 2
      invariant cycles == 1 ==> cl.Snap() == AfterStart
      invariant cycles == 2 ==> cl.Snap() == AfterCycle1
    {
      var r := cl.RunCycle();
      raised := raised || r;
      if cycles == 2 {
        Cycle2();
        ghost var w := cl.Snap();
        cl.ProposerStartStep(1);
        ProposerStartMoved(Setup, w, 1, cl.Snap());
        P2StartStep();
      } else {
        Cycle1();
      }
      if cl.l1.isLearned || cl.l2.isLearned {
        break;
      }
      cycles := cycles + 1;
    }
    learned := [cl.l1.learnedValue, cl.l2.learnedValue];
    pending := cl.network.queue;
  }
}
