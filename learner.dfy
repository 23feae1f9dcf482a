/** The learner role: tallies LEARN votes and detects a decision (paxosAlg/learner.py). */
module PaxosLearner {
  import opened PaxosMessage
  import opened PaxosNetwork

  /** Votes are tallied per (proposal id, value) pair. */
  type Key = (Option<int>, Option<Value>)

  datatype LearnerState = LearnerState(counts: map<Key, set<NodeId>>, learnedValue: Option<Value>, isLearned: bool)

  const Fresh := LearnerState(map[], None, false)

  /** A majority of the acceptors: len // 2 + 1. */
  function QuorumSize(acceptorIds: set<NodeId>): (q: nat)
    ensures 2 * q > |acceptorIds| && 2 * (q - 1) <= |acceptorIds|
  {
    |acceptorIds| / 2 + 1
  }

  function KeyOf(m: Message): Key
  {
    (m.proposalId, m.value)
  }

  /** The acceptors recorded for a key (none when the key was never seen). */
  function Voters(s: LearnerState, k: Key): set<NodeId>
  {
    if k in s.counts then s.counts[k] else {}
  }

  /** _handle_learn: ignore once decided; else record the sender and decide when the key reaches q. */
  function OnLearn(q: nat, s: LearnerState, m: Message): LearnerState
  {
    if s.isLearned then s
    else
      var k := KeyOf(m);
      var voters := Voters(s, k) + {m.sender};
      var counts := s.counts[k := voters];
      if |voters| >= q then LearnerState(counts, m.value, true)
      else LearnerState(counts, s.learnedValue, false)
  }

  /** _handle_message: only LEARN messages are handled. */
  function OnMessage(q: nat, s: LearnerState, m: Message): LearnerState
  {
    if m.msgType == Learn then OnLearn(q, s, m) else s
  }

  /** Handling drained messages in order. */
  function Run(q: nat, s: LearnerState, msgs: seq<Message>): LearnerState
    decreases |msgs|
  {
    if msgs == [] then s else Run(q, OnMessage(q, s, msgs[0]), msgs[1..])
  }

  /** The distinct senders of the LEARN messages for key k among msgs. */
  function VotersOf(msgs: seq<Message>, k: Key): set<NodeId>
    decreases |msgs|
  {
    if msgs == [] then {}
    else (if msgs[0].msgType == Learn && KeyOf(msgs[0]) == k then {msgs[0].sender} else {}) + VotersOf(msgs[1..], k)
  }

  /** Undecided learners hold no key at quorum; decided ones hold the decided value's key at quorum. */
  ghost predicate Consistent(q: nat, s: LearnerState)
  {
    && (!s.isLearned ==> forall k :: k in s.counts ==> |s.counts[k]| < q)
    && (s.isLearned ==> exists k :: k in s.counts && |s.counts[k]| >= q && k.1 == s.learnedValue)
  }

  /** A LEARN reaches a decision exactly when its key's voter set, with the sender added, reaches q. */
  lemma DecidesAtQuorum(q: nat, s: LearnerState, m: Message)
    requires !s.isLearned && m.msgType == Learn
    ensures var t := OnMessage(q, s, m);
      && Voters(t, KeyOf(m)) == Voters(s, KeyOf(m)) + {m.sender}
      && (t.isLearned <==> |Voters(s, KeyOf(m)) + {m.sender}| >= q)
      && (t.isLearned ==> t.learnedValue == m.value)
      && (!t.isLearned ==> t.learnedValue == s.learnedValue)
  {
  }

  /** Votes for different keys never combine: only the message's own key changes. */
  lemma VoteSeparation(q: nat, s: LearnerState, m: Message, k: Key)
    requires k != KeyOf(m) || m.msgType != Learn
    ensures Voters(OnMessage(q, s, m), k) == Voters(s, k)
  {
  }

  /** Every message other than LEARN is ignored. */
  lemma NonLearnIgnored(q: nat, s: LearnerState, m: Message)
    requires m.msgType != Learn
    ensures OnMessage(q, s, m) == s
  {
  }

  /** A repeated vote from the same acceptor changes nothing in a consistent learner. */
  lemma RepeatVoteIgnored(q: nat, s: LearnerState, m: Message)
    requires Consistent(q, s) && m.msgType == Learn && m.sender in Voters(s, KeyOf(m))
    ensures OnMessage(q, s, m) == s
  {
    if !s.isLearned {
      var k := KeyOf(m);
      assert Voters(s, k) + {m.sender} == Voters(s, k);
      assert k in s.counts;
      assert s.counts[k := Voters(s, k)] == s.counts;
    }
  }

  /** Consistency holds from the start and is kept by every message. */
  lemma {:induction false} RunConsistent(q: nat, s: LearnerState, msgs: seq<Message>)
    requires Consistent(q, s)
    ensures Consistent(q, Run(q, s, msgs))
    decreases |msgs|
  {
    if msgs != [] {
      var t := OnMessage(q, s, msgs[0]);
      if msgs[0].msgType == Learn && !s.isLearned {
        var k := KeyOf(msgs[0]);
        if t.isLearned {
          assert k in t.counts && |t.counts[k]| >= q && k.1 == t.learnedValue;
        }
      }
      RunConsistent(q, t, msgs[1..]);
    }
  }

  lemma FreshConsistent(q: nat)
    ensures Consistent(q, Fresh)
  {
  }

  /** The decision is write-once: after it, no message changes anything. */
  lemma {:induction false} WriteOnce(q: nat, s: LearnerState, msgs: seq<Message>)
    requires s.isLearned
    ensures Run(q, s, msgs) == s
    decreases |msgs|
  {
    if msgs != [] {
      WriteOnce(q, OnMessage(q, s, msgs[0]), msgs[1..]);
    }
  }

  lemma {:induction false} RunAppend(q: nat, s: LearnerState, a: seq<Message>, b: seq<Message>)
    ensures Run(q, s, a + b) == Run(q, Run(q, s, a), b)
    decreases |a|
  {
    if a == [] {
      assert a + b == b;
    } else {
      assert (a + b)[0] == a[0] && (a + b)[1..] == a[1..] + b;
      RunAppend(q, OnMessage(q, s, a[0]), a[1..], b);
    }
  }

  /** While undecided, each key's tally is exactly the set of distinct acceptors that voted for it. */
  lemma {:induction false} TallyIsVoterSet(q: nat, s: LearnerState, msgs: seq<Message>, k: Key)
    requires !Run(q, s, msgs).isLearned
    ensures !s.isLearned
    ensures Voters(Run(q, s, msgs), k) == Voters(s, k) + VotersOf(msgs, k)
    decreases |msgs|
  {
    if msgs == [] {
    } else {
      var t := OnMessage(q, s, msgs[0]);
      if t.isLearned {
        WriteOnce(q, t, msgs[1..]);
      }
      TallyIsVoterSet(q, t, msgs[1..], k);
    }
  }

  lemma SubsetCard<T>(a: set<T>, b: set<T>)
    requires a <= b
    ensures |a| <= |b|
  {
    assert b == a + (b - a);
  }

  /**
   * Quorum necessity: a learner that decides has received, for one proposal id paired with
   * the decided value, LEARN votes from at least q distinct acceptors.
   */
  lemma {:induction false} DecisionNeedsQuorum(q: nat, s: LearnerState, msgs: seq<Message>)
    requires !s.isLearned && Run(q, s, msgs).isLearned
    ensures exists k: Key :: k.1 == Run(q, s, msgs).learnedValue && |Voters(s, k) + VotersOf(msgs, k)| >= q
    decreases |msgs|
  {
    var m := msgs[0];
    var t := OnMessage(q, s, m);
    var k := KeyOf(m);
    if t.isLearned {
      WriteOnce(q, t, msgs[1..]);
      assert m.msgType == Learn;
      SubsetCard(Voters(s, k) + {m.sender}, Voters(s, k) + VotersOf(msgs, k));
    } else {
      DecisionNeedsQuorum(q, t, msgs[1..]);
      var k': Key :| k'.1 == Run(q, t, msgs[1..]).learnedValue && |Voters(t, k') + VotersOf(msgs[1..], k')| >= q;
      assert Voters(t, k') <= Voters(s, k') + (if m.msgType == Learn && KeyOf(m) == k' then {m.sender} else {});
      SubsetCard(Voters(t, k') + VotersOf(msgs[1..], k'), Voters(s, k') + VotersOf(msgs, k'));
    }
  }

  /** The learner (paxosAlg/learner.py:8-51). */
  class Learner {
    const id: NodeId
    const acceptorIds: set<NodeId>
    const quorumSize: nat
    const network: Network
    var acceptedCounts: map<Key, set<NodeId>>
    var learnedValue: Option<Value>
    var isLearned: bool

    function State(): LearnerState
      reads this
    {
      LearnerState(acceptedCounts, learnedValue, isLearned)
    }

    constructor (id: NodeId, acceptorIds: set<NodeId>, network: Network)
      ensures this.id == id && this.acceptorIds == acceptorIds && this.network == network
      ensures quorumSize == QuorumSize(acceptorIds)
      ensures State() == Fresh
    {
      this.id := id;
      this.acceptorIds := acceptorIds;
      this.network := network;
      quorumSize := |acceptorIds| / 2 + 1;
      acceptedCounts := map[];
      learnedValue := None;
      isLearned := false;
    }

    method HandleMessage(m: Message)
      modifies this
      ensures State() == OnMessage(quorumSize, old(State()), m)
    {
      if m.msgType == Learn {
        HandleLearn(m);
      }
    }

    method HandleLearn(m: Message)
      modifies this
      ensures State() == OnLearn(quorumSize, old(State()), m)
    {
      if isLearned {
        return;
      }
      var key := (m.proposalId, m.value);
      if key !in acceptedCounts {
        acceptedCounts := acceptedCounts[key := {}];
      }
      acceptedCounts := acceptedCounts[key := acceptedCounts[key] + {m.sender}];
      var currentCount := |acceptedCounts[key]|;
      if currentCount >= quorumSize {
        learnedValue := m.value;
        isLearned := true;
      }
    }

    /** Node.process_messages for a learner: drain, then handle each message in queue order. */
    method ProcessMessages()
      modifies this, network
      ensures State() == Run(quorumSize, old(State()), Addressed(old(network.queue), id))
      ensures network.queue == Others(old(network.queue), id)
    {
      var received := network.GetMessagesForNode(id);
      var i := 0;
      while i < |received|
        invariant 0 <= i <= |received|
        invariant network.queue == Others(old(network.queue), id)
        invariant Run(quorumSize, old(State()), received) == Run(quorumSize, State(), received[i..])
      {
        assert received[i..][0] == received[i] && received[i..][1..] == received[i + 1..];
        HandleMessage(received[i]);
        i := i + 1;
      }
    }
  }
}
