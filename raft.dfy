/**
 * The term and vote state machine of RaftAlgorithm/main.go: a server's role, current term and
 * vote, changed by the RequestVote and AppendEntries handlers, by the start of an election and by
 * the replies an election or a heartbeat gets back. Transport, timers, goroutines and the lock are
 * not modelled; a reply arrives here as a parameter.
 */
module Raft {
  datatype Role = Follower | Candidate | Leader

  /** A log entry; the command it carries is not modelled, and no handler touches the log. */
  datatype LogEntry = LogEntry(term: int)

  datatype ServerState = ServerState(state: Role, currentTerm: int, votedFor: int, log: seq<LogEntry>)

  datatype RequestVoteArgs = RequestVoteArgs(term: int, candidateId: int, lastLogIndex: int, lastLogTerm: int)
  datatype RequestVoteReply = RequestVoteReply(term: int, voteGranted: bool)
  datatype AppendEntriesArgs = AppendEntriesArgs(term: int, leaderId: int, entries: seq<LogEntry>)
  datatype AppendEntriesReply = AppendEntriesReply(term: int, success: bool)

  /** votedFor when the server has not voted in its current term. */
  const NoVote := -1

  /** NewRaftServer: a Follower in term 0 that has not voted, with an empty log. */
  const Init := ServerState(Follower, 0, NoVote, [])

  function Max(a: int, b: int): int { if a >= b then a else b }

  /** becomeFollower(term): Follower in the given term, with no vote in it. */
  function Follow(s: ServerState, term: int): (r: ServerState)
    ensures r.state == Follower && r.currentTerm == term && r.votedFor == NoVote && r.log == s.log
  {
    s.(state := Follower, currentTerm := term, votedFor := NoVote)
  }

  /** becomeLeader: Leader, term and vote untouched; nothing happens to a server that already leads. */
  function Lead(s: ServerState): (r: ServerState)
    ensures r.state == Leader && r.currentTerm == s.currentTerm && r.votedFor == s.votedFor && r.log == s.log
  {
    if s.state == Leader then s else s.(state := Leader)
  }

  /** The state part of startElection: Candidate in the next term, voting for itself. */
  function Election(s: ServerState, id: int): (r: ServerState)
    ensures r.state == Candidate && r.currentTerm == s.currentTerm + 1 && r.votedFor == id && r.log == s.log
  {
    s.(state := Candidate, currentTerm := s.currentTerm + 1, votedFor := id)
  }

  /** The vote-count rule of startElection: more than half of the peers, the server included. */
  function Elected(votes: nat, totalPeers: nat): (b: bool)
    ensures b <==> 2 * votes > totalPeers
  {
    votes > totalPeers / 2
  }

  /** RequestVote: reject a stale term; adopt a newer one; vote when not yet voted or already for this candidate. */
  function OnRequestVote(s: ServerState, a: RequestVoteArgs): (r: (ServerState, RequestVoteReply))
    ensures r.1.term == r.0.currentTerm && r.0.currentTerm == Max(s.currentTerm, a.term) && r.0.log == s.log
    ensures a.term < s.currentTerm ==> r.0 == s && !r.1.voteGranted
    ensures a.term > s.currentTerm ==> r.0.state == Follower
    ensures a.term == s.currentTerm ==> r.0.state == s.state
    ensures r.1.voteGranted <==> a.term > s.currentTerm || (a.term == s.currentTerm && (s.votedFor == NoVote || s.votedFor == a.candidateId))
    ensures r.0.votedFor == if r.1.voteGranted then a.candidateId else s.votedFor
  {
    if a.term < s.currentTerm then (s, RequestVoteReply(s.currentTerm, false))
    else
      var s1 := if a.term > s.currentTerm then Follow(s, a.term) else s;
      if s1.votedFor == NoVote || s1.votedFor == a.candidateId then
        (s1.(votedFor := a.candidateId), RequestVoteReply(s1.currentTerm, true))
      else (s1, RequestVoteReply(s1.currentTerm, false))
  }

  /** AppendEntries: reject a stale term; otherwise follow the sender's term, keeping the vote. */
  function OnAppendEntries(s: ServerState, a: AppendEntriesArgs): (r: (ServerState, AppendEntriesReply))
    ensures r.1.term == r.0.currentTerm && r.0.currentTerm == Max(s.currentTerm, a.term)
    ensures r.1.success <==> a.term >= s.currentTerm
    ensures r.1.success ==> r.0.state == Follower
    ensures !r.1.success ==> r.0 == s
    ensures r.0.votedFor == s.votedFor && r.0.log == s.log
  {
    if a.term < s.currentTerm then (s, AppendEntriesReply(s.currentTerm, false))
    else (s.(currentTerm := a.term, state := Follower), AppendEntriesReply(a.term, true))
  }

  /**
   * The handling of one RequestVote reply in the election of `term`, with `votes` counted so far:
   * a newer term turns the server into a Follower; a reply to an election no longer under way is
   * dropped; a granted vote is counted, and a majority makes the server Leader.
   */
  function OnVoteReply(s: ServerState, term: int, votes: nat, totalPeers: nat, reply: RequestVoteReply): (r: (ServerState, nat))
    ensures r.0.currentTerm == Max(s.currentTerm, reply.term) && r.0.log == s.log
    ensures r.0.state == Leader && s.state != Leader ==>
      s.state == Candidate && s.currentTerm == term && reply.voteGranted && r.1 == votes + 1 && Elected(r.1, totalPeers)
    ensures r.1 == if reply.term <= s.currentTerm && s.state == Candidate && s.currentTerm == term && reply.voteGranted then votes + 1 else votes
    ensures r.0.currentTerm == s.currentTerm ==> r.0.votedFor == s.votedFor
    ensures reply.term > s.currentTerm ==> r == (Follow(s, reply.term), votes)
    ensures reply.term <= s.currentTerm && s.state == Candidate && s.currentTerm == term && reply.voteGranted ==>
      r.0 == (if Elected(votes + 1, totalPeers) then Lead(s) else s)
    ensures reply.term <= s.currentTerm && !(s.state == Candidate && s.currentTerm == term && reply.voteGranted) ==>
      r.0 == s
  {
    if reply.term > s.currentTerm then (Follow(s, reply.term), votes)
    else if s.state != Candidate || s.currentTerm != term then (s, votes)
    else if reply.voteGranted then
      var v := votes + 1;
      (if Elected(v, totalPeers) then Lead(s) else s, v)
    else (s, votes)
  }

  /** The handling of a heartbeat reply: a newer term turns the server into a Follower. */
  function OnHeartbeatReply(s: ServerState, reply: AppendEntriesReply): (r: ServerState)
    ensures r.currentTerm == Max(s.currentTerm, reply.term) && r.log == s.log
    ensures reply.term <= s.currentTerm ==> r == s
    ensures reply.term > s.currentTerm ==> r == Follow(s, reply.term)
  {
    if reply.term > s.currentTerm then Follow(s, reply.term) else s
  }

  /** A request with a newer term is answered as if the server had first become a Follower of that term. */
  lemma NewerTermFollowsFirst(s: ServerState, a: RequestVoteArgs)
    requires a.term > s.currentTerm
    ensures OnRequestVote(s, a) == OnRequestVote(Follow(s, a.term), a)
    ensures OnRequestVote(s, a).1 == RequestVoteReply(a.term, true)
  {
  }

  lemma LeadIdempotent(s: ServerState)
    ensures Lead(Lead(s)) == Lead(s)
  {
  }

  /** A subset of a finite set is no larger than it. */
  lemma SubsetCard(a: set<int>, b: set<int>)
    requires a <= b
    ensures |a| <= |b|
  {
    assert b == a + (b - a);
    assert a * (b - a) == {};
  }

  /** Two sets of voters drawn from the same peers, each winning under the vote-count rule, share a voter. */
  lemma MajoritiesOverlap(peers: set<int>, a: set<int>, b: set<int>)
    requires a <= peers && b <= peers
    requires Elected(|a|, |peers|) && Elected(|b|, |peers|)
    ensures a * b != {}
  {
    SubsetCard(a + b, peers);
  }

  // ---- runs of handled events ----

  datatype Event =
    | Vote(args: RequestVoteArgs)
    | Append(entriesArgs: AppendEntriesArgs)
    | StartElection
    | VoteReply(term: int, votes: nat, totalPeers: nat, reply: RequestVoteReply)
    | HeartbeatReply(hb: AppendEntriesReply)

  /** One event handled by the server `id`. */
  function Step(id: int, s: ServerState, e: Event): (r: ServerState)
    ensures r.currentTerm >= s.currentTerm
  {
    match e
    case Vote(a) => OnRequestVote(s, a).0
    case Append(a) => OnAppendEntries(s, a).0
    case StartElection => Election(s, id)
    case VoteReply(t, v, n, rep) => OnVoteReply(s, t, v, n, rep).0
    case HeartbeatReply(rep) => OnHeartbeatReply(s, rep)
  }

  function Run(id: int, s: ServerState, es: seq<Event>): ServerState
    decreases |es|
  {
    if es == [] then s else Run(id, Step(id, s, es[0]), es[1..])
  }

  /** currentTerm never decreases over a run. */
  lemma {:induction false} TermMonotone(id: int, s: ServerState, es: seq<Event>)
    ensures Run(id, s, es).currentTerm >= s.currentTerm
    decreases |es|
  {
    if es != [] {
      TermMonotone(id, Step(id, s, es[0]), es[1..]);
    }
  }

  /** The candidate this event makes the server vote for in term t: a granted request, or itself on an election. */
  function VoteIn(id: int, s: ServerState, e: Event, t: int): set<int>
  {
    match e
    case Vote(a) =>
      var r := OnRequestVote(s, a);
      if r.1.voteGranted && r.0.currentTerm == t then {a.candidateId} else {}
    case StartElection => if s.currentTerm + 1 == t then {id} else {}
    case _ => {}
  }

  /** Every candidate the server votes for in term t during a run. */
  function Votes(id: int, s: ServerState, es: seq<Event>, t: int): set<int>
    decreases |es|
  {
    if es == [] then {} else VoteIn(id, s, es[0], t) + Votes(id, Step(id, s, es[0]), es[1..], t)
  }

  ghost predicate AtMostOne(v: set<int>)
  {
    forall a, b :: a in v && b in v ==> a == b
  }

  /** Every request comes from a real server id, never from the no-vote marker. */
  ghost predicate RealCandidates(es: seq<Event>)
  {
    forall i :: 0 <= i < |es| && es[i].Vote? ==> es[i].args.candidateId != NoVote
  }

  /** One event keeps the vote of a term once cast, and enters a term at most once. */
  lemma StepVote(id: int, s: ServerState, e: Event, t: int)
    requires id != NoVote && (e.Vote? ==> e.args.candidateId != NoVote)
    ensures var s' := Step(id, s, e);
      && (s.currentTerm > t ==> VoteIn(id, s, e, t) == {})
      && (s.currentTerm == t && s.votedFor != NoVote ==>
            VoteIn(id, s, e, t) <= {s.votedFor} && (s'.currentTerm == t ==> s'.votedFor == s.votedFor))
      && (VoteIn(id, s, e, t) != {} ==> s'.currentTerm == t && VoteIn(id, s, e, t) == {s'.votedFor} && s'.votedFor != NoVote)
  {
  }

  /**
   * Within one term the server votes for at most one candidate: once it has voted in its current
   * term it votes for nobody else in that term, and it votes in no term it has left behind.
   */
  lemma {:induction false} OneVotePerTerm(id: int, s: ServerState, es: seq<Event>, t: int)
    requires id != NoVote && RealCandidates(es)
    ensures s.currentTerm > t ==> Votes(id, s, es, t) == {}
    ensures s.currentTerm == t && s.votedFor != NoVote ==> Votes(id, s, es, t) <= {s.votedFor}
    ensures AtMostOne(Votes(id, s, es, t))
    decreases |es|
  {
    if es != [] {
      var e, s' := es[0], Step(id, s, es[0]);
      assert e.Vote? ==> e.args.candidateId != NoVote;
      assert RealCandidates(es[1..]) by {
        forall i | 0 <= i < |es[1..]| && es[1..][i].Vote? ensures es[1..][i].args.candidateId != NoVote {
          assert es[1..][i] == es[i + 1];
        }
      }
      StepVote(id, s, e, t);
      OneVotePerTerm(id, s', es[1..], t);
    }
  }

  /** The server of RaftAlgorithm/main.go:39-54. */
  class RaftServer {
    const id: int
    const peers: map<int, string>
    var currentTerm: int
    var votedFor: int
    var log: seq<LogEntry>
    var state: Role

    function Snap(): ServerState
      reads this
    {
      ServerState(state, currentTerm, votedFor, log)
    }

    constructor (id: int, peers: map<int, string>)
      ensures this.id == id && this.peers == peers && Snap() == Init
    {
      this.id := id;
      this.peers := peers;
      state := Follower;
      votedFor := NoVote;
      currentTerm := 0;
      log := [];
    }

    method BecomeFollower(term: int)
      modifies this
      ensures Snap() == Follow(old(Snap()), term)
    {
      state := Follower;
      currentTerm := term;
      votedFor := NoVote;
    }

    method BecomeLeader()
      modifies this
      ensures Snap() == Lead(old(Snap()))
    {
      if state == Leader {
        return;
      }
      state := Leader;
    }

    /** The state part of startElection; it returns the election's term, the own vote and the peer count. */
    method StartElection() returns (term: int, votesReceived: nat, totalPeers: nat)
      modifies this
      ensures Snap() == Election(old(Snap()), id)
      ensures term == currentTerm && votesReceived == 1 && totalPeers == |peers|
    {
      state := Candidate;
      currentTerm := currentTerm + 1;
      votedFor := id;
      term := currentTerm;
      votesReceived := 1;
      totalPeers := |peers|;
    }

    /** The body of the reply callback of startElection, with the shared vote counter passed in and out. */
    method HandleVoteReply(term: int, votes: nat, totalPeers: nat, reply: RequestVoteReply) returns (votes': nat)
      modifies this
      ensures (Snap(), votes') == OnVoteReply(old(Snap()), term, votes, totalPeers, reply)
    {
      votes' := votes;
      if reply.term > currentTerm {
        BecomeFollower(reply.term);
        return;
      }
      if state != Candidate || currentTerm != term {
        return;
      }
      if reply.voteGranted {
        votes' := votes' + 1;
        if votes' > totalPeers / 2 {
          BecomeLeader();
        }
      }
    }

    /** The body of the reply callback of sendHeartbeats. */
    method HandleHeartbeatReply(reply: AppendEntriesReply)
      modifies this
      ensures Snap() == OnHeartbeatReply(old(Snap()), reply)
    {
      if reply.term > currentTerm {
        BecomeFollower(reply.term);
      }
    }

    method RequestVote(args: RequestVoteArgs) returns (reply: RequestVoteReply)
      modifies this
      ensures (Snap(), reply) == OnRequestVote(old(Snap()), args)
    {
      if args.term < currentTerm {
        reply := RequestVoteReply(currentTerm, false);
        return;
      }
      if args.term > currentTerm {
        BecomeFollower(args.term);
      }
      var term := currentTerm;
      if votedFor == NoVote || votedFor == args.candidateId {
        votedFor := args.candidateId;
        reply := RequestVoteReply(term, true);
      } else {
        reply := RequestVoteReply(term, false);
      }
    }

    method AppendEntries(args: AppendEntriesArgs) returns (reply: AppendEntriesReply)
      modifies this
      ensures (Snap(), reply) == OnAppendEntries(old(Snap()), args)
    {
      if args.term < currentTerm {
        reply := AppendEntriesReply(currentTerm, false);
        return;
      }
      currentTerm := args.term;
      state := Follower;
      reply := AppendEntriesReply(currentTerm, true);
    }

    /** Handles one event the way the handler or callback it names does. */
    method Handle(e: Event)
      modifies this
      ensures Snap() == Step(id, old(Snap()), e)
    {
      match e
      case Vote(a) => { var _ := RequestVote(a); }
      case Append(a) => { var _ := AppendEntries(a); }
      case StartElection => { var _, _, _ := StartElection(); }
      case VoteReply(t, v, n, rep) => { var _ := HandleVoteReply(t, v, n, rep); }
      case HeartbeatReply(rep) => { HandleHeartbeatReply(rep); }
    }
  }
}
