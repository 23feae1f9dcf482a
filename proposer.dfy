/** The proposer role: phase-1 and phase-2 initiator (paxosAlg/proposer.py). */
module PaxosProposer {
  import opened PaxosMessage
  import opened PaxosNetwork

  datatype ProposerState = ProposerState(
    currentProposalId: int,
    currentValue: Option<Value>,
    isProposing: bool,
    promises: seq<Message>,        // promises_received, one entry per sender in insertion order
    highestAcceptedId: int,
    highestAcceptedValue: Option<Value>)

  /** What handling an event does: the new state and the messages sent. */
  datatype Step = Step(state: ProposerState, out: seq<Message>)

  // ---- proposal-id seeding (proposer.py:18-27) ----

  /** filter(str.isdigit, s), for ASCII digits: the digits of s, in their order in s. */
  function Digits(s: string): (d: string)
    ensures |d| <= |s|
    ensures forall i :: 0 <= i < |d| ==> IsDigit(d[i])
    ensures forall c :: c in d <==> c in s && IsDigit(c)
  {
    if s == [] then []
    else (if IsDigit(s[0]) then [s[0]] else []) + Digits(s[1..])
  }

  /** Filtering keeps order: the digits of a concatenation are the digits of each part, in turn. */
  lemma {:induction false} DigitsAppend(a: string, b: string)
    ensures Digits(a + b) == Digits(a) + Digits(b)
    decreases |a|
  {
    if a == [] {
      assert a + b == b;
    } else {
      assert (a + b)[0] == a[0] && (a + b)[1..] == a[1..] + b;
      DigitsAppend(a[1..], b);
    }
  }

  /** int() of a string of decimal digits (leading zeros allowed). */
  function DigitsValue(d: string): nat
    requires forall i :: 0 <= i < |d| ==> IsDigit(d[i])
    decreases |d|
  {
    if d == [] then 0
    else
      assert IsDigit(d[|d| - 1]);
      DigitsValue(d[..|d| - 1]) * 10 + (d[|d| - 1] as int - '0' as int)
  }

  /**
   * The initial proposal id: the id's digits followed by "00". When the id has no digit the
   * source uses abs(hash(id)) % 100, and Python's string hash is salted per process, so the
   * hash is a parameter here.
   */
  function SeedId(id: NodeId, hash: int): int
  {
    var digits := Digits(id);
    var part := if digits == [] then NatToString((if hash < 0 then -hash else hash) % 100) else digits;
    DigitsValue(part + "00")
  }

  lemma {:induction false} AppendZeros(d: string)
    requires forall i :: 0 <= i < |d| ==> IsDigit(d[i])
    ensures DigitsValue(d + "00") == DigitsValue(d) * 100
  {
    var d0 := d + "0";
    assert d + "00" == d0 + "0";
    assert (d0 + "0")[..|d0|] == d0;
    assert d0[..|d|] == d;
    assert DigitsValue(d0) == DigitsValue(d) * 10;
  }

  lemma {:induction false} NatToStringRoundTrip(n: nat)
    ensures DigitsValue(NatToString(n)) == n
    decreases n
  {
    if n >= 10 {
      NatToStringRoundTrip(n / 10);
      var s := NatToString(n / 10) + [DigitChar(n % 10)];
      assert s[..|s| - 1] == NatToString(n / 10);
    }
  }

  /** The seed is the number formed by the id's digits, times 100 (or the hash fallback, times 100). */
  lemma SeedValue(id: NodeId, hash: int)
    ensures Digits(id) != [] ==> SeedId(id, hash) == DigitsValue(Digits(id)) * 100
    ensures Digits(id) == [] ==> SeedId(id, hash) == ((if hash < 0 then -hash else hash) % 100) * 100
  {
    var digits := Digits(id);
    if digits == [] {
      var n := (if hash < 0 then -hash else hash) % 100;
      AppendZeros(NatToString(n));
      NatToStringRoundTrip(n);
    } else {
      AppendZeros(digits);
    }
  }

  /** "P1" is seeded at 100 and "P2" at 200, whatever the hash. */
  lemma SeedExamples(hash: int)
    ensures SeedId("P1", hash) == 100 && SeedId("P2", hash) == 200
  {
    SeedValue("P1", hash);
    SeedValue("P2", hash);
    assert Digits("P1") == "1" by { assert "P1"[1..] == "1"; assert "1"[1..] == ""; }
    assert Digits("P2") == "2" by { assert "P2"[1..] == "2"; assert "2"[1..] == ""; }
  }

  // ---- the promise table (proposer.py:75) ----

  function Senders(ps: seq<Message>): set<NodeId>
  {
    set i | 0 <= i < |ps| :: ps[i].sender
  }

  lemma SendersCons(m: Message, ps: seq<Message>)
    ensures Senders([m] + ps) == {m.sender} + Senders(ps)
  {
    var r := [m] + ps;
    forall x | x in Senders(r) ensures x in {m.sender} + Senders(ps) {
      var i :| 0 <= i < |r| && r[i].sender == x;
      if i > 0 { assert r[i] == ps[i - 1]; }
    }
    forall x | x in Senders(ps) ensures x in Senders(r) {
      var i :| 0 <= i < |ps| && ps[i].sender == x;
      assert r[i + 1] == ps[i];
    }
    assert r[0] == m;
  }

  ghost predicate DistinctSenders(ps: seq<Message>)
  {
    forall i, j :: 0 <= i < j < |ps| ==> ps[i].sender != ps[j].sender
  }

  /** promises_received[m.sender] = m: overwrite in place, or insert at the end. */
  function Record(ps: seq<Message>, m: Message): seq<Message>
  {
    if ps == [] then [m]
    else if ps[0].sender == m.sender then [m] + ps[1..]
    else [ps[0]] + Record(ps[1..], m)
  }

  /**
   * Recording keeps one entry per sender, adds the sender, keeps every other sender's entry,
   * and grows the table by one exactly when the sender is new.
   */
  lemma {:induction false} RecordSpec(ps: seq<Message>, m: Message)
    requires DistinctSenders(ps)
    ensures var r := Record(ps, m);
      && DistinctSenders(r)
      && m in r
      && Senders(r) == Senders(ps) + {m.sender}
      && |r| == (if m.sender in Senders(ps) then |ps| else |ps| + 1)
      && (forall p :: p in ps && p.sender != m.sender ==> p in r)
      && (forall p :: p in r ==> p == m || p in ps)
  {
    RecordSenders(ps, m);
    RecordDistinct(ps, m);
    RecordLength(ps, m);
    RecordContents(ps, m);
  }

  lemma {:induction false} RecordSenders(ps: seq<Message>, m: Message)
    ensures Senders(Record(ps, m)) == Senders(ps) + {m.sender}
    decreases |ps|
  {
    if ps == [] {
      assert Senders([m]) == {m.sender} by { SendersCons(m, []); }
    } else {
      assert ps == [ps[0]] + ps[1..];
      SendersCons(ps[0], ps[1..]);
      if ps[0].sender == m.sender {
        SendersCons(m, ps[1..]);
      } else {
        RecordSenders(ps[1..], m);
        SendersCons(ps[0], Record(ps[1..], m));
      }
    }
  }

  lemma HeadNotInTail(ps: seq<Message>)
    requires ps != [] && DistinctSenders(ps)
    ensures ps[0].sender !in Senders(ps[1..]) && DistinctSenders(ps[1..])
  {
    forall j | 0 <= j < |ps[1..]| ensures ps[1..][j].sender != ps[0].sender {
      assert ps[1..][j] == ps[j + 1];
    }
    forall i, j | 0 <= i < j < |ps[1..]| ensures ps[1..][i].sender != ps[1..][j].sender {
      assert ps[1..][i] == ps[i + 1] && ps[1..][j] == ps[j + 1];
    }
  }

  lemma {:induction false} RecordDistinct(ps: seq<Message>, m: Message)
    requires DistinctSenders(ps)
    ensures DistinctSenders(Record(ps, m))
    decreases |ps|
  {
    if ps != [] {
      HeadNotInTail(ps);
      if ps[0].sender == m.sender {
        var r := [m] + ps[1..];
        forall i, j | 0 <= i < j < |r| ensures r[i].sender != r[j].sender {
          assert r[j] == ps[j];
          if i > 0 { assert r[i] == ps[i]; }
        }
      } else {
        RecordDistinct(ps[1..], m);
        RecordSenders(ps[1..], m);
        var t := Record(ps[1..], m);
        var r := [ps[0]] + t;
        forall i, j | 0 <= i < j < |r| ensures r[i].sender != r[j].sender {
          assert r[j] == t[j - 1];
          if i > 0 { assert r[i] == t[i - 1]; } else { assert r[j].sender in Senders(t); }
        }
      }
    }
  }

  lemma {:induction false} RecordLength(ps: seq<Message>, m: Message)
    requires DistinctSenders(ps)
    ensures |Record(ps, m)| == (if m.sender in Senders(ps) then |ps| else |ps| + 1)
    decreases |ps|
  {
    if ps != [] {
      HeadNotInTail(ps);
      SendersCons(ps[0], ps[1..]);
      assert ps == [ps[0]] + ps[1..];
      if ps[0].sender != m.sender {
        RecordLength(ps[1..], m);
      }
    }
  }

  lemma {:induction false} RecordContents(ps: seq<Message>, m: Message)
    ensures m in Record(ps, m)
    ensures forall p :: p in ps && p.sender != m.sender ==> p in Record(ps, m)
    ensures forall p :: p in Record(ps, m) ==> p == m || p in ps
    decreases |ps|
  {
    if ps != [] {
      assert ps == [ps[0]] + ps[1..];
      if ps[0].sender != m.sender {
        RecordContents(ps[1..], m);
      }
    }
  }

  // ---- adopting the highest accepted value (proposer.py:83-93) ----

  /** The loop over the recorded promises: keep the first promise with the largest accepted id above hid. */
  function ScanHighest(ps: seq<Message>, hid: int, hv: Option<Value>): (int, Option<Value>)
    decreases |ps|
  {
    if ps == [] then (hid, hv)
    else if ps[0].acceptedProposalId.Some? && ps[0].acceptedProposalId.value > hid then
      ScanHighest(ps[1..], ps[0].acceptedProposalId.value, ps[0].value)
    else ScanHighest(ps[1..], hid, hv)
  }

  /**
   * The scan ends at the maximum of hid and every reported accepted id; when that maximum is
   * above hid the value is that of the first promise reporting it, otherwise hv is kept.
   */
  lemma {:induction false} ScanHighestSpec(ps: seq<Message>, hid: int, hv: Option<Value>)
    ensures var (h, v) := ScanHighest(ps, hid, hv);
      && h >= hid
      && (forall i :: 0 <= i < |ps| && ps[i].acceptedProposalId.Some? ==> ps[i].acceptedProposalId.value <= h)
      && (h == hid ==> v == hv)
      && (h > hid ==>
            exists i :: 0 <= i < |ps| && ps[i].acceptedProposalId == Some(h) && v == ps[i].value
              && forall j :: 0 <= j < i && ps[j].acceptedProposalId.Some? ==> ps[j].acceptedProposalId.value < h)
    decreases |ps|
  {
    if ps != [] {
      var a := ps[0].acceptedProposalId;
      if a.Some? && a.value > hid {
        ScanHighestSpec(ps[1..], a.value, ps[0].value);
        var (h, v) := ScanHighest(ps[1..], a.value, ps[0].value);
        if h > a.value {
          var i :| 0 <= i < |ps[1..]| && ps[1..][i].acceptedProposalId == Some(h) && v == ps[1..][i].value
                   && forall j :: 0 <= j < i && ps[1..][j].acceptedProposalId.Some? ==> ps[1..][j].acceptedProposalId.value < h;
          assert ps[i + 1] == ps[1..][i];
          forall j | 0 <= j < i + 1 && ps[j].acceptedProposalId.Some? ensures ps[j].acceptedProposalId.value < h {
            if j > 0 { assert ps[j] == ps[1..][j - 1]; }
          }
        } else {
          assert ps[0].acceptedProposalId == Some(h);
        }
        forall i | 0 <= i < |ps| && ps[i].acceptedProposalId.Some? ensures ps[i].acceptedProposalId.value <= h {
          if i > 0 { assert ps[i] == ps[1..][i - 1]; }
        }
      } else {
        ScanHighestSpec(ps[1..], hid, hv);
        var (h, v) := ScanHighest(ps[1..], hid, hv);
        if h > hid {
          var i :| 0 <= i < |ps[1..]| && ps[1..][i].acceptedProposalId == Some(h) && v == ps[1..][i].value
                   && forall j :: 0 <= j < i && ps[1..][j].acceptedProposalId.Some? ==> ps[1..][j].acceptedProposalId.value < h;
          assert ps[i + 1] == ps[1..][i];
          forall j | 0 <= j < i + 1 && ps[j].acceptedProposalId.Some? ensures ps[j].acceptedProposalId.value < h {
            if j > 0 { assert ps[j] == ps[1..][j - 1]; }
          }
        }
        forall i | 0 <= i < |ps| && ps[i].acceptedProposalId.Some? ensures ps[i].acceptedProposalId.value <= h {
          if i > 0 { assert ps[i] == ps[1..][i - 1]; }
        }
      }
    }
  }

  /** The value for phase 2: the adopted value when there is one, else the proposer's own. */
  function ChosenValue(highest: Option<Value>, own: Option<Value>): Option<Value>
  {
    if highest.Some? then highest else own
  }

  // ---- broadcasts ----

  function PrepareBroadcast(id: NodeId, acceptors: seq<NodeId>, n: int): (ms: seq<Message>)
    ensures |ms| == |acceptors|
    ensures forall i :: 0 <= i < |ms| ==> ms[i] == Message(id, acceptors[i], Prepare, Some(n))
  {
    if acceptors == [] then [] else [Message(id, acceptors[0], Prepare, Some(n))] + PrepareBroadcast(id, acceptors[1..], n)
  }

  function AcceptBroadcast(id: NodeId, acceptors: seq<NodeId>, n: int, v: Option<Value>): (ms: seq<Message>)
    ensures |ms| == |acceptors|
    ensures forall i :: 0 <= i < |ms| ==> ms[i] == Message(id, acceptors[i], Accept, Some(n), v)
  {
    if acceptors == [] then [] else [Message(id, acceptors[0], Accept, Some(n), v)] + AcceptBroadcast(id, acceptors[1..], n, v)
  }

  /** One more acceptor in the prefix sent to adds its PREPARE at the end. */
  lemma PrepareBroadcastSnoc(id: NodeId, acceptors: seq<NodeId>, i: nat, n: int)
    requires i < |acceptors|
    ensures PrepareBroadcast(id, acceptors[..i + 1], n)
         == PrepareBroadcast(id, acceptors[..i], n) + [Message(id, acceptors[i], Prepare, Some(n))]
  {
  }

  /** One more acceptor in the prefix sent to adds its ACCEPT at the end. */
  lemma AcceptBroadcastSnoc(id: NodeId, acceptors: seq<NodeId>, i: nat, n: int, v: Option<Value>)
    requires i < |acceptors|
    ensures AcceptBroadcast(id, acceptors[..i + 1], n, v)
         == AcceptBroadcast(id, acceptors[..i], n, v) + [Message(id, acceptors[i], Accept, Some(n), v)]
  {
  }

  // ---- the handlers ----

  /** start_proposal: refused while proposing; otherwise a fresh round with one PREPARE per acceptor. */
  function StartRound(id: NodeId, acceptors: seq<NodeId>, s: ProposerState): Step
  {
    if s.isProposing then Step(s, [])
    else
      var n := s.currentProposalId + 1;
      Step(ProposerState(n, s.currentValue, true, [], -1, None), PrepareBroadcast(id, acceptors, n))
  }

  /** _handle_promise: record a promise of the current round; at exactly q promisers send ACCEPT. */
  function OnPromise(id: NodeId, acceptors: seq<NodeId>, q: nat, s: ProposerState, m: Message): Step
  {
    if !s.isProposing || m.proposalId != Some(s.currentProposalId) then Step(s, [])
    else
      var ps := Record(s.promises, m);
      if |ps| == q then
        var (h, v) := ScanHighest(ps, s.highestAcceptedId, s.highestAcceptedValue);
        Step(s.(promises := ps, highestAcceptedId := h, highestAcceptedValue := v),
             AcceptBroadcast(id, acceptors, s.currentProposalId, ChosenValue(v, s.currentValue)))
      else Step(s.(promises := ps), [])
  }

  /** _handle_message: PROMISE is handled; ACCEPTED and every other kind change nothing. */
  function OnMessage(id: NodeId, acceptors: seq<NodeId>, q: nat, s: ProposerState, m: Message): Step
  {
    if m.msgType == Promise then OnPromise(id, acceptors, q, s, m) else Step(s, [])
  }

  function Run(id: NodeId, acceptors: seq<NodeId>, q: nat, s: ProposerState, msgs: seq<Message>): Step
    decreases |msgs|
  {
    if msgs == [] then Step(s, [])
    else
      var r := OnMessage(id, acceptors, q, s, msgs[0]);
      var t := Run(id, acceptors, q, r.state, msgs[1..]);
      Step(t.state, r.out + t.out)
  }

  lemma RunUnfold(id: NodeId, acceptors: seq<NodeId>, q: nat, s: ProposerState, msgs: seq<Message>)
    requires msgs != []
    ensures var r := OnMessage(id, acceptors, q, s, msgs[0]);
      var t := Run(id, acceptors, q, r.state, msgs[1..]);
      Run(id, acceptors, q, s, msgs) == Step(t.state, r.out + t.out)
  {
  }

  lemma {:induction false} RunAppend(id: NodeId, acceptors: seq<NodeId>, q: nat, s: ProposerState, a: seq<Message>, b: seq<Message>)
    ensures var p := Run(id, acceptors, q, s, a);
      var t := Run(id, acceptors, q, p.state, b);
      Run(id, acceptors, q, s, a + b) == Step(t.state, p.out + t.out)
    decreases |a|
  {
    if a == [] {
      assert a + b == b;
    } else {
      var r := OnMessage(id, acceptors, q, s, a[0]);
      assert (a + b)[0] == a[0] && (a + b)[1..] == a[1..] + b;
      RunAppend(id, acceptors, q, r.state, a[1..], b);
      var p' := Run(id, acceptors, q, r.state, a[1..]);
      var t := Run(id, acceptors, q, p'.state, b);
      assert r.out + (p'.out + t.out) == (r.out + p'.out) + t.out;
    }
  }

  /** Handling one more message of a stream extends the run of its prefix by that message's step. */
  lemma RunSnoc(id: NodeId, acceptors: seq<NodeId>, q: nat, s: ProposerState, msgs: seq<Message>, i: nat)
    requires i < |msgs|
    ensures var p := Run(id, acceptors, q, s, msgs[..i]);
      var r := OnMessage(id, acceptors, q, p.state, msgs[i]);
      Run(id, acceptors, q, s, msgs[..i + 1]) == Step(r.state, p.out + r.out)
  {
    assert msgs[..i + 1] == msgs[..i] + [msgs[i]];
    RunAppend(id, acceptors, q, s, msgs[..i], [msgs[i]]);
    var p := Run(id, acceptors, q, s, msgs[..i]);
    var r := OnMessage(id, acceptors, q, p.state, msgs[i]);
    assert Run(id, acceptors, q, p.state, [msgs[i]]) == Step(r.state, r.out + []);
    assert r.out + [] == r.out;
  }

  /** The invariant of the proposer's state: promises are one per sender and all for the current id. */
  ghost predicate Valid(s: ProposerState)
  {
    && DistinctSenders(s.promises)
    && (forall i :: 0 <= i < |s.promises| ==> s.promises[i].proposalId == Some(s.currentProposalId))
    && (!s.isProposing ==> s.promises == [])
  }

  /** A start while proposing changes nothing; otherwise it opens round id + 1 and sends one PREPARE per acceptor. */
  lemma StartRoundSpec(id: NodeId, acceptors: seq<NodeId>, s: ProposerState)
    ensures var r := StartRound(id, acceptors, s);
      && (s.isProposing ==> r == Step(s, []))
      && (!s.isProposing ==>
            && r.state.currentProposalId == s.currentProposalId + 1
            && r.state.isProposing && r.state.promises == []
            && r.state.highestAcceptedId == -1 && r.state.highestAcceptedValue == None
            && r.state.currentValue == s.currentValue
            && |r.out| == |acceptors|
            && forall i :: 0 <= i < |r.out| ==> r.out[i] == Message(id, acceptors[i], Prepare, Some(r.state.currentProposalId)))
  {
  }

  /**
   * A promise for another round, or one that arrives when not proposing, is dropped. Otherwise it is
   * recorded, and ACCEPT goes out, to every acceptor, exactly when the number of distinct promisers
   * equals q, carrying the current id and the value of the first promise reporting the highest
   * accepted id (the proposer's own value when no promise reports one).
   */
  lemma PromiseSpec(id: NodeId, acceptors: seq<NodeId>, q: nat, s: ProposerState, m: Message)
    requires Valid(s) && m.msgType == Promise
    ensures var r := OnMessage(id, acceptors, q, s, m);
      && (!s.isProposing || m.proposalId != Some(s.currentProposalId) ==> r == Step(s, []))
      && (s.isProposing && m.proposalId == Some(s.currentProposalId) ==>
            && Valid(r.state)
            && r.state.promises == Record(s.promises, m)
            && Senders(r.state.promises) == Senders(s.promises) + {m.sender}
            && r.state.currentProposalId == s.currentProposalId && r.state.isProposing
            && r.state.currentValue == s.currentValue
            && (|Senders(s.promises) + {m.sender}| == q ==>
                  var (h, v) := ScanHighest(Record(s.promises, m), s.highestAcceptedId, s.highestAcceptedValue);
                  r.state == s.(promises := Record(s.promises, m), highestAcceptedId := h, highestAcceptedValue := v))
            && (|Senders(s.promises) + {m.sender}| != q ==> r.state == s.(promises := Record(s.promises, m)))
            && (|acceptors| > 0 ==> (r.out != [] <==> |Senders(s.promises) + {m.sender}| == q))
            && (r.out != [] ==>
                  var (h, v) := ScanHighest(r.state.promises, s.highestAcceptedId, s.highestAcceptedValue);
                  r.out == AcceptBroadcast(id, acceptors, s.currentProposalId, ChosenValue(v, s.currentValue))))
  {
    if s.isProposing && m.proposalId == Some(s.currentProposalId) {
      RecordSpec(s.promises, m);
      var ps := Record(s.promises, m);
      assert |ps| == |Senders(ps)| by { DistinctCard(ps); }
      forall i | 0 <= i < |ps| ensures ps[i].proposalId == Some(s.currentProposalId) {
        assert ps[i] in ps;
      }
    }
  }

  /** ACCEPTED, and every other kind but PROMISE, changes nothing and sends nothing. */
  lemma NonPromiseIgnored(id: NodeId, acceptors: seq<NodeId>, q: nat, s: ProposerState, m: Message)
    requires m.msgType != Promise
    ensures OnMessage(id, acceptors, q, s, m) == Step(s, [])
  {
  }

  /**
   * The quorum test is an equality on the size of the promise table, so a repeated PROMISE from
   * an acceptor already counted, arriving when the table holds exactly q promisers, sends the
   * ACCEPT broadcast once more.
   */
  lemma RepeatPromiseResendsAccept(id: NodeId, acceptors: seq<NodeId>, q: nat, s: ProposerState, m: Message)
    requires Valid(s) && s.isProposing && m.msgType == Promise && m.proposalId == Some(s.currentProposalId)
    requires |acceptors| > 0 && m.sender in Senders(s.promises) && |Senders(s.promises)| == q
    ensures OnMessage(id, acceptors, q, s, m).out != []
  {
    PromiseSpec(id, acceptors, q, s, m);
    assert Senders(s.promises) + {m.sender} == Senders(s.promises);
  }

  lemma {:induction false} DistinctCard(ps: seq<Message>)
    requires DistinctSenders(ps)
    ensures |Senders(ps)| == |ps|
    decreases |ps|
  {
    if ps != [] {
      DistinctCard(ps[1..]);
      assert Senders(ps) == {ps[0].sender} + Senders(ps[1..]);
      assert ps[0].sender !in Senders(ps[1..]);
    }
  }

  /** Events that drive a proposer: start_proposal, or delivery of one message. */
  datatype Event = Start | Deliver(m: Message)

  function Apply(id: NodeId, acceptors: seq<NodeId>, q: nat, s: ProposerState, e: Event): Step
  {
    match e
    case Start => StartRound(id, acceptors, s)
    case Deliver(m) => OnMessage(id, acceptors, q, s, m)
  }

  function ApplyAll(id: NodeId, acceptors: seq<NodeId>, q: nat, s: ProposerState, es: seq<Event>): ProposerState
    decreases |es|
  {
    if es == [] then s else ApplyAll(id, acceptors, q, Apply(id, acceptors, q, s, es[0]).state, es[1..])
  }

  /**
   * isProposing is never reset: whatever happens, a proposer runs at most one round, so its
   * proposal id never exceeds its seed plus one, and once it is proposing every start is a no-op.
   */
  lemma {:induction false} AtMostOneRound(id: NodeId, acceptors: seq<NodeId>, q: nat, s: ProposerState, es: seq<Event>)
    ensures var t := ApplyAll(id, acceptors, q, s, es);
      && (s.isProposing ==> t.isProposing && t.currentProposalId == s.currentProposalId)
      && t.currentProposalId <= s.currentProposalId + 1
      && (t.isProposing ==> StartRound(id, acceptors, t) == Step(t, []))
    decreases |es|
  {
    if es != [] {
      var r := Apply(id, acceptors, q, s, es[0]).state;
      AtMostOneRound(id, acceptors, q, r, es[1..]);
      if !s.isProposing && !r.isProposing {
        assert r.currentProposalId == s.currentProposalId;
      }
    }
  }

  /** A promise from a new sender is added at the end of the table. */
  lemma {:induction false} RecordNew(ps: seq<Message>, m: Message)
    requires forall i :: 0 <= i < |ps| ==> ps[i].sender != m.sender
    ensures Record(ps, m) == ps + [m]
    decreases |ps|
  {
    if ps != [] {
      RecordNew(ps[1..], m);
      assert ps == [ps[0]] + ps[1..];
    }
  }

  /** A scan over promises that report nothing above hid keeps hid and hv. */
  lemma {:induction false} ScanNothingHigher(ps: seq<Message>, hid: int, hv: Option<Value>)
    requires forall i :: 0 <= i < |ps| ==> ps[i].acceptedProposalId.None? || ps[i].acceptedProposalId.value <= hid
    ensures ScanHighest(ps, hid, hv) == (hid, hv)
    decreases |ps|
  {
    if ps != [] {
      ScanNothingHigher(ps[1..], hid, hv);
    }
  }

  /** PROMISEs for round n, one per sender, none reporting an accepted proposal. */
  ghost predicate FreshPromises(n: int, ms: seq<Message>)
  {
    && (forall i, j :: 0 <= i < j < |ms| ==> ms[i].sender != ms[j].sender)
    && forall i :: 0 <= i < |ms| ==>
         && ms[i].msgType == Promise && ms[i].proposalId == Some(n)
         && (ms[i].acceptedProposalId.None? || ms[i].acceptedProposalId.value <= -1)
  }

  /**
   * A proposer in its just-opened round that has recorded the first i of some fresh promises from
   * distinct acceptors records the rest in arrival order, and sends ACCEPT with its own value
   * exactly when the q-th of them arrives (so not at all if it already has q).
   */
  lemma {:induction false} CollectFresh(id: NodeId, acceptors: seq<NodeId>, q: nat, s: ProposerState, ms: seq<Message>, i: nat)
    requires s.isProposing && s.highestAcceptedId == -1 && s.highestAcceptedValue == None
    requires i <= |ms| && FreshPromises(s.currentProposalId, ms)
    ensures Run(id, acceptors, q, s.(promises := ms[..i]), ms[i..])
         == Step(s.(promises := ms), if i < q <= |ms| then AcceptBroadcast(id, acceptors, s.currentProposalId, s.currentValue) else [])
    decreases |ms| - i
  {
    if i == |ms| {
      assert ms[..i] == ms && ms[i..] == [];
    } else {
      var ps, m := ms[..i], ms[i];
      FreshPrefix(s.currentProposalId, ms, i);
      FreshStep(id, acceptors, q, s, ps, m);
      assert ps + [m] == ms[..i + 1];
      CollectFresh(id, acceptors, q, s, ms, i + 1);
      RunUnfold(id, acceptors, q, s.(promises := ps), ms[i..]);
      assert ms[i..][0] == m && ms[i..][1..] == ms[i + 1..];
    }
  }

  lemma FreshPrefix(n: int, ms: seq<Message>, i: nat)
    requires i < |ms| && FreshPromises(n, ms)
    ensures ms[i].msgType == Promise && ms[i].proposalId == Some(n)
    ensures ms[i].acceptedProposalId.None? || ms[i].acceptedProposalId.value <= -1
    ensures forall j :: 0 <= j < |ms[..i]| ==>
      ms[..i][j].sender != ms[i].sender && (ms[..i][j].acceptedProposalId.None? || ms[..i][j].acceptedProposalId.value <= -1)
  {
  }

  /** One fresh promise from a new sender: it is appended, and at the q-th ACCEPT goes out with the own value. */
  lemma FreshStep(id: NodeId, acceptors: seq<NodeId>, q: nat, s: ProposerState, ps: seq<Message>, m: Message)
    requires s.isProposing && s.highestAcceptedId == -1 && s.highestAcceptedValue == None
    requires m.msgType == Promise && m.proposalId == Some(s.currentProposalId)
    requires m.acceptedProposalId.None? || m.acceptedProposalId.value <= -1
    requires forall j :: 0 <= j < |ps| ==>
      ps[j].sender != m.sender && (ps[j].acceptedProposalId.None? || ps[j].acceptedProposalId.value <= -1)
    ensures OnMessage(id, acceptors, q, s.(promises := ps), m)
         == Step(s.(promises := ps + [m]), if |ps| + 1 == q then AcceptBroadcast(id, acceptors, s.currentProposalId, s.currentValue) else [])
  {
    RecordNew(ps, m);
    if |ps| + 1 == q {
      ScanNothingHigher(ps + [m], -1, None);
    }
  }

  /** The proposer (paxosAlg/proposer.py:8-109). */
  class Proposer {
    const id: NodeId
    const acceptorIds: seq<NodeId>
    const quorumSize: nat
    const network: Network
    var currentProposalId: int
    var currentValue: Option<Value>
    var isProposing: bool
    var promisesReceived: seq<Message>
    var highestAcceptedId: int
    var highestAcceptedValue: Option<Value>

    function State(): ProposerState
      reads this
    {
      ProposerState(currentProposalId, currentValue, isProposing, promisesReceived, highestAcceptedId, highestAcceptedValue)
    }

    /** The acceptor ids form a set in the source, so they are distinct; `hash` stands for hash(node_id). */
    constructor (id: NodeId, acceptorIds: seq<NodeId>, initialValue: Option<Value>, hash: int, network: Network)
      requires forall i, j :: 0 <= i < j < |acceptorIds| ==> acceptorIds[i] != acceptorIds[j]
      ensures this.id == id && this.acceptorIds == acceptorIds && this.network == network
      ensures quorumSize == |acceptorIds| / 2 + 1
      ensures State() == ProposerState(SeedId(id, hash), initialValue, false, [], -1, None)
    {
      this.id := id;
      this.acceptorIds := acceptorIds;
      this.network := network;
      quorumSize := |acceptorIds| / 2 + 1;
      currentProposalId := SeedId(id, hash);
      currentValue := initialValue;
      isProposing := false;
      promisesReceived := [];
      highestAcceptedId := -1;
      highestAcceptedValue := None;
    }

    method StartProposal()
      modifies this, network
      ensures var r := StartRound(id, acceptorIds, old(State()));
        State() == r.state && network.queue == old(network.queue) + r.out
    {
      if isProposing {
        return;
      }
      currentProposalId := currentProposalId + 1;
      promisesReceived := [];
      isProposing := true;
      highestAcceptedId := -1;
      highestAcceptedValue := None;
      ghost var sent := network.queue;
      ghost var st := State();
      var n := currentProposalId;
      var i := 0;
      while i < |acceptorIds|
        invariant 0 <= i <= |acceptorIds|
        invariant network.queue == sent + PrepareBroadcast(id, acceptorIds[..i], n)
        invariant State() == st
      {
        PrepareBroadcastSnoc(id, acceptorIds, i, n);
        network.SendMessage(Message(id, acceptorIds[i], Prepare, Some(n)));
        i := i + 1;
      }
      assert acceptorIds[..i] == acceptorIds;
    }

    method HandleMessage(m: Message)
      modifies this, network
      ensures var r := OnMessage(id, acceptorIds, quorumSize, old(State()), m);
        State() == r.state && network.queue == old(network.queue) + r.out
    {
      if m.msgType == Promise {
        HandlePromise(m);
      }
    }

    method HandlePromise(m: Message)
      modifies this, network
      ensures var r := OnPromise(id, acceptorIds, quorumSize, old(State()), m);
        State() == r.state && network.queue == old(network.queue) + r.out
    {
      if !isProposing || m.proposalId != Some(currentProposalId) {
        return;
      }
      promisesReceived := Record(promisesReceived, m);
      if |promisesReceived| == quorumSize {
        var ps := promisesReceived;
        ghost var target := ScanHighest(ps, highestAcceptedId, highestAcceptedValue);
        assert ps[0..] == ps;
        var i := 0;
        while i < |ps|
          invariant 0 <= i <= |ps|
          invariant ScanHighest(ps[i..], highestAcceptedId, highestAcceptedValue) == target
          invariant promisesReceived == ps && isProposing
          invariant currentProposalId == old(currentProposalId) && currentValue == old(currentValue)
          invariant network.queue == old(network.queue)
        {
          var msg := ps[i];
          assert ps[i..][0] == msg && ps[i..][1..] == ps[i + 1..];
          if msg.acceptedProposalId.Some? && msg.acceptedProposalId.value > highestAcceptedId {
            highestAcceptedId := msg.acceptedProposalId.value;
            highestAcceptedValue := msg.value;
          }
          i := i + 1;
        }
        var newValue := if highestAcceptedValue.Some? then highestAcceptedValue else currentValue;
        SendAccept(newValue);
      }
    }

    method SendAccept(v: Option<Value>)
      modifies network
      ensures network.queue == old(network.queue) + AcceptBroadcast(id, acceptorIds, currentProposalId, v)
    {
      ghost var sent := network.queue;
      var n := currentProposalId;
      var i := 0;
      while i < |acceptorIds|
        invariant 0 <= i <= |acceptorIds|
        invariant network.queue == sent + AcceptBroadcast(id, acceptorIds[..i], n, v)
      {
        AcceptBroadcastSnoc(id, acceptorIds, i, n, v);
        network.SendMessage(Message(id, acceptorIds[i], Accept, Some(n), v));
        i := i + 1;
      }
      assert acceptorIds[..i] == acceptorIds;
    }

    /** Node.process_messages for a proposer: drain, then handle each message in queue order. */
    method ProcessMessages()
      modifies this, network
      ensures var r := Run(id, acceptorIds, quorumSize, old(State()), Addressed(old(network.queue), id));
        State() == r.state && network.queue == Others(old(network.queue), id) + r.out
    {
      var received := network.GetMessagesForNode(id);
      HandleAll(received);
    }

    /** The dispatch loop of Node.process_messages. */
    method HandleAll(received: seq<Message>)
      modifies this, network
      ensures var r := Run(id, acceptorIds, quorumSize, old(State()), received);
        State() == r.state && network.queue == old(network.queue) + r.out
    {
      ghost var s0 := State();
      var i := 0;
      while i < |received|
        invariant 0 <= i <= |received|
        invariant var p := Run(id, acceptorIds, quorumSize, s0, received[..i]);
          State() == p.state && network.queue == old(network.queue) + p.out
      {
        RunSnoc(id, acceptorIds, quorumSize, s0, received, i);
        HandleMessage(received[i]);
        i := i + 1;
      }
      assert received[..i] == received;
    }
  }
}
