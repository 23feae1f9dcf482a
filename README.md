# Paxos simulation, Raft vote handlers, FTP brute-force detector and XOR cipher in Dafny

This project models four parts of the repository and proves properties about them.

- **The single-decree Paxos simulation in `paxosAlg/`.**
  - The message record and its text form (`message.dfy`).
  - The shared message queue (`network.dfy`).
  - The node base class (`node.dfy`).
  - The three roles: acceptor, learner and proposer (`acceptor.dfy`, `learner.dfy`, `proposer.dfy`).
  - The `main.py` driver (`driver.dfy`).
- **The term and vote handlers of the Raft server in `RaftAlgorithm/main.go`** (`raft.dfy`).
- **The sliding-window FTP login brute-force detector in `bhp/detect_FTP_BF.py`** (`ftp_detector.dfy`).
- **The repeating-key XOR cipher in `PaxosAlgorithm/ByzantinePaxosRs/ports/crypto.rs`** (`xor_cipher.dfy`).

## How each role is modelled

Each Paxos role is a class that has the fields of the Python object. Its methods update those fields in place and append to the shared `Network` queue.

Each method is tied to a pure step function through its postcondition:
- `HandleMessage` is tied to `OnMessage`.
- `ProcessMessages` is tied to `Run` over the messages drained for that node.

The Paxos properties are then proved as lemmas about those step functions.

### The whole-system model

`system.dfy` assembles the simulation into one state machine, `PaxosSystem.Next` and `Exec`. Its state is:
- the queue;
- every acceptor, learner and proposer state;
- for each learner, the messages it has received so far. This last part is proof bookkeeping and is not a field of the source.

A schedule is any sequence of node turns and proposal starts. For every schedule, two things are proved:
- any two learners that have decided agree;
- no acceptor ever raises.

### The actual run

`scenario.dfy` works out the run that `main.py` performs. `driver.dfy` runs that same sequence on the node objects. The result: after two network cycles, both learners have decided `Valor_Original_P1` and the loop stops. At that point the queue holds only P2's five PREPARE messages for proposal 201.

### Raft, the FTP detector and the cipher

- **Raft.** The handlers are pure functions on a `ServerState` value. A `RaftServer` class calls them and updates its fields.
- **FTP detector.** The login table is a `map` field of a `Detector` class. Pruning is a loop.
- **XOR cipher.** Encryption and decryption are pure functions. XOR is defined on naturals, one bit at a time, and Rust's `as u8` truncation is modelled explicitly.

### Behaviour of the source that the model keeps

- `Network.get_messages_for_node` returns a node's messages in queue order and keeps the remaining queue in order. It does not shuffle them. The model does the same: `Addressed` and `Others`.
- `Node` has no liveness flag and no fail or recover operation. Every node in `all_nodes` drains its inbox on every cycle, so the model has no crashed nodes.
- A proposer's `is_proposing` flag is never reset once set. So a proposer runs at most one round, and `PaxosProposer.AtMostOneRound` proves it.
- An acceptor's `_handle_prepare` compares `None` to an int when a PREPARE carries no proposal id. In Python 3 that raises `TypeError`, and the model raises `TypeError` on that path.
- `Proposer._handle_promise` compares the number of distinct promisers with the quorum using `==`, not `>=`. So ACCEPT goes out at the promise that completes the quorum. It goes out again on a repeated promise from an acceptor already counted, because that leaves the count at the quorum. It never goes out on a promise that takes the count beyond the quorum (`PaxosProposer.RepeatPromiseResendsAccept`).

## Model

| member | source | states |
|---|---|---|
| PaxosMessage.FiveKinds | paxosAlg/message.py:7-12 | there are exactly five kinds, their names are PREPARE, PROMISE, ACCEPT, ACCEPTED and LEARN, and distinct kinds have distinct names |
| PaxosMessage.DefaultFields | paxosAlg/message.py:16-28 | a message built without the optional arguments has no proposal id, no value and no accepted id, and it keeps sender, receiver and kind |
| PaxosMessage.NatToString | paxosAlg/message.py:32 | the decimal text of a natural is nonempty and all digits, is "0" exactly for zero, and has no leading zero otherwise |
| PaxosMessage.IntToString | paxosAlg/message.py:32 | the text of an int starts with '-' exactly when it is negative, and every other character is a digit |
| PaxosMessage.ProposalField | paxosAlg/message.py:32 | the proposal field reads "N/A" exactly when the id is missing, and otherwise is the id's decimal text |
| PaxosMessage.ValueField | paxosAlg/message.py:33 | the value field is "N/A" for a missing value and the value itself otherwise |
| PaxosMessage.Render | paxosAlg/message.py:30-33 | the rendered message starts with '[' followed by the kind's name |
| PaxosMessage.RenderTail | paxosAlg/message.py:30-33 | the rendered message ends with the proposal field and the value field, in that order |
| PaxosNetwork.Addressed | paxosAlg/network.py:22 | the messages handed to a node are all addressed to it, and there are no more of them than are queued |
| PaxosNetwork.Others | paxosAlg/network.py:24 | the messages left in the queue are addressed to other nodes |
| PaxosNetwork.DrainMembers | paxosAlg/network.py:20-25 | a message is handed to node id exactly when it was queued for id, and it stays queued exactly when it was queued for another node |
| PaxosNetwork.DrainPartition | paxosAlg/network.py:20-25 | the handed and the kept messages together are exactly the old queue, as a multiset and in number |
| PaxosNetwork.AddressedAppend | paxosAlg/network.py:14-25 | draining commutes with appending: later sends come after earlier ones, for both halves |
| PaxosNetwork.DrainTwice | paxosAlg/network.py:20-25 | a second drain for the same node gets nothing and leaves the queue as it is |
| PaxosNetwork.DrainKeepsOthers | paxosAlg/network.py:20-25 | draining one node does not change what another node will receive |
| PaxosNetwork.AddressedSelf | paxosAlg/network.py:20-25 | a queue entirely for id is handed over whole and leaves nothing |
| PaxosNetwork.AddressedNone | paxosAlg/network.py:20-25 | a queue with nothing for id hands over nothing and stays as it was |
| PaxosNetwork.Network.constructor | paxosAlg/network.py:11 | the queue starts empty |
| PaxosNetwork.Network.SendMessage | paxosAlg/network.py:14-17 | the message is appended at the end of the queue |
| PaxosNetwork.Network.GetMessagesForNode | paxosAlg/network.py:20-25 | returns the node's messages in queue order and leaves exactly the others, in order |
| PaxosNode.Node.constructor | paxosAlg/node.py:9-11 | the node keeps its id and the shared network |
| PaxosNode.Node.HandleMessage | paxosAlg/node.py:22-24 | the base class raises NotImplementedError |
| PaxosNode.Node.ProcessMessages | paxosAlg/node.py:13-20 | drains the node's messages and raises NotImplementedError exactly when there was at least one |
| PaxosAcceptor.LearnBroadcast | paxosAlg/acceptor.py:82-90 | one LEARN per learner, in learner order, carrying the accepted id and value |
| PaxosAcceptor.PrepareGranted | paxosAlg/acceptor.py:29-41 | a PREPARE above the promise raises the promise and answers PROMISE with the previously accepted id and value |
| PaxosAcceptor.PrepareRejected | paxosAlg/acceptor.py:42-49 | a PREPARE at or below the promise changes nothing and answers PROMISE with the current promise and no accepted fields |
| PaxosAcceptor.AcceptGranted | paxosAlg/acceptor.py:57-90 | an ACCEPT at or above the promise sets promise, accepted id and value, answers ACCEPTED to the sender and then a LEARN to each learner |
| PaxosAcceptor.Ignored | paxosAlg/acceptor.py:19-25 | an ACCEPT below the promise, and any other kind of message, changes nothing and sends nothing |
| PaxosAcceptor.MissingIdRaises | paxosAlg/acceptor.py:28-57 | a PREPARE or ACCEPT without a proposal id raises TypeError and changes nothing |
| PaxosAcceptor.RunAppend | paxosAlg/node.py:19-20 | processing two batches in turn is processing them together, and a raise stops the batch |
| PaxosAcceptor.RunSafety | paxosAlg/acceptor.py:28-93 | over any run the promise never decreases, the accepted id stays at or below it, every ACCEPTED or LEARN is for an id at least the starting promise, and every positive PROMISE reports an accepted id below its own id |
| PaxosAcceptor.Acceptor.constructor | paxosAlg/acceptor.py:11-17 | a new acceptor has promise -1, accepted id -1 and no value |
| PaxosAcceptor.Acceptor.HandleMessage | paxosAlg/acceptor.py:19-25 | the new state, the messages sent and the outcome are those of OnMessage |
| PaxosAcceptor.Acceptor.HandlePrepare | paxosAlg/acceptor.py:28-51 | the new state, the one PROMISE sent and the outcome are those of OnPrepare |
| PaxosAcceptor.Acceptor.HandleAccept | paxosAlg/acceptor.py:54-93 | the new state, the ACCEPTED and LEARN messages sent and the outcome are those of OnAccept |
| PaxosAcceptor.Acceptor.ProcessMessages | paxosAlg/node.py:13-20 | the acceptor's state and the queue are those of Run over the drained messages |
| PaxosAcceptor.Acceptor.HandleAll | paxosAlg/node.py:19-20 | handling a batch in order gives the state, sends and outcome of Run |
| PaxosLearner.QuorumSize | paxosAlg/learner.py:14 | the quorum is the least number of acceptors strictly more than half |
| PaxosLearner.DecidesAtQuorum | paxosAlg/learner.py:28-48 | a LEARN adds its sender to its (id, value) key's voter set, and it decides with the message's value exactly when that set reaches the quorum |
| PaxosLearner.VoteSeparation | paxosAlg/learner.py:33-38 | votes for different (id, value) keys are never combined |
| PaxosLearner.NonLearnIgnored | paxosAlg/learner.py:22-26 | any message other than LEARN leaves the learner unchanged |
| PaxosLearner.RepeatVoteIgnored | paxosAlg/learner.py:38 | a second LEARN from the same acceptor for the same key changes nothing |
| PaxosLearner.WriteOnce | paxosAlg/learner.py:29-30 | once decided, a learner's state never changes again |
| PaxosLearner.RunConsistent | paxosAlg/learner.py:28-51 | the voter sets stay consistent with the decision over any run |
| PaxosLearner.RunAppend | paxosAlg/node.py:19-20 | processing two batches in turn is the same as processing them together |
| PaxosLearner.TallyIsVoterSet | paxosAlg/learner.py:33-40 | while undecided, each key's count is the set of distinct senders of LEARNs for that key |
| PaxosLearner.DecisionNeedsQuorum | paxosAlg/learner.py:46-48 | a decision is reached only after a quorum of distinct acceptors sent LEARN for one key carrying the decided value |
| PaxosLearner.Learner.constructor | paxosAlg/learner.py:11-20 | a new learner is undecided, has no votes, and has quorum size n div 2 + 1 |
| PaxosLearner.Learner.HandleMessage | paxosAlg/learner.py:22-26 | the new state is OnMessage of the old one |
| PaxosLearner.Learner.HandleLearn | paxosAlg/learner.py:28-51 | the new state is OnLearn of the old one |
| PaxosLearner.Learner.ProcessMessages | paxosAlg/node.py:13-20 | the learner's state is Run over the drained messages, and the queue keeps the others |
| PaxosProposer.Digits | paxosAlg/proposer.py:18 | a character is in the result exactly when it is a digit of the id; the result is never longer than the id |
| PaxosProposer.DigitsAppend | paxosAlg/proposer.py:18 | the digits of a concatenation are the digits of each part in turn, so the id's digits keep their order |
| PaxosProposer.NatToStringRoundTrip | paxosAlg/proposer.py:27 | reading back a natural's decimal text gives the natural |
| PaxosProposer.SeedValue | paxosAlg/proposer.py:18-27 | the base id is the id's digits followed by "00", or (abs(hash) mod 100) * 100 when the id has no digits |
| PaxosProposer.SeedExamples | paxosAlg/proposer.py:25-27 | P1 starts from 100 and P2 from 200 |
| PaxosProposer.RecordSpec | paxosAlg/proposer.py:75 | recording a promise keeps one promise per sender, adds the sender, replaces that sender's earlier promise and keeps all other promises |
| PaxosProposer.ScanHighestSpec | paxosAlg/proposer.py:83-86 | the scan ends at the highest reported accepted id and takes the value of the first promise reporting it, or keeps the start values when none is higher |
| PaxosProposer.PrepareBroadcast | paxosAlg/proposer.py:61-68 | one PREPARE per acceptor carrying the proposal id |
| PaxosProposer.AcceptBroadcast | paxosAlg/proposer.py:100-108 | one ACCEPT per acceptor carrying the proposal id and value |
| PaxosProposer.StartRoundSpec | paxosAlg/proposer.py:46-68 | a start while proposing does nothing; otherwise it increments the id, clears promises and highest values, and sends PREPARE to every acceptor |
| PaxosProposer.PromiseSpec | paxosAlg/proposer.py:71-96 | a stale promise is dropped; otherwise it is recorded, and ACCEPT goes to every acceptor exactly when the distinct promisers reach the quorum, carrying the highest reported value or the proposer's own; at the quorum the highest accepted id and value become the scan's result, below it only the promise table changes, and the id, the flag and the proposer's value stay as they were |
| PaxosProposer.NonPromiseIgnored | paxosAlg/proposer.py:38-44 | ACCEPTED and every other kind of message except PROMISE change nothing and send nothing |
| PaxosProposer.RepeatPromiseResendsAccept | paxosAlg/proposer.py:75-96 | a repeated PROMISE from an acceptor already counted, arriving when the table holds exactly the quorum, sends the ACCEPT broadcast again |
| PaxosProposer.DistinctCard | paxosAlg/proposer.py:34 | the table has one entry per distinct sender |
| PaxosProposer.AtMostOneRound | paxosAlg/proposer.py:48-54 | since is_proposing is never reset, the id rises at most once and later starts do nothing |
| PaxosProposer.RunAppend | paxosAlg/node.py:19-20 | processing two batches in turn is the same as processing them together |
| PaxosProposer.Proposer.constructor | paxosAlg/proposer.py:11-36 | a new proposer has the seeded id, the initial value, is not proposing, has no promises and has highest id -1 |
| PaxosProposer.Proposer.StartProposal | paxosAlg/proposer.py:46-68 | the new state and the PREPAREs sent are those of StartRound |
| PaxosProposer.Proposer.HandleMessage | paxosAlg/proposer.py:38-44 | the new state and sends are those of OnMessage |
| PaxosProposer.Proposer.HandlePromise | paxosAlg/proposer.py:71-96 | the new state and sends are those of OnPromise, with the scan done by a loop |
| PaxosProposer.Proposer.SendAccept | paxosAlg/proposer.py:99-108 | appends the ACCEPT broadcast to the queue |
| PaxosProposer.Proposer.ProcessMessages | paxosAlg/node.py:13-20 | the proposer's state and sends are those of Run over the drained messages |
| PaxosProposer.Proposer.HandleAll | paxosAlg/node.py:19-20 | handling a batch in order gives the state and sends of Run |
| PaxosSystem.LearnerBlind | paxosAlg/learner.py:28-51 | a learner never looks at a message's receiver |
| PaxosSystem.AcceptorRunOut | paxosAlg/acceptor.py:28-93 | an acceptor only sends PROMISE, ACCEPTED and LEARN messages, each with a proposal id |
| PaxosSystem.ProposerRunOut | paxosAlg/proposer.py:46-108 | a proposer only sends PREPARE and ACCEPT messages with a proposal id, to acceptors |
| PaxosSystem.AcceptorRunUniform | paxosAlg/acceptor.py:82-90 | every learner is sent the same LEARN stream by an acceptor, apart from the receiver field |
| PaxosSystem.AcceptorRunOk | paxosAlg/acceptor.py:29 | an acceptor given only messages with a proposal id never raises |
| PaxosSystem.ExecInv | paxosAlg/main.py:43-59 | every schedule of turns keeps the system invariant |
| PaxosSystem.Agreement | paxosAlg/main.py:43-59 | for every schedule from the initial state, two learners that have decided hold the same value |
| PaxosSystem.NeverRaises | paxosAlg/main.py:43-59 | for every schedule from the initial state, no acceptor's turn raises TypeError |
| PaxosScenario.StartStep | paxosAlg/main.py:40 | P1's start sends PREPARE(101) to the five acceptors |
| PaxosScenario.Cycle1 | paxosAlg/main.py:47-48 | the state after the first network cycle |
| PaxosScenario.AfterCycle1Shape | paxosAlg/main.py:47-48 | after cycle 1 every acceptor has promised 101 and accepted nothing, and P1's five ACCEPT(101, Valor_Original_P1) messages are queued |
| PaxosScenario.Cycle2 | paxosAlg/main.py:47-48 | the state after the second network cycle |
| PaxosScenario.LearnsDecide | paxosAlg/learner.py:28-51 | five LEARNs for (101, Valor_Original_P1) make a learner decide that value |
| PaxosScenario.P2StartStep | paxosAlg/main.py:51-52 | P2's start after cycle 2 sends PREPARE(201) |
| PaxosScenario.AfterP2StartShape | paxosAlg/main.py:51-57 | both learners have decided Valor_Original_P1, and only P2's PREPAREs are queued |
| PaxosDriver.AcceptorSetSize | paxosAlg/main.py:14 | five acceptors, quorum three |
| PaxosDriver.SetupWellFormed | paxosAlg/main.py:14-16 | the ids are distinct, and no id belongs to two roles |
| PaxosDriver.NewAcceptors | paxosAlg/main.py:21-23 | five fresh acceptors A1..A5 on the shared network, each knowing the learners |
| PaxosDriver.StartInit | paxosAlg/main.py:21-32 | the state built by main.py satisfies the system's Init and invariant |
| PaxosDriver.Cluster.constructor | paxosAlg/main.py:21-32 | builds the nodes of main.py, sharing an empty network, in the initial state |
| PaxosDriver.Cluster.AcceptorStep | paxosAlg/main.py:47-48 | one acceptor's process_messages, as the system step |
| PaxosDriver.Cluster.LearnerStep | paxosAlg/main.py:47-48 | one learner's process_messages, as the system step |
| PaxosDriver.Cluster.ProposerStep | paxosAlg/main.py:47-48 | one proposer's process_messages, as the system step |
| PaxosDriver.Cluster.ProposerStartStep | paxosAlg/main.py:40 | a start_proposal, as the system step |
| PaxosDriver.Cluster.RunCycle | paxosAlg/main.py:47-48 | one pass over all_nodes is one system cycle, keeps the invariant and raises nothing |
| PaxosDriver.Simulate | paxosAlg/main.py:12-59 | the simulation stops after two cycles with both learners holding Valor_Original_P1, raises nothing, and leaves P2's PREPARE(201) messages pending |
| Raft.Follow | RaftAlgorithm/main.go:249-254 | becoming follower sets the role, adopts the term and clears the vote |
| Raft.Lead | RaftAlgorithm/main.go:238-247 | becoming leader sets the role and keeps term and vote |
| Raft.LeadIdempotent | RaftAlgorithm/main.go:239-241 | becoming leader twice is becoming leader once |
| Raft.Election | RaftAlgorithm/main.go:148-153 | starting an election makes the server a candidate in the next term, voting for itself |
| Raft.Elected | RaftAlgorithm/main.go:192 | a candidate wins exactly when its votes are more than half the peers |
| Raft.MajoritiesOverlap | RaftAlgorithm/main.go:192 | two sets of voters drawn from the same peers, each large enough to win, share at least one voter |
| Raft.OnRequestVote | RaftAlgorithm/main.go:281-310 | replies with the new term, rejects and changes nothing for a stale term, follows a newer term, and grants exactly when the term is newer or the vote is free or already given to that candidate |
| Raft.NewerTermFollowsFirst | RaftAlgorithm/main.go:293-307 | a request from a newer term is handled as if the server first became a follower in that term, and it is always granted |
| Raft.OnAppendEntries | RaftAlgorithm/main.go:313-336 | succeeds exactly when the term is not stale; success makes the server a follower in the leader's term; failure changes nothing |
| Raft.OnVoteReply | RaftAlgorithm/main.go:176-196 | a newer reply term makes the server a follower of that term with no vote and no new count; otherwise a reply counts only if it grants a vote to a candidate still in the election's term, and then the server becomes leader exactly when the new count wins; every other reply changes nothing |
| Raft.OnHeartbeatReply | RaftAlgorithm/main.go:224-231 | a reply with a newer term makes the leader a follower of that term with no vote; any other reply changes nothing |
| Raft.Step | RaftAlgorithm/main.go:147-336 | no event lowers the current term |
| Raft.TermMonotone | RaftAlgorithm/main.go:147-336 | currentTerm never decreases over any run of events |
| Raft.OneVotePerTerm | RaftAlgorithm/main.go:297-307 | over any run, a server grants its vote in a term to at most one candidate |
| Raft.RaftServer.constructor | RaftAlgorithm/main.go:84-94 | a new server is a follower in term 0 with no vote and an empty log |
| Raft.RaftServer.BecomeFollower | RaftAlgorithm/main.go:249-254 | the new state is Follow of the old one |
| Raft.RaftServer.BecomeLeader | RaftAlgorithm/main.go:238-247 | the new state is Lead of the old one |
| Raft.RaftServer.StartElection | RaftAlgorithm/main.go:147-161 | the new state is Election of the old one, the own vote is counted and the peers are counted |
| Raft.RaftServer.HandleVoteReply | RaftAlgorithm/main.go:176-196 | new state and vote count are those of OnVoteReply |
| Raft.RaftServer.HandleHeartbeatReply | RaftAlgorithm/main.go:224-231 | new state is OnHeartbeatReply of the old one |
| Raft.RaftServer.RequestVote | RaftAlgorithm/main.go:281-310 | new state and reply are those of OnRequestVote |
| Raft.RaftServer.AppendEntries | RaftAlgorithm/main.go:313-336 | new state and reply are those of OnAppendEntries |
| Raft.RaftServer.Handle | RaftAlgorithm/main.go:147-336 | a handled event changes the state as Step says |
| FtpDetector.AfterSpec | bhp/detect_FTP_BF.py:26-29 | pruning keeps exactly the timestamps after the cutoff, in their original order |
| FtpDetector.AfterKeepsLast | bhp/detect_FTP_BF.py:23-29 | a timestamp after the cutoff that was just appended survives pruning, at the end |
| FtpDetector.AfterAbove | bhp/detect_FTP_BF.py:28 | every kept timestamp is after the cutoff |
| FtpDetector.AfterConcat | bhp/detect_FTP_BF.py:26-29 | pruning a concatenation prunes each part |
| FtpDetector.AfterAll | bhp/detect_FTP_BF.py:26-29 | a list entirely inside the window is kept whole |
| FtpDetector.IgnoredPacket | bhp/detect_FTP_BF.py:15-20 | a packet that is not TCP to port 21 with "USER" or "PASS" in its payload changes nothing and raises no alert |
| FtpDetector.LoginAttemptUpdate | bhp/detect_FTP_BF.py:21-29 | a login attempt appends now to its source's list and prunes to the 60-second window; no other source's list changes |
| FtpDetector.AlertRule | bhp/detect_FTP_BF.py:32-34 | an alert is raised exactly for a login attempt whose source then has more than ten attempts in the window |
| FtpDetector.BurstKept | bhp/detect_FTP_BF.py:14-29 | a burst of attempts from one source, all within one window, is still all in its list after the last one |
| FtpDetector.BurstAlerts | bhp/detect_FTP_BF.py:14-34 | more than ten attempts from one source within 60 seconds make the last of them raise an alert |
| FtpDetector.Detector.constructor | bhp/detect_FTP_BF.py:11 | the table starts empty |
| FtpDetector.Detector.Prune | bhp/detect_FTP_BF.py:26-29 | the loop keeps exactly what After keeps |
| FtpDetector.Detector.DetectFtpBruteForce | bhp/detect_FTP_BF.py:14-34 | the table becomes Update of the old one and the alert is AlertOf the new one |
| XorCipher.LowByte | PaxosAlgorithm/ByzantinePaxosRs/ports/crypto.rs:6 | `as u8` keeps the code modulo 256 |
| XorCipher.XorBelow | PaxosAlgorithm/ByzantinePaxosRs/ports/crypto.rs:6 | the xor of two bytes is a byte |
| XorCipher.XorCancel | PaxosAlgorithm/ByzantinePaxosRs/ports/crypto.rs:6 | (a xor b) xor b is a |
| XorCipher.XorChar | PaxosAlgorithm/ByzantinePaxosRs/ports/crypto.rs:6 | a char combines to the char whose code is the xor of the two low bytes, below 256 |
| XorCipher.ZipCycleIndex | PaxosAlgorithm/ByzantinePaxosRs/ports/crypto.rs:4-5 | the zip has one pair per data char when the key is nonempty, pairing data[i] with key[i mod key length], and none for an empty key |
| XorCipher.Encrypt | PaxosAlgorithm/ByzantinePaxosRs/ports/crypto.rs:2-8 | the output has one char per data char (none for an empty key); char i is data[i] xor key[i mod key length]; every output char is below 256 |
| XorCipher.Decrypt | PaxosAlgorithm/ByzantinePaxosRs/ports/crypto.rs:9-15 | the same description as encryption |
| XorCipher.DecryptIsEncrypt | PaxosAlgorithm/ByzantinePaxosRs/ports/crypto.rs:2-15 | decryption is the same function as encryption |
| XorCipher.RoundTrip | PaxosAlgorithm/ByzantinePaxosRs/ports/crypto.rs:2-15 | with a nonempty key, decrypting the encryption of single-byte data gives the data back |
| XorCipher.EmptyKey | PaxosAlgorithm/ByzantinePaxosRs/ports/crypto.rs:5 | with an empty key both directions return the empty string |
| XorCipher.WideCharLost | PaxosAlgorithm/ByzantinePaxosRs/ports/crypto.rs:6 | the char U+0100 encrypted and decrypted with key "k" comes back as U+0000 |
| XorCipher.XorLow | PaxosAlgorithm/ByzantinePaxosRs/ports/crypto.rs:6 | the corrected char xor keeps the high bits and mixes the low byte with the key's |
| XorCipher.XorLowTwice | PaxosAlgorithm/ByzantinePaxosRs/ports/crypto.rs:6 | the corrected char xor undoes itself |
| XorCipher.WideRoundTrip | PaxosAlgorithm/ByzantinePaxosRs/ports/crypto.rs:2-15 | with a nonempty key, the corrected cipher applied twice gives back any string |

## Left out

- Logging and console output are not modelled: every `print`, `log.Printf`, the banners of `main.py`, and `config_logs.py`. The same goes for `time.sleep` between cycles.
- PaxosProposer.Digits: only the ASCII digits '0'..'9' count as digits. Python's `str.isdigit` also accepts other Unicode digits. So an id such as "P٣" seeds 300 in the source but takes the hash fallback in the model. An id such as "P²" makes `int("²00")` raise ValueError in the source but gets a seed in the model.
- PaxosProposer.SeedId takes the value of Python's `hash(node_id)` as a parameter, because the hash is randomised per process.
- Sets are iterated in one fixed order. The Python id sets (the learner ids in an acceptor, the acceptor ids in a proposer) are iterated in an order the interpreter chooses. The model uses sequences of distinct ids in a fixed order, and the driver uses A1..A5, L1, L2. So `PaxosProposer.Proposer.constructor` requires distinct acceptor ids, as a Python set guarantees. The promise dictionary is not affected: a Python dictionary iterates in insertion order and an overwritten key keeps its place, which is what `PaxosProposer.Record` does.
- Once an exception is raised inside `process_messages`, no further messages are handled. The model stops at the raise and records it as the outcome, because what the interpreter does with the exception afterwards is outside the simulation.
- Reordering, loss and duplication of messages are not modelled, because the simulated network delivers in order. Liveness is not modelled either.
- `PaxosSystem.World.delivered` is proof bookkeeping: it holds the messages each learner has received, and the source has no such field.
- Raft's RPC transport, `sendRPC` and the goroutines are not modelled. A reply reaches the model as a parameter of `HandleVoteReply` or `HandleHeartbeatReply`.
- Raft's election timer, `resetElectionTimer`, `runElectionTimer` and the mutex are not modelled, because they concern timing and concurrency.
- Raft's `sendHeartbeats` is modelled only through its reply handling, because the sending itself is transport.
- Raft's log entries carry no command, because no handler reads or writes the log. `lastLogIndex` and `lastLogTerm` are carried but unused, as in the source.
- Raft's `main` is not part of this model, because it only starts servers and the network.
- Raft.OnRequestVote: Go's `int` is unbounded in the model, so the overflow of a term past the 64-bit maximum is not modelled.
- The FTP detector's `scapy` sniffing, packet parsing and the UTF-8 decoding of the payload are not modelled. The payload is given as already-decoded chars.
- The FTP detector's `datetime.now()` is passed in as `now`, an integer count of microseconds.
- The FTP detector's alert is returned rather than printed. The sniffing `main` is not part of this model.
- XorCipher.Encrypt: Rust's `String` is modelled as a sequence of chars. Its UTF-8 byte encoding is not modelled, because the code only iterates `chars()`.
- The rest of the repository is not part of this model.

## Findings

| source | as written | input that shows it | evidently intended | confidence | as-written member | corrected member |
|---|---|---|---|---|---|---|
| PaxosAlgorithm/ByzantinePaxosRs/ports/crypto.rs:6 | `(d as u8) ^ (k as u8)` drops every bit of a char above the low byte, so decryption of an encryption is the identity only on single-byte text | data "Ā" (U+0100), key "k": encrypt gives "k", decrypt gives U+0000 | decrypt(encrypt(data, key), key) == data for every string, for example by XORing only the low byte and keeping the high bits | not executed | XorCipher.WideCharLost | XorCipher.WideRoundTrip |
