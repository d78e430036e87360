# A verified model of the Raft simulator

This project models a deterministic Raft implementation and the simulated world it runs in: the consensus core (elections
with Pre-Vote and stickiness, CheckQuorum, log replication with conflict-index backup, commit by majority median,
compaction, snapshot installation, single-server membership change, leadership transfer), the simulated disk, the
key-value store with client sessions on top of it, the clients, the linearizability checker, and the log-chain scan of
the invariant checker. It states and proves what the original promises about them.

## How it is laid out

Values and vocabulary: `RaftTypes`, `Bytes`, `Strings`, `LogSpec`, `ConfSpec`.

- The node. `NodeSpec` says, as functions on values, what each handler does to a node. `RaftLog` and `Node` are the
  program's form: classes whose fields are updated in place, with the original's loops, each method proved to move the
  node exactly as `NodeSpec` says. A panic of the original is a sticky flag in the state; nothing is claimed after it,
  and `ClusterTheorems.NoPanic` shows that no run of a cluster with fixed voters raises it.
- What one Step does, said without its handlers: `Voting` (campaigns, votes and answers to them), `Founding` (who comes to
  lead, and with what log), `Ticks` (CheckQuorum, heartbeats, who counts as heard from), `Requests` (AppendEntries at a
  follower), `Catchup` (acknowledgements and batches at a leader, until a follower has the whole log), `Snapshots`,
  `Commands` (proposals, changes of voters, transfers) and `CommitRule`. `Sending` is what they share about messages.
- The disk. `Storage` has the written disk as a function and the class `Durable` proved against it. `DiskRefinement`
  shows, for any input, that the disk mirrors the node after every Step.
- The cluster. `Cluster` is a transition system: servers that are up or down, and a network that is the set of all
  messages ever sent, so that loss, repetition and reordering need no transitions of their own. A crash may strike at any
  moment, at the fsync boundary too, where it erases the whole Step. The proof that Raft is safe carries a history no
  program keeps (`Ghosts`): every leader's log, all votes, the logs candidates ended with, and how far each node has
  acknowledged each leader. `SafetyInv` says what holds of each node and message in terms of it; `HistorySteps`,
  `SafetyLogs`, `SafetySteps`, `SafetyReplication` and `SafetyRestart` prove that every handler keeps it; `ClusterSafety`
  lifts that to runs, and `ClusterTheorems` states the results without the history.
- Membership. `ConfReplay` and `Membership` prove, for any node on any input, that the cached configuration is the replay
  of the log, and how a leader changes it. `MembershipRuns` lifts that to whole runs in which servers are added and
  removed at any time.
- Fast backup. `FastBackup` proves that probing ends, first for logs, then for the messages that the handlers exchange.
- The store. `KV` and `Codec` hold the store, its sessions and its codec, as functions and as the loops of the original.
- The system. `System` puts a store on every server of the cluster and retrying clients around it; `Server` and `Clients`
  are the program's form of the same, and `Events` shows that whatever their methods come to is an event of the system.
  `Replay` says which store a log prefix stands for. `SystemSafety` proves that every event keeps every store a replay and
  every answer true, and `SystemTheorems` concludes that replicas equal replay, that client histories are linearizable and
  that no command takes effect twice.
- The checkers. `Histories` defines linearizability, `Locality` proves that it may be decided key by key, `LinearSearch`
  is the memoised search over a mask updated in place, `LinearCheck` the whole checker, proved exact. `ChainScan` is the
  incremental scan of log chains, and `ScanRuns` compares it with a full scan over Steps, events and runs.

## Assumptions

- Theorems about runs of the cluster and of the system are for fixed voters: no membership change is offered there. Those
  of `MembershipRuns` are for runs with membership changes; there a Step that would panic has no successor, since a panic
  ends the program, and there are fewer than 2^32 servers, under 64-bit identifiers.
- Clients send commands whose numbers have 64 bits and whose strings are shorter than 2^32 - 4 bytes, and snapshots are
  taken of stores with fewer than 2^32 keys and sessions. Outside these bounds the codec does not give back what it was
  given, which `Codec.CommandRoundTrip` and `Codec.StoreRoundTrip` state exactly.
- Ticks, random timeouts, clocks, deliveries, crashes and the contents of client operations are arbitrary choices. The
  random source is a function from draws to numbers.

## Where the code and what is said about it differ

- The incremental invariant check is said to find the same violations as a full one (checker/invariants.go:69-70). That
  holds after any one Step. The simulator checks once per event, and an event may take a Step and then a snapshot; if the
  Step replaced entries and the snapshot compacts past the first of them, the scan can miss a violation.
  `ScanRuns.CompactionCanHide` gives the node, the request and the snapshot, `ChainScan.IncrementalIffFull` the exact
  condition. Log matching keeps such a request out of every run of fixed voters (`ScanRuns.ScansInFullInRuns`), so it
  takes the kind of fault the check is there to find.
- Sessions deduplicate commands numbered from 1; number 0 is applied every time (`KV.ZeroNotProtected`).
- The checker treats an answered operation whose answer precedes its invocation as having no place in any order. The
  definition of linearizability used here says the same, so exactness needs no hypothesis; `Histories.Textbook` shows that
  it is the usual definition whenever operations are invoked before they are answered.
- An AppendEntries request that begins below the follower's snapshot point and goes on beyond it is compared at the
  snapshot point with the term the leader sent for the earlier index (raft/node.go:540-551). `Requests.FittingRejected` and
  `Requests.UnfitAccepted` give the exact conditions under which the answer is wrong, `Requests.MatchRejected` an input. In
  runs of fixed voters such a request always fits, so a rejection of one is always needless (`Requests.AnswersInRuns`).
- A leader's `match` need not hold for a server that has gone on to a later term: `Requests.AckedThenReplaced` is an input,
  `ClusterTheorems.AgreesThroughMatch` the exact condition. What is committed stays (`ClusterTheorems.CommittedMatchStays`).

## Model

| member | source | states |
|---|---|---|
| ClusterTheorems.ElectionSafety | raft/node.go:481-520 | at any two moments of any run, with loss, repetition, reordering, fsync-boundary crashes and restarts, two leaders of one term are one server |
| ClusterTheorems.NoSecondReign | raft/node.go:222-256 | a server that stopped leading a term, by stepping down or crashing, never leads that term again |
| ClusterTheorems.LeaderAppendOnly | raft/node.go:771-779 | while a leader stays in its term its log only grows and what it held is unchanged |
| ClusterTheorems.LogMatching | raft/node.go:536-587 | two durable logs of any two moments with one term at an index hold the same entries up to it, wherever both still retain them |
| ClusterTheorems.LiveLogIsDurable | sim/server.go:46-58 | after every event a live server's disk holds exactly its term, vote, snapshot and log, so the other theorems speak of live logs too |
| ClusterTheorems.LeaderCompletenessOverRuns | raft/node.go:459-489 | whatever a server of term T has committed, every leader of a later term holds, whenever either is looked at |
| ClusterTheorems.StateMachineSafety | raft/node.go:745-752 | no two entries handed to state machines for one index, on any servers at any moments, differ |
| ClusterTheorems.NoPanic | raft/node.go:565-587 | no panic of the node is reachable (committed index truncated, append gap, missing snapshot, missing previous term), and no fsync finds a gap |
| ClusterTheorems.CommittedIsDurable | raft/node.go:708-742 | what is committed at one moment is on the disks of a majority then and at every later moment, whatever crashes |
| ClusterTheorems.TruthfulProgress | raft/node.go:607-627 | what a server not past its leader's term has on disk agrees with the leader's log through `match` |
| ClusterTheorems.CommittedMatchStays | raft/node.go:607-627 | what a leader counts as matched and has committed stays on the server's disk, whatever term the server goes on to |
| ClusterTheorems.AgreesThroughMatch | raft/node.go:607-627 | for servers of any term, a disk agrees with a leader through `match` if and only if the server is not past the term, or what is matched is committed or compacted away, or the disk still shows the leader's term there |
| Requests.AckedThenReplaced | raft/node.go:563-587 | an input at which the condition fails: an uncommitted entry acknowledged in one term is replaced on the request of a later leader |
| CommitRule.CommitsByRule | raft/node.go:722-736 | in every run, an event that leaves a leader in its term leaves its commit index or moves it forward to the largest index recorded on a majority, an entry of its own term |
| CommitRule.CommitIsCurrent | raft/node.go:708-742 | in every run, at every moment, no index above a leader's commit index is recorded on a majority and of its own term |
| CommitRule.StepRuled | raft/node.go:708-742 | one Step of a leader without a learner, on any input that leaves it in its term, commits by that rule |
| CommitRule.StepCurrent | raft/node.go:708-742 | one Step of any node on any input leaves nothing uncommitted that the rule lets a leader commit |
| CommitRule.CommitHeld | raft/node.go:708-742 | in every run, where a leader moves its commit index in its term, a majority of the voters, itself counted, is known to hold that index, and the entry is of its own term |
| CommitRule.NothingHeldBack | raft/node.go:708-742 | in every run, no index above a leader's commit index that is of its own term is known to be held by a majority |
| ClusterTheorems.BackupInRuns | raft/node.go:639-657 | in every run a fresh rejection by a server not past the leader's term strictly lowers `next` and keeps it above `match` |
| ClusterTheorems.ProbingEndsInRuns | raft/node.go:550-562 | in every run, exchanging probe and answer with a server of the leader's term or an earlier one, through the real handlers, lowers the probe each time, changes no log, and ends where the probe matches or the leader sends its snapshot |
| Requests.AnswersInRuns | raft/node.go:540-562 | in every run a request is accepted only when it fits, one that straddles the snapshot point always fits, and one that fits is rejected if and only if it straddles and the terms before and at the snapshot point differ |
| Requests.FittingRejected | raft/node.go:540-551 | for any node and request: one that fits is rejected if and only if it straddles the snapshot point, agrees there, and the term before differs |
| Requests.UnfitAccepted | raft/node.go:540-551 | for any node and request: one that does not fit is accepted if and only if it straddles the snapshot point, differs there, and the term before agrees |
| Requests.MatchRejected | raft/node.go:540-551 | an input: snapshot point 2 of term 2, a request from index 1 of term 1 with the very entries the server has, rejected |
| Voting.VoteAnswered | raft/node.go:467-490 | one Step answers any request for a vote, of any term: granted if and only if the vote of that term is free or the sender's and the sender's log reaches the node's own, term first; what was granted is in the order for the disk |
| Voting.PreVoteAnswered | raft/node.go:467-480 | a Pre-Vote is answered by the same comparison and changes neither term nor vote nor anything durable |
| Voting.AnswerCounted | raft/node.go:509-520 | a candidate leads if and only if a majority of the voters has now granted, gives up if and only if a majority has refused, and otherwise just remembers the answer; a new leader appends its first entry and sends it to every other voter |
| Voting.MajorityElects | raft/node.go:509-520 | granting answers in any order, one Step each: the candidate ends up leading if and only if they make a majority |
| Voting.ElectionSucceeds | raft/node.go:279-315 | a whole election through the Steps of all nodes: everyone is asked, those with a free vote and a log no better grant it, and the candidate leads if and only if they are a majority with itself |
| Voting.PreAnswerCounted | raft/node.go:494-508 | a node that asked first stands if and only if a majority grants, gives up if and only if a majority refuses, and other answers do not count |
| Voting.TimerRuns | raft/node.go:341-350 | until its election timer runs out, or if it is no voter, a tick only moves the timer |
| Voting.TimerEnds | raft/node.go:279-315 | when the timer runs out the node stands, or first asks without changing term or vote, and asks every other voter under the end of its log |
| Voting.ToldToStand | raft/membership.go:104-111 | the target of a transfer stands at once, without Pre-Vote, and its requests override stickiness |
| Voting.SoleVoterLeads | raft/node.go:279-301 | the only voter elects itself in one tick and commits its first entry |
| Voting.EarlierTerm | raft/node.go:429-439 | a message of an earlier term changes nothing; leaders and candidates of then are told the term |
| Voting.LaterTerm | raft/node.go:405-428 | an answer of a later term makes a follower without a vote of any node, and the term is in the order for the disk |
| Founding.StepCrowns | raft/node.go:258-275 | one Step on any input: whoever comes to lead has an entry of that term at the end of its log, and only a voter comes to stand |
| Founding.LeaderFounded | raft/node.go:279-315 | in every run only voters stand or lead, and a leader's log ends with an entry of its own term |
| Founding.NodeStarts | raft/node.go:92-130 | a node starts as a follower under the term and vote it has saved, knowing no leader, with a full new timer and batches of 64 unless told otherwise |
| Ticks.QuorumChecked | raft/node.go:352-380 | a tick ends a reign if and only if the check is due and those heard from, counted as a set with the leader itself, are no majority; otherwise it goes on, with heartbeats to everyone exactly when due |
| Ticks.MarkedIffAnswered | raft/node.go:607-615 | one Step of any leader on any input: a follower counts as heard from if and only if it did, or has just answered, and no check has begun anew |
| Ticks.HeardSinceCheck | raft/node.go:362-380 | over a whole reign a follower counts as heard from if and only if an answer of it was taken since the last check |
| Catchup.RequestCarries | raft/node.go:681-705 | a request carries the next entries of the leader's log, all that are left or one message full, and at least one when any is left |
| Catchup.AcceptedRaises | raft/node.go:616-637 | through the Steps of both, a request that matches raises `match` by all that were left or one message full, and the next one leaves at once |
| Catchup.AcknowledgementTaken | raft/node.go:616-637 | an acknowledgement raises `match` and `next` to exactly what it says, clears the mark of a snapshot on its way, touches no other follower's, and what remains is sent at once |
| Catchup.CatchesUpInRuns | raft/node.go:607-659 | in every run a leader and a live server not past its term that exchange messages without loss come, through rejections, batches and the snapshot, wherever the probe stands, to where the server has the leader's whole log and the leader knows it |
| Requests.EntriesTaken | raft/node.go:563-600 | a request that matches leaves the log alone if it holds all of it, otherwise cuts at the first entry not held and puts the rest there; the commit index follows the leader's as far as the request reaches |
| Requests.NothingTaken | raft/node.go:540-561 | a request that is rejected, or covered by the snapshot, leaves log and commit index alone |
| Requests.LeaderHeard | raft/node.go:524-534 | any request of its term or a later one makes a follower of the node, which knows its leader and starts its timer anew |
| Snapshots.SnapshotInstalled | raft/snapshot.go:45-81 | one Step on a leader's snapshot: nothing if it covers nothing new; otherwise committed and applied reach its point, the rest of the log is kept if the log has that point, and everything is replaced if not |
| Snapshots.SnapshotAnswered | raft/snapshot.go:55-81 | it is answered with the index the node then has for certain: the snapshot's, or its commit index if that is beyond |
| Snapshots.SnapshotMade | raft/snapshot.go:13-29 | a snapshot of applied state becomes the node's, with the configuration of its index, and the log shows the same from there on; an old index changes nothing, one not applied or not in the log panics |
| Snapshots.SnapshotOnce | raft/snapshot.go:33-42 | a follower is sent one snapshot at a time |
| Commands.Proposed | raft/node.go:756-769 | a proposal is taken exactly by a leader not handing over: it becomes the next entry under its term, is answered with index and term, and is sent to everyone; otherwise nothing happens but a hint |
| Commands.ChangeRefused | raft/membership.go:12-37 | a change of voters is refused unless a leader that is not handing over has its last change committed, no learner waits, and the change makes sense |
| Commands.ServerAdded | raft/membership.go:24-34 | a server to add is replicated to as a learner, and the configuration stays as it is |
| Commands.ServerRemoved | raft/membership.go:35-52 | a voter to remove is left out of the configuration appended next, and is no longer replicated to |
| Commands.LearnerPromoted | raft/membership.go:59-75 | a learner's acknowledgement makes it a voter, by the entry appended next, if and only if it then has the whole log |
| Commands.LeftOutStepsDown | raft/membership.go:77-83 | a leader its latest configuration leaves out goes on until that is committed, and then steps down |
| Commands.TransferStarts | raft/membership.go:87-103 | leadership is handed over exactly by a leader to another voter, which is told to stand if it has the whole log and else sent what it lacks |
| Commands.TransferCompletes | raft/node.go:628-632 | the acknowledgement that brings the target up to date makes the leader tell it to stand, and no other does |
| MembershipRuns.DisciplineInRuns | raft/membership.go:12-75 | in every run with membership changes, an event that leaves a leader in its term leaves its configuration alone or changes exactly one voter while the last change is committed, and majorities of the two configurations share a voter |
| MembershipRuns.CommitsAreCurrent | raft/node.go:708-742 | with membership changes too, no index above a leader's commit index is recorded on a majority of its voters and of its own term |
| MembershipRuns.ConfigurationsOrderly | raft/membership.go:113-130 | in every run with membership changes, every configuration entry on any disk can be read and is nonempty and strictly ascending, and so are those of snapshots and live servers |
| MembershipRuns.MessagesOrderly | raft/node.go:681-705 | in every run with membership changes, every configuration entry in a message can be read and is nonempty and strictly ascending |
| MembershipRuns.MirrorsAndReplays | raft/conf.go:38-70 | in every run with membership changes, disks mirror live servers after every event, and the cached configuration, and that at every index, is the replay of the log |
| MembershipRuns.RestartsSurvive | raft/node.go:114-127 | in every run with membership changes, no restart panics and each recovers what was last made durable |
| MembershipRuns.StepSound | raft/membership.go:12-75 | one Step on any known input keeps every configuration in log, history, snapshot and messages orderly and of existing servers |
| ScanRuns.ScansInFullInRuns | checker/invariants.go:246-308 | in every run of fixed voters, the scan from the resume point finds the same violations and leaves the same map as a full scan, whatever happened since the server was last observed |
| ScanRuns.NoViolation | checker/invariants.go:246-308 | in no run of fixed voters does the log-chain check report a violation, whichever servers are looked at in whatever order, at whatever moments and from whatever index on |
| SystemTheorems.ReplicasAreReplays | sim/app.go:44-65 | one committed log such that at every moment each live server's store equals its replay through what that server has applied, however it got there |
| SystemTheorems.HistoriesLinearizable | sim/client.go:123-191 | the history clients record is linearizable at every moment of every run |
| SystemTheorems.ExactlyOnce | sim/app.go:21-32 | the simulator's own check never fails: in no run is a command seen to take effect at two indexes, on any servers |
| SystemTheorems.NothingUndecodable | sim/app.go:14-47 | no run meets a command or a snapshot it cannot read, on any disk or in what any Step hands over |
| SystemTheorems.CheckRun | checker/linear.go:48-65 | so the checker reports no violation on the history of any run |
| SystemTheorems.OperationIsCommand | checker/linear.go:68-102 | the checker's register and the store do the same, and an answered operation is explained if and only if its record agrees with the store's answer: value and success of a Get, success of a CAS, and the value seen by a failed one |
| SystemTheorems.AnswersTold | kv/kv.go:78-93 | in every run every answered Put succeeded, and no answer to a Put, to a Get that found nothing or to a successful CAS carries a value |
| LinearCheck.CheckLinearizable | checker/linear.go:49-65 | no violation if and only if the whole history is linearizable; otherwise the least key whose part is not |
| LinearCheck.CheckKey | checker/linear.go:109-183 | exact for one key: true if and only if a linearization exists, for every history |
| Locality.LocalityTheorem | checker/linear.go:49-65 | a history is linearizable if and only if its projection to every key is |
| LinearSearch.KeySearch.Dfs | checker/linear.go:128-181 | the search returns true if and only if the rest can be linearized, puts everything back on failure, and memoises dead ends only |
| ClusterSafety.NextSafe | sim/sim.go:277-342 | every transition of the cluster keeps the global invariant, for a history that only grows |
| ClusterSafety.RunExplained | sim/sim.go:315-342 | every run of any length has a growing history that explains each of its states |
| Ghosts.LeaderCompleteness | raft/node.go:459-520 | what a majority acknowledged in one term is in the log of every later leader, from votes, candidacies and acknowledgements alone |
| Ghosts.CommittedConsistent | raft/node.go:708-752 | committed prefixes of any two terms never contradict each other |
| SafetyRestart.StepSafe | raft/node.go:159-200 | one Step on any input a cluster of fixed voters can offer keeps a node's promises, acknowledgements, progress and outputs true |
| SafetyRestart.RestartSafe | raft/node.go:92-130 | a node rebuilt from its disk keeps every promise it made before the crash |
| SafetyReplication.HandleAppSafe | raft/node.go:524-600 | accepting entries never removes a committed or owed entry, and every success acknowledges a true match |
| SafetyReplication.InstallSnapshotSafe | raft/snapshot.go:45-81 | each of the three cases of snapshot installation keeps the committed prefix and what the node owes |
| SafetySteps.MedianCommitted | raft/node.go:712-733 | the quorum position of the sorted match indexes, in the leader's own term, names an entry a majority has acknowledged |
| SafetyLogs.MedianIsQuorumValue | raft/node.go:722-728 | the number at the quorum position after sorting is exactly the largest that a quorum reaches |
| SafetyLogs.LogsMatch | raft/node.go:550-562 | two logs of one history that show one term at an index agree up to it, compacted entries included |
| HistorySteps.ElectStep | raft/node.go:258-275 | a candidate with a quorum is the first leader of its term and holds all that could have been committed before |
| HistorySteps.VoteStep | raft/node.go:481-489 | granting a vote keeps one vote per term, and only candidates whose logs reach the voter's acknowledgements get one |
| DiskRefinement.StepMirrors | raft/node.go:182-197 | for every input whatever, a disk equal to the node's durable state stays equal once the Step's order is applied, without hitting the continuity panic |
| DiskRefinement.RestartRecovers | raft/node.go:103-129 | a restart from a mirror never panics, and recovers term, vote, snapshot and log |
| DiskRefinement.WriteMirrors | storage/storage.go:23-62 | hard state, then snapshot, then entries: the order a Step marks dirty is exactly the difference between old and new durable state |
| Storage.Durable.Apply | storage/storage.go:23-62 | the in-place disk after one order is the written disk, and the result tells whether the continuity panic is hit |
| Storage.Durable.DropThrough | storage/storage.go:37-40 | the loop drops exactly the leading entries up to the snapshot index |
| Storage.Durable.ReplaceFrom | storage/storage.go:43-61 | existing entries below the first new one are kept, the rest replaced, and a gap is reported exactly when there is one |
| Storage.Durable.Restored | storage/storage.go:65-75 | what a restart reads is what was made durable |
| Storage.GapExactly | storage/storage.go:43-61 | on a disk without a gap, new entries are refused exactly when they would leave one or reach below the snapshot |
| LogSpec.Log.FirstIndexOfTerm | raft/log.go:107-117 | the start of the run: everything from it on has the term, what is before it does not |
| LogSpec.Log.LastIndexOfTermFrom | raft/log.go:120-131 | an index with the term, all later ones larger; 0 otherwise |
| LogSpec.FirstConflict | raft/node.go:565-569 | everything before it is already held with the same term, it itself is not |
| LogSpec.SliceTakes | raft/log.go:45-59 | a slice has as many entries as there are from lo below hi, at most the cap, and the k-th is the one at lo + k |
| FastBackup.RejectionBacksUp | raft/node.go:639-657 | for any two logs of one history and truthful progress, a rejection strictly lowers the probe and never to `match` or below |
| FastBackup.RejectionStaysAbove | raft/log.go:107-131 | a rejection never takes the probe to the follower's snapshot point or below, where the leader's log goes through that point |
| FastBackup.FinalProbe | raft/node.go:639-657 | repeated probing ends at a match or where the leader sends its snapshot |
| FastBackup.RejectedExchange | raft/node.go:639-657 | one rejected exchange of Steps: the follower keeps its log, the leader takes the hints, and the next probe or the snapshot leaves at once |
| FastBackup.MatchedAnswer | raft/node.go:563-600 | a probe that matches is acknowledged through its last entry |
| FastBackup.ExchangesEnd | raft/node.go:639-657 | exchange after exchange the probe falls until it matches or the snapshot is sent |
| FastBackup.HintUsed | raft/node.go:639-657 | the next probe is behind the leader's own last entry of the conflicting term if it has one, otherwise where the follower said, never past the end or at what is matched |
| ConfReplay.TruncateReplays | raft/conf.go:53-60 | rolling the history back keeps it the replay of the cut log |
| ConfReplay.CompactReplays | raft/conf.go:73-77 | pruning the history keeps it the replay of the compacted log |
| ConfReplay.CachedIsReplay | raft/conf.go:38-49 | the cached configuration is the base updated by the log's configuration entries in order |
| ConfReplay.ConfigAtIsReplay | raft/conf.go:63-70 | the configuration at an index is the base updated by the entries up to it |
| Membership.StepKeepsConf | raft/node.go:159-200 | on any input the history stays the replay of the log, and a learner exists only in a leader whose last configuration entry is committed, outside the voters |
| Membership.StepKeepsBase | raft/snapshot.go:24-27 | the base stays the snapshot's configuration, provided a snapshot installed with the suffix kept agrees with the local history |
| Membership.OwnSnapshotAgrees | raft/snapshot.go:13-29 | the application's own snapshots always meet that condition |
| Membership.RestartRecoversConf | raft/node.go:114-127 | a restart never panics, and recovers the configuration and the one in force at every index the log still tells |
| Membership.StepKeepsApplied | raft/node.go:588-598 | between Steps everything committed has been handed to the state machine |
| Membership.MembershipDiscipline | raft/membership.go:12-75 | on any input that leaves a leader in its term, nothing changes or exactly one voter does, to a nonempty strictly ascending configuration, with the previous configuration entry committed, the delayed promotion included |
| Membership.InsertAscending | raft/membership.go:113-130 | inserting a new voter keeps strict order and adds exactly that voter |
| Membership.MajoritiesOverlap | raft/types.go:86 | majorities of configurations one voter apart share a voter |
| ConfSpec.ConfigRoundTrip | raft/conf.go:12-28 | every configuration of 64-bit identifiers survives encoding |
| NodeSpec.TimeoutOf | raft/node.go:210-212 | the randomised timeout is at least the base and less than twice as long |
| Histories.Textbook | checker/linear.go:104-108 | for operations invoked before they are answered, order by instants and precedence of intervals are the same thing |
| LinearSearch.KeySearch.MinResponse | checker/linear.go:145-150 | the earliest answer still open, attained and a bound |
| LinearSearch.MemoKeyInjective | checker/linear.go:139 | no two states of the search share a memo key, zero bytes in values included |
| LinearSearch.MaskPlaced | checker/linear.go:163-176 | setting a mask bit places an operation, clearing it takes it back, and nothing else moves |
| LinearSearch.AllFailed | checker/linear.go:151-180 | breaking off at the first operation invoked after the earliest answer loses nothing |
| LinearCheck.SortSorts | checker/linear.go:110 | sorting by invocation keeps the operations |
| LinearCheck.SortIsStable | checker/linear.go:110 | operations invoked at one instant keep their order |
| ChainScan.Checker.CheckLogChain | checker/invariants.go:247-308 | map, violations and remembered terms after one observation are those of a scan from the resume point |
| ChainScan.Checker.ObserveRestart | checker/invariants.go:122-131 | a restarted node is scanned in full again |
| ChainScan.IncrementalIffFull | checker/invariants.go:250-274 | the incremental scan finds what a full scan finds if and only if no skipped entry changed its fingerprint and the snapshot point kept its term |
| ChainScan.IncrementalIsFull | checker/invariants.go:246-308 | so it does whenever the terms tell what changed |
| ScanRuns.StepScansInFull | checker/invariants.go:246-308 | after any one Step on any input, the scan from the resume point finds the same violations and leaves the same map as a scan of the whole log |
| ChainScan.ResumeSafe | checker/invariants.go:250-275 | nothing below the resume point has changed its entry or the term before it |
| ScanRuns.CompactionCanHide | checker/invariants.go:69-70 | a restarted follower that takes a request and then a snapshot in one event: the incremental scan misses what a full one finds |
| ScanRuns.CompactTells | sim/server.go:73-87 | a snapshot taken in the same event hides nothing if the terms up to it had not changed |
| ChainScan.FullScanRecords | checker/invariants.go:276-295 | a scan without violations leaves the whole log recorded and forgets nothing |
| ChainScan.ScanFinds | checker/invariants.go:276-295 | a scan reports exactly the entries for which the map holds something else |
| ChainScan.ChainMatches | checker/invariants.go:76-79 | two recorded logs with one term at an index agree below it in terms and fingerprints |
| KV.Store.Apply | kv/kv.go:64-97 | the store in place moves and answers as specified; a repeated command changes nothing |
| KV.Store.CachedResult | kv/kv.go:101-107 | a hit exactly when the last command of the session has the number asked for, unless it is 0 |
| KV.FreshIncreases | kv/kv.go:70-77 | over any commands, the fresh ones of a client carry strictly rising numbers, 0 excepted |
| KV.AtMostOnce | kv/kv.go:62-97 | a command numbered from 1 on takes effect at most once |
| KV.ZeroNotProtected | kv/kv.go:70-72 | number 0 is not protected against repetition |
| KV.OnlyFreshMatter | kv/kv.go:62-97 | data and sessions equal those of running the fresh commands alone |
| KV.FreshStayFresh | kv/kv.go:62-97 | run alone, the fresh commands are all fresh again |
| KV.SessionIsLastFresh | kv/kv.go:94-96 | a session is the number and answer of the client's last fresh command |
| KV.CachedIsAnswer | kv/kv.go:99-107 | a cached answer is the one the client's last fresh command got, and there is one exactly when its number is asked for |
| KV.FreshExactly | kv/kv.go:70-77 | a command takes effect if and only if its number is above all its client sent before, or it and they are all numbered 0 |
| KV.AnswersLastWritten | kv/kv.go:78-93 | over any commands, what one that takes effect is answered: Put true, Get what was last written to the key, CAS true exactly when that is what it expects, and else what it is |
| KV.RepetitionAnswered | kv/kv.go:70-77 | one that does not take effect is answered as the command it repeats, or with nothing if its client has moved on |
| Codec.CommandRoundTrip | kv/codec.go:12-44 | decoding gives the command back if and only if its numbers have 64 bits and its strings are shorter than 2^32 - 4 |
| Codec.Encode | kv/codec.go:23-32 | the buffer grown is the specified encoding |
| Codec.Snapshot | kv/codec.go:47-77 | the bytes of the ascending order, whatever order the maps are walked in |
| Codec.SnapshotUnique | kv/codec.go:47-77 | a store has one snapshot: the bytes depend on the contents only |
| Codec.RestoreStore | kv/codec.go:80-105 | the loops read what the specification reads, and fail exactly where the original panics |
| Codec.StoreRoundTrip | kv/codec.go:47-105 | restoring a snapshot gives the store back if and only if counts, numbers and strings fit their widths |
| Codec.CommandLayout | kv/codec.go:12-32 | where the parts of a command stand in its bytes |
| Bytes.MostSignificantFirst | kv/codec.go:12-32 | numbers stand with the most significant byte first |
| Strings.LessMeans | kv/codec.go:47-56 | the order of keys in a snapshot is the lexicographic one |
| Replay.ReplayMore | sim/app.go:14-42 | applying entries one by one leads to the replay of the longer prefix |
| Replay.EffectOnce | sim/app.go:21-32 | a numbered command takes effect at no more than one index of a log |
| System.WaitingAnswered | sim/app.go:34-41 | applying entries answers exactly those clients whose command is among them, with what the store answers when it comes to the first that carries it |
| System.StillWaiting | sim/app.go:34-41 | those still wait whose command is not among the entries, and the others no longer |
| System.NotesExact | sim/app.go:21-32 | the check of exactly-once fails if and only if some command takes effect at another index than is noted for it |
| System.NotedFirst | sim/app.go:21-32 | each command is noted where it first took effect, and what was noted before stays |
| Server.Server.HandleOutput | sim/server.go:46-69 | durable before sent before applied, and then the snapshot when it is due; a crash at either fsync leaves nothing of its Step |
| Server.Server.TakeOutput | sim/server.go:57-65 | disk, messages, application and notes after one output |
| Server.Server.Step | sim/server.go:34-41 | node, disk, store, notes, answers and messages after one input in full, down servers included |
| Server.Server.MaybeSnapshot | sim/server.go:73-87 | a snapshot of the store as it stands, exactly when enough has been applied, and nothing otherwise |
| Server.Server.ApplyEntry | sim/app.go:14-42 | commands are applied once decoded, what takes effect is noted or compared with the notes, and the waiting client is answered |
| Server.Server.RestoreApp | sim/app.go:44-47 | store from the snapshot, nobody waiting |
| Server.Server.Crash | sim/app.go:49-53 | everything volatile is lost |
| Server.Server.Restart | sim/sim.go:330-342 | node and store rebuilt from the disk alone |
| Server.Server.HandleRequest | sim/client.go:166-191 | refused, answered from the cache or redirected with nothing else changed, the disk included, or proposed with its client waiting |
| Events.StepIsEvent | sim/server.go:34-87 | whatever handling an input comes to, with the snapshot and the crashes it may meet, is one event of the system |
| Events.RequestIsEvent | sim/client.go:166-191 | whatever serving a request comes to is one event of the system |
| Events.CrashIsEvent | sim/sim.go:315-328 | a crash is an event of the system |
| Events.RestartIsEvent | sim/sim.go:330-342 | a restart is an event of the system |
| Events.LeaderTakes | sim/client.go:178-190 | a request a leader takes becomes the next entry of its log and its client waits there |
| Events.SnapshotsKeepUp | sim/server.go:73-87 | with a threshold set, after entries were applied fewer than the threshold are applied beyond the snapshot point |
| Clients.Client.StartNextOp | sim/client.go:47-79 | the recorded operation and the command sent for it say the same, under the next number: the invocation of the system |
| Clients.Client.HandleResp | sim/client.go:123-163 | stale answers change nothing, refusals choose a server, the first real answer completes the operation: the delivery of the system |
| SystemSafety.NextSysSafe | sim/server.go:46-87 | every event of the whole system keeps: stores are replays, cached and given answers are the truth, completed operations are explained |
| SystemSafety.EffectsAgree | sim/app.go:21-32 | in all committed prefixes of a history a command takes effect at one index |
| SystemTheorems.CommittedLog | raft/node.go:708-752 | there is a longest committed prefix, and every other committed prefix is a prefix of it |
| SystemTheorems.LogLinearizes | kv/kv.go:64-97 | the fresh commands of a log that explains a history, in log order, are a linearization of it |
| Node.Node.constructor | raft/node.go:92-130 | a started or restarted node is the specified one, whatever the restore holds |
| Node.Node.Step | raft/node.go:159-200 | the in-place node after any input, and its output, are those of the specification the theorems are about |
| Node.Node.AssemblePersist | raft/node.go:182-197 | all that one Step changed becomes a single order: snapshot, hard state and new tail |
| Node.Node.BecomeFollower | raft/node.go:222-236 | a new term forgets the vote and is marked for the fsync; leadership state is dropped |
| Node.Node.BecomeLeader | raft/node.go:258-275 | fresh progress for all other voters, a no-op appended, committed if alone, and broadcast |
| Node.Node.Campaign | raft/node.go:279-315 | Pre-Vote leaves term and vote alone; an election votes for itself first and asks all others, or wins at once |
| Node.Node.CountVotes | raft/node.go:319-327 | the loop counts exactly the voters that granted |
| Node.Node.TickLeader | raft/node.go:352-380 | transfer timeout, CheckQuorum and heartbeat in this order, as specified |
| Node.Node.QuorumActive | raft/node.go:382-394 | true exactly when a quorum of voters, the leader included, has been heard of |
| Node.Node.Receive | raft/node.go:398-457 | the term rules with their Pre-Vote and stickiness exceptions, then dispatch, as specified |
| Node.Node.HandleVote | raft/node.go:467-490 | both kinds of vote are decided by log, term, earlier vote and stickiness as specified, and a granted one is marked for the fsync |
| Node.Node.HandleVoteResp | raft/node.go:492-520 | counts for the right round only, and wins or gives up at a quorum |
| Node.Node.HandleApp | raft/node.go:524-548 | recognises the leader and skips what the snapshot covers |
| Node.Node.HandleAppFrom | raft/node.go:550-600 | the consistency check, the conflict hint, the append, and the commit bounded by what was sent |
| Node.Node.AcceptEntries | raft/node.go:564-587 | the loop cuts at the first entry whose term differs and appends from there; the panics are flagged exactly where they are hit |
| Node.Node.HandleAppResp | raft/node.go:607-659 | progress, commit, transfer, promotion and further sending after a success; backup after a failure |
| Node.Node.Backup | raft/node.go:639-656 | the clamped next probe, from the leader's own last entry of the conflicting term where it has one |
| Node.Node.SendAppend | raft/node.go:681-705 | entries after the probe with the term before it, or the snapshot when those are compacted |
| Node.Node.SortedMatches | raft/node.go:712-727 | the sorted array holds each voter's match, the leader's own last index included |
| Node.SortDescending | raft/node.go:722-727 | the insertion sort in place computes the sorted sequence whose quorum position the commit rule reads |
| Node.Node.MaybeCommit | raft/node.go:708-742 | commits at the median in the own term only, applies, steps down if left out, and broadcasts |
| Node.Node.ApplyCommitted | raft/node.go:745-752 | hands over exactly what is committed and not yet applied |
| Node.Node.Propose | raft/node.go:756-769 | refused unless leading and not transferring; otherwise appended under the current term |
| Node.Node.AppendEntry | raft/node.go:771-779 | the next index, the current term, and the configuration the entry may carry |
| Node.Node.ProposeConfChange | raft/membership.go:12-56 | one change at a time, none while a learner catches up |
| Node.Node.MaybePromoteLearner | raft/membership.go:59-75 | only the learner, once it has all entries, becomes a voter by a new configuration entry |
| Node.Node.AfterCommit | raft/membership.go:79-83 | a leader left out of the committed configuration steps down |
| Node.Node.Transfer | raft/membership.go:87-102 | the target is told to campaign at once when it has everything |
| Node.InsertSorted | raft/membership.go:113-130 | the loop with its flag computes the specified insertion |
| Node.Node.SetConfig | raft/conf.go:38-49 | configuration, index and history take the new record; a leader starts tracking new voters |
| Node.Node.TruncateConfigsFrom | raft/conf.go:53-60 | rolls back to the last record below the cut |
| Node.Node.ConfAt | raft/conf.go:63-70 | the configuration of the last record at or below an index |
| Node.Node.PruneConfHistory | raft/conf.go:73-77 | drops the records a later one at or below the snapshot point overrides |
| Node.EncodeConf | raft/conf.go:12-19 | the buffer filled in place is the specified encoding |
| Node.DecodeConf | raft/conf.go:21-28 | reads what the bytes say, and fails exactly where the original runs out of them |
| Node.Node.CreateSnapshot | raft/snapshot.go:13-29 | only of applied entries; compacts, prunes and marks the snapshot for the fsync |
| Node.Node.SendSnapshot | raft/snapshot.go:33-42 | at most one outstanding snapshot per follower |
| Node.Node.InstallSnapshot | raft/snapshot.go:45-81 | already covered, suffix kept, or everything replaced, by commit index and term at the snapshot point |
| Node.Node.HandleSnapResp | raft/snapshot.go:84-108 | progress as after a successful append |
| RaftLog.RaftLog.Term | raft/log.go:26-34 | the snapshot point has a term, everything else outside the log has none |
| RaftLog.RaftLog.Slice | raft/log.go:45-59 | the entries of a range, clipped and capped |
| RaftLog.RaftLog.Append | raft/log.go:63-70 | only the next index is taken |
| RaftLog.RaftLog.TruncateFrom | raft/log.go:73-81 | drops the tail, and refuses below the snapshot point |
| RaftLog.RaftLog.Compact | raft/log.go:84-96 | moves the snapshot point and keeps the entries after it |
| RaftLog.RaftLog.FirstIndexOfTerm | raft/log.go:107-117 | the backward scan finds the specified start of the run |
| RaftLog.RaftLog.LastIndexOfTerm | raft/log.go:120-131 | the backward scan finds the specified last index, giving up at the first smaller term |

## Left out

- Safety of a whole cluster whose configuration changes: the guard at raft/membership.go:17 does not ask for a committed entry of the leader's own term, which the global argument needs; what `MembershipRuns` proves of such runs does not depend on it.
- Liveness, availability and timing: election convergence, clock skew, delay distributions and fault probabilities.
- The event queue, the network's delays and partitions, traces, the command line and the import check: arbitrary choice of deliveries and crashes covers what they can produce.
- The proposer with client identifier 0, which writes a key no client uses.
- Random choice of a client's server and the scheduling of its retries: a client may send its current command to any server at any time.
- The limit of 20 million search nodes in the linearizability checker, after which the original panics.
- Collisions of the entry fingerprint: the fingerprint is an arbitrary function, and what is proved holds up to it.
- The invariant checker's bookkeeping besides the log chain (monotonicity, election records, committed and applied maps, symmetric difference of configurations), which would only add easy members.
- Sharing of backing arrays between slices: messages, orders and snapshots are values.
- Wrap-around of 64-bit terms and indexes; widths are modelled in the codecs only.
- Unknown operation kinds in the linearizability checker and unknown inputs and change types of the node, for which the original panics or refuses.
- SafetyRestart.StepSafe: for fixed voters, so a proposed membership change is not among its inputs; `MembershipRuns.StepSound` and `Membership.MembershipDiscipline` are about those.
- Node.Node.Step: the fields of the timers, of the configuration history and of what is to be made durable are grouped in one record each.
- Node.Node.HandleApp: progress records are values in a map rather than shared records.
- LinearSearch.KeySearch.Dfs: the mask's bits are set and cleared by arithmetic on bytes instead of bit operations.
- LinearCheck.CheckKey: sorting by invocation is a function, since the original calls a library for it.
