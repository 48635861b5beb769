# AnimusCore: a verified model

This project models the parts of AnimusCore whose correctness is hardest to see by reading: the Raft-lite
cluster, the lock-free and shared-memory rings, the sliding-window rules and their two engines, the framed
RPC codec, the persistence worker, the audit trail and the pointer-chase shuffle. `dafny verify dfyconfig.toml`
checks all of it.

## How it is organised

**Raft-lite.** `RaftSpec` gives every critical section under `state_mutex_` as a function from the node's old
state to its new state and reply. `RaftNode` is the node itself, a class with the source's fields and loops;
each of its methods is proved equal to one of those functions. `RaftCluster` makes a transition system of
them: any number of nodes, any timers, and a network that may delay, reorder, repeat or lose every message.
`RaftInvariant` states what every reachable cluster state satisfies, `RaftElection`, `RaftReplication` and
`RaftCommit` show that every step keeps it, and `RaftSafety` draws the theorems about whole runs.
`RaftDuties` says what a step must do and not only what it may do: when a vote or a request is refused, and what
an accepted request leaves applied. `RaftProgress` says where this leads: a peer any number of entries behind is
brought level in a known number of calls, a majority's answers are committed, and a majority that can be reached
elects, commits and applies.
`RaftRuns`, `RaftLimit` and `RaftPropose` build concrete runs, which keep to what the program's threads do, for
the two claims that hold only under a condition:

- A follower commits `min(leader_commit, log size)` (AnimusCore_v1/animus_cluster.hpp:510), where section 5.3
  of the Raft paper takes the index of the last new entry. Applied rules agree in every run exactly when no
  leader-peer pair ever has more than 65 (`kMaxEntriesPerRpc` + 1) AppendEntries calls open at once
  (`RaftLimit.SafeIffFewCalls`). Election safety, log matching and leader completeness need no such bound.
- `propose` returns `Ok` when the commit index reaches the command's index, without looking at the entry
  there (AnimusCore_v1/animus_cluster.hpp:275). The answer is right exactly when that entry still has the
  proposal's term (`RaftPropose.OkExact`); `RaftPropose.OkWithoutCommit` is a run where it is wrong.

**Rings.** `Mpmc` and `MpmcSafety` treat the multi-producer multi-consumer ring as the interleaving of its
single atomic steps; `Spsc` does the same for the single-producer ring with counters that wrap at 2^64, and
`SharedRing` for the shared-memory ring byte by byte, with native and Python code on either end. All assume
sequentially consistent memory. `Modular` holds the arithmetic of positions and slots, `Bytes` the
little-endian layouts.

**Rules.** `Cep` has both forms of a window rule, the full rescan of the fallback engine and the running sums
and monotonic deques of the native one; `CepRefinement` proves that the second refines the first as long as
nothing overflows, and exactly when an overflow shows (`CepRefinement.ReportsAgreeIff`), `Engine`
that whole engines agree, `EngineSignals` which signals they emit and in which order, and `CepRules` that the
objects and loops compute these functions.

**The rest.** `Wire`, `Framing` and `RaftWire` cover requests from the leader's state to the follower's
handler; `Persistence` the worker that drains the ring; `Audit` the drop-oldest trail; `Sattolo` the shuffle.

Where the source's comments and its code differ, the model follows the code: the worker may stop with events
still in the ring (`Persistence.CanLeaveEvents`), although a comment there says the ring is drained.

## Model

| member | source | states |
|---|---|---|
| RaftNode.RaftNode.HandleRequestVote | AnimusCore_v1/animus_cluster.hpp:442-461 | the in-place vote handler is the step `OnRequestVote`; `RaftDuties.VoteRefusedIff` says exactly when it refuses |
| RaftNode.RaftNode.HandleAppendEntries | AnimusCore_v1/animus_cluster.hpp:463-514 | the in-place append handler, all five exits, is the step `OnAppendEntries`; `RaftDuties.AcceptedIff` and `FollowerApplies` say exactly when it accepts and what it then stores and applies |
| RaftNode.RaftNode.MergeEntries | AnimusCore_v1/animus_cluster.hpp:495-507 | the entry loop computes the recursive `Merge` and changes nothing but the log |
| RaftNode.RaftNode.ApplyCommittedEntries | AnimusCore_v1/animus_cluster.hpp:516-525 | the apply loop adds exactly the rules of the entries between the applied and the commit index |
| RaftNode.RaftNode.AddRule | AnimusCore_v1/animus.hpp:1232-1244 | an unrecognised comparator is refused and leaves the rule list alone; any other rule is appended |
| RaftNode.RaftNode.BeginElection | AnimusCore_v1/animus_cluster.hpp:554-571 | starting an election is the step `StartElection`, and the request carries the new state |
| RaftNode.RaftNode.CountVote | AnimusCore_v1/animus_cluster.hpp:582-597 | a reply is counted or makes the node step down as `OnVoteResult` says |
| RaftNode.RaftNode.FinishElection | AnimusCore_v1/animus_cluster.hpp:601-624 | the node leads exactly if it is still the candidate of that term with a majority, and then resets every peer's indices and appends its no-op |
| RaftNode.RaftNode.ResetPeerIndices | AnimusCore_v1/animus_cluster.hpp:611-614 | after the loop every peer, and only peers, has a next index after the log and a match index of 0 |
| RaftNode.RaftNode.AppendProposal | AnimusCore_v1/animus_cluster.hpp:258-268 | a proposal is appended, at the returned index, exactly on a leader |
| RaftNode.RaftNode.BuildRequest | AnimusCore_v1/animus_cluster.hpp:670-687 | the request is built exactly on the leader of the snapshot's term and is the slice `BuildAppend` |
| RaftNode.RaftNode.EntriesFrom | AnimusCore_v1/animus_cluster.hpp:681-683 | the loop collects at most 64 consecutive entries from the next index |
| RaftNode.RaftNode.HandleAppendResult | AnimusCore_v1/animus_cluster.hpp:696-712 | the outcome of a call moves the peer's indices, or the node's term, as `OnAppendResult` says; `RaftProgress.AcceptedMovesOn` and `RejectedMovesBack` say where to |
| RaftNode.RaftNode.CountReplicas | AnimusCore_v1/animus_cluster.hpp:660-661 | the counting loop gives one more than the number of distinct peers that store the entry |
| RaftNode.RaftNode.AdvanceCommitIndex | AnimusCore_v1/animus_cluster.hpp:656-668 | the downward scan commits and applies as `AdvanceCommit` says, and only for the snapshot's term |
| RaftElection.WinnerIsFirst | AnimusCore_v1/animus_cluster.hpp:601-608 | whoever wins an election is the first leader of that term |
| RaftElection.CampaignKeeps | AnimusCore_v1/animus_cluster.hpp:554-568 | starting an election keeps the cluster invariant |
| RaftElection.HandleVoteKeeps | AnimusCore_v1/animus_cluster.hpp:442-461 | answering a vote request, however late, keeps the cluster invariant |
| RaftElection.CountVoteKeeps | AnimusCore_v1/animus_cluster.hpp:582-597 | counting a reply keeps the cluster invariant |
| RaftElection.CloseElectionKeeps | AnimusCore_v1/animus_cluster.hpp:601-624 | becoming leader, or not, keeps the cluster invariant |
| RaftReplication.MergeCases | AnimusCore_v1/animus_cluster.hpp:495-507 | merging a slice of the leader's log either leaves the follower's log or makes it end with the slice, and never drops an entry shared with the leader |
| RaftReplication.HandleAppendKeeps | AnimusCore_v1/animus_cluster.hpp:463-514 | handling a request, however late or often, keeps the cluster invariant |
| RaftReplication.ProposeKeeps | AnimusCore_v1/animus_cluster.hpp:258-268 | a proposal keeps the cluster invariant |
| RaftReplication.BuildKeeps | AnimusCore_v1/animus_cluster.hpp:670-688 | sending a request keeps the cluster invariant |
| RaftReplication.CloseCallKeeps | AnimusCore_v1/animus_cluster.hpp:696-712 | dealing with an outcome keeps the cluster invariant |
| RaftReplication.CloseRoundKeeps | AnimusCore_v1/animus_cluster.hpp:656-668 | advancing the commit index keeps the cluster invariant |
| RaftReplication.LeaderCompleteness | AnimusCore_v1/animus_cluster.hpp:451-458 | what a quorum acknowledged in its leader's own term, every later leader was elected with |
| RaftCommit.AcceptSettles | AnimusCore_v1/animus_cluster.hpp:485-513 | accepting a request that reaches the leader's no-op, or past the follower's own entries, leaves no unverified tail |
| RaftCommit.RejectBound | AnimusCore_v1/animus_cluster.hpp:708-711 | a step back after a rejection keeps the next index within the calls that were open together |
| RaftCommit.BuildBound | AnimusCore_v1/animus_cluster.hpp:677-683 | opening one more call within the limit keeps that bound |
| RaftCommit.CommittableChosen | AnimusCore_v1/animus_cluster.hpp:658-666 | an index the scan may commit is one of the leader's own term that a quorum acknowledged |
| RaftCommit.ScanFinds | AnimusCore_v1/animus_cluster.hpp:658-667 | the scan ends at the largest committable index above the commit index, if there is one |
| RaftCommit.HandleAppendSafe | AnimusCore_v1/animus_cluster.hpp:509-512 | within the call limit, a follower that commits up to the end of its log commits only what a quorum stores |
| RaftSafety.ElectionSafety | AnimusCore_v1/animus_cluster.hpp:442-461 | at any two moments of any run, two leaders of one term are the same node |
| RaftSafety.LogMatching | AnimusCore_v1/animus_cluster.hpp:485-507 | at any two moments of any run, logs with the same term at an index are equal up to it |
| RaftSafety.LeaderKeepsCommitted | AnimusCore_v1/animus_cluster.hpp:656-667 | once a leader has raised its commit index to n, every leader of a later term, elected before or after, has the same first n entries |
| RaftSafety.AcceptedIsPrefix | AnimusCore_v1/animus_cluster.hpp:463-514 | a follower that has accepted a request of its term's leader holds a prefix of that leader's log |
| RaftSafety.CommittedAgree | AnimusCore_v1/animus_cluster.hpp:509-510 | two committed prefixes agree, whichever leaders committed them |
| RaftSafety.StateMachineSafety | AnimusCore_v1/animus_cluster.hpp:509-525 | at any two moments of a run within the call limit, the rules of any two nodes are prefixes of one another |
| RaftSafety.AppliedIsFinal | AnimusCore_v1/animus_cluster.hpp:485-525 | no node ever truncates or rewrites its log below what it has applied, or applies fewer entries than before |
| RaftSafety.RulesAreApplied | AnimusCore_v1/animus_cluster.hpp:516-525 | a node's rules are exactly the accepted commands among the entries it has applied |
| RaftDuties.MessagesTeach | AnimusCore_v1/animus_cluster.hpp:442-461 | a vote or append request and its answer carry terms: a later term is taken over by the receiver, and every reply has the larger of the two terms |
| RaftDuties.VoteChangesOnly | AnimusCore_v1/animus_cluster.hpp:442-461 | answering a vote request changes the term, the role in a later term and the ballot, and nothing else |
| RaftDuties.AppendChangesOnly | AnimusCore_v1/animus_cluster.hpp:463-514 | an append request makes the node a follower of its sender; refused, it leaves the commit index and the rules alone |
| RaftDuties.ReplyChangesOnly | AnimusCore_v1/animus_cluster.hpp:589-597 | a reply of a later term makes the node a follower without a ballot, and a reply that comes too late changes nothing |
| RaftDuties.VoteRefusedIff | AnimusCore_v1/animus_cluster.hpp:442-461 | in every run a vote is refused if and only if the voter's term is later, the history holds its ballot of that term for another candidate, or its log is ahead; a given vote is on record |
| RaftDuties.VoteIsCounted | AnimusCore_v1/animus_cluster.hpp:589-597 | a vote given for the running election is added to that election's votes and changes nothing else |
| RaftDuties.ElectionDecided | AnimusCore_v1/animus_cluster.hpp:601-624 | a node becomes leader if and only if it is still the candidate of that term and more than half of the members voted for it |
| RaftDuties.MajorityIsLeast | AnimusCore_v1/animus_cluster.hpp:603 | the majority is the least number that is more than half of the members |
| RaftDuties.MergeIsExact | AnimusCore_v1/animus_cluster.hpp:495-507 | merging a slice of the leader's log leaves the log alone if it has all of it already, and otherwise makes it the leader's log up to the slice's end |
| RaftDuties.AcceptedIff | AnimusCore_v1/animus_cluster.hpp:477-514 | a request of the current or a later term is accepted if and only if the follower has the leader's entry before the slice; the resulting log is stated in both cases, and the sender becomes the known leader |
| RaftDuties.StaleIsRefused | AnimusCore_v1/animus_cluster.hpp:465-467 | a request of an earlier term is refused and changes nothing |
| RaftDuties.HintIsALeader | AnimusCore_v1/animus_cluster.hpp:480-482 | a node's leader hint is the leader of its term or of an earlier one, a leader hints at itself, and a candidate at nobody |
| RaftDuties.FollowerApplies | AnimusCore_v1/animus_cluster.hpp:509-513 | after an accepted request every index up to the leader's commit index that the follower has is applied |
| RaftDuties.FollowerRegistersNew | AnimusCore_v1/animus_cluster.hpp:509-525 | in any run, the accepted commands among the entries it had not applied before are then among the follower's rules |
| RaftDuties.FollowerRegisters | AnimusCore_v1/animus_cluster.hpp:509-525 | within the call limit, the same holds for all entries up to the leader's commit index |
| RaftProgress.AcceptedMovesOn | AnimusCore_v1/animus_cluster.hpp:704-707 | after an accepted call the next request starts right after what that call carried |
| RaftProgress.RejectedMovesBack | AnimusCore_v1/animus_cluster.hpp:708-711 | after a rejected call the next index is one lower, but not below the first entry |
| RaftProgress.MatchedIsLatest | AnimusCore_v1/animus_cluster.hpp:704-707 | a leader's match index for a peer is the end of the last accepted call it has dealt with |
| RaftProgress.CommitReaches | AnimusCore_v1/animus_cluster.hpp:656-667 | for any cluster size: once the last accepted answers of a majority reach an index of the leader's own term, ending the round commits and applies at least that far |
| RaftProgress.CatchesUp | AnimusCore_v1/animus_cluster.hpp:670-707 | a peer d entries behind, at any commit index, has the leader's whole log after exactly ceil(d / 64) answered calls, and has applied what was committed |
| RaftProgress.BacksOff | AnimusCore_v1/animus_cluster.hpp:708-711 | however much the logs differ, one answered call per step brings the next index back to where they agree |
| RaftProgress.BringsLevel | AnimusCore_v1/animus_cluster.hpp:670-712 | any reachable peer can be brought level with the leader within a stated number of steps |
| RaftProgress.BringsAllLevel | AnimusCore_v1/animus_cluster.hpp:630-668 | so can any set of peers, with no other node disturbed |
| RaftProgress.MajorityCommits | AnimusCore_v1/animus_cluster.hpp:630-668 | a leader that reaches a majority can commit and apply its whole log, entries of earlier terms included |
| RaftProgress.MajorityApplies | AnimusCore_v1/animus_cluster.hpp:630-712 | and then have every node it reaches hold and apply it |
| RaftProgress.MajorityElects | AnimusCore_v1/animus_cluster.hpp:554-624 | a node whose log is not behind those of a majority it reaches can become leader of its next term |
| RaftProgress.MajorityServes | AnimusCore_v1/animus_cluster.hpp:554-712 | from any state of any run such a node can then take a command and have it applied, on top of its own log, by every node it reaches |
| RaftProgress.FreshClusterServes | AnimusCore_v1/animus_cluster.hpp:258-275 | from the start, whichever node begins, every node of the cluster can come to hold and apply its command |
| RaftLimit.OneCallTooMany | AnimusCore_v1/animus_cluster.hpp:510 | a run of the program, in which 67 clients propose and 66 of their rounds have a call open to one peer, after which two nodes' rules differ |
| RaftLimit.SafeIffFewCalls | AnimusCore_v1/animus_cluster.hpp:509-511 | rules agree in all runs with at most L open calls per pair if and only if L is at most 65, over the cluster's runs and over the program's |
| RaftPropose.OkExact | AnimusCore_v1/animus_cluster.hpp:266-275 | an `Ok` is right if and only if the entry at the proposal's index still has its term, as it has while the node leads that term; then whoever applies that far applies the command |
| RaftPropose.OkWithoutCommit | AnimusCore_v1/animus_cluster.hpp:275 | a run of the program, with one call open at a time, in which `Ok` is returned for an index another command has taken |
| RaftWire.CallsRoundTrip | AnimusCore_v1/animus_cluster.hpp:686-688 | AppendEntries calls, packed, framed and cut into records anywhere, reach the handler with the same arguments in order |
| RaftWire.BuiltFits | AnimusCore_v1/animus_cluster.hpp:681-688 | every request the leader builds is below the frame limit |
| RaftWire.RequestOnWire | AnimusCore_v1/animus_cluster.hpp:152-160 | the bytes of a request: type, every header field in its place, then the entries at equal distances |
| RaftWire.EntryOnWire | AnimusCore_v1/animus_cluster.hpp:57-84 | the bytes of a log entry, every field of the command in its place |
| Mpmc.LoadIsExact | AnimusCore_v1/animus.hpp:391-403 | the signed 64-bit difference decides between claiming, giving up and retrying as the true numbers do, for positions less than 2^63 apart |
| Mpmc.ClaimPush | AnimusCore_v1/animus.hpp:393-396 | a successful claim by a producer keeps the ring invariant |
| Mpmc.WriteStep | AnimusCore_v1/animus.hpp:405-407 | writing and publishing keep the ring invariant: no other thread relied on the cell |
| Mpmc.ClaimPop | AnimusCore_v1/animus.hpp:417-420 | a successful claim by a consumer keeps the ring invariant |
| Mpmc.ReadStep | AnimusCore_v1/animus.hpp:429-431 | reading and releasing keep the ring invariant |
| MpmcSafety.ExactlyOnce | AnimusCore_v1/animus.hpp:386-432 | in every interleaving, with at least two cells: each thread's pushes are its claims in order, each thread's pops are the values claimed at the positions it took in order, and at most `capacity` claims wait |
| MpmcSafety.OnePerPosition | AnimusCore_v1/animus.hpp:394-430 | over the whole run a position has one producer with one value and at most one consumer, who reads that value |
| MpmcSafety.OneToOneIsFifo | AnimusCore_v1/animus.hpp:386-432 | with one producer and one consumer, what came out is a prefix of what went in |
| MpmcSafety.DataIsExclusive | AnimusCore_v1/animus.hpp:405-429 | no two threads are ever at one cell's data, so no value is torn |
| MpmcSafety.PushRefusedIffFull | AnimusCore_v1/animus.hpp:388-404 | `push` gives up if and only if its position is the next one and the position a lap earlier is not released |
| MpmcSafety.PopRefusedIffEmpty | AnimusCore_v1/animus.hpp:412-428 | `pop` gives up if and only if its position is the next one and is not published |
| MpmcSafety.RetryMeansProgress | AnimusCore_v1/animus.hpp:394-427 | every retry that is not a spurious failure finds the cursor strictly advanced |
| MpmcSafety.PushCompletes | AnimusCore_v1/animus.hpp:386-408 | from any reachable state a `push` that is left alone is refused in two steps if the ring is full, and otherwise enqueues its value in five |
| MpmcSafety.PopCompletes | AnimusCore_v1/animus.hpp:410-432 | likewise a `pop` is refused if the next position is not published, and otherwise returns its value |
| MpmcSafety.OneCellOverwrites | AnimusCore_v1/animus.hpp:406-430 | with one cell, two pushes succeed in a row and the first value is overwritten |
| MpmcSafety.BoundedIffTwoCells | AnimusCore_v1/animus.hpp:374-381 | the ring never accepts more than its capacity if and only if the capacity is at least two |
| Spsc.RoundUpPow2 | AnimusCore_v1/animus.hpp:522-526 | for requests up to 2^63 the loop ends with the least power of two that is at least 1 and the request |
| Spsc.RoundUpTerminatesIff | AnimusCore_v1/animus.hpp:442-446 | the loop ends if and only if the request is at most 2^63 |
| Spsc.IndexIsSlot | AnimusCore_v1/animus.hpp:502-514 | masking a counter that has wrapped gives the cell of the counter that never wraps |
| Spsc.StepIsQueueStep | AnimusCore_v1/animus.hpp:496-517 | every step is a step of a bounded queue, and refusals happen exactly when that queue is full or empty |
| Spsc.QueueForever | AnimusCore_v1/animus.hpp:496-517 | in every run, however often the counters wrap, what came out is a prefix of what went in, at most the capacity behind |
| Spsc.PushCompletes | AnimusCore_v1/animus.hpp:496-505 | from any reachable state a `push` left alone is refused in two steps if the queue is full, and otherwise enqueues its value in four |
| Spsc.PopCompletes | AnimusCore_v1/animus.hpp:508-517 | likewise a `pop` is refused if the queue is empty, and otherwise returns the oldest value |
| Modular.WrapsCleanly | AnimusCore_v1/animus.hpp:835-856 | records that wait together keep to different slots across the counters' wrap if and only if the capacity divides 2^64 |
| SharedRing.RecordRoundTrip | animus/shm.py:45-46 | a record whose fields fit decodes to what was encoded |
| SharedRing.RecordLayout | animus/shm.py:45-46 | the fields of a record lie at bytes 0, 8, 12 and 16, little-endian |
| SharedRing.RecordsDisjoint | animus/shm.py:115-118 | records that wait together never share a byte with each other |
| SharedRing.BytesAreQueue | AnimusCore_v1/animus.hpp:835-856 | for any capacity and any interleaving of native and Python ends, the bytes are a bounded queue: counters, whole records and their order; past 2^64 records still, for native ends and a capacity that divides 2^64 |
| SharedRing.RefusalsAreExact | animus/shm.py:112-126 | `push` is refused exactly when the queue is full at its tail load, `pop` exactly when it was empty at its head load |
| SharedRing.PushCompletes | AnimusCore_v1/animus.hpp:835-846 | from any reachable state a `push` by either language, left alone, is refused if the queue is full, and otherwise its whole record is in the queue after one step per byte and three more |
| SharedRing.PopCompletes | AnimusCore_v1/animus.hpp:848-856 | likewise a `pop` is refused if the queue is empty, and otherwise returns the oldest record |
| Cep.TakeOffIsExact | AnimusCore_v1/animus.hpp:259-272 | taking evicted values off a wrapped sum leaves the wrapped sum of the rest |
| Cep.RunningSumExact | AnimusCore_v1/animus.hpp:218-223 | one event keeps the running sum equal to the window's true sum modulo 2^64 |
| Cep.RegisteredOnlyFixesZero | AnimusCore_v1/animus.hpp:192-197 | registering a rule changes nothing but a window size of 0, which becomes 1 |
| CepRefinement.FrontIsExtreme | AnimusCore_v1/animus.hpp:234-253 | the front of the entries no later one beats is the window's minimum or maximum |
| CepRefinement.EvictCommutes | AnimusCore_v1/animus.hpp:274-285 | evicting from the deque and evicting from the window commute |
| CepRefinement.StepRefines | AnimusCore_v1/animus.hpp:210-256 | one event keeps the native state standing for the rescanned window |
| CepRefinement.DequeFrontIsExtreme | AnimusCore_v1/animus.hpp:234-285 | after any run with a steady clock and no overflow the deque has a front, which is the minimum or maximum of the rescanned window |
| CepRefinement.RuleAgrees | animus/bindings.py:525-553 | native and fallback rule report the same match and aggregate after every such run |
| CepRefinement.WindowIsExact | animus/bindings.py:525-534 | over any run with a steady clock the rescanned window holds exactly the last `size` readings, or exactly those less than `size` old |
| CepRefinement.RunningSumIsModular | AnimusCore_v1/animus.hpp:218-272 | over any run at all, the running sum is the window's true sum modulo 2^64 |
| CepRefinement.AvgIsExactMean | AnimusCore_v1/animus.hpp:228-231 | without overflow an Avg rule compares the exact rational mean, and reports its floor |
| CepRefinement.ReportsAgreeIff | animus/bindings.py:525-553 | over runs whose expiry tests do not wrap, native and fallback rule report the same aggregate and match the same under every comparator if and only if the sum fits in 64 bits and, for Avg, threshold times count fits or, wrapped, still exceeds the sum |
| CepRefinement.ProductCanWrap | AnimusCore_v1/animus.hpp:228-231 | a run in which threshold times count wraps to 0 and the native Avg rule fires on a mean far below its threshold |
| CepRefinement.HasFrontIffFits | AnimusCore_v1/animus.hpp:238-285 | over all runs of n events ending at a clock reading, the deque has a front whatever the values are if and only if the newest entry's expiry test does not wrap |
| Engine.RuleSignalsExact | AnimusCore_v1/animus.hpp:1030-1048 | plain rules signal exactly the events of their id that pass the comparison |
| Engine.EnginesAgree | animus/bindings.py:663-694 | for the same rules, events and clock readings and no overflow, both engines emit the same signals in the same order, and the native one never reads an empty deque |
| EngineSignals.WindowSignalExact | AnimusCore_v1/animus.hpp:1064-1083 | a window rule fires exactly on its own event id when the sum, exact mean, minimum or maximum of its slid window passes the comparison, with the payload's cycles, event id and trace id, that aggregate, and the rule's id and severity |
| EngineSignals.WindowSignalsExact | animus/bindings.py:680-694 | a signal is emitted for an event if and only if some window rule fires with it |
| EngineSignals.WindowSignalsInOrder | animus/bindings.py:680-694 | the signals are, in the order of the rules, one for each rule that fires |
| EngineSignals.PlainSignalsInOrder | AnimusCore_v1/animus.hpp:1030-1048 | the plain rules' signals are, in the order of the rules, one for each rule that passes |
| EngineSignals.WindowsAreHistories | animus/bindings.py:663-694 | after any events a rule's window is the sliding window over the readings of its own event id and of no others |
| EngineSignals.EngineGoesOn | animus/bindings.py:663-694 | one more event adds the plain rules' signals, then the window rules' signals on their windows so far |
| CepRules.CepRuleState.OnEvent | AnimusCore_v1/animus.hpp:210-256 | the in-place rule computes the native step, and over its life pops no more deque entries than it pushed |
| CepRules.CepRuleState.AddToSum | AnimusCore_v1/animus.hpp:220-272 | the push and the eviction loop leave the evicted window and the running sum with exactly the evicted values taken off |
| CepRules.CepRuleState.AddToMax | AnimusCore_v1/animus.hpp:235-239 | the pop and eviction loops for a maximum compute the deque functions |
| CepRules.CepRuleState.AddToMin | AnimusCore_v1/animus.hpp:245-249 | the pop and eviction loops for a minimum compute the deque functions |
| CepRules.CepRuleState.EvictMonotonic | AnimusCore_v1/animus.hpp:274-285 | the eviction loop computes the deque function |
| CepRules.RescanState.OnEvent | animus/bindings.py:525-553 | the fallback rule slides its window and reports the aggregate of a full rescan |
| CepRules.RescanState.Evict | animus/bindings.py:529-534 | the eviction loops drop the expired entries in front and no others |
| CepRules.EngineImpl.Evaluate | AnimusCore_v1/animus.hpp:1144-1149 | one payload appends the plain rules' signals, then the window rules' signals, and steps every rule's window; `EngineSignals` says what these signals are |
| CepRules.EngineImpl.EvaluateRules | AnimusCore_v1/animus.hpp:1030-1048 | the loop over plain rules emits their signals in order |
| CepRules.EngineImpl.EvaluateCepRules | AnimusCore_v1/animus.hpp:1064-1083 | the loop over window rules steps each matching rule once and emits the native signals in order, which by `Engine.EnginesAgree` are those of `EngineSignals` |
| CepRules.PurePythonEngine.Evaluate | animus/bindings.py:663-694 | the fallback's loops emit the signals in order that `EngineSignals` characterises |
| Bytes.UnpackPack | AnimusCore_v1/animus_cluster.hpp:144-150 | a packed structure whose fields fit unpacks to the same fields |
| Bytes.PackUnpack | AnimusCore_v1/animus_cluster.hpp:351-358 | any bytes of the right length unpack to fields that fit and pack to the same bytes |
| Bytes.LittleEndian | AnimusCore_v1/animus_cluster.hpp:144-150 | byte i of a packed number has weight 256^i |
| Bytes.FieldAt | AnimusCore_v1/animus_cluster.hpp:144-150 | in a packed structure a field lies behind all the fields before it, without gaps |
| Wire.DecodeEncode | AnimusCore_v1/animus_cluster.hpp:144-160 | a valid request survives packing and `dispatch_request`'s parsing |
| Wire.EncodeDecode | AnimusCore_v1/animus_cluster.hpp:349-374 | nothing is accepted but the encoding of a valid request |
| Wire.HeaderLayout | AnimusCore_v1/animus_cluster.hpp:129-136 | where each field of the packed AppendEntries header lies |
| Wire.EntryLayout | AnimusCore_v1/animus_cluster.hpp:57-84 | where each field of a packed log entry lies |
| Wire.VoteLayout | AnimusCore_v1/animus_cluster.hpp:119-124 | where each field of a packed vote request lies |
| Wire.EntryPlace | AnimusCore_v1/animus_cluster.hpp:152-160 | packed entries follow one another without gaps |
| Framing.FrameRoundTrip | AnimusCore_v1/animus_transport.hpp:709-725 | a message comes back with the rest of the stream untouched if and only if it is at most 64 MiB |
| Framing.FramesRoundTrip | AnimusCore_v1/animus_transport.hpp:709-725 | any sequence of such messages is received in order, and later bytes are kept |
| Framing.RequestsRoundTrip | AnimusCore_v1/animus_cluster.hpp:349-374 | requests sent as messages and cut into records anywhere are decoded to the same requests |
| Framing.TornFrameFails | AnimusCore_v1/animus_transport.hpp:718-725 | a frame cut short by a failing link is never taken for a message |
| Framing.ReceivedIff | AnimusCore_v1/animus_transport.hpp:718-725 | a message is received if and only if the stream begins with its frame; a failure takes the length prefix at most |
| Framing.SecureChannel.SendRaw | AnimusCore_v1/animus_transport.hpp:823-848 | the chunk loop sends exactly the data, in records no larger than the limit, if the connection carries that many; otherwise a proper part of it, and nothing before the handshake |
| Framing.SecureChannel.SendMessage | AnimusCore_v1/animus_transport.hpp:709-716 | the stream grows by exactly the frame of the payload, or by a proper part of it if sending fails |
| Framing.SecureChannel.DecryptOneRecord | AnimusCore_v1/animus_transport.hpp:852-916 | opening a record, empty or not, loses and reorders nothing, and a record that cannot be opened changes nothing |
| Framing.SecureChannel.RecvExact | AnimusCore_v1/animus_transport.hpp:921-928 | exactly n bytes are taken, whatever the record boundaries, exactly if there are that many; the remainder is kept |
| Framing.SecureChannel.RecvMessage | AnimusCore_v1/animus_transport.hpp:718-725 | receiving computes `TakeMessage` of all bytes ahead, in success and in every failure |
| Persistence.Conservation | AnimusCore_v1/animus.hpp:1091-1171 | at every step: accepted events are in order the processed ones, the batch and the ring; each was evaluated once; the file is the processed prefix while no write failed; the batch never exceeds its limit and is empty at exit |
| Persistence.WorkerDrains | AnimusCore_v1/animus.hpp:1107-1165 | from any reachable state with an open sink, every cell published and the worker not about to leave, a worker whose writes succeed and which alone moves is at its stop check within a number of steps given by the batch and the ring: ring and batch empty, every accepted event evaluated, and the file complete if no write has failed |
| Persistence.WorkerNeverStuck | AnimusCore_v1/animus.hpp:1107-1165 | with a sink the worker has exactly one step to take until it is gone |
| Persistence.StopsWhenDone | AnimusCore_v1/animus.hpp:1161-1163 | at the stop check it leaves exactly if told to stop |
| Persistence.FailedWriteLosesSink | AnimusCore_v1/animus.hpp:1151-1158 | a failed write costs the sink and the batch, evaluated already, of which the file may have the beginning |
| Persistence.WithoutSink | AnimusCore_v1/animus.hpp:1108-1119 | a sink that opens puts the worker back to work; without one it leaves exactly when told to |
| Persistence.LeftInRing | AnimusCore_v1/animus.hpp:1107-1165 | a worker that is waiting, checking or gone left the ring at an empty pop or at the loss of its sink, and the ring holds what it held then and everything claimed since |
| Persistence.DrainedIff | AnimusCore_v1/animus.hpp:1121-1163 | after the exit that follows an empty pop, the ring is empty if and only if it was empty at that pop and nothing was claimed since |
| Persistence.NoSinkTakesNothing | AnimusCore_v1/animus.hpp:1108-1111 | after the exit without a sink, if no write had failed, every accepted event is still in the ring |
| Persistence.CanLeaveAll | AnimusCore_v1/animus.hpp:1108-1111 | a run in which a worker stopped before it has a sink leaves a published event |
| Persistence.CanLeaveEvents | AnimusCore_v1/animus.hpp:1161-1163 | a run in which an event published between the empty pop and the check stays in the ring |
| Persistence.BoundedQueue.Push | animus/bindings.py:569-574 | an item is appended exactly if there is room |
| Persistence.BoundedQueue.PopBatch | animus/bindings.py:576-581 | the oldest items, as many as asked for or there are, in order |
| Persistence.BoundedQueue.RecordBatch | animus/bindings.py:623-629 | as many leading events as there is room for are accepted, and that many is returned |
| Audit.AppendLosesOldest | AnimusCore_v1/animus_security.hpp:133-144 | appending to a full trail loses exactly the oldest unread entry, and nothing otherwise |
| Audit.DrainDelivers | AnimusCore_v1/animus_security.hpp:148-156 | draining hands over the oldest unread entries in order and loses none |
| Audit.NothingUnaccounted | AnimusCore_v1/animus_security.hpp:133-164 | appended = drained + dropped + unread |
| Audit.BoundedAuditLog.Append | AnimusCore_v1/animus_security.hpp:133-144 | the in-place ring with wrapping cursors refines the unbounded log |
| Audit.BoundedAuditLog.Drain | AnimusCore_v1/animus_security.hpp:148-156 | the output array gets the oldest unread entries, the rest of it and of the trail is untouched, and a null output does nothing |
| Sattolo.SwapJoins | AnimusCore_v1/animus_benchmark_suite.cpp:319-323 | one swap joins two cycles of the permutation into one |
| Sattolo.BuildChaseBuffer | AnimusCore_v1/animus_benchmark_suite.cpp:312-329 | for every node count of at least 1 and all draws j < i, following the links from node 0 visits every node exactly once before returning; the links are those the draws give |
| Sattolo.DifferentDraws | AnimusCore_v1/animus_benchmark_suite.cpp:319-323 | different draws give different cycles |

## Left out

- RaftNode.RaftNode.AddRule: does not model an allocation failure, after which the node would lack a rule that others have.
- Restarts: node state is in memory only, so a node that comes back without its state is a new cluster.
- Raft timers and timeouts: an election may start at any moment, so `RaftProgress` states what can be reached from every state and in how many steps, and not that it will be.
- 64-bit terms and log indices: unbounded here, since neither can realistically reach 2^64.
- The `role` accessor, and the polling loop of `propose` beyond its `Ok` test.
- TLS, certificates and sockets: a channel of plaintext records that may break at any record; in the cluster a broken link is a lost request or reply.
- Weak memory: all atomics are sequentially consistent.
- Mpmc.ClaimPush: positions do not wrap, because after 2^64 claims a thread that slept for a whole turn of the counter could succeed with a stale position.
- SharedRing.BytesAreQueue: a Python end stops at 2^64 records, because it refuses to store a larger counter; what a native end does past that with a capacity that does not divide 2^64 is only stated as the slots it mixes up (`Modular.WrapsCleanly`).
- Engine.EnginesAgree: compares the emitted signals; the two signal queues have different capacities once they saturate.
- CepRefinement.DequeFrontIsExtreme: needs a clock that does not go back, which the engine's steady clock gives.
- Concurrent rule registration: rule sets are fixed during a run.
- Persistence.BoundedQueue.RecordBatch: the lock-guarded queue of the fallback; with the native ring other producers may take room in between.
- License checks, role-based access, tenants, market data, order routing, demos and benchmarks other than the shuffle.
- Thread pinning, cycle counters and memory mapping: timestamps are inputs.
