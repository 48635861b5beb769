/**
  Value model of one node of the Raft-lite cluster (AnimusCore_v1/animus_cluster.hpp).

  Every critical section that `RaftNode` runs under `state_mutex_` is one function
  from the node's old state to its new state (and its reply). `RaftNode.dfy` proves
  the in-place, loop-based code equal to these functions; `RaftCluster.dfy` uses them
  as the steps of the whole cluster.
 */
module RaftSpec {

  type NodeId = nat

  /** The one replicated command: register a detection rule. */
  datatype Command = AddRule(ruleId: nat, eventId: nat, threshold: nat, comparator: nat, severity: nat)

  datatype Entry = Entry(term: nat, noop: bool, command: Command)

  datatype Role = Follower | Candidate | Leader

  /** `rules` is the rule list of the local engine, which only `Apply` extends. */
  datatype Node = Node(
    term: nat, votedFor: NodeId, hasVoted: bool, role: Role,
    log: seq<Entry>, commit: nat, applied: nat, rules: seq<Command>,
    leader: NodeId, hasLeader: bool,
    next: map<NodeId, nat>, matched: map<NodeId, nat>)

  datatype VoteArgs = VoteArgs(term: nat, lastIndex: nat, lastTerm: nat)
  datatype VoteResult = VoteResult(term: nat, granted: bool)

  /** `AppendEntriesHeader` without `leader_id` and `entry_count`, which the link and the entry list give. */
  datatype AppendArgs = AppendArgs(term: nat, prevIndex: nat, prevTerm: nat, commit: nat, entries: seq<Entry>)
  datatype AppendResult = AppendResult(term: nat, success: bool, matchIndex: nat)

  /** kMaxEntriesPerRpc */
  const MAX_ENTRIES: nat := 64

  /** RuleComparator::Equal, the largest comparator the engine accepts. */
  const MAX_COMPARATOR: nat := 2

  const NO_COMMAND := AddRule(0, 0, 0, 0, 0)

  const FRESH_NODE := Node(0, 0, false, Follower, [], 0, 0, [], 0, false, map[], map[])

  function Min(a: nat, b: nat): nat { if a < b then a else b }

  function LastTerm(log: seq<Entry>): nat {
    if log == [] then 0 else log[|log| - 1].term
  }

  /** `Engine::add_rule`: an unrecognised comparator is refused and leaves the rule list alone. */
  function AddRuleTo(rules: seq<Command>, c: Command): seq<Command> {
    if c.comparator > MAX_COMPARATOR then rules else rules + [c]
  }

  /** The rules that applying `entries` in order adds: no-ops and refused commands add none. */
  function RulesOf(entries: seq<Entry>): seq<Command> {
    if entries == [] then []
    else
      var last := entries[|entries| - 1];
      var before := RulesOf(entries[..|entries| - 1]);
      if last.noop then before else AddRuleTo(before, last.command)
  }

  /** `apply_committed_entries_locked`. */
  function Apply(s: Node): Node {
    if s.applied < s.commit <= |s.log|
    then s.(applied := s.commit, rules := s.rules + RulesOf(s.log[s.applied..s.commit]))
    else s
  }

  /** `handle_request_vote`, for a request that arrived on the link of `from`. */
  function OnRequestVote(s: Node, from: NodeId, args: VoteArgs): (Node, VoteResult) {
    var s1 := if args.term > s.term
              then s.(term := args.term, role := Follower, hasVoted := false) else s;
    var logOk := args.lastTerm > LastTerm(s1.log)
                 || (args.lastTerm == LastTerm(s1.log) && args.lastIndex >= |s1.log|);
    if args.term >= s1.term && (!s1.hasVoted || s1.votedFor == from) && logOk
    then (s1.(hasVoted := true, votedFor := from), VoteResult(s1.term, true))
    else (s1, VoteResult(s1.term, false))
  }

  /** The entry loop of `handle_append_entries`, from 0-based position `idx`. */
  function Merge(log: seq<Entry>, idx: nat, entries: seq<Entry>): seq<Entry>
    decreases |entries|
  {
    if entries == [] then log
    else if idx < |log| then
      if log[idx].term != entries[0].term
      then Merge(log[..idx] + [entries[0]], idx + 1, entries[1..])
      else Merge(log, idx + 1, entries[1..])
    else Merge(log + [entries[0]], idx + 1, entries[1..])
  }

  /** The first half of `handle_append_entries`: adopt the sender as the leader of its term. */
  function Follow(s: Node, from: NodeId, term: nat): Node {
    var s1 := if term > s.term then s.(term := term, hasVoted := false) else s;
    s1.(role := Follower, leader := from, hasLeader := true)
  }

  /** The commit index is taken from the whole local log, not from the last new entry. */
  function CommitUpTo(s: Node, leaderCommit: nat): Node {
    if leaderCommit > s.commit then Apply(s.(commit := Min(leaderCommit, |s.log|))) else s
  }

  /** `handle_append_entries`. */
  function OnAppendEntries(s: Node, from: NodeId, args: AppendArgs): (Node, AppendResult) {
    if args.term < s.term then (s, AppendResult(s.term, false, 0))
    else
      var f := Follow(s, from, args.term);
      if args.prevIndex > 0 && |f.log| < args.prevIndex then
        (f, AppendResult(f.term, false, 0))
      else if args.prevIndex > 0 && f.log[args.prevIndex - 1].term != args.prevTerm then
        (f.(log := f.log[..args.prevIndex - 1]), AppendResult(f.term, false, 0))
      else
        var merged := CommitUpTo(f.(log := Merge(f.log, args.prevIndex, args.entries)), args.commit);
        (merged, AppendResult(merged.term, true, |merged.log|))
  }

  /** First critical section of `start_election`. */
  function StartElection(s: Node, self: NodeId): Node {
    s.(term := s.term + 1, role := Candidate, votedFor := self, hasVoted := true, hasLeader := false)
  }

  function VoteArgsOf(s: Node): VoteArgs { VoteArgs(s.term, |s.log|, LastTerm(s.log)) }

  /** A `start_election` worker handling its reply; the flag says whether the vote is counted. */
  function OnVoteResult(s: Node, electionTerm: nat, result: VoteResult): (Node, bool) {
    if result.term > s.term
    then (s.(term := result.term, role := Follower, hasVoted := false), false)
    else (s, result.granted && result.term == electionTerm)
  }

  function Majority(clusterSize: nat): nat { clusterSize / 2 + 1 }

  predicate WinsElection(s: Node, electionTerm: nat, votes: nat, clusterSize: nat) {
    s.role.Candidate? && s.term == electionTerm && votes >= Majority(clusterSize)
  }

  /** Success branch of `start_election`: reset the peer indices, then append this term's no-op. */
  function BecomeLeader(s: Node, self: NodeId, peers: set<NodeId>): Node {
    s.(role := Leader, leader := self, hasLeader := true,
       next := map p | p in peers :: |s.log| + 1,
       matched := map p | p in peers :: 0,
       log := s.log + [Entry(s.term, true, NO_COMMAND)])
  }

  /** First critical section of `propose`, on a leader. */
  function AppendCommand(s: Node, c: Command): Node {
    s.(log := s.log + [Entry(s.term, false, c)])
  }

  /** First critical section of `replicate_to_peer`, for a round that saw `commit` as the commit index. */
  function BuildAppend(s: Node, peer: NodeId, commit: nat): AppendArgs
    requires peer in s.next && s.next[peer] > 0
  {
    var prev := s.next[peer] - 1;
    AppendArgs(s.term, prev,
               if 0 < prev <= |s.log| then s.log[prev - 1].term else 0,
               commit,
               if prev <= |s.log| then s.log[prev..Min(|s.log|, prev + MAX_ENTRIES)] else [])
  }

  /** Second critical section of `replicate_to_peer`. */
  function OnAppendResult(s: Node, peer: NodeId, args: AppendArgs, result: AppendResult): Node
    requires peer in s.next
  {
    if result.term > s.term then
      s.(term := result.term, role := Follower, hasVoted := false)
    else if !s.role.Leader? || s.term != args.term then s
    else if result.success then
      s.(next := s.next[peer := args.prevIndex + |args.entries| + 1],
         matched := s.matched[peer := args.prevIndex + |args.entries|])
    else if s.next[peer] > 1 then s.(next := s.next[peer := s.next[peer] - 1])
    else s
  }

  /** Peers known to hold the leader's log up to index `n`. */
  function Replicas(s: Node, peers: set<NodeId>, n: nat): set<NodeId> {
    set p | p in peers && p in s.matched && s.matched[p] >= n
  }

  /** The commit rule: an entry of the leader's own term that a majority stores. */
  predicate Committable(s: Node, peers: set<NodeId>, n: nat) {
    && 0 < n <= |s.log|
    && s.log[n - 1].term == s.term
    && 1 + |Replicas(s, peers, n)| >= Majority(|peers| + 1)
  }

  /** The downward scan of `replicate_to_all_peers`: the largest committable index up to `n`, or the old commit index. */
  function ScanCommit(s: Node, peers: set<NodeId>, n: nat): nat {
    if n <= s.commit then s.commit
    else if Committable(s, peers, n) then n
    else ScanCommit(s, peers, n - 1)
  }

  /** Last critical section of `replicate_to_all_peers`. */
  function AdvanceCommit(s: Node, peers: set<NodeId>): Node {
    var n := ScanCommit(s, peers, |s.log|);
    if n > s.commit then Apply(s.(commit := n)) else s
  }
}
