/**
  `RaftNode` itself: the critical sections of AnimusCore_v1/animus_cluster.hpp as methods that
  update the node's fields in place, with the source's loops. Each is proved equal to its
  function in `RaftSpec`, which is what the cluster's steps and theorems are about.
 */
module RaftNode {
  import opened RaftSpec

  function AsSet(peers: seq<NodeId>): set<NodeId> { set p | p in peers }

  ghost predicate Distinct(peers: seq<NodeId>) {
    forall i, j :: 0 <= i < j < |peers| ==> peers[i] != peers[j]
  }

  /** What the counting loop of the commit rule counts. */
  lemma CountOneMore(s: Node, peers: seq<NodeId>, i: nat, n: nat)
    requires Distinct(peers) && i < |peers| && n > 0
    ensures var counts := peers[i] in s.matched && s.matched[peers[i]] >= n;
            |Replicas(s, AsSet(peers[..i + 1]), n)| == |Replicas(s, AsSet(peers[..i]), n)| + if counts then 1 else 0
  {
    var before, after := AsSet(peers[..i]), AsSet(peers[..i + 1]);
    assert peers[i] !in before;
    assert after == before + {peers[i]} by {
      assert peers[..i + 1] == peers[..i] + [peers[i]];
    }
    if peers[i] in s.matched && s.matched[peers[i]] >= n {
      assert Replicas(s, after, n) == Replicas(s, before, n) + {peers[i]};
    } else {
      assert Replicas(s, after, n) == Replicas(s, before, n);
    }
  }

  lemma {:induction false} DistinctSize(peers: seq<NodeId>)
    requires Distinct(peers)
    ensures |AsSet(peers)| == |peers|
    decreases |peers|
  {
    if peers != [] {
      var k := |peers| - 1;
      DistinctSize(peers[..k]);
      assert peers == peers[..k] + [peers[k]];
      assert AsSet(peers) == AsSet(peers[..k]) + {peers[k]};
    }
  }

  lemma {:induction false} RulesOfOneMore(log: seq<Entry>, from: nat, i: nat)
    requires from <= i < |log|
    ensures RulesOf(log[from..i + 1])
            == if log[i].noop then RulesOf(log[from..i]) else AddRuleTo(RulesOf(log[from..i]), log[i].command)
  {
    assert log[from..i + 1][..i - from] == log[from..i];
  }

  /** One turn of the entry loop of `handle_append_entries`. */
  function MergeOne(log: seq<Entry>, idx: nat, e: Entry): seq<Entry> {
    if idx >= |log| then log + [e] else if log[idx].term != e.term then log[..idx] + [e] else log
  }

  lemma MergeTurn(log: seq<Entry>, idx: nat, entries: seq<Entry>)
    requires entries != []
    ensures Merge(log, idx, entries) == Merge(MergeOne(log, idx, entries[0]), idx + 1, entries[1..])
  {
  }

  class RaftNode {
    const id: NodeId
    const peers: seq<NodeId>
    var currentTerm: nat
    var votedFor: NodeId
    var hasVotedThisTerm: bool
    var role: Role
    var log: seq<Entry>
    var commitIndex: nat
    var lastApplied: nat
    var rules: seq<Command>
    var currentLeader: NodeId
    var hasLeader: bool
    var nextIndex: map<NodeId, nat>
    var matchIndex: map<NodeId, nat>

    constructor (id: NodeId, peers: seq<NodeId>)
      requires Distinct(peers)
      ensures this.id == id && this.peers == peers && State() == FRESH_NODE
    {
      this.id := id;
      this.peers := peers;
      currentTerm, votedFor, hasVotedThisTerm, role := 0, 0, false, Follower;
      log, commitIndex, lastApplied, rules := [], 0, 0, [];
      currentLeader, hasLeader, nextIndex, matchIndex := 0, false, map[], map[];
    }

    function State(): Node
      reads this
    {
      Node(currentTerm, votedFor, hasVotedThisTerm, role, log, commitIndex, lastApplied, rules,
           currentLeader, hasLeader, nextIndex, matchIndex)
    }

    /** Whether the committed entries are all there to apply. */
    predicate Applicable()
      reads this
    {
      commitIndex <= |log|
    }

    function LastLogTerm(): nat
      reads this
    {
      if log == [] then 0 else log[|log| - 1].term
    }

    method HandleRequestVote(candidate: NodeId, args: VoteArgs) returns (result: VoteResult)
      modifies this
      ensures (State(), result) == OnRequestVote(old(State()), candidate, args)
    {
      if args.term > currentTerm {
        currentTerm := args.term;
        role := Follower;
        hasVotedThisTerm := false;
      }
      var granted := false;
      if args.term >= currentTerm {
        var logOk := args.lastTerm > LastLogTerm() || (args.lastTerm == LastLogTerm() && args.lastIndex >= |log|);
        if (!hasVotedThisTerm || votedFor == candidate) && logOk {
          granted := true;
          hasVotedThisTerm := true;
          votedFor := candidate;
        }
      }
      return VoteResult(currentTerm, granted);
    }

    method HandleAppendEntries(leader: NodeId, args: AppendArgs) returns (result: AppendResult)
      modifies this
      ensures (State(), result) == OnAppendEntries(old(State()), leader, args)
    {
      if args.term < currentTerm {
        return AppendResult(currentTerm, false, 0);
      }
      if args.term > currentTerm {
        currentTerm := args.term;
        hasVotedThisTerm := false;
      }
      role := Follower;
      currentLeader := leader;
      hasLeader := true;
      if args.prevIndex > 0 {
        if |log| < args.prevIndex {
          return AppendResult(currentTerm, false, 0);
        }
        if log[args.prevIndex - 1].term != args.prevTerm {
          log := log[..args.prevIndex - 1];
          return AppendResult(currentTerm, false, 0);
        }
      }
      MergeEntries(args.prevIndex, args.entries);
      if args.commit > commitIndex {
        commitIndex := Min(args.commit, |log|);
        ApplyCommittedEntries();
      }
      return AppendResult(currentTerm, true, |log|);
    }

    /** The entry loop. */
    method MergeEntries(start: nat, entries: seq<Entry>)
      modifies this
      ensures State() == old(State()).(log := Merge(old(log), start, entries))
    {
      var idx := start;
      for i := 0 to |entries|
        invariant idx == start + i
        invariant Merge(log, idx, entries[i..]) == Merge(old(log), start, entries)
        invariant State() == old(State()).(log := log)
      {
        MergeTurn(log, idx, entries[i..]);
        if idx < |log| {
          if log[idx].term != entries[i].term {
            log := log[..idx];
            log := log + [entries[i]];
          }
        } else {
          log := log + [entries[i]];
        }
        idx := idx + 1;
        assert entries[i..][1..] == entries[i + 1..];
      }
    }

    method ApplyCommittedEntries()
      requires Applicable()
      modifies this
      ensures State() == Apply(old(State()))
    {
      ghost var from := lastApplied;
      assert from <= |log| ==> log[from..from] == [];
      while lastApplied < commitIndex
        invariant from <= lastApplied && (lastApplied == from || lastApplied <= commitIndex)
        invariant State() == old(State()).(applied := lastApplied, rules := rules)
        invariant rules == if from <= |log| then old(rules) + RulesOf(log[from..lastApplied]) else old(rules)
      {
        ApplyNext(from);
      }
    }

    /** The body of the loop. */
    method ApplyNext(ghost from: nat)
      requires from <= lastApplied < |log|
      modifies `lastApplied, `rules
      ensures lastApplied == old(lastApplied) + 1
      ensures forall before :: old(rules) == before + RulesOf(log[from..old(lastApplied)])
                ==> rules == before + RulesOf(log[from..lastApplied])
    {
      var entry := log[lastApplied];
      RulesOfOneMore(log, from, lastApplied);
      if !entry.noop {
        var _ := AddRule(entry.command);
      }
      lastApplied := lastApplied + 1;
    }

    /** `Engine::add_rule`. */
    method AddRule(c: Command) returns (ok: bool)
      modifies `rules
      ensures ok == (c.comparator <= MAX_COMPARATOR) && rules == AddRuleTo(old(rules), c)
    {
      if c.comparator > MAX_COMPARATOR {
        return false;
      }
      rules := rules + [c];
      return true;
    }

    /** First critical section of `start_election`. */
    method BeginElection() returns (args: VoteArgs)
      modifies this
      ensures State() == StartElection(old(State()), id) && args == VoteArgsOf(State())
    {
      currentTerm := currentTerm + 1;
      role := Candidate;
      votedFor := id;
      hasVotedThisTerm := true;
      hasLeader := false;
      args := VoteArgs(currentTerm, |log|, LastLogTerm());
    }

    /** A worker of `start_election` with its reply. */
    method CountVote(electionTerm: nat, result: VoteResult, votes: nat) returns (votes': nat)
      modifies this
      ensures var (s, counted) := OnVoteResult(old(State()), electionTerm, result);
              State() == s && votes' == votes + if counted then 1 else 0
    {
      votes' := votes;
      if result.term > currentTerm {
        currentTerm := result.term;
        role := Follower;
        hasVotedThisTerm := false;
        return;
      }
      if result.granted && result.term == electionTerm {
        votes' := votes + 1;
      }
    }

    /** Last critical section of `start_election`; only peers ever get an index. */
    method FinishElection(electionTerm: nat, votes: nat) returns (won: bool)
      requires nextIndex.Keys <= AsSet(peers) && matchIndex.Keys <= AsSet(peers)
      modifies this
      ensures won == WinsElection(old(State()), electionTerm, votes, |peers| + 1)
      ensures State() == if won then BecomeLeader(old(State()), id, AsSet(peers)) else old(State())
    {
      won := role == Candidate && currentTerm == electionTerm && votes >= (|peers| + 1) / 2 + 1;
      if won {
        role := Leader;
        currentLeader := id;
        hasLeader := true;
        ResetPeerIndices();
        log := log + [Entry(currentTerm, true, NO_COMMAND)];
      }
    }

    method ResetPeerIndices()
      requires nextIndex.Keys <= AsSet(peers) && matchIndex.Keys <= AsSet(peers)
      modifies `nextIndex, `matchIndex
      ensures nextIndex == map p | p in AsSet(peers) :: |log| + 1
      ensures matchIndex == map p | p in AsSet(peers) :: 0
    {
      for i := 0 to |peers|
        invariant nextIndex.Keys <= AsSet(peers) && matchIndex.Keys <= AsSet(peers)
        invariant forall k :: 0 <= k < i ==> peers[k] in nextIndex && nextIndex[peers[k]] == |log| + 1
        invariant forall k :: 0 <= k < i ==> peers[k] in matchIndex && matchIndex[peers[k]] == 0
      {
        nextIndex := nextIndex[peers[i] := |log| + 1];
        matchIndex := matchIndex[peers[i] := 0];
      }
    }

    /** First critical section of `propose`. */
    method AppendProposal(c: Command) returns (accepted: bool, index: nat)
      modifies this
      ensures accepted == old(role).Leader?
      ensures State() == if accepted then AppendCommand(old(State()), c) else old(State())
      ensures accepted ==> index == |log| && log[index - 1] == Entry(currentTerm, false, c)
    {
      if role != Leader {
        return false, 0;
      }
      log := log + [Entry(currentTerm, false, c)];
      return true, |log|;
    }

    /**
      First critical section of `replicate_to_peer`. A next index of 0 would make the source read before the
      log; `RaftInvariant.NextOk` says that a leader's next indices are never 0.
     */
    method BuildRequest(peer: NodeId, term: nat, commit: nat) returns (send: bool, args: AppendArgs)
      requires role.Leader? ==> peer in nextIndex && nextIndex[peer] > 0
      ensures send == (role.Leader? && currentTerm == term)
      ensures send ==> args == BuildAppend(State(), peer, commit)
    {
      args := AppendArgs(0, 0, 0, 0, []);
      if role != Leader || currentTerm != term {
        return false, args;
      }
      var next := nextIndex[peer];
      var prev := if next > 0 then next - 1 else 0;
      var prevTerm := if prev > 0 && prev <= |log| then log[prev - 1].term else 0;
      var entries := EntriesFrom(next);
      return true, AppendArgs(term, prev, prevTerm, commit, entries);
    }

    /** The entry loop of `replicate_to_peer`: up to MAX_ENTRIES entries from 1-based index `next`. */
    method EntriesFrom(next: nat) returns (entries: seq<Entry>)
      requires next > 0
      ensures entries == if next - 1 <= |log| then log[next - 1..Min(|log|, next - 1 + MAX_ENTRIES)] else []
    {
      entries := [];
      var i := next;
      while i <= |log| && |entries| < MAX_ENTRIES
        invariant next <= i && |entries| == i - next <= MAX_ENTRIES
        invariant i == next || i <= |log| + 1
        invariant i <= |log| + 1 ==> entries == log[next - 1..i - 1]
        decreases |log| + 1 - i
      {
        entries := entries + [log[i - 1]];
        i := i + 1;
      }
    }

    /** Second critical section of `replicate_to_peer`. */
    method HandleAppendResult(peer: NodeId, args: AppendArgs, result: AppendResult)
      requires peer in nextIndex
      modifies this
      ensures State() == OnAppendResult(old(State()), peer, args, result)
    {
      if result.term > currentTerm {
        currentTerm := result.term;
        role := Follower;
        hasVotedThisTerm := false;
        return;
      }
      if role != Leader || currentTerm != args.term {
        return;
      }
      if result.success {
        nextIndex := nextIndex[peer := args.prevIndex + |args.entries| + 1];
        matchIndex := matchIndex[peer := args.prevIndex + |args.entries|];
      } else if nextIndex[peer] > 1 {
        nextIndex := nextIndex[peer := nextIndex[peer] - 1];
      }
    }

    /** How many nodes, this one included, are known to store entry `n`. */
    method CountReplicas(n: nat) returns (count: nat)
      requires Distinct(peers) && n > 0
      ensures count == 1 + |Replicas(State(), AsSet(peers), n)|
    {
      count := 1;
      for i := 0 to |peers|
        invariant count == 1 + |Replicas(State(), AsSet(peers[..i]), n)|
      {
        CountOneMore(State(), peers, i, n);
        if (if peers[i] in matchIndex then matchIndex[peers[i]] else 0) >= n {
          count := count + 1;
        }
      }
      assert peers[..|peers|] == peers;
    }

    /** Last critical section of `replicate_to_all_peers`. */
    method AdvanceCommitIndex(term: nat)
      requires Distinct(peers)
      modifies this
      ensures State() == if old(role).Leader? && old(currentTerm) == term
                         then AdvanceCommit(old(State()), AsSet(peers)) else old(State())
    {
      if role != Leader || currentTerm != term {
        return;
      }
      DistinctSize(peers);
      var n: nat := |log|;
      while n > commitIndex
        invariant State() == old(State())
        invariant n <= |log|
        invariant ScanCommit(State(), AsSet(peers), n) == ScanCommit(State(), AsSet(peers), |log|)
      {
        if log[n - 1].term == currentTerm {
          var count := CountReplicas(n);
          if count >= (|peers| + 1) / 2 + 1 {
            commitIndex := n;
            ApplyCommittedEntries();
            return;
          }
        }
        n := n - 1;
      }
    }
  }
}
