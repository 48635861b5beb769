/**
  The replication steps keep the base invariant: log matching (section 5.3 of the Raft
  paper) and leader completeness (section 5.4), however many calls are open at once.
 */
module RaftReplication {
  import opened RaftSpec
  import opened RaftCluster
  import opened RaftInvariant
  import opened RaftElection

  // ------------------------------------------------------------------- merging

  ghost predicate Matching(log: seq<Entry>, full: seq<Entry>) {
    forall i :: 0 <= i < |log| && i < |full| && log[i].term == full[i].term ==> log[..i + 1] == full[..i + 1]
  }

  /** `log'` still has everything that `log` shares with `full`. */
  ghost predicate KeepsShared(log: seq<Entry>, log': seq<Entry>, full: seq<Entry>) {
    forall k :: 0 <= k <= |log| && log[..k] <= full ==> log[..k] <= log'
  }

  /** The entry loop leaves the log alone if it already has the slice; otherwise the log ends with the slice. */
  lemma {:induction false} MergeCases(log: seq<Entry>, idx: nat, entries: seq<Entry>, full: seq<Entry>)
    requires idx <= |log| && idx + |entries| <= |full| && entries == full[idx..idx + |entries|]
    requires log[..idx] == full[..idx] && Matching(log, full)
    ensures var m, e := Merge(log, idx, entries), idx + |entries|;
            && full[..e] <= m && (m == log || m == full[..e])
            && KeepsShared(log, m, full)
    decreases |entries|
  {
    if entries != [] {
      assert entries[1..] == full[idx + 1..idx + |entries|];
      if idx < |log| && log[idx].term == entries[0].term {
        assert log[..idx + 1] == full[..idx + 1];
        MergeCases(log, idx + 1, entries[1..], full);
      } else {
        var next := log[..idx] + [entries[0]];
        assert next == full[..idx + 1];
        if idx == |log| { assert log[..idx] == log; }
        MergeCases(next, idx + 1, entries[1..], full);
        hide Merge;
        SharedIsBelow(log, idx, full, Merge(next, idx + 1, entries[1..]));
      }
    }
  }

  /** What a conflicting or missing entry at `idx` leaves of the shared part. */
  lemma SharedIsBelow(log: seq<Entry>, idx: nat, full: seq<Entry>, m: seq<Entry>)
    requires idx <= |log| && idx < |full| && log[..idx] == full[..idx] && full[..idx + 1] <= m
    requires idx < |log| ==> log[idx].term != full[idx].term
    ensures KeepsShared(log, m, full)
  {
    forall k | 0 <= k <= |log| && log[..k] <= full ensures log[..k] <= m {
      assert k <= idx;
      assert log[..k] == full[..idx][..k];
    }
  }

  lemma MatchingLogs(h: Reigns, log: seq<Entry>, top: nat, t: nat)
    requires t in h && ReignOk(h, t) && LogOk(log, h, top)
    ensures Matching(log, h[t].log)
  {
    forall i | 0 <= i < |log| && i < |h[t].log| && log[i].term == h[t].log[i].term
      ensures log[..i + 1] == h[t].log[..i + 1]
    {
      LogMatch(h, log, h[t].log, i, top, t);
    }
  }

  // ------------------------------------------------------ handling one request

  /** What one `handle_append_entries` in the request's own term does to the follower, apart from committing. */
  ghost predicate AppendDone(s: Node, s': Node, q: AppendReq, result: AppendResult, full: seq<Entry>) {
    && s'.term == q.args.term && s'.role.Follower? && result.term == q.args.term
    && s'.next == s.next && s'.matched == s.matched && s'.votedFor == s.votedFor
    && (s.term == q.args.term ==> s'.hasVoted == s.hasVoted)
    && KeepsShared(s.log, s'.log, full)
    && (result.success ==> End(q.args) <= |full| && full[..End(q.args)] <= s'.log
                           && (s'.log == s.log || s'.log == full[..End(q.args)]))
    && (!result.success ==> q.args.prevIndex > 0 && |s'.log| < q.args.prevIndex && s'.log <= s.log)
  }

  lemma AppendEffect(h: Reigns, ids: set<NodeId>, s: Node, q: AppendReq)
    requires ReqOk(h, ids, q) && ReignOk(h, q.args.term) && LogOk(s.log, h, s.term) && s.term <= q.args.term
    ensures var (s', result) := OnAppendEntries(s, q.leader, q.args);
            AppendDone(s, s', q, result, h[q.args.term].log)
  {
    var full, prev := h[q.args.term].log, q.args.prevIndex;
    MatchingLogs(h, s.log, s.term, q.args.term);
    hide ReignOk, LogOk, AppendDone;
    if prev > 0 && |s.log| < prev {
      ShortEffect(s, q, full);
    } else if prev > 0 && s.log[prev - 1].term != q.args.prevTerm {
      MismatchEffect(s, q, full);
    } else {
      AcceptEffect(s, q, full);
    }
  }

  lemma ShortEffect(s: Node, q: AppendReq, full: seq<Entry>)
    requires s.term <= q.args.term && q.args.prevIndex > 0 && |s.log| < q.args.prevIndex
    ensures AppendDone(s, OnAppendEntries(s, q.leader, q.args).0, q, OnAppendEntries(s, q.leader, q.args).1, full)
  {
    hide KeepsShared, Merge, CommitUpTo;
    SameKeepsShared(s.log, full);
  }

  lemma MismatchEffect(s: Node, q: AppendReq, full: seq<Entry>)
    requires s.term <= q.args.term && 0 < q.args.prevIndex <= |s.log| && q.args.prevIndex <= |full|
    requires s.log[q.args.prevIndex - 1].term != q.args.prevTerm == full[q.args.prevIndex - 1].term
    ensures AppendDone(s, OnAppendEntries(s, q.leader, q.args).0, q, OnAppendEntries(s, q.leader, q.args).1, full)
  {
    hide KeepsShared, Merge, CommitUpTo;
    CutKeepsShared(s.log, q.args.prevIndex - 1, full);
  }

  lemma AcceptEffect(s: Node, q: AppendReq, full: seq<Entry>)
    requires s.term <= q.args.term && q.args.prevIndex <= |s.log| && Matching(s.log, full) && End(q.args) <= |full|
    requires q.args.entries == full[q.args.prevIndex..End(q.args)]
    requires q.args.prevIndex > 0 ==>
               s.log[q.args.prevIndex - 1].term == q.args.prevTerm == full[q.args.prevIndex - 1].term
    ensures AppendDone(s, OnAppendEntries(s, q.leader, q.args).0, q, OnAppendEntries(s, q.leader, q.args).1, full)
  {
    var prev, f := q.args.prevIndex, Follow(s, q.leader, q.args.term);
    assert s.log[..prev] == full[..prev];
    MergeCases(s.log, prev, q.args.entries, full);
    hide Matching, KeepsShared, Merge, CommitUpTo;
    CommitChangesOnlyCommit(f.(log := Merge(f.log, prev, q.args.entries)), q.args.commit);
  }

  lemma CommitChangesOnlyCommit(s: Node, k: nat)
    ensures var s' := CommitUpTo(s, k); s' == s.(commit := s'.commit, applied := s'.applied, rules := s'.rules)
  {
  }

  lemma SameKeepsShared(log: seq<Entry>, full: seq<Entry>)
    ensures KeepsShared(log, log, full)
  {
  }

  /** Cutting at a mismatch costs nothing that is shared. */
  lemma CutKeepsShared(log: seq<Entry>, i: nat, full: seq<Entry>)
    requires i < |log| && i < |full| && log[i].term != full[i].term
    ensures KeepsShared(log, log[..i], full)
  {
    forall k | 0 <= k <= |log| && log[..k] <= full ensures log[..k] <= log[..i] {
      assert forall j :: 0 <= j < k ==> log[j] == full[j];
    }
  }

  lemma AppendLogOk(h: Reigns, s: Node, s': Node, q: AppendReq, result: AppendResult)
    requires q.args.term in h && ReignOk(h, q.args.term) && LogOk(s.log, h, s.term) && s.term <= q.args.term
    requires AppendDone(s, s', q, result, h[q.args.term].log)
    ensures LogOk(s'.log, h, q.args.term)
  {
    var t := q.args.term;
    LogOkGrows(s.log, h, h, s.term, t);
    if result.success {
      PrefixOk(h[t].log, End(q.args), h, t);
    } else {
      PrefixOk(s.log, |s'.log|, h, t);
      assert s'.log == s.log[..|s'.log|];
    }
  }

  /** Acknowledged entries survive a request of a later leader, unless that leader lacked them. */
  lemma AppendKept(h: Reigns, ids: set<NodeId>, log: seq<Entry>, top: nat, log': seq<Entry>, t: nat, t0: nat, n: nat)
    requires ReignsOk(h, ids) && t in h && t0 in h && h[t0].base < n <= |h[t0].log|
    requires LogOk(log, h, top) && top <= t && KeepsShared(log, log', h[t].log)
    requires Kept(log, top, h, t0, n)
    ensures Kept(log', t, h, t0, n)
  {
    if h[t0].log[..n] <= log {
      assert ReignAt(h, ids, t0);
      assert log[..n] == h[t0].log[..n] && log[n - 1] == h[t0].log[n - 1];
      assert EntryOk(log, n - 1, h, top);
      if t0 == t || Holds(h, t0, n, t) {
        assert log[..n] <= h[t].log;
        assert log[..n] <= log';
      }
    } else {
      KeptUp(log, top, t, h, t0, n);
      var u :| t0 < u <= t && u in h && !Holds(h, t0, n, u);
    }
  }

  // -------------------------------------- one node's log and one leader's history

  /** Node `p`, now in term `t`, changes its log; the only history that moves is `t`'s log and `p`'s acknowledgement in it. */
  ghost predicate LogStep(nodes: Nodes, nodes': Nodes, h: Reigns, h': Reigns, p: NodeId, t: nat) {
    && p in nodes && nodes'.Keys == nodes.Keys && (forall q :: q in nodes && q != p ==> nodes'[q] == nodes[q])
    && nodes[p].term <= t == nodes'[p].term && !nodes'[p].role.Candidate?
    && t in h && h'.Keys == h.Keys && (forall u :: u in h && u != t ==> h'[u] == h[u])
    && var r, r' := h[t], h'[t];
       && r'.id == r.id && r'.base == r.base && r'.voters == r.voters && r.log <= r'.log
       && r'.acked.Keys == r.acked.Keys && (forall q :: q in r.acked && q != p ==> r'.acked[q] == r.acked[q])
       && p in r.acked && r.acked[p] <= r'.acked[p] <= |r'.log|
       && (r'.log == r.log || r.id == p)
  }

  lemma StepGrows(nodes: Nodes, nodes': Nodes, h: Reigns, h': Reigns, p: NodeId, t: nat)
    requires LogStep(nodes, nodes', h, h', p, t)
    ensures Grows(h, h')
  {
    assert h'[t].acked.Keys == h[t].acked.Keys;
  }

  lemma StepAckedBy(nodes: Nodes, nodes': Nodes, h: Reigns, h': Reigns, p: NodeId, t: nat, u: nat, n: nat, q: NodeId)
    requires LogStep(nodes, nodes', h, h', p, t) && AckedBy(h', u, n, q) && AcksOk(nodes, h)
    ensures (AckedBy(h, u, n, q) && n <= |h[u].log|) || (u == t && q == p)
  {
    assert AcksAt(nodes, h[u], u);
  }

  /** Nobody votes in a later term before acknowledging: an old acknowledgement is all a voter can have. */
  lemma StepVoter(nodes: Nodes, nodes': Nodes, h: Reigns, h': Reigns, p: NodeId, t: nat,
                  u: nat, v: NodeId, t0: nat, n: nat)
    requires LogStep(nodes, nodes', h, h', p, t) && AcksOk(nodes, h) && ReignsOk(h, nodes.Keys) && VotersOk(h)
    requires u in h' && v in h'[u].voters && v in nodes && u <= nodes[v].term
    requires AckedBy(h', t0, n, v) && n <= |h'[t0].log| && t0 < u
    ensures Holds(h', t0, n, u) || Lacking(h', t0, n, u - 1)
  {
    hide AcksOk, ReignsOk, VotersOk, Holds, Lacking, Grows;
    StepGrows(nodes, nodes', h, h', p, t);
    StepAckedBy(nodes, nodes', h, h', p, t, t0, n, v);
    assert u in h && v in h[u].voters;
    hide LogStep, AckedBy;
    OldVoter(h, h', nodes.Keys, u, v, t0, n);
  }

  lemma VoterTerm(h: Reigns, nodes: Nodes, ballots: set<Ballot>, u: nat, v: NodeId)
    requires BallotsOk(nodes, ballots) && ElectedOk(h, ballots, nodes.Keys) && u in h && v in h[u].voters
    ensures v in nodes && u <= nodes[v].term
  {
    assert Ballot(v, u, h[u].id) in ballots;
  }

  lemma StepVoterAt(nodes: Nodes, nodes': Nodes, h: Reigns, h': Reigns, p: NodeId, t: nat, ballots: set<Ballot>,
                    u: nat, v: NodeId, t0: nat, n: nat)
    requires LogStep(nodes, nodes', h, h', p, t) && AcksOk(nodes, h) && ReignsOk(h, nodes.Keys)
    requires BallotsOk(nodes, ballots) && ElectedOk(h, ballots, nodes.Keys) && VotersOk(h)
    ensures VoterAt(h', u, v, t0, n)
  {
    hide BallotsOk, ElectedOk, AcksOk, ReignsOk, VotersOk, Holds, Lacking;
    if u in h' && v in h'[u].voters && AckedBy(h', t0, n, v) && n <= |h'[t0].log| && t0 < u {
      assert u in h && v in h[u].voters;
      hide LogStep, AckedBy;
      VoterTerm(h, nodes, ballots, u, v);
      StepVoter(nodes, nodes', h, h', p, t, u, v, t0, n);
    }
  }

  lemma StepVoters(nodes: Nodes, nodes': Nodes, h: Reigns, h': Reigns, p: NodeId, t: nat, ballots: set<Ballot>)
    requires LogStep(nodes, nodes', h, h', p, t) && AcksOk(nodes, h) && ReignsOk(h, nodes.Keys)
    requires BallotsOk(nodes, ballots) && ElectedOk(h, ballots, nodes.Keys) && VotersOk(h)
    ensures VotersOk(h')
  {
    hide LogStep, AcksOk, ReignsOk, BallotsOk, ElectedOk, VoterAt;
    forall u: nat, v: NodeId, t0: nat, n: nat ensures VoterAt(h', u, v, t0, n) {
      StepVoterAt(nodes, nodes', h, h', p, t, ballots, u, v, t0, n);
    }
  }

  lemma StepCandidate(nodes: Nodes, nodes': Nodes, h: Reigns, h': Reigns, p: NodeId, t: nat, ballots: set<Ballot>,
                      b: Ballot, t0: nat, n: nat)
    requires LogStep(nodes, nodes', h, h', p, t) && AcksOk(nodes, h) && ReignsOk(h, nodes.Keys)
    requires BallotsOk(nodes, ballots) && CandidatesOk(nodes, h, ballots)
    requires b in ballots && AckedBy(h', t0, n, b.voter) && n <= |h'[t0].log| && t0 < b.term
    requires b.candidate in nodes' && nodes'[b.candidate].role.Candidate? && nodes'[b.candidate].term == b.term
    ensures Kept(nodes'[b.candidate].log, b.term, h', t0, n)
  {
    hide AcksOk, ReignsOk, CandidatesOk, Kept, Grows;
    assert b.voter in nodes && b.term <= nodes[b.voter].term;
    hide BallotsOk;
    StepGrows(nodes, nodes', h, h', p, t);
    StepAckedBy(nodes, nodes', h, h', p, t, t0, n, b.voter);
    assert b.candidate != p && nodes'[b.candidate] == nodes[b.candidate];
    hide LogStep, AckedBy;
    var log := nodes[b.candidate].log;
    CandidateKept(nodes, h, ballots, b, t0, n);
    KeptGrows(log, log, b.term, h, h', nodes.Keys, t0, n);
  }

  lemma StepCandidates(nodes: Nodes, nodes': Nodes, h: Reigns, h': Reigns, p: NodeId, t: nat, ballots: set<Ballot>)
    requires LogStep(nodes, nodes', h, h', p, t) && AcksOk(nodes, h) && ReignsOk(h, nodes.Keys)
    requires BallotsOk(nodes, ballots) && CandidatesOk(nodes, h, ballots)
    ensures CandidatesOk(nodes', h', ballots)
  {
    forall b, t0: nat, n: nat | b in ballots && AckedBy(h', t0, n, b.voter) && n <= |h'[t0].log| && t0 < b.term
                     && b.candidate in nodes' && nodes'[b.candidate].role.Candidate? && nodes'[b.candidate].term == b.term
      ensures Kept(nodes'[b.candidate].log, b.term, h', t0, n)
    {
      hide LogStep, AcksOk, ReignsOk, BallotsOk, Kept;
      StepCandidate(nodes, nodes', h, h', p, t, ballots, b, t0, n);
    }
  }

  lemma StepAcks(nodes: Nodes, nodes': Nodes, h: Reigns, h': Reigns, p: NodeId, t: nat)
    requires LogStep(nodes, nodes', h, h', p, t) && AcksOk(nodes, h)
    requires h[t].id == p ==> h'[t].acked[p] == |h'[t].log|
    ensures AcksOk(nodes', h')
  {
    hide AcksAt;
    forall u | u in h' ensures AcksAt(nodes', h'[u], u) {
      assert AcksAt(nodes, h[u], u);
      StepAcksAt(nodes, nodes', h, h', p, t, u);
    }
  }

  lemma StepAcksAt(nodes: Nodes, nodes': Nodes, h: Reigns, h': Reigns, p: NodeId, t: nat, u: nat)
    requires LogStep(nodes, nodes', h, h', p, t) && u in h && AcksAt(nodes, h[u], u)
    requires h[t].id == p ==> h'[t].acked[p] == |h'[t].log|
    ensures AcksAt(nodes', h'[u], u)
  {
  }

  ghost predicate RetainAt(s: Node, h: Reigns, p: NodeId) {
    forall t: nat, n: nat :: AckedBy(h, t, n, p) && n <= |h[t].log| ==> Kept(s.log, s.term, h, t, n)
  }

  /** Retention carries over once it is known for the node that changed. */
  lemma StepRetain(nodes: Nodes, nodes': Nodes, h: Reigns, h': Reigns, p: NodeId, t: nat)
    requires LogStep(nodes, nodes', h, h', p, t) && AcksOk(nodes, h) && ReignsOk(h, nodes.Keys) && RetainOk(nodes, h)
    requires RetainAt(nodes'[p], h', p)
    ensures RetainOk(nodes', h')
  {
    StepGrows(nodes, nodes', h, h', p, t);
    forall t0: nat, n: nat, q | AckedBy(h', t0, n, q) && n <= |h'[t0].log| && q in nodes'
      ensures Kept(nodes'[q].log, nodes'[q].term, h', t0, n)
    {
      if q != p {
        StepAckedBy(nodes, nodes', h, h', p, t, t0, n, q);
        assert Kept(nodes[q].log, nodes[q].term, h, t0, n);
        KeptGrows(nodes[q].log, nodes[q].log, nodes[q].term, h, h', nodes.Keys, t0, n);
      }
    }
  }

  lemma StepBallots(nodes: Nodes, nodes': Nodes, h: Reigns, h': Reigns, p: NodeId, t: nat, ballots: set<Ballot>)
    requires LogStep(nodes, nodes', h, h', p, t) && BallotsOk(nodes, ballots) && nodes'[p].votedFor == nodes[p].votedFor
    requires nodes[p].term == t ==> nodes'[p].hasVoted == nodes[p].hasVoted
    ensures BallotsOk(nodes', ballots)
  {
  }

  lemma StepVotes(nodes: Nodes, nodes': Nodes, h: Reigns, h': Reigns, p: NodeId, t: nat,
                  reqs: set<VoteReq>, reps: set<VoteRep>, ballots: set<Ballot>, campaigns: map<NodeId, Campaign>)
    requires LogStep(nodes, nodes', h, h', p, t) && VotesOk(nodes, reqs, reps, ballots)
    requires CampaignsOk(nodes, campaigns, ballots) && ElectedOk(h, ballots, nodes.Keys)
    ensures VotesOk(nodes', reqs, reps, ballots)
    ensures CampaignsOk(nodes', campaigns, ballots) && ElectedOk(h', ballots, nodes.Keys)
  {
    forall q | q in reqs ensures VoteReqOk(nodes', q) {
      assert VoteReqOk(nodes, q);
    }
  }

  lemma StepReigns(nodes: Nodes, nodes': Nodes, h: Reigns, h': Reigns, p: NodeId, t: nat)
    requires LogStep(nodes, nodes', h, h', p, t) && ReignsOk(h, nodes.Keys) && ReignOk(h', t)
    ensures ReignsOk(h', nodes.Keys)
  {
    StepGrows(nodes, nodes', h, h', p, t);
    forall u | u in h' ensures ReignAt(h', nodes.Keys, u) {
      assert ReignAt(h, nodes.Keys, u);
      if u != t { OldReign(h, h', nodes.Keys, u); }
    }
  }

  lemma StepLogs(nodes: Nodes, nodes': Nodes, h: Reigns, h': Reigns, p: NodeId, t: nat)
    requires LogStep(nodes, nodes', h, h', p, t) && LogsOk(nodes, h) && LogOk(nodes'[p].log, h', t)
    ensures LogsOk(nodes', h')
  {
    StepGrows(nodes, nodes', h, h', p, t);
    forall q | q in nodes' ensures LogOk(nodes'[q].log, h', nodes'[q].term) {
      if q != p { LogOkGrows(nodes[q].log, h, h', nodes[q].term, nodes[q].term); }
    }
  }

  lemma StepNext(nodes: Nodes, nodes': Nodes, h: Reigns, h': Reigns, p: NodeId, t: nat)
    requires LogStep(nodes, nodes', h, h', p, t) && NextOk(nodes, h) && MatchedOk(nodes, h)
    requires nodes'[p].role.Leader? ==> nodes[p].role.Leader? && nodes[p].term == t
                                        && nodes'[p].next == nodes[p].next && nodes'[p].matched == nodes[p].matched
    ensures NextOk(nodes', h') && MatchedOk(nodes', h')
  {
    StepGrows(nodes, nodes', h, h', p, t);
  }

  /** What a log step itself has to show. */
  ghost predicate StepDuties(c: Cluster, c': Cluster, p: NodeId, t: nat) {
    && LogStep(c.nodes, c'.nodes, c.reigns, c'.reigns, p, t)
    && c'.campaigns == c.campaigns && c'.voteReqs == c.voteReqs && c'.voteReps == c.voteReps && c'.ballots == c.ballots
    && c'.nodes[p].votedFor == c.nodes[p].votedFor
    && (c.nodes[p].term == t ==> c'.nodes[p].hasVoted == c.nodes[p].hasVoted)
    && (c'.nodes[p].role.Leader? ==> c.nodes[p].role.Leader? && c.nodes[p].term == t
                                     && c'.nodes[p].next == c.nodes[p].next && c'.nodes[p].matched == c.nodes[p].matched)
    && ReignOk(c'.reigns, t) && LogOk(c'.nodes[p].log, c'.reigns, t)
    && (c.reigns[t].id == p ==> c'.reigns[t].acked[p] == |c'.reigns[t].log|)
    && RolesOk(c'.nodes, c'.reigns) && RetainAt(c'.nodes[p], c'.reigns, p)
  }

  lemma StepElection(c: Cluster, c': Cluster, p: NodeId, t: nat)
    requires ElectionInv(c) && StepDuties(c, c', p, t)
    ensures ElectionInv(c')
  {
    hide RolesOk, ReignOk, LogOk, RetainAt, BallotsOk, VotesOk, CampaignsOk, ElectedOk;
    assert c'.nodes.Keys == c.nodes.Keys;
    StepBallots(c.nodes, c'.nodes, c.reigns, c'.reigns, p, t, c.ballots);
    StepVotes(c.nodes, c'.nodes, c.reigns, c'.reigns, p, t, c.voteReqs, c.voteReps, c.ballots, c.campaigns);
  }

  lemma StepLogInv(c: Cluster, c': Cluster, p: NodeId, t: nat)
    requires LogInv(c) && StepDuties(c, c', p, t)
    ensures LogInv(c')
  {
    hide RolesOk, ReignOk, LogOk, RetainAt, ReignsOk, LogsOk, NextOk, MatchedOk;
    assert c'.nodes.Keys == c.nodes.Keys;
    StepReigns(c.nodes, c'.nodes, c.reigns, c'.reigns, p, t);
    StepLogs(c.nodes, c'.nodes, c.reigns, c'.reigns, p, t);
    StepNext(c.nodes, c'.nodes, c.reigns, c'.reigns, p, t);
  }

  lemma StepAckInv(c: Cluster, c': Cluster, p: NodeId, t: nat)
    requires AckInv(c) && BallotsOk(c.nodes, c.ballots) && ElectedOk(c.reigns, c.ballots, c.nodes.Keys)
    requires ReignsOk(c.reigns, c.nodes.Keys) && StepDuties(c, c', p, t)
    ensures AckInv(c')
  {
    hide RolesOk, ReignOk, LogOk, RetainAt, ReignsOk, BallotsOk, ElectedOk, AcksOk, RetainOk, CandidatesOk, VotersOk;
    StepAcks(c.nodes, c'.nodes, c.reigns, c'.reigns, p, t);
    StepRetain(c.nodes, c'.nodes, c.reigns, c'.reigns, p, t);
    StepCandidates(c.nodes, c'.nodes, c.reigns, c'.reigns, p, t, c.ballots);
    StepVoters(c.nodes, c'.nodes, c.reigns, c'.reigns, p, t, c.ballots);
  }

  lemma StepKeepsBase(c: Cluster, c': Cluster, p: NodeId, t: nat)
    requires BaseInv(c) && StepDuties(c, c', p, t) && NetInv(c')
    ensures BaseInv(c')
  {
    hide StepDuties, NetInv, AckInv, BallotsOk, ElectedOk, VotesOk, CampaignsOk, RolesOk, ReignsOk, LogsOk, NextOk, MatchedOk;
    StepAckInv(c, c', p, t);
    hide ElectionInv, LogInv;
    StepElection(c, c', p, t);
    StepLogInv(c, c', p, t);
  }

  // ------------------------------------------------------------ HandleAppend

  lemma SameLogReign(h: Reigns, h': Reigns, t: nat)
    requires t in h && ReignOk(h, t) && Grows(h, h') && h'[t].log == h[t].log
    ensures ReignOk(h', t)
  {
    LogOkGrows(h[t].log, h, h', t, t);
  }

  lemma AppendIsLogStep(c: Cluster, req: AppendReq)
    requires BaseInv(c) && Enabled(c, HandleAppend(req)) && c.nodes[req.peer].term <= req.args.term
    ensures var c' := DoHandleAppend(c, req);
            && LogStep(c.nodes, c'.nodes, c.reigns, c'.reigns, req.peer, req.args.term)
            && AppendDone(c.nodes[req.peer], c'.nodes[req.peer], req,
                          OnAppendEntries(c.nodes[req.peer], req.leader, req.args).1, c.reigns[req.args.term].log)
            && c'.reigns[req.args.term].log == c.reigns[req.args.term].log
  {
    hide BallotsOk, VotesOk, CampaignsOk, ElectedOk, RolesOk, ReignsOk, LogsOk, NextOk, MatchedOk;
    hide SentOk, RoundsOk, OpenOk, AnswersOk, AcksOk, RetainOk, CandidatesOk, VotersOk;
    hide OnAppendEntries, LogOk, ReignOk, KeepsShared;
    var p, t, s := req.peer, req.args.term, c.nodes[req.peer];
    SentFact(c.reigns, c.nodes.Keys, c.sent, req);
    ReignFact(c.reigns, c.nodes.Keys, t);
    LogFact(c.nodes, c.reigns, p);
    AckFact(c.nodes, c.reigns, t);
    AppendEffect(c.reigns, c.nodes.Keys, s, req);
  }

  lemma AppendRetained(h: Reigns, h': Reigns, ids: set<NodeId>, nodes: Nodes, nodes': Nodes, q: AppendReq,
                       result: AppendResult, t0: nat, n: nat)
    requires LogStep(nodes, nodes', h, h', q.peer, q.args.term) && h'[q.args.term].log == h[q.args.term].log
    requires AppendDone(nodes[q.peer], nodes'[q.peer], q, result, h[q.args.term].log)
    requires ReignsOk(h, ids) && AcksOk(nodes, h) && RetainOk(nodes, h) && LogOk(nodes[q.peer].log, h, nodes[q.peer].term)
    requires h'[q.args.term].acked[q.peer] > h[q.args.term].acked[q.peer]
             ==> result.success && h'[q.args.term].acked[q.peer] == End(q.args)
    requires AckedBy(h', t0, n, q.peer) && n <= |h'[t0].log|
    ensures Kept(nodes'[q.peer].log, nodes'[q.peer].term, h', t0, n)
  {
    hide ReignsOk, AcksOk, RetainOk, LogOk, Grows, KeepsShared;
    var p, t, s, s' := q.peer, q.args.term, nodes[q.peer], nodes'[q.peer];
    StepGrows(nodes, nodes', h, h', p, t);
    if AckedBy(h, t0, n, p) && n <= |h[t0].log| {
      hide Kept;
      RetainFact(nodes, h, t0, n, p);
      AppendKept(h, ids, s.log, s.term, s'.log, t, t0, n);
      KeptGrows(s'.log, s'.log, t, h, h', ids, t0, n);
    } else {
      StepAckedBy(nodes, nodes', h, h', p, t, t0, n, p);
      AckFact(nodes, h, t);
      assert t0 == t && n <= End(q.args);
      assert h'[t].log[..n] == h[t].log[..End(q.args)][..n];
    }
  }

  lemma AppendRetains(h: Reigns, h': Reigns, ids: set<NodeId>, nodes: Nodes, nodes': Nodes, q: AppendReq, result: AppendResult)
    requires LogStep(nodes, nodes', h, h', q.peer, q.args.term) && h'[q.args.term].log == h[q.args.term].log
    requires AppendDone(nodes[q.peer], nodes'[q.peer], q, result, h[q.args.term].log)
    requires ReignsOk(h, ids) && AcksOk(nodes, h) && RetainOk(nodes, h) && LogOk(nodes[q.peer].log, h, nodes[q.peer].term)
    requires h'[q.args.term].acked[q.peer] > h[q.args.term].acked[q.peer]
             ==> result.success && h'[q.args.term].acked[q.peer] == End(q.args)
    ensures RetainAt(nodes'[q.peer], h', q.peer)
  {
    hide AppendDone, ReignsOk, AcksOk, RetainOk, LogOk, Kept;
    forall t0: nat, n: nat | AckedBy(h', t0, n, q.peer) && n <= |h'[t0].log|
      ensures Kept(nodes'[q.peer].log, nodes'[q.peer].term, h', t0, n)
    {
      AppendRetained(h, h', ids, nodes, nodes', q, result, t0, n);
    }
  }

  lemma AppendRoles(nodes: Nodes, nodes': Nodes, h: Reigns, h': Reigns, p: NodeId, t: nat)
    requires LogStep(nodes, nodes', h, h', p, t) && RolesOk(nodes, h) && h[t].id != p && nodes'[p].role.Follower?
    requires h'[t].log == h[t].log
    ensures RolesOk(nodes', h')
  {
  }

  lemma AppendNet(c: Cluster, req: AppendReq)
    requires BaseInv(c) && Enabled(c, HandleAppend(req)) && c.nodes[req.peer].term <= req.args.term
    ensures NetInv(DoHandleAppend(c, req))
  {
    hide BallotsOk, VotesOk, CampaignsOk, ElectedOk, RolesOk, ReignsOk, LogsOk, NextOk, MatchedOk;
    hide SentOk, RoundsOk, OpenOk, AcksOk, RetainOk, CandidatesOk, VotersOk, OnAppendEntries, KeepsShared, Grows;
    var c' := DoHandleAppend(c, req);
    var t, p := req.args.term, req.peer;
    AppendIsLogStep(c, req);
    SentFact(c.reigns, c.nodes.Keys, c.sent, req);
    ReignFact(c.reigns, c.nodes.Keys, t);
    StepGrows(c.nodes, c'.nodes, c.reigns, c'.reigns, p, t);
    hide LogStep, ReqOk;
    NetGrows(c, c'.reigns);
  }

  lemma AppendDuties(c: Cluster, req: AppendReq)
    requires BaseInv(c) && Enabled(c, HandleAppend(req)) && c.nodes[req.peer].term <= req.args.term
    ensures StepDuties(c, DoHandleAppend(c, req), req.peer, req.args.term)
  {
    hide BallotsOk, VotesOk, CampaignsOk, ElectedOk, RolesOk, ReignsOk, LogsOk, NextOk, MatchedOk;
    hide SentOk, RoundsOk, OpenOk, AnswersOk, AcksOk, RetainOk, CandidatesOk, VotersOk;
    hide OnAppendEntries, LogOk, ReignOk, KeepsShared, RetainAt, Grows;
    var c' := DoHandleAppend(c, req);
    var p, t := req.peer, req.args.term;
    var nodes, nodes', h, h' := c.nodes, c'.nodes, c.reigns, c'.reigns;
    var result := OnAppendEntries(nodes[p], req.leader, req.args).1;
    AppendIsLogStep(c, req);
    SentFact(h, nodes.Keys, c.sent, req);
    ReignFact(h, nodes.Keys, t);
    LogFact(nodes, h, p);
    AppendLogOk(h, nodes[p], nodes'[p], req, result);
    StepGrows(nodes, nodes', h, h', p, t);
    SameLogReign(h, h', t);
    LogOkGrows(nodes'[p].log, h, h', t, t);
    AppendRoles(nodes, nodes', h, h', p, t);
    AppendRetains(h, h', nodes.Keys, nodes, nodes', req, result);
  }

  lemma HandleAppendKeeps(c: Cluster, req: AppendReq)
    requires BaseInv(c) && Enabled(c, HandleAppend(req))
    ensures BaseInv(Next(c, HandleAppend(req)))
  {
    hide BaseInv, StepDuties, NetInv, DoHandleAppend;
    if c.nodes[req.peer].term <= req.args.term {
      AppendNet(c, req);
      AppendDuties(c, req);
      StepKeepsBase(c, DoHandleAppend(c, req), req.peer, req.args.term);
    } else {
      StaleAppend(c, req);
    }
  }

  lemma StaleAppend(c: Cluster, req: AppendReq)
    requires BaseInv(c) && Enabled(c, HandleAppend(req)) && c.nodes[req.peer].term > req.args.term
    ensures var c' := DoHandleAppend(c, req);
            c' == c.(answers := c'.answers) && BaseInv(c')
  {
    hide BallotsOk, VotesOk, CampaignsOk, ElectedOk, RolesOk, ReignsOk, LogsOk, NextOk, MatchedOk;
    hide SentOk, RoundsOk, OpenOk, AcksOk, RetainOk, CandidatesOk, VotersOk;
    var c' := DoHandleAppend(c, req);
    assert c'.nodes == c.nodes;
    SentFact(c.reigns, c.nodes.Keys, c.sent, req);
    hide ElectionInv, LogInv, AckInv, ReqOk;
    SameElection(c, c');
  }

  // ----------------------------------------------------------------- Propose

  lemma ProposeIsLogStep(c: Cluster, l: NodeId, command: Command)
    requires BaseInv(c) && Enabled(c, Propose(l, command))
    ensures var c' := DoPropose(c, l, command); var t := c.nodes[l].term;
            && LogStep(c.nodes, c'.nodes, c.reigns, c'.reigns, l, t)
            && c.reigns[t].id == l && c.nodes[l].log == c.reigns[t].log
            && c'.nodes[l].log == c'.reigns[t].log == c.reigns[t].log + [Entry(t, false, command)]
            && c'.reigns[t].acked[l] == |c'.reigns[t].log|
  {
    hide BallotsOk, VotesOk, CampaignsOk, ElectedOk, RolesOk, ReignsOk, LogsOk, NextOk, MatchedOk;
    hide SentOk, RoundsOk, OpenOk, AnswersOk, AcksOk, RetainOk, CandidatesOk, VotersOk;
    var t := c.nodes[l].term;
    LeaderFact(c.nodes, c.reigns, l);
    AckFact(c.nodes, c.reigns, t);
  }

  lemma ProposeReign(h: Reigns, h': Reigns, t: nat, e: Entry)
    requires t in h && ReignOk(h, t) && Grows(h, h') && e.term == t && h'[t].log == h[t].log + [e]
    ensures ReignOk(h', t)
  {
    LogOkGrows(h[t].log, h, h', t, t);
    var log, log' := h[t].log, h'[t].log;
    forall i | 0 <= i < |log'| ensures EntryOk(log', i, h', t) {
      if i < |log| {
        assert EntryOk(log, i, h', t) && log'[..i + 1] == log[..i + 1];
      } else {
        assert log'[..i + 1] == log';
      }
    }
  }

  lemma ProposeRoles(nodes: Nodes, nodes': Nodes, h: Reigns, h': Reigns, l: NodeId, t: nat)
    requires LogStep(nodes, nodes', h, h', l, t) && RolesOk(nodes, h) && h[t].id == l && nodes[l].term == t
    requires nodes'[l] == nodes[l].(log := h'[t].log)
    ensures RolesOk(nodes', h')
  {
    hide RolesOk, ReignsHeld, LeadersKnown, LogStep;
    ProposeReigns(nodes, nodes', h, h', l, t);
    ProposeLeaders(nodes, nodes', h, h', l, t);
    RolesParts(nodes', h');
  }

  lemma RolesParts(nodes: Nodes, h: Reigns)
    requires ReignsHeld(nodes, h) && LeadersKnown(nodes, h)
    ensures RolesOk(nodes, h)
  {
  }

  lemma ProposeReigns(nodes: Nodes, nodes': Nodes, h: Reigns, h': Reigns, l: NodeId, t: nat)
    requires LogStep(nodes, nodes', h, h', l, t) && RolesOk(nodes, h) && h[t].id == l && nodes[l].term == t
    requires nodes'[l] == nodes[l].(log := h'[t].log)
    ensures ReignsHeld(nodes', h')
  {
    hide LeadersKnown;
  }

  lemma ProposeLeaders(nodes: Nodes, nodes': Nodes, h: Reigns, h': Reigns, l: NodeId, t: nat)
    requires LogStep(nodes, nodes', h, h', l, t) && RolesOk(nodes, h) && nodes'[l] == nodes[l].(log := h'[t].log)
    ensures LeadersKnown(nodes', h')
  {
    hide ReignsHeld;
  }

  lemma ProposeRetains(h: Reigns, h': Reigns, nodes: Nodes, nodes': Nodes, l: NodeId, t: nat)
    requires LogStep(nodes, nodes', h, h', l, t) && ReignsOk(h, nodes.Keys) && AcksOk(nodes, h) && RetainOk(nodes, h)
    requires nodes[l].log <= nodes'[l].log == h'[t].log && nodes[l].term == t
    ensures RetainAt(nodes'[l], h', l)
  {
    StepGrows(nodes, nodes', h, h', l, t);
    forall t0: nat, n: nat | AckedBy(h', t0, n, l) && n <= |h'[t0].log|
      ensures Kept(nodes'[l].log, nodes'[l].term, h', t0, n)
    {
      if t0 != t {
        StepAckedBy(nodes, nodes', h, h', l, t, t0, n, l);
        assert Kept(nodes[l].log, nodes[l].term, h, t0, n);
        KeptGrows(nodes[l].log, nodes'[l].log, t, h, h', nodes.Keys, t0, n);
      }
    }
  }

  lemma ProposeDuties(c: Cluster, l: NodeId, command: Command)
    requires BaseInv(c) && Enabled(c, Propose(l, command))
    ensures StepDuties(c, DoPropose(c, l, command), l, c.nodes[l].term)
  {
    hide BallotsOk, VotesOk, CampaignsOk, ElectedOk, RolesOk, ReignsOk, LogsOk, NextOk, MatchedOk;
    hide SentOk, RoundsOk, OpenOk, AnswersOk, AcksOk, RetainOk, CandidatesOk, VotersOk;
    hide LogOk, RetainAt, Grows;
    var c' := DoPropose(c, l, command);
    var nodes, nodes', h, h', t := c.nodes, c'.nodes, c.reigns, c'.reigns, c.nodes[l].term;
    ProposeIsLogStep(c, l, command);
    ReignFact(h, nodes.Keys, t);
    StepGrows(nodes, nodes', h, h', l, t);
    ProposeReign(h, h', t, Entry(t, false, command));
    ProposeRoles(nodes, nodes', h, h', l, t);
    ProposeRetains(h, h', nodes, nodes', l, t);
  }

  lemma ProposeKeeps(c: Cluster, l: NodeId, command: Command)
    requires BaseInv(c) && Enabled(c, Propose(l, command))
    ensures BaseInv(Next(c, Propose(l, command)))
  {
    hide ElectionInv, LogInv, NetInv, AckInv, StepDuties, LogStep, Grows;
    var c' := DoPropose(c, l, command);
    ProposeDuties(c, l, command);
    ProposeIsLogStep(c, l, command);
    StepGrows(c.nodes, c'.nodes, c.reigns, c'.reigns, l, c.nodes[l].term);
    NetGrows(c, c'.reigns);
    assert c'.nodes.Keys == c.nodes.Keys;
    SameNet(c.(reigns := c'.reigns), c');
    StepKeepsBase(c, c', l, c.nodes[l].term);
  }

  // -------------------------------------------- rounds, requests and their ends

  lemma OpenRoundKeeps(c: Cluster, l: NodeId)
    requires BaseInv(c) && Enabled(c, OpenRound(l))
    ensures BaseInv(Next(c, OpenRound(l)))
  {
    hide BallotsOk, VotesOk, CampaignsOk, ElectedOk, RolesOk, LogInv, AckInv, SentOk, OpenOk, AnswersOk;
    LeaderFact(c.nodes, c.reigns, l);
    hide ElectionInv;
    SameElection(c, Next(c, OpenRound(l)));
  }

  lemma BuiltReqOk(c: Cluster, round: Round, peer: NodeId, call: nat)
    requires BaseInv(c) && Enabled(c, Build(round, peer, call))
    ensures var req := AppendReq(round.leader, peer, BuildAppend(c.nodes[round.leader], peer, round.commit));
            && ReqOk(c.reigns, c.nodes.Keys, req) && req.args.term == round.term
            && req.args.prevIndex + 1 == c.nodes[round.leader].next[peer] && req.args.commit == round.commit
            && End(req.args) == Min(|c.reigns[round.term].log|, req.args.prevIndex + MAX_ENTRIES)
  {
    hide BallotsOk, VotesOk, CampaignsOk, ElectedOk, RolesOk, ReignsOk, LogsOk, MatchedOk;
    hide SentOk, RoundsOk, OpenOk, AnswersOk, AcksOk, RetainOk, CandidatesOk, VotersOk;
    LeaderFact(c.nodes, c.reigns, round.leader);
  }

  lemma BuildKeeps(c: Cluster, round: Round, peer: NodeId, call: nat)
    requires BaseInv(c) && Enabled(c, Build(round, peer, call))
    ensures BaseInv(Next(c, Build(round, peer, call)))
  {
    hide ElectionInv, LogInv, AckInv, RoundsOk, ReqOk, BuildAppend, AnswerOk, End;
    BuiltReqOk(c, round, peer, call);
    SameElection(c, Next(c, Build(round, peer, call)));
  }

  /** The election, log and acknowledgement parts look at nothing but nodes, votes and history. */
  lemma SameElection(c: Cluster, c': Cluster)
    requires ElectionInv(c) && LogInv(c) && AckInv(c)
    requires c'.nodes == c.nodes && c'.reigns == c.reigns && c'.campaigns == c.campaigns
             && c'.voteReqs == c.voteReqs && c'.voteReps == c.voteReps && c'.ballots == c.ballots
    ensures ElectionInv(c') && LogInv(c') && AckInv(c')
  {
    hide BallotsOk, VotesOk, CampaignsOk, ElectedOk, RolesOk, ReignsOk, LogsOk, NextOk, MatchedOk;
    hide AcksOk, RetainOk, CandidatesOk, VotersOk;
  }

  lemma DropCallKeeps(c: Cluster, call: nat)
    requires BaseInv(c)
    ensures BaseInv(c.(open := c.open - {call}))
  {
    hide ElectionInv, LogInv, AckInv, SentOk, RoundsOk, AnswersOk;
    SameElection(c, c.(open := c.open - {call}));
  }

  /** A leader that only moves its peer indices. */
  ghost predicate IndexMove(nodes: Nodes, nodes': Nodes, l: NodeId) {
    && l in nodes && nodes'.Keys == nodes.Keys && (forall q :: q in nodes && q != l ==> nodes'[q] == nodes[q])
    && nodes[l].role.Leader? && nodes'[l] == nodes[l].(next := nodes'[l].next, matched := nodes'[l].matched)
    && nodes'[l].next.Keys == nodes[l].next.Keys && nodes'[l].matched.Keys == nodes[l].matched.Keys
  }

  lemma IndexVotes(nodes: Nodes, nodes': Nodes, l: NodeId, reqs: set<VoteReq>, reps: set<VoteRep>, ballots: set<Ballot>)
    requires IndexMove(nodes, nodes', l) && VotesOk(nodes, reqs, reps, ballots) && BallotsOk(nodes, ballots)
    ensures VotesOk(nodes', reqs, reps, ballots) && BallotsOk(nodes', ballots)
  {
    forall q | q in reqs ensures VoteReqOk(nodes', q) {
      assert VoteReqOk(nodes, q);
    }
  }

  lemma IndexRoles(nodes: Nodes, nodes': Nodes, l: NodeId, h: Reigns)
    requires IndexMove(nodes, nodes', l) && RolesOk(nodes, h)
    ensures RolesOk(nodes', h)
  {
  }

  lemma IndexElection(c: Cluster, nodes': Nodes, l: NodeId)
    requires ElectionInv(c) && IndexMove(c.nodes, nodes', l)
    ensures ElectionInv(c.(nodes := nodes'))
  {
    hide BallotsOk, VotesOk, ElectedOk, RolesOk;
    assert nodes'.Keys == c.nodes.Keys;
    IndexVotes(c.nodes, nodes', l, c.voteReqs, c.voteReps, c.ballots);
    IndexRoles(c.nodes, nodes', l, c.reigns);
  }

  lemma IndexAcks(c: Cluster, nodes': Nodes, l: NodeId)
    requires AckInv(c) && IndexMove(c.nodes, nodes', l)
    ensures AckInv(c.(nodes := nodes'))
  {
    var nodes, h := c.nodes, c.reigns;
    forall t | t in h ensures AcksAt(nodes', h[t], t) { assert AcksAt(nodes, h[t], t); }
    forall t: nat, n: nat, p | AckedBy(h, t, n, p) && n <= |h[t].log| && p in nodes'
      ensures Kept(nodes'[p].log, nodes'[p].term, h, t, n)
    {
      assert Kept(nodes[p].log, nodes[p].term, h, t, n);
    }
    IndexCandidates(nodes, nodes', l, h, c.ballots);
  }

  lemma IndexCandidates(nodes: Nodes, nodes': Nodes, l: NodeId, h: Reigns, ballots: set<Ballot>)
    requires CandidatesOk(nodes, h, ballots) && IndexMove(nodes, nodes', l)
    ensures CandidatesOk(nodes', h, ballots)
  {
    forall b, t: nat, n: nat | b in ballots && AckedBy(h, t, n, b.voter) && n <= |h[t].log| && t < b.term
                     && b.candidate in nodes' && nodes'[b.candidate].role.Candidate? && nodes'[b.candidate].term == b.term
      ensures Kept(nodes'[b.candidate].log, b.term, h, t, n)
    {
      assert nodes'[b.candidate] == nodes[b.candidate];
    }
  }

  lemma IndexKeeps(c: Cluster, nodes': Nodes, l: NodeId)
    requires BaseInv(c) && IndexMove(c.nodes, nodes', l) && NextOk(nodes', c.reigns) && MatchedOk(nodes', c.reigns)
    ensures BaseInv(c.(nodes := nodes'))
  {
    hide ElectionInv, AckInv, ReignsOk, NextOk, MatchedOk, SentOk, RoundsOk, OpenOk, AnswersOk;
    IndexElection(c, nodes', l);
    IndexAcks(c, nodes', l);
  }

  lemma IndexBounds(nodes: Nodes, nodes': Nodes, l: NodeId, p: NodeId, h: Reigns)
    requires IndexMove(nodes, nodes', l) && NextOk(nodes, h) && MatchedOk(nodes, h) && nodes[l].term in h
    requires p in nodes[l].next && p in nodes[l].matched && p in h[nodes[l].term].acked
    requires forall q :: q in nodes[l].next && q != p ==> nodes'[l].next[q] == nodes[l].next[q]
    requires forall q :: q in nodes[l].matched && q != p ==> nodes'[l].matched[q] == nodes[l].matched[q]
    requires 1 <= nodes'[l].next[p] <= |h[nodes[l].term].log| + 1
    requires nodes'[l].matched[p] <= h[nodes[l].term].acked[p]
    ensures NextOk(nodes', h) && MatchedOk(nodes', h)
  {
  }

  /** `replicate_to_peer` after a reply it still cares about: only this peer's two indices move, within bounds. */
  lemma ResultIndices(s: Node, p: NodeId, args: AppendArgs, result: AppendResult, len: nat, acked: nat)
    requires s.role.Leader? && result.term <= s.term == args.term && p in s.next && p in s.matched
    requires 1 <= s.next[p] <= len + 1 && s.matched[p] <= acked && (result.success ==> End(args) <= acked && End(args) <= len)
    ensures var s' := OnAppendResult(s, p, args, result);
            && s' == s.(next := s'.next, matched := s'.matched)
            && s'.next.Keys == s.next.Keys && s'.matched.Keys == s.matched.Keys
            && 1 <= s'.next[p] <= len + 1 && s'.matched[p] <= acked
            && (forall q :: q in s.next && q != p ==> s'.next[q] == s.next[q])
            && (forall q :: q in s.matched && q != p ==> s'.matched[q] == s.matched[q])
  {
    var s' := OnAppendResult(s, p, args, result);
    assert s'.next.Keys == s.next.Keys && s'.matched.Keys == s.matched.Keys;
  }

  lemma IndexFact(nodes: Nodes, h: Reigns, l: NodeId, p: NodeId)
    requires NextOk(nodes, h) && MatchedOk(nodes, h) && l in nodes && nodes[l].role.Leader? && nodes[l].term in h
    requires p in nodes[l].next && p in nodes[l].matched && p in h[nodes[l].term].acked
    ensures 1 <= nodes[l].next[p] <= |h[nodes[l].term].log| + 1
    ensures nodes[l].matched[p] <= h[nodes[l].term].acked[p]
  {
  }

  /** The outcome of a call that its leader still cares about. */
  lemma OutcomeIndices(c: Cluster, rep: AppendRep)
    requires BaseInv(c) && rep in c.answers && rep.req.leader in c.nodes
    requires var s := c.nodes[rep.req.leader];
             rep.result.term <= s.term && s.role.Leader? && s.term == rep.req.args.term && rep.req.peer in s.next
    ensures var nodes' := c.nodes[rep.req.leader :=
                            OnAppendResult(c.nodes[rep.req.leader], rep.req.peer, rep.req.args, rep.result)];
            && IndexMove(c.nodes, nodes', rep.req.leader)
            && NextOk(nodes', c.reigns) && MatchedOk(nodes', c.reigns)
  {
    hide BallotsOk, VotesOk, CampaignsOk, ElectedOk, RolesOk, ReignsOk, LogsOk, NextOk, MatchedOk;
    hide SentOk, RoundsOk, OpenOk, AnswersOk, AcksOk, RetainOk, CandidatesOk, VotersOk, ReignOk, OnAppendResult;
    var l, p, t := rep.req.leader, rep.req.peer, rep.req.args.term;
    var s := c.nodes[l];
    AnswerFact(c.reigns, c.sent, c.answers, rep);
    SentFact(c.reigns, c.nodes.Keys, c.sent, rep.req);
    ReignFact(c.reigns, c.nodes.Keys, t);
    LeaderFact(c.nodes, c.reigns, l);
    IndexFact(c.nodes, c.reigns, l, p);
    ResultIndices(s, p, rep.req.args, rep.result, |c.reigns[t].log|, c.reigns[t].acked[p]);
    var s' := OnAppendResult(s, p, rep.req.args, rep.result);
    var nodes' := c.nodes[l := s'];
    assert IndexMove(c.nodes, nodes', l);
    IndexBounds(c.nodes, nodes', l, p, c.reigns);
  }

  lemma TermMoveBallots(c: Cluster, c': Cluster, p: NodeId)
    requires ElectionInv(c) && TermMove(c.nodes, c'.nodes, p)
    requires c'.ballots == c.ballots && c'.voteReqs == c.voteReqs && c'.voteReps == c.voteReps && c'.campaigns == c.campaigns
    requires c'.nodes[p].votedFor == c.nodes[p].votedFor
    requires c'.nodes[p].term == c.nodes[p].term ==> c'.nodes[p].hasVoted == c.nodes[p].hasVoted
    requires c'.nodes[p].term > c.nodes[p].term ==> c'.nodes[p].role.Follower?
    ensures BallotsOk(c'.nodes, c'.ballots) && VotesOk(c'.nodes, c'.voteReqs, c'.voteReps, c'.ballots)
    ensures CampaignsOk(c'.nodes, c'.campaigns, c'.ballots)
  {
    forall q | q in c'.voteReqs ensures VoteReqOk(c'.nodes, q) {
      assert VoteReqOk(c.nodes, q);
    }
  }

  lemma TermMoveCandidates(nodes: Nodes, nodes': Nodes, p: NodeId, h: Reigns, ballots: set<Ballot>)
    requires TermMove(nodes, nodes', p) && CandidatesOk(nodes, h, ballots)
    requires nodes'[p].term > nodes[p].term ==> nodes'[p].role.Follower?
    ensures CandidatesOk(nodes', h, ballots)
  {
    forall b, t: nat, n: nat | b in ballots && AckedBy(h, t, n, b.voter) && n <= |h[t].log| && t < b.term
                     && b.candidate in nodes' && nodes'[b.candidate].role.Candidate? && nodes'[b.candidate].term == b.term
      ensures Kept(nodes'[b.candidate].log, b.term, h, t, n)
    {
      CandidateKept(nodes, h, ballots, b, t, n);
    }
  }

  /** A node that steps down to a later term, or only commits, keeps the base invariant. */
  lemma QuietMoveKeeps(c: Cluster, c': Cluster, p: NodeId)
    requires BaseInv(c) && TermMove(c.nodes, c'.nodes, p) && c' == c.(nodes := c'.nodes, rejects := c'.rejects)
    requires c'.nodes[p].votedFor == c.nodes[p].votedFor
    requires c'.nodes[p].term == c.nodes[p].term ==> c'.nodes[p].hasVoted == c.nodes[p].hasVoted
    requires c'.nodes[p].term > c.nodes[p].term ==> c'.nodes[p].role.Follower?
    ensures BaseInv(c')
  {
    assert c'.nodes.Keys == c.nodes.Keys;
    hide TermMove, BallotsOk, VotesOk, CampaignsOk, ElectedOk, RolesOk, CandidatesOk, LogInv, NetInv, AcksOk, RetainOk, VotersOk;
    TermMoveBallots(c, c', p);
    TermMoveCandidates(c.nodes, c'.nodes, p, c.reigns, c.ballots);
    MoveKeepsBase(c, c'.(rejects := c.rejects), p);
    SameElection(c'.(rejects := c.rejects), c');
    SameNet(c'.(rejects := c.rejects), c');
  }

  lemma SameNet(c: Cluster, c': Cluster)
    requires NetInv(c) && c'.nodes.Keys == c.nodes.Keys && c'.reigns == c.reigns && c'.sent == c.sent
             && c'.rounds == c.rounds && c'.open == c.open && c'.answers == c.answers
    ensures NetInv(c')
  {
    hide SentOk, RoundsOk, OpenOk, AnswersOk;
  }

  lemma CloseCallKeeps(c: Cluster, call: nat, rep: AppendRep)
    requires BaseInv(c) && Enabled(c, CloseCall(call, rep))
    ensures BaseInv(Next(c, CloseCall(call, rep)))
  {
    hide BaseInv, NextOk, MatchedOk;
    var l, c' := rep.req.leader, DoCloseCall(c, call, rep);
    var d := c.(open := c.open - {call});
    DropCallKeeps(c, call);
    if rep.result.term <= c.nodes[l].term && c.nodes[l].role.Leader? && c.nodes[l].term == rep.req.args.term {
      hide OnAppendResult, IndexMove;
      OutcomeIndices(d, rep);
      IndexKeeps(d, c'.nodes, l);
      SameBase(d.(nodes := c'.nodes), c');
    } else {
      QuietMoveKeeps(d, c', l);
    }
  }

  lemma SameBase(c: Cluster, c': Cluster)
    requires BaseInv(c) && c' == c.(rejects := c'.rejects)
    ensures BaseInv(c')
  {
    hide ElectionInv, LogInv, NetInv, AckInv;
    SameElection(c, c');
    SameNet(c, c');
  }

  lemma CloseRoundKeeps(c: Cluster, round: Round)
    requires BaseInv(c) && Enabled(c, CloseRound(round))
    ensures BaseInv(Next(c, CloseRound(round)))
  {
    hide BaseInv, ScanCommit, RulesOf;
    QuietMoveKeeps(c, Next(c, CloseRound(round)), round.leader);
  }

  // -------------------------------------------------------- leader completeness

  /** Section 5.4 of the Raft paper: what a quorum acknowledged in its leader's own term, every later leader was elected with. */
  lemma {:induction false} LeaderCompleteness(c: Cluster, t: nat, n: nat, u: nat)
    requires BaseInv(c) && Chosen(c.reigns, c.nodes.Keys, t, n) && u in c.reigns && t < u
    ensures Holds(c.reigns, t, n, u)
    decreases u
  {
    hide BallotsOk, VotesOk, CampaignsOk, RolesOk, LogInv, NetInv, AcksOk, RetainOk, CandidatesOk;
    var h := c.reigns;
    var v := QuorumsMeet(c.nodes.Keys, AckSet(h, c.nodes.Keys, t, n), h[u].voters);
    assert VoterAt(h, u, v, t, n);
    hide VotersOk, ElectedOk;
    if !Holds(h, t, n, u) {
      var w :| t < w <= u - 1 && w in h && !Holds(h, t, n, w);
      LeaderCompleteness(c, t, n, w);
    }
  }
}
