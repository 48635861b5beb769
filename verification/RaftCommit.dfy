/**
  Why it is safe that a follower commits up to the end of its own log
  (AnimusCore_v1/animus_cluster.hpp:510): the replication steps keep `SafeInv` as long as
  no leader-peer pair has more than MAX_ENTRIES + 1 calls open.
 */
module RaftCommit {
  import opened RaftSpec
  import opened RaftCluster
  import opened RaftInvariant
  import opened RaftElection
  import opened RaftReplication

  /** The largest number of open calls per pair for which line 510 is safe. */
  const SAFE_CALLS: nat := MAX_ENTRIES + 1

  // ------------------------------------------------------- no unverified tail

  /** A covered request that is accepted leaves the follower with nothing but its leader's entries. */
  lemma AcceptSettles(nodes: Nodes, h: Reigns, ids: set<NodeId>, q: AppendReq, s': Node, result: AppendResult)
    requires q.peer in nodes && nodes[q.peer].term <= q.args.term && Covered(nodes, h, q)
    requires ReignsOk(h, ids) && LogOk(s'.log, h, q.args.term)
    requires AppendDone(nodes[q.peer], s', q, result, h[q.args.term].log) && result.success
    ensures s'.log <= h[q.args.term].log
  {
    hide KeepsShared;
    var t, e, s := q.args.term, End(q.args), nodes[q.peer];
    var full := h[t].log;
    if s'.log != full[..e] {
      if e > h[t].base {
        ReignFact(h, ids, t);
        assert s'.log[e - 1] == full[..e][e - 1];
        TermsRise(h, ids, s'.log, t, e - 1, |s'.log| - 1);
        LastTermPrefix(h, s'.log, t);
      } else {
        assert s'.log == s.log && full[..e] <= s.log;
      }
    }
  }

  lemma AppendAdvances(nodes: Nodes, nodes': Nodes, h: Reigns, h': Reigns, q: AppendReq, result: AppendResult)
    requires LogStep(nodes, nodes', h, h', q.peer, q.args.term) && h'[q.args.term].log == h[q.args.term].log
    requires AppendDone(nodes[q.peer], nodes'[q.peer], q, result, h[q.args.term].log)
    requires result.success ==> nodes'[q.peer].log <= h[q.args.term].log
    ensures Advances(nodes, nodes', h, h')
  {
    hide KeepsShared, Grows;
    StepGrows(nodes, nodes', h, h', q.peer, q.args.term);
    hide LogStep;
    forall p, t | Settled(nodes, h, p, t) ensures Settled(nodes', h', p, t) {
      AppendSettled(nodes, nodes', h, h', q, result, p, t, 0);
    }
    forall p, t, b: nat | Bounded(nodes, h, p, t, b) ensures Bounded(nodes', h', p, t, b) {
      AppendSettled(nodes, nodes', h, h', q, result, p, t, b);
    }
    assert nodes'.Keys == nodes.Keys by { StepKeys(nodes, nodes', h, h', q.peer, q.args.term); }
  }

  lemma StepKeys(nodes: Nodes, nodes': Nodes, h: Reigns, h': Reigns, p: NodeId, t: nat)
    requires LogStep(nodes, nodes', h, h', p, t)
    ensures nodes'.Keys == nodes.Keys
  {
  }

  lemma AppendSettled(nodes: Nodes, nodes': Nodes, h: Reigns, h': Reigns, q: AppendReq, result: AppendResult,
                      p: NodeId, t: nat, b: nat)
    requires LogStep(nodes, nodes', h, h', q.peer, q.args.term) && h'[q.args.term].log == h[q.args.term].log
    requires AppendDone(nodes[q.peer], nodes'[q.peer], q, result, h[q.args.term].log)
    requires result.success ==> nodes'[q.peer].log <= h[q.args.term].log
    ensures Settled(nodes, h, p, t) ==> Settled(nodes', h', p, t)
    ensures Bounded(nodes, h, p, t, b) ==> Bounded(nodes', h', p, t, b)
  {
    hide KeepsShared;
  }

  lemma FollowerBackoff(c: Cluster, c': Cluster, limit: nat)
    requires BackoffOk(c.nodes, c.reigns, c.rejects, c.open, limit)
    requires Advances(c.nodes, c'.nodes, c.reigns, c'.reigns) && c'.reigns.Keys == c.reigns.Keys
    requires forall l :: l in c.nodes && c'.nodes[l].role.Leader? ==>
               c.nodes[l].role.Leader? && c'.nodes[l].term == c.nodes[l].term && c'.nodes[l].next == c.nodes[l].next
    ensures BackoffOk(c'.nodes, c'.reigns, c.rejects, c.open, limit)
  {
    hide BackoffAt;
    forall l, q | l in c'.nodes && q in c'.nodes && l != q && c'.nodes[l].role.Leader?
                  && q in c'.nodes[l].next && c'.nodes[l].term in c'.reigns && !Settled(c'.nodes, c'.reigns, q, c'.nodes[l].term)
      ensures BackoffAt(c'.nodes, c'.reigns, c.rejects, c.open, limit, l, q)
    {
      BackoffAdvances(c.nodes, c'.nodes, c.reigns, c'.reigns, c.rejects, c.open, limit, l, q);
    }
  }

  // --------------------------------------------------------------- committing

  /** What a node holds committed is in the log of every leader of its term or later. */
  lemma CommittedShared(c: Cluster, s: Node, t: nat)
    requires BaseInv(c) && Cert(c.reigns, c.nodes.Keys, s.term, s.log, s.commit) && s.term <= t && t in c.reigns
    ensures s.log[..s.commit] <= c.reigns[t].log
  {
    hide BaseInv, Quorum;
    if s.commit > 0 {
      var t0: nat, n: nat :| CertBy(c.reigns, c.nodes.Keys, s.term, s.log, s.commit, t0, n);
      if t0 < t {
        LeaderCompleteness(c, t0, n, t);
        assert s.log[..s.commit] == c.reigns[t0].log[..n][..s.commit];
      }
    }
  }

  lemma {:induction false} RulesConcat(a: seq<Entry>, b: seq<Entry>)
    ensures RulesOf(a + b) == RulesOf(a) + RulesOf(b)
    decreases |b|
  {
    if b == [] {
      assert a + b == a;
    } else {
      RulesConcat(a, b[..|b| - 1]);
      assert (a + b)[..|a + b| - 1] == a + b[..|b| - 1];
    }
  }

  /** Raising the commit index over committed entries and applying them. */
  lemma CommitMore(h: Reigns, ids: set<NodeId>, s: Node, k: nat)
    requires CommitAt(h, ids, s) && s.commit <= k && Cert(h, ids, s.term, s.log, k)
    ensures CommitAt(h, ids, Apply(s.(commit := k)))
  {
    if s.commit < k {
      RulesConcat(s.log[..s.commit], s.log[s.commit..k]);
      assert s.log[..s.commit] + s.log[s.commit..k] == s.log[..k];
    }
  }

  /** The commit index of a settled follower may follow its leader's over its whole log. */
  lemma CommitFollows(h: Reigns, ids: set<NodeId>, s: Node, full: seq<Entry>, k: nat)
    requires CommitAt(h, ids, s) && s.log <= full && Cert(h, ids, s.term, full, k)
    ensures CommitAt(h, ids, CommitUpTo(s, k))
  {
    hide CommitAt, Apply;
    if k > s.commit {
      var k' := Min(k, |s.log|);
      assert s.log[..k'] == full[..k'];
      CertPrefix(h, ids, s.term, full, k, s.log, k');
      CommitWithin(h, ids, s);
      CommitMore(h, ids, s, k');
    }
  }

  lemma CommitWithin(h: Reigns, ids: set<NodeId>, s: Node)
    requires CommitAt(h, ids, s)
    ensures s.commit <= |s.log|
  {
  }

  /** The follower before it looks at the commit index: followed, merged, nothing committed yet. */
  function Uncommitted(s: Node, s': Node, t: nat): Node {
    s.(term := t, log := s'.log, hasVoted := s'.hasVoted, role := s'.role, leader := s'.leader, hasLeader := s'.hasLeader)
  }

  lemma AppendCommitEffect(s: Node, q: AppendReq)
    requires s.term <= q.args.term
    ensures var (s', result) := OnAppendEntries(s, q.leader, q.args);
            var m := Uncommitted(s, s', q.args.term);
            s' == if result.success then CommitUpTo(m, q.args.commit) else m
  {
    hide Merge, RulesOf;
  }

  lemma SharedFact(log: seq<Entry>, log': seq<Entry>, full: seq<Entry>, k: nat)
    requires KeepsShared(log, log', full) && k <= |log| && log[..k] <= full
    ensures k <= |log'| && log'[..k] == log[..k]
  {
  }

  lemma AppendCommitAt(c: Cluster, s: Node, s': Node, q: AppendReq, result: AppendResult, full: seq<Entry>)
    requires BaseInv(c) && q.args.term in c.reigns && full == c.reigns[q.args.term].log && s.term <= q.args.term
    requires CommitAt(c.reigns, c.nodes.Keys, s) && Cert(c.reigns, c.nodes.Keys, q.args.term, full, q.args.commit)
    requires KeepsShared(s.log, s'.log, full) && (result.success ==> s'.log <= full)
    requires s' == (if result.success then CommitUpTo(Uncommitted(s, s', q.args.term), q.args.commit)
                    else Uncommitted(s, s', q.args.term))
    ensures CommitAt(c.reigns, c.nodes.Keys, s')
  {
    hide BaseInv, KeepsShared, CommitUpTo, Cert, RulesOf, Grows;
    var h, ids, m := c.reigns, c.nodes.Keys, Uncommitted(s, s', q.args.term);
    CommitWithin(h, ids, s);
    CommittedShared(c, s, q.args.term);
    SharedFact(s.log, s'.log, full, s.commit);
    GrowsRefl(h);
    CommitGrows(h, h, ids, s, m);
    hide CommitAt;
    if result.success {
      CommitFollows(h, ids, m, full, q.args.commit);
    }
  }

  lemma CommitStays(h: Reigns, h': Reigns, ids: set<NodeId>, s: Node)
    requires CommitAt(h, ids, s) && Grows(h, h')
    ensures CommitAt(h', ids, s)
  {
    CommitGrows(h, h', ids, s, s);
  }

  lemma CommitsGrow(nodes: Nodes, nodes': Nodes, h: Reigns, h': Reigns, p: NodeId)
    requires CommitOk(nodes, h) && Grows(h, h') && nodes'.Keys == nodes.Keys && p in nodes
    requires forall q :: q in nodes && q != p ==> nodes'[q] == nodes[q]
    requires CommitAt(h', nodes.Keys, nodes'[p])
    ensures CommitOk(nodes', h')
  {
    hide CommitAt, Grows;
    forall q | q in nodes' ensures CommitAt(h', nodes.Keys, nodes'[q]) {
      if q != p {
        assert CommitAt(h, nodes.Keys, nodes[q]);
        CommitStays(h, h', nodes.Keys, nodes[q]);
      }
    }
  }

  // ------------------------------------------------------------ HandleAppend

  lemma CoverFact(nodes: Nodes, h: Reigns, sent: set<AppendReq>, q: AppendReq)
    requires CoverOk(nodes, h, sent) && q in sent
    ensures Covered(nodes, h, q)
  {
  }

  lemma CommitFact(nodes: Nodes, h: Reigns, p: NodeId)
    requires CommitOk(nodes, h) && p in nodes
    ensures CommitAt(h, nodes.Keys, nodes[p])
  {
  }

  lemma CertFact(h: Reigns, ids: set<NodeId>, sent: set<AppendReq>, q: AppendReq)
    requires SentCert(h, ids, sent) && q in sent
    ensures q.args.term in h && Cert(h, ids, q.args.term, h[q.args.term].log, q.args.commit)
  {
  }

  /** What an accepted request does to the follower's log, with no unverified tail in the way. */
  lemma AppendOutcome(c: Cluster, req: AppendReq)
    requires BaseInv(c) && CoverOk(c.nodes, c.reigns, c.sent)
    requires Enabled(c, HandleAppend(req)) && c.nodes[req.peer].term <= req.args.term
    ensures var (s', result) := OnAppendEntries(c.nodes[req.peer], req.leader, req.args);
            && req.args.term in c.reigns
            && AppendDone(c.nodes[req.peer], s', req, result, c.reigns[req.args.term].log)
            && (result.success ==> s'.log <= c.reigns[req.args.term].log)
  {
    hide BallotsOk, VotesOk, CampaignsOk, ElectedOk, RolesOk, ReignsOk, LogsOk, NextOk, MatchedOk;
    hide SentOk, RoundsOk, OpenOk, AnswersOk, AckInv, OnAppendEntries, KeepsShared, LogOk, CoverOk, Covered;
    var p, t, h, ids := req.peer, req.args.term, c.reigns, c.nodes.Keys;
    var (s', result) := OnAppendEntries(c.nodes[p], req.leader, req.args);
    AppendIsLogStep(c, req);
    hide LogStep;
    SentFact(h, ids, c.sent, req);
    ReignFact(h, ids, t);
    LogFact(c.nodes, h, p);
    AppendLogOk(h, c.nodes[p], s', req, result);
    if result.success {
      CoverFact(c.nodes, h, c.sent, req);
      AcceptSettles(c.nodes, h, ids, req, s', result);
    }
  }

  lemma AppendTail(c: Cluster, req: AppendReq, limit: nat)
    requires BaseInv(c) && TailInv(c, limit) && Enabled(c, HandleAppend(req)) && c.nodes[req.peer].term <= req.args.term
    ensures TailInv(DoHandleAppend(c, req), limit)
  {
    hide BaseInv, CoverOk, BackoffOk, OnAppendEntries, KeepsShared, Settled;
    var c' := DoHandleAppend(c, req);
    var p, t := req.peer, req.args.term;
    var nodes, nodes', h, h' := c.nodes, c'.nodes, c.reigns, c'.reigns;
    var result := OnAppendEntries(nodes[p], req.leader, req.args).1;
    AppendOutcome(c, req);
    AppendIsLogStep(c, req);
    AppendAdvances(nodes, nodes', h, h', req, result);
    TailAdvances(nodes, nodes', h, h', c.sent, c.answers);
    NewTelling(nodes', h', req, result);
    FollowerBackoff(c, c', limit);
  }

  lemma NewTelling(nodes': Nodes, h': Reigns, req: AppendReq, result: AppendResult)
    requires req.peer in nodes' && nodes'[req.peer].term == req.args.term && req.args.term in h'
    requires result.success ==> nodes'[req.peer].log <= h'[req.args.term].log
    requires !result.success ==> |nodes'[req.peer].log| < req.args.prevIndex
    ensures Telling(nodes', h', AppendRep(req, result))
  {
  }

  lemma AppendKeepsShared(s: Node, s': Node, q: AppendReq, result: AppendResult, full: seq<Entry>)
    requires AppendDone(s, s', q, result, full)
    ensures KeepsShared(s.log, s'.log, full)
  {
  }

  lemma AppendCommits(c: Cluster, req: AppendReq)
    requires BaseInv(c) && CoverOk(c.nodes, c.reigns, c.sent) && CommitInv(c)
    requires Enabled(c, HandleAppend(req)) && c.nodes[req.peer].term <= req.args.term
    ensures CommitInv(DoHandleAppend(c, req))
  {
    hide BaseInv, CoverOk, CommitOk, SentCert, RoundsCert, OnAppendEntries, AppendDone, CommitAt, Cert, Grows;
    hide CommitUpTo, KeepsShared;
    var c' := DoHandleAppend(c, req);
    var p, t := req.peer, req.args.term;
    var nodes, nodes', h, h' := c.nodes, c'.nodes, c.reigns, c'.reigns;
    AppendOutcome(c, req);
    AppendIsLogStep(c, req);
    StepGrows(nodes, nodes', h, h', p, t);
    CertsGrow(h, h', nodes.Keys, c.sent, c.rounds);
    CommitFact(nodes, h, p);
    CertFact(h, nodes.Keys, c.sent, req);
    var (s', result) := OnAppendEntries(nodes[p], req.leader, req.args);
    AppendCommitEffect(nodes[p], req);
    AppendKeepsShared(nodes[p], s', req, result, h[t].log);
    AppendCommitAt(c, nodes[p], s', req, result, h[t].log);
    CommitStays(h, h', nodes.Keys, s');
    CommitsGrow(nodes, nodes', h, h', p);
  }

  lemma HandleAppendSafe(c: Cluster, req: AppendReq, limit: nat)
    requires BaseInv(c) && SafeInv(c, limit) && Enabled(c, HandleAppend(req))
    ensures SafeInv(Next(c, HandleAppend(req)), limit)
  {
    hide BaseInv, CommitInv, DoHandleAppend, CoverOk, TellingOk, BackoffOk;
    if c.nodes[req.peer].term <= req.args.term {
      AppendTail(c, req, limit);
      AppendCommits(c, req);
    } else {
      StaleSafe(c, req, limit);
    }
  }

  lemma StaleSafe(c: Cluster, req: AppendReq, limit: nat)
    requires BaseInv(c) && SafeInv(c, limit) && Enabled(c, HandleAppend(req)) && c.nodes[req.peer].term > req.args.term
    ensures SafeInv(DoHandleAppend(c, req), limit)
  {
    hide BaseInv, CoverOk, BackoffOk, RejectsOk, CommitOk, SentCert, RoundsCert, Settled, Bounded;
    var c' := DoHandleAppend(c, req);
    assert c'.nodes == c.nodes;
  }

  // ----------------------------------------------------------------- Propose

  lemma ProposeAdvances(nodes: Nodes, nodes': Nodes, h: Reigns, h': Reigns, l: NodeId, t: nat)
    requires LogStep(nodes, nodes', h, h', l, t) && nodes'[l].log == h'[t].log && nodes[l].term == t
    ensures Advances(nodes, nodes', h, h')
  {
    StepGrows(nodes, nodes', h, h', l, t);
  }

  lemma ProposeSafe(c: Cluster, l: NodeId, command: Command, limit: nat)
    requires BaseInv(c) && SafeInv(c, limit) && Enabled(c, Propose(l, command))
    ensures SafeInv(Next(c, Propose(l, command)), limit)
  {
    hide BaseInv, CoverOk, TellingOk, BackoffOk, CommitOk, SentCert, RoundsCert, CommitAt, Settled, Grows;
    var c' := DoPropose(c, l, command);
    var nodes, nodes', h, h', t := c.nodes, c'.nodes, c.reigns, c'.reigns, c.nodes[l].term;
    ProposeIsLogStep(c, l, command);
    StepGrows(nodes, nodes', h, h', l, t);
    ProposeAdvances(nodes, nodes', h, h', l, t);
    TailAdvances(nodes, nodes', h, h', c.sent, c.answers);
    FollowerBackoff(c, c', limit);
    CertsGrow(h, h', nodes.Keys, c.sent, c.rounds);
    CommitFact(nodes, h, l);
    CommitWithin(h, nodes.Keys, nodes[l]);
    CommitGrows(h, h', nodes.Keys, nodes[l], nodes'[l]);
    CommitsGrow(nodes, nodes', h, h', l);
  }

  // -------------------------------------------------------------- leader rounds

  lemma OpenRoundSafe(c: Cluster, l: NodeId, limit: nat)
    requires BaseInv(c) && SafeInv(c, limit) && Enabled(c, OpenRound(l))
    ensures SafeInv(Next(c, OpenRound(l)), limit)
  {
    hide BallotsOk, VotesOk, CampaignsOk, ElectedOk, RolesOk, LogInv, NetInv, AckInv, Cert;
    hide CoverOk, TellingOk, BackoffOk, RejectsOk, CommitOk, SentCert, Committable;
    LeaderFact(c.nodes, c.reigns, l);
    CommitFact(c.nodes, c.reigns, l);
  }

  /** A majority of the members, this one counted without being a replica. */
  lemma MajorityIsQuorum(ids: set<NodeId>, l: NodeId, replicas: set<NodeId>, acked: set<NodeId>)
    requires l in ids && replicas <= ids - {l} && 1 + |replicas| >= Majority(|ids - {l}| + 1)
    requires replicas + {l} <= acked <= ids
    ensures Quorum(ids, acked)
  {
    SubsetSize(replicas + {l}, acked);
    assert ids == (ids - {l}) + {l};
  }

  lemma ReplicasAcked(c: Cluster, l: NodeId, n: nat)
    requires BaseInv(c) && l in c.nodes && c.nodes[l].role.Leader? && n <= |c.nodes[l].log|
    ensures c.nodes[l].term in c.reigns
    ensures Replicas(c.nodes[l], Peers(c, l), n) + {l} <= AckSet(c.reigns, c.nodes.Keys, c.nodes[l].term, n)
  {
    hide BallotsOk, VotesOk, CampaignsOk, ElectedOk, RolesOk, ReignsOk, LogsOk, NextOk;
    hide NetInv, AcksOk, RetainOk, CandidatesOk, VotersOk, LogOk;
    LeaderFact(c.nodes, c.reigns, l);
    ReignFact(c.reigns, c.nodes.Keys, c.nodes[l].term);
    AckFact(c.nodes, c.reigns, c.nodes[l].term);
  }

  lemma OwnTermAboveBase(c: Cluster, l: NodeId, n: nat)
    requires BaseInv(c) && l in c.nodes && c.nodes[l].role.Leader?
    requires 0 < n <= |c.nodes[l].log| && c.nodes[l].log[n - 1].term == c.nodes[l].term
    ensures var t := c.nodes[l].term; t in c.reigns && c.reigns[t].log == c.nodes[l].log && c.reigns[t].base < n
  {
    hide BallotsOk, VotesOk, CampaignsOk, ElectedOk, RolesOk, ReignsOk, LogsOk, NextOk, MatchedOk, NetInv, AckInv, LogOk;
    LeaderFact(c.nodes, c.reigns, l);
    ReignFact(c.reigns, c.nodes.Keys, c.nodes[l].term);
  }

  /** The majority rule commits nothing but entries that a quorum acknowledged. */
  lemma CommittableChosen(c: Cluster, l: NodeId, n: nat)
    requires BaseInv(c) && l in c.nodes && c.nodes[l].role.Leader? && Committable(c.nodes[l], Peers(c, l), n)
    ensures Chosen(c.reigns, c.nodes.Keys, c.nodes[l].term, n) && c.nodes[l].log == c.reigns[c.nodes[l].term].log
  {
    hide BaseInv, Majority, Quorum;
    OwnTermAboveBase(c, l, n);
    ReplicasAcked(c, l, n);
    MajorityIsQuorum(c.nodes.Keys, l, Replicas(c.nodes[l], Peers(c, l), n),
                     AckSet(c.reigns, c.nodes.Keys, c.nodes[l].term, n));
  }

  /** The scan stops at a committable index or leaves the commit index alone. */
  lemma {:induction false} ScanFinds(s: Node, peers: set<NodeId>, n: nat)
    ensures var k := ScanCommit(s, peers, n);
            && (k == s.commit || (s.commit < k <= n && Committable(s, peers, k)))
            && (forall m :: k < m <= n ==> !Committable(s, peers, m))
    decreases n
  {
    if n > s.commit && !Committable(s, peers, n) { ScanFinds(s, peers, n - 1); }
    if n <= s.commit { assert ScanCommit(s, peers, n) == s.commit >= n; }
  }

  lemma AdvanceCommitAt(c: Cluster, l: NodeId)
    requires BaseInv(c) && l in c.nodes && c.nodes[l].role.Leader? && CommitAt(c.reigns, c.nodes.Keys, c.nodes[l])
    ensures CommitAt(c.reigns, c.nodes.Keys, AdvanceCommit(c.nodes[l], Peers(c, l)))
  {
    hide BaseInv, CommitAt, Committable, Chosen, ScanCommit, Apply;
    var s, peers := c.nodes[l], Peers(c, l);
    var n := ScanCommit(s, peers, |s.log|);
    ScanFinds(s, peers, |s.log|);
    if n > s.commit {
      CommittableChosen(c, l, n);
      assert CertBy(c.reigns, c.nodes.Keys, s.term, s.log, n, s.term, n);
      CommitMore(c.reigns, c.nodes.Keys, s, n);
    }
  }

  lemma AdvanceIsMove(c: Cluster, l: NodeId)
    requires l in c.nodes
    ensures TermMove(c.nodes, c.nodes[l := AdvanceCommit(c.nodes[l], Peers(c, l))], l)
  {
    hide ScanCommit, RulesOf;
  }

  lemma CloseRoundSafe(c: Cluster, round: Round, limit: nat)
    requires BaseInv(c) && SafeInv(c, limit) && Enabled(c, CloseRound(round))
    ensures SafeInv(Next(c, CloseRound(round)), limit)
  {
    hide BaseInv, TailInv, CommitOk, SentCert, RoundsCert, CommitAt, TermMove, AdvanceCommit;
    var c', l := Next(c, CloseRound(round)), round.leader;
    assert c'.nodes.Keys == c.nodes.Keys;
    AdvanceIsMove(c, l);
    MoveKeepsTail(c, c', l, limit);
    CommitFact(c.nodes, c.reigns, l);
    AdvanceCommitAt(c, l);
    GrowsRefl(c.reigns);
    CommitsGrow(c.nodes, c'.nodes, c.reigns, c'.reigns, l);
  }

  lemma GrowsRefl(h: Reigns)
    ensures Grows(h, h)
  {
  }

  // -------------------------------------------------------------------- calls

  lemma BackoffFact(nodes: Nodes, h: Reigns, rejects: Rejects, open: map<nat, AppendReq>, limit: nat, l: NodeId, p: NodeId)
    requires BackoffOk(nodes, h, rejects, open, limit) && l in nodes && p in nodes && l != p && nodes[l].role.Leader?
    requires p in nodes[l].next && nodes[l].term in h && !Settled(nodes, h, p, nodes[l].term)
    ensures BackoffAt(nodes, h, rejects, open, limit, l, p)
  {
  }

  /** With at most SAFE_CALLS calls open per pair, every request a leader builds is covered. */
  lemma BuiltCovered(c: Cluster, round: Round, peer: NodeId, call: nat, limit: nat)
    requires BaseInv(c) && TailInv(c, limit) && limit <= SAFE_CALLS && Enabled(c, Build(round, peer, call))
    ensures var req := AppendReq(round.leader, peer, BuildAppend(c.nodes[round.leader], peer, round.commit));
            Covered(c.nodes, c.reigns, req)
  {
    hide BallotsOk, VotesOk, CampaignsOk, ElectedOk, RolesOk, ReignsOk, LogsOk, NextOk, MatchedOk;
    hide NetInv, AckInv, CoverOk, TellingOk, BackoffOk, RejectsOk, BuildAppend;
    var l, t, h := round.leader, round.term, c.reigns;
    BuiltReqOk(c, round, peer, call);
    LeaderFact(c.nodes, h, l);
    ReignFact(h, c.nodes.Keys, t);
    if !Settled(c.nodes, h, peer, t) {
      BackoffFact(c.nodes, h, c.rejects, c.open, limit, l, peer);
    }
  }

  /** The open calls of a term to a peer are among the calls between that term's leader and the peer. */
  lemma CallsOutstanding(c: Cluster, open: map<nat, AppendReq>, p: NodeId, t: nat, q: nat)
    requires SentOk(c.reigns, c.nodes.Keys, c.sent) && t in c.reigns && (forall k :: k in open ==> open[k] in c.sent)
    ensures |CallsFrom(open, p, t, q)| <= |Outstanding(c.(open := open), c.reigns[t].id, p)|
  {
    forall k | k in CallsFrom(open, p, t, q) ensures open[k].leader == c.reigns[t].id {
      SentFact(c.reigns, c.nodes.Keys, c.sent, open[k]);
    }
    SubsetSize(CallsFrom(open, p, t, q), Outstanding(c.(open := open), c.reigns[t].id, p));
  }

  /** Opening one more call keeps the pair's back-off bound, if the pair stays within the limit. */
  lemma BuildBound(open: map<nat, AppendReq>, p: NodeId, t: nat, n: nat, m: nat, base: nat, limit: nat,
                   call: nat, req: AppendReq)
    requires CallsBound(open, p, t, n, m, base, limit) && call !in open
    requires req.peer == p && req.args.term == t && req.args.prevIndex + 1 == n
    requires |CallsFrom(open[call := req], p, t, 0)| <= limit
    ensures CallsBound(open[call := req], p, t, n, m, base, limit)
  {
    var open' := open[call := req];
    assert CallsFrom(open', p, t, m) == CallsFrom(open, p, t, m);
    forall k | k in CallsFrom(open', p, t, 0) ensures CallBound(open', p, t, n, m, base, limit, k) {
      var q := open'[k].args.prevIndex;
      if k != call { assert k in CallsFrom(open, p, t, 0) && CallBound(open, p, t, n, m, base, limit, k); }
      if q == n - 1 {
        SubsetSize(CallsFrom(open', p, t, q) - {k}, CallsFrom(open', p, t, 0) - {k});
      } else {
        assert CallsFrom(open', p, t, q) == CallsFrom(open, p, t, q);
      }
    }
  }

  /** Fewer calls keep it too. */
  lemma FewerCallsBound(open: map<nat, AppendReq>, open': map<nat, AppendReq>, p: NodeId, t: nat, n: nat, m: nat, base: nat,
                        limit: nat)
    requires CallsBound(open, p, t, n, m, base, limit)
    requires forall k :: k in open' && open'[k].peer == p && open'[k].args.term == t ==> k in open && open[k] == open'[k]
    ensures CallsBound(open', p, t, n, m, base, limit)
  {
    SubsetSize(CallsFrom(open', p, t, m), CallsFrom(open, p, t, m));
    forall k | k in CallsFrom(open', p, t, 0) ensures CallBound(open', p, t, n, m, base, limit, k) {
      var q := open'[k].args.prevIndex;
      assert k in CallsFrom(open, p, t, 0) && CallBound(open, p, t, n, m, base, limit, k);
      SubsetSize(CallsFrom(open', p, t, q) - {k}, CallsFrom(open, p, t, q) - {k});
    }
  }

  /** A pair's back-off state does not depend on the calls of other pairs. */
  lemma OtherCallsBackoff(nodes: Nodes, h: Reigns, rejects: Rejects, open: map<nat, AppendReq>, open': map<nat, AppendReq>,
                          limit: nat, l: NodeId, p: NodeId)
    requires l in nodes && p in nodes[l].next && nodes[l].term in h && BackoffAt(nodes, h, rejects, open, limit, l, p)
    requires forall k :: k in open' && open'[k].peer == p && open'[k].args.term == nodes[l].term ==>
                           k in open && open[k] == open'[k]
    ensures BackoffAt(nodes, h, rejects, open', limit, l, p)
  {
    var t := nodes[l].term;
    FewerCallsBound(open, open', p, t, nodes[l].next[p], Lowest(rejects, t, p, h[t].base), h[t].base, limit);
  }

  lemma BuildBackoff(nodes: Nodes, h: Reigns, rejects: Rejects, open: map<nat, AppendReq>, limit: nat, l: NodeId, p: NodeId,
                     call: nat, req: AppendReq)
    requires l in nodes && p in nodes[l].next && nodes[l].term in h
    requires BackoffAt(nodes, h, rejects, open, limit, l, p) && call !in open
    requires req.peer == p && req.args.term == nodes[l].term && req.args.prevIndex + 1 == nodes[l].next[p]
    requires |CallsFrom(open[call := req], p, nodes[l].term, 0)| <= limit
    ensures BackoffAt(nodes, h, rejects, open[call := req], limit, l, p)
  {
    var t := nodes[l].term;
    BuildBound(open, p, t, nodes[l].next[p], Lowest(rejects, t, p, h[t].base), h[t].base, limit, call, req);
  }

  lemma BuildBackoffs(c: Cluster, round: Round, peer: NodeId, call: nat, limit: nat)
    requires BaseInv(c) && BackoffOk(c.nodes, c.reigns, c.rejects, c.open, limit) && Enabled(c, Build(round, peer, call))
    requires OutstandingAtMost(DoBuild(c, round, peer, call), limit)
    ensures BackoffOk(c.nodes, c.reigns, c.rejects, DoBuild(c, round, peer, call).open, limit)
  {
    hide BallotsOk, VotesOk, CampaignsOk, ElectedOk, RolesOk, LogInv, RoundsOk, AnswersOk, AckInv, BuildAppend, BackoffAt, ReqOk;
    var c' := DoBuild(c, round, peer, call);
    var req := AppendReq(round.leader, peer, BuildAppend(c.nodes[round.leader], peer, round.commit));
    BuiltReqOk(c, round, peer, call);
    var d := c.(sent := c'.sent);
    assert SentOk(c.reigns, c.nodes.Keys, c'.sent);
    forall l, p | l in c.nodes && p in c.nodes && l != p && c.nodes[l].role.Leader?
                  && p in c.nodes[l].next && c.nodes[l].term in c.reigns && !Settled(c.nodes, c.reigns, p, c.nodes[l].term)
      ensures BackoffAt(c.nodes, c.reigns, c.rejects, c'.open, limit, l, p)
    {
      LeaderFact(c.nodes, c.reigns, l);
      LeaderFact(c.nodes, c.reigns, round.leader);
      BackoffFact(c.nodes, c.reigns, c.rejects, c.open, limit, l, p);
      if l == round.leader && p == peer {
        CallsOutstanding(d, c'.open, p, round.term, 0);
        assert Outstanding(d.(open := c'.open), l, p) == Outstanding(c', l, p);
        BuildBackoff(c.nodes, c.reigns, c.rejects, c.open, limit, l, p, call, req);
      } else {
        OtherCallsBackoff(c.nodes, c.reigns, c.rejects, c.open, c'.open, limit, l, p);
      }
    }
  }

  lemma BuildSafe(c: Cluster, round: Round, peer: NodeId, call: nat, limit: nat)
    requires BaseInv(c) && SafeInv(c, limit) && limit <= SAFE_CALLS && Enabled(c, Build(round, peer, call))
    requires OutstandingAtMost(Next(c, Build(round, peer, call)), limit)
    ensures SafeInv(Next(c, Build(round, peer, call)), limit)
  {
    hide BaseInv, TellingOk, BackoffOk, RejectsOk, CommitOk, BuildAppend, ReqOk, Cert, Covered, OutstandingAtMost;
    BuiltReqOk(c, round, peer, call);
    BuiltCovered(c, round, peer, call, limit);
    BuildBackoffs(c, round, peer, call, limit);
  }

  lemma DropCallSafe(c: Cluster, call: nat, limit: nat)
    requires SafeInv(c, limit)
    ensures SafeInv(c.(open := c.open - {call}), limit)
  {
    hide CoverOk, TellingOk, RejectsOk, CommitInv, BackoffAt;
    var open' := c.open - {call};
    forall l, p | l in c.nodes && p in c.nodes && l != p && c.nodes[l].role.Leader?
                  && p in c.nodes[l].next && c.nodes[l].term in c.reigns && !Settled(c.nodes, c.reigns, p, c.nodes[l].term)
      ensures BackoffAt(c.nodes, c.reigns, c.rejects, open', limit, l, p)
    {
      OtherCallsBackoff(c.nodes, c.reigns, c.rejects, c.open, open', limit, l, p);
    }
    SameCommit(c, c.(open := open'));
  }

  lemma SameCommit(c: Cluster, c': Cluster)
    requires CommitInv(c) && c'.nodes == c.nodes && c'.reigns == c.reigns && c'.sent == c.sent && c'.rounds == c.rounds
    ensures CommitInv(c')
  {
    hide CommitOk, SentCert, RoundsCert;
  }

  /** Closing a rejected call: one step back, one open call fewer. */
  lemma RejectBound(open: map<nat, AppendReq>, p: NodeId, t: nat, n: nat, m: nat, base: nat, limit: nat, call: nat)
    requires CallsBound(open, p, t, n, m, base, limit) && call in CallsFrom(open, p, t, 1)
    ensures CallsBound(open - {call}, p, t, if n > 1 then n - 1 else n, Min(m, open[call].args.prevIndex), base, limit)
  {
    var prev, open', n' := open[call].args.prevIndex, open - {call}, if n > 1 then n - 1 else n;
    var m' := Min(m, prev);
    assert call in CallsFrom(open, p, t, 0) && CallBound(open, p, t, n, m, base, limit, call);
    assert CallsFrom(open', p, t, m') == CallsFrom(open, p, t, m') - {call};
    forall k | k in CallsFrom(open', p, t, 0) ensures CallBound(open', p, t, n', m', base, limit, k) {
      assert k in CallsFrom(open, p, t, 0) && CallBound(open, p, t, n, m, base, limit, k);
      var q := open'[k].args.prevIndex;
      if q < m' {
        assert CallsFrom(open', p, t, q) - {k} == (CallsFrom(open, p, t, q) - {k}) - {call};
      }
    }
  }

  /** ... and the peer's log is known to be shorter. */
  lemma RejectBackoff(nodes: Nodes, nodes': Nodes, h: Reigns, rejects: Rejects, open: map<nat, AppendReq>, limit: nat,
                      l: NodeId, p: NodeId, call: nat)
    requires l in nodes && nodes[l].term in h && p in nodes[l].next && l != p
    requires IndexMove(nodes, nodes', l) && p in nodes'[l].next && call in open
    requires open[call].peer == p && open[call].args.term == nodes[l].term && open[call].args.prevIndex > 0
    requires Bounded(nodes, h, p, nodes[l].term, open[call].args.prevIndex - 1)
    requires nodes'[l].next[p] == (if nodes[l].next[p] > 1 then nodes[l].next[p] - 1 else nodes[l].next[p])
    requires BackoffAt(nodes, h, rejects, open, limit, l, p)
    ensures BackoffAt(nodes', h, NoteReject(rejects, nodes[l].term, p, open[call].args.prevIndex), open - {call}, limit, l, p)
  {
    hide CallsBound;
    var t, prev := nodes[l].term, open[call].args.prevIndex;
    var m := Lowest(rejects, t, p, h[t].base);
    RejectBound(open, p, t, nodes[l].next[p], m, h[t].base, limit, call);
    RejectBase(open, p, t, nodes[l].next[p], m, h[t].base, limit, call);
  }

  lemma RejectBase(open: map<nat, AppendReq>, p: NodeId, t: nat, n: nat, m: nat, base: nat, limit: nat, call: nat)
    requires CallsBound(open, p, t, n, m, base, limit) && call in CallsFrom(open, p, t, 0)
    ensures open[call].args.prevIndex <= base && m <= base + 1
  {
    assert CallBound(open, p, t, n, m, base, limit, call);
  }

  lemma IndexAdvances(nodes: Nodes, nodes': Nodes, l: NodeId, h: Reigns)
    requires IndexMove(nodes, nodes', l)
    ensures Advances(nodes, nodes', h, h)
  {
  }

  lemma TellingFact(nodes: Nodes, h: Reigns, answers: set<AppendRep>, a: AppendRep)
    requires TellingOk(nodes, h, answers) && a in answers
    ensures Telling(nodes, h, a)
  {
  }

  /** What a leader's back-off bookkeeping looks like once it has dealt with an outcome. */
  lemma OutcomeBackoff(c: Cluster, call: nat, rep: AppendRep, limit: nat, m: NodeId, q: NodeId)
    requires BaseInv(c) && TailInv(c, limit) && Enabled(c, CloseCall(call, rep))
    requires var s := c.nodes[rep.req.leader];
             rep.result.term <= s.term && s.role.Leader? && s.term == rep.req.args.term
    requires var c' := DoCloseCall(c, call, rep);
             && m in c'.nodes && q in c'.nodes && m != q && c'.nodes[m].role.Leader? && q in c'.nodes[m].next
             && c'.nodes[m].term in c'.reigns && !Settled(c'.nodes, c'.reigns, q, c'.nodes[m].term)
    ensures var c' := DoCloseCall(c, call, rep);
            BackoffAt(c'.nodes, c'.reigns, c'.rejects, c'.open, limit, m, q)
  {
    hide BallotsOk, VotesOk, CampaignsOk, ElectedOk, RolesOk, LogInv, SentOk, RoundsOk, OpenOk, AnswersOk, AckInv;
    hide CoverOk, TellingOk, RejectsOk, BackoffOk, BackoffAt, NextOk, MatchedOk, OnAppendResult;
    var c' := DoCloseCall(c, call, rep);
    var l, p, t, h := rep.req.leader, rep.req.peer, rep.req.args.term, c.reigns;
    OutcomeIndices(c, rep);
    AnswerFact(h, c.sent, c.answers, rep);
    SentFact(h, c.nodes.Keys, c.sent, rep.req);
    LeaderFact(c.nodes, h, m);
    LeaderFact(c.nodes, h, l);
    TellingFact(c.nodes, h, c.answers, rep);
    IndexAdvances(c.nodes, c'.nodes, l, h);
    assert !Settled(c.nodes, h, q, c.nodes[m].term);
    BackoffFact(c.nodes, h, c.rejects, c.open, limit, m, q);
    if m == l && q == p {
      RejectedNext(c.nodes[l], p, rep.req.args, rep.result);
      RejectBackoff(c.nodes, c'.nodes, h, c.rejects, c.open, limit, l, p, call);
    } else {
      OtherNext(c.nodes[l], p, rep.req.args, rep.result);
      UntouchedBackoff(c, c', limit, m, q);
    }
  }

  lemma RejectedNext(s: Node, p: NodeId, args: AppendArgs, result: AppendResult)
    requires p in s.next && s.role.Leader? && result.term <= s.term == args.term && !result.success
    ensures var s' := OnAppendResult(s, p, args, result);
            p in s'.next && s'.next[p] == if s.next[p] > 1 then s.next[p] - 1 else s.next[p]
  {
  }

  lemma OtherNext(s: Node, p: NodeId, args: AppendArgs, result: AppendResult)
    requires p in s.next
    ensures var s' := OnAppendResult(s, p, args, result);
            forall q :: q != p && q in s.next ==> q in s'.next && s'.next[q] == s.next[q]
  {
  }

  lemma UntouchedBackoff(c: Cluster, c': Cluster, limit: nat, m: NodeId, q: NodeId)
    requires m in c.nodes && q in c.nodes[m].next && c.nodes[m].term in c.reigns
    requires BackoffAt(c.nodes, c.reigns, c.rejects, c.open, limit, m, q)
    requires Advances(c.nodes, c'.nodes, c.reigns, c'.reigns) && c'.reigns == c.reigns
    requires m in c'.nodes && c'.nodes[m].term == c.nodes[m].term && q in c'.nodes[m].next
    requires c'.nodes[m].next[q] == c.nodes[m].next[q]
    requires forall k :: k in c'.open ==> k in c.open && c.open[k] == c'.open[k]
    requires Lowest(c'.rejects, c.nodes[m].term, q, c.reigns[c.nodes[m].term].base)
             == Lowest(c.rejects, c.nodes[m].term, q, c.reigns[c.nodes[m].term].base)
    ensures BackoffAt(c'.nodes, c'.reigns, c'.rejects, c'.open, limit, m, q)
  {
    hide CallsBound, Grows;
    var t := c.nodes[m].term;
    FewerCallsBound(c.open, c'.open, q, t, c.nodes[m].next[q], Lowest(c.rejects, t, q, c.reigns[t].base), c.reigns[t].base, limit);
  }

  lemma OutcomeTail(c: Cluster, call: nat, rep: AppendRep, limit: nat)
    requires BaseInv(c) && TailInv(c, limit) && Enabled(c, CloseCall(call, rep))
    requires var s := c.nodes[rep.req.leader];
             rep.result.term <= s.term && s.role.Leader? && s.term == rep.req.args.term
    ensures TailInv(DoCloseCall(c, call, rep), limit)
  {
    hide BaseInv, CoverOk, TellingOk, BackoffAt, IndexMove, OnAppendResult, NextOk, MatchedOk, Advances, Settled;
    var c' := DoCloseCall(c, call, rep);
    OutcomeIndices(c, rep);
    IndexAdvances(c.nodes, c'.nodes, rep.req.leader, c.reigns);
    TailAdvances(c.nodes, c'.nodes, c.reigns, c.reigns, c.sent, c.answers);
    assert RejectsOk(c.reigns, c'.rejects) by { RoundTerm(c, rep.req.leader); }
    forall m, q | m in c'.nodes && q in c'.nodes && m != q && c'.nodes[m].role.Leader? && q in c'.nodes[m].next
                  && c'.nodes[m].term in c'.reigns && !Settled(c'.nodes, c'.reigns, q, c'.nodes[m].term)
      ensures BackoffAt(c'.nodes, c'.reigns, c'.rejects, c'.open, limit, m, q)
    {
      OutcomeBackoff(c, call, rep, limit, m, q);
    }
  }

  lemma RoundTerm(c: Cluster, l: NodeId)
    requires BaseInv(c) && l in c.nodes && c.nodes[l].role.Leader?
    ensures c.nodes[l].term in c.reigns
  {
    hide BallotsOk, VotesOk, CampaignsOk, ElectedOk, RolesOk, LogInv, NetInv, AckInv;
    LeaderFact(c.nodes, c.reigns, l);
  }

  lemma OutcomeCommit(c: Cluster, nodes': Nodes, l: NodeId)
    requires CommitInv(c) && IndexMove(c.nodes, nodes', l)
    ensures CommitInv(c.(nodes := nodes'))
  {
    hide SentCert, RoundsCert, CommitAt;
    assert nodes'.Keys == c.nodes.Keys;
    CommitFact(c.nodes, c.reigns, l);
    SameCommitAt(c.reigns, c.nodes.Keys, c.nodes[l], nodes'[l]);
  }

  lemma SameCommitAt(h: Reigns, ids: set<NodeId>, s: Node, s': Node)
    requires CommitAt(h, ids, s) && s' == s.(next := s'.next, matched := s'.matched)
    ensures CommitAt(h, ids, s')
  {
  }

  lemma CloseCallSafe(c: Cluster, call: nat, rep: AppendRep, limit: nat)
    requires BaseInv(c) && SafeInv(c, limit) && Enabled(c, CloseCall(call, rep))
    ensures SafeInv(Next(c, CloseCall(call, rep)), limit)
  {
    hide BaseInv, TailInv, CommitInv, NextOk, MatchedOk;
    var l, c' := rep.req.leader, DoCloseCall(c, call, rep);
    if rep.result.term <= c.nodes[l].term && c.nodes[l].role.Leader? && c.nodes[l].term == rep.req.args.term {
      hide IndexMove, OnAppendResult;
      OutcomeTail(c, call, rep, limit);
      OutcomeIndices(c, rep);
      OutcomeCommit(c, c'.nodes, l);
      SameCommit(c.(nodes := c'.nodes), c');
    } else {
      DropCallSafe(c, call, limit);
      MoveKeepsSafe(c.(open := c.open - {call}), c', l, limit);
    }
  }
}
