/**
  The election steps keep the invariant, and no term ever has two leaders
  (section 5.2 of the Raft paper).
 */
module RaftElection {
  import opened RaftSpec
  import opened RaftCluster
  import opened RaftInvariant

  // ------------------------------------------------------ moving to a later term

  /** One node's term and vote may change; its log does not, and a new term ends its leadership. */
  ghost predicate TermMove(nodes: Nodes, nodes': Nodes, p: NodeId) {
    && p in nodes && nodes'.Keys == nodes.Keys && nodes' == nodes[p := nodes'[p]]
    && var s, s' := nodes[p], nodes'[p];
       && s'.log == s.log && s'.term >= s.term
       && (s'.term == s.term ==> s'.role == s.role && s'.next == s.next && s'.matched == s.matched)
       && (s'.term > s.term ==> !s'.role.Leader?)
  }

  lemma MoveKeepsLogs(nodes: Nodes, nodes': Nodes, p: NodeId, h: Reigns)
    requires TermMove(nodes, nodes', p) && LogsOk(nodes, h)
    ensures LogsOk(nodes', h)
  {
    LogOkGrows(nodes[p].log, h, h, nodes[p].term, nodes'[p].term);
  }

  lemma MoveKeepsRoles(nodes: Nodes, nodes': Nodes, p: NodeId, h: Reigns)
    requires TermMove(nodes, nodes', p) && RolesOk(nodes, h) && NextOk(nodes, h) && MatchedOk(nodes, h)
    ensures RolesOk(nodes', h) && NextOk(nodes', h) && MatchedOk(nodes', h)
  {
    hide ReignsHeld, LeadersKnown, NextOk, MatchedOk, TermMove;
    MoveKeepsIndices(nodes, nodes', p, h);
    MoveKeepsReigns(nodes, nodes', p, h);
    MoveKeepsLeaders(nodes, nodes', p, h);
  }

  lemma MoveKeepsReigns(nodes: Nodes, nodes': Nodes, p: NodeId, h: Reigns)
    requires TermMove(nodes, nodes', p) && RolesOk(nodes, h)
    ensures ReignsHeld(nodes', h)
  {
  }

  lemma MoveKeepsLeaders(nodes: Nodes, nodes': Nodes, p: NodeId, h: Reigns)
    requires TermMove(nodes, nodes', p) && LeadersKnown(nodes, h)
    ensures LeadersKnown(nodes', h)
  {
  }

  lemma MoveKeepsIndices(nodes: Nodes, nodes': Nodes, p: NodeId, h: Reigns)
    requires TermMove(nodes, nodes', p) && NextOk(nodes, h) && MatchedOk(nodes, h)
    ensures NextOk(nodes', h) && MatchedOk(nodes', h)
  {
  }

  lemma MoveKeepsAcks(nodes: Nodes, nodes': Nodes, p: NodeId, h: Reigns)
    requires TermMove(nodes, nodes', p) && AcksOk(nodes, h)
    ensures AcksOk(nodes', h)
  {
    forall t | t in h ensures AcksAt(nodes', h[t], t) {
      assert AcksAt(nodes, h[t], t);
    }
  }

  lemma MoveKeepsRetain(nodes: Nodes, nodes': Nodes, p: NodeId, h: Reigns)
    requires TermMove(nodes, nodes', p) && RetainOk(nodes, h)
    ensures RetainOk(nodes', h)
  {
    forall t: nat, n: nat, q | AckedBy(h, t, n, q) && n <= |h[t].log| && q in nodes'
      ensures Kept(nodes'[q].log, nodes'[q].term, h, t, n)
    {
      assert Kept(nodes[q].log, nodes[q].term, h, t, n);
      KeptUp(nodes[q].log, nodes[q].term, nodes'[q].term, h, t, n);
    }
  }

  lemma KeptUp(log: seq<Entry>, top: nat, top': nat, h: Reigns, t: nat, n: nat)
    requires t in h && n <= |h[t].log| && Kept(log, top, h, t, n) && top <= top'
    ensures Kept(log, top', h, t, n)
  {
    if !(h[t].log[..n] <= log) {
      var u :| t < u <= top && u in h && !Holds(h, t, n, u);
    }
  }

  /** The parts of the invariant that a step of an election rewrites put it back together. */
  lemma MoveKeepsBase(c: Cluster, c': Cluster, p: NodeId)
    requires BaseInv(c) && TermMove(c.nodes, c'.nodes, p) && c'.nodes.Keys == c.nodes.Keys
    requires c'.reigns == c.reigns && c'.sent == c.sent && c'.rounds == c.rounds
             && c'.open == c.open && c'.answers == c.answers && c'.rejects == c.rejects
    requires BallotsOk(c'.nodes, c'.ballots) && VotesOk(c'.nodes, c'.voteReqs, c'.voteReps, c'.ballots)
    requires CampaignsOk(c'.nodes, c'.campaigns, c'.ballots) && ElectedOk(c'.reigns, c'.ballots, c'.nodes.Keys)
    requires CandidatesOk(c'.nodes, c'.reigns, c'.ballots)
    ensures BaseInv(c')
  {
    hide TermMove, RolesOk, NextOk, MatchedOk, LogsOk, ReignsOk, SentOk, RoundsOk, OpenOk, AnswersOk;
    hide BallotsOk, VotesOk, CampaignsOk, ElectedOk, AcksOk, RetainOk, CandidatesOk, VotersOk;
    MoveKeepsLogs(c.nodes, c'.nodes, p, c.reigns);
    MoveKeepsRoles(c.nodes, c'.nodes, p, c.reigns);
    MoveKeepsAcks(c.nodes, c'.nodes, p, c.reigns);
    MoveKeepsRetain(c.nodes, c'.nodes, p, c.reigns);
  }

  lemma MoveAdvances(nodes: Nodes, nodes': Nodes, p: NodeId, h: Reigns)
    requires TermMove(nodes, nodes', p)
    ensures Advances(nodes, nodes', h, h)
  {
  }

  lemma MoveKeepsTail(c: Cluster, c': Cluster, p: NodeId, limit: nat)
    requires TailInv(c, limit) && TermMove(c.nodes, c'.nodes, p)
    requires c'.reigns == c.reigns && c'.sent == c.sent && c'.open == c.open && c'.answers == c.answers && c'.rejects == c.rejects
    ensures TailInv(c', limit)
  {
    var nodes, nodes', h := c.nodes, c'.nodes, c.reigns;
    MoveAdvances(nodes, nodes', p, h);
    TailAdvances(nodes, nodes', h, h, c.sent, c.answers);
    forall l, q | l in nodes' && q in nodes' && l != q && nodes'[l].role.Leader?
                  && q in nodes'[l].next && nodes'[l].term in h
                  && !Settled(nodes', h, q, nodes'[l].term)
      ensures BackoffAt(nodes', h, c.rejects, c.open, limit, l, q)
    {
      BackoffAdvances(nodes, nodes', h, h, c.rejects, c.open, limit, l, q);
    }
  }

  /** `TermMove` on a node that also keeps what it has committed and applied. */
  lemma MoveKeepsSafe(c: Cluster, c': Cluster, p: NodeId, limit: nat)
    requires SafeInv(c, limit) && TermMove(c.nodes, c'.nodes, p)
    requires c'.reigns == c.reigns && c'.sent == c.sent && c'.rounds == c.rounds
             && c'.open == c.open && c'.answers == c.answers && c'.rejects == c.rejects
    requires c'.nodes[p].commit == c.nodes[p].commit && c'.nodes[p].applied == c.nodes[p].applied
             && c'.nodes[p].rules == c.nodes[p].rules
    ensures SafeInv(c', limit)
  {
    hide TailInv, SentCert, RoundsCert;
    MoveKeepsTail(c, c', p, limit);
    assert CommitAt(c.reigns, c.nodes.Keys, c.nodes[p]);
    CommitGrows(c.reigns, c.reigns, c.nodes.Keys, c.nodes[p], c'.nodes[p]);
  }

  // -------------------------------------------------------------- starting one

  lemma CampaignVotes(c: Cluster, n: NodeId)
    requires n in c.nodes && !c.nodes[n].role.Leader?
    requires BallotsOk(c.nodes, c.ballots) && VotesOk(c.nodes, c.voteReqs, c.voteReps, c.ballots)
    ensures var c' := DoCampaign(c, n);
            BallotsOk(c'.nodes, c'.ballots) && VotesOk(c'.nodes, c'.voteReqs, c'.voteReps, c'.ballots)
  {
    var c' := DoCampaign(c, n);
    forall q | q in c'.voteReqs ensures VoteReqOk(c'.nodes, q) {
      if q in c.voteReqs { assert VoteReqOk(c.nodes, q); }
    }
  }

  lemma CampaignCounts(c: Cluster, n: NodeId)
    requires n in c.nodes && CampaignsOk(c.nodes, c.campaigns, c.ballots) && ElectedOk(c.reigns, c.ballots, c.nodes.Keys)
    ensures var c' := DoCampaign(c, n);
            CampaignsOk(c'.nodes, c'.campaigns, c'.ballots) && ElectedOk(c'.reigns, c'.ballots, c.nodes.Keys)
  {
  }

  lemma CampaignCandidates(c: Cluster, n: NodeId)
    requires n in c.nodes && BallotsOk(c.nodes, c.ballots)
    requires RetainOk(c.nodes, c.reigns) && CandidatesOk(c.nodes, c.reigns, c.ballots)
    ensures var c' := DoCampaign(c, n); CandidatesOk(c'.nodes, c'.reigns, c'.ballots)
  {
    var c' := DoCampaign(c, n);
    forall b, t: nat, k: nat | b in c'.ballots && AckedBy(c.reigns, t, k, b.voter) && k <= |c.reigns[t].log| && t < b.term
                     && b.candidate in c'.nodes && c'.nodes[b.candidate].role.Candidate?
                     && c'.nodes[b.candidate].term == b.term
      ensures Kept(c'.nodes[b.candidate].log, b.term, c.reigns, t, k)
    {
      if b !in c.ballots {
        assert Kept(c.nodes[n].log, c.nodes[n].term, c.reigns, t, k);
        KeptUp(c.nodes[n].log, c.nodes[n].term, b.term, c.reigns, t, k);
      }
    }
  }

  lemma CampaignKeeps(c: Cluster, n: NodeId)
    requires BaseInv(c) && Enabled(c, Campaigning(n))
    ensures BaseInv(Next(c, Campaigning(n)))
  {
    hide RolesOk, NextOk, MatchedOk, LogsOk, ReignsOk, SentOk, RoundsOk, OpenOk, AnswersOk;
    hide BallotsOk, VotesOk, CampaignsOk, ElectedOk, AcksOk, RetainOk, CandidatesOk, VotersOk;
    var c' := DoCampaign(c, n);
    assert c'.nodes.Keys == c.nodes.Keys;
    CampaignVotes(c, n);
    CampaignCounts(c, n);
    CampaignCandidates(c, n);
    MoveKeepsBase(c, c', n);
  }

  // -------------------------------------------------------------------- voting

  /**
    The vote's log test carries acknowledged entries over: if the voter kept them, then so
    did the candidate, unless some leader in between lacked them.
   */
  lemma UpToDateKeeps(h: Reigns, ids: set<NodeId>, voter: seq<Entry>, vt: nat, cand: seq<Entry>, ct: nat, t: nat, n: nat)
    requires ReignsOk(h, ids) && LogOk(voter, h, vt) && LogOk(cand, h, ct)
    requires t in h && h[t].base < n <= |h[t].log| && h[t].log[..n] <= voter
    requires LastTerm(cand) > LastTerm(voter) || (LastTerm(cand) == LastTerm(voter) && |cand| >= |voter|)
    ensures Kept(cand, ct, h, t, n)
  {
    assert ReignOk(h, t);
    assert voter[n - 1] == h[t].log[..n][n - 1];
    TermsRise(h, ids, voter, vt, n - 1, |voter| - 1);
    LastTermPrefix(h, voter, vt);
    assert cand != [];
    LastTermPrefix(h, cand, ct);
    var u := LastTerm(cand);
    if u == LastTerm(voter) {
      assert h[t].log[..n] <= voter <= cand;
    } else if Holds(h, t, n, u) {
      assert ReignOk(h, u);
      assert cand[|cand| - 1] == h[u].log[|cand| - 1];
      assert |cand| > h[u].base;
      assert h[t].log[..n] <= cand;
    }
  }

  lemma VoteVotes(c: Cluster, req: VoteReq, v: NodeId)
    requires Enabled(c, HandleVote(req, v))
    requires BallotsOk(c.nodes, c.ballots) && VotesOk(c.nodes, c.voteReqs, c.voteReps, c.ballots)
    ensures var c' := DoHandleVote(c, req, v);
            BallotsOk(c'.nodes, c'.ballots) && VotesOk(c'.nodes, c'.voteReqs, c'.voteReps, c'.ballots)
  {
    var c' := DoHandleVote(c, req, v);
    assert VoteReqOk(c.nodes, req);
    forall q | q in c'.voteReqs ensures VoteReqOk(c'.nodes, q) {
      assert VoteReqOk(c.nodes, q);
    }
  }

  lemma VoteCounts(c: Cluster, req: VoteReq, v: NodeId)
    requires v in c.nodes
    requires CampaignsOk(c.nodes, c.campaigns, c.ballots) && ElectedOk(c.reigns, c.ballots, c.nodes.Keys)
    ensures var c' := DoHandleVote(c, req, v);
            CampaignsOk(c'.nodes, c'.campaigns, c'.ballots) && ElectedOk(c'.reigns, c'.ballots, c.nodes.Keys)
  {
    assert DoHandleVote(c, req, v).nodes.Keys == c.nodes.Keys;
  }

  lemma VoteCandidates(c: Cluster, req: VoteReq, v: NodeId)
    requires Enabled(c, HandleVote(req, v)) && VoteReqOk(c.nodes, req)
    requires RetainOk(c.nodes, c.reigns) && CandidatesOk(c.nodes, c.reigns, c.ballots)
    requires ReignsOk(c.reigns, c.nodes.Keys) && LogsOk(c.nodes, c.reigns)
    ensures var c' := DoHandleVote(c, req, v); CandidatesOk(c'.nodes, c'.reigns, c'.ballots)
  {
    var c' := DoHandleVote(c, req, v);
    forall b, t: nat, k: nat | b in c'.ballots && AckedBy(c.reigns, t, k, b.voter) && k <= |c.reigns[t].log| && t < b.term
                     && b.candidate in c'.nodes && c'.nodes[b.candidate].role.Candidate?
                     && c'.nodes[b.candidate].term == b.term
      ensures Kept(c'.nodes[b.candidate].log, b.term, c.reigns, t, k)
    {
      var cand := c.nodes[b.candidate];
      if b !in c.ballots {
        NewVoteKeeps(c, req, v, t, k);
      } else {
        assert c'.nodes[b.candidate].log == cand.log && cand.role.Candidate? && cand.term == b.term;
      }
    }
  }

  /** A freshly granted vote: what the voter acknowledged, the candidate holds or a leader in between lacked. */
  lemma NewVoteKeeps(c: Cluster, req: VoteReq, v: NodeId, t: nat, k: nat)
    requires Enabled(c, HandleVote(req, v)) && VoteReqOk(c.nodes, req)
    requires ReignsOk(c.reigns, c.nodes.Keys) && LogsOk(c.nodes, c.reigns) && RetainOk(c.nodes, c.reigns)
    requires OnRequestVote(c.nodes[v], req.candidate, req.args).1.granted
    requires c.nodes[req.candidate].role.Candidate? && c.nodes[req.candidate].term == req.args.term
    requires AckedBy(c.reigns, t, k, v) && k <= |c.reigns[t].log| && t < req.args.term
    ensures Kept(c.nodes[req.candidate].log, req.args.term, c.reigns, t, k)
  {
    var voter, cand := c.nodes[v], c.nodes[req.candidate];
    assert Kept(voter.log, voter.term, c.reigns, t, k);
    if c.reigns[t].log[..k] <= voter.log {
      UpToDateKeeps(c.reigns, c.nodes.Keys, voter.log, voter.term, cand.log, cand.term, t, k);
    } else {
      var u :| t < u <= voter.term && u in c.reigns && !Holds(c.reigns, t, k, u);
    }
  }

  lemma HandleVoteKeeps(c: Cluster, req: VoteReq, v: NodeId)
    requires BaseInv(c) && Enabled(c, HandleVote(req, v))
    ensures BaseInv(Next(c, HandleVote(req, v)))
  {
    hide RolesOk, NextOk, MatchedOk, LogsOk, ReignsOk, SentOk, RoundsOk, OpenOk, AnswersOk;
    hide BallotsOk, CampaignsOk, ElectedOk, AcksOk, RetainOk, CandidatesOk, VotersOk;
    var c' := DoHandleVote(c, req, v);
    assert c'.nodes.Keys == c.nodes.Keys;
    assert VoteReqOk(c.nodes, req);
    hide VotesOk;
    VoteVotes(c, req, v);
    VoteCounts(c, req, v);
    VoteCandidates(c, req, v);
    MoveKeepsBase(c, c', v);
  }

  // ------------------------------------------------------------------ counting

  lemma CountVotes(c: Cluster, rep: VoteRep)
    requires Enabled(c, CountVote(rep))
    requires BallotsOk(c.nodes, c.ballots) && VotesOk(c.nodes, c.voteReqs, c.voteReps, c.ballots)
    ensures var c' := DoCountVote(c, rep);
            BallotsOk(c'.nodes, c'.ballots) && VotesOk(c'.nodes, c'.voteReqs, c'.voteReps, c'.ballots)
  {
    var c' := DoCountVote(c, rep);
    forall q | q in c'.voteReqs ensures VoteReqOk(c'.nodes, q) {
      assert VoteReqOk(c.nodes, q);
    }
  }

  lemma CountCounts(c: Cluster, rep: VoteRep)
    requires Enabled(c, CountVote(rep)) && BallotsOk(c.nodes, c.ballots)
    requires CampaignsOk(c.nodes, c.campaigns, c.ballots) && VotesOk(c.nodes, c.voteReqs, c.voteReps, c.ballots)
    ensures var c' := DoCountVote(c, rep); CampaignsOk(c'.nodes, c'.campaigns, c'.ballots)
  {
  }

  lemma CountCandidates(c: Cluster, rep: VoteRep)
    requires Enabled(c, CountVote(rep)) && CandidatesOk(c.nodes, c.reigns, c.ballots)
    ensures var c' := DoCountVote(c, rep); CandidatesOk(c'.nodes, c'.reigns, c'.ballots)
  {
    var c' := DoCountVote(c, rep);
    forall b, t: nat, k: nat | b in c'.ballots && AckedBy(c.reigns, t, k, b.voter) && k <= |c.reigns[t].log| && t < b.term
                     && b.candidate in c'.nodes && c'.nodes[b.candidate].role.Candidate?
                     && c'.nodes[b.candidate].term == b.term
      ensures Kept(c'.nodes[b.candidate].log, b.term, c.reigns, t, k)
    {
      assert c'.nodes[b.candidate] == c.nodes[b.candidate];
    }
  }

  lemma CountVoteKeeps(c: Cluster, rep: VoteRep)
    requires BaseInv(c) && Enabled(c, CountVote(rep))
    ensures BaseInv(Next(c, CountVote(rep)))
  {
    hide RolesOk, NextOk, MatchedOk, LogsOk, ReignsOk, SentOk, RoundsOk, OpenOk, AnswersOk;
    hide BallotsOk, VotesOk, CampaignsOk, ElectedOk, AcksOk, RetainOk, CandidatesOk, VotersOk;
    var c' := DoCountVote(c, rep);
    assert c'.nodes.Keys == c.nodes.Keys;
    CountVotes(c, rep);
    CountCounts(c, rep);
    CountCandidates(c, rep);
    MoveKeepsBase(c, c', rep.req.candidate);
  }

  // ------------------------------------------------------------------- winning

  /** Election safety at the moment it matters: a candidate that wins a term is its first winner. */
  lemma WinnerIsFirst(c: Cluster, n: NodeId)
    requires BallotsOk(c.nodes, c.ballots) && CampaignsOk(c.nodes, c.campaigns, c.ballots)
    requires ElectedOk(c.reigns, c.ballots, c.nodes.Keys) && RolesOk(c.nodes, c.reigns)
    requires n in c.campaigns && n in c.nodes
    requires WinsElection(c.nodes[n], c.campaigns[n].term, |c.campaigns[n].votes|, |c.nodes|)
    ensures c.nodes[n].term !in c.reigns
  {
    var t := c.nodes[n].term;
    assert |c.nodes| == |c.nodes.Keys|;
    if t in c.reigns {
      var v := QuorumsMeet(c.nodes.Keys, c.campaigns[n].votes, c.reigns[t].voters);
    }
  }

  /** `n` has won its term: it leads, with one more entry, and the term enters the history. */
  ghost predicate Crowned(nodes: Nodes, nodes': Nodes, h: Reigns, h': Reigns, n: NodeId) {
    && n in nodes && nodes'.Keys == nodes.Keys && (forall p :: p in nodes && p != n ==> nodes'[p] == nodes[p])
    && nodes[n].term !in h && h'.Keys == h.Keys + {nodes[n].term} && (forall u :: u in h ==> h'[u] == h[u])
    && var s, s', r := nodes[n], nodes'[n], h'[nodes[n].term];
       && s'.term == s.term && s'.hasVoted == s.hasVoted && s'.votedFor == s.votedFor
       && s'.commit == s.commit && s'.applied == s.applied && s'.rules == s.rules
       && s.role.Candidate? && s'.role.Leader?
       && s'.log == s.log + [Entry(s.term, true, NO_COMMAND)]
       && s'.next.Keys == nodes.Keys - {n} && s'.matched.Keys == nodes.Keys - {n}
       && (forall p :: p in s'.next ==> s'.next[p] == |s.log| + 1)
       && (forall p :: p in s'.matched ==> s'.matched[p] == 0)
       && r.id == n && r.base == |s.log| && r.log == s'.log
       && r.acked.Keys == nodes.Keys
       && (forall p :: p in r.acked ==> r.acked[p] == if p == n then |s.log| + 1 else 0)
  }

  lemma WinCrowns(c: Cluster, n: NodeId)
    requires n in c.nodes && n in c.campaigns && c.nodes[n].term !in c.reigns
    requires WinsElection(c.nodes[n], c.campaigns[n].term, |c.campaigns[n].votes|, |c.nodes|)
    ensures var c' := DoCloseElection(c, n);
            && Crowned(c.nodes, c'.nodes, c.reigns, c'.reigns, n)
            && c'.reigns[c.nodes[n].term].voters == c.campaigns[n].votes
  {
    var c' := DoCloseElection(c, n);
    var s', r := BecomeLeader(c.nodes[n], n, Peers(c, n)), NewReign(c.nodes[n], n, c.nodes.Keys, c.campaigns[n].votes);
    assert s'.next.Keys == c.nodes.Keys - {n} && s'.matched.Keys == c.nodes.Keys - {n};
    assert r.acked.Keys == c.nodes.Keys;
  }

  lemma CrownGrows(nodes: Nodes, nodes': Nodes, h: Reigns, h': Reigns, n: NodeId)
    requires Crowned(nodes, nodes', h, h', n)
    ensures Grows(h, h')
  {
  }

  lemma CrownBallots(nodes: Nodes, nodes': Nodes, h: Reigns, h': Reigns, n: NodeId, ballots: set<Ballot>)
    requires Crowned(nodes, nodes', h, h', n) && BallotsOk(nodes, ballots)
    ensures BallotsOk(nodes', ballots)
  {
  }

  lemma CrownVotes(nodes: Nodes, nodes': Nodes, h: Reigns, h': Reigns, n: NodeId,
                   reqs: set<VoteReq>, reps: set<VoteRep>, ballots: set<Ballot>)
    requires Crowned(nodes, nodes', h, h', n) && VotesOk(nodes, reqs, reps, ballots)
    ensures VotesOk(nodes', reqs, reps, ballots)
  {
    forall q | q in reqs ensures VoteReqOk(nodes', q) {
      assert VoteReqOk(nodes, q);
    }
  }

  lemma CrownElected(c: Cluster, n: NodeId)
    requires n in c.nodes && n in c.campaigns && c.nodes[n].term !in c.reigns
    requires WinsElection(c.nodes[n], c.campaigns[n].term, |c.campaigns[n].votes|, |c.nodes|)
    requires CampaignsOk(c.nodes, c.campaigns, c.ballots) && ElectedOk(c.reigns, c.ballots, c.nodes.Keys)
    ensures var c' := DoCloseElection(c, n); ElectedOk(c'.reigns, c.ballots, c.nodes.Keys)
    ensures CampaignsOk(c.nodes, c.campaigns - {n}, c.ballots)
  {
    assert |c.nodes| == |c.nodes.Keys|;
    var c' := DoCloseElection(c, n);
    var t := c.nodes[n].term;
    assert c'.reigns[t].voters == c.campaigns[n].votes && c'.reigns[t].id == n;
  }

  lemma CrownRoles(nodes: Nodes, nodes': Nodes, h: Reigns, h': Reigns, n: NodeId)
    requires Crowned(nodes, nodes', h, h', n) && RolesOk(nodes, h)
    ensures RolesOk(nodes', h')
  {
    forall t | t in h'
      ensures h'[t].id in nodes' && t <= nodes'[h'[t].id].term
      ensures nodes'[h'[t].id].term == t ==> nodes'[h'[t].id].role.Leader? && nodes'[h'[t].id].log == h'[t].log
    {
    }
  }

  lemma CrownNext(nodes: Nodes, nodes': Nodes, h: Reigns, h': Reigns, n: NodeId)
    requires Crowned(nodes, nodes', h, h', n) && RolesOk(nodes, h) && NextOk(nodes, h) && MatchedOk(nodes, h)
    ensures NextOk(nodes', h') && MatchedOk(nodes', h')
  {
  }

  lemma CrownReign(nodes: Nodes, nodes': Nodes, h: Reigns, h': Reigns, n: NodeId)
    requires Crowned(nodes, nodes', h, h', n) && LogOk(nodes[n].log, h, nodes[n].term)
    ensures ReignOk(h', nodes[n].term)
  {
    var t, log := nodes[n].term, nodes[n].log;
    var log' := h'[t].log;
    forall i | 0 <= i < |log'| ensures EntryOk(log', i, h', t) && (i < |log| ==> log'[i].term < t) {
      if i < |log| {
        assert EntryOk(log, i, h, t);
        assert log'[..i + 1] == log[..i + 1];
      } else {
        assert log'[..i + 1] == log';
      }
    }
  }

  lemma CrownReigns(nodes: Nodes, nodes': Nodes, h: Reigns, h': Reigns, n: NodeId)
    requires Crowned(nodes, nodes', h, h', n) && ReignsOk(h, nodes.Keys) && LogOk(nodes[n].log, h, nodes[n].term)
    requires h'[nodes[n].term].voters <= nodes.Keys
    ensures ReignsOk(h', nodes.Keys)
  {
    CrownGrows(nodes, nodes', h, h', n);
    CrownReign(nodes, nodes', h, h', n);
    forall u | u in h' ensures ReignAt(h', nodes.Keys, u) {
      if u in h { OldReign(h, h', nodes.Keys, u); }
    }
  }

  lemma OldReign(h: Reigns, h': Reigns, ids: set<NodeId>, u: nat)
    requires u in h && ReignAt(h, ids, u) && Grows(h, h') && u in h' && h'[u] == h[u]
    ensures ReignAt(h', ids, u)
  {
    LogOkGrows(h[u].log, h, h', u, u);
  }

  lemma CrownLogs(nodes: Nodes, nodes': Nodes, h: Reigns, h': Reigns, n: NodeId)
    requires Crowned(nodes, nodes', h, h', n) && LogsOk(nodes, h)
    ensures LogsOk(nodes', h')
  {
    CrownGrows(nodes, nodes', h, h', n);
    CrownReign(nodes, nodes', h, h', n);
    forall p | p in nodes' && p != n ensures LogOk(nodes'[p].log, h', nodes'[p].term) {
      LogOkGrows(nodes[p].log, h, h', nodes[p].term, nodes[p].term);
    }
  }

  lemma CrownAdvances(nodes: Nodes, nodes': Nodes, h: Reigns, h': Reigns, n: NodeId)
    requires Crowned(nodes, nodes', h, h', n)
    ensures Advances(nodes, nodes', h, h')
  {
    CrownGrows(nodes, nodes', h, h', n);
  }

  lemma CrownBackoff(nodes: Nodes, nodes': Nodes, h: Reigns, h': Reigns, n: NodeId,
                     sent: set<AppendReq>, rejects: Rejects, open: map<nat, AppendReq>, limit: nat)
    requires Crowned(nodes, nodes', h, h', n) && limit > 0 && BackoffOk(nodes, h, rejects, open, limit)
    requires RejectsOk(h, rejects)
    requires OpenOk(open, sent) && SentOk(h, nodes.Keys, sent) && RolesOk(nodes, h)
    ensures BackoffOk(nodes', h', rejects, open, limit)
  {
    CrownAdvances(nodes, nodes', h, h', n);
    forall l, p | l in nodes' && p in nodes' && l != p && nodes'[l].role.Leader?
                  && p in nodes'[l].next && nodes'[l].term in h'
                  && !Settled(nodes', h', p, nodes'[l].term)
      ensures BackoffAt(nodes', h', rejects, open, limit, l, p)
    {
      var t := nodes'[l].term;
      if l == n {
        forall k | k in open ensures open[k].args.term != t { assert ReqOk(h, nodes.Keys, open[k]); }
        assert (t, p) !in rejects;
        assert CallsFrom(open, p, t, h'[t].base + 1) == {} && CallsFrom(open, p, t, 0) == {};
      } else {
        assert t in h && h'[t] == h[t];
        BackoffAdvances(nodes, nodes', h, h', rejects, open, limit, l, p);
      }
    }
  }

  lemma CrownAcks(nodes: Nodes, nodes': Nodes, h: Reigns, h': Reigns, n: NodeId)
    requires Crowned(nodes, nodes', h, h', n) && AcksOk(nodes, h)
    ensures AcksOk(nodes', h')
  {
    forall t | t in h' ensures AcksAt(nodes', h'[t], t) {
      if t in h {
        assert AcksAt(nodes, h[t], t);
      }
    }
  }

  /** Nobody but the new leader has acknowledged anything in the new term. */
  lemma CrownAckedBy(nodes: Nodes, nodes': Nodes, h: Reigns, h': Reigns, n: NodeId, t: nat, k: nat, p: NodeId)
    requires Crowned(nodes, nodes', h, h', n) && AckedBy(h', t, k, p)
    ensures if t == nodes[n].term then p == n && k == |nodes[n].log| + 1 else AckedBy(h, t, k, p)
  {
  }

  lemma CrownRetain(nodes: Nodes, nodes': Nodes, h: Reigns, h': Reigns, n: NodeId)
    requires Crowned(nodes, nodes', h, h', n) && ReignsOk(h, nodes.Keys) && RetainOk(nodes, h)
    ensures RetainOk(nodes', h')
  {
    CrownGrows(nodes, nodes', h, h', n);
    forall t: nat, k: nat, p | AckedBy(h', t, k, p) && k <= |h'[t].log| && p in nodes'
      ensures Kept(nodes'[p].log, nodes'[p].term, h', t, k)
    {
      CrownAckedBy(nodes, nodes', h, h', n, t, k, p);
      if t != nodes[n].term {
        assert Kept(nodes[p].log, nodes[p].term, h, t, k);
        KeptGrows(nodes[p].log, nodes'[p].log, nodes[p].term, h, h', nodes.Keys, t, k);
      }
    }
  }

  lemma CrownCandidates(nodes: Nodes, nodes': Nodes, h: Reigns, h': Reigns, n: NodeId, ballots: set<Ballot>)
    requires Crowned(nodes, nodes', h, h', n) && ReignsOk(h, nodes.Keys) && BallotsOk(nodes, ballots)
    requires CandidatesOk(nodes, h, ballots)
    ensures CandidatesOk(nodes', h', ballots)
  {
    CrownGrows(nodes, nodes', h, h', n);
    forall b, t: nat, k: nat | b in ballots && AckedBy(h', t, k, b.voter) && k <= |h'[t].log| && t < b.term
                     && b.candidate in nodes' && nodes'[b.candidate].role.Candidate? && nodes'[b.candidate].term == b.term
      ensures Kept(nodes'[b.candidate].log, b.term, h', t, k)
    {
      CrownAckedBy(nodes, nodes', h, h', n, t, k, b.voter);
      var log := nodes[b.candidate].log;
      assert Kept(log, b.term, h, t, k);
      KeptGrows(log, log, b.term, h, h', nodes.Keys, t, k);
    }
  }

  /** What the voters acknowledged in earlier terms, the new leader was elected with (or a leader in between lacked). */
  lemma CrownHolds(nodes: Nodes, nodes': Nodes, h: Reigns, h': Reigns, n: NodeId, t: nat, k: nat)
    requires Crowned(nodes, nodes', h, h', n)
    requires t in h && k <= |h[t].log| && t < nodes[n].term && Kept(nodes[n].log, nodes[n].term, h, t, k)
    ensures Holds(h', t, k, nodes[n].term) || Lacking(h', t, k, nodes[n].term - 1)
  {
    var top := nodes[n].term;
    if h[t].log[..k] <= nodes[n].log {
      assert h'[t].log[..k] <= h'[top].log;
    } else {
      var u :| t < u <= top && u in h && !Holds(h, t, k, u);
      assert u != top && !Holds(h', t, k, u);
    }
  }

  lemma CrownVoters(nodes: Nodes, nodes': Nodes, h: Reigns, h': Reigns, n: NodeId, ballots: set<Ballot>)
    requires Crowned(nodes, nodes', h, h', n) && ReignsOk(h, nodes.Keys) && BallotsOk(nodes, ballots)
    requires ElectedOk(h', ballots, nodes.Keys) && CandidatesOk(nodes, h, ballots) && VotersOk(h)
    ensures VotersOk(h')
  {
    CrownGrows(nodes, nodes', h, h', n);
    forall u: nat, v: NodeId, t: nat, k: nat ensures VoterAt(h', u, v, t, k) {
      if u in h' && v in h'[u].voters && AckedBy(h', t, k, v) && k <= |h'[t].log| && t < u {
        assert Ballot(v, u, h'[u].id) in ballots;
        CrownVoter(nodes, nodes', h, h', n, ballots, u, v, t, k);
      }
    }
  }

  lemma CrownVoter(nodes: Nodes, nodes': Nodes, h: Reigns, h': Reigns, n: NodeId, ballots: set<Ballot>,
                   u: nat, v: NodeId, t: nat, k: nat)
    requires Crowned(nodes, nodes', h, h', n) && ReignsOk(h, nodes.Keys) && BallotsOk(nodes, ballots)
    requires CandidatesOk(nodes, h, ballots) && VotersOk(h) && Grows(h, h')
    requires u in h' && v in h'[u].voters && Ballot(v, u, h'[u].id) in ballots
    requires AckedBy(h', t, k, v) && k <= |h'[t].log| && t < u
    ensures Holds(h', t, k, u) || Lacking(h', t, k, u - 1)
  {
    hide CandidatesOk, VotersOk, ReignsOk, Grows, Kept;
    var b := Ballot(v, u, h'[u].id);
    assert u <= nodes[v].term && b.candidate in nodes;
    hide BallotsOk;
    CrownAckedBy(nodes, nodes', h, h', n, t, k, v);
    assert t in h && h'[t] == h[t];
    if u == nodes[n].term {
      assert b.candidate == n && nodes[n].role.Candidate?;
      hide Crowned, AckedBy, Holds, Lacking;
      CandidateKept(nodes, h, ballots, b, t, k);
      CrownHolds(nodes, nodes', h, h', n, t, k);
    } else {
      assert u in h && h'[u] == h[u];
      hide Crowned, AckedBy, Holds, Lacking;
      OldVoter(h, h', nodes.Keys, u, v, t, k);
    }
  }

  lemma CandidateKept(nodes: Nodes, h: Reigns, ballots: set<Ballot>, b: Ballot, t: nat, k: nat)
    requires CandidatesOk(nodes, h, ballots) && b in ballots && AckedBy(h, t, k, b.voter) && k <= |h[t].log| && t < b.term
    requires b.candidate in nodes && nodes[b.candidate].role.Candidate? && nodes[b.candidate].term == b.term
    ensures Kept(nodes[b.candidate].log, b.term, h, t, k)
  {
  }

  /** An entry of `VotersOk` about existing reigns is not disturbed when history grows. */
  lemma OldVoter(h: Reigns, h': Reigns, ids: set<NodeId>, u: nat, v: NodeId, t: nat, k: nat)
    requires VotersOk(h) && Grows(h, h') && ReignsOk(h, ids)
    requires u in h && v in h[u].voters && AckedBy(h, t, k, v) && k <= |h[t].log| && t < u
    ensures t in h' && u in h' && (Holds(h', t, k, u) || Lacking(h', t, k, u - 1))
  {
    assert ReignAt(h, ids, u) && VoterAt(h, u, v, t, k);
    if Holds(h, t, k, u) {
      assert h'[t].log[..k] == h[t].log[..k];
      assert Holds(h', t, k, u);
    } else {
      forall w | w in h ensures h[w].base <= |h[w].log| { assert ReignAt(h, ids, w); }
      LackingGrows(h, h', t, k, u - 1, u - 1);
    }
  }

  lemma CrownCommit(nodes: Nodes, nodes': Nodes, h: Reigns, h': Reigns, n: NodeId)
    requires Crowned(nodes, nodes', h, h', n) && CommitOk(nodes, h)
    ensures CommitOk(nodes', h')
  {
    hide CommitAt, Grows;
    CrownGrows(nodes, nodes', h, h', n);
    forall p | p in nodes' ensures CommitAt(h', nodes.Keys, nodes'[p]) {
      assert CommitAt(h, nodes.Keys, nodes[p]);
      CrownCommitAt(nodes, nodes', h, h', n, p);
    }
  }

  lemma CrownCommitAt(nodes: Nodes, nodes': Nodes, h: Reigns, h': Reigns, n: NodeId, p: NodeId)
    requires Crowned(nodes, nodes', h, h', n) && Grows(h, h') && p in nodes && CommitAt(h, nodes.Keys, nodes[p])
    ensures CommitAt(h', nodes.Keys, nodes'[p])
  {
    hide Grows, RulesOf;
    CommitGrows(h, h', nodes.Keys, nodes[p], nodes'[p]);
  }

  lemma CrownKeeps(c: Cluster, n: NodeId)
    requires BaseInv(c) && n in c.nodes && n in c.campaigns && c.nodes[n].term !in c.reigns
    requires WinsElection(c.nodes[n], c.campaigns[n].term, |c.campaigns[n].votes|, |c.nodes|)
    ensures BaseInv(DoCloseElection(c, n))
  {
    hide RolesOk, NextOk, MatchedOk, SentOk, RoundsOk, OpenOk, AnswersOk, BecomeLeader, NewReign, LogOk;
    hide BallotsOk, VotesOk, ElectedOk, AcksOk, RetainOk, CandidatesOk, VotersOk, Crowned, ReignsOk;
    var c' := DoCloseElection(c, n);
    var nodes, nodes', h, h' := c.nodes, c'.nodes, c.reigns, c'.reigns;
    WinCrowns(c, n);
    assert nodes'.Keys == nodes.Keys;
    assert h'[nodes[n].term].voters <= nodes.Keys;
    assert LogOk(nodes[n].log, h, nodes[n].term);
    hide CampaignsOk, LogsOk;
    CrownElected(c, n);
    assert c'.campaigns == c.campaigns - {n};
    CrownCampaigns(nodes, nodes', c'.campaigns, c.ballots);
    CrownBallots(nodes, nodes', h, h', n, c.ballots);
    CrownVotes(nodes, nodes', h, h', n, c.voteReqs, c.voteReps, c.ballots);
    CrownRoles(nodes, nodes', h, h', n);
    CrownNext(nodes, nodes', h, h', n);
    CrownReigns(nodes, nodes', h, h', n);
    CrownLogs(nodes, nodes', h, h', n);
    CrownGrows(nodes, nodes', h, h', n);
    NetGrows(c, h');
    CrownAcks(nodes, nodes', h, h', n);
    CrownRetain(nodes, nodes', h, h', n);
    CrownCandidates(nodes, nodes', h, h', n, c.ballots);
    CrownVoters(nodes, nodes', h, h', n, c.ballots);
  }

  lemma CrownKeepsSafe(c: Cluster, n: NodeId, limit: nat)
    requires BaseInv(c) && SafeInv(c, limit) && limit > 0
    requires n in c.nodes && n in c.campaigns && c.nodes[n].term !in c.reigns
    requires WinsElection(c.nodes[n], c.campaigns[n].term, |c.campaigns[n].votes|, |c.nodes|)
    ensures SafeInv(DoCloseElection(c, n), limit)
  {
    hide RolesOk, SentOk, OpenOk, BecomeLeader, NewReign, Crowned, ReignsOk, SentCert, RoundsCert, CommitOk;
    hide CoverOk, TellingOk, BackoffOk, Advances, LogInv, AckInv, BallotsOk, VotesOk, CampaignsOk, ElectedOk;
    var c' := DoCloseElection(c, n);
    var nodes, nodes', h, h' := c.nodes, c'.nodes, c.reigns, c'.reigns;
    WinCrowns(c, n);
    assert nodes'.Keys == nodes.Keys;
    CrownAdvances(nodes, nodes', h, h', n);
    TailAdvances(nodes, nodes', h, h', c.sent, c.answers);
    CrownBackoff(nodes, nodes', h, h', n, c.sent, c.rejects, c.open, limit);
    CrownGrows(nodes, nodes', h, h', n);
    CertsGrow(h, h', nodes.Keys, c.sent, c.rounds);
    CrownCommit(nodes, nodes', h, h', n);
  }

  lemma CrownCampaigns(nodes: Nodes, nodes': Nodes, campaigns: map<NodeId, Campaign>, ballots: set<Ballot>)
    requires CampaignsOk(nodes, campaigns, ballots) && nodes'.Keys == nodes.Keys
    ensures CampaignsOk(nodes', campaigns, ballots)
  {
  }

  lemma CloseElectionKeeps(c: Cluster, n: NodeId)
    requires BaseInv(c) && Enabled(c, CloseElection(n))
    ensures BaseInv(Next(c, CloseElection(n)))
  {
    hide RolesOk, NextOk, MatchedOk, LogsOk, ReignsOk, SentOk, RoundsOk, OpenOk, AnswersOk, BecomeLeader, NewReign;
    hide BallotsOk, VotesOk, ElectedOk, AcksOk, RetainOk, CandidatesOk, VotersOk;
    if WinsElection(c.nodes[n], c.campaigns[n].term, |c.campaigns[n].votes|, |c.nodes|) {
      WinnerIsFirst(c, n);
      CrownKeeps(c, n);
    }
  }

  /** Election steps never endanger what is committed. */
  lemma ElectionKeepsSafe(c: Cluster, a: Action, limit: nat)
    requires BaseInv(c) && SafeInv(c, limit) && limit > 0 && Enabled(c, a)
    requires a.Campaigning? || a.HandleVote? || a.CountVote? || a.CloseElection?
    ensures SafeInv(Next(c, a), limit)
  {
    hide TailInv, CommitInv, ElectionInv, LogInv, NetInv, AckInv, BecomeLeader, NewReign;
    var c' := Next(c, a);
    match a {
      case Campaigning(n) => MoveKeepsSafe(c, c', n, limit);
      case HandleVote(req, v) => MoveKeepsSafe(c, c', v, limit);
      case CountVote(rep) => MoveKeepsSafe(c, c', rep.req.candidate, limit);
      case CloseElection(n) => CloseElectionKeepsSafe(c, n, limit);
    }
  }

  lemma CloseElectionKeepsSafe(c: Cluster, n: NodeId, limit: nat)
    requires BaseInv(c) && SafeInv(c, limit) && limit > 0 && Enabled(c, CloseElection(n))
    ensures SafeInv(DoCloseElection(c, n), limit)
  {
    hide BallotsOk, CampaignsOk, ElectedOk, RolesOk, TailInv, CommitInv, LogInv, NetInv, AckInv, BecomeLeader, NewReign;
    if WinsElection(c.nodes[n], c.campaigns[n].term, |c.campaigns[n].votes|, |c.nodes|) {
      WinnerIsFirst(c, n);
      CrownKeepsSafe(c, n, limit);
    } else {
      SameTail(c, DoCloseElection(c, n), limit);
    }
  }

  lemma SameTail(c: Cluster, c': Cluster, limit: nat)
    requires SafeInv(c, limit)
    requires c'.nodes == c.nodes && c'.reigns == c.reigns && c'.sent == c.sent && c'.rounds == c.rounds
             && c'.open == c.open && c'.answers == c.answers && c'.rejects == c.rejects
    ensures SafeInv(c', limit)
  {
    hide CoverOk, TellingOk, BackoffOk, CommitOk, SentCert, RoundsCert;
  }
}
