/**
  What holds in every run of the cluster.

  Election safety, log matching and leader completeness need no bound on concurrent calls.
  Agreement of the applied rules needs at most SAFE_CALLS open calls per leader-peer pair.
  Each theorem compares states at any two moments of the run, not only at one.
 */
module RaftSafety {
  import opened RaftSpec
  import opened RaftCluster
  import opened RaftInvariant
  import opened RaftElection
  import opened RaftReplication
  import opened RaftCommit

  // ------------------------------------------------------------- every step

  lemma InitialHolds(ids: set<NodeId>, limit: nat)
    ensures BaseInv(InitialCluster(ids)) && SafeInv(InitialCluster(ids), limit)
  {
  }

  lemma NextKeepsBase(c: Cluster, a: Action)
    requires BaseInv(c) && Enabled(c, a)
    ensures BaseInv(Next(c, a))
  {
    hide BaseInv;
    match a {
      case Campaigning(n) => CampaignKeeps(c, n);
      case HandleVote(req, voter) => HandleVoteKeeps(c, req, voter);
      case CountVote(rep) => CountVoteKeeps(c, rep);
      case CloseElection(n) => CloseElectionKeeps(c, n);
      case Propose(n, command) => ProposeKeeps(c, n, command);
      case OpenRound(n) => OpenRoundKeeps(c, n);
      case Build(round, peer, call) => BuildKeeps(c, round, peer, call);
      case HandleAppend(req) => HandleAppendKeeps(c, req);
      case CloseCall(call, rep) => CloseCallKeeps(c, call, rep);
      case LoseCall(call) => DropCallKeeps(c, call);
      case CloseRound(round) => CloseRoundKeeps(c, round);
    }
  }

  lemma NextKeepsSafe(c: Cluster, a: Action, limit: nat)
    requires BaseInv(c) && SafeInv(c, limit) && 0 < limit <= SAFE_CALLS && Enabled(c, a)
    requires OutstandingAtMost(Next(c, a), limit)
    ensures SafeInv(Next(c, a), limit)
  {
    hide BaseInv, SafeInv, OutstandingAtMost;
    match a {
      case Propose(n, command) => ProposeSafe(c, n, command, limit);
      case OpenRound(n) => OpenRoundSafe(c, n, limit);
      case Build(round, peer, call) => BuildSafe(c, round, peer, call, limit);
      case HandleAppend(req) => HandleAppendSafe(c, req, limit);
      case CloseCall(call, rep) => CloseCallSafe(c, call, rep, limit);
      case LoseCall(call) => DropCallSafe(c, call, limit);
      case CloseRound(round) => CloseRoundSafe(c, round, limit);
      case _ => ElectionKeepsSafe(c, a, limit);
    }
  }

  /** History only grows, and membership is fixed. */
  lemma NextGrows(c: Cluster, a: Action)
    requires BaseInv(c) && Enabled(c, a)
    ensures Grows(c.reigns, Next(c, a).reigns) && Next(c, a).nodes.Keys == c.nodes.Keys
  {
    hide BaseInv, Grows, OnAppendEntries, OnAppendResult, BecomeLeader, NewReign;
    GrowsRefl(c.reigns);
    match a {
      case CloseElection(n) => ElectionGrows(c, n);
      case Propose(n, command) =>
        ProposeIsLogStep(c, n, command);
        StepGrows(c.nodes, Next(c, a).nodes, c.reigns, Next(c, a).reigns, n, c.nodes[n].term);
      case HandleAppend(req) => AppendGrows(c, req);
      case _ =>
    }
  }

  lemma ElectionGrows(c: Cluster, n: NodeId)
    requires BaseInv(c) && Enabled(c, CloseElection(n))
    ensures Grows(c.reigns, DoCloseElection(c, n).reigns)
  {
    hide BallotsOk, VotesOk, CampaignsOk, ElectedOk, RolesOk, LogInv, NetInv, AckInv;
    if WinsElection(c.nodes[n], c.campaigns[n].term, |c.campaigns[n].votes|, |c.nodes|) {
      WinnerIsFirst(c, n);
    }
  }

  lemma AppendGrows(c: Cluster, req: AppendReq)
    requires BaseInv(c) && Enabled(c, HandleAppend(req))
    ensures Grows(c.reigns, DoHandleAppend(c, req).reigns)
  {
    hide BaseInv, Grows, DoHandleAppend, AppendDone, LogStep;
    var c' := DoHandleAppend(c, req);
    if c.nodes[req.peer].term > req.args.term {
      StaleAppend(c, req);
      GrowsRefl(c.reigns);
    } else {
      AppendIsLogStep(c, req);
      StepGrows(c.nodes, c'.nodes, c.reigns, c'.reigns, req.peer, req.args.term);
    }
  }

  /** No critical section takes a node back to an earlier term or makes it forget that it applied an entry. */
  ghost predicate Onward(s: Node, s': Node) {
    s.term <= s'.term && s.applied <= s'.applied
  }

  lemma AppendOnward(s: Node, from: NodeId, args: AppendArgs)
    ensures Onward(s, OnAppendEntries(s, from, args).0)
  {
    hide Merge, RulesOf;
  }

  lemma CommitOnward(s: Node, peers: set<NodeId>)
    ensures Onward(s, AdvanceCommit(s, peers))
  {
    hide ScanCommit, RulesOf;
  }

  lemma NextMonotone(c: Cluster, a: Action, p: NodeId)
    requires Enabled(c, a) && p in c.nodes
    ensures p in Next(c, a).nodes && Onward(c.nodes[p], Next(c, a).nodes[p])
  {
    if a.HandleAppend? {
      AppendOnward(c.nodes[a.appendReq.peer], a.appendReq.leader, a.appendReq.args);
    } else if a.CloseRound? {
      CommitOnward(c.nodes[a.round.leader], Peers(c, a.round.leader));
    }
    hide OnAppendEntries, AdvanceCommit, NewReign, BuildAppend;
  }

  // -------------------------------------------------------------- every run

  lemma {:induction false} RunBase(ids: set<NodeId>, run: seq<Cluster>, i: nat)
    requires IsRun(ids, run) && i < |run|
    ensures BaseInv(run[i]) && run[i].nodes.Keys == ids
    decreases i
  {
    hide BaseInv, Next, Enabled;
    if i == 0 {
      InitialHolds(ids, 1);
    } else {
      RunBase(ids, run, i - 1);
      assert StepTo(run[i - 1], run[i]);
      var a :| Enabled(run[i - 1], a) && run[i] == Next(run[i - 1], a);
      NextKeepsBase(run[i - 1], a);
      NextGrows(run[i - 1], a);
    }
  }

  lemma {:induction false} RunSafe(ids: set<NodeId>, run: seq<Cluster>, limit: nat, i: nat)
    requires IsRunWithin(ids, run, limit) && 0 < limit <= SAFE_CALLS && i < |run|
    ensures SafeInv(run[i], limit)
    decreases i
  {
    hide BaseInv, SafeInv, Next, Enabled, OutstandingAtMost;
    if i == 0 {
      InitialHolds(ids, limit);
    } else {
      RunBase(ids, run, i - 1);
      RunSafe(ids, run, limit, i - 1);
      assert StepTo(run[i - 1], run[i]);
      var a :| Enabled(run[i - 1], a) && run[i] == Next(run[i - 1], a);
      NextKeepsSafe(run[i - 1], a, limit);
    }
  }

  lemma GrowsTrans(h: Reigns, h': Reigns, h'': Reigns)
    requires Grows(h, h') && Grows(h', h'')
    ensures Grows(h, h'')
  {
    forall t | t in h ensures h[t].log <= h''[t].log { assert h[t].log <= h'[t].log <= h''[t].log; }
  }

  lemma {:induction false} RunGrows(ids: set<NodeId>, run: seq<Cluster>, i: nat, j: nat)
    requires IsRun(ids, run) && i <= j < |run|
    ensures Grows(run[i].reigns, run[j].reigns)
    decreases j - i
  {
    hide BaseInv, Grows, Next, Enabled;
    if i == j {
      GrowsRefl(run[i].reigns);
    } else {
      RunGrows(ids, run, i, j - 1);
      RunBase(ids, run, j - 1);
      assert StepTo(run[j - 1], run[j]);
      var a :| Enabled(run[j - 1], a) && run[j] == Next(run[j - 1], a);
      NextGrows(run[j - 1], a);
      GrowsTrans(run[i].reigns, run[j - 1].reigns, run[j].reigns);
    }
  }

  lemma {:induction false} RunMonotone(ids: set<NodeId>, run: seq<Cluster>, i: nat, j: nat, p: NodeId)
    requires IsRun(ids, run) && i <= j < |run| && p in ids
    ensures p in run[i].nodes && p in run[j].nodes
    ensures run[i].nodes[p].term <= run[j].nodes[p].term && run[i].nodes[p].applied <= run[j].nodes[p].applied
    decreases j - i
  {
    hide BaseInv, Next, Enabled;
    RunBase(ids, run, j);
    if i < j {
      RunMonotone(ids, run, i, j - 1, p);
      assert StepTo(run[j - 1], run[j]);
      var a :| Enabled(run[j - 1], a) && run[j] == Next(run[j - 1], a);
      NextMonotone(run[j - 1], a, p);
    }
  }

  /** A node of some state of the run. */
  ghost predicate At(run: seq<Cluster>, i: nat, p: NodeId) {
    i < |run| && p in run[i].nodes
  }

  ghost predicate LeadsAt(run: seq<Cluster>, i: nat, p: NodeId) {
    At(run, i, p) && run[i].nodes[p].role.Leader?
  }

  /** A leader's reign, and its log, as the history of any later state records them. */
  lemma LeaderReign(ids: set<NodeId>, run: seq<Cluster>, i: nat, j: nat, p: NodeId)
    requires IsRun(ids, run) && LeadsAt(run, i, p) && i <= j < |run|
    ensures var s, h := run[i].nodes[p], run[j].reigns;
            && s.term in h && h[s.term].id == p && s.log <= h[s.term].log
            && (i == j ==> s.log == h[s.term].log)
  {
    hide BallotsOk, VotesOk, CampaignsOk, ElectedOk, RolesOk, LogInv, NetInv, AckInv;
    RunBase(ids, run, i);
    RunGrows(ids, run, i, j);
    LeaderFact(run[i].nodes, run[i].reigns, p);
  }

  /** Section 5.2 of the Raft paper: over the whole run, each term has at most one leader. */
  lemma ElectionSafety(ids: set<NodeId>, run: seq<Cluster>, i: nat, j: nat, p: NodeId, q: NodeId)
    requires IsRun(ids, run) && LeadsAt(run, i, p) && LeadsAt(run, j, q)
    requires run[i].nodes[p].term == run[j].nodes[q].term
    ensures p == q
  {
    hide IsRun;
    LeaderReign(ids, run, i, if i < j then j else i, p);
    LeaderReign(ids, run, j, if i < j then j else i, q);
  }

  /** Section 5.3 of the Raft paper: the same term at the same index means the same entries up to it. */
  lemma LogMatching(ids: set<NodeId>, run: seq<Cluster>, i: nat, j: nat, p: NodeId, q: NodeId, k: nat)
    requires IsRun(ids, run) && At(run, i, p) && At(run, j, q)
    requires var a, b := run[i].nodes[p].log, run[j].nodes[q].log; k < |a| && k < |b| && a[k].term == b[k].term
    ensures run[i].nodes[p].log[..k + 1] == run[j].nodes[q].log[..k + 1]
  {
    hide IsRun, LogOk;
    var m := if i < j then j else i;
    LaterLog(ids, run, i, m, p);
    LaterLog(ids, run, j, m, q);
    LogMatch(run[m].reigns, run[i].nodes[p].log, run[j].nodes[q].log, k, run[i].nodes[p].term, run[j].nodes[q].term);
  }

  lemma LaterLog(ids: set<NodeId>, run: seq<Cluster>, i: nat, m: nat, p: NodeId)
    requires IsRun(ids, run) && At(run, i, p) && i <= m < |run|
    ensures LogOk(run[i].nodes[p].log, run[m].reigns, run[i].nodes[p].term)
  {
    hide IsRun, ElectionInv, NetInv, AckInv, ReignsOk, LogsOk, NextOk, MatchedOk, LogOk, Grows;
    RunBase(ids, run, i);
    LogFact(run[i].nodes, run[i].reigns, p);
    RunGrows(ids, run, i, m);
    LogOkGrows(run[i].nodes[p].log, run[i].reigns, run[m].reigns, run[i].nodes[p].term, run[i].nodes[p].term);
  }

  /**
    Section 5.4.3 of the Raft paper, leader completeness: once the leader of a term has raised its
    commit index to `n`, whoever leads a later term, before or after that moment, has the same first `n` entries.
   */
  lemma LeaderKeepsCommitted(ids: set<NodeId>, run: seq<Cluster>, i: nat, round: Round, j: nat, m: NodeId)
    requires IsRun(ids, run) && i + 1 < |run| && Enabled(run[i], CloseRound(round))
    requires run[i + 1] == Next(run[i], CloseRound(round))
    requires run[i].nodes[round.leader].commit < run[i + 1].nodes[round.leader].commit
    requires LeadsAt(run, j, m) && run[j].nodes[m].term > round.term
    ensures var n := run[i + 1].nodes[round.leader].commit;
            && n <= |run[i].nodes[round.leader].log| && n <= |run[j].nodes[m].log|
            && run[j].nodes[m].log[..n] == run[i].nodes[round.leader].log[..n]
  {
    hide IsRun, BaseInv, RulesOf, ScanCommit, Committable, Quorum;
    var l, t, u := round.leader, round.term, run[j].nodes[m].term;
    var s, k := run[i].nodes[l], if i < j then j else i;
    RunBase(ids, run, i);
    RunBase(ids, run, k);
    RunGrows(ids, run, i, k);
    ScanFinds(s, Peers(run[i], l), |s.log|);
    var n := run[i + 1].nodes[l].commit;
    CommittableChosen(run[i], l, n);
    ChosenGrows(run[i].reigns, run[k].reigns, ids, t, n);
    LeaderReign(ids, run, j, k, m);
    LeaderCompleteness(run[k], t, n, u);
    ElectedWithLess(ids, run, j, k, m);
  }

  /** A leader's log is longer than the one it was elected with, which every later moment remembers. */
  lemma ElectedWithLess(ids: set<NodeId>, run: seq<Cluster>, j: nat, k: nat, m: NodeId)
    requires IsRun(ids, run) && LeadsAt(run, j, m) && j <= k < |run|
    ensures var s := run[j].nodes[m]; s.term in run[k].reigns && run[k].reigns[s.term].base < |s.log|
  {
    hide IsRun, BallotsOk, VotesOk, CampaignsOk, ElectedOk, RolesOk, ReignsOk, LogsOk, NextOk, MatchedOk, NetInv, AckInv, LogOk;
    RunBase(ids, run, j);
    RunGrows(ids, run, j, k);
    LeaderReign(ids, run, j, j, m);
    ReignFact(run[j].reigns, run[j].nodes.Keys, run[j].nodes[m].term);
  }

  // --------------------------------------------- runs with few open calls

  /**
    The prefix invariant behind line 510: a follower that has accepted a request of its current
    term's leader holds nothing but that leader's entries.
   */
  lemma AcceptedIsPrefix(ids: set<NodeId>, run: seq<Cluster>, limit: nat, i: nat, rep: AppendRep, j: nat, l: NodeId)
    requires IsRunWithin(ids, run, limit) && limit <= SAFE_CALLS && i < |run| && rep in run[i].answers && rep.result.success
    requires At(run, i, rep.req.peer) && run[i].nodes[rep.req.peer].term == rep.req.args.term
    requires i <= j && LeadsAt(run, j, l) && run[j].nodes[l].term == rep.req.args.term
    ensures run[i].nodes[rep.req.peer].log <= run[j].nodes[l].log
  {
    hide BaseInv, CoverOk, TellingOk, RejectsOk, BackoffOk, CommitInv, IsRun;
    Loosen(ids, run, limit);
    RunSafe(ids, run, Max(1, limit), i);
    TellingFact(run[i].nodes, run[i].reigns, run[i].answers, rep);
    RunGrows(ids, run, i, j);
    LeaderReign(ids, run, j, j, l);
  }

  lemma Loosen(ids: set<NodeId>, run: seq<Cluster>, limit: nat)
    requires IsRunWithin(ids, run, limit)
    ensures IsRunWithin(ids, run, Max(1, limit))
  {
  }

  /** Two committed prefixes agree, whichever leaders committed them. */
  lemma CommittedAgree(c: Cluster, a: seq<Entry>, top: nat, k: nat, b: seq<Entry>, top': nat, k': nat)
    requires BaseInv(c) && Cert(c.reigns, c.nodes.Keys, top, a, k) && Cert(c.reigns, c.nodes.Keys, top', b, k') && k <= k'
    ensures a[..k] == b[..k]
  {
    hide BaseInv, Quorum;
    var h, ids := c.reigns, c.nodes.Keys;
    if k > 0 {
      var t: nat, n: nat :| CertBy(h, ids, top, a, k, t, n);
      var t': nat, n': nat :| CertBy(h, ids, top', b, k', t', n');
      if t < t' {
        LeaderCompleteness(c, t, n, t');
        assert a[..k] == h[t].log[..n][..k] && b[..k] == b[..k'][..k];
      } else {
        assert b[..k] == b[..k'][..k];
        if t' < t {
          LeaderCompleteness(c, t', n', t);
          assert b[..k] == h[t'].log[..n'][..k];
        }
      }
    }
  }

  /** What node `p` had applied at moment `i` is committed, in the history of any later moment. */
  lemma AppliedCert(ids: set<NodeId>, run: seq<Cluster>, limit: nat, i: nat, m: nat, p: NodeId)
    requires IsRunWithin(ids, run, limit) && limit <= SAFE_CALLS && At(run, i, p) && i <= m < |run|
    ensures var s := run[i].nodes[p];
            && Cert(run[m].reigns, ids, s.term, s.log, s.applied)
            && s.commit == s.applied && s.rules == RulesOf(s.log[..s.applied])
  {
    hide BaseInv, TailInv, CommitOk, SentCert, RoundsCert, RulesOf, Cert, Grows, IsRun;
    Loosen(ids, run, limit);
    RunBase(ids, run, i);
    RunSafe(ids, run, Max(1, limit), i);
    CommitFact(run[i].nodes, run[i].reigns, p);
    RunGrows(ids, run, i, m);
    var s := run[i].nodes[p];
    assert s.commit <= |s.log| by { CertWithin(run[i].reigns, ids, s.term, s.log, s.commit); }
    CertGrows(run[i].reigns, run[m].reigns, ids, s.term, s.term, s.log, s.log, s.commit);
  }

  lemma CertWithin(h: Reigns, ids: set<NodeId>, top: nat, log: seq<Entry>, k: nat)
    requires Cert(h, ids, top, log, k)
    ensures k <= |log|
  {
  }

  /** At any two moments, whichever of two nodes has applied less has applied a prefix of what the other has. */
  lemma AppliedAgree(ids: set<NodeId>, run: seq<Cluster>, limit: nat, i: nat, p: NodeId, j: nat, q: NodeId)
    requires IsRunWithin(ids, run, limit) && limit <= SAFE_CALLS && At(run, i, p) && At(run, j, q)
    requires run[i].nodes[p].applied <= run[j].nodes[q].applied
    ensures var a, b := run[i].nodes[p], run[j].nodes[q];
            && a.applied <= |a.log| && b.applied <= |b.log| && a.log[..a.applied] == b.log[..a.applied]
            && a.rules == RulesOf(a.log[..a.applied]) && a.rules <= b.rules
  {
    hide IsRunWithin, BaseInv, Cert, RulesOf;
    var a, b, m := run[i].nodes[p], run[j].nodes[q], if i < j then j else i;
    AppliedCert(ids, run, limit, i, m, p);
    AppliedCert(ids, run, limit, j, m, q);
    assert IsRun(ids, run) by { WithinIsRun(ids, run, limit); }
    RunBase(ids, run, m);
    CommittedAgree(run[m], a.log, a.term, a.applied, b.log, b.term, b.applied);
    CertWithin(run[m].reigns, ids, a.term, a.log, a.applied);
    CertWithin(run[m].reigns, ids, b.term, b.log, b.applied);
    assert b.log[..b.applied] == b.log[..a.applied] + b.log[a.applied..b.applied];
    RulesConcat(b.log[..a.applied], b.log[a.applied..b.applied]);
  }

  lemma WithinIsRun(ids: set<NodeId>, run: seq<Cluster>, limit: nat)
    requires IsRunWithin(ids, run, limit)
    ensures IsRun(ids, run)
  {
  }

  /** The rule lists of any two nodes at any two moments are prefixes of one another. */
  ghost predicate RulesAgree(run: seq<Cluster>) {
    forall i: nat, j: nat, p, q :: At(run, i, p) && At(run, j, q) ==>
      run[i].nodes[p].rules <= run[j].nodes[q].rules || run[j].nodes[q].rules <= run[i].nodes[p].rules
  }

  /** Section 5.4.3 of the Raft paper, state machine safety. */
  lemma StateMachineSafety(ids: set<NodeId>, run: seq<Cluster>, limit: nat)
    requires IsRunWithin(ids, run, limit) && limit <= SAFE_CALLS
    ensures RulesAgree(run)
  {
    hide IsRunWithin, RulesOf;
    forall i: nat, j: nat, p, q | At(run, i, p) && At(run, j, q)
      ensures run[i].nodes[p].rules <= run[j].nodes[q].rules || run[j].nodes[q].rules <= run[i].nodes[p].rules
    {
      if run[i].nodes[p].applied <= run[j].nodes[q].applied {
        AppliedAgree(ids, run, limit, i, p, j, q);
      } else {
        AppliedAgree(ids, run, limit, j, q, i, p);
      }
    }
  }

  /** No node ever truncates or rewrites its log below what it has applied. */
  lemma AppliedIsFinal(ids: set<NodeId>, run: seq<Cluster>, limit: nat, i: nat, j: nat, p: NodeId)
    requires IsRunWithin(ids, run, limit) && limit <= SAFE_CALLS && i <= j < |run| && p in ids
    ensures At(run, i, p) && At(run, j, p)
    ensures var a, b := run[i].nodes[p], run[j].nodes[p];
            && a.applied <= |a.log| && a.applied <= b.applied <= |b.log| && a.log[..a.applied] == b.log[..a.applied]
            && a.rules <= b.rules
  {
    hide IsRunWithin, RulesOf;
    assert IsRun(ids, run) by { WithinIsRun(ids, run, limit); }
    RunMonotone(ids, run, i, j, p);
    AppliedAgree(ids, run, limit, i, p, j, p);
  }

  /** Applying entry `e` registers command `c`. */
  predicate Registers(e: Entry, c: Command) {
    !e.noop && e.command == c && c.comparator <= MAX_COMPARATOR
  }

  ghost predicate Registered(log: seq<Entry>, c: Command) {
    exists k :: 0 <= k < |log| && Registers(log[k], c)
  }

  lemma {:induction false} RulesAreRegistered(log: seq<Entry>, c: Command)
    ensures c in RulesOf(log) <==> Registered(log, c)
    decreases |log|
  {
    if log != [] {
      var k := |log| - 1;
      RulesAreRegistered(log[..k], c);
      if Registers(log[k], c) { assert Registered(log, c); }
      if Registered(log[..k], c) {
        var j :| 0 <= j < |log[..k]| && Registers(log[..k][j], c);
        assert Registers(log[j], c);
      }
      if Registered(log, c) {
        var j :| 0 <= j < |log| && Registers(log[j], c);
        if j < k { assert Registers(log[..k][j], c); }
      }
    }
  }

  /** A node's rules are exactly the accepted commands of the entries it has applied. */
  lemma RulesAreApplied(ids: set<NodeId>, run: seq<Cluster>, limit: nat, i: nat, p: NodeId, c: Command)
    requires IsRunWithin(ids, run, limit) && limit <= SAFE_CALLS && At(run, i, p)
    ensures var s := run[i].nodes[p];
            s.applied <= |s.log| && (c in s.rules <==> Registered(s.log[..s.applied], c))
  {
    hide IsRunWithin, RulesOf, Cert, Registered;
    AppliedCert(ids, run, limit, i, i, p);
    var s := run[i].nodes[p];
    CertWithin(run[i].reigns, ids, s.term, s.log, s.applied);
    RulesAreRegistered(s.log[..s.applied], c);
  }
}
