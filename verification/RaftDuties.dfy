/**
  What the nodes must do, not only what they may do: when a vote is given and a request accepted, how far a
  follower commits, what every reply teaches. Together with `RaftSafety` these leave no room for a cluster
  that is safe because it does nothing. All hold in every run, for any cluster size.
 */
module RaftDuties {
  import opened RaftSpec
  import opened RaftCluster
  import opened RaftInvariant
  import opened RaftElection
  import opened RaftReplication
  import opened RaftCommit
  import opened RaftSafety

  // ---------------------------------------------------------------- history

  /** Whoever has voted in its term has a ballot for it. */
  ghost predicate VotedOk(nodes: Nodes, ballots: set<Ballot>) {
    forall v :: v in nodes && nodes[v].hasVoted ==> Ballot(v, nodes[v].term, nodes[v].votedFor) in ballots
  }

  /** A vote is given in the term it was asked for. */
  ghost predicate GrantsOk(reps: set<VoteRep>) {
    forall r :: r in reps && r.result.granted ==> r.result.term == r.req.args.term
  }

  /** A request is accepted in its own term. */
  ghost predicate AcceptsOk(answers: set<AppendRep>) {
    forall a :: a in answers && a.result.success ==> a.result.term == a.req.args.term
  }

  /** Nothing committed is left to apply. */
  ghost predicate AppliedOk(nodes: Nodes) {
    forall p :: p in nodes ==> nodes[p].commit <= nodes[p].applied
  }

  /**
    A node's idea of the leader is the leader of its term or of an earlier one; a leader names itself, and a
    candidate nobody.
   */
  ghost predicate HintAt(p: NodeId, s: Node, h: Reigns) {
    && (s.hasLeader ==> exists t :: t in h && t <= s.term && h[t].id == s.leader)
    && (s.role.Leader? ==> s.hasLeader && s.leader == p) && (s.role.Candidate? ==> !s.hasLeader)
  }

  ghost predicate HintsOk(nodes: Nodes, h: Reigns) {
    forall p :: p in nodes ==> HintAt(p, nodes[p], h)
  }

  ghost predicate DutyInv(c: Cluster) {
    && VotedOk(c.nodes, c.ballots) && GrantsOk(c.voteReps) && AcceptsOk(c.answers)
    && AppliedOk(c.nodes) && HintsOk(c.nodes, c.reigns)
  }

  /** A step that casts no vote. */
  ghost predicate NoVote(s: Node, s': Node) {
    s'.hasVoted ==> s.hasVoted && s'.term == s.term && s'.votedFor == s.votedFor
  }

  lemma AppendCastsNoVote(s: Node, from: NodeId, args: AppendArgs)
    ensures NoVote(s, OnAppendEntries(s, from, args).0)
  {
    hide Merge, RulesOf;
  }

  lemma VotedNext(c: Cluster, a: Action)
    requires VotedOk(c.nodes, c.ballots) && Enabled(c, a)
    ensures VotedOk(Next(c, a).nodes, Next(c, a).ballots)
  {
    if a.HandleAppend? { AppendCastsNoVote(c.nodes[a.appendReq.peer], a.appendReq.leader, a.appendReq.args); }
    hide OnAppendEntries, ScanCommit, RulesOf, BuildAppend, NewReign;
  }

  lemma AppendApplies(s: Node, from: NodeId, args: AppendArgs)
    requires s.commit <= s.applied
    ensures var (s', result) := OnAppendEntries(s, from, args);
            && s'.commit <= s'.applied
            && (result.success ==> Min(args.commit, |s'.log|) <= s'.applied)
  {
    hide Merge, RulesOf;
  }

  lemma AdvanceApplies(s: Node, peers: set<NodeId>)
    requires s.commit <= s.applied
    ensures AdvanceCommit(s, peers).commit <= AdvanceCommit(s, peers).applied
  {
    ScanFinds(s, peers, |s.log|);
    hide ScanCommit, RulesOf;
  }

  /** The steps of elections, as opposed to those of replication. */
  predicate OfElection(a: Action) { a.Campaigning? || a.HandleVote? || a.CountVote? || a.CloseElection? }

  lemma AppliedNext(c: Cluster, a: Action)
    requires AppliedOk(c.nodes) && Enabled(c, a)
    ensures AppliedOk(Next(c, a).nodes)
  {
    hide AppliedOk, Enabled, Next;
    if OfElection(a) { AppliedByElection(c, a); } else { AppliedByReplication(c, a); }
  }

  lemma AppliedByElection(c: Cluster, a: Action)
    requires AppliedOk(c.nodes) && Enabled(c, a) && OfElection(a)
    ensures AppliedOk(Next(c, a).nodes)
  {
    hide NewReign;
  }

  lemma AppliedByReplication(c: Cluster, a: Action)
    requires AppliedOk(c.nodes) && Enabled(c, a) && !OfElection(a)
    ensures AppliedOk(Next(c, a).nodes)
  {
    if a.HandleAppend? { AppendApplies(c.nodes[a.appendReq.peer], a.appendReq.leader, a.appendReq.args); }
    if a.CloseRound? { AdvanceApplies(c.nodes[a.round.leader], Peers(c, a.round.leader)); }
    hide OnAppendEntries, AdvanceCommit, BuildAppend, NewReign;
  }

  lemma GrantsNext(c: Cluster, a: Action)
    requires GrantsOk(c.voteReps) && Enabled(c, a)
    ensures GrantsOk(Next(c, a).voteReps)
  {
    hide OnAppendEntries, AdvanceCommit, BuildAppend, NewReign, OnAppendResult;
  }

  lemma AcceptsNext(c: Cluster, a: Action)
    requires AcceptsOk(c.answers) && Enabled(c, a)
    ensures AcceptsOk(Next(c, a).answers)
  {
    if a.HandleAppend? { AcceptTerm(c.nodes[a.appendReq.peer], a.appendReq.leader, a.appendReq.args); }
    hide OnAppendEntries, AdvanceCommit, BuildAppend, NewReign, OnAppendResult;
  }

  lemma AcceptTerm(s: Node, from: NodeId, args: AppendArgs)
    ensures var (s', result) := OnAppendEntries(s, from, args);
            result.success ==> result.term == args.term
  {
    hide Merge, RulesOf;
  }

  /** The node keeps its hint in the same or a later term, drops it, or takes that of a reign. */
  ghost predicate HintKept(p: NodeId, s: Node, s': Node, h: Reigns) {
    && s.term <= s'.term
    && (s'.hasLeader ==> (s.hasLeader && s'.leader == s.leader) || (s'.term in h && h[s'.term].id == s'.leader))
    && (s'.role.Leader? ==> s'.hasLeader && (s'.leader == p || (s.role.Leader? && s'.leader == s.leader)))
    && (s'.role.Candidate? ==> !s'.hasLeader || (s.role.Candidate? && s.hasLeader))
  }

  lemma HintMoves(p: NodeId, s: Node, s': Node, h: Reigns, h': Reigns)
    requires HintAt(p, s, h) && Grows(h, h') && HintKept(p, s, s', h')
    ensures HintAt(p, s', h')
  {
  }

  lemma AppendHint(s: Node, from: NodeId, args: AppendArgs)
    ensures var (s', result) := OnAppendEntries(s, from, args);
            if s.term <= args.term then s'.term == args.term && s'.role.Follower? && s'.hasLeader && s'.leader == from
            else s' == s
  {
    hide Merge, RulesOf;
  }

  lemma HintStep(c: Cluster, a: Action, p: NodeId)
    requires BaseInv(c) && Enabled(c, a) && p in c.nodes && (c.nodes[p].role.Leader? ==> c.nodes[p].hasLeader)
    ensures p in Next(c, a).nodes && HintKept(p, c.nodes[p], Next(c, a).nodes[p], Next(c, a).reigns)
  {
    if a.HandleAppend? {
      hide ElectionInv, LogInv, RoundsOk, OpenOk, AnswersOk, AckInv, SentOk, HintKept;
      SentFact(c.reigns, c.nodes.Keys, c.sent, a.appendReq);
      HintOnAppend(c, a, p);
    } else {
      hide BaseInv, HintKept, Enabled, Next;
      if OfElection(a) { HintByElection(c, a, p); } else { HintElsewhere(c, a, p); }
    }
  }

  lemma HintOnAppend(c: Cluster, a: Action, p: NodeId)
    requires Enabled(c, a) && a.HandleAppend? && ReqOk(c.reigns, c.nodes.Keys, a.appendReq)
    requires p in c.nodes && (c.nodes[p].role.Leader? ==> c.nodes[p].hasLeader)
    ensures p in Next(c, a).nodes && HintKept(p, c.nodes[p], Next(c, a).nodes[p], Next(c, a).reigns)
  {
    AppendHint(c.nodes[a.appendReq.peer], a.appendReq.leader, a.appendReq.args);
    RequestIsLeaders(c.reigns, c.nodes.Keys, a.appendReq);
    hide OnAppendEntries, ReqOk;
  }

  lemma HintByElection(c: Cluster, a: Action, p: NodeId)
    requires Enabled(c, a) && OfElection(a) && p in c.nodes && (c.nodes[p].role.Leader? ==> c.nodes[p].hasLeader)
    ensures p in Next(c, a).nodes && HintKept(p, c.nodes[p], Next(c, a).nodes[p], Next(c, a).reigns)
  {
  }

  lemma HintElsewhere(c: Cluster, a: Action, p: NodeId)
    requires Enabled(c, a) && !OfElection(a) && !a.HandleAppend?
    requires p in c.nodes && (c.nodes[p].role.Leader? ==> c.nodes[p].hasLeader)
    ensures p in Next(c, a).nodes && HintKept(p, c.nodes[p], Next(c, a).nodes[p], Next(c, a).reigns)
  {
    if a.CloseCall? { ResultHint(c.nodes[a.appendRep.req.leader], a.appendRep.req.peer, a.appendRep.req.args, a.appendRep.result); }
    if a.CloseRound? { AdvanceHint(c.nodes[a.round.leader], Peers(c, a.round.leader)); }
    hide OnAppendEntries, OnAppendResult, AdvanceCommit, BuildAppend;
  }

  lemma ResultHint(s: Node, peer: NodeId, args: AppendArgs, result: AppendResult)
    requires peer in s.next
    ensures var s' := OnAppendResult(s, peer, args, result);
            s.term <= s'.term && s'.hasLeader == s.hasLeader && s'.leader == s.leader && (s'.role == s.role || s'.role.Follower?)
  {
  }

  lemma AdvanceHint(s: Node, peers: set<NodeId>)
    ensures var s' := AdvanceCommit(s, peers);
            s'.term == s.term && s'.hasLeader == s.hasLeader && s'.leader == s.leader && s'.role == s.role
  {
    hide ScanCommit, RulesOf;
  }

  lemma RequestIsLeaders(h: Reigns, ids: set<NodeId>, q: AppendReq)
    requires ReqOk(h, ids, q)
    ensures q.args.term in h && h[q.args.term].id == q.leader
  {
  }

  lemma HintsNext(c: Cluster, a: Action)
    requires BaseInv(c) && HintsOk(c.nodes, c.reigns) && Enabled(c, a)
    ensures HintsOk(Next(c, a).nodes, Next(c, a).reigns)
  {
    hide BaseInv, Next, Enabled, Grows, HintKept;
    NextGrows(c, a);
    var c' := Next(c, a);
    forall p | p in c'.nodes ensures HintAt(p, c'.nodes[p], c'.reigns) {
      assert p in c.nodes && HintAt(p, c.nodes[p], c.reigns);
      HintStep(c, a, p);
      HintMoves(p, c.nodes[p], c'.nodes[p], c.reigns, c'.reigns);
    }
  }

  lemma {:induction false} RunDuty(ids: set<NodeId>, run: seq<Cluster>, i: nat)
    requires IsRun(ids, run) && i < |run|
    ensures DutyInv(run[i])
    decreases i
  {
    hide BaseInv, Next, Enabled, VotedOk, GrantsOk, AcceptsOk, AppliedOk, HintsOk;
    if i == 0 {
      InitialDuty(ids);
    } else {
      RunBase(ids, run, i - 1);
      RunDuty(ids, run, i - 1);
      assert StepTo(run[i - 1], run[i]);
      var a :| Enabled(run[i - 1], a) && run[i] == Next(run[i - 1], a);
      VotedNext(run[i - 1], a);
      GrantsNext(run[i - 1], a);
      AcceptsNext(run[i - 1], a);
      AppliedNext(run[i - 1], a);
      HintsNext(run[i - 1], a);
    }
  }

  lemma InitialDuty(ids: set<NodeId>)
    ensures DutyInv(InitialCluster(ids))
  {
  }

  // ------------------------------------------------------------------ steps

  /** Step `i` of the run is action `a`. */
  ghost predicate StepIs(run: seq<Cluster>, i: nat, a: Action) {
    i + 1 < |run| && Enabled(run[i], a) && run[i + 1] == Next(run[i], a)
  }

  /** A node that has heard of term `t` is in it, or in a later one it was in before. */
  ghost predicate Learned(s: Node, s': Node, t: nat) {
    s'.term == Max(s.term, t) && (s'.term > s.term ==> s'.role.Follower?)
  }

  /** Every message teaches its receiver the sender's term, and every reply carries the larger of the two terms. */
  lemma MessagesTeach(run: seq<Cluster>, i: nat, a: Action)
    requires StepIs(run, i, a)
    ensures a.HandleVote? ==>
              var s, t := run[i].nodes[a.voter], a.voteReq.args.term;
              Learned(s, run[i + 1].nodes[a.voter], t) && OnRequestVote(s, a.voteReq.candidate, a.voteReq.args).1.term == Max(s.term, t)
    ensures a.HandleAppend? ==>
              var p, t := a.appendReq.peer, a.appendReq.args.term;
              && Learned(run[i].nodes[p], run[i + 1].nodes[p], t)
              && OnAppendEntries(run[i].nodes[p], a.appendReq.leader, a.appendReq.args).1.term == Max(run[i].nodes[p].term, t)
    ensures a.CountVote? ==>
              var n := a.voteRep.req.candidate; Learned(run[i].nodes[n], run[i + 1].nodes[n], a.voteRep.result.term)
    ensures a.CloseCall? ==>
              var l := a.appendRep.req.leader; Learned(run[i].nodes[l], run[i + 1].nodes[l], a.appendRep.result.term)
  {
    if a.HandleAppend? { AppendTeaches(run[i].nodes[a.appendReq.peer], a.appendReq.leader, a.appendReq.args); }
    hide OnAppendEntries, BuildAppend, NewReign, AdvanceCommit, BecomeLeader;
  }

  lemma AppendTeaches(s: Node, from: NodeId, args: AppendArgs)
    ensures var (s', result) := OnAppendEntries(s, from, args);
            && Learned(s, s', args.term) && result.term == s'.term
            && (s.term <= args.term ==> s'.role.Follower?)
  {
    hide Merge, RulesOf;
  }

  /** Answering a vote request changes nothing but the term, the role in a later term, and the ballot. */
  lemma VoteChangesOnly(run: seq<Cluster>, i: nat, req: VoteReq, v: NodeId)
    requires StepIs(run, i, HandleVote(req, v))
    ensures var s, s', t := run[i].nodes[v], run[i + 1].nodes[v], req.args.term;
            s' == s.(term := Max(s.term, t), role := if t > s.term then Follower else s.role,
                     hasVoted := s'.hasVoted, votedFor := s'.votedFor)
    ensures var s, s', granted := run[i].nodes[v], run[i + 1].nodes[v], OnRequestVote(run[i].nodes[v], req.candidate, req.args).1.granted;
            && (granted ==> s'.hasVoted && s'.votedFor == req.candidate)
            && (!granted ==> s'.votedFor == s.votedFor && s'.hasVoted == (s.hasVoted && s'.term == s.term))
  {
  }

  /** Handling a request makes the node a follower of its sender; refused, it leaves what is committed and applied alone. */
  lemma AppendChangesOnly(run: seq<Cluster>, i: nat, req: AppendReq)
    requires StepIs(run, i, HandleAppend(req)) && run[i].nodes[req.peer].term <= req.args.term
    ensures var s, s', t := run[i].nodes[req.peer], run[i + 1].nodes[req.peer], req.args.term;
            s' == s.(term := t, role := Follower, hasVoted := s.hasVoted && t == s.term, leader := req.leader, hasLeader := true,
                     log := s'.log, commit := s'.commit, applied := s'.applied, rules := s'.rules)
    ensures var s, s', success := run[i].nodes[req.peer], run[i + 1].nodes[req.peer],
                                  OnAppendEntries(run[i].nodes[req.peer], req.leader, req.args).1.success;
            && (!success ==> s'.commit == s.commit && s'.applied == s.applied && s'.rules == s.rules)
            && (success && s.commit <= |s'.log| ==> s'.commit == Max(s.commit, Min(req.args.commit, |s'.log|)))
  {
    AppendFrame(run[i].nodes[req.peer], req.leader, req.args);
    hide OnAppendEntries;
  }

  lemma AppendFrame(s: Node, from: NodeId, args: AppendArgs)
    requires s.term <= args.term
    ensures var (s', result) := OnAppendEntries(s, from, args);
            && s' == s.(term := args.term, role := Follower, hasVoted := s.hasVoted && args.term == s.term, leader := from,
                        hasLeader := true, log := s'.log, commit := s'.commit, applied := s'.applied, rules := s'.rules)
            && (!result.success ==> s'.commit == s.commit && s'.applied == s.applied && s'.rules == s.rules)
            && (result.success && s.commit <= |s'.log| ==> s'.commit == Max(s.commit, Min(args.commit, |s'.log|)))
  {
    hide Merge, RulesOf;
  }

  /** A reply of a later term ends the node's role and ballot; a reply nobody waits for any more changes nothing. */
  lemma ReplyChangesOnly(run: seq<Cluster>, i: nat, a: Action)
    requires StepIs(run, i, a)
    ensures a.CountVote? ==>
              var n, t := a.voteRep.req.candidate, a.voteRep.result.term;
              run[i + 1].nodes[n] == SteppedDown(run[i].nodes[n], t)
    ensures a.CloseCall? ==>
              var l, rep := a.appendRep.req.leader, a.appendRep;
              var s := run[i].nodes[l];
              rep.result.term > s.term || !s.role.Leader? || s.term != rep.req.args.term ==>
                run[i + 1].nodes[l] == SteppedDown(s, rep.result.term)
  {
    hide OnAppendEntries, BuildAppend, NewReign, AdvanceCommit, BecomeLeader;
  }

  /** The node after it has heard of term `t` in a reply that asks for nothing else. */
  function SteppedDown(s: Node, t: nat): Node {
    if t > s.term then s.(term := t, role := Follower, hasVoted := false) else s
  }

  /** The nodes whose state a step may change: one at most. */
  function Movers(a: Action): set<NodeId> {
    match a
    case Campaigning(n) => {n}
    case HandleVote(_, voter) => {voter}
    case CountVote(rep) => {rep.req.candidate}
    case CloseElection(n) => {n}
    case Propose(n, _) => {n}
    case HandleAppend(req) => {req.peer}
    case CloseCall(_, rep) => {rep.req.leader}
    case CloseRound(round) => {round.leader}
    case _ => {}
  }

  lemma OneNodeMoves(run: seq<Cluster>, i: nat, a: Action, p: NodeId)
    requires StepIs(run, i, a) && p in run[i].nodes && p !in Movers(a)
    ensures p in run[i + 1].nodes && run[i + 1].nodes[p] == run[i].nodes[p]
  {
    hide OnAppendEntries, BuildAppend, NewReign, AdvanceCommit, BecomeLeader, OnAppendResult, OnRequestVote;
  }

  // ------------------------------------------------------------------ votes

  /** The voter's log is ahead of the candidate's. */
  predicate Ahead(log: seq<Entry>, args: VoteArgs) {
    LastTerm(log) > args.lastTerm || (LastTerm(log) == args.lastTerm && |log| > args.lastIndex)
  }

  /** The voter has given this term's vote to someone else. */
  ghost predicate Spent(ballots: set<Ballot>, v: NodeId, t: nat, candidate: NodeId) {
    exists d :: d != candidate && Ballot(v, t, d) in ballots
  }

  /**
    A vote is refused exactly if the voter has reached a later term, has voted for another candidate in this one,
    or has a log that is ahead of the candidate's.
   */
  lemma VoteRefusedIff(ids: set<NodeId>, run: seq<Cluster>, i: nat, req: VoteReq, v: NodeId)
    requires IsRun(ids, run) && StepIs(run, i, HandleVote(req, v))
    ensures var c, s := run[i], run[i].nodes[v];
            var result := OnRequestVote(s, req.candidate, req.args).1;
            && VoteRep(req, v, result) in run[i + 1].voteReps
            && (!result.granted <==>
                  s.term > req.args.term || Spent(c.ballots, v, req.args.term, req.candidate) || Ahead(s.log, req.args))
            && (result.granted ==> Ballot(v, req.args.term, req.candidate) in run[i + 1].ballots)
  {
    hide IsRun, VotesOk, CampaignsOk, ElectedOk, RolesOk, LogInv, NetInv, AckInv, GrantsOk, AppliedOk, HintsOk;
    RunBase(ids, run, i);
    RunDuty(ids, run, i);
    var c, s, t := run[i], run[i].nodes[v], req.args.term;
    if s.term == t && s.hasVoted { assert Ballot(v, t, s.votedFor) in c.ballots; }
  }

  /** A vote that was given for the running election is counted, and the election ends with a leader exactly on a majority. */
  lemma VoteIsCounted(ids: set<NodeId>, run: seq<Cluster>, i: nat, rep: VoteRep)
    requires IsRun(ids, run) && StepIs(run, i, CountVote(rep)) && rep.result.granted
    ensures var n := rep.req.candidate;
            && n in run[i + 1].campaigns && run[i + 1].nodes[n] == run[i].nodes[n]
            && run[i + 1].campaigns[n] == Campaign(run[i].campaigns[n].term, run[i].campaigns[n].votes + {rep.voter})
  {
    hide IsRun, ElectedOk, RolesOk, LogInv, NetInv, AckInv, VotedOk, AppliedOk, HintsOk;
    RunBase(ids, run, i);
    RunDuty(ids, run, i);
    assert rep.req in run[i].voteReqs && VoteReqOk(run[i].nodes, rep.req);
  }

  /** `Majority` is the least number of members that is more than half of them. */
  lemma MajorityIsLeast(n: nat, m: nat)
    ensures m >= Majority(n) <==> 2 * m > n
  {
  }

  lemma ElectionDecided(run: seq<Cluster>, i: nat, n: NodeId)
    requires StepIs(run, i, CloseElection(n)) && !run[i].nodes[n].role.Leader?
    ensures var c, s, camp := run[i], run[i].nodes[n], run[i].campaigns[n];
            run[i + 1].nodes[n].role.Leader? <==>
              s.role.Candidate? && s.term == camp.term && 2 * |camp.votes| > |c.nodes|
  {
    MajorityIsLeast(|run[i].nodes|, |run[i].campaigns[n].votes|);
  }

  // --------------------------------------------------------------- requests

  lemma {:induction false} MergeDiverges(log: seq<Entry>, idx: nat, entries: seq<Entry>, full: seq<Entry>)
    requires idx <= |log| && idx + |entries| <= |full| && entries != [] && entries == full[idx..idx + |entries|]
    requires log[..idx] == full[..idx] && (idx < |log| ==> log[idx].term != entries[0].term)
    ensures Merge(log, idx, entries) == Merge(full[..idx + 1], idx + 1, entries[1..]) && !(full[..idx + |entries|] <= log)
  {
    assert log[..idx] + [entries[0]] == full[..idx + 1];
    if idx == |log| { assert log[..idx] == log; }
    assert full[..idx + |entries|][idx] == entries[0];
  }

  lemma {:induction false} MergeIsExact(log: seq<Entry>, idx: nat, entries: seq<Entry>, full: seq<Entry>)
    requires idx <= |log| && idx + |entries| <= |full| && entries == full[idx..idx + |entries|]
    requires log[..idx] == full[..idx] && Matching(log, full)
    ensures var e := idx + |entries|; Merge(log, idx, entries) == if full[..e] <= log then log else full[..e]
    decreases |entries|
  {
    var e := idx + |entries|;
    if entries == [] {
      assert full[..e] <= log;
    } else {
      assert entries[1..] == full[idx + 1..e];
      if idx < |log| && log[idx].term == entries[0].term {
        assert log[..idx + 1] == full[..idx + 1];
        MergeIsExact(log, idx + 1, entries[1..], full);
      } else {
        MergeDiverges(log, idx, entries, full);
        MergeIsExact(full[..idx + 1], idx + 1, entries[1..], full);
        assert full[..e] <= full[..idx + 1] ==> e == idx + 1;
      }
    }
  }

  /** What handling a request of the node's own or a later term makes of its log. */
  ghost predicate Handled(s: Node, s': Node, result: AppendResult, args: AppendArgs, full: seq<Entry>)
    requires args.prevIndex <= |full| && End(args) <= |full|
  {
    && (result.success <==> full[..args.prevIndex] <= s.log)
    && (result.success ==> s'.log == (if full[..End(args)] <= s.log then s.log else full[..End(args)]) && result.matchIndex == |s'.log|)
    && (!result.success ==> s'.log == if |s.log| < args.prevIndex then s.log else s.log[..args.prevIndex - 1])
  }

  lemma AcceptExact(s: Node, from: NodeId, args: AppendArgs, full: seq<Entry>)
    requires s.term <= args.term && End(args) <= |full| && args.entries == full[args.prevIndex..End(args)]
    requires args.prevTerm == (if args.prevIndex > 0 then full[args.prevIndex - 1].term else 0) && Matching(s.log, full)
    ensures var (s', result) := OnAppendEntries(s, from, args); Handled(s, s', result, args, full)
  {
    var prev := args.prevIndex;
    if prev > 0 && prev <= |s.log| && s.log[prev - 1].term == full[prev - 1].term {
      assert s.log[..prev] == full[..prev];
    }
    if full[..prev] <= s.log {
      if prev > 0 { assert s.log[prev - 1] == full[..prev][prev - 1]; }
      MergeIsExact(s.log, prev, args.entries, full);
    }
    hide Merge, RulesOf, Matching;
  }

  /**
    A request of the node's own or a later term is accepted exactly if the node's log has everything the leader's
    log has before it. Then the node has everything the request carries, and more only if it had more that agreed.
   */
  lemma AcceptedIff(ids: set<NodeId>, run: seq<Cluster>, i: nat, req: AppendReq)
    requires IsRun(ids, run) && StepIs(run, i, HandleAppend(req)) && run[i].nodes[req.peer].term <= req.args.term
    ensures req.args.term in run[i].reigns && End(req.args) <= |run[i].reigns[req.args.term].log|
    ensures var s, s' := run[i].nodes[req.peer], run[i + 1].nodes[req.peer];
            var result := OnAppendEntries(s, req.leader, req.args).1;
            && AppendRep(req, result) in run[i + 1].answers
            && Handled(s, s', result, req.args, run[i].reigns[req.args.term].log)
            && s'.hasLeader && s'.leader == req.leader == run[i].reigns[req.args.term].id
  {
    hide IsRun, BallotsOk, VotesOk, CampaignsOk, ElectedOk, RolesOk, ReignsOk, LogsOk, NextOk, MatchedOk;
    hide SentOk, RoundsOk, OpenOk, AnswersOk, AckInv, OnAppendEntries, LogOk, Handled;
    RunBase(ids, run, i);
    var h, s, t := run[i].reigns, run[i].nodes[req.peer], req.args.term;
    SentFact(h, run[i].nodes.Keys, run[i].sent, req);
    ReignFact(h, run[i].nodes.Keys, t);
    LogFact(run[i].nodes, h, req.peer);
    MatchingLogs(h, s.log, s.term, t);
    AcceptExact(s, req.leader, req.args, h[t].log);
    AppendHint(s, req.leader, req.args);
  }

  /** A request of an earlier term changes nothing and is refused. */
  lemma StaleIsRefused(run: seq<Cluster>, i: nat, req: AppendReq)
    requires StepIs(run, i, HandleAppend(req)) && run[i].nodes[req.peer].term > req.args.term
    ensures run[i + 1].nodes[req.peer] == run[i].nodes[req.peer]
    ensures !OnAppendEntries(run[i].nodes[req.peer], req.leader, req.args).1.success
  {
  }

  /**
    A node's idea of the leader is never made up: it is the leader of its own or an earlier term; a leader names
    itself and a candidate nobody.
   */
  lemma HintIsALeader(ids: set<NodeId>, run: seq<Cluster>, i: nat, p: NodeId)
    requires IsRun(ids, run) && At(run, i, p)
    ensures var s, h := run[i].nodes[p], run[i].reigns;
            && (s.hasLeader ==> exists t :: t in h && t <= s.term && h[t].id == s.leader)
            && (s.role.Leader? ==> s.hasLeader && s.leader == p) && (s.role.Candidate? ==> !s.hasLeader)
  {
    hide IsRun, VotedOk, GrantsOk, AcceptsOk, AppliedOk;
    RunDuty(ids, run, i);
    assert HintAt(p, run[i].nodes[p], run[i].reigns);
  }

  // ---------------------------------------------------------------- commits

  /** An accepted request leaves nothing unapplied that its leader had committed and the follower now has. */
  lemma FollowerApplies(ids: set<NodeId>, run: seq<Cluster>, i: nat, req: AppendReq, k: nat)
    requires IsRun(ids, run) && StepIs(run, i, HandleAppend(req))
    requires OnAppendEntries(run[i].nodes[req.peer], req.leader, req.args).1.success
    requires k <= req.args.commit && k <= |run[i + 1].nodes[req.peer].log|
    ensures k <= run[i + 1].nodes[req.peer].applied
  {
    hide IsRun, OnAppendEntries, VotedOk, GrantsOk, HintsOk;
    RunDuty(ids, run, i);
    AppendApplies(run[i].nodes[req.peer], req.leader, req.args);
  }

  /** In any run, the commands among the entries it had not applied before are then among the follower's rules. */
  lemma FollowerRegistersNew(ids: set<NodeId>, run: seq<Cluster>, i: nat, req: AppendReq, k: nat, command: Command)
    requires IsRun(ids, run) && StepIs(run, i, HandleAppend(req))
    requires OnAppendEntries(run[i].nodes[req.peer], req.leader, req.args).1.success
    requires 0 < k <= req.args.commit && k <= |run[i + 1].nodes[req.peer].log| && run[i].nodes[req.peer].applied < k
    requires Registers(run[i + 1].nodes[req.peer].log[k - 1], command)
    ensures command in run[i + 1].nodes[req.peer].rules
  {
    hide IsRun, OnAppendEntries, VotedOk, GrantsOk, HintsOk;
    FollowerApplies(ids, run, i, req, k);
    AppendAdds(run[i].nodes[req.peer], req.leader, req.args, k, command);
  }

  lemma AppendAdds(s: Node, from: NodeId, args: AppendArgs, k: nat, command: Command)
    requires var s' := OnAppendEntries(s, from, args).0;
             s.applied < k <= s'.applied && k <= |s'.log| && Registers(s'.log[k - 1], command)
    ensures command in OnAppendEntries(s, from, args).0.rules
  {
    hide Merge, RulesOf, Registers;
    var s' := OnAppendEntries(s, from, args).0;
    assert s'.applied <= |s'.log| && s'.rules == s.rules + RulesOf(s'.log[s.applied..s'.applied]);
    var added := s'.log[s.applied..s'.applied];
    assert Registers(added[k - 1 - s.applied], command);
    RulesAreRegistered(added, command);
  }

  /** Within the call limit, the commands among those entries are then among the follower's rules. */
  lemma FollowerRegisters(ids: set<NodeId>, run: seq<Cluster>, limit: nat, i: nat, req: AppendReq, k: nat, command: Command)
    requires IsRunWithin(ids, run, limit) && limit <= SAFE_CALLS && StepIs(run, i, HandleAppend(req))
    requires OnAppendEntries(run[i].nodes[req.peer], req.leader, req.args).1.success
    requires 0 < k <= req.args.commit && k <= |run[i + 1].nodes[req.peer].log|
    requires Registers(run[i + 1].nodes[req.peer].log[k - 1], command)
    ensures command in run[i + 1].nodes[req.peer].rules
  {
    hide IsRunWithin, OnAppendEntries;
    WithinIsRun(ids, run, limit);
    FollowerApplies(ids, run, i, req, k);
    var s := run[i + 1].nodes[req.peer];
    RulesAreApplied(ids, run, limit, i + 1, req.peer, command);
    assert Registers(s.log[..s.applied][k - 1], command);
  }
}
