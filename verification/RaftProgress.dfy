/**
  What the leader's bookkeeping must achieve. Answers move the peer's indices on and a quorum of answers moves
  the commit index, in every run; and from every reachable state a candidate or leader that reaches a majority
  can be elected, bring every one of them level and have its whole log applied, for any cluster size, any gap
  and any commit index.
 */
module RaftProgress {
  import opened RaftSpec
  import opened RaftCluster
  import opened RaftInvariant
  import opened RaftReplication
  import opened RaftCommit
  import opened RaftSafety
  import opened RaftDuties
  import RaftRuns

  // ---------------------------------------------------------------- answers

  /** The call that is closed was accepted, and its leader still leads the term of the request. */
  ghost predicate Accepted(c: Cluster, rep: AppendRep) {
    && rep.result.success && rep.req.leader in c.nodes
    && c.nodes[rep.req.leader].role.Leader? && c.nodes[rep.req.leader].term == rep.req.args.term
  }

  /** The next request starts right after what the accepted call carried; nothing else about the leader changes. */
  lemma AcceptedMovesOn(ids: set<NodeId>, run: seq<Cluster>, i: nat, call: nat, rep: AppendRep, commit: nat)
    requires IsRun(ids, run) && StepIs(run, i, CloseCall(call, rep)) && Accepted(run[i], rep)
    ensures var l, p, e := rep.req.leader, rep.req.peer, End(rep.req.args);
            var s, s' := run[i].nodes[l], run[i + 1].nodes[l];
            && s' == s.(next := s.next[p := e + 1], matched := s.matched[p := e])
            && BuildAppend(s', p, commit).prevIndex == e
  {
    hide IsRun, VotedOk, GrantsOk, AppliedOk, HintsOk;
    RunDuty(ids, run, i);
    hide OnAppendEntries, AdvanceCommit, NewReign;
  }

  /** A rejected call moves the next index one step back, but not below the first entry. */
  lemma RejectedMovesBack(run: seq<Cluster>, i: nat, call: nat, rep: AppendRep)
    requires StepIs(run, i, CloseCall(call, rep)) && !rep.result.success
    requires var s := run[i].nodes[rep.req.leader]; s.role.Leader? && s.term == rep.req.args.term && rep.result.term <= s.term
    ensures var l, p := rep.req.leader, rep.req.peer;
            var s, s' := run[i].nodes[l], run[i + 1].nodes[l];
            s' == s.(next := s.next[p := if s.next[p] > 1 then s.next[p] - 1 else s.next[p]])
  {
    hide OnAppendEntries, AdvanceCommit, NewReign, BuildAppend;
    var s, p := run[i].nodes[rep.req.leader], rep.req.peer;
    assert s.next[p := s.next[p]] == s.next;
  }

  // ------------------------------------------------------- commit completeness

  /** The actions of a run. */
  ghost predicate Takes(run: seq<Cluster>, acts: seq<Action>) {
    |run| == |acts| + 1 && forall i :: 0 <= i < |acts| ==> StepIs(run, i, acts[i])
  }

  /** Step `j` closes a call to `p` that `l`, leading the request's term, saw accepted up to index `e`. */
  ghost predicate Answers(run: seq<Cluster>, acts: seq<Action>, j: nat, l: NodeId, p: NodeId, e: nat) {
    && j < |acts| && j < |run| && acts[j].CloseCall?
    && var rep := acts[j].appendRep;
       rep.req.leader == l && rep.req.peer == p && End(rep.req.args) == e && Accepted(run[j], rep)
  }

  /** The last accepted call to `p` that `l` closed in its current term reached `e`. */
  ghost predicate LatestAnswer(run: seq<Cluster>, acts: seq<Action>, i: nat, l: NodeId, p: NodeId, e: nat) {
    exists j: nat :: LatestAt(run, acts, j, i, l, p, e)
  }

  ghost predicate LatestAt(run: seq<Cluster>, acts: seq<Action>, j: nat, i: nat, l: NodeId, p: NodeId, e: nat) {
    && j < i < |run| && Answers(run, acts, j, l, p, e)
    && l in run[i].nodes && run[i].nodes[l].term == run[j].nodes[l].term
    && forall k: nat, e': nat :: j < k < i ==> !Answers(run, acts, k, l, p, e')
  }

  /** Only an accepted call to `p` changes what a leader knows of `p`. */
  lemma KnowledgeStays(c: Cluster, a: Action, l: NodeId, p: NodeId)
    requires AcceptsOk(c.answers) && Enabled(c, a) && l in c.nodes && c.nodes[l].role.Leader? && p in c.nodes[l].matched
    requires Next(c, a).nodes[l].term == c.nodes[l].term
    requires a.CloseCall? && a.appendRep.req.leader == l && a.appendRep.req.peer == p ==> !Accepted(c, a.appendRep)
    ensures var s' := Next(c, a).nodes[l]; p in s'.matched && s'.matched[p] == c.nodes[l].matched[p]
  {
    if a.HandleAppend? { AppendKeepsMatched(c.nodes[a.appendReq.peer], a.appendReq.leader, a.appendReq.args); }
    hide OnAppendEntries, ScanCommit, RulesOf, NewReign, BuildAppend;
  }

  lemma AppendKeepsMatched(s: Node, from: NodeId, args: AppendArgs)
    ensures OnAppendEntries(s, from, args).0.matched == s.matched
  {
    hide Merge, RulesOf;
  }

  /** A leader leads its term for as long as it is in it. */
  lemma StillLeads(ids: set<NodeId>, run: seq<Cluster>, j: nat, k: nat, l: NodeId)
    requires IsRun(ids, run) && LeadsAt(run, j, l) && j <= k < |run| && At(run, k, l)
    requires run[k].nodes[l].term == run[j].nodes[l].term
    ensures run[k].nodes[l].role.Leader? && run[k].nodes[l].matched.Keys == ids - {l}
  {
    hide IsRun, BallotsOk, VotesOk, CampaignsOk, ElectedOk, LogInv, NetInv, AckInv;
    RunBase(ids, run, k);
    LeaderReign(ids, run, j, k, l);
  }

  lemma {:induction false} MatchedIsLatest(ids: set<NodeId>, run: seq<Cluster>, acts: seq<Action>, j: nat, i: nat,
                                           l: NodeId, p: NodeId, e: nat)
    requires IsRun(ids, run) && Takes(run, acts) && LatestAt(run, acts, j, i, l, p, e)
    ensures run[i].nodes[l].role.Leader? && p in run[i].nodes[l].matched && run[i].nodes[l].matched[p] == e
    decreases i
  {
    hide IsRun, Next, Enabled, BaseInv, VotedOk, GrantsOk, AppliedOk, HintsOk, BuildAppend;
    assert StepIs(run, j, acts[j]);
    StillLeads(ids, run, j, i, l);
    if i == j + 1 {
      AcceptedMovesOn(ids, run, j, acts[j].call, acts[j].appendRep, 0);
    } else {
      assert StepIs(run, i - 1, acts[i - 1]);
      RunBase(ids, run, i);
      RunBase(ids, run, i - 1);
      RunMonotone(ids, run, j, i - 1, l);
      RunMonotone(ids, run, i - 1, i, l);
      MatchedIsLatest(ids, run, acts, j, i - 1, l, p, e);
      RunDuty(ids, run, i - 1);
      NotAnswered(run, acts, i - 1, l, p);
      KnowledgeStays(run[i - 1], acts[i - 1], l, p);
    }
  }

  lemma NotAnswered(run: seq<Cluster>, acts: seq<Action>, k: nat, l: NodeId, p: NodeId)
    requires k < |acts| && k < |run| && forall e: nat :: !Answers(run, acts, k, l, p, e)
    ensures var a := acts[k];
            a.CloseCall? && a.appendRep.req.leader == l && a.appendRep.req.peer == p ==> !Accepted(run[k], a.appendRep)
  {
    if acts[k].CloseCall? { assert !Answers(run, acts, k, l, p, End(acts[k].appendRep.req.args)); }
  }

  /**
    When the latest answers of enough peers reach an entry of the leader's own term, the end of a round leaves
    nothing up to it uncommitted or unapplied.
   */
  lemma CommitReaches(ids: set<NodeId>, run: seq<Cluster>, acts: seq<Action>, i: nat, round: Round, n: nat, peers: set<NodeId>)
    requires IsRun(ids, run) && Takes(run, acts) && i < |acts| && acts[i] == CloseRound(round)
    requires var s := run[i].nodes[round.leader]; 0 < n <= |s.log| && s.log[n - 1].term == s.term
    requires peers <= ids - {round.leader} && 2 * (|peers| + 1) > |ids|
    requires forall p :: p in peers ==> exists e: nat :: e >= n && LatestAnswer(run, acts, i, round.leader, p, e)
    ensures var s' := run[i + 1].nodes[round.leader]; n <= s'.commit <= s'.applied
  {
    hide IsRun, BaseInv, RulesOf, ScanCommit, VotedOk, GrantsOk, HintsOk, AcceptsOk, LatestAt;
    assert StepIs(run, i, acts[i]);
    var l := round.leader;
    var s := run[i].nodes[l];
    RunBase(ids, run, i);
    RunDuty(ids, run, i);
    RunDuty(ids, run, i + 1);
    forall p | p in peers ensures p in s.matched && s.matched[p] >= n {
      var e: nat :| e >= n && LatestAnswer(run, acts, i, l, p, e);
      var j: nat :| LatestAt(run, acts, j, i, l, p, e);
      MatchedIsLatest(ids, run, acts, j, i, l, p, e);
    }
    EnoughReplicas(s, ids, l, peers, n);
    ScanFinds(s, ids - {l}, |s.log|);
  }

  lemma EnoughReplicas(s: Node, ids: set<NodeId>, l: NodeId, peers: set<NodeId>, n: nat)
    requires l in ids && peers <= ids - {l} && 2 * (|peers| + 1) > |ids| && 0 < n <= |s.log| && s.log[n - 1].term == s.term
    requires forall p :: p in peers ==> p in s.matched && s.matched[p] >= n
    ensures Committable(s, ids - {l}, n)
  {
    assert peers <= Replicas(s, ids - {l}, n);
    SubsetSize(peers, Replicas(s, ids - {l}, n));
    assert ids == (ids - {l}) + {l};
    MajorityIsLeast(|ids|, 1 + |Replicas(s, ids - {l}, n)|);
  }

  // --------------------------------------------------------------- catching up

  function Now(run: seq<Cluster>): Cluster
    requires run != []
  {
    run[|run| - 1]
  }

  /** The run goes on with one more action. */
  lemma Go(ids: set<NodeId>, run: seq<Cluster>, a: Action) returns (run': seq<Cluster>)
    requires IsRun(ids, run) && Enabled(Now(run), a)
    ensures IsRun(ids, run') && run <= run' && |run'| == |run| + 1 && Now(run') == Next(Now(run), a)
  {
    hide Next, Enabled;
    run' := run + [Next(Now(run), a)];
    assert StepTo(Now(run), Now(run'));
    forall i | 0 < i < |run'| ensures StepTo(run'[i - 1], run'[i]) {
      if i < |run| { assert StepTo(run[i - 1], run[i]); }
    }
  }

  lemma {:induction false} UnusedCall(calls: set<nat>) returns (k: nat)
    ensures forall c :: c in calls ==> c < k
    decreases |calls|
  {
    k := 0;
    if calls != {} {
      var c :| c in calls;
      var k' := UnusedCall(calls - {c});
      k := if k' > c then k' else c + 1;
      assert forall d :: d in calls ==> d == c || d in calls - {c};
    }
  }

  /** The leader `l` and its peer `p`, who has not heard of a later term. */
  ghost predicate Reachable(ids: set<NodeId>, run: seq<Cluster>, l: NodeId, p: NodeId) {
    && IsRun(ids, run) && run != [] && l in ids && p in ids && l != p
    && l in Now(run).nodes && p in Now(run).nodes
    && Now(run).nodes[l].role.Leader? && Now(run).nodes[p].term <= Now(run).nodes[l].term
  }

  /** What the invariant says about such a pair. */
  lemma PairFacts(ids: set<NodeId>, run: seq<Cluster>, l: NodeId, p: NodeId)
    requires Reachable(ids, run, l, p)
    ensures var s, r := Now(run).nodes[l], Now(run).nodes[p];
            && Now(run).nodes.Keys == ids && s.next.Keys == s.matched.Keys == ids - {l}
            && 1 <= s.next[p] <= |s.log| + 1 && Matching(r.log, s.log) && r.commit <= r.applied
            && s.log != [] && s.log[|s.log| - 1].term == s.term
  {
    hide IsRun, BallotsOk, VotesOk, CampaignsOk, ElectedOk, RolesOk, ReignsOk, LogsOk, MatchedOk, NetInv, AckInv, LogOk;
    hide VotedOk, GrantsOk, AcceptsOk, HintsOk;
    var i := |run| - 1;
    RunBase(ids, run, i);
    RunDuty(ids, run, i);
    LeaderFact(run[i].nodes, run[i].reigns, l);
    ReignFact(run[i].reigns, run[i].nodes.Keys, run[i].nodes[l].term);
    LogFact(run[i].nodes, run[i].reigns, p);
    MatchingLogs(run[i].reigns, run[i].nodes[p].log, run[i].nodes[p].term, run[i].nodes[l].term);
  }

  /** One whole call: four steps. */
  lemma Exchange(ids: set<NodeId>, run: seq<Cluster>, l: NodeId, p: NodeId) returns (run': seq<Cluster>)
    requires Reachable(ids, run, l, p)
    requires var s := Now(run).nodes[l]; p in s.next && s.next[p] > 0
    ensures IsRun(ids, run') && run <= run' && |run'| == |run| + 4
    ensures var c, c' := Now(run), Now(run');
            var args := BuildAppend(c.nodes[l], p, c.nodes[l].commit);
            var (r, result) := OnAppendEntries(c.nodes[p], l, args);
            c'.nodes == c.nodes[p := r][l := OnAppendResult(c.nodes[l], p, args, result)]
  {
    hide IsRun, Next, Enabled, OnAppendEntries, OnAppendResult, BuildAppend;
    var c := Now(run);
    var round := Round(l, c.nodes[l].term, c.nodes[l].commit);
    var req := AppendReq(l, p, BuildAppend(c.nodes[l], p, c.nodes[l].commit));
    var rep := AppendRep(req, OnAppendEntries(c.nodes[p], l, req.args).1);
    var k := UnusedCall(c.open.Keys);
    RaftRuns.RoundStep(c, l);
    var r1 := Go(ids, run, OpenRound(l));
    RaftRuns.BuildStep(Now(r1), round, p, k);
    var r2 := Go(ids, r1, Build(round, p, k));
    RaftRuns.AppendStep(Now(r2), req);
    var r3 := Go(ids, r2, HandleAppend(req));
    RaftRuns.CloseStep(Now(r3), k, rep);
    run' := Go(ids, r3, CloseCall(k, rep));
  }

  /** The leader after a call to `p`: only its indices for `p` may differ. */
  ghost predicate SameLeader(s: Node, s': Node, p: NodeId) {
    && s' == s.(next := s'.next, matched := s'.matched)
    && s'.next.Keys == s.next.Keys && s'.matched.Keys == s.matched.Keys
    && forall q :: q in s.matched && q != p ==> s'.matched[q] == s.matched[q]
  }

  ghost predicate SameOthers(c: Cluster, c': Cluster, l: NodeId, p: NodeId) {
    c'.nodes.Keys == c.nodes.Keys && forall q :: q in c.nodes && q != l && q != p ==> c'.nodes[q] == c.nodes[q]
  }

  /** How much the next request to `p` carries. */
  function Sent(s: Node, p: NodeId): nat
    requires p in s.next && 1 <= s.next[p] <= |s.log| + 1
  {
    Min(|s.log|, s.next[p] - 1 + MAX_ENTRIES)
  }

  /** One call, between a leader and a peer whose logs match where their terms do. */
  lemma ExchangeEffect(s: Node, l: NodeId, r: Node, p: NodeId)
    requires s.role.Leader? && p in s.next && p in s.matched && 1 <= s.next[p] <= |s.log| + 1
    requires r.term <= s.term && r.commit <= r.applied && Matching(r.log, s.log)
    ensures var args := BuildAppend(s, p, s.commit);
            var (r', result) := OnAppendEntries(r, l, args);
            var s' := OnAppendResult(s, p, args, result);
            && SameLeader(s, s', p) && r'.term == s.term
            && (if s.log[..s.next[p] - 1] <= r.log
                then && s'.next[p] == Sent(s, p) + 1 && s'.matched[p] == Sent(s, p) && s.log[..Sent(s, p)] <= r'.log
                     && Min(s.commit, |r'.log|) <= r'.applied
                else s'.next[p] == s.next[p] - 1 >= 1)
  {
    var args := BuildAppend(s, p, s.commit);
    assert End(args) == Sent(s, p) && args.entries == s.log[args.prevIndex..End(args)];
    AcceptExact(r, l, args, s.log);
    AppendApplies(r, l, args);
    AppendTeaches(r, l, args);
    hide OnAppendEntries, Matching;
    var (r', result) := OnAppendEntries(r, l, args);
    var s' := OnAppendResult(s, p, args, result);
    assert s'.next.Keys == s.next.Keys && s'.matched.Keys == s.matched.Keys;
    if args.prevIndex == 0 { assert s.log[..0] <= r.log; }
  }

  /** A call to a reachable peer, from any state of any run. */
  lemma Call(ids: set<NodeId>, run: seq<Cluster>, l: NodeId, p: NodeId) returns (run': seq<Cluster>)
    requires Reachable(ids, run, l, p)
    ensures Reachable(ids, run', l, p) && run <= run' && |run'| == |run| + 4
    ensures SameOthers(Now(run), Now(run'), l, p)
    ensures var s, r, s', r' := Now(run).nodes[l], Now(run).nodes[p], Now(run').nodes[l], Now(run').nodes[p];
            && SameLeader(s, s', p) && p in s.next && p in s.matched && 1 <= s.next[p] <= |s.log| + 1
            && (if s.log[..s.next[p] - 1] <= r.log
                then && s'.next[p] == Sent(s, p) + 1 && s'.matched[p] == Sent(s, p) && s.log[..Sent(s, p)] <= r'.log
                     && Min(s.commit, |r'.log|) <= r'.applied
                else s'.next[p] == s.next[p] - 1 >= 1)
  {
    hide IsRun, OnAppendEntries, OnAppendResult, BuildAppend, Matching;
    PairFacts(ids, run, l, p);
    ExchangeEffect(Now(run).nodes[l], l, Now(run).nodes[p], p);
    run' := Exchange(ids, run, l, p);
  }

  /** Calls of at most MAX_ENTRIES entries that `d` entries need. */
  function Calls(d: nat): nat { (d + MAX_ENTRIES - 1) / MAX_ENTRIES }

  /** The peer's log agrees with the leader's before the next index. */
  ghost predicate Agrees(c: Cluster, l: NodeId, p: NodeId)
    requires l in c.nodes && p in c.nodes
  {
    var s := c.nodes[l];
    p in s.next && p in s.matched && 1 <= s.next[p] <= |s.log| + 1 && s.log[..s.next[p] - 1] <= c.nodes[p].log
  }

  /** A peer `d` entries behind has the leader's whole log after exactly ceil(d / MAX_ENTRIES) calls. */
  lemma {:induction false} CatchesUp(ids: set<NodeId>, run: seq<Cluster>, l: NodeId, p: NodeId) returns (run': seq<Cluster>)
    requires Reachable(ids, run, l, p) && Agrees(Now(run), l, p)
    ensures Reachable(ids, run', l, p) && run <= run' && SameOthers(Now(run), Now(run'), l, p)
    ensures var s, s' := Now(run).nodes[l], Now(run').nodes[l];
            && |run'| == |run| + 4 * Calls(|s.log| + 1 - s.next[p])
            && SameLeader(s, s', p) && p in s'.next && s'.next[p] == |s.log| + 1 && s.log <= Now(run').nodes[p].log
            && (s.next[p] <= |s.log| ==> s'.matched[p] == |s.log| && Min(s.commit, |s.log|) <= Now(run').nodes[p].applied)
            && (s.next[p] > |s.log| ==> run' == run)
    decreases |Now(run).nodes[l].log| + 1 - Now(run).nodes[l].next[p]
  {
    hide IsRun;
    var s := Now(run).nodes[l];
    if s.next[p] == |s.log| + 1 {
      run' := run;
      assert s.log[..|s.log|] == s.log;
    } else {
      var r1 := Call(ids, run, l, p);
      var s1 := Now(r1).nodes[l];
      run' := CatchesUp(ids, r1, l, p);
      assert s1.next[p] > |s.log| ==> Now(run').nodes[p] == Now(r1).nodes[p];
      CallsLeft(|s.log| + 1 - s.next[p]);
    }
  }

  lemma CallsLeft(d: nat)
    requires d > 0
    ensures Calls(d) == 1 + Calls(if d > MAX_ENTRIES then d - MAX_ENTRIES else 0)
  {
  }

  /** However far apart the logs are, the next index comes back to where they agree, one call per step. */
  lemma {:induction false} BacksOff(ids: set<NodeId>, run: seq<Cluster>, l: NodeId, p: NodeId) returns (run': seq<Cluster>)
    requires Reachable(ids, run, l, p) && p in Now(run).nodes[l].next
    ensures Reachable(ids, run', l, p) && run <= run' && SameOthers(Now(run), Now(run'), l, p) && Agrees(Now(run'), l, p)
    ensures var s, s' := Now(run).nodes[l], Now(run').nodes[l];
            && SameLeader(s, s', p) && s'.next[p] <= s.next[p] && |run'| == |run| + 4 * (s.next[p] - s'.next[p])
    decreases Now(run).nodes[l].next[p]
  {
    hide IsRun, Matching;
    PairFacts(ids, run, l, p);
    run' := run;
    if !Agrees(Now(run), l, p) {
      var r1 := Call(ids, run, l, p);
      run' := BacksOff(ids, r1, l, p);
    }
  }

  /**
    From any state of any run, a reachable peer is brought level within `next - 1` rejected calls, the calls its
    missing entries need, and one more; the leader knows it, and the peer has applied what the leader had committed.
   */
  lemma BringsLevel(ids: set<NodeId>, run: seq<Cluster>, l: NodeId, p: NodeId) returns (run': seq<Cluster>)
    requires Reachable(ids, run, l, p) && p in Now(run).nodes[l].next
    ensures Reachable(ids, run', l, p) && run <= run' && SameOthers(Now(run), Now(run'), l, p)
    ensures var s, s', r' := Now(run).nodes[l], Now(run').nodes[l], Now(run').nodes[p];
            && SameLeader(s, s', p) && p in s'.matched && s'.matched[p] == |s.log| && s.log <= r'.log
            && Min(s.commit, |s.log|) <= r'.applied
            && |run'| <= |run| + 4 * (s.next[p] + Calls(|s.log|))
  {
    hide IsRun;
    var s := Now(run).nodes[l];
    var r1 := BacksOff(ids, run, l, p);
    var n1 := Now(r1).nodes[l].next[p];
    var r2 := CatchesUp(ids, r1, l, p);
    run' := Call(ids, r2, l, p);
    assert s.log[..|s.log|] == s.log;
    CallsGrow(|s.log| + 1 - n1, |s.log|);
  }

  lemma CallsGrow(d: nat, e: nat)
    requires d <= e
    ensures Calls(d) <= Calls(e)
  {
  }

  // ------------------------------------------------------------ with a majority

  /** Peers of the leader `l` who have not heard of a later term. */
  ghost predicate AllReachable(ids: set<NodeId>, run: seq<Cluster>, l: NodeId, peers: set<NodeId>) {
    && IsRun(ids, run) && run != [] && l in ids && peers <= ids - {l}
    && l in Now(run).nodes && Now(run).nodes[l].role.Leader? && Now(run).nodes[l].next.Keys == ids - {l}
    && forall p :: p in peers ==> p in Now(run).nodes && Now(run).nodes[p].term <= Now(run).nodes[l].term
  }

  /** The leader and each of `peers` have the same idea of how far `p` is: all the way. */
  ghost predicate Level(c: Cluster, l: NodeId, peers: set<NodeId>, applied: nat) {
    && l in c.nodes
    && forall p :: p in peers ==>
         && p in c.nodes && p in c.nodes[l].matched && c.nodes[l].matched[p] == |c.nodes[l].log|
         && c.nodes[l].log <= c.nodes[p].log && applied <= c.nodes[p].applied
  }

  /** Only the leader's indices and the nodes of `peers` have changed. */
  ghost predicate OnlyThese(c: Cluster, c': Cluster, l: NodeId, peers: set<NodeId>) {
    && l in c.nodes && l in c'.nodes
    && c'.nodes[l] == c.nodes[l].(next := c'.nodes[l].next, matched := c'.nodes[l].matched)
    && c'.nodes[l].next.Keys == c.nodes[l].next.Keys && c'.nodes[l].matched.Keys == c.nodes[l].matched.Keys
    && (forall q :: q in c.nodes[l].matched && q !in peers ==> c'.nodes[l].matched[q] == c.nodes[l].matched[q])
    && c'.nodes.Keys == c.nodes.Keys
    && (forall q :: q in c.nodes && q != l && q !in peers ==> c'.nodes[q] == c.nodes[q])
  }

  lemma OneMoreLevel(c: Cluster, c1: Cluster, c2: Cluster, l: NodeId, peers: set<NodeId>, p: NodeId, applied: nat)
    requires p in peers && p != l && OnlyThese(c, c1, l, peers - {p}) && Level(c1, l, peers - {p}, applied)
    requires OnlyThese(c1, c2, l, {p}) && Level(c2, l, {p}, applied)
    ensures OnlyThese(c, c2, l, peers) && Level(c2, l, peers, applied)
  {
    forall q | q in peers
      ensures && q in c2.nodes && q in c2.nodes[l].matched && c2.nodes[l].matched[q] == |c2.nodes[l].log|
              && c2.nodes[l].log <= c2.nodes[q].log && applied <= c2.nodes[q].applied
    {
      assert q in {p} || (q in peers - {p} && q !in {p});
    }
  }

  lemma {:induction false} BringsAllLevel(ids: set<NodeId>, run: seq<Cluster>, l: NodeId, peers: set<NodeId>)
    returns (run': seq<Cluster>)
    requires AllReachable(ids, run, l, peers)
    ensures AllReachable(ids, run', l, peers) && run <= run'
    ensures OnlyThese(Now(run), Now(run'), l, peers)
    ensures Level(Now(run'), l, peers, Min(Now(run).nodes[l].commit, |Now(run).nodes[l].log|))
    decreases |peers|
  {
    hide IsRun;
    run' := run;
    if peers != {} {
      var p :| p in peers;
      var s := Now(run).nodes[l];
      var r1 := BringsAllLevel(ids, run, l, peers - {p});
      assert Now(r1).nodes[p] == Now(run).nodes[p];
      hide Level;
      run' := LevelsOne(ids, r1, l, p);
      OneMoreLevel(Now(run), Now(r1), Now(run'), l, peers, p, Min(s.commit, |s.log|));
      hide OnlyThese;
      TermsStay(ids, run, run', l, peers);
    }
  }

  lemma LevelsOne(ids: set<NodeId>, run: seq<Cluster>, l: NodeId, p: NodeId) returns (run': seq<Cluster>)
    requires Reachable(ids, run, l, p) && p in Now(run).nodes[l].next
    ensures Reachable(ids, run', l, p) && run <= run' && OnlyThese(Now(run), Now(run'), l, {p})
    ensures Level(Now(run'), l, {p}, Min(Now(run).nodes[l].commit, |Now(run).nodes[l].log|))
  {
    hide IsRun;
    run' := BringsLevel(ids, run, l, p);
  }

  /** The peers are still within the leader's term. */
  lemma TermsStay(ids: set<NodeId>, run: seq<Cluster>, run': seq<Cluster>, l: NodeId, peers: set<NodeId>)
    requires AllReachable(ids, run, l, peers) && IsRun(ids, run') && run' != [] && OnlyThese(Now(run), Now(run'), l, peers)
    requires forall p :: p in peers ==> p in Now(run').nodes && Now(run').nodes[p].term <= Now(run').nodes[l].term
    ensures AllReachable(ids, run', l, peers)
  {
    hide IsRun;
  }

  /** A leader that reaches a majority can commit and apply its whole log. */
  lemma MajorityCommits(ids: set<NodeId>, run: seq<Cluster>, l: NodeId, peers: set<NodeId>) returns (run': seq<Cluster>)
    requires AllReachable(ids, run, l, peers) && 2 * (|peers| + 1) > |ids|
    ensures AllReachable(ids, run', l, peers) && run <= run'
    ensures var s, s' := Now(run).nodes[l], Now(run').nodes[l];
            s'.term == s.term && s'.log == s.log && |s.log| <= s'.commit && |s.log| <= s'.applied
  {
    hide IsRun;
    var r1 := BringsAllLevel(ids, run, l, peers);
    run' := RoundEnds(ids, r1, l, peers);
  }

  lemma RoundEnds(ids: set<NodeId>, run: seq<Cluster>, l: NodeId, peers: set<NodeId>) returns (run': seq<Cluster>)
    requires AllReachable(ids, run, l, peers) && 2 * (|peers| + 1) > |ids| && Level(Now(run), l, peers, 0)
    ensures AllReachable(ids, run', l, peers) && run <= run'
    ensures var s, s' := Now(run).nodes[l], Now(run').nodes[l];
            s'.term == s.term && s'.log == s.log && |s.log| <= s'.commit && |s.log| <= s'.applied
  {
    hide IsRun, BaseInv, ScanCommit, RulesOf, VotedOk, GrantsOk, AcceptsOk, HintsOk, Committable;
    var s := Now(run).nodes[l];
    RunBase(ids, run, |run| - 1);
    RunDuty(ids, run, |run| - 1);
    OwnLastEntry(ids, run, l);
    EnoughReplicas(s, ids, l, peers, |s.log|);
    WholeLog(s, ids - {l});
    hide AdvanceCommit;
    var r2 := Go(ids, run, OpenRound(l));
    run' := Go(ids, r2, CloseRound(Round(l, s.term, s.commit)));
    assert Peers(Now(r2), l) == ids - {l};
  }

  lemma WholeLog(s: Node, peers: set<NodeId>)
    requires s.log != [] && s.commit <= s.applied && Committable(s, peers, |s.log|)
    ensures var s' := AdvanceCommit(s, peers);
            && s' == s.(commit := s'.commit, applied := s'.applied, rules := s'.rules)
            && |s.log| <= s'.commit && |s.log| <= s'.applied
  {
    hide Committable, RulesOf, ScanCommit;
    ScanFinds(s, peers, |s.log|);
  }

  /** A leader's last entry is of its own term. */
  lemma OwnLastEntry(ids: set<NodeId>, run: seq<Cluster>, l: NodeId)
    requires IsRun(ids, run) && run != [] && l in Now(run).nodes && Now(run).nodes[l].role.Leader?
    ensures var s := Now(run).nodes[l]; s.log != [] && s.log[|s.log| - 1].term == s.term
  {
    hide IsRun, BallotsOk, VotesOk, CampaignsOk, ElectedOk, RolesOk, ReignsOk, LogsOk, NextOk, MatchedOk, NetInv, AckInv, LogOk;
    var i := |run| - 1;
    RunBase(ids, run, i);
    LeaderFact(run[i].nodes, run[i].reigns, l);
    ReignFact(run[i].reigns, run[i].nodes.Keys, run[i].nodes[l].term);
  }

  /** ... and then have every node it reaches hold and apply it too. */
  lemma MajorityApplies(ids: set<NodeId>, run: seq<Cluster>, l: NodeId, peers: set<NodeId>) returns (run': seq<Cluster>)
    requires AllReachable(ids, run, l, peers) && 2 * (|peers| + 1) > |ids|
    ensures IsRun(ids, run') && run <= run' && l in Now(run').nodes
    ensures var log := Now(run).nodes[l].log;
            && Now(run').nodes[l].log == log && |log| <= Now(run').nodes[l].applied
            && forall p :: p in peers ==>
                 p in Now(run').nodes && log <= Now(run').nodes[p].log && |log| <= Now(run').nodes[p].applied
  {
    hide IsRun;
    var r1 := MajorityCommits(ids, run, l, peers);
    run' := BringsAllLevel(ids, r1, l, peers);
  }

  // ------------------------------------------------------------------ elections

  /** `n` is a candidate who has asked for votes and collected `votes`; the nodes of `todo` may still give theirs. */
  ghost predicate Canvassing(ids: set<NodeId>, run: seq<Cluster>, n: NodeId, votes: set<NodeId>, todo: set<NodeId>) {
    && IsRun(ids, run) && run != [] && n !in todo && n in Now(run).nodes && n in Now(run).campaigns
    && var c := Now(run);
       var s := c.nodes[n];
       && s.role.Candidate? && c.campaigns[n] == Campaign(s.term, votes) && VoteReq(n, VoteArgsOf(s)) in c.voteReqs
       && (forall v :: v in votes ==> v in c.nodes && c.nodes[v].term <= s.term)
       && forall v :: v in todo ==> v in c.nodes && c.nodes[v].term < s.term && !Ahead(c.nodes[v].log, VoteArgsOf(s))
  }

  /** One voter is asked, and its vote counted. */
  lemma OneVote(ids: set<NodeId>, run: seq<Cluster>, n: NodeId, votes: set<NodeId>, todo: set<NodeId>, v: NodeId)
    returns (run': seq<Cluster>)
    requires Canvassing(ids, run, n, votes, todo) && v in todo
    ensures Canvassing(ids, run', n, votes + {v}, todo - {v}) && run <= run'
    ensures Now(run').nodes[n] == Now(run).nodes[n] && Now(run').nodes.Keys == Now(run).nodes.Keys
  {
    hide IsRun, Next, Enabled;
    var c := Now(run);
    var s := c.nodes[n];
    var req := VoteReq(n, VoteArgsOf(s));
    var rep := VoteRep(req, v, VoteResult(s.term, true));
    RaftRuns.VoteStep(c, req, v);
    RequestsStay(c, HandleVote(req, v));
    var r1 := Go(ids, run, HandleVote(req, v));
    RaftRuns.CountStep(Now(r1), rep);
    RequestsStay(Now(r1), CountVote(rep));
    run' := Go(ids, r1, CountVote(rep));
  }

  lemma RequestsStay(c: Cluster, a: Action)
    requires Enabled(c, a)
    ensures c.voteReqs <= Next(c, a).voteReqs
  {
    hide OnAppendEntries, OnRequestVote, OnVoteResult, OnAppendResult, AdvanceCommit, NewReign, BuildAppend, BecomeLeader;
  }

  lemma {:induction false} Canvasses(ids: set<NodeId>, run: seq<Cluster>, n: NodeId, votes: set<NodeId>, todo: set<NodeId>)
    returns (run': seq<Cluster>)
    requires Canvassing(ids, run, n, votes, todo)
    ensures Canvassing(ids, run', n, votes + todo, {}) && run <= run'
    ensures Now(run').nodes[n] == Now(run).nodes[n] && Now(run').nodes.Keys == Now(run).nodes.Keys
    decreases |todo|
  {
    hide IsRun;
    run' := run;
    if todo == {} {
      assert votes + todo == votes;
    } else {
      var v :| v in todo;
      var r1 := OneVote(ids, run, n, votes, todo, v);
      run' := Canvasses(ids, r1, n, votes + {v}, todo - {v});
      assert votes + {v} + (todo - {v}) == votes + todo;
    }
  }

  /** `n` does not lead, and `voters` make it a majority; none has heard of a later term or has a log ahead of its own. */
  ghost predicate MayLead(ids: set<NodeId>, run: seq<Cluster>, n: NodeId, voters: set<NodeId>) {
    && IsRun(ids, run) && run != [] && n in Now(run).nodes && !Now(run).nodes[n].role.Leader?
    && voters <= ids - {n} && 2 * (|voters| + 1) > |ids|
    && var s := Now(run).nodes[n];
       forall v :: v in voters ==>
         && v in Now(run).nodes && Now(run).nodes[v].term <= s.term
         && !Ahead(Now(run).nodes[v].log, VoteArgs(s.term + 1, |s.log|, LastTerm(s.log)))
  }

  lemma Campaigns(ids: set<NodeId>, run: seq<Cluster>, n: NodeId, voters: set<NodeId>) returns (run': seq<Cluster>)
    requires MayLead(ids, run, n, voters)
    ensures Canvassing(ids, run', n, {n}, voters) && run <= run' && Now(run').nodes.Keys == ids
    ensures Now(run').nodes[n] == StartElection(Now(run).nodes[n], n)
  {
    hide IsRun, Next, Enabled, LastTerm, Ahead;
    RunBase(ids, run, |run| - 1);
    hide BaseInv;
    RaftRuns.CampaignStep(Now(run), n);
    run' := Go(ids, run, Campaigning(n));
  }

  /**
    From any state of any run, a node that reaches a majority of nodes of no later term, none of whose logs is ahead
    of its own, can be elected in its next term.
   */
  lemma MajorityElects(ids: set<NodeId>, run: seq<Cluster>, n: NodeId, voters: set<NodeId>) returns (run': seq<Cluster>)
    requires MayLead(ids, run, n, voters)
    ensures AllReachable(ids, run', n, voters) && run <= run'
    ensures var s, s' := Now(run).nodes[n], Now(run').nodes[n];
            && s'.role.Leader? && s'.term == s.term + 1 && s'.leader == n && s'.hasLeader
            && s'.log == s.log + [Entry(s'.term, true, NO_COMMAND)]
  {
    assert voters <= ids - {n} && 2 * (|voters| + 1) > |ids|;
    hide MayLead, IsRun, AllReachable, Canvassing;
    var r1 := Campaigns(ids, run, n, voters);
    var r2 := Canvasses(ids, r1, n, {n}, voters);
    run' := Wins(ids, r2, n, voters);
  }

  lemma Wins(ids: set<NodeId>, run: seq<Cluster>, n: NodeId, voters: set<NodeId>) returns (run': seq<Cluster>)
    requires Canvassing(ids, run, n, {n} + voters, {}) && Now(run).nodes.Keys == ids
    requires voters <= ids - {n} && 2 * (|voters| + 1) > |ids|
    ensures AllReachable(ids, run', n, voters) && run <= run'
    ensures var s, s' := Now(run).nodes[n], Now(run').nodes[n];
            && s'.role.Leader? && s'.term == s.term && s'.leader == n && s'.hasLeader
            && s'.log == s.log + [Entry(s'.term, true, NO_COMMAND)]
  {
    hide IsRun, Next, Enabled;
    var votes := {n} + voters;
    assert |votes| == 1 + |voters|;
    assert |Now(run).nodes| == |Now(run).nodes.Keys|;
    MajorityIsLeast(|ids|, |votes|);
    RaftRuns.WinStep(Now(run), n);
    run' := Go(ids, run, CloseElection(n));
    assert forall v :: v in voters ==> v in votes;
  }

  /** Entries up to `log` are held and applied. */
  predicate HasApplied(s: Node, log: seq<Entry>) { log <= s.log && |log| <= s.applied }

  /**
    From any state of any run: such a node can be elected, take a command, and have it applied, on top of its log, by
    every node it reaches.
   */
  lemma MajorityServes(ids: set<NodeId>, run: seq<Cluster>, n: NodeId, voters: set<NodeId>, command: Command)
    returns (run': seq<Cluster>)
    requires MayLead(ids, run, n, voters)
    ensures IsRun(ids, run') && run <= run'
    ensures var t := Now(run).nodes[n].term + 1;
            var log := Now(run).nodes[n].log + [Entry(t, true, NO_COMMAND), Entry(t, false, command)];
            forall p :: p == n || p in voters ==> p in Now(run').nodes && HasApplied(Now(run').nodes[p], log)
  {
    assert 2 * (|voters| + 1) > |ids|;
    var s := Now(run).nodes[n];
    hide IsRun, MayLead;
    var r1 := MajorityElects(ids, run, n, voters);
    var r2 := Go(ids, r1, Propose(n, command));
    assert s.log + [Entry(s.term + 1, true, NO_COMMAND)] + [Entry(s.term + 1, false, command)]
        == s.log + [Entry(s.term + 1, true, NO_COMMAND), Entry(s.term + 1, false, command)];
    run' := MajorityApplies(ids, r2, n, voters);
  }

  /** In particular from the start: whichever node begins, all nodes can apply the command. */
  lemma FreshClusterServes(ids: set<NodeId>, n: NodeId, command: Command) returns (run: seq<Cluster>)
    requires n in ids
    ensures IsRun(ids, run)
    ensures forall p :: p in ids ==>
              p in Now(run).nodes && HasApplied(Now(run).nodes[p], [Entry(1, true, NO_COMMAND), Entry(1, false, command)])
  {
    var start := [InitialCluster(ids)];
    assert IsRun(ids, start);
    assert Now(start).nodes.Keys == ids && |ids - {n}| == |ids| - 1;
    hide IsRun, InitialCluster;
    run := MajorityServes(ids, start, n, ids - {n}, command);
  }
}
