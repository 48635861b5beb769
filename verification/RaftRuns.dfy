/**
  Building blocks for concrete runs of the cluster: whole elections and whole replication
  calls, each given by its effect on the nodes.

  The cluster's steps allow more than the program does: any number of rounds at once, and any number
  of requests per round. The runs built here keep to what the program's threads do (`Orderly`), so that
  they are runs of the program as well.
 */
module RaftRuns {
  import opened RaftSpec
  import opened RaftCluster
  import opened RaftInvariant

  // ---------------------------------------------------- runs of the program

  /** A run together with the action taken in each of its states but the last. */
  datatype Trace = Trace(run: seq<Cluster>, acts: seq<Action>)

  function Last(tr: Trace): Cluster {
    if tr.run == [] then InitialCluster({}) else tr.run[|tr.run| - 1]
  }

  function Snapshot(c: Cluster, l: NodeId): Round
    requires l in c.nodes
  {
    Round(l, c.nodes[l].term, c.nodes[l].commit)
  }

  /** How many commands `l` has been given to propose. */
  function Proposals(acts: seq<Action>, l: NodeId): nat {
    if acts == [] then 0
    else
      var a := acts[|acts| - 1];
      Proposals(acts[..|acts| - 1], l) + if a.Propose? && a.l == l then 1 else 0
  }

  /** How many rounds `l` has begun. */
  function Begun(acts: seq<Action>, l: NodeId): nat {
    if acts == [] then 0
    else
      var a := acts[|acts| - 1];
      Begun(acts[..|acts| - 1], l) + if a.OpenRound? && a.l == l then 1 else 0
  }

  predicate Opens(c: Cluster, a: Action, round: Round) {
    a.OpenRound? && a.l in c.nodes && Snapshot(c, a.l) == round
  }

  /** How many rounds have begun with the snapshot `round`. */
  function Opened(run: seq<Cluster>, acts: seq<Action>, round: Round): nat
    requires |acts| <= |run|
  {
    if acts == [] then 0
    else
      var k := |acts| - 1;
      Opened(run, acts[..k], round) + if Opens(run[k], acts[k], round) then 1 else 0
  }

  /** How many requests to `p` the rounds with that snapshot have built. */
  function Built(acts: seq<Action>, round: Round, p: NodeId): nat {
    if acts == [] then 0
    else
      var a := acts[|acts| - 1];
      Built(acts[..|acts| - 1], round, p) + if a.Build? && a.round == round && a.peer == p then 1 else 0
  }

  /** How many of them have come to their end. */
  function Ended(acts: seq<Action>, round: Round): nat {
    if acts == [] then 0
    else
      var a := acts[|acts| - 1];
      Ended(acts[..|acts| - 1], round) + if a.CloseRound? && a.round == round then 1 else 0
  }

  /**
    What the program's threads allow next. `replicate_to_all_peers` is called by the tick thread (one round is
    all these runs need of it) and once by every `propose`, after the command has been appended. A round builds
    one request per peer, and ends when every peer's request has been dealt with.
   */
  ghost predicate Orderly(tr: Trace, a: Action)
    requires |tr.acts| <= |tr.run|
  {
    match a
    case OpenRound(l) => Begun(tr.acts, l) <= Proposals(tr.acts, l)
    case Build(round, p, _) => Built(tr.acts, round, p) < Opened(tr.run, tr.acts, round)
    case CloseRound(round) =>
      forall p :: p in Peers(Last(tr), round.leader) ==>
        Ended(tr.acts, round) + |Outstanding(Last(tr), round.leader, p)| < Built(tr.acts, round, p)
    case _ => true
  }

  /** The first `i` steps. */
  function Upto(tr: Trace, i: nat): Trace
    requires i < |tr.run| && i <= |tr.acts|
  {
    Trace(tr.run[..i + 1], tr.acts[..i])
  }

  ghost predicate StepOk(tr: Trace, i: nat)
    requires |tr.run| == |tr.acts| + 1 && i < |tr.acts|
  {
    Enabled(tr.run[i], tr.acts[i]) && tr.run[i + 1] == Next(tr.run[i], tr.acts[i]) && Orderly(Upto(tr, i), tr.acts[i])
  }

  /** A run of the program in which no pair has more than `limit` calls open. */
  ghost predicate IsTrace(ids: set<NodeId>, tr: Trace, limit: nat) {
    && IsRunWithin(ids, tr.run, limit) && |tr.run| == |tr.acts| + 1
    && forall i :: 0 <= i < |tr.acts| ==> StepOk(tr, i)
  }

  lemma TraceRun(ids: set<NodeId>, tr: Trace, limit: nat)
    requires IsTrace(ids, tr, limit)
    ensures IsRunWithin(ids, tr.run, limit) && |tr.run| == |tr.acts| + 1
  {
  }

  /** What happened between `tr` and `tr'`: proposals at `l`, rounds begun with snapshot `round`, and so on. */
  ghost predicate Books(tr: Trace, tr': Trace, proposals: nat, round: Round, begun: nat, p: NodeId, built: nat, ended: nat)
    requires |tr.acts| <= |tr.run| && |tr'.acts| <= |tr'.run|
  {
    && (forall l :: Proposals(tr'.acts, l) == Proposals(tr.acts, l) + if l == round.leader then proposals else 0)
    && (forall l :: Begun(tr'.acts, l) == Begun(tr.acts, l) + if l == round.leader then begun else 0)
    && (forall r :: Opened(tr'.run, tr'.acts, r) == Opened(tr.run, tr.acts, r) + if r == round then begun else 0)
    && (forall r, q :: Built(tr'.acts, r, q) == Built(tr.acts, r, q) + if r == round && q == p then built else 0)
    && (forall r :: Ended(tr'.acts, r) == Ended(tr.acts, r) + if r == round then ended else 0)
  }

  /** Node `l` has not begun a round or been given a command yet. */
  ghost predicate Unused(tr: Trace, l: NodeId)
    requires |tr.acts| <= |tr.run|
  {
    && Begun(tr.acts, l) == 0
    && (forall r: Round :: r.leader == l ==> Opened(tr.run, tr.acts, r) == 0 && Ended(tr.acts, r) == 0)
    && (forall r: Round, q :: r.leader == l ==> Built(tr.acts, r, q) == 0)
  }

  lemma FewOpen(c: Cluster, limit: nat)
    requires |c.open.Keys| <= limit
    ensures OutstandingAtMost(c, limit)
  {
    forall l, p ensures |Outstanding(c, l, p)| <= limit {
      SubsetSize(Outstanding(c, l, p), c.open.Keys);
    }
  }

  lemma Start(ids: set<NodeId>, limit: nat) returns (tr: Trace)
    ensures IsTrace(ids, tr, limit) && tr == Trace([InitialCluster(ids)], [])
  {
    tr := Trace([InitialCluster(ids)], []);
    FewOpen(tr.run[0], limit);
  }

  lemma {:induction false} OpenedInRun(run: seq<Cluster>, run': seq<Cluster>, acts: seq<Action>, round: Round)
    requires |acts| <= |run| && run <= run'
    ensures Opened(run', acts, round) == Opened(run, acts, round)
    decreases |acts|
  {
    if acts != [] { OpenedInRun(run, run', acts[..|acts| - 1], round); }
  }

  /** The books after one more action. */
  lemma BooksOfStep(tr: Trace, tr': Trace, a: Action, round: Round, p: NodeId)
    requires |tr.run| == |tr.acts| + 1 && tr'.acts == tr.acts + [a] && tr.run <= tr'.run
    requires a.Propose? ==> a.l == round.leader
    requires a.OpenRound? ==> a.l in Last(tr).nodes && Snapshot(Last(tr), a.l) == round
    requires a.Build? ==> a.round == round && a.peer == p
    requires a.CloseRound? ==> a.round == round
    ensures Books(tr, tr', if a.Propose? then 1 else 0, round, if a.OpenRound? then 1 else 0,
                  p, if a.Build? then 1 else 0, if a.CloseRound? then 1 else 0)
  {
    assert tr'.acts[..|tr.acts|] == tr.acts;
    forall r ensures Opened(tr'.run, tr.acts, r) == Opened(tr.run, tr.acts, r) {
      OpenedInRun(tr.run, tr'.run, tr.acts, r);
    }
  }

  /** One more step. */
  lemma Take(ids: set<NodeId>, tr: Trace, a: Action, limit: nat) returns (tr': Trace)
    requires IsTrace(ids, tr, limit) && Enabled(Last(tr), a) && Orderly(tr, a)
    requires |Next(Last(tr), a).open.Keys| <= limit
    ensures IsTrace(ids, tr', limit) && tr.run <= tr'.run && |tr'.run| == |tr'.acts| + 1
    ensures tr'.acts == tr.acts + [a] && Last(tr') == Next(Last(tr), a)
  {
    hide Next, Enabled, OutstandingAtMost, Orderly;
    var c' := Next(Last(tr), a);
    FewOpen(c', limit);
    tr' := Trace(tr.run + [c'], tr.acts + [a]);
    assert StepTo(Last(tr), c');
    forall i | 0 < i < |tr'.run| ensures StepTo(tr'.run[i - 1], tr'.run[i]) {
      if i < |tr.run| { assert StepTo(tr.run[i - 1], tr.run[i]); }
    }
    forall i | 0 <= i < |tr'.acts| ensures StepOk(tr', i) {
      if i < |tr.acts| {
        assert StepOk(tr, i);
        assert Upto(tr', i) == Upto(tr, i);
      } else {
        assert Upto(tr', i) == tr;
      }
    }
  }

  /** What voter `v` becomes when it votes for `n` in a term it had not reached. */
  function Voted(s: Node, n: NodeId, t: nat): Node {
    s.(term := t, role := Follower, hasVoted := true, votedFor := n)
  }

  predicate UpToDate(candidate: seq<Entry>, voter: seq<Entry>) {
    LastTerm(candidate) > LastTerm(voter)
    || (LastTerm(candidate) == LastTerm(voter) && |candidate| >= |voter|)
  }

  /** The four steps of an election won with one vote, each as its effect on the cluster. */
  lemma CampaignStep(c: Cluster, n: NodeId)
    requires n in c.nodes && !c.nodes[n].role.Leader?
    ensures var s := StartElection(c.nodes[n], n);
            var c' := Next(c, Campaigning(n));
            && Enabled(c, Campaigning(n)) && c'.open == c.open
            && c'.nodes == c.nodes[n := s] && c'.nodes.Keys == c.nodes.Keys
            && n in c'.campaigns && c'.campaigns[n] == Campaign(s.term, {n})
            && VoteReq(n, VoteArgsOf(s)) in c'.voteReqs
  {
  }

  lemma VoteStep(c: Cluster, req: VoteReq, v: NodeId)
    requires req in c.voteReqs && v in c.nodes && v != req.candidate && c.nodes[v].term < req.args.term
    requires var log := c.nodes[v].log;
             req.args.lastTerm > LastTerm(log) || (req.args.lastTerm == LastTerm(log) && req.args.lastIndex >= |log|)
    ensures var c' := Next(c, HandleVote(req, v));
            && Enabled(c, HandleVote(req, v)) && c'.open == c.open && c'.campaigns == c.campaigns
            && c'.nodes == c.nodes[v := Voted(c.nodes[v], req.candidate, req.args.term)] && c'.nodes.Keys == c.nodes.Keys
            && VoteRep(req, v, VoteResult(req.args.term, true)) in c'.voteReps
  {
  }

  lemma CountStep(c: Cluster, rep: VoteRep)
    requires var n := rep.req.candidate;
             && rep in c.voteReps && n in c.nodes && n in c.campaigns
             && rep.result == VoteResult(rep.req.args.term, true)
             && rep.req.args.term == c.nodes[n].term == c.campaigns[n].term
    ensures var n := rep.req.candidate;
            var c' := Next(c, CountVote(rep));
            && Enabled(c, CountVote(rep)) && c'.open == c.open && c'.nodes == c.nodes
            && n in c'.campaigns && c'.campaigns[n] == Campaign(c.campaigns[n].term, c.campaigns[n].votes + {rep.voter})
  {
  }

  lemma WinStep(c: Cluster, n: NodeId)
    requires n in c.nodes && n in c.campaigns && WinsElection(c.nodes[n], c.campaigns[n].term, |c.campaigns[n].votes|, |c.nodes|)
    ensures var c' := Next(c, CloseElection(n));
            && Enabled(c, CloseElection(n)) && c'.open == c.open
            && c'.nodes == c.nodes[n := BecomeLeader(c.nodes[n], n, c.nodes.Keys - {n})] && c'.nodes.Keys == c.nodes.Keys
  {
  }

  /** Candidate `n` of a three-node cluster wins its next term with the vote of `v`. */
  lemma Elect(ids: set<NodeId>, tr: Trace, n: NodeId, v: NodeId, limit: nat) returns (tr': Trace)
    requires IsTrace(ids, tr, limit) && Last(tr).open == map[]
    requires var c := Last(tr);
             && n in c.nodes && v in c.nodes && n != v && |c.nodes| == 3 && !c.nodes[n].role.Leader?
             && c.nodes[v].term <= c.nodes[n].term && UpToDate(c.nodes[n].log, c.nodes[v].log)
    ensures IsTrace(ids, tr', limit) && tr.run <= tr'.run && |tr'.acts| <= |tr'.run|
    ensures forall round, p :: Books(tr, tr', 0, round, 0, p, 0, 0)
    ensures var c, c' := Last(tr), Last(tr');
            var s := StartElection(c.nodes[n], n);
            && c'.open == map[] && c'.nodes.Keys == c.nodes.Keys
            && c'.nodes == c.nodes[v := Voted(c.nodes[v], n, s.term)][n := BecomeLeader(s, n, c.nodes.Keys - {n})]
  {
    hide IsTrace, Next, Enabled, BecomeLeader, Last, LastTerm, Books;
    TraceRun(ids, tr, limit);
    var c := Last(tr);
    var s := StartElection(c.nodes[n], n);
    var req := VoteReq(n, VoteArgsOf(s));
    CampaignStep(c, n);
    var r1 := Take(ids, tr, Campaigning(n), limit);
    VoteStep(Last(r1), req, v);
    var r2 := Take(ids, r1, HandleVote(req, v), limit);
    CountStep(Last(r2), VoteRep(req, v, VoteResult(s.term, true)));
    var r3 := Take(ids, r2, CountVote(VoteRep(req, v, VoteResult(s.term, true))), limit);
    assert |{n} + {v}| == 2;
    assert |Last(r3).nodes| == |Last(r3).nodes.Keys| == |c.nodes.Keys| == |c.nodes|;
    WinStep(Last(r3), n);
    tr' := Take(ids, r3, CloseElection(n), limit);
    BooksUntouched(tr, r1, Campaigning(n));
    BooksUntouched(r1, r2, HandleVote(req, v));
    BooksUntouched(r2, r3, CountVote(VoteRep(req, v, VoteResult(s.term, true))));
    BooksUntouched(r3, tr', CloseElection(n));
    BooksChain(tr, r1, r2);
    BooksChain(tr, r2, r3);
    BooksChain(tr, r3, tr');
  }

  /** An action that no book records. */
  lemma BooksUntouched(tr: Trace, tr': Trace, a: Action)
    requires |tr.run| == |tr.acts| + 1 && tr'.acts == tr.acts + [a] && tr.run <= tr'.run && |tr'.acts| <= |tr'.run|
    requires !a.Propose? && !a.OpenRound? && !a.Build? && !a.CloseRound?
    ensures forall round, p :: Books(tr, tr', 0, round, 0, p, 0, 0)
  {
    hide Books;
    forall round, p ensures Books(tr, tr', 0, round, 0, p, 0, 0) { BooksOfStep(tr, tr', a, round, p); }
  }

  lemma BooksChain(tr: Trace, tr1: Trace, tr2: Trace)
    requires |tr.acts| <= |tr.run| && |tr1.acts| <= |tr1.run| && |tr2.acts| <= |tr2.run|
    requires forall round, p :: Books(tr, tr1, 0, round, 0, p, 0, 0)
    requires forall round, p :: Books(tr1, tr2, 0, round, 0, p, 0, 0)
    ensures forall round, p :: Books(tr, tr2, 0, round, 0, p, 0, 0)
  {
    hide Books;
    forall round, p ensures Books(tr, tr2, 0, round, 0, p, 0, 0) {
      BooksAdd(tr, tr1, tr2, 0, round, 0, p, 0, 0, 0, 0, 0, 0);
    }
  }

  lemma BooksAdd(tr: Trace, tr1: Trace, tr2: Trace, k: nat, round: Round, o: nat, p: NodeId, b: nat, e: nat,
                 k': nat, o': nat, b': nat, e': nat)
    requires |tr.acts| <= |tr.run| && |tr1.acts| <= |tr1.run| && |tr2.acts| <= |tr2.run|
    requires Books(tr, tr1, k, round, o, p, b, e) && Books(tr1, tr2, k', round, o', p, b', e')
    ensures Books(tr, tr2, k + k', round, o + o', p, b + b', e + e')
  {
  }

  /** `k` proposals of one command at the leader `l`. */
  function Proposed(s: Node, command: Command, k: nat): Node {
    s.(log := s.log + seq(k, _ => Entry(s.term, false, command)))
  }

  lemma {:induction false} ProposeMany(ids: set<NodeId>, tr: Trace, l: NodeId, command: Command, k: nat, limit: nat)
    returns (tr': Trace)
    requires IsTrace(ids, tr, limit) && Last(tr).open == map[]
    requires l in Last(tr).nodes && Last(tr).nodes[l].role.Leader?
    ensures IsTrace(ids, tr', limit) && tr.run <= tr'.run && |tr'.acts| <= |tr'.run|
    ensures forall round: Round, p :: round.leader == l ==> Books(tr, tr', k, round, 0, p, 0, 0)
    ensures Last(tr').open == map[]
    ensures Last(tr').nodes == Last(tr).nodes[l := Proposed(Last(tr).nodes[l], command, k)]
    decreases k
  {
    hide IsTrace, Books;
    TraceRun(ids, tr, limit);
    if k == 0 {
      tr' := tr;
      assert Proposed(Last(tr).nodes[l], command, 0) == Last(tr).nodes[l];
      assert Last(tr).nodes == Last(tr).nodes[l := Last(tr).nodes[l]];
      forall round, p ensures Books(tr, tr, 0, round, 0, p, 0, 0) { BooksSame(tr, round, p); }
    } else {
      var r := ProposeMany(ids, tr, l, command, k - 1, limit);
      TraceRun(ids, r, limit);
      tr' := Take(ids, r, Propose(l, command), limit);
      var s := Last(tr).nodes[l];
      assert Proposed(s, command, k).log == Proposed(s, command, k - 1).log + [Entry(s.term, false, command)];
      forall round: Round, p | round.leader == l ensures Books(tr, tr', k, round, 0, p, 0, 0) {
        BooksOfStep(r, tr', Propose(l, command), round, p);
        BooksAdd(tr, r, tr', k - 1, round, 0, p, 0, 0, 1, 0, 0, 0);
      }
    }
  }

  lemma BooksSame(tr: Trace, round: Round, p: NodeId)
    requires |tr.acts| <= |tr.run|
    ensures Books(tr, tr, 0, round, 0, p, 0, 0)
  {
  }

  lemma RoundStep(c: Cluster, l: NodeId)
    requires l in c.nodes && c.nodes[l].role.Leader?
    ensures var c' := Next(c, OpenRound(l));
            && Enabled(c, OpenRound(l)) && c' == c.(rounds := c'.rounds)
            && Round(l, c.nodes[l].term, c.nodes[l].commit) in c'.rounds
  {
  }

  lemma BuildStep(c: Cluster, round: Round, p: NodeId, call: nat)
    requires round in c.rounds && round.leader in c.nodes && p in c.nodes && p != round.leader && call !in c.open
    requires var s := c.nodes[round.leader]; s.role.Leader? && s.term == round.term && p in s.next && s.next[p] > 0
    ensures var req := AppendReq(round.leader, p, BuildAppend(c.nodes[round.leader], p, round.commit));
            var c' := Next(c, Build(round, p, call));
            && Enabled(c, Build(round, p, call)) && c'.open == c.open[call := req]
            && c'.nodes == c.nodes && c'.rounds == c.rounds && req in c'.sent
  {
  }

  lemma AppendStep(c: Cluster, req: AppendReq)
    requires req in c.sent && req.peer in c.nodes
    ensures var (s, result) := OnAppendEntries(c.nodes[req.peer], req.leader, req.args);
            var c' := Next(c, HandleAppend(req));
            && Enabled(c, HandleAppend(req)) && c'.open == c.open && c'.rounds == c.rounds && c'.sent == c.sent
            && c'.nodes == c.nodes[req.peer := s] && AppendRep(req, result) in c'.answers
  {
  }

  lemma CloseStep(c: Cluster, call: nat, rep: AppendRep)
    requires call in c.open && rep in c.answers && rep.req == c.open[call]
    requires rep.req.leader in c.nodes && rep.req.peer in c.nodes[rep.req.leader].next
    ensures var l := rep.req.leader;
            var c' := Next(c, CloseCall(call, rep));
            && Enabled(c, CloseCall(call, rep)) && c'.open == c.open - {call} && c'.rounds == c.rounds && c'.sent == c.sent
            && c'.nodes == c.nodes[l := OnAppendResult(c.nodes[l], rep.req.peer, rep.req.args, rep.result)]
  {
  }

  lemma LoseStep(c: Cluster, call: nat)
    requires call in c.open
    ensures Enabled(c, LoseCall(call)) && Next(c, LoseCall(call)) == c.(open := c.open - {call})
  {
  }

  /** What a round may do next, in terms of the books. */
  lemma MayOpen(tr: Trace, l: NodeId)
    requires |tr.acts| <= |tr.run| && Begun(tr.acts, l) <= Proposals(tr.acts, l)
    ensures Orderly(tr, OpenRound(l))
  {
  }

  lemma MayBuild(tr: Trace, round: Round, p: NodeId, call: nat)
    requires |tr.acts| <= |tr.run| && Built(tr.acts, round, p) < Opened(tr.run, tr.acts, round)
    ensures Orderly(tr, Build(round, p, call))
  {
  }

  /** A round begins, and its request to `p` is built as call `call`. */
  lemma OpenAndBuild(ids: set<NodeId>, tr: Trace, l: NodeId, p: NodeId, call: nat, limit: nat) returns (tr': Trace)
    requires IsTrace(ids, tr, limit) && call !in Last(tr).open && |Last(tr).open.Keys + {call}| <= limit
    requires var c := Last(tr);
             && l in c.nodes && p in c.nodes && l != p && c.nodes[l].role.Leader?
             && p in c.nodes[l].next && c.nodes[l].next[p] > 0
    requires |tr.acts| <= |tr.run|
    requires Begun(tr.acts, l) <= Proposals(tr.acts, l)
    requires Built(tr.acts, Snapshot(Last(tr), l), p) <= Opened(tr.run, tr.acts, Snapshot(Last(tr), l))
    ensures IsTrace(ids, tr', limit) && tr.run <= tr'.run && |tr'.acts| <= |tr'.run|
    ensures Books(tr, tr', 0, Snapshot(Last(tr), l), 1, p, 1, 0)
    ensures var c, c', round := Last(tr), Last(tr'), Snapshot(Last(tr), l);
            var req := AppendReq(l, p, BuildAppend(c.nodes[l], p, round.commit));
            c'.nodes == c.nodes && c'.open == c.open[call := req] && round in c'.rounds && req in c'.sent
  {
    hide IsTrace, Next, Enabled, Last, BuildAppend, Books, Orderly;
    TraceRun(ids, tr, limit);
    var c := Last(tr);
    var round := Snapshot(c, l);
    RoundStep(c, l);
    MayOpen(tr, l);
    SubsetSize(c.open.Keys, c.open.Keys + {call});
    var r1 := Take(ids, tr, OpenRound(l), limit);
    BooksOfStep(tr, r1, OpenRound(l), round, p);
    BooksFact(tr, r1, 0, round, 1, p, 0, 0);
    BuildStep(Last(r1), round, p, call);
    MayBuild(r1, round, p, call);
    tr' := Take(ids, r1, Build(round, p, call), limit);
    BooksOfStep(r1, tr', Build(round, p, call), round, p);
    BooksAdd(tr, r1, tr', 0, round, 1, p, 0, 0, 0, 0, 1, 0);
  }

  /** What the books say about one round and one peer. */
  lemma BooksFact(tr: Trace, tr': Trace, k: nat, round: Round, o: nat, p: NodeId, b: nat, e: nat)
    requires |tr.acts| <= |tr.run| && |tr'.acts| <= |tr'.run| && Books(tr, tr', k, round, o, p, b, e)
    ensures Proposals(tr'.acts, round.leader) == Proposals(tr.acts, round.leader) + k
    ensures Begun(tr'.acts, round.leader) == Begun(tr.acts, round.leader) + o
    ensures Opened(tr'.run, tr'.acts, round) == Opened(tr.run, tr.acts, round) + o
    ensures Built(tr'.acts, round, p) == Built(tr.acts, round, p) + b
    ensures Ended(tr'.acts, round) == Ended(tr.acts, round) + e
    ensures forall q :: q != p ==> Built(tr'.acts, round, q) == Built(tr.acts, round, q)
    ensures forall l :: l != round.leader && Unused(tr, l) ==> Unused(tr', l)
    ensures forall r :: r != round ==> Opened(tr'.run, tr'.acts, r) == Opened(tr.run, tr.acts, r)
    ensures forall r, q :: r != round ==> Built(tr'.acts, r, q) == Built(tr.acts, r, q)
  {
  }

  /** One whole replication call from leader `l` to `p`, answered and handled; its round is left open. */
  lemma Replicate(ids: set<NodeId>, tr: Trace, l: NodeId, p: NodeId, limit: nat) returns (tr': Trace)
    requires IsTrace(ids, tr, limit) && limit > 0 && Last(tr).open == map[] && |tr.acts| <= |tr.run|
    requires var c := Last(tr);
             && l in c.nodes && p in c.nodes && l != p && c.nodes[l].role.Leader?
             && p in c.nodes[l].next && c.nodes[l].next[p] > 0
    requires Begun(tr.acts, l) <= Proposals(tr.acts, l)
    requires Built(tr.acts, Snapshot(Last(tr), l), p) <= Opened(tr.run, tr.acts, Snapshot(Last(tr), l))
    ensures IsTrace(ids, tr', limit) && tr.run <= tr'.run && |tr'.acts| <= |tr'.run|
    ensures Books(tr, tr', 0, Snapshot(Last(tr), l), 1, p, 1, 0)
    ensures var c, c' := Last(tr), Last(tr');
            var args := BuildAppend(c.nodes[l], p, c.nodes[l].commit);
            var (s, result) := OnAppendEntries(c.nodes[p], l, args);
            && c'.open == map[]
            && c'.nodes == c.nodes[p := s][l := OnAppendResult(c.nodes[l], p, args, result)]
            && Snapshot(c, l) in c'.rounds
  {
    hide IsTrace, Next, Enabled, Last, OnAppendEntries, OnAppendResult, BuildAppend, Books;
    var c := Last(tr);
    var round := Snapshot(c, l);
    var req := AppendReq(l, p, BuildAppend(c.nodes[l], p, c.nodes[l].commit));
    var rep := AppendRep(req, OnAppendEntries(c.nodes[p], l, req.args).1);
    assert c.open.Keys + {0} == {0};
    var r2 := OpenAndBuild(ids, tr, l, p, 0, limit);
    TraceRun(ids, r2, limit);
    AppendStep(Last(r2), req);
    var r3 := Take(ids, r2, HandleAppend(req), limit);
    CloseStep(Last(r3), 0, rep);
    tr' := Take(ids, r3, CloseCall(0, rep), limit);
    BooksOfStep(r2, r3, HandleAppend(req), round, p);
    BooksOfStep(r3, tr', CloseCall(0, rep), round, p);
    BooksAdd(tr, r2, r3, 0, round, 1, p, 1, 0, 0, 0, 0, 0);
    BooksAdd(tr, r3, tr', 0, round, 1, p, 1, 0, 0, 0, 0, 0);
  }

  /** A round's request to `p` is built, but the link fails. */
  lemma Unheard(ids: set<NodeId>, tr: Trace, round: Round, p: NodeId, limit: nat) returns (tr': Trace)
    requires IsTrace(ids, tr, limit) && limit > 0 && Last(tr).open == map[] && |tr.acts| <= |tr.run|
    requires var c, l := Last(tr), round.leader;
             && round in c.rounds && l in c.nodes && p in c.nodes && l != p && c.nodes[l].role.Leader?
             && c.nodes[l].term == round.term && p in c.nodes[l].next && c.nodes[l].next[p] > 0
    requires Built(tr.acts, round, p) < Opened(tr.run, tr.acts, round)
    ensures IsTrace(ids, tr', limit) && tr.run <= tr'.run && |tr'.acts| <= |tr'.run|
    ensures Books(tr, tr', 0, round, 0, p, 1, 0)
    ensures Last(tr').open == map[] && Last(tr').nodes == Last(tr).nodes && Last(tr').rounds == Last(tr).rounds
  {
    hide IsTrace, Next, Enabled, Last, BuildAppend, Books, Orderly;
    TraceRun(ids, tr, limit);
    BuildStep(Last(tr), round, p, 0);
    MayBuild(tr, round, p, 0);
    assert (Last(tr).open.Keys + {0}) == {0};
    var r1 := Take(ids, tr, Build(round, p, 0), limit);
    LoseStep(Last(r1), 0);
    assert Orderly(r1, LoseCall(0)) by { FreeToLose(r1); }
    tr' := Take(ids, r1, LoseCall(0), limit);
    BooksOfStep(tr, r1, Build(round, p, 0), round, p);
    BooksOfStep(r1, tr', LoseCall(0), round, p);
    BooksAdd(tr, r1, tr', 0, round, 0, p, 1, 0, 0, 0, 0, 0);
  }

  lemma FreeToLose(tr: Trace)
    requires |tr.acts| <= |tr.run|
    ensures Orderly(tr, LoseCall(0))
  {
  }

  lemma {:induction false} MergeAtEnd(log: seq<Entry>, entries: seq<Entry>)
    ensures Merge(log, |log|, entries) == log + entries
    decreases |entries|
  {
    if entries == [] {
      assert log + entries == log;
    } else {
      MergeAtEnd(log + [entries[0]], entries[1..]);
      assert log + [entries[0]] + entries[1..] == log + entries;
    }
  }

  /** A peer one message behind its leader, when nothing is committed yet. */
  ghost predicate OneBehind(s: Node, r: Node, p: NodeId) {
    && s.role.Leader? && p in s.next && r.term <= s.term && r.log <= s.log && |s.log| <= |r.log| + MAX_ENTRIES
    && s.next[p] == |r.log| + 1 && s.commit == 0
  }

  lemma CatchesUp(s: Node, l: NodeId, r: Node, p: NodeId)
    requires OneBehind(s, r, p)
    ensures var args := BuildAppend(s, p, s.commit);
            var (r', result) := OnAppendEntries(r, l, args);
            && r' == Follow(r, l, s.term).(log := s.log)
            && OnAppendResult(s, p, args, result)
               == s.(next := s.next[p := |s.log| + 1], matched := s.matched[p := |s.log|])
  {
    hide OnAppendEntries, Follow;
    var args := BuildAppend(s, p, s.commit);
    AcceptedAtEnd(r, l, args);
    assert r.log + args.entries == s.log;
  }

  lemma AcceptedAtEnd(r: Node, l: NodeId, args: AppendArgs)
    requires r.term <= args.term && args.prevIndex == |r.log| && args.commit == 0
    requires r.log != [] ==> LastTerm(r.log) == args.prevTerm
    ensures OnAppendEntries(r, l, args)
            == (Follow(r, l, args.term).(log := r.log + args.entries),
                AppendResult(args.term, true, |r.log| + |args.entries|))
  {
    hide Merge, RulesOf, Apply;
    MergeAtEnd(r.log, args.entries);
  }

  /** Such a peer is brought level with one call. */
  lemma Sync(ids: set<NodeId>, tr: Trace, l: NodeId, p: NodeId, limit: nat) returns (tr': Trace)
    requires IsTrace(ids, tr, limit) && limit > 0 && Last(tr).open == map[] && |tr.acts| <= |tr.run|
    requires var c := Last(tr); l in c.nodes && p in c.nodes && l != p && OneBehind(c.nodes[l], c.nodes[p], p)
    requires Begun(tr.acts, l) <= Proposals(tr.acts, l)
    requires Built(tr.acts, Snapshot(Last(tr), l), p) <= Opened(tr.run, tr.acts, Snapshot(Last(tr), l))
    ensures IsTrace(ids, tr', limit) && tr.run <= tr'.run && |tr'.acts| <= |tr'.run|
    ensures Books(tr, tr', 0, Snapshot(Last(tr), l), 1, p, 1, 0)
    ensures var c, c' := Last(tr), Last(tr');
            var s := c.nodes[l];
            && c'.open == map[] && c'.nodes.Keys == c.nodes.Keys
            && c'.nodes == c.nodes[p := Follow(c.nodes[p], l, s.term).(log := s.log)]
                                  [l := s.(next := s.next[p := |s.log| + 1], matched := s.matched[p := |s.log|])]
            && Round(l, s.term, 0) in c'.rounds
  {
    hide IsTrace, Last, OnAppendEntries, OnAppendResult, BuildAppend, Follow, Books;
    tr' := Replicate(ids, tr, l, p, limit);
    CatchesUp(Last(tr).nodes[l], l, Last(tr).nodes[p], p);
  }

  /** A round whose requests have all been dealt with ends. */
  lemma Commit(ids: set<NodeId>, tr: Trace, round: Round, limit: nat) returns (tr': Trace)
    requires IsTrace(ids, tr, limit) && Last(tr).open == map[] && Enabled(Last(tr), CloseRound(round)) && |tr.acts| <= |tr.run|
    requires forall p :: p in Peers(Last(tr), round.leader) ==> Ended(tr.acts, round) < Built(tr.acts, round, p)
    ensures IsTrace(ids, tr', limit) && tr.run <= tr'.run && Last(tr').open == map[] && |tr'.acts| <= |tr'.run|
    ensures forall p :: Books(tr, tr', 0, round, 0, p, 0, 1)
    ensures var c, l := Last(tr), round.leader;
            Last(tr').nodes == c.nodes[l := AdvanceCommit(c.nodes[l], c.nodes.Keys - {l})]
  {
    hide IsTrace, AdvanceCommit, Books;
    TraceRun(ids, tr, limit);
    assert forall p :: Outstanding(Last(tr), round.leader, p) == {};
    tr' := Take(ids, tr, CloseRound(round), limit);
    forall p ensures Books(tr, tr', 0, round, 0, p, 0, 1) { BooksOfStep(tr, tr', CloseRound(round), round, p); }
  }
}
