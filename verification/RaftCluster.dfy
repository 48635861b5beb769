/**
  The whole cluster as a transition system over the critical sections of `RaftSpec`.

  The network is arbitrary: a request or reply that was once sent stays in its set,
  so it can be delivered late, in any order, more than once or never. Timers are
  arbitrary: an election may start at any moment on any node that does not lead.
  Nodes never lose state (the log lives in memory only, so a restart is a new cluster).

  `open` holds the `replicate_to_peer` calls that have built their request and not yet
  dealt with its outcome; one pair may have many, because `propose` and the tick thread
  run rounds concurrently. `reigns`, `ballots` and `rejects` are history: no step reads them to
  decide what a node does.
 */
module RaftCluster {
  import opened RaftSpec

  /** The votes one run of `start_election` has counted, its own included. */
  datatype Campaign = Campaign(term: nat, votes: set<NodeId>)

  datatype VoteReq = VoteReq(candidate: NodeId, args: VoteArgs)
  datatype VoteRep = VoteRep(req: VoteReq, voter: NodeId, result: VoteResult)

  /** The snapshot taken at the start of `replicate_to_all_peers`. */
  datatype Round = Round(leader: NodeId, term: nat, commit: nat)

  datatype AppendReq = AppendReq(leader: NodeId, peer: NodeId, args: AppendArgs)
  datatype AppendRep = AppendRep(req: AppendReq, result: AppendResult)

  /** History: `voter` gave its vote of `term` to `candidate`. */
  datatype Ballot = Ballot(voter: NodeId, term: nat, candidate: NodeId)

  /**
    History of one term's leader: its log (which outlives its leadership here), how long
    the log was when it was elected, who elected it and how much of the log each node has
    acknowledged.
   */
  datatype Reign = Reign(id: NodeId, base: nat, log: seq<Entry>, voters: set<NodeId>, acked: map<NodeId, nat>)

  /** History: for a term and a peer, the lowest previous-entry index the term's leader saw that peer reject. */
  type Rejects = map<(nat, NodeId), nat>

  datatype Cluster = Cluster(
    nodes: map<NodeId, Node>,
    campaigns: map<NodeId, Campaign>,
    voteReqs: set<VoteReq>, voteReps: set<VoteRep>,
    rounds: set<Round>,
    sent: set<AppendReq>, answers: set<AppendRep>, open: map<nat, AppendReq>,
    reigns: map<nat, Reign>, ballots: set<Ballot>, rejects: Rejects)

  datatype Action =
    | Campaigning(c: NodeId)
    | HandleVote(voteReq: VoteReq, voter: NodeId)
    | CountVote(voteRep: VoteRep)
    | CloseElection(c: NodeId)
    | Propose(l: NodeId, command: Command)
    | OpenRound(l: NodeId)
    | Build(round: Round, peer: NodeId, call: nat)
    | HandleAppend(appendReq: AppendReq)
    | CloseCall(call: nat, appendRep: AppendRep)
    | LoseCall(call: nat)
    | CloseRound(round: Round)

  function Peers(c: Cluster, id: NodeId): set<NodeId> { c.nodes.Keys - {id} }

  function InitialCluster(ids: set<NodeId>): Cluster {
    Cluster(map i | i in ids :: FRESH_NODE, map[], {}, {}, {}, {}, {}, map[], map[], {}, map[])
  }

  predicate Enabled(c: Cluster, a: Action) {
    match a
    case Campaigning(n) => n in c.nodes && !c.nodes[n].role.Leader?
    case HandleVote(req, voter) => req in c.voteReqs && voter in Peers(c, req.candidate)
    case CountVote(rep) =>
      var n := rep.req.candidate;
      rep in c.voteReps && n in c.nodes && n in c.campaigns && c.campaigns[n].term == rep.req.args.term
    case CloseElection(n) => n in c.nodes && n in c.campaigns
    case Propose(n, _) => n in c.nodes && c.nodes[n].role.Leader?
    case OpenRound(n) => n in c.nodes && c.nodes[n].role.Leader?
    case Build(round, peer, call) =>
      && round in c.rounds && peer in Peers(c, round.leader) && call !in c.open
      && round.leader in c.nodes
      && var s := c.nodes[round.leader];
         s.role.Leader? && s.term == round.term && peer in s.next && s.next[peer] > 0
    case HandleAppend(req) => req in c.sent && req.peer in c.nodes
    case CloseCall(call, rep) =>
      && call in c.open && rep in c.answers && rep.req == c.open[call]
      && rep.req.leader in c.nodes && rep.req.peer in c.nodes[rep.req.leader].next
    case LoseCall(call) => call in c.open
    case CloseRound(round) =>
      && round in c.rounds && round.leader in c.nodes
      && c.nodes[round.leader].role.Leader? && c.nodes[round.leader].term == round.term
  }

  function Max(a: nat, b: nat): nat { if a < b then b else a }

  function AckUpTo(acked: map<NodeId, nat>, p: NodeId, n: nat): map<NodeId, nat> {
    acked[p := Max(n, if p in acked then acked[p] else 0)]
  }

  /** History kept when node `n`, leading term `t`, extends its log to `log`. */
  function Extend(reigns: map<nat, Reign>, t: nat, log: seq<Entry>): map<nat, Reign> {
    if t !in reigns then reigns
    else
      var r := reigns[t];
      reigns[t := r.(log := log, acked := AckUpTo(r.acked, r.id, |log|))]
  }

  function Acknowledge(reigns: map<nat, Reign>, t: nat, p: NodeId, n: nat): map<nat, Reign> {
    if t !in reigns then reigns
    else reigns[t := reigns[t].(acked := AckUpTo(reigns[t].acked, p, n))]
  }

  function NoteReject(rejects: Rejects, t: nat, p: NodeId, prev: nat): Rejects {
    rejects[(t, p) := if (t, p) in rejects then Min(rejects[(t, p)], prev) else prev]
  }

  function NewReign(s: Node, self: NodeId, ids: set<NodeId>, voters: set<NodeId>): Reign {
    Reign(self, |s.log|, s.log + [Entry(s.term, true, NO_COMMAND)], voters,
          map p | p in ids :: if p == self then |s.log| + 1 else 0)
  }

  function DoCampaign(c: Cluster, n: NodeId): Cluster
    requires n in c.nodes
  {
    var s := StartElection(c.nodes[n], n);
    c.(nodes := c.nodes[n := s],
       campaigns := c.campaigns[n := Campaign(s.term, {n})],
       voteReqs := c.voteReqs + {VoteReq(n, VoteArgsOf(s))},
       ballots := c.ballots + {Ballot(n, s.term, n)})
  }

  function DoHandleVote(c: Cluster, req: VoteReq, v: NodeId): Cluster
    requires v in c.nodes
  {
    var (s, result) := OnRequestVote(c.nodes[v], req.candidate, req.args);
    c.(nodes := c.nodes[v := s],
       voteReps := c.voteReps + {VoteRep(req, v, result)},
       ballots := if result.granted then c.ballots + {Ballot(v, req.args.term, req.candidate)} else c.ballots)
  }

  function DoCountVote(c: Cluster, rep: VoteRep): Cluster
    requires rep.req.candidate in c.nodes && rep.req.candidate in c.campaigns
  {
    var n := rep.req.candidate;
    var camp := c.campaigns[n];
    var (s, counted) := OnVoteResult(c.nodes[n], camp.term, rep.result);
    c.(nodes := c.nodes[n := s],
       campaigns := if counted then c.campaigns[n := camp.(votes := camp.votes + {rep.voter})] else c.campaigns)
  }

  function DoCloseElection(c: Cluster, n: NodeId): Cluster
    requires n in c.nodes && n in c.campaigns
  {
    var s := c.nodes[n];
    var camp := c.campaigns[n];
    if !WinsElection(s, camp.term, |camp.votes|, |c.nodes|) then c.(campaigns := c.campaigns - {n})
    else
      c.(nodes := c.nodes[n := BecomeLeader(s, n, Peers(c, n))],
         campaigns := c.campaigns - {n},
         reigns := c.reigns[s.term := NewReign(s, n, c.nodes.Keys, camp.votes)])
  }

  function DoPropose(c: Cluster, n: NodeId, command: Command): Cluster
    requires n in c.nodes
  {
    var s := AppendCommand(c.nodes[n], command);
    c.(nodes := c.nodes[n := s], reigns := Extend(c.reigns, s.term, s.log))
  }

  function DoBuild(c: Cluster, round: Round, peer: NodeId, call: nat): Cluster
    requires Enabled(c, Build(round, peer, call))
  {
    var req := AppendReq(round.leader, peer, BuildAppend(c.nodes[round.leader], peer, round.commit));
    c.(sent := c.sent + {req}, open := c.open[call := req])
  }

  function DoHandleAppend(c: Cluster, req: AppendReq): Cluster
    requires req.peer in c.nodes
  {
    var (s, result) := OnAppendEntries(c.nodes[req.peer], req.leader, req.args);
    c.(nodes := c.nodes[req.peer := s],
       answers := c.answers + {AppendRep(req, result)},
       reigns := if result.success
                 then Acknowledge(c.reigns, req.args.term, req.peer, req.args.prevIndex + |req.args.entries|)
                 else c.reigns)
  }

  function DoCloseCall(c: Cluster, call: nat, rep: AppendRep): Cluster
    requires Enabled(c, CloseCall(call, rep))
  {
    var l := rep.req.leader;
    var s := c.nodes[l];
    var backsOff := rep.result.term <= s.term && s.role.Leader? && s.term == rep.req.args.term && !rep.result.success;
    c.(nodes := c.nodes[l := OnAppendResult(s, rep.req.peer, rep.req.args, rep.result)],
       open := c.open - {call},
       rejects := if backsOff then NoteReject(c.rejects, s.term, rep.req.peer, rep.req.args.prevIndex) else c.rejects)
  }

  function Next(c: Cluster, a: Action): Cluster
    requires Enabled(c, a)
  {
    match a
    case Campaigning(n) => DoCampaign(c, n)
    case HandleVote(req, voter) => DoHandleVote(c, req, voter)
    case CountVote(rep) => DoCountVote(c, rep)
    case CloseElection(n) => DoCloseElection(c, n)
    case Propose(n, command) => DoPropose(c, n, command)
    case OpenRound(n) => c.(rounds := c.rounds + {Round(n, c.nodes[n].term, c.nodes[n].commit)})
    case Build(round, peer, call) => DoBuild(c, round, peer, call)
    case HandleAppend(req) => DoHandleAppend(c, req)
    case CloseCall(call, rep) => DoCloseCall(c, call, rep)
    case LoseCall(call) => c.(open := c.open - {call})
    case CloseRound(round) =>
      c.(nodes := c.nodes[round.leader := AdvanceCommit(c.nodes[round.leader], Peers(c, round.leader))])
  }

  /** The calls from `l` to `p` whose outcome is still unknown. */
  function Outstanding(c: Cluster, l: NodeId, p: NodeId): set<nat> {
    set k | k in c.open && c.open[k].leader == l && c.open[k].peer == p
  }

  ghost predicate OutstandingAtMost(c: Cluster, limit: nat) {
    forall l, p :: |Outstanding(c, l, p)| <= limit
  }

  /** A run is the list of its states: the initial one, then one enabled action per step. */
  ghost predicate StepTo(c: Cluster, c': Cluster) {
    exists a :: Enabled(c, a) && c' == Next(c, a)
  }

  ghost predicate IsRun(ids: set<NodeId>, run: seq<Cluster>) {
    && run != []
    && run[0] == InitialCluster(ids)
    && forall i :: 0 < i < |run| ==> StepTo(run[i - 1], run[i])
  }

  ghost predicate IsRunWithin(ids: set<NodeId>, run: seq<Cluster>, limit: nat) {
    && IsRun(ids, run)
    && forall i :: 0 <= i < |run| ==> OutstandingAtMost(run[i], limit)
  }
}
