/**
  What every reachable cluster state satisfies, and the facts about logs, quorums and
  history that the step proofs share.
 */
module RaftInvariant {
  import opened RaftSpec
  import opened RaftCluster

  type Nodes = map<NodeId, Node>
  type Reigns = map<nat, Reign>

  // ---------------------------------------------------------------- logs

  /** Entry `i` and everything before it come from the leader of entry `i`'s term. */
  ghost predicate EntryOk(log: seq<Entry>, i: nat, h: Reigns, top: nat)
    requires i < |log|
  {
    var t := log[i].term;
    t <= top && t in h && log[..i + 1] <= h[t].log
  }

  ghost predicate LogOk(log: seq<Entry>, h: Reigns, top: nat) {
    forall i :: 0 <= i < |log| ==> EntryOk(log, i, h, top)
  }

  /** A leader's log: what it was elected with (older terms), then only entries of its own term. */
  ghost predicate ReignOk(h: Reigns, t: nat)
    requires t in h
  {
    var r := h[t];
    && r.base < |r.log|
    && (forall i :: 0 <= i < r.base ==> r.log[i].term < t)
    && (forall i :: r.base <= i < |r.log| ==> r.log[i].term == t)
    && LogOk(r.log, h, t)
  }

  ghost predicate ReignAt(h: Reigns, ids: set<NodeId>, t: nat)
    requires t in h
  {
    && ReignOk(h, t)
    && h[t].id in ids && h[t].voters <= ids && h[t].acked.Keys == ids
  }

  ghost predicate ReignsOk(h: Reigns, ids: set<NodeId>) {
    forall t :: t in h ==> ReignAt(h, ids, t)
  }

  ghost predicate LogsOk(nodes: Nodes, h: Reigns) {
    forall p :: p in nodes ==> LogOk(nodes[p].log, h, nodes[p].term)
  }

  // ------------------------------------------------------------- elections

  ghost predicate BallotsOk(nodes: Nodes, ballots: set<Ballot>) {
    && (forall a, b :: a in ballots && b in ballots && a.voter == b.voter && a.term == b.term ==> a.candidate == b.candidate)
    && (forall b :: b in ballots ==>
          && b.voter in nodes && b.term <= nodes[b.voter].term
          && (b.term == nodes[b.voter].term ==> nodes[b.voter].hasVoted && nodes[b.voter].votedFor == b.candidate))
    && (forall b :: b in ballots ==> b.candidate in nodes && b.term <= nodes[b.candidate].term)
  }

  ghost predicate VoteReqOk(nodes: Nodes, req: VoteReq) {
    && req.candidate in nodes && req.args.term <= nodes[req.candidate].term
    && (nodes[req.candidate].role.Candidate? && nodes[req.candidate].term == req.args.term
        ==> req.args == VoteArgsOf(nodes[req.candidate]))
  }

  ghost predicate VotesOk(nodes: Nodes, reqs: set<VoteReq>, reps: set<VoteRep>, ballots: set<Ballot>) {
    && (forall q :: q in reqs ==> VoteReqOk(nodes, q))
    && (forall r :: r in reps ==>
          r.req in reqs && (r.result.granted ==> Ballot(r.voter, r.req.args.term, r.req.candidate) in ballots))
  }

  ghost predicate CampaignsOk(nodes: Nodes, campaigns: map<NodeId, Campaign>, ballots: set<Ballot>) {
    && (forall n :: n in campaigns ==> n in nodes && campaigns[n].votes <= nodes.Keys)
    && (forall n, v :: n in campaigns && v in campaigns[n].votes ==> Ballot(v, campaigns[n].term, n) in ballots)
  }

  ghost predicate Quorum(ids: set<NodeId>, q: set<NodeId>) {
    q <= ids && 2 * |q| > |ids|
  }

  ghost predicate ElectedOk(h: Reigns, ballots: set<Ballot>, ids: set<NodeId>) {
    && (forall t :: t in h ==> Quorum(ids, h[t].voters))
    && (forall t, v :: t in h && v in h[t].voters ==> Ballot(v, t, h[t].id) in ballots)
  }

  /** A reign's leader keeps its role and its log until it moves to a later term. */
  ghost predicate ReignsHeld(nodes: Nodes, h: Reigns) {
    forall t :: t in h ==>
      && h[t].id in nodes && t <= nodes[h[t].id].term
      && (nodes[h[t].id].term == t ==> nodes[h[t].id].role.Leader? && nodes[h[t].id].log == h[t].log)
  }

  /** Every leader has its reign, and indices for all its peers. */
  ghost predicate LeadersKnown(nodes: Nodes, h: Reigns) {
    forall p :: p in nodes && nodes[p].role.Leader? ==>
      && nodes[p].term in h && h[nodes[p].term].id == p
      && nodes[p].next.Keys == nodes.Keys - {p} && nodes[p].matched.Keys == nodes.Keys - {p}
  }

  ghost predicate RolesOk(nodes: Nodes, h: Reigns) {
    ReignsHeld(nodes, h) && LeadersKnown(nodes, h)
  }

  // ------------------------------------------------------------ replication

  /** `p` has left term `t` behind, or is in it with nothing but the term's leader's entries. */
  ghost predicate Settled(nodes: Nodes, h: Reigns, p: NodeId, t: nat) {
    && p in nodes && t in h
    && (nodes[p].term > t || (nodes[p].term == t && nodes[p].log <= h[t].log))
  }

  ghost predicate Bounded(nodes: Nodes, h: Reigns, p: NodeId, t: nat, b: nat) {
    Settled(nodes, h, p, t) || (p in nodes && t in h && nodes[p].term == t && |nodes[p].log| <= b)
  }

  function End(args: AppendArgs): nat { args.prevIndex + |args.entries| }

  /** A request is a slice of its leader's log. */
  ghost predicate ReqOk(h: Reigns, ids: set<NodeId>, q: AppendReq) {
    && q.args.term in h
    && var r := h[q.args.term];
       && r.id == q.leader && q.peer in ids && q.peer != q.leader
       && End(q.args) <= |r.log|
       && q.args.entries == r.log[q.args.prevIndex..End(q.args)]
       && q.args.prevTerm == (if q.args.prevIndex > 0 then r.log[q.args.prevIndex - 1].term else 0)
  }

  ghost predicate SentOk(h: Reigns, ids: set<NodeId>, sent: set<AppendReq>) {
    forall q :: q in sent ==> ReqOk(h, ids, q)
  }

  /** A request either carries the term's no-op or leaves no room for entries it does not speak about. */
  ghost predicate Covered(nodes: Nodes, h: Reigns, q: AppendReq) {
    && q.args.term in h
    && (End(q.args) > h[q.args.term].base || Bounded(nodes, h, q.peer, q.args.term, End(q.args)))
  }

  ghost predicate CoverOk(nodes: Nodes, h: Reigns, sent: set<AppendReq>) {
    forall q :: q in sent ==> Covered(nodes, h, q)
  }

  ghost predicate RoundsOk(h: Reigns, rounds: set<Round>) {
    forall r :: r in rounds ==> r.term in h && h[r.term].id == r.leader
  }

  ghost predicate AnswerOk(h: Reigns, a: AppendRep) {
    var t := a.req.args.term;
    && t in h && a.result.term >= t
    && (a.result.success ==> a.req.peer in h[t].acked && h[t].acked[a.req.peer] >= End(a.req.args))
    && (!a.result.success && a.result.term == t ==> a.req.args.prevIndex > 0)
  }

  ghost predicate AnswersOk(h: Reigns, sent: set<AppendReq>, answers: set<AppendRep>) {
    forall a :: a in answers ==> a.req in sent && AnswerOk(h, a)
  }

  /** What an answer says about the tail of the log it came from. */
  ghost predicate Telling(nodes: Nodes, h: Reigns, a: AppendRep) {
    var t := a.req.args.term;
    && (a.result.success ==> Settled(nodes, h, a.req.peer, t))
    && (!a.result.success && a.result.term == t && a.req.args.prevIndex > 0
        ==> Bounded(nodes, h, a.req.peer, t, a.req.args.prevIndex - 1))
  }

  ghost predicate TellingOk(nodes: Nodes, h: Reigns, answers: set<AppendRep>) {
    forall a :: a in answers ==> Telling(nodes, h, a)
  }

  ghost predicate MatchedOk(nodes: Nodes, h: Reigns) {
    forall l, p :: l in nodes && nodes[l].role.Leader? && nodes[l].term in h
                   && p in nodes[l].matched && p in h[nodes[l].term].acked
      ==> nodes[l].matched[p] <= h[nodes[l].term].acked[p]
  }

  // --------------------------------------------------------------- back-off

  /** Open calls of the leader of term `t` to `p` whose previous-entry index is at least `q`. */
  function CallsFrom(open: map<nat, AppendReq>, p: NodeId, t: nat, q: nat): set<nat> {
    set k | k in open && open[k].peer == p && open[k].args.term == t && open[k].args.prevIndex >= q
  }

  /** The lowest index rejected so far; one past the leader's election-time log if there was no rejection. */
  function Lowest(rejects: Rejects, t: nat, p: NodeId, base: nat): nat {
    if (t, p) in rejects then rejects[(t, p)] else base + 1
  }

  ghost predicate RejectsOk(h: Reigns, rejects: Rejects) {
    forall k :: k in rejects ==> k.0 in h
  }

  /** One open call, for a leader whose next index is `n` and whose lowest rejection is `m`. */
  ghost predicate CallBound(open: map<nat, AppendReq>, p: NodeId, t: nat, n: nat, m: nat, base: nat, limit: nat, k: nat)
    requires k in open
  {
    var q := open[k].args.prevIndex;
    n <= q + 1 <= base + 1 && (q < m ==> n + limit >= q + 2 + |CallsFrom(open, p, t, q) - {k}|)
  }

  /** The next index trails the lowest rejection by no more than the calls that were open together. */
  ghost predicate CallsBound(open: map<nat, AppendReq>, p: NodeId, t: nat, n: nat, m: nat, base: nat, limit: nat) {
    && 1 <= n <= m <= base + 1
    && (m == base + 1 ==> n == m)
    && n + limit >= m + 1 + |CallsFrom(open, p, t, m)|
    && (forall k :: k in CallsFrom(open, p, t, 0) ==> CallBound(open, p, t, n, m, base, limit, k))
  }

  /** While `p` may still hold entries that are not the leader's: its log is below the lowest rejection. */
  ghost predicate BackoffAt(nodes: Nodes, h: Reigns, rejects: Rejects, open: map<nat, AppendReq>, limit: nat,
                            l: NodeId, p: NodeId)
    requires l in nodes && p in nodes[l].next && nodes[l].term in h
  {
    var t := nodes[l].term;
    var m := Lowest(rejects, t, p, h[t].base);
    && CallsBound(open, p, t, nodes[l].next[p], m, h[t].base, limit)
    && (m <= h[t].base ==> Bounded(nodes, h, p, t, m - 1))
  }

  ghost predicate NextOk(nodes: Nodes, h: Reigns) {
    forall l, p :: l in nodes && nodes[l].role.Leader? && nodes[l].term in h && p in nodes[l].next
      ==> 1 <= nodes[l].next[p] <= |h[nodes[l].term].log| + 1
  }

  ghost predicate BackoffOk(nodes: Nodes, h: Reigns, rejects: Rejects, open: map<nat, AppendReq>, limit: nat) {
    forall l, p :: l in nodes && p in nodes && l != p && nodes[l].role.Leader?
                   && p in nodes[l].next && nodes[l].term in h && !Settled(nodes, h, p, nodes[l].term)
      ==> BackoffAt(nodes, h, rejects, open, limit, l, p)
  }

  ghost predicate OpenOk(open: map<nat, AppendReq>, sent: set<AppendReq>) {
    forall k :: k in open ==> open[k] in sent
  }

  // -------------------------------------------------- acknowledged entries

  /** The leader of `u` was elected with the first `n` entries of the leader of `t`. */
  ghost predicate Holds(h: Reigns, t: nat, n: nat, u: nat)
    requires t in h && u in h
  {
    n <= |h[t].log| && n <= h[u].base && h[t].log[..n] <= h[u].log
  }

  ghost predicate Lacking(h: Reigns, t: nat, n: nat, top: nat)
    requires t in h
  {
    exists u :: t < u <= top && u in h && !Holds(h, t, n, u)
  }

  /** A log at term `top` has the first `n` entries of the leader of `t`, unless a leader in between lacked them. */
  ghost predicate Kept(log: seq<Entry>, top: nat, h: Reigns, t: nat, n: nat)
    requires t in h && n <= |h[t].log|
  {
    h[t].log[..n] <= log || Lacking(h, t, n, top)
  }

  ghost predicate AckedBy(h: Reigns, t: nat, n: nat, p: NodeId) {
    t in h && p in h[t].acked && h[t].base < n <= h[t].acked[p]
  }

  ghost predicate AcksAt(nodes: Nodes, r: Reign, t: nat) {
    && (forall p :: p in r.acked ==> r.acked[p] <= |r.log| && (r.acked[p] > 0 ==> p in nodes && nodes[p].term >= t))
    && r.id in r.acked && r.acked[r.id] == |r.log|
  }

  ghost predicate AcksOk(nodes: Nodes, h: Reigns) {
    forall t :: t in h ==> AcksAt(nodes, h[t], t)
  }

  ghost predicate RetainOk(nodes: Nodes, h: Reigns) {
    forall t: nat, n: nat, p :: AckedBy(h, t, n, p) && n <= |h[t].log| && p in nodes
      ==> Kept(nodes[p].log, nodes[p].term, h, t, n)
  }

  ghost predicate CandidatesOk(nodes: Nodes, h: Reigns, ballots: set<Ballot>) {
    forall b, t: nat, n: nat :: b in ballots && AckedBy(h, t, n, b.voter) && n <= |h[t].log| && t < b.term
                      && b.candidate in nodes && nodes[b.candidate].role.Candidate? && nodes[b.candidate].term == b.term
      ==> Kept(nodes[b.candidate].log, b.term, h, t, n)
  }

  ghost predicate VoterAt(h: Reigns, u: nat, v: NodeId, t: nat, n: nat) {
    u in h && v in h[u].voters && AckedBy(h, t, n, v) && n <= |h[t].log| && t < u
    ==> Holds(h, t, n, u) || Lacking(h, t, n, u - 1)
  }

  ghost predicate VotersOk(h: Reigns) {
    forall u, v, t, n :: VoterAt(h, u, v, t, n)
  }

  // ----------------------------------------------------------------- commit

  function AckSet(h: Reigns, ids: set<NodeId>, t: nat, n: nat): set<NodeId>
    requires t in h
  {
    set p | p in ids && p in h[t].acked && h[t].acked[p] >= n
  }

  /** Index `n` is committed by the leader of `t`: an entry of that term which a quorum acknowledged. */
  ghost predicate Chosen(h: Reigns, ids: set<NodeId>, t: nat, n: nat) {
    t in h && h[t].base < n <= |h[t].log| && Quorum(ids, AckSet(h, ids, t, n))
  }

  ghost predicate CertBy(h: Reigns, ids: set<NodeId>, top: nat, log: seq<Entry>, k: nat, t: nat, n: nat)
    requires k <= |log|
  {
    t <= top && k <= n && Chosen(h, ids, t, n) && log[..k] <= h[t].log
  }

  /** The first `k` entries of `log` are committed, by a leader of term at most `top`. */
  ghost predicate Cert(h: Reigns, ids: set<NodeId>, top: nat, log: seq<Entry>, k: nat) {
    k <= |log| && (k == 0 || exists t, n :: CertBy(h, ids, top, log, k, t, n))
  }

  /** A node has applied exactly what it holds committed, and its rules are those of that prefix. */
  ghost predicate CommitAt(h: Reigns, ids: set<NodeId>, s: Node) {
    && Cert(h, ids, s.term, s.log, s.commit)
    && s.applied == s.commit
    && s.rules == RulesOf(s.log[..s.commit])
  }

  ghost predicate CommitOk(nodes: Nodes, h: Reigns) {
    forall p :: p in nodes ==> CommitAt(h, nodes.Keys, nodes[p])
  }

  ghost predicate SentCert(h: Reigns, ids: set<NodeId>, sent: set<AppendReq>) {
    forall q :: q in sent ==>
      q.args.term in h && Cert(h, ids, q.args.term, h[q.args.term].log, q.args.commit)
  }

  ghost predicate RoundsCert(h: Reigns, ids: set<NodeId>, rounds: set<Round>) {
    forall r :: r in rounds ==> r.term in h && Cert(h, ids, r.term, h[r.term].log, r.commit)
  }

  // ------------------------------------------------------------- invariants

  ghost predicate ElectionInv(c: Cluster) {
    && BallotsOk(c.nodes, c.ballots)
    && VotesOk(c.nodes, c.voteReqs, c.voteReps, c.ballots)
    && CampaignsOk(c.nodes, c.campaigns, c.ballots)
    && ElectedOk(c.reigns, c.ballots, c.nodes.Keys)
    && RolesOk(c.nodes, c.reigns)
  }

  ghost predicate LogInv(c: Cluster) {
    && ReignsOk(c.reigns, c.nodes.Keys)
    && LogsOk(c.nodes, c.reigns)
    && NextOk(c.nodes, c.reigns)
    && MatchedOk(c.nodes, c.reigns)
  }

  ghost predicate NetInv(c: Cluster) {
    && SentOk(c.reigns, c.nodes.Keys, c.sent)
    && RoundsOk(c.reigns, c.rounds)
    && OpenOk(c.open, c.sent)
    && AnswersOk(c.reigns, c.sent, c.answers)
  }

  ghost predicate AckInv(c: Cluster) {
    && AcksOk(c.nodes, c.reigns)
    && RetainOk(c.nodes, c.reigns)
    && CandidatesOk(c.nodes, c.reigns, c.ballots)
    && VotersOk(c.reigns)
  }

  /** Holds in every run, however many calls are open at once. */
  ghost predicate BaseInv(c: Cluster) {
    ElectionInv(c) && LogInv(c) && NetInv(c) && AckInv(c)
  }

  ghost predicate TailInv(c: Cluster, limit: nat) {
    && CoverOk(c.nodes, c.reigns, c.sent)
    && TellingOk(c.nodes, c.reigns, c.answers)
    && RejectsOk(c.reigns, c.rejects)
    && BackoffOk(c.nodes, c.reigns, c.rejects, c.open, limit)
  }

  ghost predicate CommitInv(c: Cluster) {
    && CommitOk(c.nodes, c.reigns)
    && SentCert(c.reigns, c.nodes.Keys, c.sent)
    && RoundsCert(c.reigns, c.nodes.Keys, c.rounds)
  }

  /** Holds in runs whose leader-peer pairs never have more than `limit` calls open. */
  ghost predicate SafeInv(c: Cluster, limit: nat) {
    TailInv(c, limit) && CommitInv(c)
  }

  // ---------------------------------------------------------- shared lemmas

  lemma SubsetSize<T>(a: set<T>, b: set<T>)
    requires a <= b
    ensures |a| <= |b|
  {
    assert b == a + (b - a);
  }

  /** Two majorities of the same members share a member. */
  lemma QuorumsMeet(ids: set<NodeId>, a: set<NodeId>, b: set<NodeId>) returns (p: NodeId)
    requires Quorum(ids, a) && Quorum(ids, b)
    ensures p in a && p in b
  {
    SubsetSize(a + b, ids);
    assert |a + b| + |a * b| == |a| + |b|;
    p :| p in a * b;
  }

  /** Log matching: the same term at the same index means the same entries up to it. */
  lemma LogMatch(h: Reigns, a: seq<Entry>, b: seq<Entry>, i: nat, ta: nat, tb: nat)
    requires LogOk(a, h, ta) && LogOk(b, h, tb)
    requires i < |a| && i < |b| && a[i].term == b[i].term
    ensures a[..i + 1] == b[..i + 1]
  {
    assert EntryOk(a, i, h, ta) && EntryOk(b, i, h, tb);
  }

  lemma PrefixOk(log: seq<Entry>, k: nat, h: Reigns, top: nat)
    requires LogOk(log, h, top) && k <= |log|
    ensures LogOk(log[..k], h, top)
  {
    forall i | 0 <= i < k ensures EntryOk(log[..k], i, h, top) {
      assert EntryOk(log, i, h, top);
      assert log[..k][..i + 1] == log[..i + 1];
    }
  }

  /** Terms never decrease along a log. */
  lemma TermsRise(h: Reigns, ids: set<NodeId>, log: seq<Entry>, top: nat, i: nat, j: nat)
    requires ReignsOk(h, ids) && LogOk(log, h, top) && i <= j < |log|
    ensures log[i].term <= log[j].term
  {
    assert EntryOk(log, j, h, top);
    var t := log[j].term;
    assert ReignOk(h, t);
    assert log[i] == log[..j + 1][i] == h[t].log[i];
  }

  /** A log whose last entry is of term `t` is a prefix of the log of `t`'s leader. */
  lemma LastTermPrefix(h: Reigns, log: seq<Entry>, top: nat)
    requires LogOk(log, h, top) && log != []
    ensures LastTerm(log) in h && log <= h[LastTerm(log)].log && LastTerm(log) <= top
  {
    assert EntryOk(log, |log| - 1, h, top);
    assert log[..|log|] == log;
  }

  /** History only grows: reigns are added, and a reign's log and acknowledgements extend. */
  ghost predicate Grows(h: Reigns, h': Reigns) {
    forall t :: t in h ==>
      && t in h' && h'[t].id == h[t].id && h'[t].base == h[t].base && h'[t].voters == h[t].voters
      && h[t].log <= h'[t].log
      && h'[t].acked.Keys == h[t].acked.Keys
      && forall p :: p in h[t].acked ==> h[t].acked[p] <= h'[t].acked[p]
  }

  lemma LogOkGrows(log: seq<Entry>, h: Reigns, h': Reigns, top: nat, top': nat)
    requires LogOk(log, h, top) && Grows(h, h') && top <= top'
    ensures LogOk(log, h', top')
  {
    forall i | 0 <= i < |log| ensures EntryOk(log, i, h', top') {
      assert EntryOk(log, i, h, top);
    }
  }

  lemma ChosenGrows(h: Reigns, h': Reigns, ids: set<NodeId>, t: nat, n: nat)
    requires Chosen(h, ids, t, n) && Grows(h, h')
    ensures Chosen(h', ids, t, n)
  {
    SubsetSize(AckSet(h, ids, t, n), AckSet(h', ids, t, n));
  }

  /** Committed stays committed, in any log that keeps those entries. */
  lemma CertGrows(h: Reigns, h': Reigns, ids: set<NodeId>, top: nat, top': nat, log: seq<Entry>, log': seq<Entry>, k: nat)
    requires Cert(h, ids, top, log, k) && Grows(h, h') && top <= top'
    requires k <= |log'| && log'[..k] == log[..k]
    ensures Cert(h', ids, top', log', k)
  {
    if k > 0 {
      var t, n :| CertBy(h, ids, top, log, k, t, n);
      ChosenGrows(h, h', ids, t, n);
      assert CertBy(h', ids, top', log', k, t, n);
    }
  }

  /** Part of a committed prefix is committed. */
  lemma CertPrefix(h: Reigns, ids: set<NodeId>, top: nat, log: seq<Entry>, k: nat, log': seq<Entry>, k': nat)
    requires Cert(h, ids, top, log, k) && k' <= k && k' <= |log'| && log'[..k'] == log[..k']
    ensures Cert(h, ids, top, log', k')
  {
    if k' > 0 {
      var t, n :| CertBy(h, ids, top, log, k, t, n);
      assert log[..k'] <= log[..k];
      assert CertBy(h, ids, top, log', k', t, n);
    }
  }

  lemma LackingGrows(h: Reigns, h': Reigns, t: nat, n: nat, top: nat, top': nat)
    requires t in h && Lacking(h, t, n, top) && Grows(h, h') && top <= top' && n <= |h[t].log|
    requires forall u :: u in h ==> h[u].base <= |h[u].log|
    ensures Lacking(h', t, n, top')
  {
    var u :| t < u <= top && u in h && !Holds(h, t, n, u);
    assert h'[t].log[..n] == h[t].log[..n];
    if n <= h[u].base {
      assert h'[u].log[..n] == h[u].log[..n];
    }
    assert !Holds(h', t, n, u);
  }

  lemma SentGrows(h: Reigns, h': Reigns, ids: set<NodeId>, sent: set<AppendReq>)
    requires SentOk(h, ids, sent) && Grows(h, h')
    ensures SentOk(h', ids, sent)
  {
    forall q | q in sent ensures ReqOk(h', ids, q) {
      assert ReqOk(h, ids, q);
      var r, r' := h[q.args.term], h'[q.args.term];
      assert r'.log[q.args.prevIndex..End(q.args)] == r.log[q.args.prevIndex..End(q.args)];
    }
  }

  lemma NetGrows(c: Cluster, h': Reigns)
    requires NetInv(c) && Grows(c.reigns, h')
    ensures NetInv(c.(reigns := h'))
  {
    SentGrows(c.reigns, h', c.nodes.Keys, c.sent);
    forall a | a in c.answers ensures AnswerOk(h', a) {
      assert AnswerOk(c.reigns, a);
    }
  }

  lemma CertsGrow(h: Reigns, h': Reigns, ids: set<NodeId>, sent: set<AppendReq>, rounds: set<Round>)
    requires SentCert(h, ids, sent) && RoundsCert(h, ids, rounds) && Grows(h, h')
    ensures SentCert(h', ids, sent) && RoundsCert(h', ids, rounds)
  {
    forall q | q in sent ensures q.args.term in h' && Cert(h', ids, q.args.term, h'[q.args.term].log, q.args.commit) {
      var t := q.args.term;
      CertGrows(h, h', ids, t, t, h[t].log, h'[t].log, q.args.commit);
    }
    forall r | r in rounds ensures r.term in h' && Cert(h', ids, r.term, h'[r.term].log, r.commit) {
      CertGrows(h, h', ids, r.term, r.term, h[r.term].log, h'[r.term].log, r.commit);
    }
  }

  /** No step unsettles a log, lengthens one that is bounded, or takes a node back to an earlier term. */
  ghost predicate Advances(nodes: Nodes, nodes': Nodes, h: Reigns, h': Reigns) {
    && nodes'.Keys == nodes.Keys && Grows(h, h')
    && (forall p, t :: Settled(nodes, h, p, t) ==> Settled(nodes', h', p, t))
    && (forall p, t, b :: Bounded(nodes, h, p, t, b) ==> Bounded(nodes', h', p, t, b))
  }

  lemma TailAdvances(nodes: Nodes, nodes': Nodes, h: Reigns, h': Reigns, sent: set<AppendReq>, answers: set<AppendRep>)
    requires Advances(nodes, nodes', h, h') && CoverOk(nodes, h, sent) && TellingOk(nodes, h, answers)
    ensures CoverOk(nodes', h', sent) && TellingOk(nodes', h', answers)
  {
    forall q | q in sent ensures Covered(nodes', h', q) { assert Covered(nodes, h, q); }
    forall a | a in answers ensures Telling(nodes', h', a) { assert Telling(nodes, h, a); }
  }

  /** A pair's back-off state survives any step that leaves its indices and its open calls alone. */
  lemma BackoffAdvances(nodes: Nodes, nodes': Nodes, h: Reigns, h': Reigns, rejects: Rejects,
                        open: map<nat, AppendReq>, limit: nat, l: NodeId, p: NodeId)
    requires Advances(nodes, nodes', h, h') && BackoffOk(nodes, h, rejects, open, limit)
    requires l in nodes && p in nodes && l != p && nodes[l].role.Leader? && nodes'[l].role.Leader?
    requires nodes'[l].term == nodes[l].term && nodes[l].term in h && p in nodes[l].next && p in nodes'[l].next
    requires nodes'[l].next[p] == nodes[l].next[p]
    requires !Settled(nodes', h', p, nodes[l].term)
    ensures BackoffAt(nodes', h', rejects, open, limit, l, p)
  {
    assert BackoffAt(nodes, h, rejects, open, limit, l, p);
  }

  lemma KeptGrows(log: seq<Entry>, log': seq<Entry>, top: nat, h: Reigns, h': Reigns, ids: set<NodeId>, t: nat, n: nat)
    requires t in h && n <= |h[t].log| && Kept(log, top, h, t, n) && log <= log' && Grows(h, h') && ReignsOk(h, ids)
    ensures t in h' && n <= |h'[t].log| && Kept(log', top, h', t, n)
  {
    assert h'[t].log[..n] == h[t].log[..n];
    if !(h[t].log[..n] <= log) {
      forall u | u in h ensures h[u].base <= |h[u].log| { assert ReignOk(h, u); }
      LackingGrows(h, h', t, n, top, top);
    }
  }

  lemma CommitGrows(h: Reigns, h': Reigns, ids: set<NodeId>, s: Node, s': Node)
    requires CommitAt(h, ids, s) && Grows(h, h')
    requires s'.term >= s.term && s'.commit == s.commit && s'.applied == s.applied && s'.rules == s.rules
    requires s.commit <= |s'.log| && s'.log[..s.commit] == s.log[..s.commit]
    ensures CommitAt(h', ids, s')
  {
    CertGrows(h, h', ids, s.term, s'.term, s.log, s'.log, s.commit);
  }

  // One instance of an invariant at a time.

  lemma SentFact(h: Reigns, ids: set<NodeId>, sent: set<AppendReq>, q: AppendReq)
    requires SentOk(h, ids, sent) && q in sent
    ensures ReqOk(h, ids, q)
  {
  }

  lemma AnswerFact(h: Reigns, sent: set<AppendReq>, answers: set<AppendRep>, a: AppendRep)
    requires AnswersOk(h, sent, answers) && a in answers
    ensures a.req in sent && AnswerOk(h, a)
  {
  }

  lemma ReignFact(h: Reigns, ids: set<NodeId>, t: nat)
    requires ReignsOk(h, ids) && t in h
    ensures ReignAt(h, ids, t)
  {
  }

  lemma AckFact(nodes: Nodes, h: Reigns, t: nat)
    requires AcksOk(nodes, h) && t in h
    ensures AcksAt(nodes, h[t], t)
  {
  }

  lemma LogFact(nodes: Nodes, h: Reigns, p: NodeId)
    requires LogsOk(nodes, h) && p in nodes
    ensures LogOk(nodes[p].log, h, nodes[p].term)
  {
  }

  lemma LeaderFact(nodes: Nodes, h: Reigns, l: NodeId)
    requires RolesOk(nodes, h) && l in nodes && nodes[l].role.Leader?
    ensures nodes[l].term in h && h[nodes[l].term].id == l && h[nodes[l].term].log == nodes[l].log
    ensures nodes[l].next.Keys == nodes.Keys - {l} && nodes[l].matched.Keys == nodes.Keys - {l}
  {
  }

  lemma RetainFact(nodes: Nodes, h: Reigns, t: nat, n: nat, p: NodeId)
    requires RetainOk(nodes, h) && AckedBy(h, t, n, p) && n <= |h[t].log| && p in nodes
    ensures Kept(nodes[p].log, nodes[p].term, h, t, n)
  {
  }
}
