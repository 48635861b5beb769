/**
  What an `Ok` from `propose` means. `propose` appends its command at index `k` as leader of
  term `t`, waits, and returns `Ok` as soon as the node's commit index reaches `k`; it does not
  look at which entry is at `k` by then.
 */
module RaftPropose {
  import opened RaftSpec
  import opened RaftCluster
  import opened RaftInvariant
  import opened RaftReplication
  import opened RaftCommit
  import opened RaftSafety
  import opened RaftRuns

  /** At moment `i` of the run, `l` proposes `command`, which lands at index `k` in term `t`. */
  ghost predicate ProposedAt(run: seq<Cluster>, i: nat, l: NodeId, command: Command, t: nat, k: nat) {
    && i + 1 < |run| && Enabled(run[i], Propose(l, command)) && run[i + 1] == Next(run[i], Propose(l, command))
    && t == run[i].nodes[l].term && k == |run[i].nodes[l].log| + 1
  }

  /** The test of the polling loop, at moment `j`. */
  ghost predicate ReportsOk(run: seq<Cluster>, j: nat, l: NodeId, k: nat) {
    At(run, j, l) && run[j].nodes[l].commit >= k
  }

  /** The command is the `k`-th entry that node `q` has applied. */
  ghost predicate AppliedAs(s: Node, k: nat, e: Entry) {
    0 < k <= s.applied <= |s.log| && s.log[k - 1] == e
  }

  /** The proposed entry stays at its index in the history of its term. */
  lemma ProposalInReign(ids: set<NodeId>, run: seq<Cluster>, i: nat, l: NodeId, command: Command, t: nat, k: nat, j: nat)
    requires IsRun(ids, run) && ProposedAt(run, i, l, command, t, k) && i < j < |run|
    ensures t in run[j].reigns && k <= |run[j].reigns[t].log| && run[j].reigns[t].log[k - 1] == Entry(t, false, command)
  {
    hide IsRun, BaseInv, LogStep;
    RunBase(ids, run, i);
    ProposeIsLogStep(run[i], l, command);
    RunGrows(ids, run, i + 1, j);
  }

  /**
    An `Ok` is right exactly when the entry at the proposal's index still has the proposal's term,
    as it does when the node still leads that term. Then whoever applies that far applies the command.
   */
  lemma OkExact(ids: set<NodeId>, run: seq<Cluster>, limit: nat, i: nat, l: NodeId, command: Command, t: nat, k: nat, j: nat)
    requires IsRunWithin(ids, run, limit) && limit <= SAFE_CALLS
    requires ProposedAt(run, i, l, command, t, k) && i < j && ReportsOk(run, j, l, k)
    ensures k <= |run[j].nodes[l].log|
    ensures AppliedAs(run[j].nodes[l], k, Entry(t, false, command)) <==> run[j].nodes[l].log[k - 1].term == t
    ensures run[j].nodes[l].role.Leader? && run[j].nodes[l].term == t ==> run[j].nodes[l].log[k - 1].term == t
    ensures run[j].nodes[l].log[k - 1].term == t ==>
              forall m: nat, q :: At(run, m, q) && run[m].nodes[q].applied >= k ==>
                AppliedAs(run[m].nodes[q], k, Entry(t, false, command))
  {
    hide IsRunWithin, ProposedAt, RulesOf, Cert;
    WithinIsRun(ids, run, limit);
    hide IsRun;
    assert k > 0 && j < |run| by { PositiveIndex(run, i, l, command, t, k); }
    var s := run[j].nodes[l];
    AppliedCert(ids, run, limit, j, j, l);
    CertWithin(run[j].reigns, ids, s.term, s.log, s.applied);
    ProposalInReign(ids, run, i, l, command, t, k, j);
    LaterLog(ids, run, j, j, l);
    assert EntryOk(s.log, k - 1, run[j].reigns, s.term);
    hide LogOk;
    if s.role.Leader? && s.term == t {
      LeaderReign(ids, run, j, j, l);
    }
    if s.log[k - 1].term == t {
      forall m: nat, q | At(run, m, q) && run[m].nodes[q].applied >= k
        ensures AppliedAs(run[m].nodes[q], k, Entry(t, false, command))
      {
        SameApplied(ids, run, limit, j, l, m, q, k);
      }
    }
  }

  lemma PositiveIndex(run: seq<Cluster>, i: nat, l: NodeId, command: Command, t: nat, k: nat)
    requires ProposedAt(run, i, l, command, t, k)
    ensures k > 0
  {
  }

  lemma SameApplied(ids: set<NodeId>, run: seq<Cluster>, limit: nat, i: nat, p: NodeId, j: nat, q: NodeId, k: nat)
    requires IsRunWithin(ids, run, limit) && limit <= SAFE_CALLS && At(run, i, p) && At(run, j, q)
    requires 0 < k <= run[i].nodes[p].applied && k <= run[j].nodes[q].applied
    ensures run[i].nodes[p].applied <= |run[i].nodes[p].log| && run[j].nodes[q].applied <= |run[j].nodes[q].log|
    ensures run[i].nodes[p].log[k - 1] == run[j].nodes[q].log[k - 1]
  {
    hide IsRunWithin, RulesOf;
    var a, b := run[i].nodes[p], run[j].nodes[q];
    if a.applied <= b.applied {
      AppliedAgree(ids, run, limit, i, p, j, q);
      assert a.log[..a.applied][k - 1] == b.log[..a.applied][k - 1];
    } else {
      AppliedAgree(ids, run, limit, j, q, i, p);
      assert b.log[..b.applied][k - 1] == a.log[..b.applied][k - 1];
    }
  }

  // --------------------------------------------------- an `Ok` that is wrong

  const LOST := AddRule(1, 1, 1, 0, 1)
  const KEPT := AddRule(2, 2, 2, 0, 2)
  const THREE: set<NodeId> := {0, 1, 2}

  /** The snapshots of node 1's two rounds in term 2: before and after it has committed. */
  const BEFORE := Round(1, 2, 0)
  const AFTER := Round(1, 2, 2)

  /** Node 0 wins term 1. */
  lemma Wins() returns (tr: Trace)
    ensures IsTrace(THREE, tr, 1) && |tr.run| == |tr.acts| + 1 && Unused(tr, 1)
    ensures var c := Last(tr);
            && c.open == map[] && c.nodes.Keys == THREE
            && c.nodes[0].term == 1 && c.nodes[0].role.Leader? && c.nodes[0].log == [Entry(1, true, NO_COMMAND)]
            && c.nodes[0].commit == 0 && c.nodes[0].applied == 0
            && c.nodes[1] == Voted(FRESH_NODE, 0, 1) && c.nodes[2] == FRESH_NODE
  {
    hide IsTrace, Books;
    var r0 := Start(THREE, 1);
    assert r0.run[0].nodes.Keys == THREE;
    assert Unused(r0, 1);
    tr := Elect(THREE, r0, 0, 1, 1);
    TraceRun(THREE, tr, 1);
    BooksFact(r0, tr, 0, Round(0, 1, 0), 0, 1, 0, 0);
  }

  /** Node 0 proposes as leader of term 1. */
  lemma Proposes() returns (tr: Trace, i: nat)
    ensures IsTrace(THREE, tr, 1) && |tr.acts| <= |tr.run| && Unused(tr, 1) && ProposedAt(tr.run, i, 0, LOST, 1, 2)
    ensures var c := Last(tr);
            && c.open == map[] && c.nodes.Keys == THREE
            && c.nodes[0].term == 1 && c.nodes[0].log == [Entry(1, true, NO_COMMAND), Entry(1, false, LOST)]
            && c.nodes[0].commit == 0 && c.nodes[0].applied == 0
            && c.nodes[1] == Voted(FRESH_NODE, 0, 1) && c.nodes[2] == FRESH_NODE
  {
    hide IsTrace, Books, Unused;
    var round := Round(0, 1, 0);
    var r1 := Wins();
    tr := Take(THREE, r1, Propose(0, LOST), 1);
    BooksOfStep(r1, tr, Propose(0, LOST), round, 1);
    BooksFact(r1, tr, 1, round, 0, 1, 0, 0);
    i := |r1.run| - 1;
    assert tr.run[i] == Last(r1) && tr.run[i + 1] == Last(tr);
    assert Last(tr).nodes.Keys == THREE;
  }

  /** Node 1 wins term 2 without hearing of it and is given another command. */
  lemma Usurps() returns (tr: Trace, i: nat)
    ensures IsTrace(THREE, tr, 1) && |tr.acts| <= |tr.run| && ProposedAt(tr.run, i, 0, LOST, 1, 2)
    ensures Begun(tr.acts, 1) == 0 && Proposals(tr.acts, 1) >= 1 && Ended(tr.acts, BEFORE) == 0
    ensures Opened(tr.run, tr.acts, BEFORE) == Built(tr.acts, BEFORE, 0) == Built(tr.acts, BEFORE, 2) == 0
    ensures Opened(tr.run, tr.acts, AFTER) == Built(tr.acts, AFTER, 0) == 0
    ensures var c := Last(tr);
            && c.open == map[] && c.nodes.Keys == THREE
            && c.nodes[0].term == 1 && c.nodes[0].log == [Entry(1, true, NO_COMMAND), Entry(1, false, LOST)]
            && c.nodes[0].commit == 0 && c.nodes[0].applied == 0
            && c.nodes[2].term <= 2 && c.nodes[2].log == []
            && var s := c.nodes[1];
               && s.role.Leader? && s.term == 2 && s.commit == 0 && s.applied == 0
               && s.log == [Entry(2, true, NO_COMMAND), Entry(2, false, KEPT)]
               && s.next.Keys == s.matched.Keys == {0, 2} && s.next[0] == s.next[2] == 1
  {
    hide IsTrace, RulesOf, Last, Next, Enabled, ProposedAt, Books;
    var r2;
    r2, i := Proposes();
    assert Begun(r2.acts, 1) == 0 && Ended(r2.acts, BEFORE) == 0 && Opened(r2.run, r2.acts, BEFORE) == 0;
    assert Built(r2.acts, BEFORE, 0) == Built(r2.acts, BEFORE, 2) == Built(r2.acts, AFTER, 0) == 0;
    assert Opened(r2.run, r2.acts, AFTER) == 0;
    hide Unused;
    assert |Last(r2).nodes| == |Last(r2).nodes.Keys| == 3;
    assert THREE - {1} == {0, 2};
    var r3 := Elect(THREE, r2, 1, 2, 1);
    BooksFact(r2, r3, 0, BEFORE, 0, 2, 0, 0);
    tr := ProposeMany(THREE, r3, 1, KEPT, 1, 1);
    BooksFact(r3, tr, 1, BEFORE, 0, 2, 0, 0);
    LongerRun(r2.run, tr.run, i);
  }

  /** Its first round reaches node 2 but not node 0. */
  lemma Reaches() returns (tr: Trace, i: nat)
    ensures IsTrace(THREE, tr, 1) && |tr.acts| <= |tr.run| && ProposedAt(tr.run, i, 0, LOST, 1, 2)
    ensures Begun(tr.acts, 1) == 1 <= Proposals(tr.acts, 1) && Ended(tr.acts, BEFORE) == 0
    ensures Built(tr.acts, BEFORE, 0) == Built(tr.acts, BEFORE, 2) == 1
    ensures Opened(tr.run, tr.acts, AFTER) == Built(tr.acts, AFTER, 0) == 0
    ensures var c := Last(tr);
            && c.open == map[] && c.nodes.Keys == THREE && BEFORE in c.rounds
            && c.nodes[0].term == 1 && c.nodes[0].log == [Entry(1, true, NO_COMMAND), Entry(1, false, LOST)]
            && c.nodes[0].commit == 0 && c.nodes[0].applied == 0
            && var s := c.nodes[1];
               && s.role.Leader? && s.term == 2 && s.commit == 0 && s.applied == 0
               && s.log == [Entry(2, true, NO_COMMAND), Entry(2, false, KEPT)]
               && s.next.Keys == s.matched.Keys == {0, 2} && s.next[0] == 1 && s.matched[2] == 2
  {
    hide IsTrace, RulesOf, Last, Next, Enabled, ProposedAt, Books;
    var r4;
    r4, i := Usurps();
    var r5 := Sync(THREE, r4, 1, 2, 1);
    BooksFact(r4, r5, 0, BEFORE, 1, 2, 1, 0);
    tr := Unheard(THREE, r5, BEFORE, 0, 1);
    BooksFact(r5, tr, 0, BEFORE, 0, 0, 1, 0);
    LongerRun(r4.run, tr.run, i);
  }

  /** Its round ends, and commits the other command at the same index. */
  lemma Commits() returns (tr: Trace, i: nat)
    ensures IsTrace(THREE, tr, 1) && |tr.acts| <= |tr.run| && ProposedAt(tr.run, i, 0, LOST, 1, 2)
    ensures Begun(tr.acts, 1) == 1 <= Proposals(tr.acts, 1)
    ensures Opened(tr.run, tr.acts, AFTER) == Built(tr.acts, AFTER, 0) == 0
    ensures var c := Last(tr);
            && c.open == map[] && c.nodes.Keys == THREE
            && c.nodes[0].term == 1 && c.nodes[0].log == [Entry(1, true, NO_COMMAND), Entry(1, false, LOST)]
            && c.nodes[0].commit == 0 && c.nodes[0].applied == 0
            && c.nodes[1].role.Leader? && c.nodes[1].term == 2 && c.nodes[1].commit == 2
            && c.nodes[1].log == [Entry(2, true, NO_COMMAND), Entry(2, false, KEPT)]
            && 0 in c.nodes[1].next && c.nodes[1].next[0] == 1
  {
    hide IsTrace, RulesOf, Last, Next, ProposedAt, Books;
    var r;
    r, i := Reaches();
    var s := Last(r).nodes[1];
    assert THREE - {1} == {0, 2};
    assert 2 in Replicas(s, {0, 2}, 2);
    assert Committable(s, {0, 2}, 2);
    tr := Commit(THREE, r, BEFORE, 1);
    BooksFact(r, tr, 0, BEFORE, 0, 0, 0, 1);
    LongerRun(r.run, tr.run, i);
  }

  lemma LongerRun(run: seq<Cluster>, run': seq<Cluster>, i: nat)
    requires run <= run' && ProposedAt(run, i, 0, LOST, 1, 2)
    ensures ProposedAt(run', i, 0, LOST, 1, 2)
  {
  }

  /**
    In a run of the program with one call open at a time, `propose` can return `Ok` when another command has
    taken its index.
   */
  lemma OkWithoutCommit() returns (tr: Trace, i: nat, j: nat)
    ensures IsTrace(THREE, tr, 1) && ProposedAt(tr.run, i, 0, LOST, 1, 2) && i < j && ReportsOk(tr.run, j, 0, 2)
    ensures AppliedAs(tr.run[j].nodes[0], 2, Entry(2, false, KEPT))
  {
    hide IsTrace, RulesOf, Next, Enabled, Books;
    var r;
    r, i := Commits();
    var c := Last(r);
    assert Snapshot(c, 1) == AFTER;
    tr := Replicate(THREE, r, 1, 0, 1);
    j := |tr.run| - 1;
    LongerRun(r.run, tr.run, i);
    var args := BuildAppend(c.nodes[1], 0, 2);
    assert args.entries == c.nodes[1].log;
    MergeReplaces(c.nodes[0].log, c.nodes[1].log);
  }

  lemma MergeReplaces(log: seq<Entry>, entries: seq<Entry>)
    requires |log| == |entries| == 2 && log[0].term != entries[0].term
    ensures Merge(log, 0, entries) == entries
  {
    assert Merge(log, 0, entries) == Merge([entries[0]], 1, entries[1..]) by { assert log[..0] + [entries[0]] == [entries[0]]; }
    MergeAtEnd([entries[0]], entries[1..]);
    assert [entries[0]] + entries[1..] == entries;
  }
}
