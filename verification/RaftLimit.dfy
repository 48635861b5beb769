/**
  The bound of `RaftSafety.StateMachineSafety` is exact: with one more open call per pair the
  rules of two nodes of a three-node cluster come apart.

  Node A is left behind with two entries of term 1 that no quorum stores. B wins term 3 and commits its
  no-op with C. Then 67 clients call `propose` on B. Each call appends its command and begins a round of its
  own; the rounds of the first 66 build their request to A before any of them is answered. All 66 fail at B's
  last inherited entry, and each failure takes B's next index one step back, although only the first one
  shortened A's log. So the last client's request ends one entry before the end of A's log, and A commits
  that entry.

  The run is one of the program (`RaftRuns.IsTrace`): every round is the tick thread's first or belongs to a
  `propose` that has appended its command, builds one request per peer, and ends only when all of them have
  been dealt with. Requests to C that are not mentioned belong to threads that have not run yet.
 */
module RaftLimit {
  import opened RaftSpec
  import opened RaftCluster
  import opened RaftCommit
  import opened RaftSafety
  import opened RaftRuns

  const A: NodeId := 0
  const B: NodeId := 1
  const C: NodeId := 2
  const ALL: set<NodeId> := {A, B, C}

  const STALE := AddRule(1, 1, 1, 0, 1)
  const FRESH := AddRule(2, 2, 2, 0, 2)

  const MANY: nat := SAFE_CALLS + 1

  function Noop(t: nat): Entry { Entry(t, true, NO_COMMAND) }
  function Of(t: nat, command: Command): Entry { Entry(t, false, command) }

  /** The MAX_ENTRIES entries that all three nodes share, then the two that only A has. */
  function Shared(): seq<Entry> { [Noop(1)] + seq(MAX_ENTRIES - 1, _ => Of(1, STALE)) }
  function Stale(): seq<Entry> { Shared() + [Of(1, STALE), Of(1, STALE)] }
  /** What the leaders of terms 2 and 3 have instead. */
  function Second(): seq<Entry> { Shared() + [Noop(2), Of(2, FRESH)] }
  function Third(): seq<Entry> { Second() + [Noop(3)] }

  ghost predicate Idle(c: Cluster) { c.open == map[] && c.nodes.Keys == ALL }

  ghost predicate Plain(s: Node, term: nat, log: seq<Entry>) {
    s.term == term && s.log == log && s.commit == 0 && s.applied == 0 && s.rules == []
  }

  /** A wins term 1. */
  lemma Crowned(limit: nat) returns (tr: Trace)
    requires limit > 0
    ensures IsTrace(ALL, tr, limit) && Idle(Last(tr)) && |tr.acts| <= |tr.run|
    ensures Unused(tr, A) && Unused(tr, B) && Unused(tr, C)
    ensures var n := Last(tr).nodes;
            && Plain(n[A], 1, [Noop(1)]) && n[A].role.Leader? && n[A].next.Keys == {B, C} && n[A].next[B] == n[A].next[C] == 1
            && n[B] == Voted(FRESH_NODE, A, 1) && n[C] == FRESH_NODE
  {
    hide IsTrace, Books;
    var r0 := Start(ALL, limit);
    assert r0.run[0].nodes.Keys == ALL;
    assert ALL - {A} == {B, C};
    assert Unused(r0, A) && Unused(r0, B) && Unused(r0, C);
    tr := Elect(ALL, r0, A, B, limit);
    hide Unused;
    BooksFact(r0, tr, 0, Round(A, 1, 0), 0, B, 0, 0);
    BooksFact(r0, tr, 0, Round(B, 1, 0), 0, B, 0, 0);
  }

  /** A is given its commands, before anyone has heard of them. */
  lemma Opening(limit: nat) returns (tr: Trace)
    requires limit > 0
    ensures IsTrace(ALL, tr, limit) && Idle(Last(tr)) && |tr.acts| <= |tr.run| && Unused(tr, B) && Unused(tr, C)
    ensures Begun(tr.acts, A) == 0 && Proposals(tr.acts, A) >= 2
    ensures Built(tr.acts, Round(A, 1, 0), B) == Built(tr.acts, Round(A, 1, 0), C) == 0
    ensures var n := Last(tr).nodes;
            && Plain(n[A], 1, Shared()) && n[A].role.Leader? && n[A].next.Keys == {B, C} && n[A].next[B] == n[A].next[C] == 1
            && n[B] == Voted(FRESH_NODE, A, 1) && n[C] == FRESH_NODE
  {
    hide IsTrace, Books, Last;
    var round := Round(A, 1, 0);
    var r1 := Crowned(limit);
    assert Begun(r1.acts, A) == 0 && Built(r1.acts, round, B) == Built(r1.acts, round, C) == 0;
    hide Unused;
    tr := ProposeMany(ALL, r1, A, STALE, MAX_ENTRIES - 1, limit);
    BooksFact(r1, tr, MAX_ENTRIES - 1, round, 0, B, 0, 0);
    assert Last(tr).nodes[A].log == Shared();
  }

  lemma FirstTerm(limit: nat) returns (tr: Trace)
    requires limit > 0
    ensures IsTrace(ALL, tr, limit) && Idle(Last(tr)) && |tr.acts| <= |tr.run| && Unused(tr, B) && Unused(tr, C)
    ensures var n := Last(tr).nodes;
            && Plain(n[A], 1, Stale()) && Plain(n[B], 1, Shared()) && Plain(n[C], 1, Shared())
            && !n[B].role.Leader? && !n[C].role.Leader?
  {
    hide IsTrace, Books, Unused, Last;
    var round := Round(A, 1, 0);
    var r2 := Opening(limit);
    var r3 := Sync(ALL, r2, A, B, limit);
    BooksFact(r2, r3, 0, round, 1, B, 1, 0);
    var r4 := Sync(ALL, r3, A, C, limit);
    BooksFact(r3, r4, 0, round, 1, C, 1, 0);
    tr := ProposeMany(ALL, r4, A, STALE, 2, limit);
    BooksFact(r4, tr, 2, round, 0, B, 0, 0);
    assert Last(tr).nodes[A].log == Stale();
  }

  lemma SecondTerm(limit: nat) returns (tr: Trace)
    requires limit > 0
    ensures IsTrace(ALL, tr, limit) && Idle(Last(tr)) && |tr.acts| <= |tr.run| && Unused(tr, B)
    ensures var n := Last(tr).nodes;
            && Plain(n[A], 1, Stale()) && Plain(n[B], 2, Second()) && Plain(n[C], 2, Second())
            && !n[B].role.Leader?
  {
    hide IsTrace, Last, Books;
    var r0 := FirstTerm(limit);
    assert |Last(r0).nodes| == |Last(r0).nodes.Keys| == 3;
    var round := Round(C, 2, 0);
    assert Begun(r0.acts, C) == 0 && Built(r0.acts, round, B) == 0;
    hide Unused;
    var r1 := Elect(ALL, r0, C, B, limit);
    BooksFact(r0, r1, 0, round, 0, B, 0, 0);
    var r2 := ProposeMany(ALL, r1, C, FRESH, 1, limit);
    BooksFact(r1, r2, 1, round, 0, B, 0, 0);
    assert Last(r2).nodes[C].log == Second();
    tr := Sync(ALL, r2, C, B, limit);
    BooksFact(r2, tr, 0, round, 1, B, 1, 0);
  }

  /** The snapshot of B's first round in term 3, and of those it begins once it has committed its no-op. */
  function Early(): Round { Round(B, 3, 0) }
  function Late(): Round { Round(B, 3, |Third()|) }

  /** B wins term 3; its first round reaches C, and not A. */
  lemma ThirdTerm(limit: nat) returns (tr: Trace)
    requires limit > 0
    ensures IsTrace(ALL, tr, limit) && Idle(Last(tr)) && |tr.acts| <= |tr.run|
    ensures Begun(tr.acts, B) == 1 && Opened(tr.run, tr.acts, Late()) == 0 && Built(tr.acts, Late(), A) == 0
    ensures Opened(tr.run, tr.acts, Early()) == Built(tr.acts, Early(), A) == Built(tr.acts, Early(), C) == 1
    ensures Ended(tr.acts, Early()) == 0 && Early() in Last(tr).rounds
    ensures var n := Last(tr).nodes;
            && Plain(n[A], 1, Stale()) && Plain(n[B], 3, Third()) && n[B].role.Leader?
            && n[B].next.Keys == n[B].matched.Keys == {A, C}
            && n[B].next[A] == |Third()| && n[B].matched[C] == |Third()|
  {
    hide IsTrace, Last, RulesOf, Shared, Books;
    var r0 := SecondTerm(limit);
    assert |Last(r0).nodes| == |Last(r0).nodes.Keys| == 3;
    assert Begun(r0.acts, B) == 0 && Ended(r0.acts, Early()) == 0 && Opened(r0.run, r0.acts, Early()) == 0;
    assert Built(r0.acts, Early(), A) == Built(r0.acts, Early(), C) == Built(r0.acts, Late(), A) == 0;
    assert Opened(r0.run, r0.acts, Late()) == 0 && Early() != Late();
    hide Unused;
    assert ALL - {B} == {A, C};
    var r1 := Elect(ALL, r0, B, C, limit);
    BooksFact(r0, r1, 0, Early(), 0, C, 0, 0);
    assert Last(r1).nodes[B].log == Third();
    var r2 := Sync(ALL, r1, B, C, limit);
    BooksFact(r1, r2, 0, Early(), 1, C, 1, 0);
    tr := Unheard(ALL, r2, Early(), A, limit);
    BooksFact(r2, tr, 0, Early(), 0, A, 1, 0);
  }

  /** That round ends and commits the no-op. Then the clients' commands arrive. */
  lemma Clients(limit: nat) returns (tr: Trace)
    requires limit > 0
    ensures IsTrace(ALL, tr, limit) && Idle(Last(tr)) && |tr.acts| <= |tr.run|
    ensures Plain(Last(tr).nodes[A], 1, Stale()) && Leading(Last(tr).nodes[B], |Third()|) && Spent(tr, 0)
  {
    hide IsTrace, Last, RulesOf, Shared, Books;
    var r2 := ThirdTerm(limit);
    var s := Last(r2).nodes[B];
    assert C in Replicas(s, {A, C}, |Third()|);
    assert |Replicas(s, {A, C}, |Third()|)| >= 1;
    assert Committable(s, {A, C}, |Third()|);
    assert ALL - {B} == {A, C};
    var r3 := Commit(ALL, r2, Early(), limit);
    BooksFact(r2, r3, 0, Early(), 0, A, 0, 1);
    assert Third()[0..|Third()|] == Third();
    tr := ProposeMany(ALL, r3, B, FRESH, MANY + 1, limit);
    BooksFact(r3, tr, MANY + 1, Late(), 0, A, 0, 0);
  }

  // ------------------------------------------------------ 66 calls at once

  /** B's log once the clients' commands have been appended. */
  function Fourth(): seq<Entry> { Third() + seq(MANY + 1, _ => Of(3, FRESH)) }

  /** B's request to A as long as nothing has failed. */
  function Probe(): AppendReq {
    AppendReq(B, A, AppendArgs(3, |Second()|, 2, |Third()|, Fourth()[|Second()|..|Second()| + MAX_ENTRIES]))
  }

  function Calls(k: nat): map<nat, AppendReq> {
    if k == 0 then map[] else Calls(k - 1)[k - 1 := Probe()]
  }

  lemma {:induction false} CallCount(k: nat)
    ensures (forall i: nat :: i in Calls(k) <==> i < k) && |Calls(k).Keys| == k
  {
    if k > 0 {
      CallCount(k - 1);
      assert Calls(k).Keys == Calls(k - 1).Keys + {k - 1};
    }
  }

  ghost predicate Leading(s: Node, next: nat) {
    && s.term == 3 && s.role.Leader? && s.log == Fourth() && s.commit == |Third()|
    && s.rules == RulesOf(Third()) && A in s.next && s.next[A] == next
  }

  /** `used` of the clients' rounds have begun and built their request to A. */
  ghost predicate Spent(tr: Trace, used: nat)
    requires |tr.acts| <= |tr.run|
  {
    && Begun(tr.acts, B) == 1 + used && Proposals(tr.acts, B) >= MANY + 1
    && Opened(tr.run, tr.acts, Late()) == Built(tr.acts, Late(), A) == used
  }

  /** B's open calls, its next index for A, and A itself. */
  ghost predicate Waiting(tr: Trace, used: nat, calls: nat, next: nat, a: Node) {
    && |tr.acts| <= |tr.run| && Spent(tr, used)
    && var c := Last(tr);
       && c.nodes.Keys == ALL && c.open == Calls(calls) && Leading(c.nodes[B], next) && c.nodes[A] == a
       && (calls > 0 ==> Probe() in c.sent)
  }

  lemma ProbeBuilt(s: Node)
    requires Leading(s, |Third()|)
    ensures BuildAppend(s, A, |Third()|) == Probe().args
  {
    hide RulesOf, Shared;
    SharedLength();
    assert Fourth()[|Second()| - 1] == Second()[|Second()| - 1];
  }

  lemma SharedLength()
    ensures |Shared()| == MAX_ENTRIES
  {
  }

  /** One more client begins its round and builds its request to A. */
  lemma BuildOne(tr: Trace, k: nat, a: Node) returns (tr': Trace)
    requires IsTrace(ALL, tr, MANY) && k < MANY && Waiting(tr, k, k, |Third()|, a)
    ensures IsTrace(ALL, tr', MANY) && Waiting(tr', k + 1, k + 1, |Third()|, a)
  {
    hide IsTrace, Last, Next, Enabled, RulesOf, Probe, BuildAppend, Third, Fourth, Calls, Books, Built, Begun, Opened, Proposals;
    CallCount(k);
    CallCount(k + 1);
    OneMoreCall(k + 1);
    assert |Third()| > 0 by { Lengths(); }
    assert Snapshot(Last(tr), B) == Late();
    ProbeBuilt(Last(tr).nodes[B]);
    assert Calls(k).Keys + {k} == Calls(k + 1).Keys;
    tr' := OpenAndBuild(ALL, tr, B, A, k, MANY);
    BooksFact(tr, tr', 0, Late(), 1, A, 1, 0);
  }

  lemma {:induction false} BuildMany(tr: Trace, k: nat, a: Node) returns (tr': Trace)
    requires IsTrace(ALL, tr, MANY) && k <= MANY && Waiting(tr, 0, 0, |Third()|, a)
    ensures IsTrace(ALL, tr', MANY) && Waiting(tr', k, k, |Third()|, a)
    decreases k
  {
    hide IsTrace, Waiting;
    if k == 0 {
      tr' := tr;
    } else {
      var r := BuildMany(tr, k - 1, a);
      tr' := BuildOne(r, k - 1, a);
    }
  }

  lemma OneMoreCall(k: nat)
    requires k > 0
    ensures Calls(k) == Calls(k - 1)[k - 1 := Probe()] && Calls(k) - {k - 1} == Calls(k - 1)
    ensures k - 1 in Calls(k) && Calls(k)[k - 1] == Probe()
    ensures Probe().leader == B && Probe().peer == A
  {
    CallCount(k - 1);
  }

  // ------------------------------------------------------------- rejections

  function Rejected(): AppendRep { AppendRep(Probe(), AppendResult(3, false, 0)) }

  /** A after the first rejection: one entry shorter, and unchanged by every later one. */
  ghost predicate Shortened(a: Node) {
    a.term == 3 && a.log == Stale()[..|Stale()| - 1] && a.commit == 0 && a.applied == 0 && a.rules == []
    && a.role.Follower? && a.leader == B && a.hasLeader
  }

  lemma FirstRejection(a: Node)
    requires Plain(a, 1, Stale())
    ensures var (a', result) := OnAppendEntries(a, B, Probe().args); Shortened(a') && result == Rejected().result
  {
    hide Merge, RulesOf;
  }

  lemma LaterRejection(a: Node)
    requires Shortened(a)
    ensures OnAppendEntries(a, B, Probe().args) == (a, Rejected().result)
  {
    hide Merge, RulesOf;
  }

  lemma StepBack(s: Node, next: nat)
    requires Leading(s, next) && next > 1
    ensures Leading(OnAppendResult(s, A, Probe().args, Rejected().result), next - 1)
  {
    hide RulesOf;
  }

  /** One call is delivered, rejected and closed. */
  lemma RejectOne(tr: Trace, used: nat, k: nat, next: nat, a: Node, a': Node) returns (tr': Trace)
    requires IsTrace(ALL, tr, MANY) && 0 < k <= MANY && next > 1 && Waiting(tr, used, k, next, a)
    requires OnAppendEntries(a, B, Probe().args) == (a', Rejected().result)
    ensures IsTrace(ALL, tr', MANY) && Waiting(tr', used, k - 1, next - 1, a')
  {
    hide IsTrace, Last, Next, Enabled, RulesOf, Third, Calls, Leading, OnAppendEntries, OnAppendResult, Books;
    TraceRun(ALL, tr, MANY);
    CallCount(k);
    CallCount(k - 1);
    OneMoreCall(k);
    AppendStep(Last(tr), Probe());
    var r := Take(ALL, tr, HandleAppend(Probe()), MANY);
    BooksOfStep(tr, r, HandleAppend(Probe()), Late(), A);
    BooksFact(tr, r, 0, Late(), 0, A, 0, 0);
    LeadingHasNext(Last(tr).nodes[B], next);
    CloseStep(Last(r), k - 1, Rejected());
    StepBack(Last(tr).nodes[B], next);
    tr' := Take(ALL, r, CloseCall(k - 1, Rejected()), MANY);
    BooksOfStep(r, tr', CloseCall(k - 1, Rejected()), Late(), A);
    BooksFact(r, tr', 0, Late(), 0, A, 0, 0);
  }

  lemma LeadingHasNext(s: Node, next: nat)
    requires Leading(s, next)
    ensures A in s.next
  {
  }

  lemma {:induction false} RejectMany(tr: Trace, used: nat, k: nat, next: nat, a: Node) returns (tr': Trace)
    requires IsTrace(ALL, tr, MANY) && k <= MANY && next > k && Waiting(tr, used, k, next, a) && Shortened(a)
    ensures IsTrace(ALL, tr', MANY) && Waiting(tr', used, 0, next - k, a)
    decreases k
  {
    hide IsTrace, Waiting, Shortened, OnAppendEntries;
    if k == 0 {
      tr' := tr;
    } else {
      LaterRejection(a);
      var r := RejectOne(tr, used, k, next, a, a);
      tr' := RejectMany(r, used, k - 1, next - 1, a);
    }
  }

  // --------------------------------------------------------- the wrong commit

  lemma {:induction false} MergeSame(log: seq<Entry>, idx: nat, entries: seq<Entry>)
    requires idx + |entries| <= |log| && forall i :: 0 <= i < |entries| ==> log[idx + i].term == entries[i].term
    ensures Merge(log, idx, entries) == log
    decreases |entries|
  {
    if entries != [] { MergeSame(log, idx + 1, entries[1..]); }
  }

  /** The request after 66 steps back: all of the shared entries and none after them. */
  lemma LastRequest(s: Node)
    requires Leading(s, 1)
    ensures BuildAppend(s, A, |Third()|) == AppendArgs(3, 0, 0, |Third()|, Shared())
  {
    assert Fourth()[0..MAX_ENTRIES] == Shared();
  }

  /** A accepts it and commits its whole log, one entry more than it was sent. */
  lemma WrongCommit(a: Node)
    requires Shortened(a)
    ensures var a' := OnAppendEntries(a, B, AppendArgs(3, 0, 0, |Third()|, Shared())).0;
            a'.log == a.log && a'.commit == a'.applied == |a.log| && a'.rules == RulesOf(a.log)
  {
    hide Merge, RulesOf;
    MergeSame(a.log, 0, Shared());
    assert a.log[0..|a.log|] == a.log;
  }

  lemma {:induction false} RulesOfMany(k: nat)
    ensures RulesOf(seq(k, _ => Of(1, STALE))) == seq(k, _ => STALE)
    decreases k
  {
    if k > 0 {
      var s := seq(k, _ => Of(1, STALE));
      assert s[..k - 1] == seq(k - 1, _ => Of(1, STALE));
      RulesOfMany(k - 1);
    }
  }

  lemma RulesDiffer()
    ensures var a, b := RulesOf(Stale()[..|Stale()| - 1]), RulesOf(Third()); !(a <= b) && !(b <= a)
  {
    var k := MAX_ENTRIES - 1;
    var shared := RulesOf(Shared());
    RulesConcat([Noop(1)], seq(k, _ => Of(1, STALE)));
    RulesOfMany(k);
    assert RulesOf([Noop(1)]) == [];
    assert shared == seq(k, _ => STALE);
    assert Stale()[..|Stale()| - 1] == Shared() + [Of(1, STALE)];
    RulesConcat(Shared(), [Of(1, STALE)]);
    RulesConcat(Shared(), [Noop(2), Of(2, FRESH), Noop(3)]);
    assert Third() == Shared() + [Noop(2), Of(2, FRESH), Noop(3)];
    TailRules();
    assert RulesOf(Third())[k] == FRESH;
    assert RulesOf(Stale()[..|Stale()| - 1])[k] == STALE;
  }

  lemma OneRule(e: Entry)
    ensures RulesOf([e]) == if e.noop then [] else AddRuleTo([], e.command)
  {
    assert [e][..0] == [];
  }

  lemma TailRules()
    ensures RulesOf([Of(1, STALE)]) == [STALE] && RulesOf([Noop(2), Of(2, FRESH), Noop(3)]) == [FRESH]
  {
    OneRule(Of(1, STALE));
    OneRule(Noop(2));
    OneRule(Of(2, FRESH));
    OneRule(Noop(3));
    RulesConcat([Noop(2)], [Of(2, FRESH)]);
    RulesConcat([Noop(2)] + [Of(2, FRESH)], [Noop(3)]);
    assert [Noop(2)] + [Of(2, FRESH)] + [Noop(3)] == [Noop(2), Of(2, FRESH), Noop(3)];
  }

  /** A run of the program with SAFE_CALLS + 1 open calls in which A and B apply different rules. */
  lemma OneCallTooMany() returns (tr: Trace)
    ensures IsTrace(ALL, tr, MANY) && !RulesAgree(tr.run)
  {
    hide IsTrace, Next, Enabled, RulesOf, OnAppendEntries, BuildAppend, Third, Fourth, Stale, Probe, Shared, Spent;
    var r0 := Clients(MANY);
    var a0 := Last(r0).nodes[A];
    CallCount(0);
    assert Calls(0) == map[];
    var r2 := BuildMany(r0, MANY, a0);
    FirstRejection(a0);
    var a1 := OnAppendEntries(a0, B, Probe().args).0;
    assert |Third()| == MANY + 1 by { Lengths(); }
    var r3 := RejectOne(r2, MANY, MANY, MANY + 1, a0, a1);
    var r4 := RejectMany(r3, MANY, MANY - 1, MANY, a1);
    tr := FinalStep(r4, a1);
    RulesDiffer();
    assert At(tr.run, |tr.run| - 1, A) && At(tr.run, |tr.run| - 1, B);
  }

  lemma Lengths()
    ensures |Third()| == MANY + 1 && |Second()| == MANY
  {
  }

  /** The last client's round. */
  lemma FinalStep(tr: Trace, a: Node) returns (tr': Trace)
    requires IsTrace(ALL, tr, MANY) && Waiting(tr, MANY, 0, 1, a) && Shortened(a)
    ensures IsTrace(ALL, tr', MANY) && tr'.run != [] && A in Last(tr').nodes && B in Last(tr').nodes
    ensures Last(tr').nodes[A].rules == RulesOf(Stale()[..|Stale()| - 1]) && Last(tr').nodes[B].rules == RulesOf(Third())
  {
    hide IsTrace, Next, Enabled, RulesOf, OnAppendEntries, BuildAppend, Third, Fourth, Stale, Probe, Shared, Books;
    CallCount(0);
    LastRequest(Last(tr).nodes[B]);
    assert Snapshot(Last(tr), B) == Late();
    assert Last(tr).open.Keys + {0} == {0};
    var r := OpenAndBuild(ALL, tr, B, A, 0, MANY);
    TraceRun(ALL, r, MANY);
    var req := AppendReq(B, A, AppendArgs(3, 0, 0, |Third()|, Shared()));
    AppendStep(Last(r), req);
    WrongCommit(a);
    assert Last(r).open.Keys == {0};
    tr' := Take(ALL, r, HandleAppend(req), MANY);
  }

  /** Exactly how much concurrency the commit rule of line 510 tolerates, over all runs and over the program's runs. */
  lemma SafeIffFewCalls(limit: nat)
    ensures limit <= SAFE_CALLS <==> forall ids, run :: IsRunWithin(ids, run, limit) ==> RulesAgree(run)
    ensures limit <= SAFE_CALLS <==> forall ids, tr :: IsTrace(ids, tr, limit) ==> RulesAgree(tr.run)
  {
    hide IsRun, RulesAgree, StepOk;
    if limit <= SAFE_CALLS {
      forall ids, run | IsRunWithin(ids, run, limit) ensures RulesAgree(run) {
        StateMachineSafety(ids, run, limit);
      }
    } else {
      var tr := OneCallTooMany();
      assert IsRunWithin(ALL, tr.run, limit);
      assert IsTrace(ALL, tr, limit);
    }
  }
}
