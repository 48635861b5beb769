/**
  What every interleaving of the multi-producer multi-consumer ring keeps, and why the ring
  needs at least two cells.
 */
module MpmcSafety {
  import opened Modular
  import opened Mpmc

  lemma InitialHolds<T>(n: nat, junk: T, tids: set<Tid>)
    requires n >= 2
    ensures Inv(Initial(n, junk, tids), n)
  {
    var r := Initial(n, junk, tids);
    forall i | 0 <= i < n ensures CellOk(r, i) { assert Slot(i, n) == i; }
  }

  lemma NextKeeps<T>(r: Ring<T>, n: nat, a: Action<T>)
    requires Inv(r, n) && Enabled(r, a)
    ensures Inv(Next(r, a), n)
  {
    hide CellsOk, HistoriesOk, Slot;
    match a {
      case StartPush(t, v) => QuietStep(r, n, t, PushAt(v, r.enqueue));
      case StartPop(t) => QuietStep(r, n, t, PopAt(r.dequeue));
      case Spurious(t) =>
        if r.threads[t].PushCas? {
          QuietStep(r, n, t, PushAt(r.threads[t].value, r.enqueue));
        } else {
          QuietStep(r, n, t, PopAt(r.dequeue));
        }
      case Go(t) => AdvanceKeeps(r, n, t);
    }
  }

  lemma AdvanceKeeps<T>(r: Ring<T>, n: nat, t: Tid)
    requires Inv(r, n) && t in r.threads && !r.threads[t].Idle?
    ensures Inv(Advance(r, t), n)
  {
    hide CellsOk, HistoriesOk, ThreadsOk, Slot;
    match r.threads[t] {
      case PushAt(_, _) => PushLoad(r, n, t);
      case PushCas(v, pos) => if r.enqueue == pos { ClaimPush(r, n, t); } else { QuietStep(r, n, t, PushAt(v, r.enqueue)); }
      case PushReload(v, _) => QuietStep(r, n, t, PushAt(v, r.enqueue));
      case PushWrite(_, _) => WriteStep(r, n, t);
      case PushPublish(_, _) => WriteStep(r, n, t);
      case PopAt(_) => PopLoad(r, n, t);
      case PopCas(pos) => if r.dequeue == pos { ClaimPop(r, n, t); } else { QuietStep(r, n, t, PopAt(r.dequeue)); }
      case PopReload(_) => QuietStep(r, n, t, PopAt(r.dequeue));
      case PopRead(_) => ReadStep(r, n, t);
      case PopRelease(_, _) => ReadStep(r, n, t);
    }
  }

  ghost predicate StepTo<T(!new)>(r: Ring<T>, r': Ring<T>) {
    exists a :: Enabled(r, a) && r' == Next(r, a)
  }

  /** A run: any interleaving of any number of threads' atomic steps, from the freshly built ring. */
  ghost predicate IsRun<T(!new)>(n: nat, junk: T, tids: set<Tid>, run: seq<Ring<T>>) {
    && run != [] && run[0] == Initial(n, junk, tids)
    && forall i :: 0 < i < |run| ==> StepTo(run[i - 1], run[i])
  }

  lemma {:induction false} RunHolds<T(!new)>(n: nat, junk: T, tids: set<Tid>, run: seq<Ring<T>>, i: nat)
    requires n >= 2 && IsRun(n, junk, tids, run) && i < |run|
    ensures Inv(run[i], n)
    decreases i
  {
    hide Inv, Enabled, Next;
    if i == 0 {
      InitialHolds(n, junk, tids);
    } else {
      RunHolds(n, junk, tids, run, i - 1);
      assert StepTo(run[i - 1], run[i]);
      var a :| Enabled(run[i - 1], a) && run[i] == Next(run[i - 1], a);
      NextKeeps(run[i - 1], n, a);
    }
  }

  lemma {:induction false} HistoriesGrow<T(!new)>(n: nat, junk: T, tids: set<Tid>, run: seq<Ring<T>>, i: nat, j: nat)
    requires IsRun(n, junk, tids, run) && i <= j < |run|
    ensures run[i].claims <= run[j].claims && run[i].takes <= run[j].takes
    decreases j - i
  {
    hide Next, Enabled;
    if i < j {
      HistoriesGrow(n, junk, tids, run, i, j - 1);
      assert StepTo(run[j - 1], run[j]);
      var a :| Enabled(run[j - 1], a) && run[j] == Next(run[j - 1], a);
      HistoryGrows(run[j - 1], a);
    }
  }

  lemma HistoryGrows<T>(r: Ring<T>, a: Action<T>)
    requires Enabled(r, a)
    ensures r.claims <= Next(r, a).claims && r.takes <= Next(r, a).takes
  {
    hide Slot;
  }

  /**
    Over the whole run a position has one producer, with one value, and at most one consumer, who gets that value,
    whenever the threads hold it.
   */
  lemma OnePerPosition<T(!new)>(n: nat, junk: T, tids: set<Tid>, run: seq<Ring<T>>, i: nat, j: nat, t: Tid, u: Tid, p: nat)
    requires n >= 2 && IsRun(n, junk, tids, run) && i < |run| && j < |run|
    ensures Producing(run[i], t, p) && Producing(run[j], u, p) ==> t == u && run[i].threads[t].value == run[j].threads[u].value
    ensures Consuming(run[i], t, p) && Consuming(run[j], u, p) ==> t == u
    ensures Producing(run[i], t, p) && Consuming(run[j], u, p) && run[j].threads[u].PopRelease? ==>
              run[j].threads[u].out == run[i].threads[t].value
  {
    hide IsRun, CellOk, HistoryOk, Slot;
    RunHolds(n, junk, tids, run, i);
    RunHolds(n, junk, tids, run, j);
    if i <= j { HistoriesGrow(n, junk, tids, run, i, j); } else { HistoriesGrow(n, junk, tids, run, j, i); }
    if t in run[i].threads { assert ThreadOk(run[i], t); }
    if u in run[j].threads { assert ThreadOk(run[j], u); }
  }

  /**
    Exactly-once delivery: what each thread pushed is what it claimed, in order; what each thread
    popped is what was claimed at the positions it took, in order; at most `n` claims are not taken.
   */
  lemma ExactlyOnce<T(!new)>(n: nat, junk: T, tids: set<Tid>, run: seq<Ring<T>>, i: nat, t: Tid)
    requires n >= 2 && IsRun(n, junk, tids, run) && i < |run| && t in run[i].threads
    ensures var r := run[i];
            && |r.takes| <= |r.claims| <= |r.takes| + n
            && t in r.pushed && t in r.popped
            && PushedBy(r.claims, t) == r.pushed[t] + PushingNow(r.threads[t])
            && TakenBy(r.takes, r.claims, t) == r.popped[t] + PoppingNow(r.threads[t], r.claims)
  {
    hide IsRun, PushedBy, TakenBy;
    RunHolds(n, junk, tids, run, i);
    var r := run[i];
    assert HistoryOk(r, t);
    SlotRange(r.dequeue, n);
    assert CellOk(r, Slot(r.dequeue, n));
    SequenceSays(r, n, r.dequeue);
  }

  lemma NeverOverfull<T(!new)>(n: nat, junk: T, tids: set<Tid>, run: seq<Ring<T>>)
    requires n >= 2 && IsRun(n, junk, tids, run)
    ensures run != [] && run[|run| - 1].enqueue <= run[|run| - 1].dequeue + n
  {
    hide HistoryOk, ThreadOk;
    RunHolds(n, junk, tids, run, |run| - 1);
    var r := run[|run| - 1];
    SlotRange(r.dequeue, n);
    assert CellOk(r, Slot(r.dequeue, n));
    SequenceSays(r, n, r.dequeue);
  }

  lemma NonEmptyRun<T(!new)>(n: nat, junk: T, tids: set<Tid>, run: seq<Ring<T>>)
    requires IsRun(n, junk, tids, run)
    ensures run != []
  {
  }

  function Values<T>(claims: seq<Claim<T>>): seq<T> {
    seq(|claims|, i requires 0 <= i < |claims| => claims[i].value)
  }

  lemma {:induction false} AllByOne<T>(takes: seq<Tid>, claims: seq<Claim<T>>, p: Tid, c: Tid)
    requires |takes| <= |claims| && (forall k :: 0 <= k < |takes| ==> takes[k] == c)
    requires forall k :: 0 <= k < |claims| ==> claims[k].thread == p
    ensures TakenBy(takes, claims, c) == Values(claims)[..|takes|]
    decreases |takes|
  {
    if takes != [] {
      var k := |takes| - 1;
      AllByOne(takes[..k], claims, p, c);
      assert Values(claims)[..k + 1] == Values(claims)[..k] + [claims[k].value];
    }
  }

  lemma {:induction false} PushedByOne<T>(claims: seq<Claim<T>>, p: Tid)
    requires forall k :: 0 <= k < |claims| ==> claims[k].thread == p
    ensures PushedBy(claims, p) == Values(claims)
    decreases |claims|
  {
    if claims != [] {
      var k := |claims| - 1;
      PushedByOne(claims[..k], p);
      assert Values(claims) == Values(claims[..k]) + [claims[k].value];
    }
  }

  /** With one producer and one consumer between calls, what came out is a prefix of what went in. */
  lemma OneToOneIsFifo<T(!new)>(n: nat, junk: T, tids: set<Tid>, run: seq<Ring<T>>, i: nat, p: Tid, c: Tid)
    requires n >= 2 && IsRun(n, junk, tids, run) && i < |run| && p in run[i].threads && c in run[i].threads
    requires run[i].threads[p].Idle? && run[i].threads[c].Idle?
    requires forall k :: 0 <= k < |run[i].claims| ==> run[i].claims[k].thread == p
    requires forall k :: 0 <= k < |run[i].takes| ==> run[i].takes[k] == c
    ensures p in run[i].pushed && c in run[i].popped && run[i].popped[c] <= run[i].pushed[p]
    ensures |run[i].pushed[p]| <= |run[i].popped[c]| + n
  {
    hide IsRun, PushedBy, TakenBy;
    var r := run[i];
    ExactlyOnce(n, junk, tids, run, i, p);
    ExactlyOnce(n, junk, tids, run, i, c);
    AllByOne(r.takes, r.claims, p, c);
    PushedByOne(r.claims, p);
    assert r.popped[c] == r.popped[c] + [] == Values(r.claims)[..|r.takes|];
    assert r.pushed[p] == r.pushed[p] + [] == Values(r.claims);
  }

  /** No two threads are ever at the data of one cell, so no value is torn. */
  lemma DataIsExclusive<T(!new)>(n: nat, junk: T, tids: set<Tid>, run: seq<Ring<T>>, i: nat, t: Tid, u: Tid)
    requires n >= 2 && IsRun(n, junk, tids, run) && i < |run|
    requires t in run[i].threads && u in run[i].threads && t != u
    requires Claiming(run[i].threads[t]) && Claiming(run[i].threads[u])
    ensures Slot(run[i].threads[t].pos, n) != Slot(run[i].threads[u].pos, n)
  {
    hide IsRun, HistoryOk, CellOk;
    RunHolds(n, junk, tids, run, i);
    var r := run[i];
    assert ThreadOk(r, t) && ThreadOk(r, u);
    NextSlot(r.threads[t].pos, n);
    NextSlot(r.threads[u].pos, n);
    hide Slot;
  }

  // -------------------------------------------------- refusals and progress

  /** Position `p` is claimed and its cell not yet handed on to position `p + n`. */
  predicate InUse<T>(r: Ring<T>, p: nat) {
    p < r.enqueue && (p >= r.dequeue || (p < |r.takes| && Consuming(r, r.takes[p], p)))
  }

  predicate Published<T>(r: Ring<T>, p: nat) {
    p < r.enqueue && p < |r.claims| && !Producing(r, r.claims[p].thread, p)
  }

  /** `push` gives up at its sequence load exactly when its position is the next one and is still occupied. */
  lemma PushRefusedIffFull<T(!new)>(n: nat, junk: T, tids: set<Tid>, run: seq<Ring<T>>, i: nat, t: Tid)
    requires n >= 2 && IsRun(n, junk, tids, run) && i < |run| && t in run[i].threads && run[i].threads[t].PushAt?
    ensures var r, pos := run[i], run[i].threads[t].pos;
            && WellFormed(r) && |r.cells| == n
            && (Advance(r, t).threads[t].Idle? <==> pos == r.enqueue && n <= pos && InUse(r, pos - n))
  {
    hide IsRun, HistoryOk;
    RunHolds(n, junk, tids, run, i);
    var r, pos := run[i], run[i].threads[t].pos;
    assert ThreadOk(r, t);
    SlotRange(pos, n);
    assert CellOk(r, Slot(pos, n));
    SequenceSays(r, n, pos);
    if n <= pos && pos - n < r.dequeue {
      var q := pos - n;
      LapSlot(q, n);
      var u := r.takes[q];
      if Consuming(r, u, q) { assert ThreadOk(r, u); }
    }
    hide Slot;
  }

  /** `pop` gives up at its sequence load exactly when its position is the next one and is not published. */
  lemma PopRefusedIffEmpty<T(!new)>(n: nat, junk: T, tids: set<Tid>, run: seq<Ring<T>>, i: nat, t: Tid)
    requires n >= 2 && IsRun(n, junk, tids, run) && i < |run| && t in run[i].threads && run[i].threads[t].PopAt?
    ensures var r, pos := run[i], run[i].threads[t].pos;
            && WellFormed(r) && |r.cells| == n
            && (Advance(r, t).threads[t].Idle? <==> pos == r.dequeue && !Published(r, pos))
  {
    hide IsRun, HistoryOk;
    RunHolds(n, junk, tids, run, i);
    var r, pos := run[i], run[i].threads[t].pos;
    assert ThreadOk(r, t);
    SlotRange(pos, n);
    assert CellOk(r, Slot(pos, n));
    SequenceSays(r, n, pos);
    if pos < r.enqueue {
      var u := r.claims[pos].thread;
      if Producing(r, u, pos) { assert ThreadOk(r, u); }
    }
    hide Slot;
  }

  /** A retry that is not a spurious failure finds the cursor further on: some other thread succeeded. */
  lemma RetryMeansProgress<T(!new)>(n: nat, junk: T, tids: set<Tid>, run: seq<Ring<T>>, i: nat, t: Tid)
    requires n >= 2 && IsRun(n, junk, tids, run) && i < |run| && t in run[i].threads
    requires run[i].threads[t].PushCas? || run[i].threads[t].PushReload? || run[i].threads[t].PopCas? || run[i].threads[t].PopReload?
    ensures WellFormed(run[i])
    ensures var s, s' := run[i].threads[t], Advance(run[i], t).threads[t];
            s'.PushAt? || s'.PopAt? ==> s'.pos > s.pos
  {
    hide IsRun, HistoryOk, CellOk, Slot;
    RunHolds(n, junk, tids, run, i);
    assert ThreadOk(run[i], t);
  }

  // --------------------------------------------------------- completion

  lemma OneMoreStep<T(!new)>(n: nat, junk: T, tids: set<Tid>, run: seq<Ring<T>>, a: Action<T>) returns (run': seq<Ring<T>>)
    requires IsRun(n, junk, tids, run) && Enabled(run[|run| - 1], a)
    ensures IsRun(n, junk, tids, run') && run' == run + [Next(run[|run| - 1], a)]
  {
    hide Next, Enabled;
    run' := run + [Next(run[|run| - 1], a)];
    assert StepTo(run[|run| - 1], run'[|run|]);
    forall i | 0 < i < |run'| ensures StepTo(run'[i - 1], run'[i]) {
      if i < |run| { assert StepTo(run[i - 1], run[i]); }
    }
  }

  /** Nobody but `t` has moved. */
  ghost predicate OnlyThread<T>(r: Ring<T>, r': Ring<T>, t: Tid) {
    && r'.threads.Keys == r.threads.Keys && r'.pushed.Keys == r.pushed.Keys && r'.popped.Keys == r.popped.Keys
    && forall u :: u in r.threads && u != t ==> r'.threads[u] == r.threads[u]
  }

  /** The position `push` would take is still occupied. */
  ghost predicate IsFull<T>(r: Ring<T>, n: nat) { n <= r.enqueue && InUse(r, r.enqueue - n) }

  /** The claimed position is written and published. */
  lemma Published3<T>(r: Ring<T>, t: Tid, v: T)
    requires WellFormed(r) && t in r.threads && r.threads[t] == PushCas(v, r.enqueue)
    ensures var r1 := Advance(r, t);
            && WellFormed(r1) && t in r1.threads && r1.threads[t] == PushWrite(v, r.enqueue)
            && var r2 := Advance(r1, t);
               && WellFormed(r2) && t in r2.threads && r2.threads[t] == PushPublish(v, r.enqueue)
               && var r3 := Advance(r2, t);
                  && t in r3.threads && r3.threads[t].Idle? && r3.pushed == r.pushed[t := r.pushed[t] + [v]] && r3.popped == r.popped
                  && r3.claims == r.claims + [Claim(t, v)] && r3.takes == r.takes && OnlyThread(r, r3, t)
  {
    hide Slot;
    SlotRange(r.enqueue, |r.cells|);
  }

  /** The first two steps decide. */
  lemma PushDecides<T(!new)>(n: nat, junk: T, tids: set<Tid>, run: seq<Ring<T>>, t: Tid, v: T) returns (run': seq<Ring<T>>)
    requires n >= 2 && IsRun(n, junk, tids, run)
    requires t in run[|run| - 1].threads && run[|run| - 1].threads[t].Idle? && WellFormed(run[|run| - 1])
    ensures IsRun(n, junk, tids, run') && run <= run' && |run'| == |run| + 2
    ensures var r, r' := run[|run| - 1], run'[|run'| - 1];
            WellFormed(r') && r' == Become(r, t, if IsFull(r, n) then Idle else PushCas(v, r.enqueue))
  {
    hide StepTo, Inv, Advance, InUse;
    var r := run[|run| - 1];
    var r1 := OneMoreStep(n, junk, tids, run, StartPush(t, v));
    var c1 := r1[|run|];
    RunHolds(n, junk, tids, r1, |run|);
    PushRefusedIffFull(n, junk, tids, r1, |run|, t);
    NextPushLoad(r, n, t, v);
    if n <= r.enqueue { SameUse(r, t, PushAt(v, r.enqueue), r.enqueue - n); }
    run' := OneMoreStep(n, junk, tids, r1, Go(t));
  }

  lemma CellFact<T>(r: Ring<T>, n: nat, pos: nat)
    requires Inv(r, n)
    ensures Shape(r, n) && Slot(pos, n) < n && CellOk(r, Slot(pos, n))
  {
    hide ThreadsOk, HistoriesOk, CellOk;
    SlotRange(pos, n);
  }

  /** Loading the sequence of the next position never leads to a retry. */
  lemma NextPushLoad<T>(r: Ring<T>, n: nat, t: Tid, v: T)
    requires WellFormed(r) && t in r.threads && r.threads[t].Idle? && Inv(Become(r, t, PushAt(v, r.enqueue)), n)
    ensures var c := Become(r, t, PushAt(v, r.enqueue));
            && WellFormed(c) && WellFormed(Advance(c, t))
            && Advance(c, t) == Become(r, t, if Advance(c, t).threads[t].Idle? then Idle else PushCas(v, r.enqueue))
  {
    hide Inv;
    var c := Become(r, t, PushAt(v, r.enqueue));
    CellFact(c, n, r.enqueue);
    SequenceSays(c, n, r.enqueue);
    hide Slot;
    assert c.threads[t := Advance(c, t).threads[t]] == r.threads[t := Advance(c, t).threads[t]];
  }

  lemma SameUse<T>(r: Ring<T>, t: Tid, s: Thread<T>, p: nat)
    requires t in r.threads && !Claiming(r.threads[t]) && !Claiming(s)
    ensures InUse(Become(r, t, s), p) <==> InUse(r, p)
    ensures Published(Become(r, t, s), p) <==> Published(r, p)
  {
  }

  lemma PushFinishes<T(!new)>(n: nat, junk: T, tids: set<Tid>, run: seq<Ring<T>>, t: Tid, v: T) returns (run': seq<Ring<T>>)
    requires IsRun(n, junk, tids, run) && WellFormed(run[|run| - 1]) && t in run[|run| - 1].threads
    requires run[|run| - 1].threads[t] == PushCas(v, run[|run| - 1].enqueue)
    ensures IsRun(n, junk, tids, run') && run <= run' && |run'| == |run| + 3
    ensures var r, r' := run[|run| - 1], run'[|run'| - 1];
            && OnlyThread(r, r', t) && r'.threads[t].Idle? && r'.popped == r.popped && r'.takes == r.takes
            && r'.pushed == r.pushed[t := r.pushed[t] + [v]] && r'.claims == r.claims + [Claim(t, v)]
  {
    hide StepTo, Advance;
    Published3(run[|run| - 1], t, v);
    var r3 := OneMoreStep(n, junk, tids, run, Go(t));
    var r4 := OneMoreStep(n, junk, tids, r3, Go(t));
    run' := OneMoreStep(n, junk, tids, r4, Go(t));
  }

  /**
    From any state of any run, a `push` that is left alone returns: refused in two steps if the ring is full, and
    otherwise in five with its value claimed and published.
   */
  lemma PushCompletes<T(!new)>(n: nat, junk: T, tids: set<Tid>, run: seq<Ring<T>>, t: Tid, v: T) returns (run': seq<Ring<T>>)
    requires n >= 2 && IsRun(n, junk, tids, run)
    requires t in run[|run| - 1].threads && run[|run| - 1].threads[t].Idle? && WellFormed(run[|run| - 1])
    ensures IsRun(n, junk, tids, run') && run <= run'
    ensures var r, r' := run[|run| - 1], run'[|run'| - 1];
            && OnlyThread(r, r', t) && r'.threads[t].Idle? && r'.popped == r.popped && r'.takes == r.takes
            && if IsFull(r, n) then |run'| == |run| + 2 && r'.pushed == r.pushed && r'.claims == r.claims
               else |run'| == |run| + 5 && r'.pushed == r.pushed[t := r.pushed[t] + [v]] && r'.claims == r.claims + [Claim(t, v)]
  {
    hide StepTo, IsFull;
    run' := PushDecides(n, junk, tids, run, t, v);
    if !IsFull(run[|run| - 1], n) { run' := PushFinishes(n, junk, tids, run', t, v); }
  }

  /** The claimed position is read and released. */
  lemma Released3<T>(r: Ring<T>, t: Tid)
    requires WellFormed(r) && t in r.threads && r.threads[t] == PopCas(r.dequeue)
    ensures var out := CellOf(r, r.dequeue).data;
            var r1 := Advance(r, t);
            && WellFormed(r1) && t in r1.threads && r1.threads[t] == PopRead(r.dequeue)
            && var r2 := Advance(r1, t);
               && WellFormed(r2) && t in r2.threads && r2.threads[t] == PopRelease(r.dequeue, out)
               && var r3 := Advance(r2, t);
                  && t in r3.threads && r3.threads[t].Idle? && r3.popped == r.popped[t := r.popped[t] + [out]] && r3.pushed == r.pushed
                  && r3.takes == r.takes + [t] && r3.claims == r.claims && OnlyThread(r, r3, t)
  {
    hide Slot;
    SlotRange(r.dequeue, |r.cells|);
  }

  lemma PopDecides<T(!new)>(n: nat, junk: T, tids: set<Tid>, run: seq<Ring<T>>, t: Tid) returns (run': seq<Ring<T>>)
    requires n >= 2 && IsRun(n, junk, tids, run)
    requires t in run[|run| - 1].threads && run[|run| - 1].threads[t].Idle? && WellFormed(run[|run| - 1])
    ensures IsRun(n, junk, tids, run') && run <= run' && |run'| == |run| + 2
    ensures var r, r' := run[|run| - 1], run'[|run'| - 1];
            && WellFormed(r') && r' == Become(r, t, if Published(r, r.dequeue) then PopCas(r.dequeue) else Idle)
            && (Published(r, r.dequeue) ==> r.dequeue < |r.claims| && CellOf(r, r.dequeue).data == r.claims[r.dequeue].value)
  {
    hide StepTo, Inv, Advance, Published;
    var r := run[|run| - 1];
    var r1 := OneMoreStep(n, junk, tids, run, StartPop(t));
    var c1 := r1[|run|];
    RunHolds(n, junk, tids, r1, |run|);
    PopRefusedIffEmpty(n, junk, tids, r1, |run|, t);
    NextPopLoad(r, n, t);
    SameUse(r, t, PopAt(r.dequeue), r.dequeue);
    run' := OneMoreStep(n, junk, tids, r1, Go(t));
    if Published(r, r.dequeue) { HeadHolds(c1, n); }
  }

  lemma NextPopLoad<T>(r: Ring<T>, n: nat, t: Tid)
    requires WellFormed(r) && t in r.threads && r.threads[t].Idle? && Inv(Become(r, t, PopAt(r.dequeue)), n)
    ensures var c := Become(r, t, PopAt(r.dequeue));
            && WellFormed(c) && WellFormed(Advance(c, t))
            && Advance(c, t) == Become(r, t, if Advance(c, t).threads[t].Idle? then Idle else PopCas(r.dequeue))
            && (!Advance(c, t).threads[t].Idle? ==> CellOf(c, r.dequeue).sequence == r.dequeue + 1)
  {
    hide Inv;
    var c := Become(r, t, PopAt(r.dequeue));
    CellFact(c, n, r.dequeue);
    SequenceSays(c, n, r.dequeue);
    hide Slot;
    assert c.threads[t := Advance(c, t).threads[t]] == r.threads[t := Advance(c, t).threads[t]];
  }

  /** The cell of a published next position holds its value. */
  lemma HeadHolds<T>(r: Ring<T>, n: nat)
    requires Inv(r, n) && CellOf(r, r.dequeue).sequence == r.dequeue + 1
    ensures r.dequeue < |r.claims| && CellOf(r, r.dequeue).data == r.claims[r.dequeue].value
  {
    hide HistoriesOk, ThreadsOk;
    SlotRange(r.dequeue, n);
    assert CellOk(r, Slot(r.dequeue, n));
    SequenceSays(r, n, r.dequeue);
  }

  lemma PopFinishes<T(!new)>(n: nat, junk: T, tids: set<Tid>, run: seq<Ring<T>>, t: Tid) returns (run': seq<Ring<T>>)
    requires IsRun(n, junk, tids, run) && WellFormed(run[|run| - 1]) && t in run[|run| - 1].threads
    requires run[|run| - 1].threads[t] == PopCas(run[|run| - 1].dequeue)
    ensures IsRun(n, junk, tids, run') && run <= run' && |run'| == |run| + 3
    ensures var r, r' := run[|run| - 1], run'[|run'| - 1];
            && OnlyThread(r, r', t) && r'.threads[t].Idle? && r'.pushed == r.pushed && r'.claims == r.claims
            && r'.takes == r.takes + [t] && r'.popped == r.popped[t := r.popped[t] + [CellOf(r, r.dequeue).data]]
  {
    hide StepTo, Advance;
    Released3(run[|run| - 1], t);
    var r3 := OneMoreStep(n, junk, tids, run, Go(t));
    var r4 := OneMoreStep(n, junk, tids, r3, Go(t));
    run' := OneMoreStep(n, junk, tids, r4, Go(t));
  }

  /** Likewise for `pop`: refused in two steps if the next position is not published, and otherwise its value in five. */
  lemma PopCompletes<T(!new)>(n: nat, junk: T, tids: set<Tid>, run: seq<Ring<T>>, t: Tid) returns (run': seq<Ring<T>>)
    requires n >= 2 && IsRun(n, junk, tids, run)
    requires t in run[|run| - 1].threads && run[|run| - 1].threads[t].Idle? && WellFormed(run[|run| - 1])
    ensures IsRun(n, junk, tids, run') && run <= run'
    ensures var r, r' := run[|run| - 1], run'[|run'| - 1];
            && OnlyThread(r, r', t) && r'.threads[t].Idle? && r'.pushed == r.pushed && r'.claims == r.claims
            && if !Published(r, r.dequeue) then |run'| == |run| + 2 && r'.popped == r.popped && r'.takes == r.takes
               else && |run'| == |run| + 5 && r.dequeue < |r.claims| && r'.takes == r.takes + [t]
                    && r'.popped == r.popped[t := r.popped[t] + [r.claims[r.dequeue].value]]
  {
    hide StepTo, Published;
    run' := PopDecides(n, junk, tids, run, t);
    if Published(run[|run| - 1], run[|run| - 1].dequeue) { run' := PopFinishes(n, junk, tids, run', t); }
  }

  // ------------------------------------------------------- a single cell

  /** A ring of one cell that only thread 0 has pushed to. */
  function OneCell(sequence: nat, data: nat, thread: Thread<nat>, claims: seq<Claim<nat>>, pushed: seq<nat>): Ring<nat> {
    Ring([Cell(sequence, data)], |claims|, 0, map[0 := thread], claims, [], [0], map[0 := pushed], map[0 := []])
  }

  /** One whole push into a cell whose sequence is the position it is meant for. */
  lemma OneCellPush(data: nat, claims: seq<Claim<nat>>, pushed: seq<nat>, v: nat)
    ensures var k := |claims|;
            var r0 := OneCell(k, data, Idle, claims, pushed);
            var claims' := claims + [Claim(0, v)];
            && Enabled(r0, StartPush(0, v)) && Next(r0, StartPush(0, v)) == OneCell(k, data, PushAt(v, k), claims, pushed)
            && Advance(OneCell(k, data, PushAt(v, k), claims, pushed), 0) == OneCell(k, data, PushCas(v, k), claims, pushed)
            && Advance(OneCell(k, data, PushCas(v, k), claims, pushed), 0) == OneCell(k, data, PushWrite(v, k), claims', pushed)
            && Advance(OneCell(k, data, PushWrite(v, k), claims', pushed), 0) == OneCell(k, v, PushPublish(v, k), claims', pushed)
            && Advance(OneCell(k, v, PushPublish(v, k), claims', pushed), 0)
               == OneCell(k + 1, v, Idle, claims', pushed + [v])
  {
    assert Slot(|claims|, 1) == 0;
    hide Slot;
  }

  lemma PushOnce(run: seq<Ring<nat>>, data: nat, claims: seq<Claim<nat>>, pushed: seq<nat>, v: nat) returns (run': seq<Ring<nat>>)
    requires IsRun(1, 0, {0}, run) && run[|run| - 1] == OneCell(|claims|, data, Idle, claims, pushed)
    ensures IsRun(1, 0, {0}, run') && run' != []
    ensures run'[|run'| - 1] == OneCell(|claims| + 1, v, Idle, claims + [Claim(0, v)], pushed + [v])
  {
    hide IsRun, Advance;
    OneCellPush(data, claims, pushed, v);
    var r1 := OneMoreStep(1, 0, {0}, run, StartPush(0, v));
    var r2 := OneMoreStep(1, 0, {0}, r1, Go(0));
    var r3 := OneMoreStep(1, 0, {0}, r2, Go(0));
    var r4 := OneMoreStep(1, 0, {0}, r3, Go(0));
    run' := OneMoreStep(1, 0, {0}, r4, Go(0));
  }

  /** With one cell, a second push is accepted and overwrites a value nobody has popped. */
  lemma OneCellOverwrites() returns (run: seq<Ring<nat>>)
    ensures IsRun(1, 0, {0}, run) && run != []
    ensures var r := run[|run| - 1];
            && r.enqueue == 2 && r.dequeue == 0 && r.pushed == map[0 := [7, 8]] && |r.cells| == 1 && r.cells[0].data == 8
  {
    hide StepTo;
    var r0 := [Initial(1, 0 as nat, {0})];
    assert r0[0] == OneCell(0, 0, Idle, [], []);
    var r1 := PushOnce(r0, 0, [], [], 7);
    assert [] + [Claim(0, 7)] == [Claim(0, 7)] && [] + [7 as nat] == [7];
    run := PushOnce(r1, 7, [Claim(0, 7)], [7], 8);
    assert [7, 8 as nat] == [7] + [8];
  }

  /** At the end of the run, no more than `n` accepted values are waiting. */
  predicate Within<T>(run: seq<Ring<T>>, n: nat) {
    run != [] && run[|run| - 1].enqueue <= run[|run| - 1].dequeue + n
  }

  /** The ring never accepts more than its capacity exactly when the capacity is at least two. */
  lemma BoundedIffTwoCells(n: nat)
    requires n > 0
    ensures n >= 2 <==> forall run: seq<Ring<nat>>, tids :: IsRun(n, 0, tids, run) ==> Within(run, n)
  {
    hide IsRun;
    if n >= 2 {
      forall run: seq<Ring<nat>>, tids | IsRun(n, 0, tids, run)
        ensures Within(run, n)
      {
        NeverOverfull(n, 0, tids, run);
      }
    } else {
      var run := OneCellOverwrites();
      NonEmptyRun(n, 0 as nat, {0}, run);
    }
  }
}
