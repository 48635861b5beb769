/**
  The bounded multi-producer multi-consumer ring (`LockFreeRingBuffer`, AnimusCore_v1/animus.hpp:386-432),
  as the interleaving of its atomic steps: every load, compare-exchange, data access and
  store of every thread is one step, on sequentially consistent memory.

  Positions are unbounded here; the source's 64-bit signed difference is the true one for positions
  less than 2^63 apart (`LoadIsExact`).
 */
module Mpmc {
  import opened Modular

  type Tid = nat

  datatype Cell<T> = Cell(sequence: nat, data: T)

  /** Where a thread stands in `push` or `pop`; `pos` is the local variable of that name. */
  datatype Thread<T> =
    | Idle
    | PushAt(value: T, pos: nat)                // about to load the cell's sequence
    | PushCas(value: T, pos: nat)               // the sequence was `pos`: about to claim the position
    | PushReload(value: T, pos: nat)            // the sequence was ahead: about to reload the cursor
    | PushWrite(value: T, pos: nat)             // claimed: about to write the data
    | PushPublish(value: T, pos: nat)           // written: about to store the sequence
    | PopAt(pos: nat)
    | PopCas(pos: nat)
    | PopReload(pos: nat)
    | PopRead(pos: nat)
    | PopRelease(pos: nat, out: T)

  datatype Claim<T> = Claim(thread: Tid, value: T)

  /**
    `cells`, `enqueue`, `dequeue` and `threads` are the program's state. The rest is history, which no
    step reads: who claimed each position with which value, who took each position, which position
    each cell serves, and what each thread has pushed and popped so far.
   */
  datatype Ring<T> = Ring(
    cells: seq<Cell<T>>, enqueue: nat, dequeue: nat, threads: map<Tid, Thread<T>>,
    claims: seq<Claim<T>>, takes: seq<Tid>, laps: seq<nat>,
    pushed: map<Tid, seq<T>>, popped: map<Tid, seq<T>>)

  datatype Action<T> =
    | StartPush(t: Tid, value: T)
    | StartPop(t: Tid)
    | Go(t: Tid)        // the thread's next atomic step
    | Spurious(t: Tid)  // a weak compare-exchange that fails although the cursor matched

  function Initial<T>(capacity: nat, junk: T, tids: set<Tid>): Ring<T> {
    Ring(seq(capacity, i requires 0 <= i => Cell(i, junk)), 0, 0, map t | t in tids :: Idle,
         [], [], seq(capacity, i requires 0 <= i => i), map t | t in tids :: [], map t | t in tids :: [])
  }

  predicate WellFormed<T>(r: Ring<T>) {
    && |r.cells| > 0 && |r.laps| == |r.cells|
    && r.pushed.Keys == r.threads.Keys && r.popped.Keys == r.threads.Keys
  }

  function CellOf<T>(r: Ring<T>, pos: nat): Cell<T>
    requires |r.cells| > 0
  {
    r.cells[Slot(pos, |r.cells|)]
  }

  predicate Enabled<T(==)>(r: Ring<T>, a: Action<T>) {
    && WellFormed(r) && a.t in r.threads
    && match a
       case StartPush(t, _) => r.threads[t].Idle?
       case StartPop(t) => r.threads[t].Idle?
       case Go(t) => !r.threads[t].Idle?
       case Spurious(t) => r.threads[t].PushCas? || r.threads[t].PopCas?
  }

  function Become<T>(r: Ring<T>, t: Tid, s: Thread<T>): Ring<T> {
    r.(threads := r.threads[t := s])
  }

  /** The outcome of loading a sequence in `push`: claim, give up (full) or retry. */
  function AfterPushLoad<T>(sequence: nat, value: T, pos: nat): Thread<T> {
    if sequence == pos then PushCas(value, pos)
    else if sequence < pos then Idle
    else PushReload(value, pos)
  }

  function AfterPopLoad<T>(sequence: nat, pos: nat): Thread<T> {
    if sequence == pos + 1 then PopCas(pos)
    else if sequence < pos + 1 then Idle
    else PopReload(pos)
  }

  /** The source's `diff`: both numbers in a word, their difference read as a signed word. */
  function SignedDifference(a: nat, b: nat): int {
    var d := (a % WORD + WORD - b % WORD) % WORD;
    if d < WORD / 2 then d else d - WORD
  }

  /** The three-way test on `diff` is the test on the true numbers. */
  lemma LoadIsExact<T>(sequence: nat, value: T, pos: nat)
    requires sequence < pos + WORD / 2 && pos < sequence + WORD / 2
    ensures var diff := SignedDifference(sequence, pos);
            AfterPushLoad(sequence, value, pos)
            == if diff == 0 then PushCas(value, pos) else if diff < 0 then Idle else PushReload(value, pos)
  {
    if pos <= sequence { WrappedDifference(sequence, pos); } else { WrappedDifference(pos, sequence); }
  }

  function Put<T>(r: Ring<T>, pos: nat, cell: Cell<T>): Ring<T>
    requires |r.cells| > 0
  {
    r.(cells := r.cells[Slot(pos, |r.cells|) := cell])
  }

  function Advance<T>(r: Ring<T>, t: Tid): Ring<T>
    requires WellFormed(r) && t in r.threads && !r.threads[t].Idle?
  {
    match r.threads[t]
    case PushAt(v, pos) => Become(r, t, AfterPushLoad(CellOf(r, pos).sequence, v, pos))
    case PushCas(v, pos) =>
      if r.enqueue == pos
      then Become(r.(enqueue := pos + 1, claims := r.claims + [Claim(t, v)]), t, PushWrite(v, pos))
      else Become(r, t, PushAt(v, r.enqueue))
    case PushReload(v, _) => Become(r, t, PushAt(v, r.enqueue))
    case PushWrite(v, pos) => Become(Put(r, pos, CellOf(r, pos).(data := v)), t, PushPublish(v, pos))
    case PushPublish(v, pos) =>
      Become(Put(r, pos, CellOf(r, pos).(sequence := pos + 1)), t, Idle).(pushed := r.pushed[t := r.pushed[t] + [v]])
    case PopAt(pos) => Become(r, t, AfterPopLoad(CellOf(r, pos).sequence, pos))
    case PopCas(pos) =>
      if r.dequeue == pos
      then Become(r.(dequeue := pos + 1, takes := r.takes + [t]), t, PopRead(pos))
      else Become(r, t, PopAt(r.dequeue))
    case PopReload(_) => Become(r, t, PopAt(r.dequeue))
    case PopRead(pos) => Become(r, t, PopRelease(pos, CellOf(r, pos).data))
    case PopRelease(pos, out) =>
      Become(Put(r, pos, CellOf(r, pos).(sequence := pos + |r.cells|)), t, Idle)
        .(popped := r.popped[t := r.popped[t] + [out]], laps := r.laps[Slot(pos, |r.cells|) := pos + |r.cells|])
  }

  function Next<T>(r: Ring<T>, a: Action<T>): Ring<T>
    requires Enabled(r, a)
  {
    match a
    case StartPush(t, v) => Become(r, t, PushAt(v, r.enqueue))
    case StartPop(t) => Become(r, t, PopAt(r.dequeue))
    case Go(t) => Advance(r, t)
    case Spurious(t) =>
      match r.threads[t] {
        case PushCas(v, pos) => Become(r, t, PushAt(v, r.enqueue))
        case _ => Become(r, t, PopAt(r.dequeue))
      }
  }

  // ------------------------------------------------------------- invariant

  /** `t` has claimed position `p` as a producer and not yet published it. */
  predicate Producing<T>(r: Ring<T>, t: Tid, p: nat) {
    t in r.threads && (r.threads[t].PushWrite? || r.threads[t].PushPublish?) && r.threads[t].pos == p
  }

  /** `t` has claimed position `p` as a consumer and not yet released its cell. */
  predicate Consuming<T>(r: Ring<T>, t: Tid, p: nat) {
    t in r.threads && (r.threads[t].PopRead? || r.threads[t].PopRelease?) && r.threads[t].pos == p
  }

  /**
    Cell `i` serves one position `p` at a time: it is free or being written (sequence `p`), or
    published and perhaps being read (sequence `p + 1`).
   */
  ghost predicate CellOk<T>(r: Ring<T>, i: nat)
    requires WellFormed(r) && i < |r.cells| && |r.claims| == r.enqueue && |r.takes| == r.dequeue
  {
    var n, p, cell := |r.cells|, r.laps[i], r.cells[i];
    && Slot(p, n) == i && r.enqueue <= p + n && p < r.dequeue + n
    && if cell.sequence == p then
         p >= r.dequeue && (p < r.enqueue ==> Producing(r, r.claims[p].thread, p))
       else
         && cell.sequence == p + 1
         && p < r.enqueue && cell.data == r.claims[p].value
         && (p < r.dequeue ==> Consuming(r, r.takes[p], p))
  }

  ghost predicate ThreadOk<T>(r: Ring<T>, t: Tid)
    requires WellFormed(r) && t in r.threads && |r.claims| == r.enqueue && |r.takes| == r.dequeue
  {
    match r.threads[t]
    case Idle => true
    case PushAt(_, pos) => pos <= r.enqueue
    case PushCas(_, pos) => pos <= r.enqueue && (pos == r.enqueue ==> CellOf(r, pos).sequence == pos)
    case PushReload(_, pos) => pos < r.enqueue
    case PushWrite(v, pos) => pos < r.enqueue && r.claims[pos] == Claim(t, v) && CellOf(r, pos).sequence == pos
    case PushPublish(v, pos) =>
      pos < r.enqueue && r.claims[pos] == Claim(t, v) && CellOf(r, pos) == Cell(pos, v)
    case PopAt(pos) => pos <= r.dequeue
    case PopCas(pos) => pos <= r.dequeue && (pos == r.dequeue ==> CellOf(r, pos).sequence == pos + 1)
    case PopReload(pos) => pos < r.dequeue
    case PopRead(pos) => pos < r.dequeue && r.takes[pos] == t && CellOf(r, pos).sequence == pos + 1
    case PopRelease(pos, out) =>
      && pos < r.dequeue && r.takes[pos] == t && CellOf(r, pos).sequence == pos + 1
      && pos < r.enqueue && out == r.claims[pos].value
  }

  /** The values of `t`'s claims, in position order. */
  function PushedBy<T>(claims: seq<Claim<T>>, t: Tid): seq<T> {
    if claims == [] then []
    else
      var last := claims[|claims| - 1];
      PushedBy(claims[..|claims| - 1], t) + if last.thread == t then [last.value] else []
  }

  /** The values at the positions `t` took, in position order. */
  function TakenBy<T>(takes: seq<Tid>, claims: seq<Claim<T>>, t: Tid): seq<T>
    requires |takes| <= |claims|
  {
    if takes == [] then []
    else
      var k := |takes| - 1;
      TakenBy(takes[..k], claims, t) + if takes[k] == t then [claims[k].value] else []
  }

  /** What `t` has claimed and not finished pushing. */
  function PushingNow<T>(s: Thread<T>): seq<T> {
    if s.PushWrite? || s.PushPublish? then [s.value] else []
  }

  function PoppingNow<T>(s: Thread<T>, claims: seq<Claim<T>>): seq<T> {
    if (s.PopRead? || s.PopRelease?) && s.pos < |claims| then [claims[s.pos].value] else []
  }

  /** Nothing `t` pushed or popped is lost, duplicated, altered or out of order. */
  ghost predicate HistoryOk<T>(r: Ring<T>, t: Tid)
    requires WellFormed(r) && t in r.threads && |r.takes| <= |r.claims|
  {
    && PushedBy(r.claims, t) == r.pushed[t] + PushingNow(r.threads[t])
    && TakenBy(r.takes, r.claims, t) == r.popped[t] + PoppingNow(r.threads[t], r.claims)
  }

  ghost predicate Shape<T>(r: Ring<T>, capacity: nat) {
    && WellFormed(r) && |r.cells| == capacity >= 2
    && |r.claims| == r.enqueue && |r.takes| == r.dequeue && r.dequeue <= r.enqueue
  }

  ghost predicate CellsOk<T>(r: Ring<T>)
    requires WellFormed(r) && |r.claims| == r.enqueue && |r.takes| == r.dequeue
  {
    forall i :: 0 <= i < |r.cells| ==> CellOk(r, i)
  }

  ghost predicate ThreadsOk<T>(r: Ring<T>)
    requires WellFormed(r) && |r.claims| == r.enqueue && |r.takes| == r.dequeue
  {
    forall t :: t in r.threads ==> ThreadOk(r, t)
  }

  ghost predicate HistoriesOk<T>(r: Ring<T>)
    requires WellFormed(r) && |r.takes| <= |r.claims|
  {
    forall t :: t in r.threads ==> HistoryOk(r, t)
  }

  ghost predicate Inv<T>(r: Ring<T>, capacity: nat) {
    Shape(r, capacity) && CellsOk(r) && ThreadsOk(r) && HistoriesOk(r)
  }

  /** What a sequence number says about the position it was loaded for. */
  lemma SequenceSays<T>(r: Ring<T>, n: nat, pos: nat)
    requires Shape(r, n) && CellOk(r, Slot(pos, n))
    ensures var p, s := r.laps[Slot(pos, n)], CellOf(r, pos).sequence;
            && (s == pos ==> p == pos && s == p)
            && (s == pos + 1 ==> p == pos && s == p + 1)
            && (s < pos ==> p + n <= pos)
            && (s > pos + 1 ==> pos + n <= p)
            && (p == pos || p + n <= pos || pos + n <= p)
  {
    var p := r.laps[Slot(pos, n)];
    NextSlot(p, n);
    if p < pos { SameSlot(p, pos, n); }
    if pos < p { SameSlot(pos, p, n); }
  }

  // ---------------------------------------------------------- step by step

  predicate Claiming<T>(s: Thread<T>) {
    s.PushWrite? || s.PushPublish? || s.PopRead? || s.PopRelease?
  }

  lemma QuietCell<T>(r: Ring<T>, n: nat, t: Tid, s: Thread<T>, i: nat)
    requires Shape(r, n) && t in r.threads && !Claiming(r.threads[t]) && i < n && CellOk(r, i)
    ensures CellOk(Become(r, t, s), i)
  {
    hide Slot;
  }

  lemma QuietThread<T>(r: Ring<T>, n: nat, t: Tid, s: Thread<T>, u: Tid)
    requires Shape(r, n) && t in r.threads && u in r.threads && u != t && ThreadOk(r, u)
    ensures ThreadOk(Become(r, t, s), u)
  {
    hide Slot;
  }

  lemma QuietHistory<T>(r: Ring<T>, n: nat, t: Tid, s: Thread<T>, u: Tid)
    requires Shape(r, n) && t in r.threads && !Claiming(r.threads[t]) && !Claiming(s) && u in r.threads && HistoryOk(r, u)
    ensures HistoryOk(Become(r, t, s), u)
  {
    hide PushedBy, TakenBy;
  }

  /** A thread that holds no position before or after the step, and touches nothing shared. */
  lemma QuietStep<T>(r: Ring<T>, n: nat, t: Tid, s: Thread<T>)
    requires Inv(r, n) && t in r.threads && !Claiming(r.threads[t]) && !Claiming(s)
    requires ThreadOk(Become(r, t, s), t)
    ensures Inv(Become(r, t, s), n)
  {
    hide CellOk, ThreadOk, HistoryOk;
    var r' := Become(r, t, s);
    forall i | 0 <= i < n ensures CellOk(r', i) { QuietCell(r, n, t, s, i); }
    forall u | u in r'.threads ensures ThreadOk(r', u) { if u != t { QuietThread(r, n, t, s, u); } }
    forall u | u in r'.threads ensures HistoryOk(r', u) { QuietHistory(r, n, t, s, u); }
  }

  lemma PushLoad<T>(r: Ring<T>, n: nat, t: Tid)
    requires Inv(r, n) && t in r.threads && r.threads[t].PushAt?
    ensures Inv(Advance(r, t), n)
  {
    hide Slot, HistoriesOk;
    var pos, v := r.threads[t].pos, r.threads[t].value;
    SlotRange(pos, n);
    assert CellOk(r, Slot(pos, n)) && ThreadOk(r, t);
    SequenceSays(r, n, pos);
    hide CellsOk, ThreadsOk;
    QuietStep(r, n, t, AfterPushLoad(CellOf(r, pos).sequence, v, pos));
  }

  lemma PopLoad<T>(r: Ring<T>, n: nat, t: Tid)
    requires Inv(r, n) && t in r.threads && r.threads[t].PopAt?
    ensures Inv(Advance(r, t), n)
  {
    hide Slot, HistoriesOk;
    var pos := r.threads[t].pos;
    SlotRange(pos, n);
    assert CellOk(r, Slot(pos, n)) && ThreadOk(r, t);
    SequenceSays(r, n, pos);
    hide CellsOk, ThreadsOk;
    QuietStep(r, n, t, AfterPopLoad(CellOf(r, pos).sequence, pos));
  }

  // Claiming a position to push at.

  lemma ClaimPushCell<T>(r: Ring<T>, n: nat, t: Tid, i: nat)
    requires Shape(r, n) && t in r.threads && r.threads[t].PushCas? && r.threads[t].pos == r.enqueue
    requires CellOf(r, r.enqueue).sequence == r.enqueue && i < n && CellOk(r, i) && CellOk(r, Slot(r.enqueue, n))
    ensures CellOk(Advance(r, t), i)
  {
    SequenceSays(r, n, r.enqueue);
    LapSlot(r.laps[i], n);
    hide Slot;
  }

  lemma ClaimPushThread<T>(r: Ring<T>, n: nat, t: Tid, u: Tid)
    requires Shape(r, n) && t in r.threads && r.threads[t].PushCas? && r.threads[t].pos == r.enqueue
    requires CellOf(r, r.enqueue).sequence == r.enqueue && u in r.threads && ThreadOk(r, u)
    ensures ThreadOk(Advance(r, t), u)
  {
    hide Slot;
  }

  lemma {:induction false} TakenStays<T>(takes: seq<Tid>, claims: seq<Claim<T>>, claims': seq<Claim<T>>, t: Tid)
    requires |takes| <= |claims| && claims <= claims'
    ensures TakenBy(takes, claims', t) == TakenBy(takes, claims, t)
    decreases |takes|
  {
    if takes != [] { TakenStays(takes[..|takes| - 1], claims, claims', t); }
  }

  lemma ClaimPushHistory<T>(r: Ring<T>, n: nat, t: Tid, u: Tid)
    requires Shape(r, n) && t in r.threads && r.threads[t].PushCas? && r.threads[t].pos == r.enqueue
    requires u in r.threads && HistoryOk(r, u) && ThreadOk(r, u)
    ensures HistoryOk(Advance(r, t), u)
  {
    hide Slot;
    var r' := Advance(r, t);
    assert r'.claims[..|r'.claims| - 1] == r.claims;
    TakenStays(r.takes, r.claims, r'.claims, u);
  }

  lemma ClaimPush<T>(r: Ring<T>, n: nat, t: Tid)
    requires Inv(r, n) && t in r.threads && r.threads[t].PushCas? && r.threads[t].pos == r.enqueue
    ensures Inv(Advance(r, t), n)
  {
    SlotRange(r.enqueue, n);
    assert ThreadOk(r, t);
    hide CellOk, ThreadOk, HistoryOk, Slot;
    var r' := Advance(r, t);
    forall i | 0 <= i < n ensures CellOk(r', i) { ClaimPushCell(r, n, t, i); }
    forall u | u in r'.threads ensures ThreadOk(r', u) { ClaimPushThread(r, n, t, u); }
    forall u | u in r'.threads ensures HistoryOk(r', u) { ClaimPushHistory(r, n, t, u); }
  }

  // Writing the data and publishing it.

  lemma WriteCell<T>(r: Ring<T>, n: nat, t: Tid, i: nat)
    requires Shape(r, n) && t in r.threads && (r.threads[t].PushWrite? || r.threads[t].PushPublish?) && ThreadOk(r, t)
    requires i < n && CellOk(r, i) && CellOk(r, Slot(r.threads[t].pos, n))
    ensures CellOk(Advance(r, t), i)
  {
    SequenceSays(r, n, r.threads[t].pos);
    hide Slot;
  }

  /** No other thread relies on the cell while `t` holds it as a producer. */
  lemma WriteThread<T>(r: Ring<T>, n: nat, t: Tid, u: Tid)
    requires Shape(r, n) && t in r.threads && (r.threads[t].PushWrite? || r.threads[t].PushPublish?) && ThreadOk(r, t)
    requires u in r.threads && ThreadOk(r, u) && CellOk(r, Slot(r.threads[t].pos, n))
    ensures ThreadOk(Advance(r, t), u)
  {
    var pos := r.threads[t].pos;
    SequenceSays(r, n, pos);
    if !r.threads[u].Idle? {
      NextSlot(r.threads[u].pos, n);
    }
    hide Slot;
  }

  lemma WriteHistory<T>(r: Ring<T>, n: nat, t: Tid, u: Tid)
    requires Shape(r, n) && t in r.threads && (r.threads[t].PushWrite? || r.threads[t].PushPublish?)
    requires u in r.threads && HistoryOk(r, u)
    ensures HistoryOk(Advance(r, t), u)
  {
    hide Slot, PushedBy, TakenBy;
  }

  lemma WriteStep<T>(r: Ring<T>, n: nat, t: Tid)
    requires Inv(r, n) && t in r.threads && (r.threads[t].PushWrite? || r.threads[t].PushPublish?)
    ensures Inv(Advance(r, t), n)
  {
    SlotRange(r.threads[t].pos, n);
    hide CellOk, ThreadOk, HistoryOk, Slot;
    var r' := Advance(r, t);
    forall i | 0 <= i < n ensures CellOk(r', i) { WriteCell(r, n, t, i); }
    forall u | u in r'.threads ensures ThreadOk(r', u) { WriteThread(r, n, t, u); }
    forall u | u in r'.threads ensures HistoryOk(r', u) { WriteHistory(r, n, t, u); }
  }

  // Claiming a position to pop.

  lemma ClaimPopCell<T>(r: Ring<T>, n: nat, t: Tid, i: nat)
    requires Shape(r, n) && t in r.threads && r.threads[t].PopCas? && r.threads[t].pos == r.dequeue
    requires CellOf(r, r.dequeue).sequence == r.dequeue + 1 && i < n && CellOk(r, i) && CellOk(r, Slot(r.dequeue, n))
    ensures r.dequeue < r.enqueue && CellOk(Advance(r, t), i)
  {
    SequenceSays(r, n, r.dequeue);
    hide Slot;
  }

  lemma ClaimPopThread<T>(r: Ring<T>, n: nat, t: Tid, u: Tid)
    requires Shape(r, n) && t in r.threads && r.threads[t].PopCas? && r.threads[t].pos == r.dequeue
    requires CellOf(r, r.dequeue).sequence == r.dequeue + 1 && u in r.threads && ThreadOk(r, u)
    ensures ThreadOk(Advance(r, t), u)
  {
    hide Slot;
  }

  lemma ClaimPopHistory<T>(r: Ring<T>, n: nat, t: Tid, u: Tid)
    requires Shape(r, n) && t in r.threads && r.threads[t].PopCas? && r.threads[t].pos == r.dequeue < r.enqueue
    requires u in r.threads && HistoryOk(r, u)
    ensures HistoryOk(Advance(r, t), u)
  {
    hide Slot, PushedBy;
    var r' := Advance(r, t);
    assert r'.takes[..|r'.takes| - 1] == r.takes;
  }

  lemma ClaimPop<T>(r: Ring<T>, n: nat, t: Tid)
    requires Inv(r, n) && t in r.threads && r.threads[t].PopCas? && r.threads[t].pos == r.dequeue
    ensures Inv(Advance(r, t), n)
  {
    SlotRange(r.dequeue, n);
    assert ThreadOk(r, t);
    hide CellOk, ThreadOk, HistoryOk, Slot;
    var r' := Advance(r, t);
    ClaimPopCell(r, n, t, 0);
    forall i | 0 <= i < n ensures CellOk(r', i) { ClaimPopCell(r, n, t, i); }
    forall u | u in r'.threads ensures ThreadOk(r', u) { ClaimPopThread(r, n, t, u); }
    forall u | u in r'.threads ensures HistoryOk(r', u) { ClaimPopHistory(r, n, t, u); }
  }

  // Reading the data and releasing the cell.

  lemma ReadCell<T>(r: Ring<T>, n: nat, t: Tid, i: nat)
    requires Shape(r, n) && t in r.threads && (r.threads[t].PopRead? || r.threads[t].PopRelease?) && ThreadOk(r, t)
    requires i < n && CellOk(r, i) && CellOk(r, Slot(r.threads[t].pos, n))
    ensures CellOk(Advance(r, t), i)
  {
    SequenceSays(r, n, r.threads[t].pos);
    LapSlot(r.threads[t].pos, n);
    hide Slot;
  }

  /** No other thread relies on the cell while `t` holds it as a consumer. */
  lemma ReadThread<T>(r: Ring<T>, n: nat, t: Tid, u: Tid)
    requires Shape(r, n) && t in r.threads && (r.threads[t].PopRead? || r.threads[t].PopRelease?) && ThreadOk(r, t)
    requires u in r.threads && ThreadOk(r, u) && CellOk(r, Slot(r.threads[t].pos, n))
    ensures ThreadOk(Advance(r, t), u)
  {
    var pos := r.threads[t].pos;
    SequenceSays(r, n, pos);
    if !r.threads[u].Idle? {
      NextSlot(pos, n);
    }
    hide Slot;
  }

  lemma ReadHistory<T>(r: Ring<T>, n: nat, t: Tid, u: Tid)
    requires Shape(r, n) && t in r.threads && (r.threads[t].PopRead? || r.threads[t].PopRelease?) && ThreadOk(r, t)
    requires u in r.threads && HistoryOk(r, u)
    ensures HistoryOk(Advance(r, t), u)
  {
    hide Slot, PushedBy, TakenBy;
  }

  lemma ReadStep<T>(r: Ring<T>, n: nat, t: Tid)
    requires Inv(r, n) && t in r.threads && (r.threads[t].PopRead? || r.threads[t].PopRelease?)
    ensures Inv(Advance(r, t), n)
  {
    SlotRange(r.threads[t].pos, n);
    hide CellOk, ThreadOk, HistoryOk, Slot;
    var r' := Advance(r, t);
    forall i | 0 <= i < n ensures CellOk(r', i) { ReadCell(r, n, t, i); }
    forall u | u in r'.threads ensures ThreadOk(r', u) { ReadThread(r, n, t, u); }
    forall u | u in r'.threads ensures HistoryOk(r', u) { ReadHistory(r, n, t, u); }
  }
}
