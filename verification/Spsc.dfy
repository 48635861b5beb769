/**
  The single-producer single-consumer ring (`SpscRingBuffer`, AnimusCore_v1/animus.hpp:480-526): how its
  capacity is rounded up, and why it stays a bounded queue when its 64-bit counters wrap.
 */
module Spsc {
  import opened Modular

  // ------------------------------------------------------ powers of two

  function Pow2(k: nat): (p: nat)
    ensures p > 0
  {
    if k == 0 then 1 else 2 * Pow2(k - 1)
  }

  lemma {:induction false} Pow2Sum(a: nat, b: nat)
    ensures Pow2(a + b) == Pow2(a) * Pow2(b)
    decreases a
  {
    if a > 0 {
      Pow2Sum(a - 1, b);
      assert Pow2(a + b) == 2 * Pow2(a - 1 + b) == 2 * (Pow2(a - 1) * Pow2(b));
    }
  }

  lemma WordIsPow2()
    ensures Pow2(63) == WORD / 2 && Pow2(64) == WORD
  {
    assert Pow2(4) == 16 by { assert Pow2(2) == 4; }
    Pow2Sum(4, 4);
    Pow2Sum(8, 8);
    Pow2Sum(16, 16);
    Pow2Sum(32, 32);
  }

  lemma {:induction false} Pow2Grows(a: nat, b: nat)
    requires a < b
    ensures Pow2(a) < Pow2(b)
    decreases b
  {
    if a < b - 1 { Pow2Grows(a, b - 1); }
  }

  /** `round_up_pow2`, whose shift drops the top bit. */
  method RoundUpPow2(v: nat) returns (p: nat, ghost k: nat)
    requires v <= WORD / 2
    ensures p == Pow2(k) && k <= 63 && p >= v
    ensures forall j: nat :: Pow2(j) >= v ==> p <= Pow2(j)
  {
    p, k := 1, 0;
    WordIsPow2();
    while p < v
      invariant p == Pow2(k) && k <= 63 && (k > 0 ==> Pow2(k - 1) < v)
      decreases 63 - k
    {
      Pow2AtMost(k);
      p := p * 2 % WORD;
      k := k + 1;
    }
    forall j: nat | Pow2(j) >= v ensures p <= Pow2(j) {
      if k > 0 && j < k - 1 { Pow2Grows(j, k - 1); }
      if j > k { Pow2Grows(k, j); }
    }
  }

  lemma Pow2AtMost(k: nat)
    ensures k < 63 ==> Pow2(k) * 2 < WORD
  {
    WordIsPow2();
    if k < 63 {
      if k < 62 { Pow2Grows(k + 1, 63); }
    }
  }

  /** The value of the loop variable after `k` shifts, were the loop to go on. */
  function Shifted(k: nat): nat { Pow2(k) % WORD }

  /** The loop ends exactly for requests of at most 2^63; for a larger one the variable shifts to 0 and stays there. */
  lemma RoundUpTerminatesIff(v: nat)
    ensures (exists k: nat :: Shifted(k) >= v) <==> v <= WORD / 2
  {
    WordIsPow2();
    if v <= WORD / 2 { assert Shifted(63) >= v; }
    forall k: nat ensures Shifted(k) <= WORD / 2 {
      if k < 63 { Pow2Grows(k, 63); }
      if k >= 64 {
        Pow2Sum(k - 64, 64);
        RemainderIs(Pow2(k), WORD, Pow2(k - 64), 0);
      }
    }
  }

  // -------------------------------------------------------------- the mask

  /** Bitwise and. */
  function And(x: nat, y: nat): nat {
    if x == 0 || y == 0 then 0
    else 2 * And(x / 2, y / 2) + if x % 2 == 1 && y % 2 == 1 then 1 else 0
  }

  lemma {:induction false} MaskIsSlot(x: nat, k: nat)
    ensures And(x, Pow2(k) - 1) == Slot(x, Pow2(k))
    decreases k
  {
    if k == 0 {
      assert x % 1 == 0;
    } else if x == 0 {
    } else {
      var m := Pow2(k - 1);
      MaskIsSlot(x / 2, k - 1);
      HalfSlot(x, m);
      hide Slot;
      assert (2 * m - 1) / 2 == m - 1 && (2 * m - 1) % 2 == 1;
    }
  }

  lemma HalfSlot(x: nat, m: nat)
    requires m > 0
    ensures Slot(x, 2 * m) == 2 * Slot(x / 2, m) + x % 2
  {
    var q, r := x / 2 / m, x / 2 % m;
    assert x / 2 == m * q + r;
    assert x == 2 * (m * q) + (2 * r + x % 2);
    assert 2 * (m * q) == 2 * m * q;
    RemainderIs(x, 2 * m, q, 2 * r + x % 2);
  }

  lemma {:induction false} Pow2Divides(k: nat, n: nat)
    requires k <= n
    ensures Divides(Pow2(k), Pow2(n))
  {
    Pow2Sum(n - k, k);
    RemainderIs(Pow2(n), Pow2(k), Pow2(n - k), 0);
  }

  /** The cell of a wrapped counter is the cell of the counter that never wraps. */
  lemma IndexIsSlot(pos: nat, k: nat)
    requires k <= 63
    ensures And(pos % WORD, Pow2(k) - 1) == Slot(pos, Pow2(k)) < Pow2(k) < WORD
  {
    WordIsPow2();
    MaskIsSlot(pos % WORD, k);
    Pow2Divides(k, 64);
    SlotOfWord(pos, Pow2(k), WORD);
    SlotRange(pos, Pow2(k));
    Pow2Grows(k, 64);
  }

  // -------------------------------------------------------- interleaving

  /** Where the producer stands in `push`; `head` is its local copy. */
  datatype Producer<T> =
    | Resting
    | GotHead(value: T, head: nat)      // about to load the tail and test for room
    | Writing(value: T, head: nat)      // about to write the cell
    | Publishing(value: T, head: nat)   // about to store the head

  datatype Consumer<T> =
    | Waiting
    | GotTail(tail: nat)
    | Reading(tail: nat)
    | Releasing(tail: nat, out: T)

  /** `sent` and `received` are history: what has been published and released so far. */
  datatype Ring<T> = Ring(cells: seq<T>, head: nat, tail: nat, producer: Producer<T>, consumer: Consumer<T>,
                          sent: seq<T>, received: seq<T>)

  datatype Action<T> = StartPush(value: T) | Produce | StartPop | Consume

  function Index(pos: nat, capacity: nat): nat
    requires capacity > 0
  {
    And(pos, capacity - 1)
  }

  predicate Enabled<T>(r: Ring<T>, a: Action<T>) {
    && |r.cells| > 0
    && match a
       case StartPush(_) => r.producer.Resting?
       case Produce => !r.producer.Resting? && (r.producer.Writing? ==> Index(r.producer.head, |r.cells|) < |r.cells|)
       case StartPop => r.consumer.Waiting?
       case Consume => !r.consumer.Waiting? && (r.consumer.Reading? ==> Index(r.consumer.tail, |r.cells|) < |r.cells|)
  }

  function Next<T>(r: Ring<T>, a: Action<T>): Ring<T>
    requires Enabled(r, a)
  {
    match a
    case StartPush(v) => r.(producer := GotHead(v, r.head))
    case StartPop => r.(consumer := GotTail(r.tail))
    case Produce => (
      match r.producer
      case GotHead(v, head) =>
        r.(producer := if (head + WORD - r.tail % WORD) % WORD >= |r.cells| then Resting else Writing(v, head))
      case Writing(v, head) => r.(cells := r.cells[Index(head, |r.cells|) := v], producer := Publishing(v, head))
      case Publishing(v, head) => r.(head := (head + 1) % WORD, producer := Resting, sent := r.sent + [v])
      case Resting => r)
    case Consume => (
      match r.consumer
      case GotTail(tail) => r.(consumer := if tail == r.head then Waiting else Reading(tail))
      case Reading(tail) => r.(consumer := Releasing(tail, r.cells[Index(tail, |r.cells|)]))
      case Releasing(tail, out) => r.(tail := (tail + 1) % WORD, consumer := Waiting, received := r.received + [out])
      case Waiting => r)
  }

  /** The freshly built ring of capacity 2^k. */
  function Initial<T>(k: nat, junk: T): Ring<T> {
    Ring(seq(Pow2(k), _ => junk), 0, 0, Resting, Waiting, [], [])
  }

  /** The queue the ring stands for. */
  function Contents<T>(r: Ring<T>): seq<T>
    requires |r.received| <= |r.sent|
  {
    r.sent[|r.received|..]
  }

  ghost predicate Shape<T>(r: Ring<T>, k: nat) {
    && k <= 63 && |r.cells| == Pow2(k)
    && r.head == |r.sent| % WORD && r.tail == |r.received| % WORD
    && r.received <= r.sent && |r.sent| <= |r.received| + Pow2(k)
  }

  ghost predicate CellsOk<T>(r: Ring<T>)
    requires |r.cells| > 0
  {
    forall i :: |r.received| <= i < |r.sent| ==> Slot(i, |r.cells|) < |r.cells| && r.cells[Slot(i, |r.cells|)] == r.sent[i]
  }

  ghost predicate ProducerOk<T>(r: Ring<T>)
    requires |r.cells| > 0
  {
    match r.producer
    case Resting => true
    case GotHead(_, head) => head == r.head
    case Writing(_, head) => head == r.head && |r.sent| < |r.received| + |r.cells|
    case Publishing(v, head) =>
      && head == r.head && |r.sent| < |r.received| + |r.cells|
      && Slot(|r.sent|, |r.cells|) < |r.cells| && r.cells[Slot(|r.sent|, |r.cells|)] == v
  }

  ghost predicate ConsumerOk<T>(r: Ring<T>) {
    match r.consumer
    case Waiting => true
    case GotTail(tail) => tail == r.tail
    case Reading(tail) => tail == r.tail && |r.received| < |r.sent|
    case Releasing(tail, out) => tail == r.tail && |r.received| < |r.sent| && out == r.sent[|r.received|]
  }

  ghost predicate Inv<T>(r: Ring<T>, k: nat) {
    Shape(r, k) && CellsOk(r) && ProducerOk(r) && ConsumerOk(r)
  }

  lemma InitialHolds<T>(k: nat, junk: T)
    requires k <= 63
    ensures Inv(Initial(k, junk), k)
  {
  }

  lemma ProduceKeeps<T>(r: Ring<T>, k: nat)
    requires Inv(r, k) && Enabled(r, Produce)
    ensures Inv(Next(r, Produce), k)
  {
    hide And, Pow2, Slot;
    var n, h := Pow2(k), |r.sent|;
    IndexIsSlot(h, k);
    match r.producer {
      case GotHead(v, head) => WrappedDifference(h, |r.received|);
      case Writing(v, head) =>
        forall i | |r.received| <= i < h ensures Slot(i, n) != Slot(h, n) {
          if Slot(i, n) == Slot(h, n) { SameSlot(i, h, n); }
        }
      case Publishing(v, head) => NextWord(h);
      case _ =>
    }
  }

  lemma NextWord(x: nat)
    ensures (x % WORD + 1) % WORD == (x + 1) % WORD
  {
  }

  lemma ConsumeKeeps<T>(r: Ring<T>, k: nat)
    requires Inv(r, k) && Enabled(r, Consume)
    ensures Inv(Next(r, Consume), k)
  {
    hide And, Pow2, Slot;
    IndexIsSlot(|r.received|, k);
    match r.consumer {
      case GotTail(tail) =>
        if tail == r.head { WrappedDifference(|r.sent|, |r.received|); }
      case Releasing(tail, out) => NextWord(|r.received|);
      case _ =>
    }
  }

  lemma NextKeeps<T>(r: Ring<T>, k: nat, a: Action<T>)
    requires Inv(r, k) && Enabled(r, a)
    ensures Inv(Next(r, a), k)
  {
    hide And, Pow2, Slot;
    if a.Produce? {
      ProduceKeeps(r, k);
    } else if a.Consume? {
      ConsumeKeeps(r, k);
    }
  }

  /**
    Refinement to a bounded queue: publishing enqueues into a queue that had room, releasing dequeues the
    oldest, nothing else changes it; a push is refused exactly when the queue is full, a pop exactly when empty.
   */
  lemma StepIsQueueStep<T>(r: Ring<T>, k: nat, a: Action<T>)
    requires Inv(r, k) && Enabled(r, a)
    ensures var r', q := Next(r, a), Contents(r);
            && |r'.received| <= |r'.sent| && |Contents(r')| <= Pow2(k)
            && Contents(r') == (if a.Produce? && r.producer.Publishing? then q + [r.producer.value]
                                else if a.Consume? && r.consumer.Releasing? then q[1..] else q)
            && (a.Produce? && r.producer.Publishing? ==> |q| < Pow2(k))
            && (a.Consume? && r.consumer.Releasing? ==> q != [] && r.consumer.out == q[0])
            && (a.Produce? && r.producer.GotHead? ==> (r'.producer.Resting? <==> |q| == Pow2(k)))
            && (a.Consume? && r.consumer.GotTail? ==> (r'.consumer.Waiting? <==> q == []))
  {
    hide And, Pow2, Slot, CellsOk, ProducerOk, ConsumerOk;
    NextKeeps(r, k, a);
    IndexIsSlot(|r.sent|, k);
    WrappedDifference(|r.sent|, |r.received|);
    StepFacts(r, k, a);
  }

  lemma StepFacts<T>(r: Ring<T>, k: nat, a: Action<T>)
    requires Inv(r, k) && Enabled(r, a)
    ensures a.Produce? && r.producer.Publishing? ==> |r.sent| < |r.received| + Pow2(k)
    ensures a.Produce? && r.producer.GotHead? ==> r.producer.head == r.head
    ensures a.Consume? && r.consumer.GotTail? ==> r.consumer.tail == r.tail
    ensures a.Consume? && r.consumer.Releasing? ==> |r.received| < |r.sent| && r.consumer.out == r.sent[|r.received|]
  {
    hide And, Pow2, Slot;
  }

  ghost predicate StepTo<T(!new)>(r: Ring<T>, r': Ring<T>) {
    exists a :: Enabled(r, a) && r' == Next(r, a)
  }

  ghost predicate IsRun<T(!new)>(k: nat, junk: T, run: seq<Ring<T>>) {
    && run != [] && run[0] == Initial(k, junk)
    && forall i :: 0 < i < |run| ==> StepTo(run[i - 1], run[i])
  }

  /** In every run, however often the counters have wrapped, what came out is a prefix of what went in, at most 2^k behind. */
  lemma {:induction false} QueueForever<T(!new)>(k: nat, junk: T, run: seq<Ring<T>>, i: nat)
    requires k <= 63 && IsRun(k, junk, run) && i < |run|
    ensures Inv(run[i], k) && run[i].received <= run[i].sent && |run[i].sent| <= |run[i].received| + Pow2(k)
    decreases i
  {
    hide Next, Enabled, Inv, Pow2;
    if i == 0 {
      InitialHolds(k, junk);
    } else {
      QueueForever(k, junk, run, i - 1);
      assert StepTo(run[i - 1], run[i]);
      var a :| Enabled(run[i - 1], a) && run[i] == Next(run[i - 1], a);
      NextKeeps(run[i - 1], k, a);
    }
    InvShape(run[i], k);
  }

  lemma InvShape<T>(r: Ring<T>, k: nat)
    requires Inv(r, k)
    ensures r.received <= r.sent && |r.sent| <= |r.received| + Pow2(k)
  {
  }

  // ------------------------------------------------------------- completion

  lemma OneMoreStep<T(!new)>(k: nat, junk: T, run: seq<Ring<T>>, a: Action<T>) returns (run': seq<Ring<T>>)
    requires IsRun(k, junk, run) && Enabled(run[|run| - 1], a)
    ensures IsRun(k, junk, run') && run' == run + [Next(run[|run| - 1], a)]
  {
    hide Next, Enabled;
    run' := run + [Next(run[|run| - 1], a)];
    assert StepTo(run[|run| - 1], run'[|run|]);
    forall i | 0 < i < |run'| ensures StepTo(run'[i - 1], run'[i]) {
      if i < |run| { assert StepTo(run[i - 1], run[i]); }
    }
  }

  /** The index of the next cell to write or read is in range. */
  lemma IndicesInRange<T>(r: Ring<T>, k: nat)
    requires Shape(r, k)
    ensures Index(r.head, |r.cells|) < |r.cells| && Index(r.tail, |r.cells|) < |r.cells|
  {
    hide And, Pow2, Slot;
    IndexIsSlot(|r.sent|, k);
    IndexIsSlot(|r.received|, k);
  }

  /** A `push` that is left alone is refused in two steps if the queue is full, and enqueues its value in four otherwise. */
  lemma PushCompletes<T(!new)>(k: nat, junk: T, run: seq<Ring<T>>, v: T) returns (run': seq<Ring<T>>)
    requires k <= 63 && IsRun(k, junk, run) && run[|run| - 1].producer.Resting?
    ensures IsRun(k, junk, run') && run <= run'
    ensures var r, r' := run[|run| - 1], run'[|run'| - 1];
            && |r.received| <= |r.sent|
            && r'.producer.Resting? && r'.consumer == r.consumer && r'.received == r.received
            && if |Contents(r)| == Pow2(k) then |run'| == |run| + 2 && r' == r
               else |run'| == |run| + 4 && r'.sent == r.sent + [v]
  {
    hide StepTo, And, Pow2, Slot, CellsOk, ProducerOk, ConsumerOk;
    var r := run[|run| - 1];
    QueueForever(k, junk, run, |run| - 1);
    IndicesInRange(r, k);
    var r1 := OneMoreStep(k, junk, run, StartPush(v));
    QueueForever(k, junk, r1, |run|);
    StepIsQueueStep(r1[|run|], k, Produce);
    run' := OneMoreStep(k, junk, r1, Produce);
    if |Contents(r)| != Pow2(k) {
      var r3 := OneMoreStep(k, junk, run', Produce);
      run' := OneMoreStep(k, junk, r3, Produce);
    }
  }

  /** Likewise for `pop`, which returns the oldest value. */
  lemma PopCompletes<T(!new)>(k: nat, junk: T, run: seq<Ring<T>>) returns (run': seq<Ring<T>>)
    requires k <= 63 && IsRun(k, junk, run) && run[|run| - 1].consumer.Waiting?
    ensures IsRun(k, junk, run') && run <= run'
    ensures var r, r' := run[|run| - 1], run'[|run'| - 1];
            && |r.received| <= |r.sent|
            && r'.consumer.Waiting? && r'.producer == r.producer && r'.sent == r.sent
            && if Contents(r) == [] then |run'| == |run| + 2 && r' == r
               else |run'| == |run| + 4 && r'.received == r.received + [Contents(r)[0]]
  {
    hide StepTo, And, Pow2, Slot, CellsOk, ProducerOk, ConsumerOk;
    var r := run[|run| - 1];
    QueueForever(k, junk, run, |run| - 1);
    IndicesInRange(r, k);
    var r1 := OneMoreStep(k, junk, run, StartPop);
    QueueForever(k, junk, r1, |run|);
    StepIsQueueStep(r1[|run|], k, Consume);
    run' := OneMoreStep(k, junk, r1, Consume);
    if Contents(r) != [] {
      var r3 := OneMoreStep(k, junk, run', Consume);
      QueueForever(k, junk, r3, |run| + 2);
      StepFacts(r3[|run| + 2], k, Consume);
      run' := OneMoreStep(k, junk, r3, Consume);
    }
  }
}
