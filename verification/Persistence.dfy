/**
  The persistence worker (`process_persistence_queue`, AnimusCore_v1/animus.hpp:1091-1171) among its
  producers: a state machine whose steps are the worker's pops, evaluations, writes and checks, and the
  producers' claims and publications in the ring.
 */
module Persistence {

  type Event = nat

  const BATCH_SIZE: nat := 1024

  /** A claimed position of the ring: `pop` can take it once it is published. */
  datatype Cell = Cell(event: Event, published: bool)

  datatype Place =
    | Opening                // no sink: try to open it, or leave if told to stop
    | Filling                // popping into the batch
    | Evaluating(next: nat)  // rules have seen the batch up to `next`
    | Writing
    | Checking               // nothing popped: about to look at the running flag
    | Gone(drained: bool)

  /**
    `accepted`, `evaluated`, `processed` and `failed` are history: the claimed events in ring order, the events
    given to the rules, the events whose batch has been cleared, and whether a write has ever failed.
   */
  datatype Worker = Worker(
    place: Place, running: bool, ring: seq<Cell>, batch: seq<Event>, file: seq<Event>,
    accepted: seq<Event>, evaluated: seq<Event>, processed: seq<Event>, failed: bool)

  datatype Action =
    | Claim(event: Event)
    | Publish(k: nat)
    | Stop
    | TryOpen(ok: bool)
    | Pop
    | Evaluate
    | Flush(ok: bool, landed: nat)  // a failed write may still have put some of the batch in the file
    | Check

  function Fresh(): Worker { Worker(Opening, true, [], [], [], [], [], [], false) }

  predicate Enabled(w: Worker, a: Action) {
    match a
    case Claim(_) => true
    case Publish(k) => k < |w.ring| && !w.ring[k].published
    case Stop => true
    case TryOpen(_) => w.place.Opening?
    case Pop => w.place.Filling?
    case Evaluate => w.place.Evaluating?
    case Flush(_, landed) => w.place.Writing? && landed <= |w.batch|
    case Check => w.place.Checking? || w.place.Opening?
  }

  /** The pop loop: stop at a full batch or at a position that is not there or not published. */
  function Popped(w: Worker): Worker {
    if |w.batch| >= BATCH_SIZE then w.(place := Evaluating(0))
    else if w.ring != [] && w.ring[0].published then w.(ring := w.ring[1..], batch := w.batch + [w.ring[0].event])
    else w.(place := if w.batch == [] then Checking else Evaluating(0))
  }

  function Evaluated(w: Worker, next: nat): Worker {
    if next < |w.batch|
    then w.(place := Evaluating(next + 1), evaluated := w.evaluated + [w.batch[next]])
    else w.(place := Writing)
  }

  /** Writing, and clearing the batch whether or not the sink took it. */
  function Flushed(w: Worker, ok: bool, landed: nat): Worker
    requires landed <= |w.batch|
  {
    w.(place := if ok then Filling else Opening, batch := [], processed := w.processed + w.batch,
       file := w.file + (if ok then w.batch else w.batch[..landed]), failed := w.failed || !ok)
  }

  function Next(w: Worker, a: Action): Worker
    requires Enabled(w, a)
  {
    match a
    case Claim(e) => w.(ring := w.ring + [Cell(e, false)], accepted := w.accepted + [e])
    case Publish(k) => w.(ring := w.ring[k := w.ring[k].(published := true)])
    case Stop => w.(running := false)
    case TryOpen(ok) => if ok then w.(place := Filling) else w
    case Pop => Popped(w)
    case Evaluate => Evaluated(w, w.place.next)
    case Flush(ok, landed) => Flushed(w, ok, landed)
    case Check => if w.running then (if w.place.Checking? then w.(place := Filling) else w)
                  else w.(place := Gone(w.place.Checking?))
  }

  function Events(ring: seq<Cell>): seq<Event> {
    seq(|ring|, i requires 0 <= i < |ring| => ring[i].event)
  }

  ghost predicate Inv(w: Worker) {
    && w.accepted == w.processed + w.batch + Events(w.ring)
    && |w.batch| <= BATCH_SIZE
    && (match w.place
        case Evaluating(next) => next <= |w.batch| && w.evaluated == w.processed + w.batch[..next]
        case Writing => w.evaluated == w.processed + w.batch
        case _ => w.evaluated == w.processed)
    && (w.place.Opening? || w.place.Checking? || w.place.Gone? ==> w.batch == [])
    && (!w.failed ==> w.file == w.processed)
    && (!w.failed && (w.place.Opening? || w.place == Gone(false)) ==> w.processed == [])
  }

  lemma RingKeeps(w: Worker, a: Action)
    requires Inv(w) && Enabled(w, a) && (a.Claim? || a.Publish?)
    ensures Inv(Next(w, a))
  {
    var w' := Next(w, a);
    if a.Claim? {
      assert Events(w'.ring) == Events(w.ring) + [a.event];
    } else {
      assert Events(w'.ring) == Events(w.ring);
    }
    hide Events;
  }

  lemma PopKeeps(w: Worker)
    requires Inv(w) && w.place.Filling?
    ensures Inv(Popped(w))
  {
    if |w.batch| < BATCH_SIZE && w.ring != [] && w.ring[0].published {
      assert Events(w.ring) == [w.ring[0].event] + Events(w.ring[1..]);
    } else {
      assert w.processed == w.processed + w.batch[..0];
    }
    hide Events;
  }

  lemma EvaluateKeeps(w: Worker)
    requires Inv(w) && w.place.Evaluating?
    ensures Inv(Evaluated(w, w.place.next))
  {
    hide Events;
    var next := w.place.next;
    if next < |w.batch| {
      assert w.processed + w.batch[..next + 1] == w.processed + w.batch[..next] + [w.batch[next]];
    } else {
      assert w.batch[..next] == w.batch;
    }
  }

  lemma FlushKeeps(w: Worker, ok: bool, landed: nat)
    requires Inv(w) && w.place.Writing? && landed <= |w.batch|
    ensures Inv(Flushed(w, ok, landed))
  {
    hide Events;
    assert w.processed + w.batch + [] + Events(w.ring) == w.processed + w.batch + Events(w.ring);
  }

  lemma NextKeeps(w: Worker, a: Action)
    requires Inv(w) && Enabled(w, a)
    ensures Inv(Next(w, a))
  {
    hide Events, Popped, Evaluated, Flushed;
    match a {
      case Claim(_) => RingKeeps(w, a);
      case Publish(_) => RingKeeps(w, a);
      case Pop => PopKeeps(w);
      case Evaluate => EvaluateKeeps(w);
      case Flush(ok, landed) => FlushKeeps(w, ok, landed);
      case _ =>
    }
  }

  ghost predicate StepTo(w: Worker, w': Worker) {
    exists a :: Enabled(w, a) && w' == Next(w, a)
  }

  ghost predicate IsRun(run: seq<Worker>) {
    run != [] && run[0] == Fresh() && forall i :: 0 < i < |run| ==> StepTo(run[i - 1], run[i])
  }

  lemma {:induction false} RunHolds(run: seq<Worker>, i: nat)
    requires IsRun(run) && i < |run|
    ensures Inv(run[i])
    decreases i
  {
    hide Inv, Next, Enabled;
    if i == 0 {
      assert Inv(Fresh()) by { FreshHolds(); }
    } else {
      RunHolds(run, i - 1);
      assert StepTo(run[i - 1], run[i]);
      var a :| Enabled(run[i - 1], a) && run[i] == Next(run[i - 1], a);
      NextKeeps(run[i - 1], a);
    }
  }

  lemma FreshHolds()
    ensures Inv(Fresh())
  {
  }

  /**
    Conservation at every step of every run: accepted events are, in order, those processed, the batch and
    the ring; each was evaluated once; the file is the processed prefix while no write has failed.
   */
  lemma Conservation(run: seq<Worker>, i: nat)
    requires IsRun(run) && i < |run|
    ensures var w := run[i];
            && w.accepted == w.processed + w.batch + Events(w.ring) && |w.batch| <= BATCH_SIZE
            && w.processed <= w.evaluated <= w.processed + w.batch
            && (!w.failed ==> w.file == w.processed)
            && (w.place.Gone? ==> w.batch == [] && w.evaluated == w.processed)
  {
    hide IsRun;
    RunHolds(run, i);
  }

  // ------------------------------------------------ what stays in the ring

  /** Places at which the worker leaves the ring alone. */
  predicate Apart(place: Place) { place.Checking? || place.Opening? || place.Gone? }

  /** Step `j` of the run is a pop that found nothing to take, with nothing in the batch. */
  ghost predicate EmptyPop(run: seq<Worker>, j: nat) {
    && j + 1 < |run| && run[j].place.Filling? && run[j].batch == [] && run[j + 1] == Popped(run[j])
    && (run[j].ring == [] || !run[j].ring[0].published)
  }

  /** Moment `j` is the beginning, or the moment after a write failed. */
  ghost predicate SinkLost(run: seq<Worker>, j: nat) {
    j < |run| && (j == 0 || (run[j - 1].place.Writing? && run[j].place.Opening? && run[j].failed))
  }

  /** The moment the worker last left the ring: an empty pop if it goes by way of `Checking`, else the loss of its sink. */
  ghost predicate LeftAt(run: seq<Worker>, j: nat, i: nat) {
    && j <= i < |run| && (forall k :: j < k <= i ==> Apart(run[k].place))
    && if run[i].place.Checking? || run[i].place == Gone(true) then j < i && EmptyPop(run, j) else SinkLost(run, j)
  }

  /** The ring holds what it held at `j`, then everything claimed since. */
  ghost predicate GrewOnly(w: Worker, w': Worker) {
    w.accepted <= w'.accepted && Events(w'.ring) == Events(w.ring) + w'.accepted[|w.accepted|..]
  }

  lemma ApartStep(w: Worker, a: Action)
    requires Enabled(w, a) && (Apart(w.place) || (a.Pop? && w.batch == [])) && Apart(Next(w, a).place)
    ensures GrewOnly(w, Next(w, a))
    ensures Apart(w.place) ==> (Next(w, a).place.Checking? || Next(w, a).place == Gone(true) <==> w.place.Checking? || w.place == Gone(true))
  {
    var w' := Next(w, a);
    if a.Claim? {
      assert Events(w'.ring) == Events(w.ring) + [a.event];
    } else {
      assert Events(w'.ring) == Events(w.ring);
    }
    hide Events;
  }

  lemma GrewOnlyTwice(w: Worker, w': Worker, w'': Worker)
    requires GrewOnly(w, w') && GrewOnly(w', w'')
    ensures GrewOnly(w, w'')
  {
    hide Events;
    assert w''.accepted[|w.accepted|..] == w'.accepted[|w.accepted|..] + w''.accepted[|w'.accepted|..];
  }

  lemma GrewOnlySelf(w: Worker)
    ensures GrewOnly(w, w)
  {
    hide Events;
    assert w.accepted[|w.accepted|..] == [];
  }

  /** How the worker comes to be apart from the ring. */
  lemma ComesApart(run: seq<Worker>, i: nat, a: Action)
    requires 0 < i < |run| && Inv(run[i - 1]) && Enabled(run[i - 1], a) && run[i] == Next(run[i - 1], a)
    requires Apart(run[i].place) && !Apart(run[i - 1].place)
    ensures (a.Pop? && run[i - 1].batch == [] && LeftAt(run, i - 1, i)) || LeftAt(run, i, i)
  {
    hide Events;
  }

  lemma {:induction false} LeftInRing(run: seq<Worker>, i: nat) returns (j: nat)
    requires IsRun(run) && i < |run| && Apart(run[i].place)
    ensures LeftAt(run, j, i) && GrewOnly(run[j], run[i])
    decreases i
  {
    hide GrewOnly, Inv, Next, Enabled;
    j := i;
    GrewOnlySelf(run[i]);
    if i > 0 {
      assert StepTo(run[i - 1], run[i]);
      var a :| Enabled(run[i - 1], a) && run[i] == Next(run[i - 1], a);
      if Apart(run[i - 1].place) {
        ApartStep(run[i - 1], a);
        j := LeftInRing(run, i - 1);
        GrewOnlyTwice(run[j], run[i - 1], run[i]);
      } else {
        RunHolds(run, i - 1);
        ComesApart(run, i, a);
        if !LeftAt(run, i, i) {
          ApartStep(run[i - 1], a);
          j := i - 1;
        }
      }
    }
  }

  /**
    Exit after an empty pop: the ring is empty exactly if it was empty at that pop and nothing has been claimed
    since; what is left is what it held then and everything claimed since.
   */
  lemma DrainedIff(run: seq<Worker>, i: nat) returns (j: nat)
    requires IsRun(run) && i < |run| && run[i].place == Gone(true)
    ensures j < i && EmptyPop(run, j) && (forall k :: j < k <= i ==> Apart(run[k].place))
    ensures run[i].ring == [] <==> run[j].ring == [] && run[i].accepted == run[j].accepted
    ensures GrewOnly(run[j], run[i])
  {
    hide IsRun;
    j := LeftInRing(run, i);
  }

  /** Exit without a sink: if no write had failed, no event was ever taken from the ring. */
  lemma NoSinkTakesNothing(run: seq<Worker>, i: nat)
    requires IsRun(run) && i < |run| && run[i].place == Gone(false) && !run[i].failed
    ensures Events(run[i].ring) == run[i].accepted && run[i].processed == run[i].file == []
  {
    hide IsRun, Events;
    RunHolds(run, i);
  }

  /** An event published between the empty pop and the check of the running flag stays in the ring. */
  lemma CanLeaveEvents() returns (run: seq<Worker>)
    ensures IsRun(run)
    ensures var w := run[|run| - 1]; w.place == Gone(true) && w.ring == [Cell(7, true)] && w.processed == []
  {
    var w0 := Fresh();
    var w1 := Next(w0, TryOpen(true));
    var w2 := Next(w1, Pop);
    var w3 := Next(w2, Claim(7));
    var w4 := Next(w3, Publish(0));
    var w5 := Next(w4, Stop);
    var w6 := Next(w5, Check);
    run := [w0, w1, w2, w3, w4, w5, w6];
    assert StepTo(w0, w1) && StepTo(w1, w2) && StepTo(w2, w3) && StepTo(w3, w4) && StepTo(w4, w5) && StepTo(w5, w6);
  }

  /** A worker that is stopped before it has a sink leaves everything. */
  lemma CanLeaveAll() returns (run: seq<Worker>)
    ensures IsRun(run)
    ensures var w := run[|run| - 1]; w.place == Gone(false) && !w.failed && w.ring == [Cell(7, true)]
  {
    var w0 := Fresh();
    var w1 := Next(w0, Claim(7));
    var w2 := Next(w1, Publish(0));
    var w3 := Next(w2, Stop);
    var w4 := Next(w3, Check);
    run := [w0, w1, w2, w3, w4];
    assert StepTo(w0, w1) && StepTo(w1, w2) && StepTo(w2, w3) && StepTo(w3, w4);
  }

  // ------------------------------------------------------------ progress

  /** The worker's own actions, with a sink that takes what is written. */
  predicate ByWorker(a: Action) { a.Pop? || a.Evaluate? || a.Check? || (a.Flush? && a.ok) }

  ghost predicate WorkerStep(w: Worker, w': Worker) {
    exists a :: ByWorker(a) && Enabled(w, a) && w' == Next(w, a)
  }

  /** Only the worker moves. */
  ghost predicate Alone(run: seq<Worker>) {
    forall i :: 0 < i < |run| ==> WorkerStep(run[i - 1], run[i])
  }

  /**
    The worker has its sink and everything claimed has been published; it is not just about to leave with events in
    the ring, as it does when it was told to stop after its last pop.
   */
  ghost predicate Working(w: Worker) {
    && !w.place.Opening? && !w.place.Gone? && (w.place.Checking? && w.ring != [] ==> w.running)
    && forall k :: 0 <= k < |w.ring| ==> w.ring[k].published
  }

  /** Steps that are enough to get everything done. */
  function Enough(w: Worker): nat {
    match w.place
    case Filling => 6 * |w.ring| + 5 * |w.batch| + 1
    case Evaluating(next) => 6 * |w.ring| + (if next <= |w.batch| then |w.batch| - next else 0) + 4
    case Writing => 6 * |w.ring| + 3
    case Checking => if w.ring == [] then 0 else 6 * |w.ring| + 2
    case _ => 0
  }

  /** Everything accepted has been taken, evaluated and, unless a write had failed, written. */
  ghost predicate AllDone(w: Worker, accepted: seq<Event>) {
    && w.place.Checking? && w.ring == [] && w.batch == [] && w.accepted == accepted
    && w.evaluated == w.processed == accepted && (!w.failed ==> w.file == accepted)
  }

  lemma StepWorks(w: Worker, w': Worker)
    requires Inv(w) && Working(w) && WorkerStep(w, w') && !(w.place.Checking? && w.ring == [])
    ensures Working(w') && Enough(w') < Enough(w) && w'.accepted == w.accepted && w'.failed == w.failed
  {
    var a :| ByWorker(a) && Enabled(w, a) && w' == Next(w, a);
    if w.place.Filling? { PopWorks(w); } else { OtherWorks(w, a); }
    hide Inv, Working, Enough, WorkerStep, Popped;
  }

  lemma PopWorks(w: Worker)
    requires Working(w) && w.place.Filling? && |w.batch| <= BATCH_SIZE
    ensures var w' := Popped(w); Working(w') && Enough(w') < Enough(w) && w'.accepted == w.accepted && w'.failed == w.failed
  {
  }

  lemma OtherWorks(w: Worker, a: Action)
    requires Inv(w) && Working(w) && !w.place.Filling? && !(w.place.Checking? && w.ring == []) && ByWorker(a) && Enabled(w, a)
    ensures var w' := Next(w, a); Working(w') && Enough(w') < Enough(w) && w'.accepted == w.accepted && w'.failed == w.failed
  {
    hide Events, Popped;
  }

  lemma StepKeeps(w: Worker, w': Worker)
    requires Inv(w) && WorkerStep(w, w')
    ensures Inv(w')
  {
    hide Inv, Next, Enabled;
    var a :| ByWorker(a) && Enabled(w, a) && w' == Next(w, a);
    NextKeeps(w, a);
  }

  lemma DoneWhenEmpty(w: Worker)
    requires Inv(w) && w.place.Checking? && w.ring == []
    ensures AllDone(w, w.accepted)
  {
    assert Events(w.ring) == [];
  }

  lemma {:induction false} DrainsFrom(run: seq<Worker>) returns (k: nat)
    requires run != [] && Inv(run[0]) && Working(run[0]) && Alone(run) && |run| > Enough(run[0])
    ensures k <= Enough(run[0]) && AllDone(run[k], run[0].accepted) && run[k].failed == run[0].failed
    decreases Enough(run[0])
  {
    hide Inv, Working, WorkerStep;
    k := 0;
    if run[0].place.Checking? && run[0].ring == [] {
      DoneWhenEmpty(run[0]);
    } else {
      AtWork(run[0]);
      assert WorkerStep(run[0], run[1]);
      StepWorks(run[0], run[1]);
      StepKeeps(run[0], run[1]);
      var rest := run[1..];
      forall i | 0 < i < |rest| ensures WorkerStep(rest[i - 1], rest[i]) { assert WorkerStep(run[i], run[i + 1]); }
      k := DrainsFrom(rest);
      k := k + 1;
    }
  }

  lemma AtWork(w: Worker)
    requires Working(w) && !(w.place.Checking? && w.ring == [])
    ensures Enough(w) > 0
  {
  }

  /**
    From any state the worker can be in with a sink and everything published, it is at `Checking` within `Enough`
    of its own steps, with an empty ring and every accepted event evaluated and written.
   */
  lemma WorkerDrains(run: seq<Worker>, i: nat, more: seq<Worker>) returns (k: nat)
    requires IsRun(run) && i < |run| && Working(run[i])
    requires more != [] && more[0] == run[i] && Alone(more) && |more| > Enough(run[i])
    ensures k <= Enough(run[i]) && AllDone(more[k], run[i].accepted)
    ensures !run[i].failed ==> more[k].file == run[i].accepted
  {
    hide IsRun, Inv, Working, Alone;
    RunHolds(run, i);
    k := DrainsFrom(more);
  }

  /** The worker is never stuck: it has exactly one step to take until it is gone. */
  lemma WorkerNeverStuck(w: Worker)
    requires !w.place.Opening? && !w.place.Gone?
    ensures exists w' :: WorkerStep(w, w')
    ensures forall w', w'' :: WorkerStep(w, w') && WorkerStep(w, w'') ==> w' == w''
  {
    var a := match w.place
      case Filling => Pop
      case Evaluating(_) => Evaluate
      case Writing => Flush(true, 0)
      case _ => Check;
    assert Enabled(w, a);
    assert WorkerStep(w, Next(w, a));
  }

  /** Told to stop, it leaves from there. */
  lemma StopsWhenDone(w: Worker, w': Worker)
    requires w.place.Checking? && WorkerStep(w, w')
    ensures w'.place == if w.running then Filling else Gone(true)
    ensures w' == w.(place := w'.place)
  {
  }

  /** A write that fails costs the worker its sink and the batch, of which the file may have got the beginning. */
  lemma FailedWriteLosesSink(run: seq<Worker>, i: nat, landed: nat)
    requires IsRun(run) && i < |run| && Enabled(run[i], Flush(false, landed))
    ensures var w, w' := run[i], Next(run[i], Flush(false, landed));
            && w'.place.Opening? && w'.batch == [] && w'.failed && w'.ring == w.ring && w'.running == w.running
            && w'.processed == w'.evaluated == w.evaluated
            && w.file <= w'.file <= w.file + w.batch
  {
    hide IsRun, Events;
    RunHolds(run, i);
  }

  /** A sink that opens puts the worker back to work; without one, it leaves exactly when it has been told to. */
  lemma WithoutSink(w: Worker)
    requires w.place.Opening?
    ensures Next(w, TryOpen(true)) == w.(place := Filling) && Next(w, TryOpen(false)) == w
    ensures (forall k :: 0 <= k < |w.ring| ==> w.ring[k].published) ==> Working(Next(w, TryOpen(true)))
    ensures Next(w, Check) == if w.running then w else w.(place := Gone(false))
  {
  }

  // ---------------------------------------------------------- bounded queue

  /** `_BoundedQueue` of the fallback engine (animus/bindings.py:556-587), and batch ingestion over it. */
  class BoundedQueue {
    const capacity: nat
    var items: seq<Event>

    constructor (capacity: nat)
      ensures this.capacity == capacity && items == []
    {
      this.capacity := capacity;
      items := [];
    }

    method Push(item: Event) returns (ok: bool)
      modifies this
      ensures ok == (|old(items)| < capacity) && items == if ok then old(items) + [item] else old(items)
    {
      if |items| >= capacity {
        return false;
      }
      items := items + [item];
      return true;
    }

    method PopBatch(max: nat) returns (out: seq<Event>)
      modifies this
      ensures out + items == old(items) && |out| == if |old(items)| < max then |old(items)| else max
    {
      out := [];
      while items != [] && |out| < max
        invariant out + items == old(items) && |out| <= max
        decreases |items|
      {
        out := out + [items[0]];
        items := items[1..];
      }
    }

    /** `record_events_batch` and `record_batch`: as many leading events as there is room for. */
    method RecordBatch(events: seq<Event>) returns (pushed: nat)
      requires |items| <= capacity
      modifies this
      ensures pushed == (if |events| < capacity - |old(items)| then |events| else capacity - |old(items)|)
      ensures items == old(items) + events[..pushed]
    {
      pushed := 0;
      while pushed < |events|
        invariant pushed <= |events| && |items| <= capacity && items == old(items) + events[..pushed]
      {
        var ok := Push(events[pushed]);
        if !ok {
          break;
        }
        pushed := pushed + 1;
        assert events[..pushed] == events[..pushed - 1] + [events[pushed - 1]];
      }
    }
  }
}
