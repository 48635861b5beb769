/**
  The shared-memory telemetry ring, byte by byte. One process produces and one consumes; each may run the
  native code (AnimusCore_v1/animus.hpp:835-856) or the Python code (animus/shm.py:100-131). Both see the
  same bytes: a 24-byte header (capacity, head, tail) and then 24-byte records.

  Every load or store of a header field is one step, and so is every single byte of a record copied in or
  out, so a record may be half written or half read whenever the other side runs.
 */
module SharedRing {
  import opened Modular
  import opened Bytes

  const HEADER_SIZE: nat := 24
  const HEAD_OFFSET: nat := 8
  const TAIL_OFFSET: nat := 16
  const RECORD_SIZE: nat := 24
  const RECORD_WIDTHS := [8, 4, 4, 8]

  datatype Record = Record(timestamp: nat, eventId: nat, traceId: nat, metric: nat)

  function Fields(r: Record): seq<nat> { [r.timestamp, r.eventId, r.traceId, r.metric] }

  ghost predicate Storable(r: Record) { Fit(RECORD_WIDTHS, Fields(r)) }

  lemma RecordSize()
    ensures Total(RECORD_WIDTHS) == RECORD_SIZE
  {
    assert RECORD_WIDTHS[1..] == [4, 4, 8] && RECORD_WIDTHS[1..][1..] == [4, 8] && Total([8]) == 8;
  }

  function Encode(r: Record): (bs: seq<Byte>)
    ensures |bs| == RECORD_SIZE
  {
    RecordSize();
    Pack(RECORD_WIDTHS, Fields(r))
  }

  function Decode(bs: seq<Byte>): Record
    requires |bs| == RECORD_SIZE
  {
    RecordSize();
    var f := Unpack(RECORD_WIDTHS, bs);
    Record(f[0], f[1], f[2], f[3])
  }

  lemma RecordRoundTrip(r: Record)
    requires Storable(r)
    ensures Decode(Encode(r)) == r
  {
    RecordSize();
    UnpackPack(RECORD_WIDTHS, Fields(r));
    hide Pack, Unpack;
  }

  /** The layout both languages use: `<QIIQ`. */
  lemma RecordLayout(r: Record)
    ensures var bs := Encode(r);
            && bs[0..8] == ToBytes(r.timestamp, 8) && bs[8..12] == ToBytes(r.eventId, 4)
            && bs[12..16] == ToBytes(r.traceId, 4) && bs[16..24] == ToBytes(r.metric, 8)
  {
    RecordSize();
    FieldAt(RECORD_WIDTHS, Fields(r), 0);
    FieldAt(RECORD_WIDTHS, Fields(r), 1);
    FieldAt(RECORD_WIDTHS, Fields(r), 2);
    FieldAt(RECORD_WIDTHS, Fields(r), 3);
    TotalOneMore(RECORD_WIDTHS, 0);
    TotalOneMore(RECORD_WIDTHS, 1);
    TotalOneMore(RECORD_WIDTHS, 2);
    assert RECORD_WIDTHS[..0] == [] && Total([]) == 0;
    hide Pack, Total, ToBytes;
  }

  // ------------------------------------------------------------------ bytes

  function Read(mem: seq<Byte>, offset: nat, n: nat): seq<Byte>
    requires offset + n <= |mem|
  {
    mem[offset..offset + n]
  }

  function Write(mem: seq<Byte>, offset: nat, bs: seq<Byte>): (mem': seq<Byte>)
    requires offset + |bs| <= |mem|
    ensures |mem'| == |mem|
  {
    mem[..offset] + bs + mem[offset + |bs|..]
  }

  /** A write is seen where it was made and nowhere else. */
  lemma WriteRead(mem: seq<Byte>, offset: nat, bs: seq<Byte>, at: nat, n: nat)
    requires offset + |bs| <= |mem| && at + n <= |mem|
    ensures Read(Write(mem, offset, bs), offset, |bs|) == bs
    ensures at + n <= offset || offset + |bs| <= at ==> Read(Write(mem, offset, bs), at, n) == Read(mem, at, n)
  {
  }

  function Offset(slot: nat): nat { HEADER_SIZE + slot * RECORD_SIZE }

  function Word(mem: seq<Byte>, offset: nat): nat
    requires offset + 8 <= |mem|
  {
    FromBytes(Read(mem, offset, 8))
  }

  // ------------------------------------------------------------------ steps

  datatype Side = Native | Python

  /** Locals of `push`: `done` bytes of the record have been copied in. */
  datatype Producer =
    | Resting
    | GotHead(record: Record, head: nat)
    | Copying(record: Record, head: nat, done: nat)

  /** Locals of `pop`. The native side loads the tail first, the Python side the head first. */
  datatype Consumer =
    | Waiting
    | GotTail(tail: nat)
    | SawHead(head: nat)
    | Collecting(tail: nat, bytes: seq<Byte>)

  /** `sent` and `received` are history. */
  datatype Ring = Ring(mem: seq<Byte>, producer: Producer, consumer: Consumer, sent: seq<Record>, received: seq<Record>)

  datatype Action = StartPush(side: Side, record: Record) | Produce(side: Side) | StartPop(side: Side) | Consume(side: Side)

  function Capacity(mem: seq<Byte>): nat
    requires |mem| >= HEADER_SIZE
  {
    Word(mem, 0)
  }

  /** The full test: wrapped subtraction on the native side, plain subtraction in Python. */
  predicate Full(side: Side, head: nat, tail: nat, capacity: nat) {
    match side
    case Native => (head + WORD - tail % WORD) % WORD >= capacity
    case Python => head >= tail + capacity
  }

  predicate WellFormed(r: Ring) {
    |r.mem| >= HEADER_SIZE && Capacity(r.mem) > 0 && |r.mem| == HEADER_SIZE + Capacity(r.mem) * RECORD_SIZE
  }

  ghost predicate Enabled(r: Ring, a: Action) {
    && WellFormed(r)
    && match a
       case StartPush(_, record) => r.producer.Resting? && Storable(record)
       case Produce(_) => !r.producer.Resting?
       case StartPop(_) => r.consumer.Waiting?
       case Consume(_) => !r.consumer.Waiting?
  }

  lemma SlotFits(pos: nat, capacity: nat)
    requires capacity > 0
    ensures Offset(Slot(pos, capacity)) + RECORD_SIZE <= HEADER_SIZE + capacity * RECORD_SIZE
  {
    SlotRange(pos, capacity);
  }

  function Produced(r: Ring, side: Side): Ring
    requires WellFormed(r)
  {
    match r.producer
    case Resting => r
    case GotHead(record, head) =>
      r.(producer := if Full(side, head, Word(r.mem, TAIL_OFFSET), Capacity(r.mem)) then Resting else Copying(record, head, 0))
    case Copying(record, head, done) =>
      var at := Offset(Slot(head, Capacity(r.mem)));
      SlotFits(head, Capacity(r.mem));
      if done < RECORD_SIZE
      then r.(mem := Write(r.mem, at + done, [Encode(record)[done]]), producer := Copying(record, head, done + 1))
      else r.(mem := Write(r.mem, HEAD_OFFSET, ToBytes((head + 1) % WORD, 8)), producer := Resting, sent := r.sent + [record])
  }

  function Consumed(r: Ring, side: Side): Ring
    requires WellFormed(r)
  {
    match r.consumer
    case Waiting => r
    case GotTail(tail) => r.(consumer := if tail == Word(r.mem, HEAD_OFFSET) then Waiting else Collecting(tail, []))
    case SawHead(head) =>
      var tail := Word(r.mem, TAIL_OFFSET);
      r.(consumer := if tail == head then Waiting else Collecting(tail, []))
    case Collecting(tail, bytes) =>
      var at := Offset(Slot(tail, Capacity(r.mem)));
      SlotFits(tail, Capacity(r.mem));
      if |bytes| < RECORD_SIZE
      then r.(consumer := Collecting(tail, bytes + [r.mem[at + |bytes|]]))
      else r.(mem := Write(r.mem, TAIL_OFFSET, ToBytes((tail + 1) % WORD, 8)), consumer := Waiting,
              received := r.received + [Decode(bytes[..RECORD_SIZE])])
  }

  function Next(r: Ring, a: Action): Ring
    requires Enabled(r, a)
  {
    match a
    case StartPush(_, record) => r.(producer := GotHead(record, Word(r.mem, HEAD_OFFSET)))
    case Produce(side) => Produced(r, side)
    case StartPop(side) =>
      r.(consumer := if side.Native? then GotTail(Word(r.mem, TAIL_OFFSET)) else SawHead(Word(r.mem, HEAD_OFFSET)))
    case Consume(side) => Consumed(r, side)
  }

  /** A fresh segment: the header, then records of any content. */
  ghost predicate Initial(r: Ring, capacity: nat) {
    && 0 < capacity < WORD && |r.mem| == HEADER_SIZE + capacity * RECORD_SIZE
    && Word(r.mem, 0) == capacity && Word(r.mem, HEAD_OFFSET) == 0 && Word(r.mem, TAIL_OFFSET) == 0
    && r.producer.Resting? && r.consumer.Waiting? && r.sent == [] && r.received == []
  }

  // -------------------------------------------------------------- invariant

  ghost predicate Shape(r: Ring, n: nat) {
    && 0 < n < WORD && |r.mem| == HEADER_SIZE + n * RECORD_SIZE
    && Word(r.mem, 0) == n
    && Word(r.mem, HEAD_OFFSET) == |r.sent| % WORD && Word(r.mem, TAIL_OFFSET) == |r.received| % WORD
    && |r.received| <= |r.sent| <= |r.received| + n && MayBe(r, n)
  }

  /** Fewer than 2^64 records so far; or, past that, a capacity that divides 2^64 and no Python consumer. */
  ghost predicate MayBe(r: Ring, n: nat)
    requires n > 0
  {
    |r.sent| < WORD || (Divides(n, WORD) && !r.consumer.SawHead?)
  }

  /** Then a counter in a word still names the right slot. */
  lemma SlotOfCounter(r: Ring, n: nat, x: nat)
    requires n > 0 && MayBe(r, n) && x <= |r.sent|
    ensures Slot(x % WORD, n) == Slot(x, n)
  {
    if x < WORD {
      assert x % WORD == x;
    } else {
      SlotOfWord(x, n, WORD);
    }
  }

  /** Where record number `i` lives. */
  function Place(i: nat, n: nat): (offset: nat)
    requires n > 0
    ensures HEADER_SIZE <= offset && offset + RECORD_SIZE <= HEADER_SIZE + n * RECORD_SIZE
  {
    SlotFits(i, n);
    Offset(Slot(i, n))
  }

  ghost predicate RecordsOk(r: Ring, n: nat)
    requires n > 0 && |r.mem| == HEADER_SIZE + n * RECORD_SIZE
  {
    forall i :: |r.received| <= i < |r.sent| ==> Read(r.mem, Place(i, n), RECORD_SIZE) == Encode(r.sent[i])
  }

  ghost predicate HistoryOk(r: Ring) {
    r.received <= r.sent && forall i :: 0 <= i < |r.sent| ==> Storable(r.sent[i])
  }

  ghost predicate ProducerOk(r: Ring, n: nat)
    requires n > 0 && |r.mem| == HEADER_SIZE + n * RECORD_SIZE
  {
    match r.producer
    case Resting => true
    case GotHead(record, head) => head == |r.sent| % WORD && Storable(record)
    case Copying(record, head, done) =>
      && head == |r.sent| % WORD && |r.sent| < |r.received| + n && Storable(record) && done <= RECORD_SIZE
      && Read(r.mem, Place(|r.sent|, n), done) == Encode(record)[..done]
  }

  ghost predicate ConsumerOk(r: Ring) {
    match r.consumer
    case Waiting => true
    case GotTail(tail) => tail == |r.received| % WORD
    case SawHead(head) => |r.received| <= head <= |r.sent|
    case Collecting(tail, bytes) =>
      && tail == |r.received| % WORD && |r.received| < |r.sent|
      && |bytes| <= RECORD_SIZE && bytes == Encode(r.sent[|r.received|])[..|bytes|]
  }

  ghost predicate Inv(r: Ring, n: nat) {
    Shape(r, n) && RecordsOk(r, n) && HistoryOk(r) && ProducerOk(r, n) && ConsumerOk(r)
  }

  lemma EightBytes(x: nat)
    requires x < WORD
    ensures FromBytes(ToBytes(x, 8)) == x
  {
    assert Pow256(1) == 256 && Pow256(2) == 65536 && Pow256(4) == 0x1_0000_0000;
    assert Pow256(8) == WORD;
    NumberRoundTrip(x, 8);
  }

  /** Records that are waiting together never share a byte. */
  lemma RecordsDisjoint(i: nat, j: nat, n: nat)
    requires n > 0 && i < j < i + n
    ensures Place(i, n) + RECORD_SIZE <= Place(j, n) || Place(j, n) + RECORD_SIZE <= Place(i, n)
  {
    if Slot(i, n) == Slot(j, n) { SameSlot(i, j, n); }
    hide Slot;
  }

  // ------------------------------------------------------------ the producer

  lemma FullIsExact(side: Side, sent: nat, received: nat, n: nat)
    requires received <= sent <= received + n && n < WORD && (side.Native? || sent < WORD)
    ensures Full(side, sent % WORD, received % WORD, n) <==> sent == received + n
  {
    WrappedDifference(sent, received);
  }

  lemma LookKeeps(r: Ring, n: nat, side: Side)
    requires Inv(r, n) && r.producer.GotHead? && (side.Native? || |r.sent| < WORD)
    ensures Inv(Produced(r, side), n)
    ensures Produced(r, side).producer.Resting? <==> |r.sent| == |r.received| + n
  {
    assert Read(r.mem, Place(|r.sent|, n), 0) == [];
    FullIsExact(side, |r.sent|, |r.received|, n);
    hide Read, Place, Slot, Encode, FromBytes, Full;
  }

  /** Storing one byte of a record not yet published leaves the header and the waiting records alone. */
  lemma ByteStored(mem: seq<Byte>, n: nat, head: nat, done: nat, b: Byte)
    requires n > 0 && |mem| == HEADER_SIZE + n * RECORD_SIZE && done < RECORD_SIZE
    ensures var at := Place(head, n);
            var mem' := Write(mem, at + done, [b]);
            && |mem'| == |mem| && Read(mem', at, done + 1) == Read(mem, at, done) + [b]
            && Word(mem', 0) == Word(mem, 0) && Word(mem', HEAD_OFFSET) == Word(mem, HEAD_OFFSET)
            && Word(mem', TAIL_OFFSET) == Word(mem, TAIL_OFFSET)
  {
    var at := Place(head, n);
    hide Place, FromBytes;
    WriteRead(mem, at + done, [b], 0, 8);
    WriteRead(mem, at + done, [b], HEAD_OFFSET, 8);
    WriteRead(mem, at + done, [b], TAIL_OFFSET, 8);
    WriteRead(mem, at + done, [b], at, done);
    var mem' := Write(mem, at + done, [b]);
    assert Read(mem', at, done + 1) == Read(mem', at, done) + Read(mem', at + done, 1);
  }

  lemma WaitingUntouched(mem: seq<Byte>, n: nat, head: nat, done: nat, b: Byte, i: nat)
    requires n > 0 && |mem| == HEADER_SIZE + n * RECORD_SIZE && done < RECORD_SIZE && i < head < i + n
    ensures Read(Write(mem, Place(head, n) + done, [b]), Place(i, n), RECORD_SIZE) == Read(mem, Place(i, n), RECORD_SIZE)
  {
    RecordsDisjoint(i, head, n);
    hide Place;
    WriteRead(mem, Place(head, n) + done, [b], Place(i, n), RECORD_SIZE);
  }

  lemma CopyIs(r: Ring, n: nat, side: Side)
    requires Inv(r, n) && r.producer.Copying? && r.producer.done < RECORD_SIZE
    ensures Place(|r.sent|, n) + r.producer.done + 1 <= |r.mem|
    ensures var p := r.producer;
            Produced(r, side) == r.(mem := Write(r.mem, Place(|r.sent|, n) + p.done, [Encode(p.record)[p.done]]),
                                    producer := Copying(p.record, p.head, p.done + 1))
  {
    SlotOfCounter(r, n, |r.sent|);
    assert Place(|r.sent|, n) == Offset(Slot(r.producer.head, n));
    hide RecordsOk, HistoryOk, ConsumerOk, Read, Write, Place, Encode, FromBytes;
  }

  /** One more byte of the record. */
  lemma CopyKeeps(r: Ring, n: nat, side: Side)
    requires Inv(r, n) && r.producer.Copying? && r.producer.done < RECORD_SIZE
    ensures Inv(Produced(r, side), n)
  {
    var record, head, done := r.producer.record, |r.sent|, r.producer.done;
    var b := Encode(record)[done];
    CopyIs(r, n, side);
    hide Produced, Read, Write, Place, Slot, Encode, FromBytes, Offset;
    ByteStored(r.mem, n, head, done, b);
    forall i | |r.received| <= i < |r.sent|
      ensures Read(Write(r.mem, Place(head, n) + done, [b]), Place(i, n), RECORD_SIZE) == Encode(r.sent[i])
    {
      WaitingUntouched(r.mem, n, head, done, b, i);
    }
    assert Encode(record)[..done + 1] == Encode(record)[..done] + [b];
  }

  /** Storing a counter leaves the rest of the header and all records alone. */
  lemma CounterStored(mem: seq<Byte>, n: nat, offset: nat, x: nat)
    requires n > 0 && |mem| == HEADER_SIZE + n * RECORD_SIZE && (offset == HEAD_OFFSET || offset == TAIL_OFFSET) && x < WORD
    ensures var mem' := Write(mem, offset, ToBytes(x, 8));
            && |mem'| == |mem| && Word(mem', offset) == x && Word(mem', 0) == Word(mem, 0)
            && Word(mem', HEAD_OFFSET + TAIL_OFFSET - offset) == Word(mem, HEAD_OFFSET + TAIL_OFFSET - offset)
            && forall i, k: nat :: k <= RECORD_SIZE ==> Read(mem', Place(i, n), k) == Read(mem, Place(i, n), k)
  {
    var bs := ToBytes(x, 8);
    EightBytes(x);
    WriteRead(mem, offset, bs, 0, 8);
    WriteRead(mem, offset, bs, HEAD_OFFSET + TAIL_OFFSET - offset, 8);
    hide Slot, ToBytes, FromBytes;
    forall i, k: nat | k <= RECORD_SIZE
      ensures Read(Write(mem, offset, bs), Place(i, n), k) == Read(mem, Place(i, n), k)
    {
      WriteRead(mem, offset, bs, Place(i, n), k);
    }
  }

  lemma PublishKeeps(r: Ring, n: nat, side: Side)
    requires Inv(r, n) && r.producer.Copying? && r.producer.done == RECORD_SIZE && MayBe(Produced(r, side), n)
    ensures Inv(Produced(r, side), n)
  {
    hide Read, Write, Place, Slot, Encode, FromBytes, ToBytes;
    CounterStored(r.mem, n, HEAD_OFFSET, (r.producer.head + 1) % WORD);
    assert Encode(r.producer.record)[..RECORD_SIZE] == Encode(r.producer.record);
    OneOn(|r.sent|);
  }

  lemma OneOn(x: nat)
    ensures (x % WORD + 1) % WORD == (x + 1) % WORD
  {
  }

  // ------------------------------------------------------------ the consumer

  lemma PeekKeeps(r: Ring, n: nat, side: Side)
    requires Inv(r, n) && (r.consumer.GotTail? || r.consumer.SawHead?)
    ensures Inv(Consumed(r, side), n)
    ensures Consumed(r, side).consumer.Waiting? <==>
              |r.received| == if r.consumer.GotTail? then |r.sent| else r.consumer.head
  {
    hide Read, Place, Slot, Encode, FromBytes;
    SameWord(|r.sent|, |r.received|);
  }

  lemma SameWord(a: nat, b: nat)
    requires b <= a < b + WORD
    ensures a % WORD == b % WORD <==> a == b
  {
    WrappedDifference(a, b);
  }

  lemma CollectKeeps(r: Ring, n: nat, side: Side)
    requires Inv(r, n) && r.consumer.Collecting? && |r.consumer.bytes| < RECORD_SIZE
    ensures Inv(Consumed(r, side), n)
  {
    var tail, bytes := |r.received|, r.consumer.bytes;
    var at, enc := Place(tail, n), Encode(r.sent[tail]);
    SlotOfCounter(r, n, tail);
    assert at == Offset(Slot(r.consumer.tail, n));
    assert Read(r.mem, at, RECORD_SIZE) == enc;
    assert r.mem[at + |bytes|] == Read(r.mem, at, RECORD_SIZE)[|bytes|];
    assert enc[..|bytes| + 1] == enc[..|bytes|] + [enc[|bytes|]];
    hide Read, Place, Slot, Encode, FromBytes;
  }

  lemma ReleaseKeeps(r: Ring, n: nat, side: Side)
    requires Inv(r, n) && r.consumer.Collecting? && |r.consumer.bytes| == RECORD_SIZE
    ensures Inv(Consumed(r, side), n)
    ensures Consumed(r, side).received == r.received + [r.sent[|r.received|]]
  {
    hide Read, Write, Place, Slot, Encode, Decode, FromBytes, ToBytes, Storable;
    var tail, bytes := |r.received|, r.consumer.bytes;
    CounterStored(r.mem, n, TAIL_OFFSET, (r.consumer.tail + 1) % WORD);
    RecordRoundTrip(r.sent[tail]);
    assert bytes[..RECORD_SIZE] == bytes && Encode(r.sent[tail])[..RECORD_SIZE] == Encode(r.sent[tail]);
    OneOn(tail);
  }

  // ----------------------------------------------------------------- runs

  lemma StartKeeps(r: Ring, n: nat, a: Action)
    requires Inv(r, n) && Enabled(r, a) && (a.StartPush? || a.StartPop?) && MayBe(Next(r, a), n)
    ensures Inv(Next(r, a), n)
  {
    hide Read, Place, Slot, Encode, FromBytes;
  }

  /** Either language, up to 2^64 records; past that, two native ends and a capacity that divides 2^64. */
  ghost predicate Allowed(r: Ring, n: nat, a: Action)
    requires n > 0 && Enabled(r, a)
  {
    MayBe(Next(r, a), n) && (a.side.Native? || |r.sent| < WORD)
  }

  lemma NextKeeps(r: Ring, n: nat, a: Action)
    requires Inv(r, n) && Enabled(r, a) && Allowed(r, n, a)
    ensures Inv(Next(r, a), n)
  {
    match a {
      case Produce(side) =>
        if r.producer.GotHead? {
          LookKeeps(r, n, side);
        } else if r.producer.done < RECORD_SIZE {
          CopyKeeps(r, n, side);
        } else {
          assert r.producer.done == RECORD_SIZE;
          hide RecordsOk, ConsumerOk, ProducerOk, HistoryOk, FromBytes, Write, Encode;
          PublishKeeps(r, n, side);
        }
      case Consume(side) =>
        if !r.consumer.Collecting? {
          PeekKeeps(r, n, side);
        } else if |r.consumer.bytes| < RECORD_SIZE {
          CollectKeeps(r, n, side);
        } else {
          ReleaseKeeps(r, n, side);
        }
      case _ => StartKeeps(r, n, a);
    }
  }

  /** The queue the bytes stand for. */
  function Contents(r: Ring): seq<Record>
    requires |r.received| <= |r.sent|
  {
    r.sent[|r.received|..]
  }

  ghost predicate StepTo(r: Ring, r': Ring, n: nat)
    requires n > 0
  {
    exists a :: Enabled(r, a) && r' == Next(r, a) && Allowed(r, n, a)
  }

  /**
    Any interleaving of a producer and a consumer. While fewer than 2^64 records have been sent, either may run
    either language and the capacity is any; a capacity that divides 2^64 lets two native ends go on for ever.
   */
  ghost predicate IsRun(n: nat, run: seq<Ring>) {
    && n > 0 && run != [] && Initial(run[0], n)
    && (forall i :: 0 < i < |run| ==> StepTo(run[i - 1], run[i], n))
  }

  lemma InitialHolds(r: Ring, n: nat)
    requires Initial(r, n)
    ensures Inv(r, n)
  {
  }

  lemma {:induction false} RunHolds(n: nat, run: seq<Ring>, i: nat)
    requires IsRun(n, run) && i < |run|
    ensures Inv(run[i], n)
    decreases i
  {
    hide Next, Enabled, Inv, Initial, Allowed;
    if i == 0 {
      InitialHolds(run[0], n);
    } else {
      RunHolds(n, run, i - 1);
      assert StepTo(run[i - 1], run[i], n);
      var a :| Enabled(run[i - 1], a) && run[i] == Next(run[i - 1], a) && Allowed(run[i - 1], n, a);
      NextKeeps(run[i - 1], n, a);
    }
  }

  /**
    The bytes implement a bounded queue: the header tells how much was sent and received, every waiting
    record lies whole in its own bytes and decodes to what was pushed, and records come out in order.
   */
  lemma BytesAreQueue(n: nat, run: seq<Ring>, i: nat)
    requires IsRun(n, run) && i < |run|
    ensures var r := run[i];
            && 0 < n && |r.mem| == HEADER_SIZE + n * RECORD_SIZE
            && Capacity(r.mem) == n
            && Word(r.mem, HEAD_OFFSET) == |r.sent| % WORD && Word(r.mem, TAIL_OFFSET) == |r.received| % WORD
            && r.received <= r.sent && |Contents(r)| <= n
            && forall k :: 0 <= k < |Contents(r)| ==>
                 Decode(Read(r.mem, Place(|r.received| + k, n), RECORD_SIZE)) == Contents(r)[k]
  {
    hide IsRun, ProducerOk, ConsumerOk, Decode, Encode, Place;
    RunHolds(n, run, i);
    var r := run[i];
    forall k | 0 <= k < |Contents(r)|
      ensures Decode(Read(r.mem, Place(|r.received| + k, n), RECORD_SIZE)) == Contents(r)[k]
    {
      RecordRoundTrip(r.sent[|r.received| + k]);
    }
  }

  /** `push` is refused exactly when the queue is full at its tail load, `pop` exactly when it was empty at its head load. */
  lemma RefusalsAreExact(n: nat, run: seq<Ring>, i: nat, side: Side)
    requires IsRun(n, run) && i < |run| && (side.Native? || |run[i].sent| < WORD)
    ensures WellFormed(run[i]) && |run[i].received| <= |run[i].sent|
    ensures run[i].producer.GotHead? ==> (Produced(run[i], side).producer.Resting? <==> |Contents(run[i])| == n)
    ensures run[i].consumer.GotTail? ==> (Consumed(run[i], side).consumer.Waiting? <==> Contents(run[i]) == [])
    ensures run[i].consumer.SawHead? ==> (Consumed(run[i], side).consumer.Waiting? <==> run[i].consumer.head == |run[i].received|)
  {
    hide IsRun, RecordsOk, ProducerOk, ConsumerOk, HistoryOk;
    RunHolds(n, run, i);
    if run[i].producer.GotHead? { LookKeeps(run[i], n, side); }
    if run[i].consumer.GotTail? || run[i].consumer.SawHead? { PeekKeeps(run[i], n, side); }
  }

  // ------------------------------------------------------------- completion

  lemma OneMoreStep(n: nat, run: seq<Ring>, a: Action) returns (run': seq<Ring>)
    requires IsRun(n, run) && Enabled(run[|run| - 1], a) && Allowed(run[|run| - 1], n, a)
    ensures IsRun(n, run') && run' == run + [Next(run[|run| - 1], a)]
  {
    hide Next, Enabled, Allowed;
    run' := run + [Next(run[|run| - 1], a)];
    assert StepTo(run[|run| - 1], run'[|run|], n);
    forall i | 0 < i < |run'| ensures StepTo(run'[i - 1], run'[i], n) {
      if i < |run| { assert StepTo(run[i - 1], run[i], n); }
    }
  }

  /** The end in question may go on: it is native with a dividing capacity, or 2^64 records are not reached. */
  ghost predicate MayGoOn(r: Ring, n: nat, side: Side)
    requires n > 0
  {
    |r.sent| + 1 < WORD || (Divides(n, WORD) && side.Native? && !r.consumer.SawHead?)
  }

  /** The rest of the record is copied, one byte a step, and published. */
  lemma {:induction false} CopiesAll(n: nat, run: seq<Ring>, side: Side) returns (run': seq<Ring>)
    requires IsRun(n, run) && Inv(run[|run| - 1], n) && run[|run| - 1].producer.Copying? && MayGoOn(run[|run| - 1], n, side)
    ensures IsRun(n, run') && run <= run' && run[|run| - 1].producer.done <= RECORD_SIZE
    ensures var r, r' := run[|run| - 1], run'[|run'| - 1];
            && |run'| == |run| + RECORD_SIZE - r.producer.done + 1
            && r'.producer.Resting? && r'.consumer == r.consumer && r'.received == r.received
            && r'.sent == r.sent + [r.producer.record]
    decreases RECORD_SIZE - run[|run| - 1].producer.done
  {
    hide StepTo, RecordsOk, HistoryOk, ConsumerOk, Encode, Write, FromBytes, Place;
    var r := run[|run| - 1];
    var r1 := OneMoreStep(n, run, Produce(side));
    run' := r1;
    if r.producer.done < RECORD_SIZE {
      RunHolds(n, r1, |run|);
      run' := CopiesAll(n, r1, side);
    }
  }

  /**
    A `push` that is left alone is refused in two steps if the queue is full; otherwise it enqueues its record in
    three steps and one for each byte.
   */
  lemma PushCompletes(n: nat, run: seq<Ring>, side: Side, record: Record) returns (run': seq<Ring>)
    requires IsRun(n, run) && run[|run| - 1].producer.Resting? && Storable(record) && MayGoOn(run[|run| - 1], n, side)
    ensures IsRun(n, run') && run <= run'
    ensures var r, r' := run[|run| - 1], run'[|run'| - 1];
            && |r.received| <= |r.sent|
            && r'.producer.Resting? && r'.consumer == r.consumer && r'.received == r.received
            && if |Contents(r)| == n then |run'| == |run| + 2 && r' == r
               else |run'| == |run| + 3 + RECORD_SIZE && r'.sent == r.sent + [record]
  {
    hide StepTo, RecordsOk, HistoryOk, ConsumerOk, Encode, Write, FromBytes, Place, Storable;
    var r := run[|run| - 1];
    RunHolds(n, run, |run| - 1);
    var r1 := OneMoreStep(n, run, StartPush(side, record));
    RefusalsAreExact(n, r1, |run|, side);
    var r2 := OneMoreStep(n, r1, Produce(side));
    run' := r2;
    if |Contents(r)| != n {
      RunHolds(n, r2, |run| + 1);
      run' := CopiesAll(n, r2, side);
    }
  }

  /** The rest of the record is collected, and the cell released. */
  lemma {:induction false} CollectsAll(n: nat, run: seq<Ring>, side: Side) returns (run': seq<Ring>)
    requires IsRun(n, run) && Inv(run[|run| - 1], n) && run[|run| - 1].consumer.Collecting? && MayGoOn(run[|run| - 1], n, side)
    ensures IsRun(n, run') && run <= run' && |run[|run| - 1].consumer.bytes| <= RECORD_SIZE
    ensures var r, r' := run[|run| - 1], run'[|run'| - 1];
            && |run'| == |run| + RECORD_SIZE - |r.consumer.bytes| + 1 && |r.received| < |r.sent|
            && r'.consumer.Waiting? && r'.producer == r.producer && r'.sent == r.sent
            && r'.received == r.received + [r.sent[|r.received|]]
    decreases RECORD_SIZE - |run[|run| - 1].consumer.bytes|
  {
    hide StepTo, RecordsOk, HistoryOk, ProducerOk, Encode, Decode, Write, FromBytes, Place, Read;
    var r := run[|run| - 1];
    var r1 := OneMoreStep(n, run, Consume(side));
    run' := r1;
    if |r.consumer.bytes| < RECORD_SIZE {
      RunHolds(n, r1, |run|);
      run' := CollectsAll(n, r1, side);
    } else {
      ReleaseKeeps(r, n, side);
    }
  }

  /** Likewise for `pop`, which returns the oldest record. */
  lemma PopCompletes(n: nat, run: seq<Ring>, side: Side) returns (run': seq<Ring>)
    requires IsRun(n, run) && run[|run| - 1].consumer.Waiting? && MayGoOn(run[|run| - 1], n, side)
    ensures IsRun(n, run') && run <= run'
    ensures var r, r' := run[|run| - 1], run'[|run'| - 1];
            && |r.received| <= |r.sent|
            && r'.consumer.Waiting? && r'.producer == r.producer && r'.sent == r.sent
            && if Contents(r) == [] then |run'| == |run| + 2 && r' == r
               else |run'| == |run| + 3 + RECORD_SIZE && r'.received == r.received + [Contents(r)[0]]
  {
    hide StepTo, RecordsOk, HistoryOk, ProducerOk, Encode, Write, FromBytes, Place;
    var r := run[|run| - 1];
    RunHolds(n, run, |run| - 1);
    var r1 := OneMoreStep(n, run, StartPop(side));
    RefusalsAreExact(n, r1, |run|, side);
    RunHolds(n, r1, |run|);
    var r2 := OneMoreStep(n, r1, Consume(side));
    run' := r2;
    if Contents(r) != [] {
      RunHolds(n, r2, |run| + 1);
      run' := CollectsAll(n, r2, side);
    }
  }
}
