/**
  The bounded audit trail (`BoundedAuditLog`, AnimusCore_v1/animus_security.hpp:124-175): an in-place ring
  that refines an unbounded log which loses only its oldest unread entry, and only when full.
 */
module Audit {
  import opened Modular
  import opened Spsc

  type AuditEvent = nat

  datatype Fate = Drained | Dropped

  /** Everything ever appended, and what became of the entries that are no longer unread, oldest first. */
  datatype Trail = Trail(log: seq<AuditEvent>, fates: seq<Fate>)

  ghost predicate Bounded(t: Trail, capacity: nat) {
    |t.fates| <= |t.log| <= |t.fates| + capacity
  }

  function Unread(t: Trail): seq<AuditEvent>
    requires |t.fates| <= |t.log|
  {
    t.log[|t.fates|..]
  }

  /** Appending to the unbounded log; a full trail gives up its oldest unread entry. */
  function Appended(t: Trail, e: AuditEvent, capacity: nat): Trail {
    Trail(t.log + [e], if |t.log| - |t.fates| >= capacity then t.fates + [Dropped] else t.fates)
  }

  function AllDrained(t: Trail, count: nat): Trail {
    t.(fates := t.fates + seq(count, _ => Drained))
  }

  /** The entries with the given fate, in order. */
  function With(log: seq<AuditEvent>, fates: seq<Fate>, fate: Fate): seq<AuditEvent>
    requires |fates| <= |log|
  {
    if fates == [] then []
    else
      var k := |fates| - 1;
      With(log, fates[..k], fate) + if fates[k] == fate then [log[k]] else []
  }

  /** appended = drained + dropped + unread. */
  lemma {:induction false} NothingUnaccounted(t: Trail)
    requires |t.fates| <= |t.log|
    ensures |t.log| == |With(t.log, t.fates, Drained)| + |With(t.log, t.fates, Dropped)| + |Unread(t)|
    decreases |t.fates|
  {
    if t.fates != [] { NothingUnaccounted(t.(fates := t.fates[..|t.fates| - 1])); }
  }

  lemma {:induction false} WithGrows(log: seq<AuditEvent>, log': seq<AuditEvent>, fates: seq<Fate>, fate: Fate)
    requires |fates| <= |log| && log <= log'
    ensures With(log', fates, fate) == With(log, fates, fate)
    decreases |fates|
  {
    if fates != [] { WithGrows(log, log', fates[..|fates| - 1], fate); }
  }

  /** Draining hands over the oldest unread entries and loses none. */
  lemma {:induction false} DrainDelivers(t: Trail, count: nat)
    requires |t.fates| + count <= |t.log|
    ensures var t' := AllDrained(t, count);
            && With(t.log, t'.fates, Drained) == With(t.log, t.fates, Drained) + Unread(t)[..count]
            && With(t.log, t'.fates, Dropped) == With(t.log, t.fates, Dropped)
            && Unread(t') == Unread(t)[count..]
    decreases count
  {
    var t' := AllDrained(t, count);
    if count == 0 {
      assert t'.fates == t.fates;
    } else {
      DrainDelivers(t, count - 1);
      assert t'.fates[..|t'.fates| - 1] == AllDrained(t, count - 1).fates;
      assert Unread(t)[..count] == Unread(t)[..count - 1] + [t.log[|t.fates| + count - 1]];
    }
  }

  /** Appending loses the oldest unread entry if there is no room, and nothing otherwise. */
  lemma AppendLosesOldest(t: Trail, e: AuditEvent, capacity: nat)
    requires Bounded(t, capacity) && capacity > 0
    ensures var t', full := Appended(t, e, capacity), |Unread(t)| == capacity;
            && Bounded(t', capacity)
            && Unread(t') == (if full then Unread(t)[1..] else Unread(t)) + [e]
            && With(t'.log, t'.fates, Dropped) == With(t.log, t.fates, Dropped) + (if full then [Unread(t)[0]] else [])
            && With(t'.log, t'.fates, Drained) == With(t.log, t.fates, Drained)
  {
    var t' := Appended(t, e, capacity);
    WithGrows(t.log, t'.log, t.fates, Drained);
    WithGrows(t.log, t'.log, t.fates, Dropped);
    if |Unread(t)| == capacity { assert t'.fates[..|t'.fates| - 1] == t.fates; }
  }

  class BoundedAuditLog {
    ghost const bits: nat
    const entries: array<AuditEvent>
    var write: nat
    var read: nat
    var dropped: nat
    ghost var trail: Trail

    /** `capacity` is a power of two of at least 2, as the source asserts at compile time. */
    constructor (capacity: nat, ghost bits: nat)
      requires 1 <= bits <= 63 && capacity == Pow2(bits)
      ensures Valid() && fresh(entries) && entries.Length == capacity && trail == Trail([], [])
    {
      this.bits := bits;
      entries := new AuditEvent[capacity];
      write, read, dropped := 0, 0, 0;
      trail := Trail([], []);
    }

    ghost predicate Valid()
      reads this, entries
    {
      && 1 <= bits <= 63 && entries.Length == Pow2(bits)
      && Bounded(trail, entries.Length)
      && write == |trail.log| % WORD && read == |trail.fates| % WORD
      && dropped == |With(trail.log, trail.fates, Dropped)| % WORD
      && (forall i :: |trail.fates| <= i < |trail.log| ==>
            Slot(i, entries.Length) < entries.Length && entries[Slot(i, entries.Length)] == trail.log[i])
    }

    method Append(e: AuditEvent)
      requires Valid()
      modifies this, entries
      ensures Valid() && trail == Appended(old(trail), e, entries.Length)
    {
      hide And, Pow2, Slot, With;
      ghost var n, end := entries.Length, |trail.log|;
      CapacityRange(bits);
      IndexIsSlot(end, bits);
      entries[And(write, entries.Length - 1)] := e;
      write := (write + 1) % WORD;
      NextWord(end);
      WrappedDifference(end + 1, |trail.fates|);
      AppendLosesOldest(trail, e, n);
      Untouched(end, n);
      if (write + WORD - read) % WORD > entries.Length {
        read := (read + 1) % WORD;
        NextWord(|trail.fates|);
        NextWord(|With(trail.log, trail.fates, Dropped)|);
        dropped := (dropped + 1) % WORD;
      }
      trail := Appended(trail, e, n);
    }

    /** The copy loop of `drain`. */
    method CopyOut(out: array<AuditEvent>, count: nat)
      requires Valid() && out != entries && count <= |Unread(trail)| && count <= out.Length
      modifies out
      ensures out[..count] == Unread(trail)[..count] && out[count..] == old(out[count..])
    {
      hide And, Pow2, Slot, With;
      for i := 0 to count
        invariant forall k :: 0 <= k < i ==> out[k] == trail.log[|trail.fates| + k]
        invariant forall k :: i <= k < out.Length ==> out[k] == old(out[k])
      {
        Position(|trail.fates|, i);
        IndexIsSlot(|trail.fates| + i, bits);
        out[i] := entries[And((read + i) % WORD, entries.Length - 1)];
      }
    }

    /** Up to `max` of the oldest unread entries, in order. */
    method Drain(out: array?<AuditEvent>, max: nat) returns (count: nat)
      requires Valid() && out != entries && (out != null ==> out.Length >= max)
      modifies `read, `trail, out
      ensures Valid()
      ensures out == null ==> count == 0 && trail == old(trail)
      ensures out != null ==>
                && count == (if |Unread(old(trail))| < max then |Unread(old(trail))| else max)
                && trail == AllDrained(old(trail), count)
                && out[..count] == Unread(old(trail))[..count] && out[count..] == old(out[count..])
    {
      hide And, Pow2, Slot, With;
      if out == null {
        return 0;
      }
      CapacityRange(bits);
      WrappedDifference(|trail.log|, |trail.fates|);
      var unread := (write + WORD - read) % WORD;
      count := if unread < max then unread else max;
      CopyOut(out, count);
      DrainDelivers(trail, count);
      Position(|trail.fates|, count);
      read := (read + count) % WORD;
      trail := AllDrained(trail, count);
    }
  }

  lemma CapacityRange(bits: nat)
    requires bits <= 63
    ensures Pow2(bits) <= WORD / 2
  {
    WordIsPow2();
    if bits < 63 { Pow2Grows(bits, 63); }
  }

  lemma Position(from: nat, i: nat)
    ensures (from % WORD + i) % WORD == (from + i) % WORD
  {
  }

  /** The slot of position `end` is no other unread entry's, once the trail is no longer than its capacity. */
  lemma Untouched(end: nat, n: nat)
    requires n > 0
    ensures forall i: nat :: end < i + n && i < end ==> Slot(i, n) != Slot(end, n)
  {
    forall i: nat | end < i + n && i < end ensures Slot(i, n) != Slot(end, n) {
      if Slot(i, n) == Slot(end, n) { SameSlot(i, end, n); }
    }
  }
}
