/** Positions modulo a ring's capacity or a word. */
module Modular {

  /** 2^64: native counters wrap here. */
  const WORD: nat := 0x1_0000_0000_0000_0000

  function Slot(pos: nat, capacity: nat): nat
    requires capacity > 0
  {
    pos % capacity
  }

  lemma SlotRange(pos: nat, n: nat)
    requires n > 0
    ensures Slot(pos, n) < n
  {
  }

  /** Two positions of one slot are equal or at least a lap apart. */
  lemma SameSlot(p: nat, q: nat, n: nat)
    requires n > 0 && Slot(p, n) == Slot(q, n) && p < q
    ensures p + n <= q
  {
    var d := q / n - p / n;
    assert q - p == n * d;
    assert d <= 0 ==> n * d <= 0;
    assert d >= 1 ==> n * (d - 1) >= 0;
  }

  lemma NextSlot(p: nat, n: nat)
    requires n >= 2
    ensures Slot(p, n) < n && Slot(p + 1, n) < n && Slot(p, n) != Slot(p + 1, n)
  {
    if Slot(p, n) == Slot(p + 1, n) { SameSlot(p, p + 1, n); }
  }

  lemma RemainderIs(x: nat, m: nat, q: nat, r: nat)
    requires m > 0 && x == m * q + r && r < m
    ensures x % m == r
  {
    var d := x / m - q;
    assert m * d == r - x % m by { assert x == m * (x / m) + x % m; }
    assert d > 0 ==> m * d >= m;
    assert d < 0 ==> m * d + m <= 0;
  }

  lemma LapSlot(p: nat, n: nat)
    requires n > 0
    ensures Slot(p, n) < n && Slot(p + n, n) == Slot(p, n)
  {
    assert p + n == n * (p / n + 1) + p % n;
    RemainderIs(p + n, n, p / n + 1, p % n);
  }

  /** `a` divides `b`. */
  ghost predicate Divides(a: nat, b: nat)
    requires a > 0
  {
    b % a == 0
  }

  /** Reducing a position to a word first does not change its slot, if the capacity divides the word. */
  lemma SlotOfWord(x: nat, n: nat, w: nat)
    requires 0 < n && 0 < w && Divides(n, w)
    ensures Slot(x % w, n) == Slot(x, n)
  {
    var k, q, r := w / n, x / w, x % w;
    assert x == w * q + r && w == n * k;
    Reassociate(n, k, q);
    assert r == n * (r / n) + r % n;
    Distribute(n, k * q, r / n);
    RemainderIs(x, n, k * q + r / n, r % n);
  }

  lemma Reassociate(a: nat, b: nat, c: nat)
    ensures a * b * c == a * (b * c)
  {
  }

  lemma Distribute(a: nat, b: nat, c: nat)
    ensures a * (b + c) == a * b + a * c
  {
  }

  /** The difference of two counters that have wrapped is the true difference, if that is below a word. */
  lemma WrappedDifference(a: nat, b: nat)
    requires b <= a < b + WORD
    ensures (a % WORD + WORD - b % WORD) % WORD == a - b
  {
  }

  /** Positions `i` and `j`, if they are less than a lap apart, have different slots, counted in a word. */
  predicate SlotsApart(i: nat, j: nat, n: nat)
    requires n > 0
  {
    i < j < i + n ==> Slot(i % WORD, n) != Slot(j % WORD, n)
  }

  /**
    Positions that wait together never share a slot, across the wrap too, exactly if the capacity divides the
    word; otherwise the first position after the wrap falls on one that is still waiting.
   */
  lemma WrapsCleanly(n: nat)
    requires 0 < n < WORD
    ensures Divides(n, WORD) <==> forall i: nat, j: nat :: SlotsApart(i, j, n)
  {
    if Divides(n, WORD) {
      forall i: nat, j: nat ensures SlotsApart(i, j, n) {
        SlotOfWord(i, n, WORD);
        SlotOfWord(j, n, WORD);
        if i < j && Slot(i, n) == Slot(j, n) { SameSlot(i, j, n); }
      }
    } else {
      var q := WORD / n;
      assert WORD == n * q + WORD % n;
      RemainderIs(n * q, n, q, 0);
      assert n * q < WORD < n * q + n && n * q % WORD == n * q;
      assert !SlotsApart(n * q, WORD, n);
    }
  }
}
