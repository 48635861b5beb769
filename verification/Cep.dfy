/**
  Sliding-window rules. The simple form rescans the whole window on every event
  (animus/bindings.py:499-553) and is the reference. The fast form keeps a running sum and
  monotonic deques in 64-bit words (AnimusCore_v1/animus.hpp:190-301).
 */
module Cep {
  import opened Modular

  datatype WindowKind = Count | Time
  datatype Aggregation = Sum | Avg | Min | Max
  datatype Comparator = GreaterThan | LessThan | Equal

  datatype Entry = Entry(sequence: nat, time: nat, value: nat)

  datatype RuleConfig = RuleConfig(ruleId: nat, eventId: nat, kind: WindowKind, size: nat, agg: Aggregation,
                                   comparator: Comparator, threshold: nat, severity: nat)

  /** A rule as both constructors leave it: the window size is never 0. */
  type Config = c: RuleConfig | c.size > 0 witness RuleConfig(0, 0, Count, 1, Sum, Equal, 0, 0)

  function Registered(c: RuleConfig): Config { c.(size := if c.size == 0 then 1 else c.size) }

  /** Registering changes nothing but a window size of 0, which becomes the least there is. */
  lemma RegisteredOnlyFixesZero(c: RuleConfig)
    ensures c.size > 0 ==> Registered(c) == c
    ensures Registered(c).(size := c.size) == c && Registered(c).size <= c.size + 1
  {
  }

  function Compare(lhs: nat, rhs: nat, comparator: Comparator): bool {
    match comparator
    case GreaterThan => lhs > rhs
    case LessThan => lhs < rhs
    case Equal => lhs == rhs
  }

  // -------------------------------------------------------- the reference

  function SumOf(w: seq<Entry>): nat {
    if w == [] then 0 else SumOf(w[..|w| - 1]) + w[|w| - 1].value
  }

  /** The minimum or maximum value of a window. */
  function Extreme(w: seq<Entry>, agg: Aggregation): nat
    requires w != []
  {
    var last := w[|w| - 1].value;
    if |w| == 1 then last
    else
      var rest := Extreme(w[..|w| - 1], agg);
      if agg.Min? then (if rest < last then rest else last) else (if rest > last then rest else last)
  }

  /** Drops expired entries from the front; one that has not expired keeps those behind it. */
  function EvictTime(w: seq<Entry>, size: nat, now: nat): seq<Entry> {
    if w != [] && w[0].time + size <= now then EvictTime(w[1..], size, now) else w
  }

  function EvictCount(w: seq<Entry>, size: nat): seq<Entry> {
    if |w| > size then w[|w| - size..] else w
  }

  /** The window after event number `n`. */
  function Slide(w: seq<Entry>, cfg: Config, n: nat, value: nat, now: nat): seq<Entry> {
    var pushed := w + [Entry(n, now, value)];
    if cfg.kind.Count? then EvictCount(pushed, cfg.size) else EvictTime(pushed, cfg.size, now)
  }

  function Aggregate(w: seq<Entry>, agg: Aggregation): nat
    requires w != []
  {
    match agg
    case Sum => SumOf(w)
    case Avg => SumOf(w) / |w|
    case _ => Extreme(w, agg)
  }

  function Matches(w: seq<Entry>, cfg: Config): bool
    requires w != []
  {
    if cfg.agg.Avg? then Compare(SumOf(w), cfg.threshold * |w|, cfg.comparator)
    else Compare(Aggregate(w, cfg.agg), cfg.threshold, cfg.comparator)
  }

  // ------------------------------------------------------- the native form

  datatype Native = Native(counter: nat, sumWindow: seq<Entry>, runningSum: nat, deque: seq<Entry>)

  const FRESH := Native(0, [], 0, [])

  /** Whether a later value makes an earlier one irrelevant. */
  predicate Beats(agg: Aggregation, later: nat, earlier: nat) {
    if agg.Min? then earlier >= later else earlier <= later
  }

  function PopBeaten(q: seq<Entry>, agg: Aggregation, value: nat): seq<Entry> {
    if q != [] && Beats(agg, value, q[|q| - 1].value) then PopBeaten(q[..|q| - 1], agg, value) else q
  }

  /** The expiry tests of the native eviction loops, with their 64-bit additions. */
  predicate Expired(e: Entry, cfg: Config, n: nat, now: nat) {
    if cfg.kind.Count? then (e.sequence + cfg.size) % WORD <= n else (e.time + cfg.size) % WORD <= now
  }

  function EvictDeque(q: seq<Entry>, cfg: Config, n: nat, now: nat): seq<Entry> {
    if q != [] && Expired(q[0], cfg, n, now) then EvictDeque(q[1..], cfg, n, now) else q
  }

  function EvictFifo(w: seq<Entry>, cfg: Config, now: nat): (rest: seq<Entry>)
    ensures |rest| <= |w|
  {
    if cfg.kind.Count? then EvictCount(w, cfg.size)
    else if w != [] && (w[0].time + cfg.size) % WORD <= now then EvictFifo(w[1..], cfg, now)
    else w
  }

  function Subtract(a: nat, b: nat): nat { (a + WORD - b % WORD) % WORD }

  /** Taking the evicted entries' values off the running sum, one by one. */
  function TakeOff(sum: nat, evicted: seq<Entry>): nat
    decreases |evicted|
  {
    if evicted == [] then sum else TakeOff(Subtract(sum, evicted[0].value), evicted[1..])
  }

  function NativeNext(s: Native, cfg: Config, value: nat, now: nat): Native {
    var n := (s.counter + 1) % WORD;
    var e := Entry(n, now, value);
    if cfg.agg.Sum? || cfg.agg.Avg? then
      var pushed := s.sumWindow + [e];
      var w := EvictFifo(pushed, cfg, now);
      Native(n, w, TakeOff((s.runningSum + value) % WORD, pushed[..|pushed| - |w|]), s.deque)
    else
      s.(counter := n, deque := EvictDeque(PopBeaten(s.deque, cfg.agg, value) + [e], cfg, n, now))
  }

  /** `front()` is only called on a deque that has a front. */
  predicate HasFront(s: Native, cfg: Config) {
    cfg.agg.Min? || cfg.agg.Max? ==> s.deque != []
  }

  function NativeAggregate(s: Native, cfg: Config): nat
    requires HasFront(s, cfg)
  {
    match cfg.agg
    case Sum => s.runningSum
    case Avg => if s.sumWindow == [] then 0 else s.runningSum / |s.sumWindow|
    case _ => s.deque[0].value
  }

  function NativeMatches(s: Native, cfg: Config): bool
    requires HasFront(s, cfg)
  {
    if cfg.agg.Avg? then Compare(s.runningSum, cfg.threshold * |s.sumWindow| % WORD, cfg.comparator)
    else Compare(NativeAggregate(s, cfg), cfg.threshold, cfg.comparator)
  }

  // --------------------------------------------------------- running sums

  lemma {:induction false} SumDropsFirst(w: seq<Entry>)
    requires w != []
    ensures SumOf(w) == w[0].value + SumOf(w[1..])
    decreases |w|
  {
    if |w| > 1 {
      SumDropsFirst(w[..|w| - 1]);
      assert w[..|w| - 1][1..] == w[1..][..|w| - 2];
    } else {
      assert w[..0] == [];
    }
  }

  lemma SubtractIsExact(total: nat, b: nat)
    requires b <= total
    ensures Subtract(total % WORD, b) == (total - b) % WORD
  {
    var q, p := total / WORD, b / WORD;
    assert total == q * WORD + total % WORD && b == p * WORD + b % WORD;
    assert total - b == (q - p) * WORD + (total % WORD - b % WORD);
  }

  lemma TakeOffFirst(sum: nat, w: seq<Entry>, k: nat)
    requires 0 < k <= |w|
    ensures TakeOff(sum, w[..k]) == TakeOff(Subtract(sum, w[0].value), w[1..][..k - 1])
  {
    hide Subtract;
    assert w[..k][1..] == w[1..][..k - 1] && w[..k][0] == w[0];
  }

  /** Taking the evicted values off a wrapped sum leaves the wrapped sum of the rest. */
  lemma {:induction false} TakeOffIsExact(w: seq<Entry>, k: nat)
    requires k <= |w|
    ensures TakeOff(SumOf(w) % WORD, w[..k]) == SumOf(w[k..]) % WORD
    decreases k
  {
    if k == 0 {
      assert w[..0] == [] && w[0..] == w;
    } else {
      SumDropsFirst(w);
      SubtractIsExact(SumOf(w), w[0].value);
      TakeOffFirst(SumOf(w) % WORD, w, k);
      TakeOffIsExact(w[1..], k - 1);
      hide SumOf, Subtract, TakeOff;
      assert w[1..][k - 1..] == w[k..];
    }
  }

  /** Eviction keeps a suffix. */
  lemma {:induction false} FifoIsSuffix(w: seq<Entry>, cfg: Config, now: nat)
    ensures var k := |w| - |EvictFifo(w, cfg, now)|; 0 <= k && EvictFifo(w, cfg, now) == w[k..]
    decreases |w|
  {
    if !cfg.kind.Count? && w != [] && (w[0].time + cfg.size) % WORD <= now {
      FifoIsSuffix(w[1..], cfg, now);
      var k := |w[1..]| - |EvictFifo(w[1..], cfg, now)|;
      assert w[1..][k..] == w[k + 1..];
    }
  }

  lemma SumOfPushed(w: seq<Entry>, e: Entry)
    ensures SumOf(w + [e]) == SumOf(w) + e.value
  {
    assert (w + [e])[..|w|] == w;
  }

  lemma WrapsOnce(a: nat, b: nat)
    ensures (a % WORD + b) % WORD == (a + b) % WORD
  {
    assert a + b == (a / WORD) * WORD + (a % WORD + b);
  }

  /** The running sum is the true sum modulo 2^64 after any event, whatever wraps on the way. */
  lemma RunningSumExact(s: Native, cfg: Config, value: nat, now: nat)
    requires s.runningSum == SumOf(s.sumWindow) % WORD
    ensures var s' := NativeNext(s, cfg, value, now); s'.runningSum == SumOf(s'.sumWindow) % WORD
  {
    hide SumOf, EvictFifo, TakeOff, EvictDeque, PopBeaten;
    if cfg.agg.Sum? || cfg.agg.Avg? {
      var e := Entry((s.counter + 1) % WORD, now, value);
      SumOfPushed(s.sumWindow, e);
      WrapsOnce(SumOf(s.sumWindow), value);
      FifoIsSuffix(s.sumWindow + [e], cfg, now);
      TakeOffIsExact(s.sumWindow + [e], |s.sumWindow + [e]| - |EvictFifo(s.sumWindow + [e], cfg, now)|);
    }
  }
}
