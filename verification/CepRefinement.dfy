/**
  The native window state refines the full rescan: the front of the monotonic deque is the
  window's minimum or maximum, and matches agree, over every run with a clock that does not go
  back and no 64-bit overflow.
 */
module CepRefinement {
  import opened Modular
  import opened Cep

  // ------------------------------------------------------ what a deque holds

  /** The entries of a window that no later entry beats: what the native deque should hold. */
  function Candidates(w: seq<Entry>, agg: Aggregation): seq<Entry> {
    if w == [] then []
    else
      var k := |w| - 1;
      PopBeaten(Candidates(w[..k], agg), agg, w[k].value) + [w[k]]
  }

  /** No entry is beaten by the one after it. */
  ghost predicate Unbeaten(q: seq<Entry>, agg: Aggregation) {
    forall i, j :: 0 <= i < j < |q| ==> !Beats(agg, q[j].value, q[i].value)
  }

  lemma {:induction false} PopIsPrefix(q: seq<Entry>, agg: Aggregation, value: nat)
    ensures PopBeaten(q, agg, value) <= q
    ensures Unbeaten(q, agg) && (agg.Min? || agg.Max?) ==>
              forall e :: e in PopBeaten(q, agg, value) ==> !Beats(agg, value, e.value)
    ensures forall i :: |PopBeaten(q, agg, value)| <= i < |q| ==> Beats(agg, value, q[i].value)
    decreases |q|
  {
    if q != [] && Beats(agg, value, q[|q| - 1].value) {
      PopIsPrefix(q[..|q| - 1], agg, value);
    }
  }

  lemma {:induction false} CandidatesUnbeaten(w: seq<Entry>, agg: Aggregation)
    requires agg.Min? || agg.Max?
    ensures Unbeaten(Candidates(w, agg), agg)
    decreases |w|
  {
    if w != [] {
      var k := |w| - 1;
      CandidatesUnbeaten(w[..k], agg);
      PopIsPrefix(Candidates(w[..k], agg), agg, w[k].value);
    }
  }

  /** The front candidate is the window's extreme. */
  lemma {:induction false} FrontIsExtreme(w: seq<Entry>, agg: Aggregation)
    requires w != [] && (agg.Min? || agg.Max?)
    ensures Candidates(w, agg) != [] && Candidates(w, agg)[0].value == Extreme(w, agg)
    decreases |w|
  {
    var k := |w| - 1;
    if k == 0 {
      assert w[..0] == [];
    } else {
      var before := Candidates(w[..k], agg);
      FrontIsExtreme(w[..k], agg);
      CandidatesUnbeaten(w[..k], agg);
      PopIsPrefix(before, agg, w[k].value);
      if PopBeaten(before, agg, w[k].value) != [] {
        assert before[0] in PopBeaten(before, agg, w[k].value);
      }
    }
  }

  lemma {:induction false} CandidatesInWindow(w: seq<Entry>, agg: Aggregation)
    ensures forall e :: e in Candidates(w, agg) ==> e in w
    decreases |w|
  {
    if w != [] {
      var k := |w| - 1;
      CandidatesInWindow(w[..k], agg);
      PopIsPrefix(Candidates(w[..k], agg), agg, w[k].value);
      assert forall e :: e in w[..k] ==> e in w;
    }
  }

  /** Popping from the back does not disturb the front. */
  lemma {:induction false} PopSkipsFront(q: seq<Entry>, agg: Aggregation, value: nat)
    requires q != []
    ensures PopBeaten(q, agg, value) == [] ==> PopBeaten(q[1..], agg, value) == []
    ensures PopBeaten(q, agg, value) != [] ==> PopBeaten(q, agg, value)[1..] == PopBeaten(q[1..], agg, value)
    decreases |q|
  {
    var k := |q| - 1;
    if k > 0 {
      assert q[..k][1..] == q[1..][..k - 1];
      if Beats(agg, value, q[k].value) { PopSkipsFront(q[..k], agg, value); }
    }
  }

  /** Dropping the window's first entry drops it from the candidates, where it can only be the front. */
  lemma {:induction false} CandidatesDropFirst(w: seq<Entry>, agg: Aggregation)
    requires w != []
    ensures var q := Candidates(w, agg);
            q != [] && (Candidates(w[1..], agg) == q || (q[0] == w[0] && Candidates(w[1..], agg) == q[1..]))
    decreases |w|
  {
    hide PopBeaten;
    var k := |w| - 1;
    if k == 0 {
      assert w[..0] == [] && w[1..] == [];
      assert PopBeaten([], agg, w[0].value) == [] by { PopIsPrefix([], agg, w[0].value); }
    } else {
      CandidatesDropFirst(w[..k], agg);
      assert w[1..][..k - 1] == w[..k][1..];
      assert w[..k][0] == w[0] && w[1..][k - 1] == w[k];
      PushAfterDrop(Candidates(w[..k], agg), Candidates(w[..k][1..], agg), agg, w[0], w[k]);
    }
  }

  lemma PushAfterDrop(q: seq<Entry>, q1: seq<Entry>, agg: Aggregation, first: Entry, last: Entry)
    requires q != [] && (q1 == q || (q[0] == first && q1 == q[1..]))
    ensures var p, p1 := PopBeaten(q, agg, last.value) + [last], PopBeaten(q1, agg, last.value) + [last];
            p1 == p || (p[0] == first && p1 == p[1..])
  {
    if q1 != q {
      PopSkipsFront(q, agg, last.value);
      PopIsPrefix(q, agg, last.value);
      hide PopBeaten;
    }
  }

  // ------------------------------------------------------------- eviction

  /** Expiry takes a prefix of the window. */
  ghost predicate ExpiresInOrder(w: seq<Entry>, cfg: Config, n: nat, now: nat) {
    forall i, j :: 0 <= i < j < |w| && Expired(w[j], cfg, n, now) ==> Expired(w[i], cfg, n, now)
  }

  /** Evicting from the deque and evicting from the window commute. */
  lemma {:induction false} EvictCommutes(w: seq<Entry>, cfg: Config, n: nat, now: nat)
    requires ExpiresInOrder(w, cfg, n, now)
    ensures EvictDeque(Candidates(w, cfg.agg), cfg, n, now) == Candidates(EvictDeque(w, cfg, n, now), cfg.agg)
    decreases |w|
  {
    if w != [] {
      if Expired(w[0], cfg, n, now) {
        EvictCommutes(w[1..], cfg, n, now);
        CandidatesDropFirst(w, cfg.agg);
      } else {
        CandidatesDropFirst(w, cfg.agg);
        CandidatesInWindow(w, cfg.agg);
        assert Candidates(w, cfg.agg)[0] in w;
      }
    }
  }

  /** Sequence numbers run up to `n` without gaps. */
  ghost predicate Consecutive(w: seq<Entry>, n: nat) {
    |w| <= n && forall i :: 0 <= i < |w| ==> w[i].sequence == n - |w| + 1 + i
  }

  /** Times do not go back and have reached `clock` at most. */
  ghost predicate Timed(w: seq<Entry>, clock: nat) {
    && (forall i, j :: 0 <= i < j < |w| ==> w[i].time <= w[j].time)
    && (forall i :: 0 <= i < |w| ==> w[i].time <= clock)
  }

  /** No 64-bit addition of the expiry tests wraps at event `n`. */
  predicate Fits(cfg: Config, n: nat, now: nat) {
    n < WORD && now < WORD && (if cfg.kind.Count? then n + cfg.size < WORD else now + cfg.size < WORD)
  }

  lemma {:induction false} CountEviction(w: seq<Entry>, cfg: Config, n: nat, now: nat)
    requires Consecutive(w, n) && Fits(cfg, n, now) && cfg.kind.Count?
    ensures EvictDeque(w, cfg, n, now) == EvictCount(w, cfg.size)
    decreases |w|
  {
    if |w| > cfg.size {
      CountEviction(w[1..], cfg, n, now);
      assert w[1..][|w| - 1 - cfg.size..] == w[|w| - cfg.size..];
    }
  }

  lemma {:induction false} TimeEviction(w: seq<Entry>, cfg: Config, n: nat, now: nat)
    requires Timed(w, now) && Fits(cfg, n, now) && cfg.kind.Time?
    ensures EvictDeque(w, cfg, n, now) == EvictTime(w, cfg.size, now) == EvictFifo(w, cfg, now)
    decreases |w|
  {
    if w != [] {
      assert (w[0].time + cfg.size) % WORD == w[0].time + cfg.size;
      TimeEviction(w[1..], cfg, n, now);
    }
  }

  lemma {:induction false} DequeIsSuffix(w: seq<Entry>, cfg: Config, n: nat, now: nat)
    ensures var k := |w| - |EvictDeque(w, cfg, n, now)|; 0 <= k && EvictDeque(w, cfg, n, now) == w[k..]
    ensures w != [] && !Expired(w[|w| - 1], cfg, n, now) ==> EvictDeque(w, cfg, n, now) != []
    decreases |w|
  {
    if w != [] && Expired(w[0], cfg, n, now) {
      DequeIsSuffix(w[1..], cfg, n, now);
      var k := |w[1..]| - |EvictDeque(w[1..], cfg, n, now)|;
      assert w[1..][k..] == w[k + 1..];
    }
  }

  // ----------------------------------------------------------- refinement

  /** Native state `s` stands for window `w` after event `n`, at a clock that reads at most `clock`. */
  ghost predicate Refines(s: Native, cfg: Config, w: seq<Entry>, n: nat, clock: nat) {
    && s.counter == n && Consecutive(w, n) && Timed(w, clock)
    && (cfg.agg.Sum? || cfg.agg.Avg? ==> s.sumWindow == w && s.runningSum == SumOf(w) % WORD)
    && (cfg.agg.Min? || cfg.agg.Max? ==> s.deque == Candidates(w, cfg.agg))
  }

  lemma PushedWindow(w: seq<Entry>, n: nat, clock: nat, value: nat, now: nat)
    requires Consecutive(w, n) && Timed(w, clock) && clock <= now
    ensures var pushed := w + [Entry(n + 1, now, value)]; Consecutive(pushed, n + 1) && Timed(pushed, now)
  {
  }

  /** Without wrap-around, the native expiry test is the true one. */
  lemma ExpiryIsExact(e: Entry, cfg: Config, n: nat, now: nat)
    requires Fits(cfg, n, now) && e.time <= now && e.sequence <= n
    ensures Expired(e, cfg, n, now) <==> if cfg.kind.Count? then e.sequence + cfg.size <= n else e.time + cfg.size <= now
  {
  }

  lemma InOrder(w: seq<Entry>, cfg: Config, n: nat, now: nat)
    requires Consecutive(w, n) && Timed(w, now) && Fits(cfg, n, now)
    ensures ExpiresInOrder(w, cfg, n, now)
  {
    hide Expired;
    forall i, j | 0 <= i < j < |w| && Expired(w[j], cfg, n, now) ensures Expired(w[i], cfg, n, now) {
      ExpiryIsExact(w[i], cfg, n, now);
      ExpiryIsExact(w[j], cfg, n, now);
    }
  }

  lemma SuffixWindow(w: seq<Entry>, k: nat, n: nat, now: nat)
    requires k <= |w| && Consecutive(w, n) && Timed(w, now)
    ensures Consecutive(w[k..], n) && Timed(w[k..], now)
  {
  }

  lemma EvictionsAgree(w: seq<Entry>, cfg: Config, n: nat, now: nat)
    requires Consecutive(w, n) && Timed(w, now) && Fits(cfg, n, now)
    ensures EvictDeque(w, cfg, n, now) == EvictFifo(w, cfg, now)
            == if cfg.kind.Count? then EvictCount(w, cfg.size) else EvictTime(w, cfg.size, now)
  {
    hide EvictDeque, EvictTime, Consecutive, Timed;
    if cfg.kind.Count? { CountEviction(w, cfg, n, now); } else { TimeEviction(w, cfg, n, now); }
  }

  /** The reference's window is what the native expiry test leaves of the pushed window, and is not empty. */
  lemma SlideIsEviction(w: seq<Entry>, cfg: Config, n: nat, clock: nat, value: nat, now: nat)
    requires Consecutive(w, n) && Timed(w, clock) && clock <= now && Fits(cfg, n + 1, now)
    ensures var pushed := w + [Entry(n + 1, now, value)];
            var w' := Slide(w, cfg, n + 1, value, now);
            && w' == EvictDeque(pushed, cfg, n + 1, now) == EvictFifo(pushed, cfg, now)
            && w' != [] && Consecutive(w', n + 1) && Timed(w', now) && ExpiresInOrder(pushed, cfg, n + 1, now)
  {
    hide EvictDeque, EvictCount, EvictTime, Consecutive, Timed, ExpiresInOrder, Expired;
    var pushed := w + [Entry(n + 1, now, value)];
    PushedWindow(w, n, clock, value, now);
    EvictionsAgree(pushed, cfg, n + 1, now);
    DequeIsSuffix(pushed, cfg, n + 1, now);
    ExpiryIsExact(pushed[|w|], cfg, n + 1, now);
    InOrder(pushed, cfg, n + 1, now);
    SuffixWindow(pushed, |pushed| - |EvictDeque(pushed, cfg, n + 1, now)|, n + 1, now);
  }

  /** One event: the native step stands for the reference's step. */
  lemma StepRefines(s: Native, cfg: Config, w: seq<Entry>, n: nat, clock: nat, value: nat, now: nat)
    requires Refines(s, cfg, w, n, clock) && clock <= now && Fits(cfg, n + 1, now)
    ensures var w', s' := Slide(w, cfg, n + 1, value, now), NativeNext(s, cfg, value, now);
            w' != [] && Refines(s', cfg, w', n + 1, now)
  {
    SlideIsEviction(w, cfg, n, clock, value, now);
    hide Slide;
    assert (s.counter + 1) % WORD == n + 1;
    var e := Entry(n + 1, now, value);
    if cfg.agg.Sum? || cfg.agg.Avg? {
      RunningSumExact(s, cfg, value, now);
    } else {
      EvictCommutes(w + [e], cfg, n + 1, now);
      assert (w + [e])[..|w|] == w;
    }
  }

  /** Sums and scaled thresholds that fit in a word. */
  predicate Exact(w: seq<Entry>, cfg: Config) {
    && (cfg.agg.Sum? || cfg.agg.Avg? ==> SumOf(w) < WORD)
    && (cfg.agg.Avg? ==> cfg.threshold * |w| < WORD)
  }

  lemma BelowWord(x: nat)
    requires x < WORD
    ensures x % WORD == x
  {
  }

  /** What the native rule reports is what the rescan reports. */
  lemma ReportAgrees(s: Native, cfg: Config, w: seq<Entry>, n: nat, clock: nat)
    requires Refines(s, cfg, w, n, clock) && w != [] && Exact(w, cfg)
    ensures HasFront(s, cfg)
    ensures NativeAggregate(s, cfg) == Aggregate(w, cfg.agg) && NativeMatches(s, cfg) == Matches(w, cfg)
  {
    hide Consecutive, Timed, Candidates, SumOf, Extreme;
    if cfg.agg.Min? || cfg.agg.Max? {
      FrontIsExtreme(w, cfg.agg);
    } else {
      BelowWord(SumOf(w));
      if cfg.agg.Avg? { BelowWord(cfg.threshold * |w|); }
    }
  }

  // ------------------------------------------------------------------ runs

  /** One matching event: its value and the clock reading it is evaluated with. */
  datatype Reading = Reading(value: nat, now: nat)

  function NativeRun(cfg: Config, events: seq<Reading>): Native {
    if events == [] then FRESH
    else
      var last := events[|events| - 1];
      NativeNext(NativeRun(cfg, events[..|events| - 1]), cfg, last.value, last.now)
  }

  function RescanRun(cfg: Config, events: seq<Reading>): seq<Entry> {
    if events == [] then []
    else
      var last := events[|events| - 1];
      Slide(RescanRun(cfg, events[..|events| - 1]), cfg, |events|, last.value, last.now)
  }

  ghost predicate Steady(events: seq<Reading>) {
    forall i, j :: 0 <= i < j < |events| ==> events[i].now <= events[j].now
  }

  /** Reading `j` of the run is still in the window at its end. */
  predicate StillIn(cfg: Config, events: seq<Reading>, j: nat)
    requires j < |events|
  {
    if cfg.kind.Count? then |events| - j <= cfg.size else events[j].now + cfg.size > events[|events| - 1].now
  }

  /** The window holds the last readings of the run, as they came. */
  ghost predicate HoldsLast(w: seq<Entry>, events: seq<Reading>) {
    && |w| <= |events|
    && forall i :: 0 <= i < |w| ==>
         var j := |events| - |w| + i; w[i] == Entry(j + 1, events[j].now, events[j].value)
  }

  lemma {:induction false} TimeIsSuffix(w: seq<Entry>, size: nat, now: nat)
    ensures var k := |w| - |EvictTime(w, size, now)|;
            && 0 <= k && EvictTime(w, size, now) == w[k..]
            && (forall i :: 0 <= i < k ==> w[i].time + size <= now) && (k < |w| ==> w[k].time + size > now)
    decreases |w|
  {
    if w != [] && w[0].time + size <= now {
      TimeIsSuffix(w[1..], size, now);
      var k := |w[1..]| - |EvictTime(w[1..], size, now)|;
      assert w[1..][k..] == w[k + 1..];
      assert forall i :: 0 < i < k + 1 ==> w[i] == w[1..][i - 1];
    }
  }

  /** The window holds exactly the readings that are still in it. */
  ghost predicate ExactWindow(cfg: Config, events: seq<Reading>, w: seq<Entry>) {
    HoldsLast(w, events) && forall j: nat :: j < |events| ==> (j >= |events| - |w| <==> StillIn(cfg, events, j))
  }

  /** What the rescanned window is: for a count the last `size` readings, for a time those less than `size` old. */
  lemma {:induction false} WindowIsExact(cfg: Config, events: seq<Reading>)
    requires Steady(events)
    ensures ExactWindow(cfg, events, RescanRun(cfg, events))
    decreases |events|
  {
    if events != [] {
      var k := |events| - 1;
      WindowIsExact(cfg, events[..k]);
      hide ExactWindow, Slide;
      WindowAfter(cfg, events[..k], events[k], RescanRun(cfg, events[..k]));
      assert events == events[..k] + [events[k]];
    }
  }

  lemma PushedHolds(before: seq<Reading>, last: Reading, w: seq<Entry>)
    requires HoldsLast(w, before)
    ensures HoldsLast(w + [Entry(|before| + 1, last.now, last.value)], before + [last])
  {
  }

  lemma SuffixHolds(w: seq<Entry>, events: seq<Reading>, k: nat)
    requires HoldsLast(w, events) && k <= |w|
    ensures HoldsLast(w[k..], events)
  {
  }

  lemma HeldWithin(w: seq<Entry>, events: seq<Reading>)
    requires HoldsLast(w, events)
    ensures |w| <= |events|
  {
  }

  /** What has left the window does not come back. */
  lemma OutStaysOut(cfg: Config, before: seq<Reading>, last: Reading, j: nat)
    requires j < |before| && Steady(before + [last]) && !StillIn(cfg, before, j)
    ensures !StillIn(cfg, before + [last], j)
  {
    var events := before + [last];
    assert events[j] == before[j] && events[|before| - 1] == before[|before| - 1];
    assert events[|before| - 1].now <= events[|before|].now;
  }

  lemma WindowAfter(cfg: Config, before: seq<Reading>, last: Reading, w: seq<Entry>)
    requires Steady(before + [last]) && ExactWindow(cfg, before, w)
    ensures ExactWindow(cfg, before + [last], Slide(w, cfg, |before| + 1, last.value, last.now))
  {
    var events, pushed := before + [last], w + [Entry(|before| + 1, last.now, last.value)];
    PushedHolds(before, last, w);
    forall j: nat | j < |events| - |pushed| ensures !StillIn(cfg, events, j) { OutStaysOut(cfg, before, last, j); }
    hide ExactWindow;
    if cfg.kind.Time? { TimeAfter(cfg, events, pushed); } else { CountAfter(cfg, events, pushed); }
  }

  lemma CountAfter(cfg: Config, events: seq<Reading>, pushed: seq<Entry>)
    requires cfg.kind.Count? && HoldsLast(pushed, events)
    requires forall j: nat :: j < |events| - |pushed| ==> !StillIn(cfg, events, j)
    ensures ExactWindow(cfg, events, EvictCount(pushed, cfg.size))
  {
    if |pushed| > cfg.size { SuffixHolds(pushed, events, |pushed| - cfg.size); }
    hide HoldsLast;
  }

  lemma TimeAfter(cfg: Config, events: seq<Reading>, pushed: seq<Entry>)
    requires cfg.kind.Time? && events != [] && Steady(events) && HoldsLast(pushed, events)
    requires forall j: nat :: j < |events| - |pushed| ==> !StillIn(cfg, events, j)
    ensures ExactWindow(cfg, events, EvictTime(pushed, cfg.size, events[|events| - 1].now))
  {
    hide HoldsLast, StillIn, Steady, ExactWindow;
    var now := events[|events| - 1].now;
    TimeIsSuffix(pushed, cfg.size, now);
    var w := EvictTime(pushed, cfg.size, now);
    hide EvictTime;
    HeldWithin(pushed, events);
    SuffixHolds(pushed, events, |pushed| - |w|);
    TimesStay(cfg, events, pushed, w);
    FromParts(cfg, events, |pushed|, w);
  }

  lemma FromParts(cfg: Config, events: seq<Reading>, k: nat, w: seq<Entry>)
    requires HoldsLast(w, events) && |w| <= k <= |events|
    requires forall j: nat :: j < |events| - k ==> !StillIn(cfg, events, j)
    requires forall j: nat :: |events| - k <= j < |events| ==> (j >= |events| - |w| <==> StillIn(cfg, events, j))
    ensures ExactWindow(cfg, events, w)
  {
    hide HoldsLast, StillIn;
  }

  lemma TimesStay(cfg: Config, events: seq<Reading>, pushed: seq<Entry>, w: seq<Entry>)
    requires cfg.kind.Time? && events != [] && Steady(events) && HoldsLast(pushed, events) && |w| <= |pushed|
    requires w == pushed[|pushed| - |w|..]
    requires forall i :: 0 <= i < |pushed| - |w| ==> pushed[i].time + cfg.size <= events[|events| - 1].now
    requires w != [] ==> w[0].time + cfg.size > events[|events| - 1].now
    ensures forall j: nat :: |events| - |pushed| <= j < |events| ==> (j >= |events| - |w| <==> StillIn(cfg, events, j))
  {
    forall j: nat | |events| - |pushed| <= j < |events| ensures j >= |events| - |w| <==> StillIn(cfg, events, j) {
      var i := j - (|events| - |pushed|);
      assert pushed[i] == Entry(j + 1, events[j].now, events[j].value);
      if j >= |events| - |w| {
        assert w[0] == pushed[|pushed| - |w|];
        var j0 := |events| - |w|;
        assert events[j0].now <= events[j].now;
      }
    }
  }

  /** No expiry test wraps anywhere in the run. */
  ghost predicate FitsAll(cfg: Config, events: seq<Reading>) {
    forall i :: 0 <= i < |events| ==> Fits(cfg, i + 1, events[i].now)
  }

  function Clock(events: seq<Reading>): nat { if events == [] then 0 else events[|events| - 1].now }

  lemma {:induction false} RunRefines(cfg: Config, events: seq<Reading>)
    requires Steady(events) && FitsAll(cfg, events)
    ensures Refines(NativeRun(cfg, events), cfg, RescanRun(cfg, events), |events|, Clock(events))
    ensures events != [] ==> RescanRun(cfg, events) != []
    decreases |events|
  {
    if events != [] {
      var k := |events| - 1;
      RunRefines(cfg, events[..k]);
      assert Clock(events[..k]) <= events[k].now;
      StepRefines(NativeRun(cfg, events[..k]), cfg, RescanRun(cfg, events[..k]), k, Clock(events[..k]),
                  events[k].value, events[k].now);
    }
  }

  /** `Extreme` is a value of the window that no other value passes. */
  lemma {:induction false} ExtremeIsBound(w: seq<Entry>, agg: Aggregation)
    requires w != [] && (agg.Min? || agg.Max?)
    ensures exists e :: e in w && e.value == Extreme(w, agg)
    ensures forall e :: e in w ==> if agg.Min? then Extreme(w, agg) <= e.value else e.value <= Extreme(w, agg)
    decreases |w|
  {
    var k := |w| - 1;
    assert w[k] in w;
    if k > 0 {
      var before := w[..k];
      ExtremeIsBound(before, agg);
      assert Extreme(w, agg) == if (Extreme(before, agg) < w[k].value) == agg.Min? then Extreme(before, agg) else w[k].value;
      hide Extreme;
      InOneMore(before, w);
    }
  }

  lemma InOneMore(before: seq<Entry>, w: seq<Entry>)
    requires w != [] && before == w[..|w| - 1]
    ensures forall e :: e in w <==> e in before || e == w[|w| - 1]
  {
    assert w == before + [w[|w| - 1]];
  }

  /**
    Monotonic-deque refinement: after any run the deque has a front, and it is the minimum or maximum
    of the rescanned window.
   */
  lemma DequeFrontIsExtreme(cfg: Config, events: seq<Reading>)
    requires events != [] && Steady(events) && FitsAll(cfg, events) && (cfg.agg.Min? || cfg.agg.Max?)
    ensures var q, w := NativeRun(cfg, events).deque, RescanRun(cfg, events);
            && q != [] && w != [] && q[0].value == Extreme(w, cfg.agg) && q[0] in w
            && forall e :: e in w ==> if cfg.agg.Min? then q[0].value <= e.value else e.value <= q[0].value
  {
    hide NativeRun, RescanRun;
    RunRefines(cfg, events);
    FrontIsExtreme(RescanRun(cfg, events), cfg.agg);
    ExtremeIsBound(RescanRun(cfg, events), cfg.agg);
    CandidatesInWindow(RescanRun(cfg, events), cfg.agg);
  }

  /** Both forms of a rule report the same aggregate and the same match after every run that overflows nothing. */
  lemma RuleAgrees(cfg: Config, events: seq<Reading>)
    requires events != [] && Steady(events) && FitsAll(cfg, events) && Exact(RescanRun(cfg, events), cfg)
    ensures var s, w := NativeRun(cfg, events), RescanRun(cfg, events);
            && HasFront(s, cfg) && w != []
            && NativeAggregate(s, cfg) == Aggregate(w, cfg.agg) && NativeMatches(s, cfg) == Matches(w, cfg)
  {
    hide NativeRun, RescanRun;
    RunRefines(cfg, events);
    ReportAgrees(NativeRun(cfg, events), cfg, RescanRun(cfg, events), |events|, Clock(events));
  }

  /** No wrap-around shows: the sum fits, and the product of an Avg rule fits or stays above the sum when it wraps. */
  predicate Harmless(w: seq<Entry>, cfg: Config) {
    && (cfg.agg.Sum? || cfg.agg.Avg? ==> SumOf(w) < WORD)
    && (cfg.agg.Avg? ==> cfg.threshold * |w| < WORD || SumOf(w) < cfg.threshold * |w| % WORD)
  }

  function With(cfg: Config, comparator: Comparator): Config { cfg.(comparator := comparator) }

  /** The native rule reports what a rescan reports, whichever way it compares. */
  ghost predicate SameReports(s: Native, w: seq<Entry>, cfg: Config)
    requires HasFront(s, cfg) && w != []
  {
    && NativeAggregate(s, cfg) == Aggregate(w, cfg.agg)
    && forall k :: NativeMatches(s, With(cfg, k)) == Matches(w, With(cfg, k))
  }

  /** Exactly when both forms of a rule report the same, given that no expiry test wraps. */
  lemma ReportsAgreeIff(cfg: Config, events: seq<Reading>)
    requires events != [] && Steady(events) && FitsAll(cfg, events)
    ensures var s, w := NativeRun(cfg, events), RescanRun(cfg, events);
            && HasFront(s, cfg) && w != []
            && (SameReports(s, w, cfg) <==> Harmless(w, cfg))
  {
    hide NativeRun, RescanRun;
    RunRefines(cfg, events);
    assert Fits(cfg, |events|, events[|events| - 1].now);
    SameReportsIff(NativeRun(cfg, events), cfg, RescanRun(cfg, events), |events|, Clock(events));
  }

  lemma SameReportsIff(s: Native, cfg: Config, w: seq<Entry>, n: nat, clock: nat)
    requires Refines(s, cfg, w, n, clock) && w != [] && n < WORD
    ensures HasFront(s, cfg)
    ensures SameReports(s, w, cfg) <==> Harmless(w, cfg)
  {
    hide Timed, Candidates, SumOf, Extreme;
    if cfg.agg.Min? || cfg.agg.Max? {
      FrontIsExtreme(w, cfg.agg);
    } else if cfg.agg.Avg? {
      hide Refines;
      MeanShows(SumOf(w), |w|);
      AllComparisons(SumOf(w), cfg.threshold * |w|);
      AvgReports(s, cfg, w, n, clock);
    }
  }

  lemma AvgReports(s: Native, cfg: Config, w: seq<Entry>, n: nat, clock: nat)
    requires Refines(s, cfg, w, n, clock) && w != [] && cfg.agg.Avg?
    ensures SameReports(s, w, cfg) <==>
              && SumOf(w) % WORD / |w| == SumOf(w) / |w|
              && forall k :: Compare(SumOf(w) % WORD, cfg.threshold * |w| % WORD, k) == Compare(SumOf(w), cfg.threshold * |w|, k)
  {
    hide Consecutive, Timed, SumOf, Compare;
    forall k
      ensures NativeMatches(s, With(cfg, k)) == Compare(SumOf(w) % WORD, cfg.threshold * |w| % WORD, k)
      ensures Matches(w, With(cfg, k)) == Compare(SumOf(w), cfg.threshold * |w|, k)
    {
    }
  }

  /** A sum that wraps shows in the mean. */
  lemma MeanShows(sum: nat, count: nat)
    requires 0 < count < WORD
    ensures sum % WORD / count == sum / count <==> sum < WORD
  {
    if sum >= WORD {
      var q, q' := sum / count, sum % WORD / count;
      assert sum < count * (q + 1) && count * q' <= sum % WORD <= sum - WORD;
      assert count * (q + 1) == count * q + count;
      if q' == q { assert false; }
    }
  }

  lemma AllComparisons(sum: nat, product: nat)
    ensures sum < WORD ==>
              ((forall k :: Compare(sum % WORD, product % WORD, k) == Compare(sum, product, k))
               <==> product < WORD || sum < product % WORD)
  {
    if sum < WORD && product >= WORD {
      assert Compare(sum, product, LessThan);
      if sum >= product % WORD { assert !Compare(sum % WORD, product % WORD, LessThan); }
    }
  }

  /** A threshold of 2^63 on the mean of two readings of 1: the product wraps to 0, and the native rule fires. */
  lemma ProductCanWrap()
    ensures var cfg, events := RuleConfig(1, 1, Count, 2, Avg, GreaterThan, WORD / 2, 1), [Reading(1, 0), Reading(1, 0)];
            && Steady(events) && FitsAll(cfg, events) && RescanRun(cfg, events) != []
            && NativeMatches(NativeRun(cfg, events), cfg) && !Matches(RescanRun(cfg, events), cfg)
  {
    var cfg: Config, events := RuleConfig(1, 1, Count, 2, Avg, GreaterThan, WORD / 2, 1), [Reading(1, 0), Reading(1, 0)];
    assert events[..1] == [Reading(1, 0)] && events[..1][..0] == [];
    assert RescanRun(cfg, events[..1]) == [Entry(1, 0, 1)];
    var w := [Entry(1, 0, 1), Entry(2, 0, 1)];
    assert RescanRun(cfg, events) == w;
    assert w[..1] == [Entry(1, 0, 1)] && w[..1][..0] == [];
    assert SumOf(w) == 2;
    RunRefines(cfg, events);
  }

  /** The running sum over any run: no clock, overflow or size assumption. */
  lemma {:induction false} RunningSumIsModular(cfg: Config, events: seq<Reading>)
    ensures var s := NativeRun(cfg, events); s.runningSum == SumOf(s.sumWindow) % WORD
    decreases |events|
  {
    if events != [] {
      var last := events[|events| - 1];
      RunningSumIsModular(cfg, events[..|events| - 1]);
      RunningSumExact(NativeRun(cfg, events[..|events| - 1]), cfg, last.value, last.now);
    }
  }

  function CompareReal(lhs: real, rhs: real, comparator: Comparator): bool {
    match comparator
    case GreaterThan => lhs > rhs
    case LessThan => lhs < rhs
    case Equal => lhs == rhs
  }

  /** The cross-multiplied test of an Avg rule is the comparison of the exact mean. */
  lemma AvgIsExactMean(cfg: Config, events: seq<Reading>)
    requires events != [] && Steady(events) && FitsAll(cfg, events)
    requires cfg.agg.Avg? && Exact(RescanRun(cfg, events), cfg)
    ensures var s, w := NativeRun(cfg, events), RescanRun(cfg, events);
            && w != []
            && NativeMatches(s, cfg)
               == CompareReal(SumOf(w) as real / |w| as real, cfg.threshold as real, cfg.comparator)
            && NativeAggregate(s, cfg) == (SumOf(w) as real / |w| as real).Floor
  {
    RuleAgrees(cfg, events);
    var w := RescanRun(cfg, events);
    CrossMultiply(SumOf(w), |w|, cfg.threshold);
    FloorOfMean(SumOf(w), |w|);
  }

  lemma CrossMultiply(sum: nat, count: nat, threshold: nat)
    requires count > 0
    ensures sum > threshold * count <==> sum as real / count as real > threshold as real
    ensures sum < threshold * count <==> sum as real / count as real < threshold as real
  {
    var mean := sum as real / count as real;
    assert mean * count as real == sum as real;
    assert (threshold * count) as real == threshold as real * count as real;
    assert sum as real - (threshold * count) as real == (mean - threshold as real) * count as real;
  }

  lemma FloorOfMean(sum: nat, count: nat)
    requires count > 0
    ensures sum / count == (sum as real / count as real).Floor
  {
    var q, r := sum / count, sum % count;
    assert sum == q * count + r;
    var mean := sum as real / count as real;
    assert mean * count as real == sum as real == q as real * count as real + r as real;
    var d := mean - q as real;
    assert d * count as real == r as real;
    assert d < 0.0 ==> d * count as real < 0.0;
    assert d >= 1.0 ==> d * count as real >= count as real;
  }

  // -------------------------------------------------------------- overflow

  lemma {:induction false} RunCounts(cfg: Config, events: seq<Reading>)
    requires |events| < WORD
    ensures NativeRun(cfg, events).counter == |events|
    decreases |events|
  {
    if events != [] {
      RunCounts(cfg, events[..|events| - 1]);
      assert |events| % WORD == |events|;
    }
  }

  /** Each value beats all earlier ones, so the deque never holds more than the newest entry. */
  function Rising(agg: Aggregation, n: nat, now: nat): seq<Reading> {
    if n == 0 then [] else Rising(agg, n - 1, now) + [Reading(RisingValue(agg, n), now)]
  }

  function RisingValue(agg: Aggregation, n: nat): nat {
    if agg.Min? then (if n < WORD then WORD - n else 0) else n
  }

  lemma {:induction false} AllBeaten(q: seq<Entry>, agg: Aggregation, value: nat)
    requires forall e :: e in q ==> Beats(agg, value, e.value)
    ensures PopBeaten(q, agg, value) == []
    decreases |q|
  {
    if q != [] { AllBeaten(q[..|q| - 1], agg, value); }
  }

  lemma EvictOne(e: Entry, cfg: Config, n: nat, now: nat)
    ensures EvictDeque([e], cfg, n, now) == if Expired(e, cfg, n, now) then [] else [e]
  {
    assert [e][1..] == [];
  }

  lemma {:induction false} RisingDeque(cfg: Config, n: nat, now: nat)
    requires n < WORD && (cfg.agg.Min? || cfg.agg.Max?)
    ensures |Rising(cfg.agg, n, now)| == n && (n > 0 ==> Clock(Rising(cfg.agg, n, now)) == now)
    ensures var q, e := NativeRun(cfg, Rising(cfg.agg, n, now)).deque, Entry(n, now, RisingValue(cfg.agg, n));
            q == if n == 0 || Expired(e, cfg, n, now) then [] else [e]
    decreases n
  {
    hide Expired, EvictDeque, PopBeaten;
    if n > 0 {
      var events, before := Rising(cfg.agg, n, now), Rising(cfg.agg, n - 1, now);
      RisingDeque(cfg, n - 1, now);
      assert events[..|events| - 1] == before;
      RunCounts(cfg, before);
      RisingStep(NativeRun(cfg, before), cfg, n, now);
    }
  }

  lemma RisingStep(s: Native, cfg: Config, n: nat, now: nat)
    requires 0 < n < WORD && (cfg.agg.Min? || cfg.agg.Max?) && s.counter == n - 1
    requires forall e :: e in s.deque ==> e.value == RisingValue(cfg.agg, n - 1)
    ensures var e := Entry(n, now, RisingValue(cfg.agg, n));
            NativeNext(s, cfg, e.value, now).deque == if Expired(e, cfg, n, now) then [] else [e]
  {
    hide Expired, EvictDeque, PopBeaten;
    var e := Entry(n, now, RisingValue(cfg.agg, n));
    BelowWord(n);
    AllBeaten(s.deque, cfg.agg, e.value);
    EvictOne(e, cfg, n, now);
    assert [] + [e] == [e];
  }

  /** The native deque has a front after this run. */
  ghost predicate FrontAfter(cfg: Config, events: seq<Reading>) {
    NativeRun(cfg, events).deque != []
  }

  /** The entry just pushed does not count as expired exactly if its expiry test does not wrap. */
  lemma NewestExpiresIff(cfg: Config, n: nat, now: nat, value: nat)
    requires cfg.size < WORD && n < WORD && now < WORD
    ensures Expired(Entry(n, now, value), cfg, n, now) <==> !Fits(cfg, n, now)
  {
  }

  lemma NewestKeepsFront(cfg: Config, events: seq<Reading>)
    requires cfg.size < WORD && 0 < |events| < WORD && Clock(events) < WORD && (cfg.agg.Min? || cfg.agg.Max?)
    requires Fits(cfg, |events|, Clock(events))
    ensures FrontAfter(cfg, events)
  {
    var k := |events| - 1;
    RunCounts(cfg, events[..k]);
    var s, e := NativeRun(cfg, events[..k]), Entry(k + 1, events[k].now, events[k].value);
    assert (k + 1) % WORD == k + 1;
    NewestExpiresIff(cfg, k + 1, events[k].now, events[k].value);
    DequeIsSuffix(PopBeaten(s.deque, cfg.agg, e.value) + [e], cfg, k + 1, e.time);
  }

  /**
    Over all runs of `n` events that end at clock reading `now`, the deque has a front whatever the values
    are, exactly when the newest entry's expiry test does not wrap.
   */
  lemma HasFrontIffFits(cfg: Config, n: nat, now: nat)
    requires cfg.size < WORD && 0 < n < WORD && now < WORD && (cfg.agg.Min? || cfg.agg.Max?)
    ensures (forall events: seq<Reading> :: |events| == n && Clock(events) == now ==> FrontAfter(cfg, events))
            <==> Fits(cfg, n, now)
  {
    hide NativeRun, Fits, Expired;
    if Fits(cfg, n, now) {
      forall events: seq<Reading> | |events| == n && Clock(events) == now ensures FrontAfter(cfg, events) {
        NewestKeepsFront(cfg, events);
      }
    } else {
      RisingDeque(cfg, n, now);
      NewestExpiresIff(cfg, n, now, RisingValue(cfg.agg, n));
      assert !FrontAfter(cfg, Rising(cfg.agg, n, now));
    }
  }
}
