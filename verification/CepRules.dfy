/**
  The two window-rule objects and the two engines' evaluation loops, in place as in the source,
  each proved equal to the functions of `Cep` and `Engine`.
 */
module CepRules {
  import opened Modular
  import opened Cep
  import opened Engine

  lemma {:induction false} TakeOffOneMore(sum: nat, evicted: seq<Entry>, e: Entry)
    ensures TakeOff(sum, evicted + [e]) == Subtract(TakeOff(sum, evicted), e.value)
    decreases |evicted|
  {
    if evicted == [] {
      assert [] + [e] == [e] && [e][1..] == [];
    } else {
      TakeOffOneMore(Subtract(sum, evicted[0].value), evicted[1..], e);
      assert (evicted + [e])[1..] == evicted[1..] + [e];
    }
  }

  /** `CepRuleState` of the native engine. */
  class CepRuleState {
    const cfg: Config
    var sequenceCounter: nat
    var sumWindow: seq<Entry>
    var runningSum: nat
    var minMonotonic: seq<Entry>
    var maxMonotonic: seq<Entry>
    ghost var pushes: nat
    ghost var pops: nat

    constructor (c: RuleConfig)
      ensures cfg == Registered(c) && State() == FRESH && Balanced()
    {
      cfg := Registered(c);
      sequenceCounter, sumWindow, runningSum, minMonotonic, maxMonotonic := 0, [], 0, [], [];
      pushes, pops := 0, 0;
    }

    function State(): Native
      reads this
    {
      Native(sequenceCounter, sumWindow, runningSum, if cfg.agg.Min? then minMonotonic else maxMonotonic)
    }

    /** Amortised cost: over the rule's life, deque entries popped plus entries still held are those pushed. */
    ghost predicate Balanced()
      reads this
    {
      pops + |minMonotonic| + |maxMonotonic| == pushes
    }

    method OnEvent(value: nat, now: nat) returns (matched: bool, aggregated: nat)
      requires HasFront(NativeNext(State(), cfg, value, now), cfg) && Balanced()
      modifies this
      ensures State() == NativeNext(old(State()), cfg, value, now)
      ensures HasFront(State(), cfg) && matched == NativeMatches(State(), cfg) && aggregated == NativeAggregate(State(), cfg)
      ensures Balanced() && pushes <= old(pushes) + 1
    {
      hide EvictFifo, EvictDeque, PopBeaten, TakeOff;
      sequenceCounter := (sequenceCounter + 1) % WORD;
      var entry := Entry(sequenceCounter, now, value);
      match cfg.agg {
        case Sum =>
          AddToSum(entry);
          aggregated := runningSum;
          matched := Compare(runningSum, cfg.threshold, cfg.comparator);
        case Avg =>
          AddToSum(entry);
          var count := |sumWindow|;
          aggregated := if count != 0 then runningSum / count else 0;
          matched := Compare(runningSum, cfg.threshold * count % WORD, cfg.comparator);
        case Max =>
          AddToMax(entry);
          aggregated := maxMonotonic[0].value;
          matched := Compare(aggregated, cfg.threshold, cfg.comparator);
        case Min =>
          AddToMin(entry);
          aggregated := minMonotonic[0].value;
          matched := Compare(aggregated, cfg.threshold, cfg.comparator);
      }
    }

    method AddToSum(entry: Entry)
      modifies `sumWindow, `runningSum
      ensures var pushed := old(sumWindow) + [entry];
              && sumWindow == EvictFifo(pushed, cfg, entry.time)
              && runningSum == TakeOff((old(runningSum) + entry.value) % WORD, pushed[..|pushed| - |sumWindow|])
    {
      sumWindow := sumWindow + [entry];
      runningSum := (runningSum + entry.value) % WORD;
      ghost var pushed, sum := sumWindow, runningSum;
      ghost var k := 0;
      assert pushed[..0] == [] && pushed[0..] == pushed;
      if cfg.kind == Count {
        while |sumWindow| > cfg.size
          invariant k <= |pushed| && sumWindow == pushed[k..] && runningSum == TakeOff(sum, pushed[..k])
          invariant k == 0 || |sumWindow| >= cfg.size
        {
          PopFront(pushed, sum, k);
          k := k + 1;
        }
      } else {
        while sumWindow != [] && (sumWindow[0].time + cfg.size) % WORD <= entry.time
          invariant k <= |pushed| && sumWindow == pushed[k..] && runningSum == TakeOff(sum, pushed[..k])
          invariant EvictFifo(sumWindow, cfg, entry.time) == EvictFifo(pushed, cfg, entry.time)
        {
          PopFront(pushed, sum, k);
          k := k + 1;
        }
      }
    }

    /** Subtracts the oldest value and drops it. */
    method PopFront(ghost pushed: seq<Entry>, ghost sum: nat, ghost k: nat)
      requires k < |pushed| && sumWindow == pushed[k..] && runningSum == TakeOff(sum, pushed[..k])
      modifies `sumWindow, `runningSum
      ensures sumWindow == old(sumWindow)[1..] == pushed[k + 1..]
      ensures runningSum == TakeOff(sum, pushed[..k + 1])
    {
      TakeOffOneMore(sum, pushed[..k], pushed[k]);
      assert pushed[..k] + [pushed[k]] == pushed[..k + 1];
      runningSum := Subtract(runningSum, sumWindow[0].value);
      sumWindow := sumWindow[1..];
    }

    method AddToMax(entry: Entry)
      requires Balanced()
      modifies `maxMonotonic, `pushes, `pops
      ensures maxMonotonic == EvictDeque(PopBeaten(old(maxMonotonic), Max, entry.value) + [entry], cfg, sequenceCounter, entry.time)
      ensures Balanced() && pushes == old(pushes) + 1
    {
      while maxMonotonic != [] && maxMonotonic[|maxMonotonic| - 1].value <= entry.value
        invariant PopBeaten(maxMonotonic, Max, entry.value) == PopBeaten(old(maxMonotonic), Max, entry.value)
        invariant Balanced() && pushes == old(pushes)
        decreases |maxMonotonic|
      {
        maxMonotonic := maxMonotonic[..|maxMonotonic| - 1];
        pops := pops + 1;
      }
      maxMonotonic := maxMonotonic + [entry];
      pushes := pushes + 1;
      ghost var before := |maxMonotonic|;
      maxMonotonic := EvictMonotonic(maxMonotonic, entry.time);
      pops := pops + before - |maxMonotonic|;
    }

    method AddToMin(entry: Entry)
      requires Balanced()
      modifies `minMonotonic, `pushes, `pops
      ensures minMonotonic == EvictDeque(PopBeaten(old(minMonotonic), Min, entry.value) + [entry], cfg, sequenceCounter, entry.time)
      ensures Balanced() && pushes == old(pushes) + 1
    {
      while minMonotonic != [] && minMonotonic[|minMonotonic| - 1].value >= entry.value
        invariant PopBeaten(minMonotonic, Min, entry.value) == PopBeaten(old(minMonotonic), Min, entry.value)
        invariant Balanced() && pushes == old(pushes)
        decreases |minMonotonic|
      {
        minMonotonic := minMonotonic[..|minMonotonic| - 1];
        pops := pops + 1;
      }
      minMonotonic := minMonotonic + [entry];
      pushes := pushes + 1;
      ghost var before := |minMonotonic|;
      minMonotonic := EvictMonotonic(minMonotonic, entry.time);
      pops := pops + before - |minMonotonic|;
    }

    method EvictMonotonic(q: seq<Entry>, now: nat) returns (q': seq<Entry>)
      ensures q' == EvictDeque(q, cfg, sequenceCounter, now) && |q'| <= |q|
    {
      q' := q;
      if cfg.kind == Count {
        while q' != [] && (q'[0].sequence + cfg.size) % WORD <= sequenceCounter
          invariant EvictDeque(q', cfg, sequenceCounter, now) == EvictDeque(q, cfg, sequenceCounter, now) && |q'| <= |q|
          decreases |q'|
        {
          q' := q'[1..];
        }
      } else {
        while q' != [] && (q'[0].time + cfg.size) % WORD <= now
          invariant EvictDeque(q', cfg, sequenceCounter, now) == EvictDeque(q, cfg, sequenceCounter, now) && |q'| <= |q|
          decreases |q'|
        {
          q' := q'[1..];
        }
      }
    }
  }

  /** `_CepRuleState` of the fallback engine. */
  class RescanState {
    const cfg: Config
    var window: seq<Entry>
    var sequence: nat

    constructor (c: RuleConfig)
      ensures State() == RescanRule(Registered(c), [], 0)
    {
      cfg := Registered(c);
      window, sequence := [], 0;
    }

    function State(): RescanRule
      reads this
    {
      RescanRule(cfg, window, sequence)
    }

    method OnEvent(value: nat, now: nat) returns (matched: bool, aggregated: nat)
      modifies this
      ensures sequence == old(sequence) + 1 && window == Slide(old(window), cfg, sequence, value, now) && window != []
      ensures matched == Matches(window, cfg) && aggregated == Aggregate(window, cfg.agg)
    {
      hide EvictTime, EvictCount, SumOf, Extreme;
      SlideNotEmpty(window, cfg, sequence + 1, value, now);
      sequence := sequence + 1;
      window := window + [Entry(sequence, now, value)];
      Evict(now);
      match cfg.agg {
        case Sum =>
          aggregated := ScanSum();
          matched := Compare(aggregated, cfg.threshold, cfg.comparator);
        case Avg =>
          var total := ScanSum();
          aggregated := total / |window|;
          matched := Compare(total, cfg.threshold * |window|, cfg.comparator);
        case _ =>
          aggregated := ScanExtreme();
          matched := Compare(aggregated, cfg.threshold, cfg.comparator);
      }
    }

    /** The two eviction loops. */
    method Evict(now: nat)
      modifies `window
      ensures window == if cfg.kind.Count? then EvictCount(old(window), cfg.size) else EvictTime(old(window), cfg.size, now)
    {
      ghost var pushed := window;
      if cfg.kind == Count {
        ghost var k := 0;
        while |window| > cfg.size
          invariant k <= |pushed| && window == pushed[k..] && (k == 0 || |window| >= cfg.size)
        {
          window := window[1..];
          k := k + 1;
        }
      } else {
        while window != [] && window[0].time + cfg.size <= now
          invariant EvictTime(window, cfg.size, now) == EvictTime(pushed, cfg.size, now)
          decreases |window|
        {
          window := window[1..];
        }
      }
    }

    method ScanSum() returns (total: nat)
      ensures total == SumOf(window)
    {
      total := 0;
      for i := 0 to |window|
        invariant total == SumOf(window[..i])
      {
        total := total + window[i].value;
        assert window[..i + 1][..i] == window[..i];
      }
      assert window[..|window|] == window;
    }

    method ScanExtreme() returns (best: nat)
      requires window != []
      ensures best == Extreme(window, cfg.agg)
    {
      best := window[0].value;
      for i := 1 to |window|
        invariant best == Extreme(window[..i], cfg.agg)
      {
        var v := window[i].value;
        if (if cfg.agg.Min? then v < best else v > best) {
          best := v;
        }
        assert window[..i + 1][..i] == window[..i];
      }
      assert window[..|window|] == window;
    }
  }

  /** The native engine's rule sets and the signals it has emitted. */
  class EngineImpl {
    var rules: seq<Rule>
    var cepRules: seq<CepRuleState>
    var signals: seq<Signal>

    ghost predicate Valid()
      reads this, cepRules
    {
      && (forall i, j :: 0 <= i < j < |cepRules| ==> cepRules[i] != cepRules[j])
      && (forall i :: 0 <= i < |cepRules| ==> cepRules[i].Balanced())
    }

    ghost function Ceps(): seq<NativeRule>
      reads this, cepRules
    {
      seq(|cepRules|, i requires 0 <= i < |cepRules| reads this, cepRules => NativeRule(cepRules[i].cfg, cepRules[i].State()))
    }

    method EvaluateRules(p: Payload)
      modifies `signals
      ensures signals == old(signals) + RuleSignals(rules, p)
    {
      for i := 0 to |rules|
        invariant signals == old(signals) + RuleSignals(rules[..i], p)
      {
        var rule := rules[i];
        assert rules[..i + 1][..i] == rules[..i];
        if rule.eventId == p.eventId {
          var matched := Compare(p.value, rule.threshold, rule.comparator);
          if matched {
            signals := signals + [Signal(p.cycles, p.eventId, p.traceId, p.value, rule.ruleId, rule.severity)];
          }
        }
      }
      assert rules[..|rules|] == rules;
    }

    /** The loop body of `evaluate_cep_rules`. */
    method EvaluateCepRule(rule: CepRuleState, p: Payload, now: nat)
      requires rule.Balanced() && NativeDefined(NativeRule(rule.cfg, rule.State()), Event(p, now))
      modifies `signals, rule
      ensures rule.Balanced()
      ensures NativeRule(rule.cfg, rule.State()) == NativeStep(old(NativeRule(rule.cfg, rule.State())), Event(p, now))
      ensures signals == old(signals) + NativeSignal(old(NativeRule(rule.cfg, rule.State())), Event(p, now))
    {
      if rule.cfg.eventId == p.eventId {
        var matched, aggregated := rule.OnEvent(p.value, now);
        if matched {
          signals := signals + [Signal(p.cycles, p.eventId, p.traceId, aggregated, rule.cfg.ruleId, rule.cfg.severity)];
        }
      }
    }

    method EvaluateCepRules(p: Payload, now: nat)
      requires Valid() && AllDefined(Ceps(), Event(p, now))
      modifies `signals, cepRules
      ensures Valid() && Ceps() == NativeSteps(old(Ceps()), Event(p, now))
      ensures signals == old(signals) + NativeSignals(old(Ceps()), Event(p, now))
    {
      hide NativeStep, NativeSignal, NativeDefined, CepRuleState.Balanced, CepRuleState.State;
      ghost var before, e := Ceps(), Event(p, now);
      for i := 0 to |cepRules|
        invariant Valid()
        invariant forall k :: 0 <= k < i ==> NativeRule(cepRules[k].cfg, cepRules[k].State()) == NativeStep(before[k], e)
        invariant forall k :: i <= k < |cepRules| ==> NativeRule(cepRules[k].cfg, cepRules[k].State()) == before[k]
        invariant signals == old(signals) + NativeSignals(before[..i], e)
      {
        assert NativeDefined(before[i], e);
        EvaluateCepRule(cepRules[i], p, now);
        assert before[..i + 1][..i] == before[..i];
      }
      assert before[..|before|] == before;
    }

    /** One payload of a batch. */
    method Evaluate(p: Payload, now: nat)
      requires Valid() && AllDefined(Ceps(), Event(p, now))
      modifies `signals, cepRules
      ensures Valid() && Ceps() == NativeSteps(old(Ceps()), Event(p, now))
      ensures signals == old(signals) + RuleSignals(rules, p) + NativeSignals(old(Ceps()), Event(p, now))
    {
      ghost var before := Ceps();
      EvaluateRules(p);
      assert Ceps() == before;
      EvaluateCepRules(p, now);
    }
  }

  /** The fallback engine's. */
  class PurePythonEngine {
    var rules: seq<Rule>
    var cepRules: seq<RescanState>
    var signals: seq<Signal>

    ghost predicate Valid()
      reads this
    {
      forall i, j :: 0 <= i < j < |cepRules| ==> cepRules[i] != cepRules[j]
    }

    ghost function Ceps(): seq<RescanRule>
      reads this, cepRules
    {
      seq(|cepRules|, i requires 0 <= i < |cepRules| reads this, cepRules => cepRules[i].State())
    }

    method Evaluate(p: Payload, now: nat)
      requires Valid()
      modifies `signals, cepRules
      ensures Valid() && Ceps() == RescanSteps(old(Ceps()), Event(p, now))
      ensures signals == old(signals) + RuleSignals(rules, p) + RescanSignals(old(Ceps()), Event(p, now))
    {
      ghost var before := Ceps();
      for i := 0 to |rules|
        invariant signals == old(signals) + RuleSignals(rules[..i], p) && Ceps() == before
      {
        var rule := rules[i];
        assert rules[..i + 1][..i] == rules[..i];
        if rule.eventId == p.eventId && Compare(p.value, rule.threshold, rule.comparator) {
          signals := signals + [Signal(p.cycles, p.eventId, p.traceId, p.value, rule.ruleId, rule.severity)];
        }
      }
      assert rules[..|rules|] == rules;
      EvaluateWindows(p, now);
    }

    method EvaluateWindow(rule: RescanState, p: Payload, now: nat)
      modifies `signals, rule
      ensures rule.State() == RescanStep(old(rule.State()), Event(p, now))
      ensures signals == old(signals) + RescanSignal(old(rule.State()), Event(p, now))
    {
      if rule.cfg.eventId == p.eventId {
        var matched, aggregated := rule.OnEvent(p.value, now);
        if matched {
          signals := signals + [Signal(p.cycles, p.eventId, p.traceId, aggregated, rule.cfg.ruleId, rule.cfg.severity)];
        }
      }
    }

    method EvaluateWindows(p: Payload, now: nat)
      requires Valid()
      modifies `signals, cepRules
      ensures Valid() && Ceps() == RescanSteps(old(Ceps()), Event(p, now))
      ensures signals == old(signals) + RescanSignals(old(Ceps()), Event(p, now))
    {
      hide RescanStep, RescanSignal;
      ghost var before, e := Ceps(), Event(p, now);
      for i := 0 to |cepRules|
        invariant Valid()
        invariant forall k :: 0 <= k < i ==> cepRules[k].State() == RescanStep(before[k], e)
        invariant forall k :: i <= k < |cepRules| ==> cepRules[k].State() == before[k]
        invariant signals == old(signals) + RescanSignals(before[..i], e)
      {
        EvaluateWindow(cepRules[i], p, now);
        assert before[..i + 1][..i] == before[..i];
      }
      assert before[..|before|] == before;
    }
  }
}
