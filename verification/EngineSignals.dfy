/**
  What a signal says, stated without the functions both engines share: which rules fire on an event, on which
  measure of which window, what each signal carries and in which order the signals come.
 */
module EngineSignals {
  import opened Cep
  import opened CepRefinement
  import opened Engine

  // ------------------------------------------------------------ window rules

  /** `m` is the sum, mean, minimum or maximum of the window. */
  ghost predicate Measures(agg: Aggregation, w: seq<Entry>, m: real) {
    match agg
    case Sum => m == SumOf(w) as real
    case Avg => |w| > 0 && m == SumOf(w) as real / |w| as real
    case Min => (exists e :: e in w && e.value as real == m) && forall e :: e in w ==> m <= e.value as real
    case Max => (exists e :: e in w && e.value as real == m) && forall e :: e in w ==> e.value as real <= m
  }

  /** The measure passes the rule's comparison. */
  predicate Passes(m: real, cfg: Config) {
    match cfg.comparator
    case GreaterThan => m > cfg.threshold as real
    case LessThan => m < cfg.threshold as real
    case Equal => m == cfg.threshold as real
  }

  /** The rule's window with this event in it. */
  function WindowWith(r: RescanRule, e: Event): seq<Entry> {
    Slide(r.window, r.cfg, r.sequence + 1, e.payload.value, e.now)
  }

  /** Rule `r` fires on event `e` with signal `s`, which carries the measure, rounded down. */
  ghost predicate FiresWith(r: RescanRule, e: Event, s: Signal) {
    && r.cfg.eventId == e.payload.eventId
    && exists m: real :: Measures(r.cfg.agg, WindowWith(r, e), m) && Passes(m, r.cfg)
         && s == Signal(e.payload.cycles, e.payload.eventId, e.payload.traceId, m.Floor, r.cfg.ruleId, r.cfg.severity)
  }

  /** The one measure of a window that is not empty. */
  function MeasureOf(agg: Aggregation, w: seq<Entry>): real
    requires w != []
  {
    match agg
    case Sum => SumOf(w) as real
    case Avg => SumOf(w) as real / |w| as real
    case _ => Extreme(w, agg) as real
  }

  lemma MeasureIsOne(agg: Aggregation, w: seq<Entry>, m: real)
    requires w != []
    ensures Measures(agg, w, m) <==> m == MeasureOf(agg, w)
  {
    if agg.Min? || agg.Max? {
      ExtremeIsBound(w, agg);
      hide Extreme;
      if Measures(agg, w, m) {
        var e :| e in w && e.value as real == m;
        var e' :| e' in w && e'.value == Extreme(w, agg);
      }
    }
  }

  lemma ReportIsMeasure(w: seq<Entry>, cfg: Config)
    requires w != []
    ensures Matches(w, cfg) == Passes(MeasureOf(cfg.agg, w), cfg) && Aggregate(w, cfg.agg) == MeasureOf(cfg.agg, w).Floor
  {
    hide SumOf, Extreme;
    if cfg.agg.Avg? {
      CrossMultiply(SumOf(w), |w|, cfg.threshold);
      FloorOfMean(SumOf(w), |w|);
    }
  }

  /** A window rule emits at most one signal, and it is the one it fires with. */
  lemma WindowSignalExact(r: RescanRule, e: Event)
    ensures |RescanSignal(r, e)| <= 1
    ensures forall s :: s in RescanSignal(r, e) <==> FiresWith(r, e, s)
  {
    if r.cfg.eventId == e.payload.eventId {
      SlideNotEmpty(r.window, r.cfg, r.sequence + 1, e.payload.value, e.now);
      hide Slide;
      var w := WindowWith(r, e);
      ReportIsMeasure(w, r.cfg);
      forall m: real ensures Measures(r.cfg.agg, w, m) <==> m == MeasureOf(r.cfg.agg, w) { MeasureIsOne(r.cfg.agg, w, m); }
      hide Measures, MeasureOf, Passes, Matches, Aggregate;
      var m := MeasureOf(r.cfg.agg, w);
      assert Measures(r.cfg.agg, w, m);
    }
  }

  ghost predicate Increasing(order: seq<nat>) {
    forall j, k :: 0 <= j < k < |order| ==> order[j] < order[k]
  }

  /** Rule `i` of `ceps` fires on `e`. */
  ghost predicate RuleFires(ceps: seq<RescanRule>, e: Event, i: nat) {
    i < |ceps| && exists s :: FiresWith(ceps[i], e, s)
  }

  /** `signals` are, in registration order, one for each rule that fires. */
  ghost predicate InOrder(ceps: seq<RescanRule>, e: Event, order: seq<nat>, signals: seq<Signal>) {
    && |order| == |signals| && Increasing(order)
    && (forall i: nat :: i in order <==> RuleFires(ceps, e, i))
    && (forall k :: 0 <= k < |order| ==> order[k] < |ceps| && FiresWith(ceps[order[k]], e, signals[k]))
  }

  /** What the rules before the last one do does not depend on it. */
  lemma FiresBefore(ceps: seq<RescanRule>, e: Event, i: nat)
    requires ceps != []
    ensures i < |ceps| - 1 ==> (RuleFires(ceps[..|ceps| - 1], e, i) <==> RuleFires(ceps, e, i))
    ensures RuleFires(ceps[..|ceps| - 1], e, i) ==> i < |ceps| - 1
  {
    hide FiresWith;
    if i < |ceps| - 1 { assert ceps[..|ceps| - 1][i] == ceps[i]; }
  }

  lemma LastIsQuiet(ceps: seq<RescanRule>, e: Event, order: seq<nat>, signals: seq<Signal>)
    requires ceps != [] && InOrder(ceps[..|ceps| - 1], e, order, signals) && !RuleFires(ceps, e, |ceps| - 1)
    ensures InOrder(ceps, e, order, signals)
  {
    hide FiresWith;
    forall i: nat ensures i in order <==> RuleFires(ceps, e, i) {
      FiresBefore(ceps, e, i);
      if i >= |ceps| - 1 { assert i == |ceps| - 1 || i >= |ceps|; }
    }
  }

  lemma LastFires(ceps: seq<RescanRule>, e: Event, order: seq<nat>, signals: seq<Signal>, s: Signal)
    requires ceps != [] && InOrder(ceps[..|ceps| - 1], e, order, signals) && FiresWith(ceps[|ceps| - 1], e, s)
    ensures InOrder(ceps, e, order + [|ceps| - 1], signals + [s])
  {
    hide FiresWith;
    var k := |ceps| - 1;
    assert RuleFires(ceps, e, k);
    forall i: nat ensures i in order + [k] <==> RuleFires(ceps, e, i) {
      FiresBefore(ceps, e, i);
      assert i in order + [k] <==> i in order || i == k;
    }
  }

  lemma {:induction false} WindowSignalsInOrder(ceps: seq<RescanRule>, e: Event) returns (order: seq<nat>)
    ensures InOrder(ceps, e, order, RescanSignals(ceps, e))
    decreases |ceps|
  {
    order := [];
    if ceps != [] {
      var k := |ceps| - 1;
      order := WindowSignalsInOrder(ceps[..k], e);
      WindowSignalExact(ceps[k], e);
      hide FiresWith, RescanSignal, InOrder;
      var last := RescanSignal(ceps[k], e);
      if last == [] {
        assert !RuleFires(ceps, e, k);
        assert RescanSignals(ceps, e) == RescanSignals(ceps[..k], e) + [] == RescanSignals(ceps[..k], e);
        LastIsQuiet(ceps, e, order, RescanSignals(ceps[..k], e));
      } else {
        assert last == [last[0]] && last[0] in last;
        LastFires(ceps, e, order, RescanSignals(ceps[..k], e), last[0]);
        order := order + [k];
      }
    }
  }

  /** A signal is emitted exactly if some window rule fires with it. */
  lemma WindowSignalsExact(ceps: seq<RescanRule>, e: Event, s: Signal)
    ensures s in RescanSignals(ceps, e) <==> exists i :: 0 <= i < |ceps| && FiresWith(ceps[i], e, s)
  {
    hide FiresWith;
    var order := WindowSignalsInOrder(ceps, e);
    var signals := RescanSignals(ceps, e);
    if s in signals {
      var k :| 0 <= k < |signals| && signals[k] == s;
      assert FiresWith(ceps[order[k]], e, s);
    }
    if i :| 0 <= i < |ceps| && FiresWith(ceps[i], e, s) {
      assert RuleFires(ceps, e, i) && i in order;
      var k :| 0 <= k < |order| && order[k] == i;
      OneSignal(ceps[i], e, s, signals[k]);
    }
  }

  lemma OneSignal(r: RescanRule, e: Event, s: Signal, s': Signal)
    requires FiresWith(r, e, s) && FiresWith(r, e, s')
    ensures s == s'
  {
    hide FiresWith;
    WindowSignalExact(r, e);
    assert s in RescanSignal(r, e) && s' in RescanSignal(r, e);
  }

  // ------------------------------------------------------------- plain rules

  /** `signals` are, in registration order, one for each plain rule that fires. */
  ghost predicate PlainInOrder(rules: seq<Rule>, p: Payload, order: seq<nat>, signals: seq<Signal>) {
    && |order| == |signals| && Increasing(order)
    && (forall i: nat :: i in order <==> PlainFires(rules, p, i))
    && (forall k :: 0 <= k < |order| ==> order[k] < |rules| && FiresAs(rules[order[k]], p, signals[k]))
  }

  ghost predicate PlainFires(rules: seq<Rule>, p: Payload, i: nat) {
    i < |rules| && exists s :: FiresAs(rules[i], p, s)
  }

  lemma {:induction false} PlainSignalsInOrder(rules: seq<Rule>, p: Payload) returns (order: seq<nat>)
    ensures PlainInOrder(rules, p, order, RuleSignals(rules, p))
    decreases |rules|
  {
    order := [];
    if rules != [] {
      var k := |rules| - 1;
      var before := PlainSignalsInOrder(rules[..k], p);
      var last := RuleSignal(rules[k], p);
      assert forall s :: s in last <==> FiresAs(rules[k], p, s);
      hide FiresAs;
      forall i: nat | i < k ensures PlainFires(rules[..k], p, i) <==> PlainFires(rules, p, i) { assert rules[..k][i] == rules[i]; }
      forall i: nat | i in before ensures i < k { assert PlainFires(rules[..k], p, i); }
      if last == [] {
        order := before;
      } else {
        order := before + [k];
        assert last[0] in last;
        assert PlainFires(rules, p, k);
      }
    }
  }

  // ------------------------------------------------------------- whole runs

  /** The readings a rule for event id `id` has seen. */
  function Readings(events: seq<Event>, id: nat): seq<Reading> {
    if events == [] then []
    else
      var last := events[|events| - 1];
      Readings(events[..|events| - 1], id)
      + if last.payload.eventId == id then [Reading(last.payload.value, last.now)] else []
  }

  /** The window rules after a run. */
  function After(ceps: seq<RescanRule>, events: seq<Event>): seq<RescanRule> {
    if events == [] then ceps else RescanSteps(After(ceps, events[..|events| - 1]), events[|events| - 1])
  }

  /** A rule's window is the sliding window over the readings of its own events, and of no others. */
  lemma {:induction false} WindowsAreHistories(cfgs: seq<Config>, events: seq<Event>, i: nat)
    requires i < |cfgs|
    ensures var seen := Readings(events, cfgs[i].eventId);
            && |After(FreshRescan(cfgs), events)| == |cfgs|
            && After(FreshRescan(cfgs), events)[i] == RescanRule(cfgs[i], RescanRun(cfgs[i], seen), |seen|)
    decreases |events|
  {
    hide Slide;
    if events != [] {
      var k := |events| - 1;
      WindowsAreHistories(cfgs, events[..k], i);
      var before := Readings(events[..k], cfgs[i].eventId);
      var seen := Readings(events, cfgs[i].eventId);
      if events[k].payload.eventId == cfgs[i].eventId {
        assert seen[..|seen| - 1] == before;
      } else {
        assert seen == before + [] == before;
      }
    }
  }

  lemma {:induction false} AfterFirst(ceps: seq<RescanRule>, events: seq<Event>)
    requires events != []
    ensures After(ceps, events) == After(RescanSteps(ceps, events[0]), events[1..])
    decreases |events|
  {
    var k := |events| - 1;
    if k > 0 {
      AfterFirst(ceps, events[..k]);
      assert events[..k][1..] == events[1..][..k - 1];
    } else {
      assert events[..0] == [] && events[1..] == [];
    }
  }

  /** One more event adds the plain rules' signals, then the window rules' signals on their windows so far. */
  lemma {:induction false} EngineGoesOn(rules: seq<Rule>, ceps: seq<RescanRule>, events: seq<Event>, e: Event)
    ensures FallbackEngine(rules, ceps, events + [e])
            == FallbackEngine(rules, ceps, events) + RuleSignals(rules, e.payload) + RescanSignals(After(ceps, events), e)
    decreases |events|
  {
    hide RuleSignals, RescanSignals, RescanSteps, FallbackEngine;
    EngineBegins(rules, ceps, events + [e]);
    EngineBegins(rules, ceps, events);
    if events == [] {
      EngineBegins(rules, RescanSteps(ceps, e), []);
      assert (events + [e])[1..] == [];
    } else {
      assert (events + [e])[1..] == events[1..] + [e];
      EngineGoesOn(rules, RescanSteps(ceps, events[0]), events[1..], e);
      AfterFirst(ceps, events);
    }
  }

  lemma EngineBegins(rules: seq<Rule>, ceps: seq<RescanRule>, events: seq<Event>)
    ensures events == [] ==> FallbackEngine(rules, ceps, events) == []
    ensures events != [] ==>
              FallbackEngine(rules, ceps, events)
              == RuleSignals(rules, events[0].payload) + RescanSignals(ceps, events[0])
                 + FallbackEngine(rules, RescanSteps(ceps, events[0]), events[1..])
  {
    hide RuleSignals, RescanSignals, RescanSteps;
  }
}
