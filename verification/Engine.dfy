/**
  Rule evaluation in the two engines: the native one (AnimusCore_v1/animus.hpp:1030-1083,1144-1149)
  and the pure fallback (animus/bindings.py:663-694). Per event, plain threshold rules come first,
  then the window rules, each in registration order. Clock readings are inputs.
 */
module Engine {
  import opened Cep
  import opened CepRefinement

  datatype Payload = Payload(cycles: nat, eventId: nat, traceId: nat, value: nat)
  datatype Rule = Rule(ruleId: nat, eventId: nat, threshold: nat, comparator: Comparator, severity: nat)
  datatype Signal = Signal(cycles: nat, eventId: nat, traceId: nat, value: nat, ruleId: nat, severity: nat)

  /** A window rule with its state, in each engine's form. */
  datatype NativeRule = NativeRule(cfg: Config, state: Native)
  datatype RescanRule = RescanRule(cfg: Config, window: seq<Entry>, sequence: nat)

  /** A payload and the clock reading its batch is evaluated with. */
  datatype Event = Event(payload: Payload, now: nat)

  // --------------------------------------------------------- plain rules

  function RuleSignal(rule: Rule, p: Payload): seq<Signal> {
    if rule.eventId == p.eventId && Compare(p.value, rule.threshold, rule.comparator)
    then [Signal(p.cycles, p.eventId, p.traceId, p.value, rule.ruleId, rule.severity)] else []
  }

  function RuleSignals(rules: seq<Rule>, p: Payload): seq<Signal> {
    if rules == [] then [] else RuleSignals(rules[..|rules| - 1], p) + RuleSignal(rules[|rules| - 1], p)
  }

  /** A plain rule signals exactly the events of its id that pass its comparison. */
  lemma {:induction false} RuleSignalsExact(rules: seq<Rule>, p: Payload, s: Signal)
    ensures s in RuleSignals(rules, p) <==> Fires(rules, p, s)
    decreases |rules|
  {
    if rules != [] {
      var k := |rules| - 1;
      RuleSignalsExact(rules[..k], p, s);
      if Fires(rules[..k], p, s) {
        var i :| 0 <= i < |rules[..k]| && FiresAs(rules[..k][i], p, s);
        assert FiresAs(rules[i], p, s);
      }
      if Fires(rules, p, s) {
        var i :| 0 <= i < |rules| && FiresAs(rules[i], p, s);
        if i < k { assert FiresAs(rules[..k][i], p, s); }
      }
      if FiresAs(rules[k], p, s) { assert Fires(rules, p, s); }
    }
  }

  predicate FiresAs(rule: Rule, p: Payload, s: Signal) {
    && rule.eventId == p.eventId
    && (match rule.comparator
        case GreaterThan => p.value > rule.threshold
        case LessThan => p.value < rule.threshold
        case Equal => p.value == rule.threshold)
    && s == Signal(p.cycles, p.eventId, p.traceId, p.value, rule.ruleId, rule.severity)
  }

  ghost predicate Fires(rules: seq<Rule>, p: Payload, s: Signal) {
    exists i :: 0 <= i < |rules| && FiresAs(rules[i], p, s)
  }

  // -------------------------------------------------------- window rules

  function CepSignal(cfg: Config, matched: bool, aggregate: nat, p: Payload): seq<Signal> {
    if matched then [Signal(p.cycles, p.eventId, p.traceId, aggregate, cfg.ruleId, cfg.severity)] else []
  }

  function NativeStep(r: NativeRule, e: Event): NativeRule {
    if r.cfg.eventId == e.payload.eventId then r.(state := NativeNext(r.state, r.cfg, e.payload.value, e.now)) else r
  }

  /** What the native rule does after the event is defined: it never asks an empty deque for its front. */
  predicate NativeDefined(r: NativeRule, e: Event) {
    r.cfg.eventId == e.payload.eventId ==> HasFront(NativeStep(r, e).state, r.cfg)
  }

  function NativeSignal(r: NativeRule, e: Event): seq<Signal>
    requires NativeDefined(r, e)
  {
    if r.cfg.eventId != e.payload.eventId then []
    else
      var s := NativeStep(r, e).state;
      CepSignal(r.cfg, NativeMatches(s, r.cfg), NativeAggregate(s, r.cfg), e.payload)
  }

  ghost predicate AllDefined(ceps: seq<NativeRule>, e: Event) {
    forall i :: 0 <= i < |ceps| ==> NativeDefined(ceps[i], e)
  }

  function NativeSignals(ceps: seq<NativeRule>, e: Event): seq<Signal>
    requires forall i :: 0 <= i < |ceps| ==> NativeDefined(ceps[i], e)
  {
    if ceps == [] then [] else NativeSignals(ceps[..|ceps| - 1], e) + NativeSignal(ceps[|ceps| - 1], e)
  }

  function NativeSteps(ceps: seq<NativeRule>, e: Event): seq<NativeRule> {
    seq(|ceps|, i requires 0 <= i < |ceps| => NativeStep(ceps[i], e))
  }

  function RescanStep(r: RescanRule, e: Event): RescanRule {
    if r.cfg.eventId == e.payload.eventId
    then r.(window := Slide(r.window, r.cfg, r.sequence + 1, e.payload.value, e.now), sequence := r.sequence + 1)
    else r
  }

  /** The window just slid holds at least the event itself. */
  lemma {:induction false} SlideNotEmpty(w: seq<Entry>, cfg: Config, n: nat, value: nat, now: nat)
    ensures Slide(w, cfg, n, value, now) != []
    decreases |w|
  {
    var e := Entry(n, now, value);
    if cfg.kind.Time? && w != [] {
      SlideNotEmpty(w[1..], cfg, n, value, now);
      assert (w + [e])[1..] == w[1..] + [e];
    }
  }

  function RescanSignal(r: RescanRule, e: Event): seq<Signal> {
    if r.cfg.eventId != e.payload.eventId then []
    else
      var w := RescanStep(r, e).window;
      SlideNotEmpty(r.window, r.cfg, r.sequence + 1, e.payload.value, e.now);
      CepSignal(r.cfg, Matches(w, r.cfg), Aggregate(w, r.cfg.agg), e.payload)
  }

  function RescanSignals(ceps: seq<RescanRule>, e: Event): seq<Signal> {
    if ceps == [] then [] else RescanSignals(ceps[..|ceps| - 1], e) + RescanSignal(ceps[|ceps| - 1], e)
  }

  function RescanSteps(ceps: seq<RescanRule>, e: Event): seq<RescanRule> {
    seq(|ceps|, i requires 0 <= i < |ceps| => RescanStep(ceps[i], e))
  }

  // ---------------------------------------------------------------- runs

  /** The signals of a whole run, in order. A run that is not defined stops at its first undefined event. */
  ghost function NativeEngine(rules: seq<Rule>, ceps: seq<NativeRule>, events: seq<Event>): seq<Signal>
    decreases |events|
  {
    if events == [] || !AllDefined(ceps, events[0]) then []
    else
      RuleSignals(rules, events[0].payload) + NativeSignals(ceps, events[0])
      + NativeEngine(rules, NativeSteps(ceps, events[0]), events[1..])
  }

  function FallbackEngine(rules: seq<Rule>, ceps: seq<RescanRule>, events: seq<Event>): seq<Signal>
    decreases |events|
  {
    if events == [] then []
    else
      RuleSignals(rules, events[0].payload) + RescanSignals(ceps, events[0])
      + FallbackEngine(rules, RescanSteps(ceps, events[0]), events[1..])
  }

  /** The native run never reaches undefined behaviour. */
  ghost predicate NativeRunDefined(ceps: seq<NativeRule>, events: seq<Event>)
    decreases |events|
  {
    events == [] || (AllDefined(ceps, events[0]) && NativeRunDefined(NativeSteps(ceps, events[0]), events[1..]))
  }

  /** Nothing a rule computes for this event exceeds 64 bits, judged by the fallback alone. */
  ghost predicate EventFits(r: RescanRule, e: Event) {
    r.cfg.eventId == e.payload.eventId ==>
      Fits(r.cfg, r.sequence + 1, e.now) && Exact(RescanStep(r, e).window, r.cfg)
  }

  ghost predicate NothingOverflows(ceps: seq<RescanRule>, events: seq<Event>)
    decreases |events|
  {
    events == [] ||
    ((forall i :: 0 <= i < |ceps| ==> EventFits(ceps[i], events[0]))
     && NothingOverflows(RescanSteps(ceps, events[0]), events[1..]))
  }

  ghost predicate ClockSteady(events: seq<Event>, from: nat) {
    && (forall i :: 0 <= i < |events| ==> from <= events[i].now)
    && (forall i, j :: 0 <= i < j < |events| ==> events[i].now <= events[j].now)
  }

  /** One rule's two forms stand for the same window. */
  ghost predicate SameRule(a: NativeRule, b: RescanRule, clock: nat) {
    a.cfg == b.cfg && Refines(a.state, a.cfg, b.window, b.sequence, clock)
  }

  ghost predicate SameRules(a: seq<NativeRule>, b: seq<RescanRule>, clock: nat) {
    |a| == |b| && forall i :: 0 <= i < |a| ==> SameRule(a[i], b[i], clock)
  }

  lemma RuleStep(a: NativeRule, b: RescanRule, clock: nat, e: Event)
    requires SameRule(a, b, clock) && clock <= e.now && EventFits(b, e)
    ensures NativeDefined(a, e) && NativeSignal(a, e) == RescanSignal(b, e)
    ensures SameRule(NativeStep(a, e), RescanStep(b, e), e.now)
  {
    hide Slide, NativeNext, NativeMatches, NativeAggregate, Matches, Aggregate, Candidates, SumOf;
    if a.cfg.eventId == e.payload.eventId {
      SlideNotEmpty(b.window, b.cfg, b.sequence + 1, e.payload.value, e.now);
      hide Refines, Exact, Fits;
      StepRefines(a.state, a.cfg, b.window, b.sequence, clock, e.payload.value, e.now);
      ReportAgrees(NativeStep(a, e).state, a.cfg, RescanStep(b, e).window, b.sequence + 1, e.now);
    }
  }

  lemma {:induction false} RulesStep(a: seq<NativeRule>, b: seq<RescanRule>, clock: nat, e: Event)
    requires SameRules(a, b, clock) && clock <= e.now && forall i :: 0 <= i < |b| ==> EventFits(b[i], e)
    ensures AllDefined(a, e) && NativeSignals(a, e) == RescanSignals(b, e)
    decreases |a|
  {
    hide NativeDefined, NativeSignal, RescanSignal, SameRule, EventFits;
    forall i | 0 <= i < |a| ensures NativeDefined(a[i], e) && NativeSignal(a[i], e) == RescanSignal(b[i], e) {
      RuleStep(a[i], b[i], clock, e);
    }
    if a != [] { RulesStep(a[..|a| - 1], b[..|b| - 1], clock, e); }
  }

  lemma RulesNext(a: seq<NativeRule>, b: seq<RescanRule>, clock: nat, e: Event)
    requires SameRules(a, b, clock) && clock <= e.now && forall i :: 0 <= i < |b| ==> EventFits(b[i], e)
    ensures SameRules(NativeSteps(a, e), RescanSteps(b, e), e.now)
  {
    hide NativeDefined, NativeStep, RescanStep, SameRule, EventFits;
    forall i | 0 <= i < |a| ensures SameRule(NativeStep(a[i], e), RescanStep(b[i], e), e.now) {
      RuleStep(a[i], b[i], clock, e);
    }
  }

  lemma {:induction false} EnginesAgreeFrom(rules: seq<Rule>, a: seq<NativeRule>, b: seq<RescanRule>, clock: nat, events: seq<Event>)
    requires SameRules(a, b, clock) && ClockSteady(events, clock) && NothingOverflows(b, events)
    ensures NativeRunDefined(a, events) && NativeEngine(rules, a, events) == FallbackEngine(rules, b, events)
    decreases |events|
  {
    hide SameRules, AllDefined, NativeSignals, RescanSignals, NativeSteps, RescanSteps, EventFits, RuleSignals;
    if events != [] {
      RulesStep(a, b, clock, events[0]);
      RulesNext(a, b, clock, events[0]);
      EnginesAgreeFrom(rules, NativeSteps(a, events[0]), RescanSteps(b, events[0]), events[0].now, events[1..]);
    }
  }

  function FreshNative(cfgs: seq<Config>): seq<NativeRule> {
    seq(|cfgs|, i requires 0 <= i < |cfgs| => NativeRule(cfgs[i], FRESH))
  }

  function FreshRescan(cfgs: seq<Config>): seq<RescanRule> {
    seq(|cfgs|, i requires 0 <= i < |cfgs| => RescanRule(cfgs[i], [], 0))
  }

  /** Fixed rules, the same events and clock readings, no overflow: both engines emit the same signals in the same order. */
  lemma EnginesAgree(rules: seq<Rule>, cfgs: seq<Config>, events: seq<Event>)
    requires ClockSteady(events, 0) && NothingOverflows(FreshRescan(cfgs), events)
    ensures NativeRunDefined(FreshNative(cfgs), events)
    ensures NativeEngine(rules, FreshNative(cfgs), events) == FallbackEngine(rules, FreshRescan(cfgs), events)
  {
    EnginesAgreeFrom(rules, FreshNative(cfgs), FreshRescan(cfgs), 0, events);
  }
}
