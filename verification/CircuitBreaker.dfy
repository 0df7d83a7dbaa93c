/** The per-tenant, per-provider circuit breaker and what its state says about history. */
module CircuitBreaker {
  import opened Ledger

  datatype Category = Timeout | RateLimited | ServerError | InvalidRequest | Authentication

  /** The faults that are the provider's own and pass. */
  predicate Transient(c: Option<Category>) {
    c.Some? && c.value in {Timeout, RateLimited, ServerError}
  }

  datatype CallResult = CallResult(ok: bool, category: Option<Category>)

  datatype CircuitState = Closed | Open | HalfOpen

  datatype Circuit = Circuit(state: CircuitState, failures: nat, openedAt: Option<int>)

  datatype Config = Config(threshold: int, cooldown: int) {
    predicate Valid() { threshold >= 1 && cooldown >= 0 }
  }

  type Key = (Org, string)

  function StateOf(c: Option<Circuit>): CircuitState {
    if c.Some? then c.value.state else Closed
  }

  function Lookup(circuits: map<Key, Circuit>, k: Key): Option<Circuit> {
    if k in circuits then Some(circuits[k]) else None
  }

  // ---------------------------------------------------------------- one circuit

  function Trip(c: Circuit, now: int): Circuit {
    c.(state := Open, openedAt := Some(now))
  }

  function Observed(cfg: Config, c: Option<Circuit>, result: CallResult, now: int): Option<Circuit> {
    if result.ok then
      if c.None? then None else Some(Circuit(Closed, 0, None))
    else if Transient(result.category) then
      var circuit := if c.None? then Circuit(Closed, 0, None) else c.value;
      if circuit.state.HalfOpen? then Some(Trip(circuit, now))
      else
        var counted := circuit.(failures := circuit.failures + 1);
        if counted.state.Closed? && counted.failures >= cfg.threshold then Some(Trip(counted, now))
        else Some(counted)
    else c
  }

  function Assessed(cfg: Config, c: Option<Circuit>, now: int): Option<Circuit> {
    if c.Some? && c.value.state.Open? && c.value.openedAt.Some? && now - c.value.openedAt.value >= cfg.cooldown
    then Some(c.value.(state := HalfOpen))
    else c
  }

  // ---------------------------------------------------------------- the breaker

  datatype ProviderCircuit = ProviderCircuit(provider: string, state: CircuitState)

  function Assessments(cfg: Config, circuits: map<Key, Circuit>, org: Org, providers: seq<string>, now: int)
    : seq<ProviderCircuit>
  {
    seq(|providers|, i requires 0 <= i < |providers| =>
      ProviderCircuit(providers[i], StateOf(Assessed(cfg, Lookup(circuits, (org, providers[i])), now))))
  }

  function AfterAssess(cfg: Config, circuits: map<Key, Circuit>, org: Org, providers: seq<string>, now: int)
    : map<Key, Circuit>
  {
    map k: Key | k in circuits ::
      if k.0 == org && k.1 in providers then Assessed(cfg, Some(circuits[k]), now).value else circuits[k]
  }

  class InMemoryCircuitBreaker {
    const config: Config
    var circuits: map<Key, Circuit>

    constructor (config: Config)
      ensures this.config == config && circuits == map[]
    {
      this.config := config;
      circuits := map[];
    }

    /** Told the first of `observed` about one key, if there is one, and nothing about any other. */
    twostate predicate Told(key: Key, observed: seq<CallResult>, at: int)
      reads this
    {
      forall k :: Lookup(circuits, k) ==
        if observed != [] && k == key then Observed(config, Lookup(old(circuits), k), observed[0], at)
        else Lookup(old(circuits), k)
    }

    /** Feed one call's outcome; only that key's circuit can move. */
    method Observe(org: Org, provider: string, result: CallResult, now: int)
      modifies this
      ensures Lookup(circuits, (org, provider)) ==
              Observed(config, Lookup(old(circuits), (org, provider)), result, now)
      ensures forall k :: k != (org, provider) ==> Lookup(circuits, k) == Lookup(old(circuits), k)
    {
      var key := (org, provider);
      if result.ok {
        if key in circuits {
          var circuit := circuits[key].(failures := 0, openedAt := None);
          if circuit.state != Closed {
            circuit := circuit.(state := Closed);
          }
          circuits := circuits[key := circuit];
        }
      } else if Transient(result.category) {
        var circuit := if key in circuits then circuits[key] else Circuit(Closed, 0, None);
        if circuit.state == HalfOpen {
          circuit := Trip(circuit, now);
        } else {
          circuit := circuit.(failures := circuit.failures + 1);
          if circuit.state == Closed && circuit.failures >= config.threshold {
            circuit := Trip(circuit, now);
          }
        }
        circuits := circuits[key := circuit];
      }
    }

    /** Report each provider's state, moving an open circuit whose cooldown has passed to half-open. */
    method Assess(org: Org, providers: seq<string>, now: int) returns (result: seq<ProviderCircuit>)
      modifies this
      ensures result == Assessments(config, old(circuits), org, providers, now)
      ensures circuits == AfterAssess(config, old(circuits), org, providers, now)
    {
      result := [];
      for i := 0 to |providers|
        invariant result == Assessments(config, old(circuits), org, providers[..i], now)
        invariant circuits == AfterAssess(config, old(circuits), org, providers[..i], now)
      {
        var key := (org, providers[i]);
        assert providers[..i + 1] == providers[..i] + [providers[i]];
        if key !in circuits {
          result := result + [ProviderCircuit(providers[i], Closed)];
        } else {
          var circuit := circuits[key];
          if circuit.state == Open && circuit.openedAt.Some? && now - circuit.openedAt.value >= config.cooldown {
            circuit := circuit.(state := HalfOpen);
            circuits := circuits[key := circuit];
          }
          result := result + [ProviderCircuit(providers[i], circuit.state)];
        }
      }
      assert providers[..|providers|] == providers;
    }
  }

  // ---------------------------------------------------------------- what happened to one key

  datatype Kind = Success | Fault | Ignored | Look

  datatype Event = Event(kind: Kind, at: int)

  function KindOf(result: CallResult): Kind {
    if result.ok then Success else if Transient(result.category) then Fault else Ignored
  }

  /** What counts: a call that went well, a provider that timed out, limited or broke, and nothing else. */
  lemma WhatCounts(result: CallResult)
    ensures KindOf(result) ==
            if result.ok then Success
            else if result.category == Some(Timeout) || result.category == Some(RateLimited) ||
                    result.category == Some(ServerError) then Fault
            else Ignored
  {
  }

  /** One key's circuit after its history, oldest event first. */
  function Circuited(cfg: Config, h: seq<Event>): Option<Circuit> {
    if h == [] then None
    else
      var before, e := Circuited(cfg, h[..|h| - 1]), h[|h| - 1];
      match e.kind
      case Look => Assessed(cfg, before, e.at)
      case Success => Observed(cfg, before, CallResult(true, None), e.at)
      case Fault => Observed(cfg, before, CallResult(false, Some(Timeout)), e.at)
      case Ignored => before
  }

  /** Transient faults since the last success. */
  function Faults(h: seq<Event>): nat {
    if h == [] then 0
    else
      match h[|h| - 1].kind
      case Success => 0
      case Fault => Faults(h[..|h| - 1]) + 1
      case _ => Faults(h[..|h| - 1])
  }

  /** The last trip since the last success: the fault that reached the threshold, or a later one that met
      a circuit already probing. */
  ghost function LastTrip(cfg: Config, h: seq<Event>): (i: Option<nat>)
    ensures i.Some? ==> i.value < |h|
    decreases |h|, 0
  {
    if h == [] then None
    else
      var before := h[..|h| - 1];
      match h[|h| - 1].kind
      case Success => None
      case Fault =>
        if Faults(h) == cfg.threshold || (Faults(h) > cfg.threshold && Probing(cfg, before)) then Some(|h| - 1)
        else LastTrip(cfg, before)
      case _ => LastTrip(cfg, before)
  }

  /** Some look fell at least a cooldown after the last trip. */
  ghost predicate Probing(cfg: Config, h: seq<Event>)
    decreases |h|, 1
  {
    var trip := LastTrip(cfg, h);
    trip.Some? && exists i: nat :: Cooled(cfg, h, trip.value, i)
  }

  /** A look this long after the trip. */
  predicate Cooled(cfg: Config, h: seq<Event>, trip: nat, i: nat)
    requires trip < |h|
  {
    trip < i < |h| && h[i].kind.Look? && h[i].at - h[trip].at >= cfg.cooldown
  }

  lemma CooledGrows(cfg: Config, h: seq<Event>, e: Event, trip: nat)
    requires trip < |h|
    ensures (exists i: nat :: Cooled(cfg, h + [e], trip, i)) <==>
            (exists i: nat :: Cooled(cfg, h, trip, i)) || (e.kind.Look? && e.at - h[trip].at >= cfg.cooldown)
  {
    var all := h + [e];
    assert Cooled(cfg, all, trip, |h|) <==> e.kind.Look? && e.at - h[trip].at >= cfg.cooldown;
    forall i: nat | i != |h| ensures Cooled(cfg, all, trip, i) <==> Cooled(cfg, h, trip, i) {
      assert i < |h| ==> all[i] == h[i];
    }
  }

  lemma ProbingGrows(cfg: Config, h: seq<Event>, e: Event)
    requires LastTrip(cfg, h + [e]) == LastTrip(cfg, h)
    ensures Probing(cfg, h + [e]) <==>
            Probing(cfg, h) ||
            (LastTrip(cfg, h).Some? && e.kind.Look? && e.at - h[LastTrip(cfg, h).value].at >= cfg.cooldown)
  {
    var trip := LastTrip(cfg, h);
    if trip.Some? {
      CooledGrows(cfg, h, e, trip.value);
    }
  }

  /** The circuit's fields, read off the history. */
  ghost predicate Explains(cfg: Config, h: seq<Event>, c: Option<Circuit>) {
    match StateOf(c)
    case Closed =>
      Faults(h) < cfg.threshold && LastTrip(cfg, h).None? &&
      Faults(h) == if c.Some? then c.value.failures else 0
    case _ =>
      var trip := LastTrip(cfg, h);
      && Faults(h) >= cfg.threshold && trip.Some? && c.value.openedAt == Some(h[trip.value].at)
      && (c.value.state.HalfOpen? <==> Probing(cfg, h))
  }

  lemma HistoryStep(cfg: Config, h: seq<Event>, e: Event)
    requires cfg.Valid() && Explains(cfg, h, Circuited(cfg, h))
    ensures Explains(cfg, h + [e], Circuited(cfg, h + [e]))
  {
    assert (h + [e])[..|h|] == h;
    if LastTrip(cfg, h + [e]) == LastTrip(cfg, h) {
      ProbingGrows(cfg, h, e);
    }
  }

  lemma {:induction false} HistoryExplains(cfg: Config, h: seq<Event>)
    requires cfg.Valid()
    ensures Explains(cfg, h, Circuited(cfg, h))
  {
    if h != [] {
      HistoryExplains(cfg, h[..|h| - 1]);
      HistoryStep(cfg, h[..|h| - 1], h[|h| - 1]);
      assert h[..|h| - 1] + [h[|h| - 1]] == h;
    }
  }

  /** A circuit is closed exactly when fewer faults than the threshold came since the last success, and
      half-open exactly when it is not closed and some look fell a cooldown after the last trip. */
  lemma StateIsReadOffHistory(cfg: Config, h: seq<Event>)
    requires cfg.Valid()
    ensures StateOf(Circuited(cfg, h)).Closed? <==> Faults(h) < cfg.threshold
    ensures StateOf(Circuited(cfg, h)).HalfOpen? <==> Faults(h) >= cfg.threshold && Probing(cfg, h)
  {
    HistoryExplains(cfg, h);
  }

  predicate NothingLearned(h: seq<Event>) {
    forall i :: 0 <= i < |h| ==> h[i].kind.Look? || h[i].kind.Ignored?
  }

  /** Probes are not rationed: a half-open circuit is reported half-open at every further look, however many, until a
      success closes it or a transient fault opens it again. */
  lemma {:induction false} HalfOpenUntilAnOutcome(cfg: Config, h: seq<Event>, more: seq<Event>, e: Event)
    requires StateOf(Circuited(cfg, h)).HalfOpen? && NothingLearned(more)
    ensures StateOf(Circuited(cfg, (h + more) + [e])) ==
            match e.kind
            case Success => Closed
            case Fault => Open
            case _ => HalfOpen
  {
    assert ((h + more) + [e])[..|h + more|] == h + more;
    if more == [] {
      assert h + more == h;
    } else {
      var before, last := more[..|more| - 1], more[|more| - 1];
      assert h + more == (h + before) + [last];
      HalfOpenUntilAnOutcome(cfg, h, before, last);
    }
  }

  // ---------------------------------------------------------------- all keys together

  datatype BreakerEvent =
    | Observe(key: Key, result: CallResult, at: int)
    | Assess(org: Org, providers: seq<string>, at: int)

  function AfterEvent(cfg: Config, before: map<Key, Circuit>, e: BreakerEvent): map<Key, Circuit> {
    match e
    case Assess(org, providers, at) => AfterAssess(cfg, before, org, providers, at)
    case Observe(key, result, at) =>
      var c := Observed(cfg, Lookup(before, key), result, at);
      if c.Some? then before[key := c.value] else before
  }

  function Breaker(cfg: Config, log: seq<BreakerEvent>): map<Key, Circuit> {
    if log == [] then map[] else AfterEvent(cfg, Breaker(cfg, log[..|log| - 1]), log[|log| - 1])
  }

  /** What one event means to one key. */
  function Concerning(e: BreakerEvent, k: Key): seq<Event> {
    match e
    case Observe(key, result, at) => if key == k then [Event(KindOf(result), at)] else []
    case Assess(org, providers, at) => if org == k.0 && k.1 in providers then [Event(Look, at)] else []
  }

  /** The events of a log that concern one key. */
  function HistoryOf(log: seq<BreakerEvent>, k: Key): seq<Event> {
    if log == [] then [] else HistoryOf(log[..|log| - 1], k) + Concerning(log[|log| - 1], k)
  }

  /** One key's circuit after an event that may concern it. */
  function KeyAfter(cfg: Config, c: Option<Circuit>, e: BreakerEvent, k: Key): Option<Circuit> {
    match e
    case Observe(key, result, at) => if key == k then Observed(cfg, c, result, at) else c
    case Assess(org, providers, at) => if org == k.0 && k.1 in providers then Assessed(cfg, c, at) else c
  }

  lemma EventsActKeyByKey(cfg: Config, before: map<Key, Circuit>, e: BreakerEvent, k: Key)
    ensures Lookup(AfterEvent(cfg, before, e), k) == KeyAfter(cfg, Lookup(before, k), e, k)
  {
  }

  lemma CircuitedAfter(cfg: Config, h: seq<Event>, e: BreakerEvent, k: Key)
    ensures Circuited(cfg, h + Concerning(e, k)) == KeyAfter(cfg, Circuited(cfg, h), e, k)
  {
    if Concerning(e, k) == [] {
      assert h + [] == h;
    } else {
      var mine := Concerning(e, k)[0];
      assert h + Concerning(e, k) == h + [mine] && (h + [mine])[..|h|] == h;
    }
  }

  lemma BreakerExtends(cfg: Config, before: seq<BreakerEvent>, e: BreakerEvent, k: Key)
    requires Lookup(Breaker(cfg, before), k) == Circuited(cfg, HistoryOf(before, k))
    ensures Lookup(Breaker(cfg, before + [e]), k) == Circuited(cfg, HistoryOf(before + [e], k))
  {
    var log := before + [e];
    assert log[..|log| - 1] == before && log[|log| - 1] == e;
    var was, h := Breaker(cfg, before), HistoryOf(before, k);
    assert Breaker(cfg, log) == AfterEvent(cfg, was, e);
    assert HistoryOf(log, k) == h + Concerning(e, k);
    EventsActKeyByKey(cfg, was, e, k);
    CircuitedAfter(cfg, h, e, k);
  }

  /** A key's circuit depends only on the events of that tenant and provider. */
  lemma {:induction false} CircuitsAreIndependent(cfg: Config, log: seq<BreakerEvent>, k: Key)
    ensures Lookup(Breaker(cfg, log), k) == Circuited(cfg, HistoryOf(log, k))
  {
    if log != [] {
      CircuitsAreIndependent(cfg, log[..|log| - 1], k);
      BreakerExtends(cfg, log[..|log| - 1], log[|log| - 1], k);
      assert log[..|log| - 1] + [log[|log| - 1]] == log;
    }
  }
}
