/** A streamed request after its first byte: relaying the provider's events, and ending the hold whichever way the
    stream ends. */
module Streaming {
  import opened Ledger
  import opened SqlLedger
  import opened SharedLedger
  import opened Accounting
  import opened ReservationService
  import opened OwnTransactions
  import opened ResponseCache
  import opened InferenceCoordinator
  import CircuitBreaker

  datatype ProviderEvent =
    | Chunk(content: string)
    | Completed(usage: Option<Usage>)
    | Failed(error: string, category: Option<CircuitBreaker.Category>)

  /** What the client is handed. */
  datatype StreamEvent = Piece(content: string) | Failure(error: string, category: Option<CircuitBreaker.Category>)

  const MALFORMED_STREAM := "provider ended the stream without a terminal event"
  const NO_USAGE := "provider ended the stream without reporting usage"
  const UNACCOUNTABLE := "the completed stream could not be accounted for"

  /** Where, if anywhere, the stream is interrupted: at or after the n-th piece, or inside one of the awaits that end
      it. An interrupted transaction or write may or may not have landed. */
  datatype Cut =
    | Never
    | Walk(piece: nat)
    | InRelease(landed: bool)
    | InPricing
    | InSettle(landed: bool)
    | InStore(landed: bool)

  /** Everything outside the coordinator that one delivery meets. */
  datatype Delivery = Delivery(
    cut: Cut,
    closing: Closing,
    release: Moment,
    last: Moment,
    observedAt: int,
    storedAt: int)

  // ---------------------------------------------------------------- the relay

  /** How the relay ends: the client walked away, or the provider completed, failed, or just stopped. */
  datatype Exit =
    | Walked
    | Finished(usage: Option<Usage>)
    | Broken(error: string, category: Option<CircuitBreaker.Category>)
    | Silent

  datatype Relay = Relay(pieces: seq<string>, exit: Exit)

  /** The relay once the first pieces have been handed on. */
  function Relayed(events: seq<ProviderEvent>, cut: Cut, pieces: seq<string>): Relay
    requires |pieces| <= |events|
    decreases |events| - |pieces|
  {
    if |pieces| == |events| then Relay(pieces, Silent)
    else
      match events[|pieces|]
      case Completed(usage) => Relay(pieces, Finished(usage))
      case Failed(error, category) => Relay(pieces, Broken(error, category))
      case Chunk(content) =>
        if cut == Walk(|pieces|) then Relay(pieces + [content], Walked)
        else Relayed(events, cut, pieces + [content])
  }

  function Joined(pieces: seq<string>): string {
    if pieces == [] then "" else pieces[0] + Joined(pieces[1..])
  }

  function Pieces(texts: seq<string>): seq<StreamEvent> {
    seq(|texts|, i requires 0 <= i < |texts| => Piece(texts[i]))
  }

  // ---------------------------------------------------------------- ending the hold

  /** What ending a stream did, up to the point where its last safeguard runs. */
  datatype Finish = Finish(
    ops: seq<Op>,
    finalized: bool,
    stored: Option<string>,
    event: Option<StreamEvent>,
    raised: Option<Outcome>)

  /** A transaction interrupted on its way runs or not. */
  function Landing(m: Moment, landed: bool): Moment {
    m.(up := m.up && landed)
  }

  function GiveBack(ops: seq<Op>, d: Delivery, id: Id, event: StreamEvent): Finish {
    if d.cut.InRelease? then
      Finish(ops + With(Landing(d.release, d.cut.landed), Release(id)), false, None, None, None)
    else Finish(ops + With(d.release, Release(id)), true, None, Some(event), None)
  }

  predicate Usable(u: Option<Usage>) { u.Some? && u.value.prompt >= 0 && u.value.completion >= 0 }

  function SettleMoment(d: Delivery): Moment {
    if d.cut.InSettle? then Landing(d.closing.settle, d.cut.landed) else d.closing.settle
  }

  /** A completed stream with a cost: settle and store, or give back what could not be settled. */
  ghost function Settling(db: Db, d: Delivery, id: Id, cost: Money, text: string): Finish {
    var ops := With(SettleMoment(d), Settle(id, cost));
    if d.cut.InSettle? then Finish(ops, false, None, None, None)
    else
      match Answer(db, SettleMoment(d), Settle(id, cost))
      case Done => Finish(ops, !d.cut.InStore?, if d.cut == InStore(false) then None else Some(text), None, None)
      case UnsupportedCurrency => Finish(ops, false, None, None, Some(UnsupportedCurrency))
      case _ => GiveBack(ops, d, id, Failure(UNACCOUNTABLE, None))
  }

  /** A stream that said it completed. Reading the price is the first await; unusable usage never gets there. */
  ghost function Completing(db: Db, d: Delivery, id: Id, usage: Option<Usage>, text: string): Finish {
    if d.cut.InPricing? && Usable(usage) then Finish([], false, None, None, None)
    else
      var a := Account(usage, d.closing.price);
      if a.Accounted? then Settling(db, d, id, a.cost.total, text)
      else GiveBack([], d, id, Failure(if usage.None? then NO_USAGE else UNACCOUNTABLE, None))
  }

  /** What the breaker is told: nothing of a client that walked away. */
  function Observations(exit: Exit): seq<CircuitBreaker.CallResult> {
    match exit
    case Walked => []
    case Finished(_) => [CircuitBreaker.CallResult(true, None)]
    case _ => [CircuitBreaker.CallResult(false, FailureOf(exit).category)]
  }

  ghost function Finishing(db: Db, d: Delivery, id: Id, exit: Exit, text: string): Finish {
    match exit
    case Walked => Finish([], false, None, None, None)
    case Finished(usage) => Completing(db, d, id, usage, text)
    case _ => GiveBack([], d, id, FailureOf(exit))
  }

  /** What the client is told when the provider failed or stopped short. */
  function FailureOf(exit: Exit): (f: StreamEvent)
    ensures f.Failure?
  {
    if exit.Broken? then Failure(exit.error, exit.category) else Failure(MALFORMED_STREAM, None)
  }

  // ---------------------------------------------------------------- what the client sees

  /** The pieces the client gets are the provider's chunks, each as it came, from the first up to the n-th: where the
      client walks away, or the provider says something else or stops. */
  predicate HandedOn(events: seq<ProviderEvent>, cut: Cut, out: seq<StreamEvent>, n: nat) {
    && n <= |events| && n <= |out|
    && (forall i :: 0 <= i < n ==> events[i].Chunk? && out[i] == Piece(events[i].content))
    && (forall i :: 0 <= i < n - 1 ==> cut != Walk(i))
    && ((n > 0 && cut == Walk(n - 1)) || n == |events| || !events[n].Chunk?)
  }

  /** The failure the client is told of after so many pieces, if any: the provider's own, or why a stream that
      stopped or completed is worth nothing. A client that walked away and a stream interrupted while it ends are
      told nothing. */
  ghost function Complaint(was: Db, d: Delivery, id: Id, events: seq<ProviderEvent>, n: nat): Option<StreamEvent>
    requires n <= |events|
  {
    if (n > 0 && d.cut == Walk(n - 1)) || d.cut.InRelease? then None
    else if n == |events| then Some(Failure("provider ended the stream without a terminal event", None))
    else if events[n].Failed? then Some(Failure(events[n].error, events[n].category))
    else if events[n] == Completed(None) then Some(Failure("provider ended the stream without reporting usage", None))
    else if events[n].Completed? && !SettledAtItsCost(was, d, id, events[n].usage.value) &&
            !BrokeOff(was, d, id, events[n].usage.value) then
      Some(Failure("the completed stream could not be accounted for", None))
    else None
  }

  /** The settlement of so much usage goes through. */
  ghost predicate SettledAtItsCost(was: Db, d: Delivery, id: Id, usage: Usage) {
    && usage.prompt >= 0 && usage.completion >= 0 && d.closing.price.Some?
    && Answer(was, SettleMoment(d), Settle(id, ComputeCost(usage, d.closing.price.value).total)) == Outcome.Done
  }

  /** The settlement of so much usage is interrupted, or ends in an error nobody catches. */
  ghost predicate BrokeOff(was: Db, d: Delivery, id: Id, usage: Usage) {
    && usage.prompt >= 0 && usage.completion >= 0
    && (d.cut.InPricing? ||
        (d.closing.price.Some? &&
         (d.cut.InSettle? ||
          Answer(was, SettleMoment(d), Settle(id, ComputeCost(usage, d.closing.price.value).total)) ==
          UnsupportedCurrency)))
  }

  /** All that is handed out, and nothing else: the pieces, then the complaint if there is one. */
  ghost predicate ClientSees(was: Db, d: Delivery, id: Id, events: seq<ProviderEvent>, out: seq<StreamEvent>) {
    exists n: nat :: HandedOn(events, d.cut, out, n) && out[n..] == Complaining(Complaint(was, d, id, events, n))
  }

  function Complaining(complaint: Option<StreamEvent>): seq<StreamEvent> {
    match complaint
    case None => []
    case Some(failure) => [failure]
  }

  /** The safeguard: an unfinalized stream gives its hold back. */
  function Safeguard(f: Finish, d: Delivery, id: Id): seq<Op> {
    f.ops + if f.finalized then [] else With(d.last, Release(id))
  }

  // ---------------------------------------------------------------- before the first byte

  /** Where, if anywhere, the opening is cancelled: inside one of its awaits, in the order they come. */
  datatype OpeningCut =
    | Uncut
    | AtLookup
    | AtSweep(landed: bool)
    | AtPrice
    | AtHold(landed: bool)
    | AtFirst
    | AtClose
    | AtRelease(landed: bool)

  /** Everything outside the coordinator that one opening meets; `events` is all the provider will ever say. */
  datatype Opening = Opening(cut: OpeningCut, lookupAt: int, gate: Before, events: seq<ProviderEvent>, release: Moment,
                             observedAt: int)

  datatype Session =
    | Interrupted
    | Refused(outcome: ExecutionOutcome, error: string, category: Option<CircuitBreaker.Category>)
    | Replay(text: string)
    | Opened(first: ProviderEvent, rest: seq<ProviderEvent>)
    | OpeningRaised(cause: Outcome)

  datatype OpeningTrace = OpeningTrace(session: Session, ops: seq<Op>, observed: seq<CircuitBreaker.CallResult>)

  /** A cached answer this path can frame as pieces. */
  function Replayable(found: Found): Option<string> {
    if found.Hit? && found.response.content.Some? && found.response.content.value.Text?
    then Some(found.response.content.value.text)
    else None
  }

  function SessionOf(refusal: Result): Session {
    match refusal
    case Raised(error) => OpeningRaised(error)
    case Returned(outcome, response, _) =>
      Session.Refused(outcome, if response.error.Some? then response.error.value else "", response.category)
  }

  /** How a provider that fails before its first piece ends the opening. */
  function FailedFirst(events: seq<ProviderEvent>): Option<StreamEvent> {
    if events == [] then Some(Failure(MALFORMED_STREAM, None))
    else if events[0].Failed? then Some(Failure(events[0].error, events[0].category))
    else None
  }

  /** Cancelled inside the gate; an unpriced model is refused before any hold is tried. */
  predicate CutInGate(o: Opening) {
    o.cut.AtSweep? || o.cut.AtPrice? || (o.cut.AtHold? && o.gate.price.Some?)
  }

  /** The gate as it was met: a hold interrupted on its way is taken or not. */
  function GateMet(o: Opening): Before {
    if o.cut.AtHold? then o.gate.(hold := Landing(o.gate.hold, o.cut.landed)) else o.gate
  }

  /** The transactions of a gate that is cancelled inside. */
  function CutGateOps(ttl: int, o: Opening, id: Id, payload: string): seq<Op> {
    match o.cut
    case AtSweep(landed) => Reclaim(ttl, o.gate.(reclaim := Landing(o.gate.reclaim, landed)))
    case AtPrice => Reclaim(ttl, o.gate)
    case _ => GateOps(ttl, GateMet(o), id, payload)
  }

  function ReleaseMet(o: Opening): Moment {
    if o.cut.AtRelease? then Landing(o.release, o.cut.landed) else o.release
  }

  ghost function Opens(db: Db, ttl: int, shelf: Shelf, provider: Option<Provider>, request: Request, o: Opening)
    : OpeningTrace
  {
    if provider.None? then OpeningTrace(SessionOf(NOT_ROUTED), [], [])
    else
      var replay := Replayable(Look(shelf, KeyFor(provider.value, request.payload), o.lookupAt));
      var gate := GateAnswer(db, ttl, o.gate, request.id, request.payload);
      var ops := GateOps(ttl, o.gate, request.id, request.payload);
      if o.cut.AtLookup? then OpeningTrace(Interrupted, [], [])
      else if replay.Some? then OpeningTrace(Replay(replay.value), [], [])
      else if CutInGate(o) then OpeningTrace(Interrupted, CutGateOps(ttl, o, request.id, request.payload), [])
      else if !Permitted(gate) then OpeningTrace(SessionOf(Refusal(gate)), ops, [])
      else
        var failed := FailedFirst(o.events);
        if o.cut.AtFirst? || (o.cut.AtClose? && failed.Some?) then OpeningTrace(Interrupted, ops, [])
        else if failed.None? then OpeningTrace(Opened(o.events[0], o.events[1..]), ops, [])
        else
          OpeningTrace(if o.cut.AtRelease? then Interrupted
                       else Session.Refused(Executed, failed.value.error, failed.value.category),
                       ops + With(ReleaseMet(o), Release(request.id)),
                       [CircuitBreaker.CallResult(false, failed.value.category)])
  }

  // ---------------------------------------------------------------- the coordinator

  class StreamingCoordinator {
    const org: Org
    const cache: InMemoryResponseCache
    const service: ReservationService
    const breaker: CircuitBreaker.InMemoryCircuitBreaker

    constructor (org: Org, cache: InMemoryResponseCache, service: ReservationService,
                 breaker: CircuitBreaker.InMemoryCircuitBreaker)
      ensures this.org == org && this.cache == cache && this.service == service && this.breaker == breaker
    {
      this.org, this.cache, this.service, this.breaker := org, cache, service, breaker;
    }

    /** Decide everything that must be decided before the first byte. */
    method Open(provider: Option<Provider>, request: Request, o: Opening) returns (session: Session)
      requires service.Wired()
      modifies service.ledger, breaker
      ensures var shelf := Shelf(cache.store, cache.unavailable, org);
              var t := Opens(old(service.ledger.Tables()), service.reconciler.ttl, shelf, provider, request, o);
              && session == t.session
              && service.ledger.Tables() == Run(old(service.ledger.Tables()), t.ops)
              && breaker.Told((org, NameOf(provider)), t.observed, o.observedAt)
    {
      ghost var was := service.ledger.Tables();
      if provider.None? { return SessionOf(NOT_ROUTED); }
      if o.cut.AtLookup? { return Interrupted; }
      var found := cache.Get(org, KeyFor(provider.value, request.payload), o.lookupAt);
      var replay := Replayable(found);
      if replay.Some? { return Replay(replay.value); }
      if CutInGate(o) {
        EnterGate(o, request);
        return Interrupted;
      }
      var gate := service.Reserve(o.gate, request.id, request.payload);
      if !Permitted(gate) { return SessionOf(Refusal(gate)); }
      var failed := FailedFirst(o.events);
      if o.cut.AtFirst? || (o.cut.AtClose? && failed.Some?) { return Interrupted; }
      if failed.None? { return Opened(o.events[0], o.events[1..]); }
      breaker.Observe(org, provider.value.name, CircuitBreaker.CallResult(false, failed.value.category), o.observedAt);
      RunJoins(was, GateOps(service.reconciler.ttl, o.gate, request.id, request.payload),
               With(ReleaseMet(o), Release(request.id)));
      Return(ReleaseMet(o), request.id);
      session := if o.cut.AtRelease? then Interrupted
                 else Session.Refused(Executed, failed.value.error, failed.value.category);
    }

    /** As far into the gate as the cancellation lets it get. */
    method EnterGate(o: Opening, request: Request)
      requires service.Wired() && CutInGate(o)
      modifies service.ledger
      ensures service.ledger.Tables() ==
              Run(old(service.ledger.Tables()), CutGateOps(service.reconciler.ttl, o, request.id, request.payload))
    {
      if o.cut.AtHold? {
        var _ := service.Reserve(GateMet(o), request.id, request.payload);
      } else {
        var m := if o.cut.AtSweep? then Landing(o.gate.reclaim, o.cut.landed) else o.gate.reclaim;
        assert CutGateOps(service.reconciler.ttl, o, request.id, request.payload) ==
               With(m, Reconcile(o.gate.now - service.reconciler.ttl, o.gate.locked));
        Sweep(m, o.gate.now, o.gate.locked);
      }
    }

    method Sweep(m: Moment, now: int, locked: set<Id>)
      requires service.Wired()
      modifies service.ledger
      ensures service.ledger.Tables() ==
              Run(old(service.ledger.Tables()), With(m, Reconcile(now - service.reconciler.ttl, locked)))
    {
      var _ := service.reconciler.ReclaimExpired(m, now, locked);
    }

    /** Relay until the provider or the client stops. */
    method RelayEvents(first: ProviderEvent, rest: seq<ProviderEvent>, cut: Cut)
      returns (buffered: seq<string>, exit: Exit)
      ensures Relay(buffered, exit) == Relayed([first] + rest, cut, [])
    {
      buffered := [];
      var event := Some(first);
      ghost var events := [first] + rest;
      while event.Some?
        invariant |buffered| <= |events|
        invariant event == if |buffered| < |events| then Some(events[|buffered|]) else None
        invariant Relayed(events, cut, buffered) == Relayed(events, cut, [])
        decreases |events| - |buffered|, event.Some?
      {
        match event.value {
          case Completed(usage) => return buffered, Finished(usage);
          case Failed(error, category) => return buffered, Broken(error, category);
          case Chunk(content) =>
            var handed := |buffered|;
            buffered := buffered + [content];
            if cut == Walk(handed) { return buffered, Walked; }
            event := if handed < |rest| then Some(rest[handed]) else None;
        }
      }
      exit := Silent;
    }

    /** Give the hold back; a store that does not answer is not the stream's failure. */
    method Return(m: Moment, id: Id)
      requires service.Wired()
      modifies service.ledger
      ensures service.ledger.Tables() == Run(old(service.ledger.Tables()), With(m, Release(id)))
    {
      var _ := service.Release(m, id);
    }

    /** Give the hold back before telling the client; interrupted, it is left to the safeguard. `ops` have run since
        `was`. */
    method FinalizeByRelease(d: Delivery, id: Id, event: StreamEvent, ghost was: Db, ghost ops: seq<Op>)
      returns (finalized: bool, told: Option<StreamEvent>)
      requires service.Wired() && service.ledger.Tables() == Run(was, ops)
      modifies service.ledger
      ensures var f := GiveBack(ops, d, id, event);
              finalized == f.finalized && told == f.event && service.ledger.Tables() == Run(was, f.ops)
    {
      var m := if d.cut.InRelease? then Landing(d.release, d.cut.landed) else d.release;
      RunJoins(was, ops, With(m, Release(id)));
      Return(m, id);
      finalized := !d.cut.InRelease?;
      told := if finalized then Some(event) else None;
    }

    /** Settle a stream that said it completed, and cache it. */
    method Complete(provider: Provider, id: Id, key: CacheKey, usage: Option<Usage>, content: string, d: Delivery)
      returns (finalized: bool, event: Option<StreamEvent>, raised: Option<Outcome>)
      requires service.Wired()
      modifies cache, service.ledger
      ensures var f := Completing(old(service.ledger.Tables()), d, id, usage, content);
              && finalized == f.finalized && event == f.event && raised == f.raised
              && service.ledger.Tables() == Run(old(service.ledger.Tables()), f.ops)
              && cache.store == Cached(old(cache.store), cache.unavailable, cache.ttl, org, key, f.stored.Some?,
                                       provider.name, AsText(f.stored), d.storedAt)
    {
      if d.cut.InPricing? && Usable(usage) { return false, None, None; }
      var accounted := Account(usage, d.closing.price);
      if accounted.Accounted? {
        finalized, event, raised := SettleAndStore(provider, id, key, accounted.cost.total, content, d);
        return;
      }
      raised := None;
      ghost var was := service.ledger.Tables();
      var failure := Failure(if usage.None? then NO_USAGE else UNACCOUNTABLE, None);
      finalized, event := FinalizeByRelease(d, id, failure, was, []);
    }

    method SettleAndStore(provider: Provider, id: Id, key: CacheKey, cost: Money, content: string, d: Delivery)
      returns (finalized: bool, event: Option<StreamEvent>, raised: Option<Outcome>)
      requires service.Wired()
      modifies cache, service.ledger
      ensures var f := Settling(old(service.ledger.Tables()), d, id, cost, content);
              && finalized == f.finalized && event == f.event && raised == f.raised
              && service.ledger.Tables() == Run(old(service.ledger.Tables()), f.ops)
              && cache.store == Cached(old(cache.store), cache.unavailable, cache.ttl, org, key, f.stored.Some?,
                                       provider.name, AsText(f.stored), d.storedAt)
    {
      ghost var was := service.ledger.Tables();
      var answer := Call(service.ledger, SettleMoment(d), Op.Settle(id, cost));
      if d.cut.InSettle? { return false, None, None; }
      if answer.Done? {
        if d.cut != InStore(false) {
          var _ := cache.Put(org, key, CachedResponse(provider.name, key.model, Some(Text(content))), d.storedAt);
        }
        return !d.cut.InStore?, None, None;
      }
      if answer.UnsupportedCurrency? { return false, None, Some(answer); }
      raised := None;
      finalized, event := FinalizeByRelease(d, id, Failure(UNACCOUNTABLE, None), was,
                                            With(SettleMoment(d), Op.Settle(id, cost)));
    }

    /** End the hold as the relay's ending asks. */
    method Finalize(provider: Provider, id: Id, key: CacheKey, exit: Exit, content: string, d: Delivery)
      returns (finalized: bool, event: Option<StreamEvent>, raised: Option<Outcome>)
      requires service.Wired()
      modifies cache, service.ledger
      ensures var f := Finishing(old(service.ledger.Tables()), d, id, exit, content);
              && finalized == f.finalized && event == f.event && raised == f.raised
              && service.ledger.Tables() == Run(old(service.ledger.Tables()), f.ops)
              && cache.store == Cached(old(cache.store), cache.unavailable, cache.ttl, org, key, f.stored.Some?,
                                       provider.name, AsText(f.stored), d.storedAt)
    {
      finalized, event, raised := false, None, None;
      if exit.Finished? {
        finalized, event, raised := Complete(provider, id, key, exit.usage, content, d);
      } else if !exit.Walked? {
        ghost var was := service.ledger.Tables();
        finalized, event := FinalizeByRelease(d, id, FailureOf(exit), was, []);
      }
    }

    /** Relay, then end the hold exactly once: by settlement, by release, or by the safeguard when interrupted. */
    method Deliver(provider: Provider, id: Id, key: CacheKey, first: ProviderEvent, rest: seq<ProviderEvent>,
                   d: Delivery)
      returns (out: seq<StreamEvent>, raised: Option<Outcome>)
      requires service.Wired()
      modifies cache, service.ledger, breaker
      ensures var relay := Relayed([first] + rest, d.cut, []);
              var f := Finishing(old(service.ledger.Tables()), d, id, relay.exit, Joined(relay.pieces));
              && out == Pieces(relay.pieces) + OptionalEvent(f.event) && raised == f.raised
              && ClientSees(old(service.ledger.Tables()), d, id, [first] + rest, out)
              && service.ledger.Tables() == Run(old(service.ledger.Tables()), Safeguard(f, d, id))
              && (exists n: nat :: Judged([first] + rest, d.cut, n, Observations(relay.exit)))
              && breaker.Told((org, provider.name), Observations(relay.exit), d.observedAt)
              && cache.store == Cached(old(cache.store), cache.unavailable, cache.ttl, org, key, f.stored.Some?,
                                       provider.name, AsText(f.stored), d.storedAt)
    {
      ghost var was := service.ledger.Tables();
      var buffered, exit := RelayEvents(first, rest, d.cut);
      var observed := Observations(exit);
      if observed != [] {
        breaker.Observe(org, provider.name, observed[0], d.observedAt);
      }
      var finalized, event;
      finalized, event, raised := Finalize(provider, id, key, exit, Joined(buffered), d);
      SafeguardRuns(was, Finishing(was, d, id, exit, Joined(buffered)), d, id);
      if !finalized {
        Return(d.last, id);
      }
      out := Pieces(buffered) + OptionalEvent(event);
      ClientSeesTheProvidersChunks(was, d, id, [first] + rest, out);
      BreakerHearsHowItEnded([first] + rest, d.cut);
    }
  }

  function OptionalEvent(event: Option<StreamEvent>): seq<StreamEvent> {
    if event.Some? then [event.value] else []
  }

  function AsText(text: Option<string>): Option<Content> {
    if text.Some? then Some(Text(text.value)) else None
  }

  lemma SafeguardRuns(db: Db, f: Finish, d: Delivery, id: Id)
    ensures Run(db, Safeguard(f, d, id)) ==
            if f.finalized then Run(db, f.ops) else Run(Run(db, f.ops), With(d.last, Release(id)))
  {
    assert f.ops + [] == f.ops;
    RunJoins(db, f.ops, With(d.last, Release(id)));
  }

  // ---------------------------------------------------------------- what a stream leaves behind

  predicate UndisturbedDelivery(d: Delivery, id: Id) {
    LeavesAlone(d.closing.settle.others, id) && LeavesAlone(d.release.others, id) && LeavesAlone(d.last.others, id)
  }

  /** Both releases get through to the store. */
  predicate Reachable(d: Delivery) { d.release.up && d.last.up }

  /** The row is there and nobody released it: held, swept, or settled by an earlier request. */
  predicate Owned(db: Db, id: Id) {
    id in db.books.rows && !db.books.rows[id].status.Released?
  }

  /** What a stream may be charged: the cost of what the provider reported, if it completed with usable usage. */
  function Due(d: Delivery, exit: Exit): Option<int> {
    if exit.Finished? && Account(exit.usage, d.closing.price).Accounted?
    then Some(Account(exit.usage, d.closing.price).cost.total.units)
    else None
  }

  /** The ledger once a stream has ended as far as `f`. */
  predicate Ending(was: Db, now: Db, id: Id, f: Finish, due: Option<int>, held: bool) {
    && id in now.books.rows
    // Settled stays settled, at its price; newly settled only at the price due; else the costs did not move.
    && (IsCommitted(was.books, id) ==> IsCommitted(now.books, id))
    && (IsCommitted(now.books, id) && !IsCommitted(was.books, id) ==>
          due.Some? && id in now.costs && now.costs[id] == due.value)
    && (IsCommitted(was.books, id) || !IsCommitted(now.books, id) ==> SameCost(was, now, id))
    // Cached only once settled; a client told of a failure was not charged.
    && (f.stored.Some? ==> IsCommitted(now.books, id))
    && (f.event.Some? ==> (IsCommitted(now.books, id) ==> IsCommitted(was.books, id)))
    && (Live(now.books, id) ==> held)
  }

  lemma ReleaseKeepsTheEnding(was: Db, db: Db, m: Moment, id: Id, f: Finish, due: Option<int>)
    requires Consistent(db) && LeavesAlone(m.others, id) && Ending(was, db, id, f, due, true)
    ensures Ending(was, Run(db, With(m, Release(id))), id, f, due, !m.up)
  {
    ReleaseEndsTheHold(db, m, id);
    if m.up {
      ReleaseFailsOnlyInAnOutage(db, m, id);
    }
  }

  lemma GiveBackEnds(was: Db, db: Db, ops: seq<Op>, d: Delivery, id: Id, event: StreamEvent, due: Option<int>)
    requires Consistent(was) && db == Run(was, ops) && LeavesAlone(d.release.others, id)
    requires Ending(was, db, id, GiveBack(ops, d, id, event), due, true)
    ensures var f := GiveBack(ops, d, id, event);
            Ending(was, Run(was, f.ops), id, f, due, !(f.finalized && d.release.up))
  {
    var f := GiveBack(ops, d, id, event);
    var m := if d.cut.InRelease? then Landing(d.release, d.cut.landed) else d.release;
    RunKeepsConsistent(was, ops);
    RunJoins(was, ops, With(m, Release(id)));
    ReleaseKeepsTheEnding(was, db, m, id, f, due);
  }

  lemma SettlingEnds(was: Db, d: Delivery, id: Id, cost: Money, text: string)
    requires Consistent(was) && Owned(was, id) && UndisturbedDelivery(d, id)
    ensures var f := Settling(was, d, id, cost, text);
            Ending(was, Run(was, f.ops), id, f, Some(cost.units), !(f.finalized && d.release.up))
  {
    var f, m := Settling(was, d, id, cost, text), SettleMoment(d);
    var ops := With(m, Settle(id, cost));
    SettleEndsTheHold(was, m, id, cost);
    assert id in was.costs <==> IsCommitted(was.books, id);
    if f == GiveBack(ops, d, id, Failure(UNACCOUNTABLE, None)) {
      GiveBackEnds(was, Run(was, ops), ops, d, id, Failure(UNACCOUNTABLE, None), Some(cost.units));
    }
  }

  /** What the program keeps and says at the end of a stream. */
  lemma FinishingSays(was: Db, d: Delivery, id: Id, exit: Exit, text: string)
    ensures var f := Finishing(was, d, id, exit, text);
            && (f.stored.Some? ==> exit.Finished? && f.stored.value == text)
            && (f.event.Some? ==> f.finalized)
            && (f.raised.Some? ==> f.raised.value == UnsupportedCurrency && f.event.None? && f.stored.None?)
            && (d.cut.Never? && f.raised.None? && f.event.None? && exit.Finished? ==> f.stored.Some?)
  {
  }

  /** An error reaches the caller exactly if the settlement of a completed stream's usage is refused its currency. */
  lemma RaisesOnlyOverCurrency(was: Db, d: Delivery, id: Id, exit: Exit, text: string)
    ensures Finishing(was, d, id, exit, text).raised ==
            if exit.Finished? && exit.usage.Some? && exit.usage.value.prompt >= 0 && exit.usage.value.completion >= 0 &&
               d.closing.price.Some? && !d.cut.InPricing? && !d.cut.InSettle? &&
               Answer(was, d.closing.settle,
                      Settle(id, ComputeCost(exit.usage.value, d.closing.price.value).total)).UnsupportedCurrency?
            then Some(UnsupportedCurrency)
            else None
  {
  }

  lemma FinishingEnds(was: Db, d: Delivery, id: Id, exit: Exit, text: string)
    requires Consistent(was) && Owned(was, id) && UndisturbedDelivery(d, id)
    ensures var f := Finishing(was, d, id, exit, text);
            Ending(was, Run(was, f.ops), id, f, Due(d, exit), !(f.finalized && d.release.up))
  {
    if exit.Finished? && Due(d, exit).Some? {
      SettlingEnds(was, d, id, Account(exit.usage, d.closing.price).cost.total, text);
    } else if !exit.Walked? {
      var failure := if !exit.Finished? then FailureOf(exit)
                     else Failure(if exit.usage.None? then NO_USAGE else UNACCOUNTABLE, None);
      if !(exit.Finished? && d.cut.InPricing? && Usable(exit.usage)) {
        GiveBackEnds(was, was, [], d, id, failure, None);
      }
    }
  }

  lemma SafeguardEnds(was: Db, d: Delivery, id: Id, exit: Exit, text: string)
    requires Consistent(was) && Owned(was, id) && UndisturbedDelivery(d, id)
    ensures var f := Finishing(was, d, id, exit, text);
            Ending(was, Run(was, Safeguard(f, d, id)), id, f, Due(d, exit), !Reachable(d))
  {
    var f := Finishing(was, d, id, exit, text);
    FinishingEnds(was, d, id, exit, text);
    SafeguardRuns(was, f, d, id);
    if !f.finalized {
      RunKeepsConsistent(was, f.ops);
      ReleaseKeepsTheEnding(was, Run(was, f.ops), d.last, id, f, Due(d, exit));
    }
  }

  /** However the provider's events run, and wherever the client leaves or the request is cancelled, ledger outages
      aside the stream ends with its hold settled or given back; it is charged at most once, exactly what the
      provider's reported usage costs, and a charge is never handed back; the breaker hears at most one outcome, none
      of a client that walked away; and the cache is written only after a settlement, with all that was handed on. */
  lemma StreamsEndTheirHold(was: Db, d: Delivery, id: Id, events: seq<ProviderEvent>)
    requires Consistent(was) && Owned(was, id) && UndisturbedDelivery(d, id)
    ensures var relay := Relayed(events, d.cut, []);
            var f := Finishing(was, d, id, relay.exit, Joined(relay.pieces));
            var now := Run(was, Safeguard(f, d, id));
            && Ending(was, now, id, f, Due(d, relay.exit), !Reachable(d))
            && |Observations(relay.exit)| <= 1 && (relay.exit.Walked? ==> Observations(relay.exit) == [])
            && (f.stored.Some? ==> relay.exit.Finished? && f.stored.value == Joined(relay.pieces))
            && (d.cut.Never? && f.raised.None? && f.event.None? ==> IsCommitted(now.books, id))
  {
    var relay := Relayed(events, d.cut, []);
    var f := Finishing(was, d, id, relay.exit, Joined(relay.pieces));
    FinishingEnds(was, d, id, relay.exit, Joined(relay.pieces));
    FinishingSays(was, d, id, relay.exit, Joined(relay.pieces));
    SafeguardEnds(was, d, id, relay.exit, Joined(relay.pieces));
    RelayIsFaithful(events, d.cut, []);
  }

  lemma CommittedStays(db: Db, m: Moment, id: Id)
    requires LeavesAlone(m.others, id)
    ensures IsCommitted(Run(db, With(m, Release(id))).books, id) <==> IsCommitted(db.books, id)
  {
    ReleaseEndsTheHold(db, m, id);
  }

  /** A settlement that lands although its caller has been cancelled stands: the safeguard's release does not undo
      it; one that does not land leaves the id as it was. */
  lemma InterruptedSettlementsStand(was: Db, d: Delivery, id: Id, exit: Exit, text: string)
    requires Consistent(was) && UndisturbedDelivery(d, id) && d.cut.InSettle?
    requires exit.Finished? && Account(exit.usage, d.closing.price).Accounted?
    ensures var cost := Account(exit.usage, d.closing.price).cost.total;
            var now := Run(was, Safeguard(Finishing(was, d, id, exit, text), d, id));
            IsCommitted(now.books, id) <==>
              IsCommitted(was.books, id) ||
              (d.cut.landed && Answer(was, d.closing.settle, Settle(id, cost)).Done?)
  {
    var cost := Account(exit.usage, d.closing.price).cost.total;
    var f, m := Finishing(was, d, id, exit, text), SettleMoment(d);
    SafeguardRuns(was, f, d, id);
    SettleEndsTheHold(was, m, id, cost);
    CommittedStays(Run(was, f.ops), d.last, id);
    assert d.cut.landed ==> m == d.closing.settle;
  }

  /** What is handed on is the provider's own pieces, in order, none skipped or repeated, up to the event or the cut the
      relay stops at. */
  lemma {:induction false} RelayIsFaithful(events: seq<ProviderEvent>, cut: Cut, pieces: seq<string>)
    requires |pieces| <= |events|
    requires forall i :: 0 <= i < |pieces| ==> events[i] == Chunk(pieces[i]) && cut != Walk(i)
    ensures var r := Relayed(events, cut, pieces);
            && |r.pieces| <= |events|
            && (forall i :: 0 <= i < |r.pieces| ==> events[i] == Chunk(r.pieces[i]))
            && (forall i :: 0 <= i < |r.pieces| - 1 ==> cut != Walk(i))
            && (r.exit.Walked? <==> |r.pieces| > 0 && cut == Walk(|r.pieces| - 1))
            && match r.exit
               case Walked => |r.pieces| > 0 && cut == Walk(|r.pieces| - 1)
               case Silent => |r.pieces| == |events|
               case Finished(usage) => |r.pieces| < |events| && events[|r.pieces|] == Completed(usage)
               case Broken(error, category) => |r.pieces| < |events| && events[|r.pieces|] == Failed(error, category)
    decreases |events| - |pieces|
  {
    if |pieces| < |events| && events[|pieces|].Chunk? && cut != Walk(|pieces|) {
      RelayIsFaithful(events, cut, pieces + [events[|pieces|].content]);
    }
  }

  lemma ComplaintIsTheLastEvent(was: Db, d: Delivery, id: Id, events: seq<ProviderEvent>)
    ensures var relay := Relayed(events, d.cut, []);
            && |relay.pieces| <= |events|
            && Complaint(was, d, id, events, |relay.pieces|) ==
               Finishing(was, d, id, relay.exit, Joined(relay.pieces)).event
  {
    RelayIsFaithful(events, d.cut, []);
  }

  /** What is handed out is the provider's chunks as they came, and one complaint after them exactly if there is
      cause. */
  lemma ClientSeesTheProvidersChunks(was: Db, d: Delivery, id: Id, events: seq<ProviderEvent>, out: seq<StreamEvent>)
    requires var relay := Relayed(events, d.cut, []);
             out == Pieces(relay.pieces) + OptionalEvent(Finishing(was, d, id, relay.exit, Joined(relay.pieces)).event)
    ensures ClientSees(was, d, id, events, out)
  {
    var relay := Relayed(events, d.cut, []);
    var n := |relay.pieces|;
    RelayIsFaithful(events, d.cut, []);
    ComplaintIsTheLastEvent(was, d, id, events);
    assert HandedOn(events, d.cut, out, n);
    assert out[n..] == Complaining(Complaint(was, d, id, events, n));
  }

  /** What there is to tell the breaker of a provider whose first n events were handed on: nothing when the client
      walked away there, that it completed, or that it failed, in its own category if it named one. */
  predicate Judged(events: seq<ProviderEvent>, cut: Cut, n: nat, observed: seq<CircuitBreaker.CallResult>) {
    && n <= |events| && (forall i :: 0 <= i < n ==> events[i].Chunk?) && (forall i :: 0 <= i < n - 1 ==> cut != Walk(i))
    && if n > 0 && cut == Walk(n - 1) then observed == []
       else if n < |events| && events[n].Completed? then observed == [CircuitBreaker.CallResult(true, None)]
       else if n < |events| then
         events[n].Failed? && observed == [CircuitBreaker.CallResult(false, events[n].category)]
       else observed == [CircuitBreaker.CallResult(false, None)]
  }

  /** The breaker hears of the provider's own ending, once, and of nothing else. */
  lemma BreakerHearsHowItEnded(events: seq<ProviderEvent>, cut: Cut)
    ensures exists n: nat :: Judged(events, cut, n, Observations(Relayed(events, cut, []).exit))
  {
    var relay := Relayed(events, cut, []);
    RelayIsFaithful(events, cut, []);
    assert Judged(events, cut, |relay.pieces|, Observations(relay.exit));
  }

  /** The provider completed after so many chunks. */
  predicate CompletedAfter(events: seq<ProviderEvent>, n: nat) {
    n < |events| && events[n].Completed? && forall i :: 0 <= i < n ==> events[i].Chunk?
  }

  /** All the chunks' texts, one after the other. */
  function TextOf(events: seq<ProviderEvent>): string {
    if events == [] then ""
    else TextOf(events[..|events| - 1]) + if events[|events| - 1].Chunk? then events[|events| - 1].content else ""
  }

  lemma {:induction false} JoinedAppends(texts: seq<string>, more: string)
    ensures Joined(texts + [more]) == Joined(texts) + more
  {
    if texts == [] {
      assert [more][1..] == [];
    } else {
      assert (texts + [more])[1..] == texts[1..] + [more];
      JoinedAppends(texts[1..], more);
    }
  }

  lemma {:induction false} JoinedIsTheText(events: seq<ProviderEvent>, pieces: seq<string>)
    requires |pieces| <= |events| && forall i :: 0 <= i < |pieces| ==> events[i] == Chunk(pieces[i])
    ensures Joined(pieces) == TextOf(events[..|pieces|])
  {
    if pieces != [] {
      var n := |pieces| - 1;
      JoinedIsTheText(events, pieces[..n]);
      JoinedAppends(pieces[..n], pieces[n]);
      assert pieces == pieces[..n] + [pieces[n]];
      assert events[..|pieces|][..n] == events[..n];
    }
  }

  /** A stream that was cached can be replayed: within the lifetime of its entry the next request for the same provider,
      model and payload, of the same tenant, is handed all the chunks' text at once, and runs no transaction. */
  lemma CachedStreamsAreReplayed(was: Db, d: Delivery, id: Id, events: seq<ProviderEvent>, org: Org, ttl: int,
                                 provider: Provider, payload: string, before: Store, store: Store,
                                 db: Db, lifetime: int, request: Request, o: Opening)
    requires var relay := Relayed(events, d.cut, []);
             var f := Finishing(was, d, id, relay.exit, Joined(relay.pieces));
             var key := (org, KeyFor(provider, payload));
             var after := Cached(before, false, ttl, org, key.1, f.stored.Some?, provider.name, AsText(f.stored),
                                 d.storedAt);
             f.stored.Some? && key in store && store[key] == after[key]
    requires request.payload == payload && o.lookupAt < d.storedAt + ttl && !o.cut.AtLookup?
    ensures var t := Opens(db, lifetime, Shelf(store, false, org), Some(provider), request, o);
            && t.ops == [] && t.observed == []
            && exists n: nat :: CompletedAfter(events, n) && t.session == Replay(TextOf(events[..n]))
  {
    var relay := Relayed(events, d.cut, []);
    RelayIsFaithful(events, d.cut, []);
    FinishingSays(was, d, id, relay.exit, Joined(relay.pieces));
    JoinedIsTheText(events, relay.pieces);
    assert CompletedAfter(events, |relay.pieces|);
  }

  lemma WithoutReserve(m: Moment, op: Op, id: Id)
    requires LeavesAlone(m.others, id) && !op.Reserve?
    ensures NeverReserves(With(m, op), id)
  {
    assert forall i :: 0 <= i < |m.others| ==> !Names(m.others[i], id);
  }

  lemma NeverReservesJoins(a: seq<Op>, b: seq<Op>, id: Id)
    requires NeverReserves(a, id) && NeverReserves(b, id)
    ensures NeverReserves(a + b, id)
  {
  }

  lemma NothingIsReservedAgain(was: Db, d: Delivery, id: Id, exit: Exit, text: string)
    requires UndisturbedDelivery(d, id)
    ensures NeverReserves(Safeguard(Finishing(was, d, id, exit, text), d, id), id)
  {
    var f := Finishing(was, d, id, exit, text);
    var m := if d.cut.InRelease? then Landing(d.release, d.cut.landed) else d.release;
    WithoutReserve(m, Release(id), id);
    WithoutReserve(d.last, Release(id), id);
    NeverReservesJoins([], With(m, Release(id)), id);
    if Due(d, exit).Some? {
      var settle := With(SettleMoment(d), Settle(id, Account(exit.usage, d.closing.price).cost.total));
      WithoutReserve(SettleMoment(d), Settle(id, Account(exit.usage, d.closing.price).cost.total), id);
      NeverReservesJoins(settle, With(m, Release(id)), id);
    }
    NeverReservesJoins(f.ops, With(d.last, Release(id)), id);
    NeverReservesJoins(f.ops, [], id);
  }

  /** The hold is returned exactly once, or is still live because the store could not be reached. */
  lemma StreamsReturnTheirHoldOnce(was: Db, d: Delivery, id: Id, exit: Exit, text: string)
    requires Consistent(was) && Live(was.books, id) && UndisturbedDelivery(d, id)
    ensures var ops := Safeguard(Finishing(was, d, id, exit, text), d, id);
            && LegalRun(was.books, Effects(was, ops))
            && ReturnCount(was.books, Effects(was, ops), id) == (if Live(Run(was, ops).books, id) then 0 else 1)
            && (Reachable(d) ==> !Live(Run(was, ops).books, id))
  {
    NothingIsReservedAgain(was, d, id, exit, text);
    HoldReturnedOnceOrStillLive(was, Safeguard(Finishing(was, d, id, exit, text), d, id), id);
    SafeguardEnds(was, d, id, exit, text);
  }

  /** The hold was tried and granted, whether or not the opening lived to see it. */
  ghost predicate HoldGranted(db: Db, ttl: int, request: Request, o: Opening) {
    && !o.cut.AtLookup? && !o.cut.AtSweep? && !o.cut.AtPrice?
    && (o.cut.AtHold? ==> o.cut.landed)
    && Permitted(GateAnswer(db, ttl, o.gate, request.id, request.payload))
  }

  lemma HoldsThatLand(db: Db, ttl: int, request: Request, o: Opening)
    ensures HoldGranted(db, ttl, request, o) <==>
            && !o.cut.AtLookup? && !o.cut.AtSweep? && !o.cut.AtPrice?
            && Permitted(GateAnswer(db, ttl, GateMet(o), request.id, request.payload))
  {
    assert o.gate.hold.(up := o.gate.hold.up && true) == o.gate.hold;
  }

  /** Whether a cancellation finds the opening still at the await it strikes: none is reached past a refusal or a
      replay, and those that end a failed provider only when it failed first. */
  predicate Strikes(o: Opening, passed: bool) {
    match o.cut
    case Uncut => false
    case AtLookup => true
    case AtSweep(_) => true
    case AtPrice => true
    case AtHold(_) => o.gate.price.Some?
    case AtFirst => passed
    case AtClose => passed && (o.events == [] || o.events[0].Failed?)
    case AtRelease(_) => passed && (o.events == [] || o.events[0].Failed?)
  }

  /** An opening is interrupted exactly if its cancellation strikes it at an await it came to. */
  lemma InterruptedExactlyWhereItWaits(db: Db, ttl: int, shelf: Shelf, provider: Option<Provider>, request: Request,
                                       o: Opening)
    ensures var passed := Permitted(GateAnswer(db, ttl, o.gate, request.id, request.payload));
            Opens(db, ttl, shelf, provider, request, o).session.Interrupted? <==>
              && provider.Some? && Strikes(o, passed)
              && (o.cut.AtLookup? ||
                  Replayable(Look(shelf, KeyFor(provider.value, request.payload), o.lookupAt)).None?)
  {
  }

  predicate UndisturbedOpening(o: Opening, id: Id) {
    LeavesAlone(o.gate.reclaim.others, id) && LeavesAlone(o.gate.hold.others, id) && LeavesAlone(o.release.others, id)
  }

  lemma CutGateLeavesTheRow(db: Db, ttl: int, request: Request, o: Opening)
    requires CutInGate(o) && UndisturbedOpening(o, request.id)
    ensures var d := Run(db, CutGateOps(ttl, o, request.id, request.payload));
            if HoldGranted(db, ttl, request, o)
            then Taken(db, d, request.id) && !d.books.rows[request.id].status.Expired?
            else AtMostExpired(db, d, request.id)
  {
    HoldsThatLand(db, ttl, request, o);
    if o.cut.AtHold? {
      GateTakesTheRow(db, ttl, GateMet(o), request.id, request.payload);
    } else {
      var ops := CutGateOps(ttl, o, request.id, request.payload);
      assert LeavesAlone(ops, request.id);
      OthersLeaveTheRow(db, ops, request.id);
    }
  }

  /** The row and the costs once an opening is over: untouched but for the hold it may have taken. */
  predicate OpenedRow(was: Db, now: Db, id: Id, session: Session) {
    && (session.Opened? ==> Owned(now, id) && (Live(now.books, id) || IsCommitted(was.books, id)))
    && (IsCommitted(now.books, id) <==> IsCommitted(was.books, id))
    && SameCost(was, now, id)
  }

  /** The hold is still there, or a sweep of somebody else's has already found it. */
  predicate LeftBehind(db: Db, id: Id, maybeSwept: bool) {
    id in db.books.rows && (Live(db.books, id) || (maybeSwept && db.books.rows[id].status.Expired?))
  }

  /** Granted, and then the provider failed before its first piece. */
  lemma FailedFirstOpenings(db: Db, ttl: int, request: Request, o: Opening)
    requires Consistent(db) && UndisturbedOpening(o, request.id)
    requires Permitted(GateAnswer(db, ttl, o.gate, request.id, request.payload))
    ensures var id, m := request.id, ReleaseMet(o);
            var gate := GateOps(ttl, o.gate, id, request.payload);
            var now := Run(db, gate + With(m, Release(id)));
            && (IsCommitted(now.books, id) <==> IsCommitted(db.books, id)) && SameCost(db, now, id)
            && (m.up ==> !Live(now.books, id))
            && (!m.up && !IsCommitted(db.books, id) ==> LeftBehind(now, id, m.others != []))
  {
    var id, m := request.id, ReleaseMet(o);
    var gate := GateOps(ttl, o.gate, id, request.payload);
    GateTakesTheRow(db, ttl, o.gate, id, request.payload);
    RunKeepsConsistent(db, gate);
    RunJoins(db, gate, With(m, Release(id)));
    ReleaseEndsTheHold(Run(db, gate), m, id);
    ReleaseFailsOnlyInAnOutage(Run(db, gate), m, id);
    RunWith(Run(db, gate), m, Release(id));
    OthersLeaveTheRow(Run(db, gate), m.others, id);
  }

  /** Up to the provider's first event, an opening's row is taken if the gate granted, else as it was. */
  lemma OpeningsUpToTheFirst(db: Db, ttl: int, shelf: Shelf, provider: Option<Provider>, request: Request, o: Opening,
                             t: OpeningTrace)
    requires UndisturbedOpening(o, request.id)
    requires t == Opens(db, ttl, shelf, provider, request, o) && t.observed == []
    ensures OpenedRow(db, Run(db, t.ops), request.id, t.session)
    ensures !t.session.Opened? && !t.session.Interrupted? ==> AtMostExpired(db, Run(db, t.ops), request.id)
  {
    if CutInGate(o) {
      CutGateLeavesTheRow(db, ttl, request, o);
    } else if t.ops != [] {
      GateTakesTheRow(db, ttl, o.gate, request.id, request.payload);
    }
  }

  /** An opened stream owns a live hold, unless an earlier request under its id already paid; a refused one whose id
      was not held before holds nothing, an outage aside; and no opening, cancelled or not, settles or charges
      anything. A consumer that never starts an opened stream leaves the hold as it is. */
  lemma OpenedStreamsOwnTheirHold(db: Db, ttl: int, shelf: Shelf, provider: Option<Provider>, request: Request,
                                  o: Opening)
    requires Consistent(db) && UndisturbedOpening(o, request.id)
    ensures var t := Opens(db, ttl, shelf, provider, request, o);
            var now := Run(db, t.ops);
            && Consistent(now) && OpenedRow(db, now, request.id, t.session)
            && (!t.session.Opened? && !t.session.Interrupted? && o.release.up && !Live(db.books, request.id) ==>
                  !Live(now.books, request.id))
  {
    var t := Opens(db, ttl, shelf, provider, request, o);
    if t.observed == [] {
      OpeningsUpToTheFirst(db, ttl, shelf, provider, request, o, t);
    } else {
      FailedFirstOpenings(db, ttl, request, o);
      assert !t.session.Opened? && t.ops == GateOps(ttl, o.gate, request.id, request.payload) +
                                            With(ReleaseMet(o), Release(request.id));
    }
    RunKeepsConsistent(db, t.ops);
  }

  /** Cancelled while it is being opened, a stream whose id was neither held nor settled leaves its hold for the sweep
      to find exactly if the hold was granted and no release landed after it; the sweep may have found it already if
      others came before the release. */
  lemma InterruptedOpeningsLeaveAHold(db: Db, ttl: int, shelf: Shelf, provider: Option<Provider>, request: Request,
                                      o: Opening)
    requires Consistent(db) && UndisturbedOpening(o, request.id)
    requires !Live(db.books, request.id) && !IsCommitted(db.books, request.id)
    requires Opens(db, ttl, shelf, provider, request, o).session.Interrupted?
    ensures var now := Run(db, Opens(db, ttl, shelf, provider, request, o).ops);
            var left := HoldGranted(db, ttl, request, o) && !(o.cut.AtRelease? && o.cut.landed && o.release.up);
            && (left ==> LeftBehind(now, request.id, o.cut.AtRelease? && o.release.others != []))
            && (!left ==> !Live(now.books, request.id))
  {
    var id, t := request.id, Opens(db, ttl, shelf, provider, request, o);
    HoldsThatLand(db, ttl, request, o);
    if t.observed != [] {
      FailedFirstOpenings(db, ttl, request, o);
    } else if CutInGate(o) {
      CutGateLeavesTheRow(db, ttl, request, o);
    } else if !o.cut.AtLookup? {
      GateTakesTheRow(db, ttl, o.gate, id, request.payload);
    }
  }

  /** A streamed request from beginning to end under an id nobody has paid under: opened, delivered to wherever it
      stops, and then, outages aside, not held; charged nothing or exactly the cost of the usage its provider
      reported. */
  lemma StreamedRequestsEndTheirHold(db: Db, ttl: int, shelf: Shelf, provider: Option<Provider>, request: Request,
                                     o: Opening, d: Delivery)
    requires Consistent(db) && !IsCommitted(db.books, request.id) && UndisturbedDelivery(d, request.id)
    requires UndisturbedOpening(o, request.id)
    requires Opens(db, ttl, shelf, provider, request, o).session.Opened?
    ensures var t, id := Opens(db, ttl, shelf, provider, request, o), request.id;
            var relay := Relayed([t.session.first] + t.session.rest, d.cut, []);
            var held := Run(db, t.ops);
            var now := Run(held, Safeguard(Finishing(held, d, id, relay.exit, Joined(relay.pieces)), d, id));
            && Live(held.books, id)
            && (Reachable(d) ==> !Live(now.books, id))
            && (IsCommitted(now.books, id) ==>
                  Due(d, relay.exit).Some? && id in now.costs && now.costs[id] == Due(d, relay.exit).value)
            && (!IsCommitted(now.books, id) ==> id !in now.costs)
  {
    var t, id := Opens(db, ttl, shelf, provider, request, o), request.id;
    OpenedStreamsOwnTheirHold(db, ttl, shelf, provider, request, o);
    StreamsEndTheirHold(Run(db, t.ops), d, id, [t.session.first] + t.session.rest);
    assert id !in db.costs <==> !IsCommitted(db.books, id);
  }
}
