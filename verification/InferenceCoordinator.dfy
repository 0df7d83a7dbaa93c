/** One unary request end to end: cache, gate, provider call, settlement or release. */
module InferenceCoordinator {
  import opened MapSums
  import opened Ledger
  import opened SqlLedger
  import opened SharedLedger
  import opened Accounting
  import opened ReservationService
  import opened OwnTransactions
  import opened ResponseCache
  import CircuitBreaker

  datatype Provider = Provider(name: string, model: string)

  datatype Request = Request(id: Id, payload: string)

  /** A provider's answer; `usage` is whatever it reported. */
  datatype Response = Response(
    ok: bool,
    provider: string,
    content: Option<Content>,
    usage: Option<Usage>,
    error: Option<string>,
    category: Option<CircuitBreaker.Category>)

  datatype ExecutionOutcome = CacheHit | Executed | NotRouted | BudgetDenied | BudgetUnavailable | NotAccountable

  datatype Result =
    | Returned(outcome: ExecutionOutcome, response: Response, cost: Option<Cost>)
    | Raised(error: Outcome)

  /** Everything outside the coordinator that one execution meets. */
  datatype Conditions = Conditions(
    lookupAt: int,
    gate: Before,
    response: Response,
    observedAt: int,
    closing: Closing,
    release: Moment,
    storedAt: int)

  /** What one execution did: its answer, the transactions run meanwhile, what the breaker was told and whether
      the answer was cached. */
  datatype Trace = Trace(
    result: Result,
    ops: seq<Op>,
    observed: seq<CircuitBreaker.CallResult>,
    stored: bool)

  function Failure(error: string): Response {
    Response(false, "", None, None, Some(error), None)
  }

  const NOT_ACCOUNTABLE := Returned(NotAccountable, Failure("not_accountable"), None)

  /** How the hold is closed once the provider has answered. */
  datatype Conclusion = Conclusion(result: Result, ops: seq<Op>, stored: bool)

  /** Giving the hold back, after `ops`, before answering `result`. */
  ghost function GivenBack(d: Db, ops: seq<Op>, m: Moment, id: Id, result: Result): Conclusion {
    var answer := Answer(Run(d, ops), m, Release(id));
    Conclusion(if answer.Done? then result else Raised(answer), ops + With(m, Release(id)), false)
  }

  ghost function Concluded(d: Db, id: Id, c: Conditions): Conclusion {
    var response := c.response;
    if !response.ok then GivenBack(d, [], c.release, id, Returned(Executed, response, None))
    else
      var s, ops := SettleAnswer(d, c.closing, id, response.usage), SettleOps(c.closing, id, response.usage);
      match s
      case Charged(cost) => Conclusion(Returned(Executed, response, Some(cost)), ops, true)
      case Refused(error) => Conclusion(Raised(error), ops, false)
      case Defective(_) => GivenBack(d, ops, c.release, id, NOT_ACCOUNTABLE)
  }

  predicate Permitted(gate: Gate) { gate.Answered? && gate.outcome.Granted? }

  /** The answer to a request the gate did not permit. */
  function Refusal(gate: Gate): Result {
    if gate.Unpriced? then NOT_ACCOUNTABLE
    else
      match gate.outcome
      case Exceeded(_) => Returned(BudgetDenied, Failure("budget_exceeded"), None)
      case Unavailable => Returned(BudgetUnavailable, Failure("budget_unavailable"), None)
      case other => Raised(other)
  }

  /** The path behind the cache. */
  ghost function Serve(db: Db, ttl: int, request: Request, c: Conditions): Trace {
    var id, payload := request.id, request.payload;
    var gate, ops := GateAnswer(db, ttl, c.gate, id, payload), GateOps(ttl, c.gate, id, payload);
    if !Permitted(gate) then Trace(Refusal(gate), ops, [], false)
    else
      var end := Concluded(Run(db, ops), id, c);
      Trace(end.result, ops + end.ops, [CircuitBreaker.CallResult(c.response.ok, c.response.category)], end.stored)
  }

  /** The cache as one execution finds it. */
  datatype Shelf = Shelf(store: Store, unavailable: bool, org: Org)

  function KeyFor(provider: Provider, payload: string): CacheKey {
    CacheKey(provider.name, provider.model, payload)
  }

  function NameOf(provider: Option<Provider>): string {
    if provider.Some? then provider.value.name else ""
  }

  function Look(shelf: Shelf, key: CacheKey, now: int): Found {
    if shelf.unavailable then CacheUnavailable else Fresh(shelf.store, shelf.org, key, now)
  }

  const NOT_ROUTED := Returned(NotRouted, Failure("not_routed"), None)

  /** A hit is an answer that used nothing. */
  function Replayed(r: CachedResponse): Result {
    Returned(CacheHit, Response(true, r.provider, r.content, None, None, None), None)
  }

  /** One whole execution: unrouted, served from the cache, or behind it. */
  ghost function Attempted(db: Db, ttl: int, shelf: Shelf, provider: Option<Provider>, request: Request, c: Conditions)
    : Trace
  {
    if provider.None? then Trace(NOT_ROUTED, [], [], false)
    else
      var found := Look(shelf, KeyFor(provider.value, request.payload), c.lookupAt);
      if found.Hit? then Trace(Replayed(found.response), [], [], false)
      else Serve(db, ttl, request, c)
  }

  /** What the coordinator writes to the cache. */
  function Cached(store: Store, unavailable: bool, ttl: int, org: Org, key: CacheKey, stored: bool, provider: string,
                  content: Option<Content>, at: int): Store
  {
    if !stored || unavailable then store
    else store[(org, key) := Entry(CachedResponse(provider, key.model, content), at + ttl)]
  }

  class Coordinator {
    const org: Org
    const cache: InMemoryResponseCache
    const service: ReservationService
    const breaker: CircuitBreaker.InMemoryCircuitBreaker

    constructor (org: Org, cache: InMemoryResponseCache, service: ReservationService,
                 breaker: CircuitBreaker.InMemoryCircuitBreaker)
      ensures this.org == org && this.cache == cache && this.service == service && this.breaker == breaker
    {
      this.org, this.cache, this.service, this.breaker := org, cache, service, breaker;
    }

    /** Serve a hit from the cache; otherwise gate, call, and settle or release. */
    method Execute(provider: Option<Provider>, request: Request, c: Conditions) returns (result: Result)
      requires service.Wired()
      modifies cache, service.ledger, breaker
      ensures var was := old(service.ledger.Tables());
              var shelf := Shelf(old(cache.store), cache.unavailable, org);
              var t := Attempted(was, service.reconciler.ttl, shelf, provider, request, c);
              && result == t.result
              && service.ledger.Tables() == Run(was, t.ops)
              && breaker.Told((org, NameOf(provider)), t.observed, c.observedAt)
              && cache.store ==
                 if provider.None? then old(cache.store)
                 else Cached(old(cache.store), cache.unavailable, cache.ttl, org,
                             KeyFor(provider.value, request.payload), t.stored, c.response.provider,
                             c.response.content, c.storedAt)
    {
      if provider.None? { return NOT_ROUTED; }
      var key := KeyFor(provider.value, request.payload);
      var found := cache.Get(org, key, c.lookupAt);
      if found.Hit? { return Replayed(found.response); }
      result := ExecuteAndSettle(provider.value, request, key, c);
    }

    method ExecuteAndSettle(provider: Provider, request: Request, key: CacheKey, c: Conditions)
      returns (result: Result)
      requires service.Wired()
      modifies cache, service.ledger, breaker
      ensures var t := Serve(old(service.ledger.Tables()), service.reconciler.ttl, request, c);
              && result == t.result
              && service.ledger.Tables() == Run(old(service.ledger.Tables()), t.ops)
              && breaker.Told((org, provider.name), t.observed, c.observedAt)
              && cache.store == Cached(old(cache.store), cache.unavailable, cache.ttl, org, key,
                                       t.stored, c.response.provider, c.response.content, c.storedAt)
    {
      ghost var was := service.ledger.Tables();
      ghost var ops := GateOps(service.reconciler.ttl, c.gate, request.id, request.payload);
      var gate := service.Reserve(c.gate, request.id, request.payload);
      if !Permitted(gate) { return Refusal(gate); }
      RunJoins(was, ops, Concluded(Run(was, ops), request.id, c).ops);
      breaker.Observe(org, provider.name, CircuitBreaker.CallResult(c.response.ok, c.response.category), c.observedAt);
      result := Conclude(request.id, key, c);
    }

    /** The provider has answered: release on failure, else settle and store. */
    method Conclude(id: Id, key: CacheKey, c: Conditions) returns (result: Result)
      requires service.Wired()
      modifies cache, service.ledger
      ensures var end := Concluded(old(service.ledger.Tables()), id, c);
              && result == end.result
              && service.ledger.Tables() == Run(old(service.ledger.Tables()), end.ops)
              && cache.store == Cached(old(cache.store), cache.unavailable, cache.ttl, org, key,
                                       end.stored, c.response.provider, c.response.content, c.storedAt)
    {
      ghost var was := service.ledger.Tables();
      var response := c.response;
      if !response.ok {
        RunJoins(was, [], With(c.release, Release(id)));
        var answer := service.Release(c.release, id);
        return if answer.Done? then Returned(Executed, response, None) else Raised(answer);
      }
      var s := service.Settle(c.closing, id, response.usage);
      match s {
        case Refused(error) => return Raised(error);
        case Defective(_) =>
          RunJoins(was, SettleOps(c.closing, id, response.usage), With(c.release, Release(id)));
          var answer := service.Release(c.release, id);
          return if answer.Done? then NOT_ACCOUNTABLE else Raised(answer);
        case Charged(cost) =>
          var _ := cache.Put(org, key, CachedResponse(response.provider, key.model, response.content), c.storedAt);
          return Returned(Executed, response, Some(cost));
      }
    }
  }

  // ---------------------------------------------------------------- what a request leaves behind

  /** Nobody else uses this request's id while it runs. */
  predicate Undisturbed(c: Conditions, id: Id) {
    && LeavesAlone(c.gate.reclaim.others, id) && LeavesAlone(c.gate.hold.others, id)
    && LeavesAlone(c.closing.settle.others, id) && LeavesAlone(c.release.others, id)
  }

  /** The call was made: the gate granted it. */
  predicate Called(t: Trace) { t.observed != [] }

  /** The ledger after a request, told from its answer. */
  predicate Settled(was: Db, now: Db, id: Id, t: Trace) {
    && |t.observed| <= 1
    && (t.stored <==> t.result.Returned? && t.result.cost.Some?)
    // Called and answered: nothing is held. Never called: the row is as it was, give or take a sweep.
    && (Called(t) && t.result.Returned? ==> id in now.books.rows && !Live(now.books, id))
    && (!Called(t) ==> AtMostExpired(was, now, id))
    // Settled now exactly if it was before, or a cost was returned.
    && (t.result.Returned? ==> (IsCommitted(now.books, id) <==> IsCommitted(was.books, id) || t.result.cost.Some?))
    // The id is charged the returned cost, unless an earlier request under the same id already paid.
    && (t.result.Returned? && t.result.cost.Some? && !IsCommitted(was.books, id) ==>
          id in now.costs && now.costs[id] == t.result.cost.value.total.units)
    && (t.result.Raised? || t.result.cost.None? || IsCommitted(was.books, id) ==> SameCost(was, now, id))
  }

  /** From a taken row, the closing transaction settles it or gives it back. */
  lemma ConclusionsEndTheHold(was: Db, d: Db, id: Id, c: Conditions)
    requires Taken(was, d, id) && OneRowPerSettlement(d.books, d.costs)
    requires LeavesAlone(c.closing.settle.others, id) && LeavesAlone(c.release.others, id)
    ensures var end := Concluded(d, id, c);
            Settled(was, Run(d, end.ops), id,
                    Trace(end.result, end.ops, [CircuitBreaker.CallResult(c.response.ok, c.response.category)],
                          end.stored))
  {
    var a := Account(c.response.usage, c.closing.price);
    if c.response.ok && a.Accounted? {
      SettleEndsTheHold(d, c.closing.settle, id, a.cost.total);
    } else {
      assert [] + With(c.release, Release(id)) == With(c.release, Release(id));
      ReleaseEndsTheHold(d, c.release, id);
    }
  }

  /** Whatever other transactions run in between, a request that answers has settled or given back its hold, is
      charged exactly the cost it returns, at most once per id, and never calls the provider without a hold. */
  lemma UnaryRequestsEndTheirHold(db: Db, ttl: int, shelf: Shelf, provider: Option<Provider>, request: Request,
                                  c: Conditions)
    requires Consistent(db) && Undisturbed(c, request.id)
    ensures var t := Attempted(db, ttl, shelf, provider, request, c); Settled(db, Run(db, t.ops), request.id, t)
  {
    var id, t := request.id, Attempted(db, ttl, shelf, provider, request, c);
    var ops := GateOps(ttl, c.gate, id, request.payload);
    GateTakesTheRow(db, ttl, c.gate, id, request.payload);
    if Called(t) {
      RunKeepsConsistent(db, ops);
      ConclusionsEndTheHold(db, Run(db, ops), id, c);
      RunJoins(db, ops, Concluded(Run(db, ops), id, c).ops);
    }
  }

  /** The price table's check constraint: no price is below zero. */
  predicate Priced(p: Option<Price>) {
    p.Some? ==> p.value.input >= 0.0 && p.value.output >= 0.0
  }

  /** A raised error is a store outage or a currency mismatch, nothing else. */
  lemma RaisedOnlyInAnOutageOrCurrency(db: Db, ttl: int, request: Request, c: Conditions)
    requires Consistent(db) && Undisturbed(c, request.id) && Priced(c.closing.price)
    ensures var t := Serve(db, ttl, request, c);
            t.result.Raised? ==>
              t.result.error.UnsupportedCurrency? ||
              (t.result.error.Unavailable? && Called(t) && (!c.release.up || !c.closing.settle.up))
  {
    var id, t := request.id, Serve(db, ttl, request, c);
    var ops := GateOps(ttl, c.gate, id, request.payload);
    var d := Run(db, ops);
    GateTakesTheRow(db, ttl, c.gate, id, request.payload);
    RunKeepsConsistent(db, ops);
    if Called(t) {
      var a := Account(c.response.usage, c.closing.price);
      ReleaseFailsOnlyInAnOutage(d, c.release, id);
      if a.Accounted? {
        CostIsNonNegative(a.usage, c.closing.price.value);
        SettleFailsOnlyInAnOutageOrCurrency(d, c.closing.settle, id, a.cost.total);
      }
    }
  }

  /** An answer with a cost is what the next request for the same provider and payload gets, of the same tenant and
      within the lifetime: the very content, from the very provider, for no transaction and no news to the breaker. */
  lemma RepeatsAreServedFromTheCache(db: Db, ttl: int, shelf: Shelf, provider: Provider, first: Request, c: Conditions,
                                     lifetime: int, store: Store, later: Db, second: Request, d: Conditions)
    requires var t := Attempted(db, ttl, shelf, Some(provider), first, c);
             var key := KeyFor(provider, first.payload);
             var after := Cached(shelf.store, false, lifetime, shelf.org, key, t.stored, c.response.provider,
                                 c.response.content, c.storedAt);
             && t.result.Returned? && t.result.cost.Some?
             && (shelf.org, key) in store && store[(shelf.org, key)] == after[(shelf.org, key)]
    requires second.payload == first.payload && d.lookupAt < c.storedAt + lifetime
    ensures var answer := Attempted(db, ttl, shelf, Some(provider), first, c).result.response;
            var t := Attempted(later, ttl, Shelf(store, false, shelf.org), Some(provider), second, d);
            && t.result == Returned(CacheHit, Response(true, answer.provider, answer.content, None, None, None), None)
            && t.ops == [] && t.observed == [] && !t.stored
            && store[(shelf.org, KeyFor(provider, first.payload))].response.model == provider.model
  {
  }

  /** Nobody is served anything else: a hit is what some entry holds that is still fresh under the tenant, the
      provider's name and model, and the very payload. */
  lemma HitsAreForTheSameQuestion(db: Db, ttl: int, shelf: Shelf, provider: Option<Provider>, request: Request,
                                  c: Conditions)
    ensures var result := Attempted(db, ttl, shelf, provider, request, c).result;
            result.Returned? && result.outcome.CacheHit? <==>
              && provider.Some? && !shelf.unavailable
              && var question := (shelf.org, CacheKey(provider.value.name, provider.value.model, request.payload));
                 question in shelf.store && c.lookupAt < shelf.store[question].expiresAt
    ensures var t := Attempted(db, ttl, shelf, provider, request, c);
            t.result.Returned? && t.result.outcome.CacheHit? ==>
              var question := (shelf.org, CacheKey(provider.value.name, provider.value.model, request.payload));
              && t.ops == [] && t.observed == [] && !t.stored && t.result.cost.None? && t.result.response.ok
              && t.result.response.content == shelf.store[question].response.content
              && t.result.response.provider == shelf.store[question].response.provider
  {
  }

  // ---------------------------------------------------------------- spending, with nobody else about

  predicate Alone(c: Conditions) {
    c.gate.reclaim.others == c.gate.hold.others == c.closing.settle.others == c.release.others == []
  }

  lemma LeavesAloneJoins(a: seq<Op>, b: seq<Op>, id: Id)
    requires LeavesAlone(a, id) && LeavesAlone(b, id)
    ensures LeavesAlone(a + b, id)
  {
  }

  lemma LeavesAloneWith(m: Moment, op: Op, id: Id)
    requires LeavesAlone(m.others, id) && !Names(op, id)
    ensures LeavesAlone(With(m, op), id)
  {
  }

  lemma ConclusionNamesOnlyItsOwn(d: Db, id: Id, c: Conditions, other: Id)
    requires Undisturbed(c, other) && other != id
    ensures LeavesAlone(Concluded(d, id, c).ops, other)
  {
    LeavesAloneWith(c.release, Release(id), other);
    var a := Account(c.response.usage, c.closing.price);
    if a.Accounted? {
      LeavesAloneWith(c.closing.settle, Settle(id, a.cost.total), other);
    }
    var settle := SettleOps(c.closing, id, c.response.usage);
    assert LeavesAlone(settle, other);
    LeavesAloneJoins(settle, With(c.release, Release(id)), other);
    LeavesAloneJoins([], With(c.release, Release(id)), other);
  }

  /** Which transactions a request may run: its own sweep, and those under its own id. */
  lemma RunsOnlyItsOwn(db: Db, ttl: int, shelf: Shelf, provider: Option<Provider>, request: Request, c: Conditions,
                       other: Id)
    requires Undisturbed(c, other) && other != request.id
    ensures LeavesAlone(Attempted(db, ttl, shelf, provider, request, c).ops, other)
  {
    var gate := GateOps(ttl, c.gate, request.id, request.payload);
    assert LeavesAlone(gate, other) by {
      LeavesAloneWith(c.gate.reclaim, Reconcile(c.gate.now - ttl, c.gate.locked), other);
      if c.gate.price.Some? {
        var op := Reserve(request.id, EstimatedCost(request.payload, c.gate.price.value), c.gate.now);
        LeavesAloneWith(c.gate.hold, op, other);
        LeavesAloneJoins(Reclaim(ttl, c.gate), With(c.gate.hold, op), other);
      }
    }
    var end := Concluded(Run(db, gate), request.id, c);
    ConclusionNamesOnlyItsOwn(Run(db, gate), request.id, c, other);
    LeavesAloneJoins(gate, end.ops, other);
  }

  lemma OneCostMoves(was: map<Id, int>, now: map<Id, int>, id: Id)
    requires forall k :: k != id ==> (k in now <==> k in was) && (k in was ==> now[k] == was[k])
    requires id in was ==> id in now && now[id] == was[id]
    ensures Sum(now) - Sum(was) == if id in now && id !in was then now[id] else 0
  {
    if id in now && id !in was {
      assert now == was[id := now[id]];
      SumPut(was, id, now[id]);
    } else {
      assert now == was;
    }
  }

  /** Only the request's own id can gain a cost row. */
  lemma OtherCostsStay(db: Db, ttl: int, shelf: Shelf, provider: Option<Provider>, request: Request, c: Conditions,
                       other: Id)
    requires Alone(c) && other != request.id
    ensures SameCost(db, Run(db, Attempted(db, ttl, shelf, provider, request, c).ops), other)
  {
    RunsOnlyItsOwn(db, ttl, shelf, provider, request, c, other);
    OthersLeaveTheRow(db, Attempted(db, ttl, shelf, provider, request, c).ops, other);
  }

  lemma SpendingFollowsOneCost(db: Db, ops: seq<Op>, id: Id)
    requires Consistent(db) && db.books.totals.Some?
    requires forall k :: k != id ==> SameCost(db, Run(db, ops), k)
    ensures var now := Run(db, ops);
            Spent(now.books) - Spent(db.books) == if id in now.costs && id !in db.costs then now.costs[id] else 0
  {
    SpendingIsBookedOnce(db, ops);
    var now := Run(db, ops).costs;
    forall k | k != id ensures (k in now <==> k in db.costs) && (k in db.costs ==> now[k] == db.costs[k]) {
      assert SameCost(db, Run(db, ops), k);
    }
    OneCostMoves(db.costs, Run(db, ops).costs, id);
  }

  /** Run alone, a request that answers spends exactly the cost it returns; under an id that already paid, nothing. */
  lemma AloneARequestSpendsWhatItReturns(db: Db, ttl: int, shelf: Shelf, provider: Option<Provider>, request: Request,
                                         c: Conditions)
    requires Consistent(db) && db.books.totals.Some? && Alone(c)
    requires Attempted(db, ttl, shelf, provider, request, c).result.Returned?
    ensures var t := Attempted(db, ttl, shelf, provider, request, c);
            Spent(Run(db, t.ops).books) - Spent(db.books) ==
            if t.result.cost.Some? && !IsCommitted(db.books, request.id) then t.result.cost.value.total.units else 0
  {
    var id, t := request.id, Attempted(db, ttl, shelf, provider, request, c);
    UnaryRequestsEndTheirHold(db, ttl, shelf, provider, request, c);
    forall k | k != id ensures SameCost(db, Run(db, t.ops), k) {
      OtherCostsStay(db, ttl, shelf, provider, request, c, k);
    }
    SpendingFollowsOneCost(db, t.ops, id);
    SettledCosts(db, Run(db, t.ops), id, t);
  }

  lemma SettledCosts(was: Db, now: Db, id: Id, t: Trace)
    requires Settled(was, now, id, t) && t.result.Returned? && OneRowPerSettlement(was.books, was.costs)
    ensures if t.result.cost.Some? && !IsCommitted(was.books, id)
            then id in now.costs && id !in was.costs && now.costs[id] == t.result.cost.value.total.units
            else id in now.costs ==> id in was.costs
  {
    assert id in was.costs <==> IsCommitted(was.books, id);
  }
}
