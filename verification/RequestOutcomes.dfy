/** What the gate and a whole request answer, told from the tables, the price and the provider's response. */
module RequestOutcomes {
  import opened MapSums
  import opened Ledger
  import opened SqlLedger
  import opened SharedLedger
  import opened Accounting
  import opened ReservationService
  import opened OwnTransactions
  import opened ResponseCache
  import opened InferenceCoordinator
  import opened LedgerParity
  import CircuitBreaker
  import Streaming

  // ---------------------------------------------------------------- the gate

  /** Nobody else gets in, and the store answers. */
  predicate Quiet(m: Moment) { m.others == [] && m.up }

  lemma QuietAnswer(db: Db, m: Moment, op: Op)
    requires Quiet(m)
    ensures Answer(db, m, op) == Decide(db, op).1
  {
  }

  /** A row after the gate's sweep: expired if it was live, older than one lifetime and not locked, else as it was. */
  predicate SweptByTheGate(was: Db, now: Db, b: Before, ttl: int, id: Id) {
    && (id in now.books.rows <==> id in was.books.rows)
    && (id in was.books.rows ==>
          now.books.rows[id] ==
          if id in b.locked then was.books.rows[id] else SweptRow(was.books.rows[id], b.now, ttl))
  }

  /** The tables after the gate's sweep. */
  ghost predicate Swept(was: Db, now: Db, b: Before, ttl: int) {
    && Consistent(now) && now.currency == was.currency
    && (forall id :: SweptByTheGate(was, now, b, ttl, id))
    && Spent(now.books) == Spent(was.books) && (now.books.totals.Some? <==> was.books.totals.Some?)
    && (was.books.totals.Some? ==> now.books.totals.value.limit == was.books.totals.value.limit)
  }

  lemma SweptIs(was: Db, now: Db, b: Before, ttl: int)
    requires now.books.rows == (map id | id in was.books.rows ::
               if id in b.locked then was.books.rows[id] else SweptRow(was.books.rows[id], b.now, ttl))
    requires Consistent(now) && now.currency == was.currency && Spent(now.books) == Spent(was.books)
    requires now.books.totals.Some? <==> was.books.totals.Some?
    requires was.books.totals.Some? ==> now.books.totals.value.limit == was.books.totals.value.limit
    ensures Swept(was, now, b, ttl)
  {
  }

  lemma SweepTakesTheDue(db: Db, ttl: int, b: Before, after: Db)
    requires Consistent(db) && ttl > 0 && after == After(db, Reconcile(b.now - ttl, b.locked))
    ensures Swept(db, after, b, ttl)
  {
    SqlReclaimIsExact(db, b.now, ttl, b.locked);
    SweepKeepsTheLimit(db, b.now - ttl, b.locked);
    SweptIs(db, after, b, ttl);
  }

  lemma QuietRun(db: Db, m: Moment, op: Op)
    requires Quiet(m)
    ensures Run(db, With(m, op)) == After(db, op)
  {
    RunWith(db, m, op);
    assert Run(db, m.others) == db;
  }

  lemma GateSweeps(db: Db, ttl: int, b: Before)
    requires Consistent(db) && ttl > 0 && Quiet(b.reclaim)
    ensures Swept(db, Run(db, Reclaim(ttl, b)), b, ttl)
  {
    QuietRun(db, b.reclaim, Reconcile(b.now - ttl, b.locked));
    SweepTakesTheDue(db, ttl, b, Run(db, Reclaim(ttl, b)));
  }

  predicate SameRow(was: Db, now: Db, id: Id) {
    (id in now.books.rows <==> id in was.books.rows) &&
    (id in was.books.rows ==> now.books.rows[id] == was.books.rows[id])
  }

  lemma HoldTouchesOneRow(db: Db, hold: Op, other: Id)
    requires hold.Reserve? && hold.id != other
    ensures SameRow(db, After(db, hold), other)
  {
  }

  lemma HoldLeavesOthers(swept: Db, m: Moment, hold: Op, other: Id)
    requires hold.Reserve? && hold.id != other && m.others == []
    ensures SameRow(swept, Run(swept, With(m, hold)), other)
  {
    RunWith(swept, m, hold);
    HoldTouchesOneRow(swept, hold, other);
  }

  /** The gate's sweep takes exactly the live, unlocked holds older than one lifetime: after the gate every other row is
      expired if it was one of them, and else as it was. */
  lemma GateSweepsByTheLifetime(db: Db, ttl: int, b: Before, id: Id, payload: string, other: Id)
    requires Consistent(db) && ttl > 0 && Quiet(b.reclaim) && b.hold.others == [] && other != id
    ensures SweptByTheGate(db, Run(db, GateOps(ttl, b, id, payload)), b, ttl, other)
  {
    GateSweeps(db, ttl, b);
    var sweep := Reclaim(ttl, b);
    assert SweptByTheGate(db, Run(db, sweep), b, ttl, other);
    if b.price.None? {
      assert GateOps(ttl, b, id, payload) == sweep;
    } else {
      var hold := Reserve(id, EstimatedCost(payload, b.price.value), b.now);
      RunJoins(db, sweep, With(b.hold, hold));
      HoldLeavesOthers(Run(db, sweep), b.hold, hold, other);
    }
  }

  /** A gate that is cancelled once its sweep is through has swept the same; one cancelled in its sweep has swept if
      that landed, and else left every row as it was. */
  lemma CancelledGatesHaveSwept(db: Db, ttl: int, o: Streaming.Opening, id: Id, payload: string, other: Id)
    requires Consistent(db) && ttl > 0 && Quiet(o.gate.reclaim) && o.gate.hold.others == [] && other != id
    requires Streaming.CutInGate(o)
    ensures var now := Run(db, Streaming.CutGateOps(ttl, o, id, payload));
            if o.cut.AtSweep? && !o.cut.landed then SameRow(db, now, other)
            else SweptByTheGate(db, now, o.gate, ttl, other)
  {
    if o.cut.AtHold? {
      GateSweepsByTheLifetime(db, ttl, Streaming.GateMet(o), id, payload, other);
    } else if o.cut.AtPrice? || o.cut.landed {
      GateSweeps(db, ttl, o.gate);
      assert Streaming.CutGateOps(ttl, o, id, payload) == Reclaim(ttl, o.gate);
    } else {
      assert Streaming.CutGateOps(ttl, o, id, payload) == [];
    }
  }

  /** What the limit leaves over spending and the holds the gate's sweep leaves. */
  ghost function LeftOver(db: Db, ttl: int, b: Before): int
    requires db.books.totals.Some?
  {
    db.books.totals.value.limit - Spent(db.books) - Sum(HoldsLeft(db, b.now, ttl, b.locked))
  }

  predicate Replayed(db: Db, ttl: int, b: Before, id: Id) {
    IsCommitted(db.books, id) || id in HoldsLeft(db, b.now, ttl, b.locked)
  }

  /** A reservation is answered as before, granted, or told what the limit leaves over spending and live holds. */
  lemma ReserveAnswersExactly(db: Db, id: Id, cost: Money, now: int)
    requires Consistent(db) && db.books.totals.Some? && cost.currency == db.currency && cost.units >= 0
    ensures var left := db.books.totals.value.limit - Spent(db.books) - Sum(LiveEstimates(db.books.rows));
            Decide(db, Reserve(id, cost, now)).1 ==
            if IsCommitted(db.books, id) || Live(db.books, id) then Granted(db.books.rows[id].estimate)
            else if cost.units <= left then Granted(cost)
            else Exceeded(Money(left, db.currency))
  {
  }

  lemma AfterTheSweep(db: Db, swept: Db, ttl: int, b: Before, id: Id, cost: Money)
    requires Swept(db, swept, b, ttl) && db.books.totals.Some? && cost.currency == db.currency && cost.units >= 0
    ensures Decide(swept, Reserve(id, cost, b.now)).1 ==
            if Replayed(db, ttl, b, id) then Granted(db.books.rows[id].estimate)
            else if cost.units <= LeftOver(db, ttl, b) then Granted(cost)
            else Exceeded(Money(LeftOver(db, ttl, b), db.currency))
  {
    forall i ensures i in LiveEstimates(swept.books.rows) <==> i in HoldsLeft(db, b.now, ttl, b.locked) {
      assert SweptByTheGate(db, swept, b, ttl, i);
    }
    forall i | i in HoldsLeft(db, b.now, ttl, b.locked)
      ensures LiveEstimates(swept.books.rows)[i] == HoldsLeft(db, b.now, ttl, b.locked)[i]
    {
      assert SweptByTheGate(db, swept, b, ttl, i);
    }
    assert LiveEstimates(swept.books.rows) == HoldsLeft(db, b.now, ttl, b.locked);
    assert SweptByTheGate(db, swept, b, ttl, id);
    ReserveAnswersExactly(swept, id, cost, b.now);
  }

  /** A gate nobody gets in the way of answers as before under an id that is settled or whose hold the sweep leaves;
      under any other it grants the estimate exactly if that fits the limit less spending and the holds left, and
      else tells how much is left. */
  lemma GateGrantsExactly(db: Db, ttl: int, b: Before, id: Id, payload: string)
    requires Consistent(db) && ttl > 0 && Quiet(b.reclaim) && Quiet(b.hold) && db.books.totals.Some?
    requires b.price.Some? && b.price.value.currency == db.currency && Priced(b.price)
    ensures var estimate := EstimatedCost(payload, b.price.value);
            GateAnswer(db, ttl, b, id, payload) ==
            Answered(if Replayed(db, ttl, b, id) then Granted(db.books.rows[id].estimate)
                     else if estimate.units <= LeftOver(db, ttl, b) then Granted(estimate)
                     else Exceeded(Money(LeftOver(db, ttl, b), db.currency)))
  {
    var estimate := EstimatedCost(payload, b.price.value);
    GateSweeps(db, ttl, b);
    var swept := Run(db, Reclaim(ttl, b));
    QuietAnswer(swept, b.hold, Reserve(id, estimate, b.now));
    CostIsNonNegative(EstimateUsage(|payload|), b.price.value);
    AfterTheSweep(db, swept, ttl, b, id, estimate);
  }

  // ---------------------------------------------------------------- the whole request

  function Failed(error: string): Response {
    Response(false, "", None, None, Some(error), None)
  }

  const NOT_SERVABLE := Returned(NotAccountable, Failed("not_accountable"), None)

  /** Usage that can be turned into money. */
  predicate Costable(usage: Option<Usage>, price: Option<Price>) {
    usage.Some? && usage.value.prompt >= 0 && usage.value.completion >= 0 && price.Some?
  }

  predicate AllQuiet(c: Conditions) {
    Quiet(c.gate.reclaim) && Quiet(c.gate.hold) && Quiet(c.closing.settle) && Quiet(c.release)
  }

  /** Everything is priced and held in the budget's currency. */
  predicate OneCurrency(db: Db, c: Conditions, id: Id) {
    && Priced(c.gate.price) && Priced(c.closing.price)
    && (c.gate.price.Some? ==> c.gate.price.value.currency == db.currency)
    && (c.closing.price.Some? ==> c.closing.price.value.currency == db.currency)
    && (id in db.books.rows ==> db.books.rows[id].estimate.currency == db.currency)
  }

  /** Whether a request gets past the gate. */
  ghost predicate GetsIn(db: Db, ttl: int, request: Request, b: Before)
    requires db.books.totals.Some?
  {
    && b.price.Some?
    && (Replayed(db, ttl, b, request.id) ||
        EstimatedCost(request.payload, b.price.value).units <= LeftOver(db, ttl, b))
  }

  /** What a request that misses the cache is answered, told from the tables, the prices and the response. */
  ghost function Expected(db: Db, ttl: int, request: Request, c: Conditions): Result
    requires db.books.totals.Some?
  {
    if c.gate.price.None? then NOT_SERVABLE
    else if !GetsIn(db, ttl, request, c.gate) then Returned(BudgetDenied, Failed("budget_exceeded"), None)
    else if !c.response.ok then Returned(Executed, c.response, None)
    else if !Costable(c.response.usage, c.closing.price) then NOT_SERVABLE
    else Returned(Executed, c.response, Some(ComputeCost(c.response.usage.value, c.closing.price.value)))
  }

  lemma PastTheGate(db: Db, d: Db, request: Request, c: Conditions, estimate: Money)
    requires Consistent(d) && Taken(db, d, request.id) && AllQuiet(c) && OneCurrency(db, c, request.id)
    requires HoldsFor(db, d, request.id, estimate) && estimate.currency == db.currency
    ensures Concluded(d, request.id, c).result ==
            if !c.response.ok then Returned(Executed, c.response, None)
            else if !Costable(c.response.usage, c.closing.price) then NOT_SERVABLE
            else Returned(Executed, c.response, Some(ComputeCost(c.response.usage.value, c.closing.price.value)))
  {
    var id, settle := request.id, c.closing.settle;
    if c.response.ok && Costable(c.response.usage, c.closing.price) {
      var cost := ComputeCost(c.response.usage.value, c.closing.price.value);
      CostIsNonNegative(c.response.usage.value, c.closing.price.value);
      SettleFailsOnlyInAnOutageOrCurrency(d, settle, id, cost.total);
    } else if c.response.ok {
      var ops := SettleOps(c.closing, id, c.response.usage);
      assert ops == [] && Run(d, ops) == d;
      ReleaseFailsOnlyInAnOutage(d, c.release, id);
    } else {
      assert Run(d, []) == d;
      ReleaseFailsOnlyInAnOutage(d, c.release, id);
    }
  }

  /** With nobody else about, what a request is answered and what the breaker hears is told by the tables, the prices
      and the provider's response alone. */
  lemma RequestsAreAnsweredExactly(db: Db, ttl: int, request: Request, c: Conditions)
    requires Consistent(db) && ttl > 0 && db.books.totals.Some? && AllQuiet(c) && OneCurrency(db, c, request.id)
    ensures var t := Serve(db, ttl, request, c);
            && t.result == Expected(db, ttl, request, c)
            && t.observed == if GetsIn(db, ttl, request, c.gate)
                             then [CircuitBreaker.CallResult(c.response.ok, c.response.category)]
                             else []
  {
    var id := request.id;
    if c.gate.price.Some? {
      GateGrantsExactly(db, ttl, c.gate, id, request.payload);
      if GetsIn(db, ttl, request, c.gate) {
        var d := Run(db, GateOps(ttl, c.gate, id, request.payload));
        RunKeepsConsistent(db, GateOps(ttl, c.gate, id, request.payload));
        GateTakesTheRow(db, ttl, c.gate, id, request.payload);
        GateHoldsTheEstimate(db, ttl, c.gate, id, request.payload);
        PastTheGate(db, d, request, c, EstimatedCost(request.payload, c.gate.price.value));
      }
    }
  }

  /** An outage of the store at the hold is told as such, and nothing is called. */
  lemma OutagesAreToldApart(db: Db, ttl: int, request: Request, c: Conditions)
    requires c.gate.price.Some? && !c.gate.hold.up
    ensures var t := Serve(db, ttl, request, c);
            t.result == Returned(BudgetUnavailable, Failed("budget_unavailable"), None) && t.observed == []
  {
  }

  // ---------------------------------------------------------------- the opening of a stream

  /** What an opening nobody cancels is answered, told from the cache, the tables, the price and the provider's first
      event. */
  ghost function ExpectedOpening(db: Db, ttl: int, shelf: Shelf, provider: Option<Provider>, request: Request,
                                 o: Streaming.Opening): Streaming.Session
    requires db.books.totals.Some?
  {
    if provider.None? then Streaming.Session.Refused(NotRouted, "not_routed", None)
    else
      var question := (shelf.org, CacheKey(provider.value.name, provider.value.model, request.payload));
      if !shelf.unavailable && question in shelf.store && o.lookupAt < shelf.store[question].expiresAt &&
         shelf.store[question].response.content.Some? && shelf.store[question].response.content.value.Text?
      then Streaming.Replay(shelf.store[question].response.content.value.text)
      else if o.gate.price.None? then Streaming.Session.Refused(NotAccountable, "not_accountable", None)
      else if !GetsIn(db, ttl, request, o.gate) then Streaming.Session.Refused(BudgetDenied, "budget_exceeded", None)
      else if o.events == [] then
        Streaming.Session.Refused(Executed, "provider ended the stream without a terminal event", None)
      else if o.events[0].Failed? then
        Streaming.Session.Refused(Executed, o.events[0].error, o.events[0].category)
      else Streaming.Opened(o.events[0], o.events[1..])
  }

  /** With nobody else about and nobody cancelling, what opening a stream answers and what the breaker hears is told by
      the cache, the tables, the price and the provider's first event alone. */
  lemma OpeningsAreAnsweredExactly(db: Db, ttl: int, shelf: Shelf, provider: Option<Provider>, request: Request,
                                   o: Streaming.Opening)
    requires Consistent(db) && ttl > 0 && db.books.totals.Some? && o.cut.Uncut?
    requires Quiet(o.gate.reclaim) && Quiet(o.gate.hold) && Priced(o.gate.price)
    requires o.gate.price.Some? ==> o.gate.price.value.currency == db.currency
    ensures var t := Streaming.Opens(db, ttl, shelf, provider, request, o);
            var told := ExpectedOpening(db, ttl, shelf, provider, request, o);
            && t.session == told
            && t.observed == if told.Refused? && told.outcome.Executed?
                             then [CircuitBreaker.CallResult(false, told.category)]
                             else []
  {
    if o.gate.price.Some? {
      GateGrantsExactly(db, ttl, o.gate, request.id, request.payload);
    }
  }
}
