/** The single-process ledger: one nested record per organization, updated in place. */
module InMemoryLedger {
  import opened MapSums
  import opened Ledger
  import opened SqlLedger

  datatype OrgLedger = OrgLedger(limit: Option<Money>, reserved: int, spent: int, reservations: map<Id, Row>)

  const EMPTY := OrgLedger(None, 0, 0, map[])

  /** The abstract books; the running totals of an organization without a budget mean nothing. */
  function View(l: OrgLedger): Books {
    Books(if l.limit.Some? then Some(Totals(l.limit.value.units, l.reserved, l.spent)) else None,
          l.reservations)
  }

  /** The effect an operation has and what it reports. No currency is looked at, and a released
      reservation may still be settled. */
  function MemDecide(l: OrgLedger, op: Op): (Option<Effect>, Outcome) {
    var rows := l.reservations;
    match op
    case Reserve(id, cost, now) =>
      if id in rows && !rows[id].status.Released? && !rows[id].status.Expired? then
        (None, Granted(rows[id].estimate))
      else if l.limit.Some? && cost.units > l.limit.value.units - l.spent - l.reserved then
        (None, Exceeded(Money(l.limit.value.units - l.spent - l.reserved, l.limit.value.currency)))
      else (Some(Hold(id, cost, now)), Granted(cost))
    case Settle(id, cost) =>
      if id !in rows then (None, UnknownReservation)
      else if rows[id].status.Committed? then (None, Outcome.Done)
      else (Some(Book(id, cost.units)), Outcome.Done)
    case Release(id) =>
      if id !in rows then (None, UnknownReservation)
      else if !rows[id].status.Reserved? then (None, Outcome.Done)
      else (Some(Return(id)), Outcome.Done)
    case Reconcile(olderThan, _) =>
      var stale := Stale(rows, olderThan);
      (if stale == {} then None else Some(Expire(stale)), Reclaimed(|stale|))
  }

  lemma MemDecidesLegally(l: OrgLedger, op: Op)
    ensures var e := MemDecide(l, op).0;
            e.Some? ==> Legal(View(l), e.value) && Clean(View(l), e.value)
  {
  }

  /** How an effect lands. Only holds of a budgeted organization are added to `reserved`, but every
      return is taken from it. */
  ghost function MemCommit(l: OrgLedger, e: Effect): OrgLedger
    requires Legal(View(l), e)
  {
    var rows := Apply(View(l), e).rows;
    match e
    case Hold(_, estimate, _) =>
      l.(reserved := if l.limit.Some? then l.reserved + estimate.units else l.reserved, reservations := rows)
    case Book(id, cost) =>
      l.(reserved := l.reserved - Holding(View(l), id), spent := l.spent + cost, reservations := rows)
    case Return(id) => l.(reserved := l.reserved - Holding(View(l), id), reservations := rows)
    case Expire(ids) => l.(reserved := l.reserved - Sum(Estimates(l.reservations, ids)), reservations := rows)
  }

  ghost function MemAfter(l: OrgLedger, op: Op): OrgLedger {
    MemDecidesLegally(l, op);
    var e := MemDecide(l, op).0;
    if e.Some? then MemCommit(l, e.value) else l
  }

  ghost function MemRun(l: OrgLedger, ops: seq<Op>): OrgLedger {
    if ops == [] then l else MemAfter(MemRun(l, ops[..|ops| - 1]), ops[|ops| - 1])
  }

  ghost function MemEffects(l: OrgLedger, ops: seq<Op>): seq<Effect> {
    if ops == [] then []
    else
      var e := MemDecide(MemRun(l, ops[..|ops| - 1]), ops[|ops| - 1]).0;
      MemEffects(l, ops[..|ops| - 1]) + (if e.Some? then [e.value] else [])
  }

  lemma MemStepIsEffect(l: OrgLedger, op: Op)
    requires l.limit.Some?
    ensures var e, l' := MemDecide(l, op).0, MemAfter(l, op);
            && l'.limit == l.limit
            && (e.None? ==> l' == l)
            && (e.Some? ==> Legal(View(l), e.value) && Clean(View(l), e.value) && View(l') == Apply(View(l), e.value))
  {
    MemDecidesLegally(l, op);
  }

  /** For a budgeted organization every run is a clean run of the abstract ledger. */
  lemma {:induction false} MemRunsAreLedgerRuns(l: OrgLedger, ops: seq<Op>)
    requires l.limit.Some?
    ensures MemRun(l, ops).limit == l.limit
    ensures var es := MemEffects(l, ops);
            LegalRun(View(l), es) && CleanRun(View(l), es) && View(MemRun(l, ops)) == Final(View(l), es)
  {
    if ops != [] {
      var before, op := ops[..|ops| - 1], ops[|ops| - 1];
      MemRunsAreLedgerRuns(l, before);
      var es := MemEffects(l, before);
      var e := MemDecide(MemRun(l, before), op).0;
      MemStepIsEffect(MemRun(l, before), op);
      if e.Some? {
        RunExtends(View(l), es, e.value);
        assert MemEffects(l, ops) == es + [e.value];
      } else {
        assert MemEffects(l, ops) == es;
      }
    }
  }

  lemma {:induction false} MemEffectsNonNegative(l: OrgLedger, ops: seq<Op>)
    requires forall i :: 0 <= i < |ops| ==> NonNegativeCost(ops[i])
    ensures AllNonNegative(MemEffects(l, ops))
  {
    if ops != [] {
      MemEffectsNonNegative(l, ops[..|ops| - 1]);
      assert NonNegativeCost(ops[|ops| - 1]);
    }
  }

  /** Over any run of a budgeted organization: `reserved` is the sum of the live holds, and spending
      plus holds pass the limit by no more than the recorded overrun. */
  lemma MemRunsKeepTheBooks(l: OrgLedger, ops: seq<Op>)
    requires l.limit.Some? && Balanced(View(l)) && NonNegativeRows(l.reservations) && WithinLimit(View(l), 0)
    requires forall i :: 0 <= i < |ops| ==> NonNegativeCost(ops[i])
    ensures var l', es := MemRun(l, ops), MemEffects(l, ops);
            && l'.reserved == Held(l'.reservations)
            && LegalRun(View(l), es)
            && l'.spent + l'.reserved <= l.limit.value.units + Overrun(View(l), es)
            && (Covered(View(l), es) ==> l'.spent + l'.reserved <= l.limit.value.units)
  {
    var es := MemEffects(l, ops);
    MemRunsAreLedgerRuns(l, ops);
    MemEffectsNonNegative(l, ops);
    ReservedIsSumOfLiveHolds(View(l), es);
    LimitPlusOverrun(View(l), es);
    if Covered(View(l), es) {
      CoveredHasNoOverrun(View(l), es);
    }
  }

  /** An organization never seen starts with books that balance, nothing spent and nothing held. */
  lemma FreshLedgersBalance(limit: Option<Money>)
    ensures var l := EMPTY.(limit := limit);
            && l.reservations == map[] && l.spent == 0 && l.reserved == Held(l.reservations)
            && Balanced(View(l)) && NonNegativeRows(l.reservations)
            && (limit.Some? && limit.value.units >= 0 ==> WithinLimit(View(l), 0))
  {
    assert LiveEstimates(EMPTY.reservations) == map[];
  }

  /** The id's reservation came to be in this state just now. */
  predicate TurnedInto(was: OrgLedger, now: OrgLedger, id: Id, status: Status) {
    && id in now.reservations && now.reservations[id].status == status
    && !(id in was.reservations && was.reservations[id].status == status)
  }

  /** The life of a reservation, with or without a budget: what fits is held, anything but a settled id is settled, a
      live hold is released, and a live one that is old enough expires. */
  lemma ReservationsMoveOnlySo(l: OrgLedger, op: Op, id: Id)
    ensures var was, now := l.reservations, MemAfter(l, op);
            && (TurnedInto(l, now, id, Reserved) <==>
                && op.Reserve? && op.id == id && (id in was ==> was[id].status in {Released, Expired})
                && (l.limit.Some? ==> op.cost.units <= l.limit.value.units - l.spent - l.reserved))
            && (TurnedInto(l, now, id, Committed) <==>
                op.Settle? && op.id == id && id in was && !was[id].status.Committed?)
            && (TurnedInto(l, now, id, Released) <==> op == Release(id) && id in was && was[id].status.Reserved?)
            && (TurnedInto(l, now, id, Expired) <==>
                op.Reconcile? && id in was && was[id].status.Reserved? && was[id].createdAt < op.olderThan)
            && (TurnedInto(l, now, id, Reserved) ==> now.reservations[id] == Row(op.cost, Reserved, op.now))
            && now.spent - l.spent ==
               if op.Settle? && TurnedInto(l, now, op.id, Committed) then op.cost.units else 0
  {
    if op.Reconcile? {
      assert id in Stale(l.reservations, op.olderThan) ==> Stale(l.reservations, op.olderThan) != {};
    }
  }

  // ---------------------------------------------------------------- without a budget

  function HeldByRun(es: seq<Effect>): int {
    if es == [] then 0
    else
      var e := es[|es| - 1];
      HeldByRun(es[..|es| - 1]) + (if e.Hold? then e.estimate.units else 0)
  }

  lemma UnbudgetedStep(l: OrgLedger, op: Op)
    requires l.limit.None?
    ensures var l', e := MemAfter(l, op), MemDecide(l, op).0;
            && l'.limit.None?
            && l'.reserved - Held(l'.reservations) ==
               l.reserved - Held(l.reservations) - (if e.Some? && e.value.Hold? then e.value.estimate.units else 0)
  {
    MemDecidesLegally(l, op);
    var e := MemDecide(l, op).0;
    if e.Some? {
      match e.value
      case Hold(id, estimate, at) => HeldPut(View(l), id, Row(estimate, Status.Reserved, at));
      case Book(id, cost) => HeldPut(View(l), id, l.reservations[id].(status := Committed));
      case Return(id) => HeldPut(View(l), id, l.reservations[id].(status := Released));
      case Expire(ids) => HeldExpire(l.reservations, ids);
    }
  }

  /** Without a budget `reserved` falls behind the live holds by everything the run ever held: it equals
      their sum exactly when the run held nothing. */
  lemma {:induction false} UnbudgetedDrift(l: OrgLedger, ops: seq<Op>)
    requires l.limit.None? && l.reserved == Held(l.reservations)
    ensures MemRun(l, ops).limit.None?
    ensures MemRun(l, ops).reserved == Held(MemRun(l, ops).reservations) - HeldByRun(MemEffects(l, ops))
    ensures MemRun(l, ops).reserved == Held(MemRun(l, ops).reservations) <==> HeldByRun(MemEffects(l, ops)) == 0
  {
    if ops != [] {
      var before, op := ops[..|ops| - 1], ops[|ops| - 1];
      UnbudgetedDrift(l, before);
      UnbudgetedStep(MemRun(l, before), op);
      var e := MemDecide(MemRun(l, before), op).0;
      if e.Some? {
        assert (MemEffects(l, before) + [e.value])[..|MemEffects(l, before) + [e.value]| - 1] == MemEffects(l, before);
      } else {
        assert MemEffects(l, ops) == MemEffects(l, before);
      }
    }
  }

  // ---------------------------------------------------------------- the ledger object

  class InMemoryBudgetLedger {
    var orgs: map<Org, OrgLedger>
    const unavailable: bool

    constructor (limits: map<Org, Money>, unavailable: bool)
      ensures this.unavailable == unavailable
      ensures forall org :: Of(org) == EMPTY.(limit := if org in limits then Some(limits[org]) else None)
    {
      orgs := map org | org in limits :: EMPTY.(limit := Some(limits[org]));
      this.unavailable := unavailable;
    }

    /** An organization never seen has an empty, unlimited ledger. */
    function Of(org: Org): OrgLedger
      reads this
    {
      if org in orgs then orgs[org] else EMPTY
    }

    /** One organization moved as `op` says; nobody else's ledger changed. */
    twostate predicate Stepped(org: Org, op: Op, outcome: Outcome)
      reads this
    {
      && outcome == (if unavailable then Unavailable else MemDecide(old(Of(org)), op).1)
      && Of(org) == (if unavailable then old(Of(org)) else MemAfter(old(Of(org)), op))
      && forall other :: other != org ==> Of(other) == old(Of(other))
    }

    method Reserve(org: Org, id: Id, cost: Money, now: int) returns (outcome: Outcome)
      modifies this
      ensures Stepped(org, Op.Reserve(id, cost, now), outcome)
    {
      if unavailable { return Unavailable; }
      var ledger := Of(org);
      if id in ledger.reservations && ledger.reservations[id].status !in {Released, Expired} {
        return Granted(ledger.reservations[id].estimate);
      }
      var held := ledger.reservations[id := Row(cost, Status.Reserved, now)];
      if ledger.limit.None? {
        orgs := orgs[org := ledger.(reservations := held)];
        return Granted(cost);
      }
      var remaining := ledger.limit.value.units - ledger.spent - ledger.reserved;
      if cost.units > remaining {
        return Exceeded(Money(remaining, ledger.limit.value.currency));
      }
      orgs := orgs[org := ledger.(reserved := ledger.reserved + cost.units, reservations := held)];
      outcome := Granted(cost);
    }

    method Settle(org: Org, id: Id, cost: Money) returns (outcome: Outcome)
      modifies this
      ensures Stepped(org, Op.Settle(id, cost), outcome)
    {
      if unavailable { return Unavailable; }
      var ledger := Of(org);
      if id !in ledger.reservations { return UnknownReservation; }
      var row := ledger.reservations[id];
      if row.status == Committed { return Outcome.Done; }
      var back := if row.status == Status.Reserved then row.estimate.units else 0;
      orgs := orgs[org := ledger.(reserved := ledger.reserved - back,
                                  spent := ledger.spent + cost.units,
                                  reservations := ledger.reservations[id := row.(status := Committed)])];
      outcome := Outcome.Done;
    }

    method Release(org: Org, id: Id) returns (outcome: Outcome)
      modifies this
      ensures Stepped(org, Op.Release(id), outcome)
    {
      if unavailable { return Unavailable; }
      var ledger := Of(org);
      if id !in ledger.reservations { return UnknownReservation; }
      var row := ledger.reservations[id];
      if row.status in {Committed, Released, Expired} { return Outcome.Done; }
      orgs := orgs[org := ledger.(reserved := ledger.reserved - row.estimate.units,
                                  reservations := ledger.reservations[id := row.(status := Released)])];
      outcome := Outcome.Done;
    }

    method ReconcileExpired(org: Org, olderThan: int) returns (outcome: Outcome)
      modifies this
      ensures forall locked :: Stepped(org, Op.Reconcile(olderThan, locked), outcome)
    {
      if unavailable { return Unavailable; }
      var ledger := Of(org);
      var stale := Stale(ledger.reservations, olderThan);
      MemSweeps(ledger, olderThan);
      ledger := ExpireAll(ledger, stale);
      orgs := orgs[org := ledger];
      outcome := Reclaimed(|stale|);
    }
  }

  /** The ledger with so many of its holds expired and given back. */
  ghost function Swept(was: OrgLedger, done: set<Id>): OrgLedger
    requires done <= was.reservations.Keys
  {
    was.(reserved := was.reserved - Sum(Estimates(was.reservations, done)),
         reservations := WithStatus(was.reservations, done, Expired))
  }

  lemma NothingSwept(was: OrgLedger)
    ensures Swept(was, {}) == was
  {
    assert WithStatus(was.reservations, {}, Expired) == was.reservations;
    assert Estimates(was.reservations, {}) == map[];
  }

  lemma MemSweeps(l: OrgLedger, olderThan: int)
    ensures forall locked :: var stale := Stale(l.reservations, olderThan);
              && MemDecide(l, Reconcile(olderThan, locked)).1 == Reclaimed(|stale|)
              && MemAfter(l, Reconcile(olderThan, locked)) == Swept(l, stale)
  {
    NothingSwept(l);
  }

  lemma OneMoreSwept(was: OrgLedger, done: set<Id>, id: Id)
    requires done <= was.reservations.Keys && id in was.reservations && id !in done
    ensures var row := was.reservations[id];
            var now := Swept(was, done);
            && id in now.reservations && now.reservations[id] == row
            && Swept(was, done + {id}) ==
               now.(reserved := now.reserved - row.estimate.units,
                    reservations := now.reservations[id := row.(status := Expired)])
  {
    var row := was.reservations[id];
    SumPut(Estimates(was.reservations, done), id, row.estimate.units);
    assert Estimates(was.reservations, done + {id}) == Estimates(was.reservations, done)[id := row.estimate.units];
    assert WithStatus(was.reservations, done + {id}, Expired) ==
           WithStatus(was.reservations, done, Expired)[id := row.(status := Expired)];
  }

  /** Give the stale holds back one by one, in any order. */
  method ExpireAll(was: OrgLedger, stale: set<Id>) returns (ledger: OrgLedger)
    requires stale <= was.reservations.Keys
    ensures ledger == Swept(was, stale)
  {
    ledger := was;
    var todo := stale;
    ghost var done := {};
    NothingSwept(was);
    while todo != {}
      invariant todo <= stale && done == stale - todo
      invariant ledger == Swept(was, done)
      decreases |todo|
    {
      var id :| id in todo;
      var row := ledger.reservations[id];
      OneMoreSwept(was, done, id);
      ledger := ledger.(reserved := ledger.reserved - row.estimate.units,
                        reservations := ledger.reservations[id := row.(status := Expired)]);
      todo, done := todo - {id}, done + {id};
    }
    assert done == stale;
  }
}
