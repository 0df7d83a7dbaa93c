/** The abstract budget ledger of one organization: its rows, its running totals, and the four
    effects that every implementation of the ledger port reduces to. */
module Ledger {
  import opened MapSums

  type Org = nat

  type Id = string

  datatype Option<+T> = None | Some(value: T)

  /** An exact amount, counted in units of 10^-8 of the currency. */
  datatype Money = Money(units: int, currency: string)

  datatype Status = Reserved | Committed | Released | Expired

  datatype Row = Row(estimate: Money, status: Status, createdAt: int)

  datatype Totals = Totals(limit: int, reserved: int, spent: int)

  /** `totals` is absent for an organization without a configured budget. */
  datatype Books = Books(totals: Option<Totals>, rows: map<Id, Row>)

  datatype Effect =
    | Hold(id: Id, estimate: Money, at: int)
    | Book(id: Id, cost: int)
    | Return(id: Id)
    | Expire(ids: set<Id>)

  predicate Live(b: Books, id: Id) {
    id in b.rows && b.rows[id].status.Reserved?
  }

  predicate IsCommitted(b: Books, id: Id) {
    id in b.rows && b.rows[id].status.Committed?
  }

  /** When an effect may happen. A hold may land on a committed row (see `Clean`), never on a live one. */
  predicate Legal(b: Books, e: Effect) {
    match e
    case Hold(id, estimate, _) =>
      !Live(b, id) &&
      (b.totals.Some? ==>
        b.totals.value.limit - b.totals.value.spent - b.totals.value.reserved >= estimate.units)
    case Book(id, _) => id in b.rows && !b.rows[id].status.Committed?
    case Return(id) => Live(b, id)
    case Expire(ids) => forall id :: id in ids ==> Live(b, id)
  }

  /** A hold is clean when it does not overwrite an already settled row. */
  predicate Clean(b: Books, e: Effect) {
    e.Hold? ==> !IsCommitted(b, e.id)
  }

  function Move(t: Option<Totals>, reserved: int, spent: int): Option<Totals> {
    match t
    case None => None
    case Some(v) => Some(v.(reserved := v.reserved + reserved, spent := v.spent + spent))
  }

  /** What one hold keeps reserved: its estimate while it is live, nothing afterwards. */
  function Holding(b: Books, id: Id): int {
    if Live(b, id) then b.rows[id].estimate.units else 0
  }

  function Estimates(rows: map<Id, Row>, ids: set<Id>): map<Id, int>
    requires ids <= rows.Keys
  {
    map id | id in ids :: rows[id].estimate.units
  }

  function WithStatus(rows: map<Id, Row>, ids: set<Id>, status: Status): map<Id, Row> {
    map id | id in rows :: if id in ids then rows[id].(status := status) else rows[id]
  }

  ghost function Apply(b: Books, e: Effect): Books
    requires Legal(b, e)
  {
    match e
    case Hold(id, estimate, at) =>
      Books(Move(b.totals, estimate.units, 0), b.rows[id := Row(estimate, Reserved, at)])
    case Book(id, cost) =>
      Books(Move(b.totals, -Holding(b, id), cost), b.rows[id := b.rows[id].(status := Committed)])
    case Return(id) =>
      Books(Move(b.totals, -Holding(b, id), 0), b.rows[id := b.rows[id].(status := Released)])
    case Expire(ids) =>
      Books(Move(b.totals, -Sum(Estimates(b.rows, ids)), 0), WithStatus(b.rows, ids, Expired))
  }

  // ---------------------------------------------------------------- runs

  ghost predicate LegalRun(b: Books, es: seq<Effect>)
    decreases |es|, 0
  {
    es == [] ||
    (LegalRun(b, es[..|es| - 1]) && Legal(Final(b, es[..|es| - 1]), es[|es| - 1]))
  }

  ghost function Final(b: Books, es: seq<Effect>): Books
    requires LegalRun(b, es)
    decreases |es|, 1
  {
    if es == [] then b else Apply(Final(b, es[..|es| - 1]), es[|es| - 1])
  }

  ghost predicate CleanRun(b: Books, es: seq<Effect>)
    requires LegalRun(b, es)
  {
    es == [] ||
    (CleanRun(b, es[..|es| - 1]) && Clean(Final(b, es[..|es| - 1]), es[|es| - 1]))
  }

  lemma RunExtends(b: Books, es: seq<Effect>, e: Effect)
    requires LegalRun(b, es) && Legal(Final(b, es), e)
    ensures LegalRun(b, es + [e])
    ensures Final(b, es + [e]) == Apply(Final(b, es), e)
    ensures CleanRun(b, es + [e]) <==> CleanRun(b, es) && Clean(Final(b, es), e)
  {
    assert (es + [e])[..|es + [e]| - 1] == es;
  }

  // ---------------------------------------------------------------- reserved is the sum of the live holds

  function LiveEstimates(rows: map<Id, Row>): map<Id, int> {
    map id | id in rows && rows[id].status.Reserved? :: rows[id].estimate.units
  }

  /** The money the live holds add up to. */
  ghost function Held(rows: map<Id, Row>): int {
    Sum(LiveEstimates(rows))
  }

  ghost predicate Balanced(b: Books) {
    b.totals.Some? ==> b.totals.value.reserved == Held(b.rows)
  }

  lemma HeldPut(b: Books, id: Id, row: Row)
    ensures Held(b.rows[id := row]) ==
            Held(b.rows) - Holding(b, id) + (if row.status.Reserved? then row.estimate.units else 0)
  {
    var was := LiveEstimates(b.rows);
    var now := LiveEstimates(b.rows[id := row]);
    if row.status.Reserved? {
      assert now == was[id := row.estimate.units];
      SumPut(was, id, row.estimate.units);
    } else if Live(b, id) {
      assert now == was - {id};
      SumRemove(was, id);
    } else {
      assert now == was;
    }
  }

  lemma HeldExpire(rows: map<Id, Row>, ids: set<Id>)
    requires forall id :: id in ids ==> id in rows && rows[id].status.Reserved?
    ensures Held(WithStatus(rows, ids, Expired)) == Held(rows) - Sum(Estimates(rows, ids))
  {
    var live := LiveEstimates(rows);
    SumDrop(live, ids);
    assert (map id | id in ids :: live[id]) == Estimates(rows, ids);
    assert LiveEstimates(WithStatus(rows, ids, Expired)) == live - ids;
  }

  /** Every legal effect keeps the running total equal to the sum of the live holds. */
  lemma EffectKeepsBalance(b: Books, e: Effect)
    requires Balanced(b) && Legal(b, e)
    ensures Balanced(Apply(b, e))
  {
    match e
    case Hold(id, estimate, at) => HeldPut(b, id, Row(estimate, Reserved, at));
    case Book(id, cost) => HeldPut(b, id, b.rows[id].(status := Committed));
    case Return(id) => HeldPut(b, id, b.rows[id].(status := Released));
    case Expire(ids) => HeldExpire(b.rows, ids);
  }

  lemma {:induction false} ReservedIsSumOfLiveHolds(b: Books, es: seq<Effect>)
    requires Balanced(b) && LegalRun(b, es)
    ensures Balanced(Final(b, es))
  {
    if es != [] {
      ReservedIsSumOfLiveHolds(b, es[..|es| - 1]);
      EffectKeepsBalance(Final(b, es[..|es| - 1]), es[|es| - 1]);
    }
  }

  // ---------------------------------------------------------------- a hold is returned once

  function Count(p: bool): int { if p then 1 else 0 }

  /** How often a run puts a hold on `id`. */
  function Holds(es: seq<Effect>, id: Id): int {
    if es == [] then 0
    else Holds(es[..|es| - 1], id) + (var e := es[|es| - 1]; Count(e.Hold? && e.id == id))
  }

  /** Whether an effect hands the hold on `id` back to the budget. */
  predicate Returns(b: Books, e: Effect, id: Id) {
    match e
    case Hold(_, _, _) => false
    case Book(i, _) => i == id && Live(b, id)
    case Return(i) => i == id
    case Expire(ids) => id in ids
  }

  ghost function ReturnCount(b: Books, es: seq<Effect>, id: Id): int
    requires LegalRun(b, es)
  {
    if es == [] then 0
    else
      ReturnCount(b, es[..|es| - 1], id) +
      Count(Returns(Final(b, es[..|es| - 1]), es[|es| - 1], id))
  }

  /** Every hold taken is either still live or was returned exactly once: never zero, never twice. */
  lemma {:induction false} HoldsReturnedOnce(b: Books, es: seq<Effect>, id: Id)
    requires LegalRun(b, es)
    ensures Count(Live(b, id)) + Holds(es, id) ==
            ReturnCount(b, es, id) + Count(Live(Final(b, es), id))
  {
    if es != [] {
      HoldsReturnedOnce(b, es[..|es| - 1], id);
    }
  }

  // ---------------------------------------------------------------- the limit, up to the overrun

  function Max(a: int, b: int): int { if a < b then b else a }

  /** What one effect may push beyond the limit: a live settlement above its estimate by the
      difference, a settlement whose hold was already returned by its whole cost. */
  function Excess(b: Books, e: Effect): int {
    if !e.Book? then 0
    else if Live(b, e.id) then Max(0, e.cost - b.rows[e.id].estimate.units)
    else e.cost
  }

  ghost function Overrun(b: Books, es: seq<Effect>): int
    requires LegalRun(b, es)
  {
    if es == [] then 0
    else Overrun(b, es[..|es| - 1]) + Excess(Final(b, es[..|es| - 1]), es[|es| - 1])
  }

  predicate NonNegativeRows(rows: map<Id, Row>) {
    forall id :: id in rows ==> rows[id].estimate.units >= 0
  }

  predicate NonNegative(e: Effect) {
    match e
    case Hold(_, estimate, _) => estimate.units >= 0
    case Book(_, cost) => cost >= 0
    case _ => true
  }

  predicate AllNonNegative(es: seq<Effect>) {
    forall i :: 0 <= i < |es| ==> NonNegative(es[i])
  }

  predicate WithinLimit(b: Books, overrun: int) {
    b.totals.Some? ==> b.totals.value.spent + b.totals.value.reserved <= b.totals.value.limit + overrun
  }

  lemma EffectWithinLimit(b: Books, e: Effect, overrun: int)
    requires Legal(b, e) && NonNegative(e) && NonNegativeRows(b.rows)
    requires overrun >= 0 && WithinLimit(b, overrun)
    ensures NonNegativeRows(Apply(b, e).rows)
    ensures Excess(b, e) >= 0
    ensures WithinLimit(Apply(b, e), overrun + Excess(b, e))
  {
    if e.Expire? {
      SumNonNegative(Estimates(b.rows, e.ids));
    }
  }

  /** Spending plus holds never pass the limit by more than the recorded overrun. */
  lemma {:induction false} LimitPlusOverrun(b: Books, es: seq<Effect>)
    requires LegalRun(b, es) && AllNonNegative(es) && NonNegativeRows(b.rows) && WithinLimit(b, 0)
    ensures NonNegativeRows(Final(b, es).rows)
    ensures Overrun(b, es) >= 0
    ensures WithinLimit(Final(b, es), Overrun(b, es))
  {
    if es != [] {
      var before := es[..|es| - 1];
      LimitPlusOverrun(b, before);
      assert NonNegative(es[|es| - 1]);
      EffectWithinLimit(Final(b, before), es[|es| - 1], Overrun(b, before));
    }
  }

  /** No settlement comes after its hold was returned, and none costs more than was held. */
  ghost predicate Covered(b: Books, es: seq<Effect>)
    requires LegalRun(b, es)
  {
    es == [] ||
    (Covered(b, es[..|es| - 1]) &&
     var e, now := es[|es| - 1], Final(b, es[..|es| - 1]);
     e.Book? ==> Live(now, e.id) && e.cost <= now.rows[e.id].estimate.units)
  }

  lemma {:induction false} CoveredHasNoOverrun(b: Books, es: seq<Effect>)
    requires LegalRun(b, es) && Covered(b, es)
    ensures Overrun(b, es) == 0
  {
    if es != [] {
      CoveredHasNoOverrun(b, es[..|es| - 1]);
    }
  }

  /** With every settlement covered by its live hold, the hard limit is never passed. */
  lemma CoveredRunsKeepTheLimit(b: Books, es: seq<Effect>)
    requires LegalRun(b, es) && AllNonNegative(es) && NonNegativeRows(b.rows) && WithinLimit(b, 0)
    requires Covered(b, es)
    ensures WithinLimit(Final(b, es), 0)
  {
    LimitPlusOverrun(b, es);
    CoveredHasNoOverrun(b, es);
  }

  // ---------------------------------------------------------------- committed is absorbing

  function Bookings(es: seq<Effect>, id: Id): int {
    if es == [] then 0
    else Bookings(es[..|es| - 1], id) + (var e := es[|es| - 1]; Count(e.Book? && e.id == id))
  }

  /** In a clean run a settled id stays settled, and each id is settled at most once: exactly once
      when it ends settled without having started so. */
  lemma {:induction false} SettledOnce(b: Books, es: seq<Effect>, id: Id)
    requires LegalRun(b, es) && CleanRun(b, es)
    ensures IsCommitted(b, id) ==> IsCommitted(Final(b, es), id)
    ensures Count(IsCommitted(b, id)) + Bookings(es, id) == Count(IsCommitted(Final(b, es), id))
  {
    if es != [] {
      SettledOnce(b, es[..|es| - 1], id);
    }
  }

  // ---------------------------------------------------------------- spending and the cost ledger

  /** The cost ledger takes the first settlement of an id and ignores later ones. */
  function Record(costs: map<Id, int>, e: Effect): map<Id, int> {
    if e.Book? && e.id !in costs then costs[e.id := e.cost] else costs
  }

  function Recorded(costs: map<Id, int>, es: seq<Effect>): map<Id, int> {
    if es == [] then costs else Record(Recorded(costs, es[..|es| - 1]), es[|es| - 1])
  }

  /** Spending booked for an id the cost ledger already held a row for. */
  function Unrecorded(costs: map<Id, int>, es: seq<Effect>): int {
    if es == [] then 0
    else
      var e := es[|es| - 1];
      Unrecorded(costs, es[..|es| - 1]) +
      (if e.Book? && e.id in Recorded(costs, es[..|es| - 1]) then e.cost else 0)
  }

  function Spent(b: Books): int { if b.totals.Some? then b.totals.value.spent else 0 }

  /** Over any run at all, spending is the cost ledger's total plus exactly what it refused to record. */
  lemma {:induction false} SpentIsRecordedPlusUnrecorded(b: Books, es: seq<Effect>, costs: map<Id, int>)
    requires LegalRun(b, es) && b.totals.Some?
    ensures Final(b, es).totals.Some?
    ensures Spent(Final(b, es)) - Spent(b) ==
            Sum(Recorded(costs, es)) - Sum(costs) + Unrecorded(costs, es)
  {
    if es != [] {
      var before, e := es[..|es| - 1], es[|es| - 1];
      SpentIsRecordedPlusUnrecorded(b, before, costs);
      if e.Book? {
        SumPut(Recorded(costs, before), e.id, e.cost);
      }
    }
  }

  /** The cost ledger has exactly one row per settled id. */
  ghost predicate OneRowPerSettlement(b: Books, costs: map<Id, int>) {
    forall id :: id in costs <==> IsCommitted(b, id)
  }

  lemma {:induction false} CleanRunsRecordEverything(b: Books, es: seq<Effect>, costs: map<Id, int>)
    requires LegalRun(b, es) && CleanRun(b, es) && OneRowPerSettlement(b, costs)
    ensures OneRowPerSettlement(Final(b, es), Recorded(costs, es))
    ensures Unrecorded(costs, es) == 0
  {
    if es != [] {
      CleanRunsRecordEverything(b, es[..|es| - 1], costs);
    }
  }

  /** In a clean run, spending is its starting value plus the cost ledger's new rows, one per
      settled id. */
  lemma SpentIsTheCostLedger(b: Books, es: seq<Effect>, costs: map<Id, int>)
    requires LegalRun(b, es) && CleanRun(b, es) && OneRowPerSettlement(b, costs) && b.totals.Some?
    ensures OneRowPerSettlement(Final(b, es), Recorded(costs, es))
    ensures Spent(Final(b, es)) - Spent(b) == Sum(Recorded(costs, es)) - Sum(costs)
  {
    SpentIsRecordedPlusUnrecorded(b, es, costs);
    CleanRunsRecordEverything(b, es, costs);
  }
}
