/** The PostgreSQL ledger with each operation as one transaction: what it decides, what it leaves
    in the tables of one organization, and the class whose methods do it in place. */
module SqlLedger {
  import opened MapSums
  import opened Ledger

  /** `currency` is the budget's; it has no meaning without `books.totals`. */
  datatype Db = Db(books: Books, currency: string, costs: map<Id, int>)

  /** A sweep skips the rows that other transactions have `locked` just then. */
  datatype Op =
    | Reserve(id: Id, cost: Money, now: int)
    | Settle(id: Id, cost: Money)
    | Release(id: Id)
    | Reconcile(olderThan: int, locked: set<Id>)

  datatype Outcome =
    | Granted(estimate: Money)
    | Exceeded(remaining: Money)
    | Done
    | Reclaimed(count: nat)
    | UnknownReservation
    | UnsupportedCurrency
    | Unavailable

  function Stale(rows: map<Id, Row>, olderThan: int): set<Id> {
    set id | id in rows && rows[id].status.Reserved? && rows[id].createdAt < olderThan
  }

  /** What a sweep takes: the stale holds nobody has locked. */
  function Due(rows: map<Id, Row>, olderThan: int, locked: set<Id>): set<Id> {
    set id | id in rows && rows[id].status.Reserved? && rows[id].createdAt < olderThan && id !in locked
  }

  function Remaining(t: Totals): int { t.limit - t.spent - t.reserved }

  /** Inserting stamps the row; re-activating keeps its first stamp. */
  function StampFor(rows: map<Id, Row>, id: Id, now: int): int {
    if id in rows then rows[id].createdAt else now
  }

  /** The table's check constraint on `reserved`. */
  predicate ReservedStaysNonNegative(t: Option<Totals>, change: int) {
    t.Some? ==> t.value.reserved + change >= 0
  }

  /** The effect one transaction commits, if any, and what it reports. `Unavailable` stands for a
      check constraint that aborts the transaction. */
  ghost function Decide(db: Db, op: Op): (r: (Option<Effect>, Outcome)) {
    var rows, totals := db.books.rows, db.books.totals;
    match op
    case Reserve(id, cost, now) =>
      if id in rows && !rows[id].status.Released? && !rows[id].status.Expired? then
        (None, Granted(rows[id].estimate))
      else if totals.Some? && cost.currency != db.currency then
        (None, UnsupportedCurrency)
      else if totals.Some? && Remaining(totals.value) < cost.units then
        (None, Exceeded(Money(Remaining(totals.value), db.currency)))
      else if cost.units < 0 then
        (None, Unavailable)
      else
        (Some(Hold(id, cost, StampFor(rows, id, now))), Granted(cost))
    case Settle(id, cost) =>
      if id !in rows then (None, UnknownReservation)
      else if rows[id].status.Committed? then (None, Outcome.Done)
      else if rows[id].status.Released? then (None, UnknownReservation)
      else if cost.currency != rows[id].estimate.currency then (None, UnsupportedCurrency)
      else if cost.units < 0 || !ReservedStaysNonNegative(totals, -Holding(db.books, id)) then
        (None, Unavailable)
      else (Some(Book(id, cost.units)), Outcome.Done)
    case Release(id) =>
      if id !in rows then (None, UnknownReservation)
      else if !rows[id].status.Reserved? then (None, Outcome.Done)
      else if !ReservedStaysNonNegative(totals, -Holding(db.books, id)) then (None, Unavailable)
      else (Some(Return(id)), Outcome.Done)
    case Reconcile(olderThan, locked) =>
      var due := Due(rows, olderThan, locked);
      if due == {} then (None, Reclaimed(0))
      else if !ReservedStaysNonNegative(totals, -Sum(Estimates(rows, due))) then (None, Unavailable)
      else (Some(Expire(due)), Reclaimed(|due|))
  }

  ghost function Commit(db: Db, e: Effect): Db
    requires Legal(db.books, e)
  {
    Db(Apply(db.books, e), db.currency, Record(db.costs, e))
  }

  /** Every decided effect is legal and clean, so all that is proved of clean runs holds here. */
  lemma DecidesCleanly(db: Db, op: Op)
    ensures var e := Decide(db, op).0;
            e.Some? ==> Legal(db.books, e.value) && Clean(db.books, e.value) && NonNegative(e.value)
  {
  }

  ghost function After(db: Db, op: Op): Db {
    DecidesCleanly(db, op);
    var e := Decide(db, op).0;
    if e.Some? then Commit(db, e.value) else db
  }

  // ---------------------------------------------------------------- runs of whole transactions

  ghost function Run(db: Db, ops: seq<Op>): Db {
    if ops == [] then db else After(Run(db, ops[..|ops| - 1]), ops[|ops| - 1])
  }

  /** The effects a run of transactions commits, oldest first. */
  ghost function Effects(db: Db, ops: seq<Op>): seq<Effect> {
    if ops == [] then []
    else
      var e := Decide(Run(db, ops[..|ops| - 1]), ops[|ops| - 1]).0;
      Effects(db, ops[..|ops| - 1]) + (if e.Some? then [e.value] else [])
  }

  /** A run of transactions is a clean run of the abstract ledger. */
  lemma {:induction false} RunsAreLedgerRuns(db: Db, ops: seq<Op>)
    ensures var es := Effects(db, ops);
            && LegalRun(db.books, es) && CleanRun(db.books, es) && AllNonNegative(es)
            && Run(db, ops).books == Final(db.books, es)
            && Run(db, ops).costs == Recorded(db.costs, es)
            && Run(db, ops).currency == db.currency
  {
    if ops != [] {
      var before, op := ops[..|ops| - 1], ops[|ops| - 1];
      RunsAreLedgerRuns(db, before);
      var at := Run(db, before);
      DecidesCleanly(at, op);
      var e := Decide(at, op).0;
      if e.Some? {
        var es := Effects(db, before);
        RunExtends(db.books, es, e.value);
        assert (es + [e.value])[..|es + [e.value]| - 1] == es;
      } else {
        assert Effects(db, ops) == Effects(db, before);
      }
    }
  }

  // ---------------------------------------------------------------- consistent tables

  ghost predicate Consistent(db: Db) {
    Balanced(db.books) && NonNegativeRows(db.books.rows) && OneRowPerSettlement(db.books, db.costs)
  }

  lemma StepKeepsConsistent(db: Db, op: Op)
    requires Consistent(db)
    ensures Consistent(After(db, op))
  {
    DecidesCleanly(db, op);
    var e := Decide(db, op).0;
    if e.Some? {
      EffectKeepsBalance(db.books, e.value);
    }
  }

  lemma {:induction false} RunKeepsConsistent(db: Db, ops: seq<Op>)
    requires Consistent(db)
    ensures Consistent(Run(db, ops))
  {
    if ops != [] {
      RunKeepsConsistent(db, ops[..|ops| - 1]);
      StepKeepsConsistent(Run(db, ops[..|ops| - 1]), ops[|ops| - 1]);
    }
  }

  predicate NonNegativeCost(op: Op) {
    (op.Reserve? || op.Settle?) ==> op.cost.units >= 0
  }

  /** No set of live holds adds up to more than the running total. */
  lemma HoldsFitTheTotal(db: Db, ids: set<Id>)
    requires Consistent(db)
    requires ids <= db.books.rows.Keys && forall id :: id in ids ==> Live(db.books, id)
    ensures ReservedStaysNonNegative(db.books.totals, -Sum(Estimates(db.books.rows, ids)))
  {
    var live := LiveEstimates(db.books.rows);
    SumDrop(live, ids);
    assert (map id | id in ids :: live[id]) == Estimates(db.books.rows, ids);
    SumNonNegative(live - ids);
  }

  lemma ReclaimFitsTheTotal(db: Db, olderThan: int, locked: set<Id>)
    requires Consistent(db)
    ensures !Decide(db, Reconcile(olderThan, locked)).1.Unavailable?
  {
    var due := Due(db.books.rows, olderThan, locked);
    assert due <= db.books.rows.Keys;
    HoldsFitTheTotal(db, due);
  }

  lemma ReturnFitsTheTotal(db: Db, id: Id)
    requires Consistent(db)
    ensures ReservedStaysNonNegative(db.books.totals, -Holding(db.books, id))
  {
    if Live(db.books, id) {
      HoldsFitTheTotal(db, {id});
      var one := Estimates(db.books.rows, {id});
      SumRemove(one, id);
      assert one - {id} == map[];
    } else {
      SumNonNegative(LiveEstimates(db.books.rows));
    }
  }

  /** The floor of zero on `reserved` never aborts a transaction: not even a late settlement. */
  lemma FloorNeverFires(db: Db, ops: seq<Op>, op: Op)
    requires Consistent(db) && NonNegativeCost(op)
    ensures !Decide(Run(db, ops), op).1.Unavailable?
  {
    RunKeepsConsistent(db, ops);
    match op
    case Reserve(id, cost, now) =>
    case Settle(id, cost) => ReturnFitsTheTotal(Run(db, ops), id);
    case Release(id) => ReturnFitsTheTotal(Run(db, ops), id);
    case Reconcile(olderThan, locked) => ReclaimFitsTheTotal(Run(db, ops), olderThan, locked);
  }

  /** Through any replay, expiry, re-hold or late settlement: settled ids stay settled, each has one
      cost row, and spending is its starting value plus the rows added. */
  lemma SpendingIsBookedOnce(db: Db, ops: seq<Op>)
    requires Consistent(db) && db.books.totals.Some?
    ensures Run(db, ops).books.totals.Some?
    ensures Spent(Run(db, ops).books) - Spent(db.books) == Sum(Run(db, ops).costs) - Sum(db.costs)
    ensures forall id :: id in Run(db, ops).costs <==> IsCommitted(Run(db, ops).books, id)
    ensures forall id :: id in db.costs ==>
              id in Run(db, ops).costs && Run(db, ops).costs[id] == db.costs[id]
  {
    RunsAreLedgerRuns(db, ops);
    SpentIsTheCostLedger(db.books, Effects(db, ops), db.costs);
    RecordedKeeps(db.costs, Effects(db, ops));
  }

  lemma {:induction false} RecordedKeeps(costs: map<Id, int>, es: seq<Effect>)
    ensures forall id :: id in costs ==> id in Recorded(costs, es) && Recorded(costs, es)[id] == costs[id]
  {
    if es != [] {
      RecordedKeeps(costs, es[..|es| - 1]);
    }
  }

  /** The limit is passed by no more than late or under-estimated settlements account for. */
  lemma RunStaysWithinLimitPlusOverrun(db: Db, ops: seq<Op>)
    requires Consistent(db) && WithinLimit(db.books, 0)
    ensures LegalRun(db.books, Effects(db, ops))
    ensures WithinLimit(Run(db, ops).books, Overrun(db.books, Effects(db, ops)))
    ensures Covered(db.books, Effects(db, ops)) ==> WithinLimit(Run(db, ops).books, 0)
  {
    RunsAreLedgerRuns(db, ops);
    LimitPlusOverrun(db.books, Effects(db, ops));
    if Covered(db.books, Effects(db, ops)) {
      CoveredHasNoOverrun(db.books, Effects(db, ops));
    }
  }

  /** Reserving the same id again replays the first answer and holds nothing more. */
  lemma ReserveIsIdempotent(db: Db, id: Id, cost: Money, now: int, again: Money, later: int)
    requires Decide(db, Reserve(id, cost, now)).1.Granted?
    ensures var once := After(db, Reserve(id, cost, now));
            && After(once, Reserve(id, again, later)) == once
            && Decide(once, Reserve(id, again, later)).1 == Decide(db, Reserve(id, cost, now)).1
  {
  }

  // ---------------------------------------------------------------- the life of a row

  /** The id's row came to be in this state just now. */
  predicate Became(was: Db, now: Db, id: Id, status: Status) {
    && id in now.books.rows && now.books.rows[id].status == status
    && !(id in was.books.rows && was.books.rows[id].status == status)
  }

  /** What the limit leaves over spending and live holds. */
  ghost function Room(b: Books): int
    requires b.totals.Some?
  {
    b.totals.value.limit - b.totals.value.spent - Sum(LiveEstimates(b.rows))
  }

  /** Nothing but these moves a row: a reserve that fits takes an absent, released or expired one; a settlement in its
      currency closes a live or expired one; a release closes a live one; a sweep expires a live one that is old enough
      and not locked. */
  lemma RowsMoveOnlySo(db: Db, op: Op, id: Id)
    requires Consistent(db) && NonNegativeCost(op)
    ensures var rows, now := db.books.rows, After(db, op);
            && (Became(db, now, id, Reserved) <==>
                && op.Reserve? && op.id == id && (id in rows ==> rows[id].status in {Released, Expired})
                && (db.books.totals.Some? ==> op.cost.currency == db.currency && op.cost.units <= Room(db.books)))
            && (Became(db, now, id, Committed) <==>
                && op.Settle? && op.id == id && id in rows && rows[id].status in {Reserved, Expired}
                && op.cost.currency == rows[id].estimate.currency)
            && (Became(db, now, id, Released) <==> op == Release(id) && Live(db.books, id))
            && (Became(db, now, id, Expired) <==>
                op.Reconcile? && Live(db.books, id) && rows[id].createdAt < op.olderThan && id !in op.locked)
  {
    match op
    case Reserve(_, _, _) =>
    case Settle(other, _) => ReturnFitsTheTotal(db, other);
    case Release(other) => ReturnFitsTheTotal(db, other);
    case Reconcile(olderThan, locked) =>
      ReclaimFitsTheTotal(db, olderThan, locked);
      assert id in Due(db.books.rows, olderThan, locked) ==> Due(db.books.rows, olderThan, locked) != {};
  }

  /** A row keeps its estimate and its stamp through all but a hold, which writes the one and keeps an older stamp. */
  lemma RowsKeepTheirTerms(db: Db, op: Op, id: Id)
    ensures var was, now := db.books.rows, After(db, op).books.rows;
            && (id in was ==> id in now && now[id].createdAt == was[id].createdAt)
            && (Became(db, After(db, op), id, Reserved) ==> op.Reserve? && now[id].estimate == op.cost)
            && (id in now && id !in was ==> op.Reserve? && now[id].createdAt == op.now)
            && (id in was && !Became(db, After(db, op), id, Reserved) ==> now[id].estimate == was[id].estimate)
  {
  }

  /** An answer tells what the tables now say: a grant names the estimate of a row that is live or settled, a settlement
      is done exactly if the id is settled, a release if the id is known and not live, a sweep tells how many it took,
      and a currency is refused exactly where two amounts could not be added. */
  lemma AnswersTellTheTables(db: Db, op: Op)
    requires Consistent(db) && NonNegativeCost(op)
    ensures var rows, now, answer := db.books.rows, After(db, op).books, Decide(db, op).1;
            match op
            case Reserve(id, cost, _) =>
              && (answer.Granted? <==> Live(now, id) || IsCommitted(now, id))
              && (answer.Granted? ==> answer.estimate == now.rows[id].estimate)
              && (answer.UnsupportedCurrency? <==>
                  db.books.totals.Some? && cost.currency != db.currency && !Live(now, id) && !IsCommitted(now, id))
              && (answer.Granted? || answer.UnsupportedCurrency? ||
                  (db.books.totals.Some? && answer == Exceeded(Money(Room(db.books), db.currency))))
            case Settle(id, cost) =>
              && (answer.Done? <==> IsCommitted(now, id))
              && (answer.UnknownReservation? <==> id in rows ==> rows[id].status.Released?)
              && (answer.Done? || answer.UnknownReservation? ||
                  (answer.UnsupportedCurrency? && cost.currency != rows[id].estimate.currency))
            case Release(id) =>
              && (answer == if id in rows then Outcome.Done else UnknownReservation)
              && !Live(now, id)
            case Reconcile(olderThan, locked) =>
              answer == Reclaimed(|set id | id in rows && rows[id] != now.rows[id]|)
  {
    match op
    case Reserve(_, _, _) =>
    case Settle(id, _) => ReturnFitsTheTotal(db, id);
    case Release(id) => ReturnFitsTheTotal(db, id);
    case Reconcile(olderThan, locked) =>
      ReclaimFitsTheTotal(db, olderThan, locked);
      var due := Due(db.books.rows, olderThan, locked);
      var rows, now := db.books.rows, After(db, op).books.rows;
      assert due == set id | id in rows && rows[id] != now[id];
  }

  /** A budgeted organization's rows are all in its budget's currency. */
  predicate InOneCurrency(db: Db) {
    db.books.totals.Some? ==> forall id :: id in db.books.rows ==> db.books.rows[id].estimate.currency == db.currency
  }

  lemma StepKeepsTheCurrency(db: Db, op: Op, id: Id)
    requires InOneCurrency(db) && db.books.totals.Some?
    ensures var now := After(db, op);
            && InOneCurrency(now) && now.books.totals.Some? && now.currency == db.currency
            && (Became(db, now, id, Committed) ==> op.Settle? && op.cost.currency == db.currency)
  {
  }

  /** Sums are of one currency only: after any run the rows are in the budget's, and no transaction then settles
      anything in another. */
  lemma {:induction false} AmountsStayInOneCurrency(db: Db, ops: seq<Op>, next: Op, id: Id)
    requires InOneCurrency(db) && db.books.totals.Some?
    ensures var d := Run(db, ops);
            && InOneCurrency(d) && d.books.totals.Some? && d.currency == db.currency
            && (Became(d, After(d, next), id, Committed) ==> next.Settle? && next.cost.currency == db.currency)
  {
    if ops != [] {
      AmountsStayInOneCurrency(db, ops[..|ops| - 1], ops[|ops| - 1], id);
      StepKeepsTheCurrency(Run(db, ops[..|ops| - 1]), ops[|ops| - 1], id);
    }
    StepKeepsTheCurrency(Run(db, ops), next, id);
  }

  // ---------------------------------------------------------------- the ledger object

  class SqlBudgetLedger {
    var totals: Option<Totals>
    var currency: string
    var rows: map<Id, Row>
    var costs: map<Id, int>

    constructor (db: Db)
      ensures Tables() == db
    {
      totals, currency, rows, costs := db.books.totals, db.currency, db.books.rows, db.costs;
    }

    ghost function Tables(): Db
      reads this
    {
      Db(Books(totals, rows), currency, costs)
    }

    /** Check-and-hold. `up` is false when the store cannot be reached. */
    method Reserve(up: bool, id: Id, cost: Money, now: int) returns (outcome: Outcome)
      modifies this
      ensures !up ==> outcome == Unavailable && Tables() == old(Tables())
      ensures up ==> outcome == Decide(old(Tables()), Op.Reserve(id, cost, now)).1
      ensures up ==> Tables() == After(old(Tables()), Op.Reserve(id, cost, now))
    {
      if !up { return Unavailable; }
      if id in rows && rows[id].status !in {Released, Expired} {
        return Granted(rows[id].estimate);
      }
      if totals.Some? {
        if cost.currency != currency { return UnsupportedCurrency; }
        var t := totals.value;
        if Remaining(t) < cost.units { return Exceeded(Money(Remaining(t), currency)); }
        if cost.units < 0 { return Unavailable; }
        totals := Some(t.(reserved := t.reserved + cost.units));
      }
      if cost.units < 0 { return Unavailable; }
      var stamp := StampFor(rows, id, now);
      rows := rows[id := Row(cost, Status.Reserved, stamp)];
      outcome := Granted(cost);
    }

    /** Turn a hold into spending. */
    method Settle(up: bool, id: Id, cost: Money) returns (outcome: Outcome)
      modifies this
      ensures !up ==> outcome == Unavailable && Tables() == old(Tables())
      ensures up ==> outcome == Decide(old(Tables()), Op.Settle(id, cost)).1
      ensures up ==> Tables() == After(old(Tables()), Op.Settle(id, cost))
    {
      if !up { return Unavailable; }
      if id !in rows { return UnknownReservation; }
      var row := rows[id];
      if row.status == Committed { return Outcome.Done; }
      if row.status == Released { return UnknownReservation; }
      if cost.currency != row.estimate.currency { return UnsupportedCurrency; }
      var back := if row.status == Status.Reserved then row.estimate.units else 0;
      if cost.units < 0 || !ReservedStaysNonNegative(totals, -back) { return Unavailable; }
      totals := Move(totals, -back, cost.units);
      rows := rows[id := row.(status := Committed)];
      if id !in costs {
        costs := costs[id := cost.units];
      }
      outcome := Outcome.Done;
    }

    /** Give a hold back without spending. */
    method Release(up: bool, id: Id) returns (outcome: Outcome)
      modifies this
      ensures !up ==> outcome == Unavailable && Tables() == old(Tables())
      ensures up ==> outcome == Decide(old(Tables()), Op.Release(id)).1
      ensures up ==> Tables() == After(old(Tables()), Op.Release(id))
    {
      if !up { return Unavailable; }
      if id !in rows { return UnknownReservation; }
      var row := rows[id];
      if row.status in {Committed, Released, Expired} { return Outcome.Done; }
      if !ReservedStaysNonNegative(totals, -row.estimate.units) { return Unavailable; }
      totals := Move(totals, -row.estimate.units, 0);
      rows := rows[id := row.(status := Released)];
      outcome := Outcome.Done;
    }

    /** Expire every stale hold nobody has locked, and give their sum back. */
    method ReconcileExpired(up: bool, olderThan: int, locked: set<Id>) returns (outcome: Outcome)
      modifies this
      ensures !up ==> outcome == Unavailable && Tables() == old(Tables())
      ensures up ==> outcome == Decide(old(Tables()), Op.Reconcile(olderThan, locked)).1
      ensures up ==> Tables() == After(old(Tables()), Op.Reconcile(olderThan, locked))
    {
      if !up { return Unavailable; }
      var due := Due(rows, olderThan, locked);
      if due == {} { return Reclaimed(0); }
      var total := TotalEstimate(rows, due);
      if !ReservedStaysNonNegative(totals, -total) { return Unavailable; }
      rows := WithStatus(rows, due, Expired);
      totals := Move(totals, -total, 0);
      outcome := Reclaimed(|due|);
    }
  }

  /** The sum the sweep gives back, whatever order the rows come in. */
  method TotalEstimate(rows: map<Id, Row>, ids: set<Id>) returns (total: int)
    requires ids <= rows.Keys
    ensures total == Sum(Estimates(rows, ids))
  {
    total := 0;
    var rest := ids;
    while rest != {}
      invariant rest <= ids
      invariant total + Sum(Estimates(rows, rest)) == Sum(Estimates(rows, ids))
      decreases |rest|
    {
      var id :| id in rest;
      SumRemove(Estimates(rows, rest), id);
      assert Estimates(rows, rest) - {id} == Estimates(rows, rest - {id});
      total := total + rows[id].estimate.units;
      rest := rest - {id};
    }
  }
}
