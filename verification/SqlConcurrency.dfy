/** The PostgreSQL ledger statement by statement: any number of concurrent transactions over one
    organization's tables, under READ COMMITTED with locks held to commit. A transaction may be
    rolled back, or its process may die, before any statement. */
module SqlConcurrency {
  import opened MapSums
  import opened Ledger
  import opened SqlLedger

  type Tid = nat

  /** The statement a transaction runs next. */
  datatype Pc =
    | RvLock                    // take the advisory lock on the key
    | RvRead                    // read the reservation, without a row lock
    | RvBudget                  // read the budget row, without a lock
    | RvGuard(seen: Totals)     // the guarded UPDATE of the budget
    | RvHold                    // INSERT or UPDATE the reservation
    | StLock                    // SELECT the reservation FOR UPDATE
    | StBudget                  // UPDATE the budget
    | StMark                    // UPDATE the reservation
    | StCost                    // INSERT the cost row ON CONFLICT DO NOTHING
    | RlLock | RlBudget | RlMark
    | RcSweep                   // lock and expire stale rows, skipping locked ones
    | RcBudget
    | Committing(result: Outcome)
    | Closed(result: Outcome)

  /** `row` is what the transaction read; the last three fields are its uncommitted writes. */
  datatype Tx = Tx(op: Op, pc: Pc, row: Option<Row>,
                   totals: Option<Totals>, rows: map<Id, Row>, costs: map<Id, int>)

  /** `db` is the committed state; `log` lists the committed effects, oldest first. */
  datatype System = System(db: Db, budgetLock: Option<Tid>, rowLocks: map<Id, Tid>,
                           keyLocks: map<Id, Tid>, txs: map<Tid, Tx>, log: seq<Effect>)

  function Start(db: Db): System {
    System(db, None, map[], map[], map[], [])
  }

  datatype Action = Begin(op: Op) | Advance | Sweep(id: Id) | Abort

  // ---------------------------------------------------------------- steps

  predicate Free(locks: map<Id, Tid>, id: Id, t: Tid) {
    id in locks ==> locks[id] == t
  }

  predicate BudgetFree(s: System, t: Tid) {
    s.budgetLock.Some? ==> s.budgetLock.value == t
  }

  function Unlock(locks: map<Id, Tid>, t: Tid): map<Id, Tid> {
    map id | id in locks && locks[id] != t :: locks[id]
  }

  /** Discard the transaction's writes and release its locks. */
  function Close(s: System, t: Tid, result: Outcome): System
    requires t in s.txs
  {
    s.(budgetLock := if s.budgetLock == Some(t) then None else s.budgetLock,
       rowLocks := Unlock(s.rowLocks, t),
       keyLocks := Unlock(s.keyLocks, t),
       txs := s.txs[t := Tx(s.txs[t].op, Closed(result), None, None, map[], map[])])
  }

  function FirstPc(op: Op): Pc {
    match op
    case Reserve(_, _, _) => RvLock
    case Settle(_, _) => StLock
    case Release(_) => RlLock
    case Reconcile(_, _) => RcSweep
  }

  /** An UPDATE of the budget row: nothing to do without one, a wait while another transaction holds
      it, an abort when the check constraint on `reserved` refuses. */
  function UpdateBudget(s: System, t: Tid, tx: Tx, reserved: int, spent: int, then_: Pc): Option<System>
    requires t in s.txs
  {
    var totals := s.db.books.totals;
    if totals.None? then Some(s.(txs := s.txs[t := tx.(pc := then_)]))
    else if !BudgetFree(s, t) then None
    else if !ReservedStaysNonNegative(totals, reserved) then Some(Close(s, t, Unavailable))
    else
      Some(s.(budgetLock := Some(t),
              txs := s.txs[t := tx.(pc := then_, totals := Move(totals, reserved, spent))]))
  }

  function ReserveStep(s: System, t: Tid, tx: Tx): Option<System>
    requires t in s.txs && tx == s.txs[t] && tx.op.Reserve?
  {
    var id, cost, rows := tx.op.id, tx.op.cost, s.db.books.rows;
    match tx.pc
    case RvLock =>
      if !Free(s.keyLocks, id, t) then None
      else Some(s.(keyLocks := s.keyLocks[id := t], txs := s.txs[t := tx.(pc := RvRead)]))
    case RvRead =>
      if id in rows && !rows[id].status.Released? && !rows[id].status.Expired? then
        Some(s.(txs := s.txs[t := tx.(pc := Committing(Granted(rows[id].estimate)))]))
      else
        Some(s.(txs := s.txs[t := tx.(pc := RvBudget, row := if id in rows then Some(rows[id]) else None)]))
    case RvBudget =>
      if s.db.books.totals.None? then Some(s.(txs := s.txs[t := tx.(pc := RvHold)]))
      else if cost.currency != s.db.currency then Some(Close(s, t, UnsupportedCurrency))
      else Some(s.(txs := s.txs[t := tx.(pc := RvGuard(s.db.books.totals.value))]))
    case RvGuard(seen) =>
      // A committed row that fails the guard is passed over without waiting for its lock.
      if s.db.books.totals.None? || Remaining(s.db.books.totals.value) < cost.units then
        Some(Close(s, t, Exceeded(Money(Remaining(seen), s.db.currency))))
      else UpdateBudget(s, t, tx, cost.units, 0, RvHold)
    case RvHold =>
      if !Free(s.rowLocks, id, t) then None
      else if cost.units < 0 || (tx.row.None? && id in rows) then Some(Close(s, t, Unavailable))
      else if tx.row.Some? && id !in rows then
        Some(s.(txs := s.txs[t := tx.(pc := Committing(Granted(cost)))]))
      else
        var row := Row(cost, Status.Reserved, StampFor(rows, id, tx.op.now));
        Some(s.(rowLocks := s.rowLocks[id := t],
                txs := s.txs[t := tx.(pc := Committing(Granted(cost)), rows := tx.rows[id := row])]))
    case _ => None
  }

  function SettleStep(s: System, t: Tid, tx: Tx): Option<System>
    requires t in s.txs && tx == s.txs[t] && tx.op.Settle?
  {
    var id, cost, rows := tx.op.id, tx.op.cost, s.db.books.rows;
    match tx.pc
    case StLock =>
      if id !in rows then Some(Close(s, t, UnknownReservation))
      else if !Free(s.rowLocks, id, t) then None
      else if rows[id].status.Released? then Some(Close(s, t, UnknownReservation))
      else
        var locked := s.(rowLocks := s.rowLocks[id := t]);
        if rows[id].status.Committed? then
          Some(locked.(txs := s.txs[t := tx.(pc := Committing(Outcome.Done))]))
        else if cost.currency != rows[id].estimate.currency then Some(Close(s, t, UnsupportedCurrency))
        else Some(locked.(txs := s.txs[t := tx.(pc := StBudget, row := Some(rows[id]))]))
    case StBudget =>
      if tx.row.None? then None
      else if cost.units < 0 then Some(Close(s, t, Unavailable))
      else
        var row := tx.row.value;
        UpdateBudget(s, t, tx, if row.status.Reserved? then -row.estimate.units else 0, cost.units, StMark)
    case StMark =>
      if tx.row.None? then None
      else
        var row := tx.row.value.(status := Committed);
        Some(s.(txs := s.txs[t := tx.(pc := StCost, rows := tx.rows[id := row])]))
    case StCost =>
      var costs := if id in s.db.costs then tx.costs else tx.costs[id := cost.units];
      Some(s.(txs := s.txs[t := tx.(pc := Committing(Outcome.Done), costs := costs)]))
    case _ => None
  }

  function ReleaseStep(s: System, t: Tid, tx: Tx): Option<System>
    requires t in s.txs && tx == s.txs[t] && tx.op.Release?
  {
    var id, rows := tx.op.id, s.db.books.rows;
    match tx.pc
    case RlLock =>
      if id !in rows then Some(Close(s, t, UnknownReservation))
      else if !Free(s.rowLocks, id, t) then None
      else
        var locked := s.(rowLocks := s.rowLocks[id := t]);
        if !rows[id].status.Reserved? then
          Some(locked.(txs := s.txs[t := tx.(pc := Committing(Outcome.Done))]))
        else Some(locked.(txs := s.txs[t := tx.(pc := RlBudget, row := Some(rows[id]))]))
    case RlBudget =>
      if tx.row.None? then None
      else UpdateBudget(s, t, tx, -tx.row.value.estimate.units, 0, RlMark)
    case RlMark =>
      if tx.row.None? then None
      else
        var row := tx.row.value.(status := Released);
        Some(s.(txs := s.txs[t := tx.(pc := Committing(Outcome.Done), rows := tx.rows[id := row])]))
    case _ => None
  }

  ghost function ReconcileStep(s: System, t: Tid, tx: Tx): Option<System>
    requires t in s.txs && tx == s.txs[t] && tx.op.Reconcile?
  {
    match tx.pc
    case RcSweep =>
      var next := if tx.rows == map[] then Committing(Reclaimed(0)) else RcBudget;
      Some(s.(txs := s.txs[t := tx.(pc := next)]))
    case RcBudget =>
      UpdateBudget(s, t, tx, -Sum(Estimates(tx.rows, tx.rows.Keys)), 0,
                   Committing(Reclaimed(|tx.rows.Keys|)))
    case _ => None
  }

  /** The sweep takes one more stale row that no other transaction has locked. */
  function SweepStep(s: System, t: Tid, tx: Tx, id: Id): Option<System>
    requires t in s.txs && tx == s.txs[t]
  {
    if !tx.op.Reconcile? || !tx.pc.RcSweep? then None
    else if id in s.rowLocks || id !in Due(s.db.books.rows, tx.op.olderThan, tx.op.locked) then None
    else
      var row := s.db.books.rows[id].(status := Expired);
      Some(s.(rowLocks := s.rowLocks[id := t], txs := s.txs[t := tx.(rows := tx.rows[id := row])]))
  }

  /** What a transaction's uncommitted writes amount to. */
  function Staged(tx: Tx): Option<Effect> {
    if tx.rows == map[] then None
    else
      match tx.op
      case Reserve(id, cost, _) => if id in tx.rows then Some(Hold(id, cost, tx.rows[id].createdAt)) else None
      case Settle(id, cost) => Some(Book(id, cost.units))
      case Release(id) => Some(Return(id))
      case Reconcile(_, _) => Some(Expire(tx.rows.Keys))
  }

  function Publish(db: Db, tx: Tx): Db {
    Db(Books(if tx.totals.Some? then tx.totals else db.books.totals, db.books.rows + tx.rows),
       db.currency, db.costs + tx.costs)
  }

  /** COMMIT: all writes become visible and all locks are released, at once. */
  function CommitStep(s: System, t: Tid, tx: Tx): System
    requires t in s.txs && tx == s.txs[t] && tx.pc.Committing?
  {
    var e := Staged(tx);
    Close(s, t, tx.pc.result).(db := Publish(s.db, tx),
                               log := if e.Some? then s.log + [e.value] else s.log)
  }

  /** One step of transaction `t`, or nothing when it has to wait. */
  ghost function Next(s: System, t: Tid, a: Action): Option<System> {
    match a
    case Begin(op) =>
      if t in s.txs && !s.txs[t].pc.Closed? then None
      else Some(s.(txs := s.txs[t := Tx(op, FirstPc(op), None, None, map[], map[])]))
    case Abort =>
      if t !in s.txs || s.txs[t].pc.Closed? then None else Some(Close(s, t, Unavailable))
    case Sweep(id) => if t !in s.txs then None else SweepStep(s, t, s.txs[t], id)
    case Advance =>
      if t !in s.txs then None
      else
        var tx := s.txs[t];
        if tx.pc.Committing? then Some(CommitStep(s, t, tx))
        else
          match tx.op
          case Reserve(_, _, _) => ReserveStep(s, t, tx)
          case Settle(_, _) => SettleStep(s, t, tx)
          case Release(_) => ReleaseStep(s, t, tx)
          case Reconcile(_, _) => ReconcileStep(s, t, tx)
  }

  // ---------------------------------------------------------------- what a transaction may rely on

  predicate Unstaged(tx: Tx) {
    tx.totals.None? && tx.rows == map[] && tx.costs == map[]
  }

  predicate Owns(locks: map<Id, Tid>, id: Id, t: Tid) {
    id in locks && locks[id] == t
  }

  /** The transaction's new budget totals differ from the committed ones by exactly this much, and
      nobody else can change those. */
  predicate Charged(s: System, t: Tid, reserved: int, spent: int)
    requires t in s.txs
  {
    && s.txs[t].totals == Move(s.db.books.totals, reserved, spent)
    && (s.db.books.totals.Some? ==> s.budgetLock == Some(t))
  }

  /** What a reserve read still holds: nobody put a live hold on the key behind its back. */
  predicate StillAbsent(s: System, tx: Tx)
    requires tx.op.Reserve?
  {
    !Live(s.db.books, tx.op.id) && (tx.row.Some? <==> tx.op.id in s.db.books.rows)
  }

  predicate ReserveCharged(s: System, t: Tid)
    requires t in s.txs && s.txs[t].op.Reserve?
  {
    var cost := s.txs[t].op.cost;
    && Charged(s, t, cost.units, 0)
    && (s.db.books.totals.Some? ==>
          Remaining(s.db.books.totals.value) >= cost.units && cost.currency == s.db.currency)
  }

  predicate ReserveOk(s: System, t: Tid)
    requires t in s.txs && s.txs[t].op.Reserve?
  {
    var tx := s.txs[t];
    var id := tx.op.id;
    match tx.pc
    case RvLock => Unstaged(tx)
    case RvRead => Unstaged(tx) && Owns(s.keyLocks, id, t)
    case RvBudget => Unstaged(tx) && Owns(s.keyLocks, id, t) && StillAbsent(s, tx)
    case RvGuard(_) =>
      Unstaged(tx) && Owns(s.keyLocks, id, t) && StillAbsent(s, tx) && tx.op.cost.currency == s.db.currency
    case RvHold =>
      && tx.rows == map[] && tx.costs == map[]
      && Owns(s.keyLocks, id, t) && StillAbsent(s, tx) && ReserveCharged(s, t)
    case Committing(_) =>
      Unstaged(tx) ||
      (&& tx.costs == map[] && Owns(s.keyLocks, id, t) && StillAbsent(s, tx) && ReserveCharged(s, t)
       && tx.rows == map[id := Row(tx.op.cost, Status.Reserved, StampFor(s.db.books.rows, id, tx.op.now))]
       && tx.op.cost.units >= 0)
    case Closed(_) => Unstaged(tx)
    case _ => false
  }

  /** The row a settle or release read is locked, so it is still the committed one. */
  predicate HasRow(s: System, t: Tid, id: Id)
    requires t in s.txs
  {
    var tx := s.txs[t];
    && Owns(s.rowLocks, id, t) && id in s.db.books.rows && tx.row == Some(s.db.books.rows[id])
  }

  predicate MaySettle(s: System, t: Tid)
    requires t in s.txs && s.txs[t].op.Settle?
  {
    var id, cost := s.txs[t].op.id, s.txs[t].op.cost;
    && HasRow(s, t, id)
    && (s.db.books.rows[id].status.Reserved? || s.db.books.rows[id].status.Expired?)
    && cost.currency == s.db.books.rows[id].estimate.currency
  }

  predicate SettleCharged(s: System, t: Tid)
    requires t in s.txs && s.txs[t].op.Settle?
  {
    var id, cost := s.txs[t].op.id, s.txs[t].op.cost;
    && MaySettle(s, t) && cost.units >= 0
    && Charged(s, t, -Holding(s.db.books, id), cost.units)
    && ReservedStaysNonNegative(s.db.books.totals, -Holding(s.db.books, id))
  }

  predicate SettleOk(s: System, t: Tid)
    requires t in s.txs && s.txs[t].op.Settle?
  {
    var tx := s.txs[t];
    var id := tx.op.id;
    match tx.pc
    case StLock => Unstaged(tx)
    case StBudget => Unstaged(tx) && MaySettle(s, t)
    case StMark => tx.rows == map[] && tx.costs == map[] && SettleCharged(s, t)
    case StCost =>
      && SettleCharged(s, t) && tx.costs == map[]
      && tx.rows == map[id := s.db.books.rows[id].(status := Committed)]
    case Committing(_) =>
      Unstaged(tx) ||
      (&& SettleCharged(s, t)
       && tx.rows == map[id := s.db.books.rows[id].(status := Committed)]
       && tx.costs == if id in s.db.costs then map[] else map[id := tx.op.cost.units])
    case Closed(_) => Unstaged(tx)
    case _ => false
  }

  predicate ReleaseCharged(s: System, t: Tid)
    requires t in s.txs && s.txs[t].op.Release?
  {
    var id := s.txs[t].op.id;
    && HasRow(s, t, id) && Live(s.db.books, id) && s.txs[t].costs == map[]
    && Charged(s, t, -Holding(s.db.books, id), 0)
    && ReservedStaysNonNegative(s.db.books.totals, -Holding(s.db.books, id))
  }

  predicate ReleaseOk(s: System, t: Tid)
    requires t in s.txs && s.txs[t].op.Release?
  {
    var tx := s.txs[t];
    var id := tx.op.id;
    match tx.pc
    case RlLock => Unstaged(tx)
    case RlBudget => Unstaged(tx) && HasRow(s, t, id) && Live(s.db.books, id)
    case RlMark => ReleaseCharged(s, t) && tx.rows == map[]
    case Committing(_) =>
      Unstaged(tx) ||
      (ReleaseCharged(s, t) && tx.rows == map[id := s.db.books.rows[id].(status := Released)])
    case Closed(_) => Unstaged(tx)
    case _ => false
  }

  /** Every row the sweep took is still live, stale and exactly as it was taken. */
  predicate Swept(s: System, tx: Tx)
    requires tx.op.Reconcile?
  {
    && tx.costs == map[]
    && forall id :: id in tx.rows ==>
         && id in Due(s.db.books.rows, tx.op.olderThan, tx.op.locked)
         && tx.rows[id] == s.db.books.rows[id].(status := Expired)
  }

  ghost predicate ReconcileOk(s: System, t: Tid)
    requires t in s.txs && s.txs[t].op.Reconcile?
  {
    var tx := s.txs[t];
    match tx.pc
    case RcSweep => tx.totals.None? && Swept(s, tx)
    case RcBudget => tx.totals.None? && Swept(s, tx) && tx.rows != map[]
    case Committing(_) =>
      Unstaged(tx) ||
      (&& Swept(s, tx) && tx.rows != map[]
       && Charged(s, t, -Sum(Estimates(tx.rows, tx.rows.Keys)), 0)
       && ReservedStaysNonNegative(s.db.books.totals, -Sum(Estimates(tx.rows, tx.rows.Keys))))
    case Closed(_) => Unstaged(tx)
    case _ => false
  }

  ghost predicate TxOk(s: System, t: Tid)
    requires t in s.txs
  {
    && (forall id :: id in s.txs[t].rows ==> Owns(s.rowLocks, id, t))
    && match s.txs[t].op
       case Reserve(_, _, _) => ReserveOk(s, t)
       case Settle(_, _) => SettleOk(s, t)
       case Release(_) => ReleaseOk(s, t)
       case Reconcile(_, _) => ReconcileOk(s, t)
  }

  ghost predicate Good(s: System) {
    forall t :: t in s.txs ==> TxOk(s, t)
  }
}
