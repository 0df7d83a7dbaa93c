/** When the ledger's transactions can wait for each other for ever. */
module SqlDeadlock {
  import opened MapSums
  import opened Ledger
  import opened SqlLedger
  import opened SqlConcurrency
  import opened SqlInterleavings
  import opened SqlSerial
  import opened SqlLateSettlement

  // ---------------------------------------------------------------- who may hold what

  predicate IsOpen(s: System, t: Tid) {
    t in s.txs && !s.txs[t].pc.Closed?
  }

  predicate HoldsBudget(tx: Tx) {
    tx.pc in {RvHold, StMark, StCost, RlMark} || tx.pc.Committing?
  }

  predicate HoldsRow(tx: Tx, id: Id) {
    match tx.op
    case Reserve(i, _, _) => i == id && tx.pc.Committing?
    case Settle(i, _) => i == id && (tx.pc in {StBudget, StMark, StCost} || tx.pc.Committing?)
    case Release(i) => i == id && (tx.pc in {RlBudget, RlMark} || tx.pc.Committing?)
    case Reconcile(_, _) => id in tx.rows && (tx.pc in {RcSweep, RcBudget} || tx.pc.Committing?)
  }

  predicate HoldsKey(tx: Tx, id: Id) {
    tx.op.Reserve? && tx.op.id == id && !tx.pc.RvLock? && !tx.pc.Closed?
  }

  /** Every lock is held by a transaction that has come far enough to have taken it, and no further. */
  predicate LocksAccountedFor(s: System) {
    && (s.budgetLock.Some? ==> s.budgetLock.value in s.txs && HoldsBudget(s.txs[s.budgetLock.value]))
    && (forall id :: id in s.rowLocks ==> s.rowLocks[id] in s.txs && HoldsRow(s.txs[s.rowLocks[id]], id))
    && (forall id :: id in s.keyLocks ==> s.keyLocks[id] in s.txs && HoldsKey(s.txs[s.keyLocks[id]], id))
  }

  /** A statement that keeps the transaction open: where it now is, and the locks it took. */
  function Moved(s: System, t: Tid, tx: Tx, budget: bool, row: Option<Id>, key: Option<Id>): System {
    s.(budgetLock := if budget then Some(t) else s.budgetLock,
       rowLocks := if row.Some? then s.rowLocks[row.value := t] else s.rowLocks,
       keyLocks := if key.Some? then s.keyLocks[key.value := t] else s.keyLocks,
       txs := s.txs[t := tx])
  }

  /** It still holds what it held, and may hold what it took. */
  ghost predicate GoesOn(was: Tx, tx: Tx, budget: bool, row: Option<Id>, key: Option<Id>) {
    && (HoldsBudget(was) || budget ==> HoldsBudget(tx))
    && (forall id :: HoldsRow(was, id) || row == Some(id) ==> HoldsRow(tx, id))
    && (forall id :: HoldsKey(was, id) || key == Some(id) ==> HoldsKey(tx, id))
  }

  lemma MovedLocks(s: System, t: Tid, tx: Tx, budget: bool, row: Option<Id>, key: Option<Id>)
    requires LocksAccountedFor(s) && t in s.txs && GoesOn(s.txs[t], tx, budget, row, key)
    ensures LocksAccountedFor(Moved(s, t, tx, budget, row, key))
  {
  }

  lemma CloseLocks(s: System, t: Tid, result: Outcome)
    requires t in s.txs && LocksAccountedFor(s)
    ensures LocksAccountedFor(Close(s, t, result))
  {
  }

  lemma UpdateBudgetLocks(s: System, t: Tid, tx: Tx, reserved: int, spent: int, then_: Pc)
    requires t in s.txs && tx == s.txs[t] && LocksAccountedFor(s)
    requires UpdateBudget(s, t, tx, reserved, spent, then_).Some?
    requires forall totals :: GoesOn(tx, tx.(pc := then_, totals := totals), true, None, None)
    ensures LocksAccountedFor(UpdateBudget(s, t, tx, reserved, spent, then_).value)
  {
    var totals := s.db.books.totals;
    if totals.None? {
      assert tx.(pc := then_) == tx.(pc := then_, totals := tx.totals);
      MovedLocks(s, t, tx.(pc := then_), false, None, None);
    } else if !ReservedStaysNonNegative(totals, reserved) {
      CloseLocks(s, t, Unavailable);
    } else {
      MovedLocks(s, t, tx.(pc := then_, totals := Move(totals, reserved, spent)), true, None, None);
    }
  }

  lemma ReserveHoldLocks(s: System, t: Tid)
    requires t in s.txs && s.txs[t].op.Reserve? && ReserveStep(s, t, s.txs[t]).Some? && LocksAccountedFor(s)
    requires s.txs[t].pc.RvHold?
    ensures LocksAccountedFor(ReserveStep(s, t, s.txs[t]).value)
  {
    var next := ReserveStep(s, t, s.txs[t]).value;
    if next.txs[t].pc.Closed? {
      CloseLocks(s, t, Unavailable);
    } else {
      MovedLocks(s, t, next.txs[t], false, if next.rowLocks == s.rowLocks then None else Some(s.txs[t].op.id), None);
    }
  }

  lemma ReserveLocks(s: System, t: Tid)
    requires t in s.txs && s.txs[t].op.Reserve? && ReserveStep(s, t, s.txs[t]).Some? && LocksAccountedFor(s)
    ensures LocksAccountedFor(ReserveStep(s, t, s.txs[t]).value)
  {
    var tx := s.txs[t];
    var id, cost, rows, next := tx.op.id, tx.op.cost, s.db.books.rows, ReserveStep(s, t, tx).value;
    match tx.pc
    case RvLock => MovedLocks(s, t, tx.(pc := RvRead), false, None, Some(id));
    case RvRead => MovedLocks(s, t, next.txs[t], false, None, None);
    case RvBudget =>
      if next.txs[t].pc.Closed? {
        CloseLocks(s, t, UnsupportedCurrency);
      } else {
        MovedLocks(s, t, next.txs[t], false, None, None);
      }
    case RvGuard(seen) =>
      if s.db.books.totals.None? || Remaining(s.db.books.totals.value) < cost.units {
        CloseLocks(s, t, Exceeded(Money(Remaining(seen), s.db.currency)));
      } else {
        UpdateBudgetLocks(s, t, tx, cost.units, 0, RvHold);
      }
    case RvHold => ReserveHoldLocks(s, t);
    case _ =>
  }

  lemma SettleStartLocks(s: System, t: Tid)
    requires t in s.txs && s.txs[t].op.Settle? && SettleStep(s, t, s.txs[t]).Some? && LocksAccountedFor(s)
    requires s.txs[t].pc.StLock?
    ensures LocksAccountedFor(SettleStep(s, t, s.txs[t]).value)
  {
    var tx, rows := s.txs[t], s.db.books.rows;
    var id := tx.op.id;
    if id !in rows || rows[id].status.Released? {
      CloseLocks(s, t, UnknownReservation);
    } else if rows[id].status.Committed? {
      MovedLocks(s, t, tx.(pc := Committing(Outcome.Done)), false, Some(id), None);
    } else if tx.op.cost.currency != rows[id].estimate.currency {
      CloseLocks(s, t, UnsupportedCurrency);
    } else {
      MovedLocks(s, t, tx.(pc := StBudget, row := Some(rows[id])), false, Some(id), None);
    }
  }

  lemma SettleLocks(s: System, t: Tid)
    requires t in s.txs && s.txs[t].op.Settle? && SettleStep(s, t, s.txs[t]).Some? && LocksAccountedFor(s)
    ensures LocksAccountedFor(SettleStep(s, t, s.txs[t]).value)
  {
    var tx := s.txs[t];
    match tx.pc
    case StLock => SettleStartLocks(s, t);
    case StBudget =>
      var row, cost := tx.row.value, tx.op.cost;
      if cost.units < 0 {
        CloseLocks(s, t, Unavailable);
      } else {
        UpdateBudgetLocks(s, t, tx, if row.status.Reserved? then -row.estimate.units else 0, cost.units, StMark);
      }
    case StMark => MovedLocks(s, t, SettleStep(s, t, tx).value.txs[t], false, None, None);
    case StCost => MovedLocks(s, t, SettleStep(s, t, tx).value.txs[t], false, None, None);
    case _ =>
  }

  lemma ReleaseLocks(s: System, t: Tid)
    requires t in s.txs && s.txs[t].op.Release? && ReleaseStep(s, t, s.txs[t]).Some? && LocksAccountedFor(s)
    ensures LocksAccountedFor(ReleaseStep(s, t, s.txs[t]).value)
  {
    var tx := s.txs[t];
    var next := ReleaseStep(s, t, tx).value;
    match tx.pc
    case RlLock =>
      if next.txs[t].pc.Closed? {
        CloseLocks(s, t, UnknownReservation);
      } else {
        MovedLocks(s, t, next.txs[t], false, Some(tx.op.id), None);
      }
    case RlBudget => UpdateBudgetLocks(s, t, tx, -tx.row.value.estimate.units, 0, RlMark);
    case RlMark => MovedLocks(s, t, next.txs[t], false, None, None);
    case _ =>
  }

  lemma ReconcileLocks(s: System, t: Tid)
    requires t in s.txs && s.txs[t].op.Reconcile? && ReconcileStep(s, t, s.txs[t]).Some? && LocksAccountedFor(s)
    ensures LocksAccountedFor(ReconcileStep(s, t, s.txs[t]).value)
  {
    var tx := s.txs[t];
    match tx.pc
    case RcSweep => MovedLocks(s, t, ReconcileStep(s, t, tx).value.txs[t], false, None, None);
    case RcBudget =>
      UpdateBudgetLocks(s, t, tx, -Sum(Estimates(tx.rows, tx.rows.Keys)), 0, Committing(Reclaimed(|tx.rows.Keys|)));
    case _ =>
  }

  lemma StepKeepsLocksAccountedFor(s: System, t: Tid, a: Action)
    requires LocksAccountedFor(s) && Next(s, t, a).Some?
    ensures LocksAccountedFor(Next(s, t, a).value)
  {
    match a
    case Begin(op) =>
    case Abort => CloseLocks(s, t, Unavailable);
    case Sweep(id) =>
      var tx := s.txs[t];
      MovedLocks(s, t, Next(s, t, a).value.txs[t], false, Some(id), None);
    case Advance =>
      if s.txs[t].pc.Committing? {
        CloseLocks(s, t, s.txs[t].pc.result);
      } else {
        match s.txs[t].op
        case Reserve(_, _, _) => ReserveLocks(s, t);
        case Settle(_, _) => SettleLocks(s, t);
        case Release(_) => ReleaseLocks(s, t);
        case Reconcile(_, _) => ReconcileLocks(s, t);
      }
  }

  lemma {:induction false} EveryScheduleAccountsForItsLocks(s: System, run: Schedule)
    requires LocksAccountedFor(s) && Play(s, run).Some?
    ensures LocksAccountedFor(Play(s, run).value)
    decreases |run|
  {
    if run != [] {
      StepKeepsLocksAccountedFor(s, run[0].0, run[0].1);
      EveryScheduleAccountsForItsLocks(Next(s, run[0].0, run[0].1).value, run[1..]);
    }
  }

  // ---------------------------------------------------------------- who waits for whom

  /** An open transaction whose next statement cannot run. */
  ghost predicate Blocked(s: System, t: Tid) {
    IsOpen(s, t) && Next(s, t, Advance).None?
  }

  /** The holder of the lock a transaction needs next, if another has it. */
  function Holder(lock: Option<Tid>, t: Tid): Option<Tid> {
    if lock == Some(t) then None else lock
  }

  function LockOf(locks: map<Id, Tid>, id: Id): Option<Tid> {
    if id in locks then Some(locks[id]) else None
  }

  function WaitsFor(s: System, t: Tid): Option<Tid>
    requires t in s.txs
  {
    var tx := s.txs[t];
    var budget := if s.db.books.totals.Some? then Holder(s.budgetLock, t) else None;
    match tx.op
    case Reserve(id, cost, _) =>
      (match tx.pc
       case RvLock => Holder(LockOf(s.keyLocks, id), t)
       case RvGuard(_) =>
         if budget.Some? && Remaining(s.db.books.totals.value) < cost.units then None else budget
       case RvHold => Holder(LockOf(s.rowLocks, id), t)
       case _ => None)
    case Settle(id, cost) =>
      (match tx.pc
       case StLock => if id in s.db.books.rows then Holder(LockOf(s.rowLocks, id), t) else None
       case StBudget => if cost.units < 0 then None else budget
       case _ => None)
    case Release(id) =>
      (match tx.pc
       case RlLock => if id in s.db.books.rows then Holder(LockOf(s.rowLocks, id), t) else None
       case RlBudget => budget
       case _ => None)
    case Reconcile(_, _) => if tx.pc.RcBudget? then budget else None
  }

  lemma BlockedMeansWaiting(s: System, t: Tid)
    requires TxOk0(s, t) && IsOpen(s, t)
    ensures Blocked(s, t) <==> WaitsFor(s, t).Some?
  {
    match s.txs[t].op
    case Reserve(_, _, _) => ReserveBlocked(s, t);
    case Settle(_, _) => SettleBlocked(s, t);
    case Release(_) => ReleaseBlocked(s, t);
    case Reconcile(_, _) =>
  }

  ghost predicate TxOk0(s: System, t: Tid) { t in s.txs && TxOk(s, t) }

  lemma ReserveBlocked(s: System, t: Tid)
    requires TxOk0(s, t) && IsOpen(s, t) && s.txs[t].op.Reserve?
    ensures Next(s, t, Advance).None? <==> WaitsFor(s, t).Some?
  {
  }

  lemma SettleBlocked(s: System, t: Tid)
    requires TxOk0(s, t) && IsOpen(s, t) && s.txs[t].op.Settle?
    ensures Next(s, t, Advance).None? <==> WaitsFor(s, t).Some?
  {
  }

  lemma ReleaseBlocked(s: System, t: Tid)
    requires TxOk0(s, t) && IsOpen(s, t) && s.txs[t].op.Release?
    ensures Next(s, t, Advance).None? <==> WaitsFor(s, t).Some?
  {
  }

  // ---------------------------------------------------------------- the one pair that deadlocks

  /** A re-hold that has charged the budget and needs its row, and a late settlement that has the row and needs the
      budget. */
  ghost predicate Clash(s: System, hold: Tid, settle: Tid) {
    && hold in s.txs && settle in s.txs
    && s.txs[hold].op.Reserve? && s.txs[hold].pc.RvHold?
    && s.txs[settle].op.Settle? && s.txs[settle].pc.StBudget?
    && s.txs[hold].op.id == s.txs[settle].op.id
    && s.db.books.totals.Some? && s.budgetLock == Some(hold) && Owns(s.rowLocks, s.txs[hold].op.id, settle)
    && s.txs[settle].op.cost.units >= 0 && s.txs[settle].row.Some?
  }

  /** Some transactions, all of them waiting, each for another of them. */
  ghost predicate Deadlock(s: System, ts: set<Tid>) {
    ts != {} && forall t :: t in ts ==> Blocked(s, t) && WaitsFor(s, t).Some? && WaitsFor(s, t).value in ts
  }

  /** The holder of a row another transaction is waiting to re-hold can itself be held up only in a clash, over an
      expired row. */
  lemma RowHolderIsBlockedOnlyInAClash(s: System, hold: Tid)
    requires Good(s) && LocksAccountedFor(s) && hold in s.txs && s.txs[hold].op.Reserve? && s.txs[hold].pc.RvHold?
    requires WaitsFor(s, hold).Some? && Blocked(s, WaitsFor(s, hold).value)
    ensures Clash(s, hold, WaitsFor(s, hold).value)
    ensures s.txs[hold].op.id in s.db.books.rows && s.db.books.rows[s.txs[hold].op.id].status.Expired?
  {
    var settle := WaitsFor(s, hold).value;
    assert TxOk(s, hold) && TxOk(s, settle);
    BlockedMeansWaiting(s, settle);
  }

  /** Whoever holds the budget is held up only in a clash. */
  lemma BudgetHolderIsBlockedOnlyInAClash(s: System, t: Tid)
    requires Good(s) && LocksAccountedFor(s) && s.budgetLock == Some(t) && Blocked(s, t)
    ensures s.txs[t].op.Reserve? && s.txs[t].pc.RvHold? && WaitsFor(s, t).Some?
  {
    assert TxOk(s, t);
    BlockedMeansWaiting(s, t);
  }

  predicate WaitsStayIn(s: System, ts: set<Tid>) {
    forall t :: t in ts && t in s.txs && WaitsFor(s, t).Some? ==> WaitsFor(s, t).value in ts
  }

  /** From any open transaction, following whom each waits for leads in at most three steps to one that can go on, or to
      a clash. */
  lemma BudgetWaitEnds(s: System, ts: set<Tid>) returns (mover: Tid)
    requires Good(s) && LocksAccountedFor(s) && s.budgetLock.Some?
    requires forall h, u :: !Clash(s, h, u)
    ensures IsOpen(s, mover) && !Blocked(s, mover)
    ensures WaitsStayIn(s, ts) && s.budgetLock.value in ts ==> mover in ts
  {
    mover := s.budgetLock.value;
    if Blocked(s, mover) {
      BudgetHolderIsBlockedOnlyInAClash(s, mover);
      var settle := WaitsFor(s, mover).value;
      if Blocked(s, settle) {
        RowHolderIsBlockedOnlyInAClash(s, mover);
      }
      mover := settle;
    }
  }

  predicate NeedsTheBudget(tx: Tx) {
    tx.pc.RvGuard? || tx.pc in {StBudget, RlBudget, RcBudget}
  }

  /** Waiting for anything but a row or a key is waiting for the budget. */
  lemma BudgetIsTaken(s: System, t: Tid)
    requires t in s.txs && NeedsTheBudget(s.txs[t]) && WaitsFor(s, t).Some?
    ensures s.budgetLock == WaitsFor(s, t)
  {
  }

  lemma RowWaitEnds(s: System, t: Tid, ts: set<Tid>) returns (mover: Tid)
    requires Good(s) && LocksAccountedFor(s) && t in s.txs && WaitsFor(s, t).Some?
    requires s.txs[t].pc in {RvHold, StLock, RlLock}
    requires forall h, u :: !Clash(s, h, u)
    ensures IsOpen(s, mover) && !Blocked(s, mover)
    ensures WaitsStayIn(s, ts) && t in ts ==> mover in ts
  {
    mover := WaitsFor(s, t).value;
    if Blocked(s, mover) {
      assert TxOk(s, mover);
      BlockedMeansWaiting(s, mover);
      BudgetIsTaken(s, mover);
      mover := BudgetWaitEnds(s, ts);
    }
  }

  /** Without a clash some transaction can always go on: the ledger has no other deadlock. */
  lemma SomeoneCanGoOn(s: System, t: Tid, ts: set<Tid>) returns (mover: Tid)
    requires Good(s) && LocksAccountedFor(s) && IsOpen(s, t)
    requires forall h, u :: !Clash(s, h, u)
    ensures IsOpen(s, mover) && !Blocked(s, mover)
    ensures WaitsStayIn(s, ts) && t in ts ==> mover in ts
  {
    mover := t;
    if Blocked(s, t) {
      assert TxOk(s, t);
      BlockedMeansWaiting(s, t);
      if NeedsTheBudget(s.txs[t]) {
        BudgetIsTaken(s, t);
        mover := BudgetWaitEnds(s, ts);
      } else if s.txs[t].pc.RvLock? {
        mover := WaitsFor(s, t).value;
        if Blocked(s, mover) {
          assert TxOk(s, mover);
          BlockedMeansWaiting(s, mover);
          if NeedsTheBudget(s.txs[mover]) {
            BudgetIsTaken(s, mover);
            mover := BudgetWaitEnds(s, ts);
          } else {
            mover := RowWaitEnds(s, mover, ts);
          }
        }
      } else {
        mover := RowWaitEnds(s, t, ts);
      }
    }
  }

  lemma ClashersWaitForEachOther(s: System, hold: Tid, settle: Tid)
    requires Clash(s, hold, settle)
    ensures Blocked(s, hold) && WaitsFor(s, hold) == Some(settle)
    ensures Blocked(s, settle) && WaitsFor(s, settle) == Some(hold)
  {
  }

  lemma CircleNeedsAClash(s: System, ts: set<Tid>)
    requires Good(s) && LocksAccountedFor(s) && Deadlock(s, ts)
    ensures exists hold, settle :: Clash(s, hold, settle)
  {
    var t :| t in ts;
    if forall hold, settle :: !Clash(s, hold, settle) {
      var mover := SomeoneCanGoOn(s, t, ts);
      assert false;
    }
  }

  predicate OverAnExpiredRow(s: System, t: Tid) {
    t in s.txs && !s.txs[t].op.Reconcile? &&
    var id := s.txs[t].op.id; id in s.db.books.rows && s.db.books.rows[id].status.Expired?
  }

  lemma ClashIsADeadlock(s: System, hold: Tid, settle: Tid)
    requires Good(s) && LocksAccountedFor(s) && Clash(s, hold, settle)
    ensures Deadlock(s, {hold, settle}) && OverAnExpiredRow(s, hold)
  {
    ClashersWaitForEachOther(s, hold, settle);
    RowHolderIsBlockedOnlyInAClash(s, hold);
  }

  lemma CirclesAreClashes(s: System)
    requires Good(s) && LocksAccountedFor(s)
    ensures (exists ts :: Deadlock(s, ts)) <==> (exists hold, settle :: Clash(s, hold, settle))
    ensures forall hold, settle :: Clash(s, hold, settle) ==> OverAnExpiredRow(s, hold)
  {
    forall hold, settle | Clash(s, hold, settle)
      ensures Deadlock(s, {hold, settle}) && OverAnExpiredRow(s, hold)
    {
      ClashIsADeadlock(s, hold, settle);
    }
    forall ts | Deadlock(s, ts) ensures exists hold, settle :: Clash(s, hold, settle) {
      CircleNeedsAClash(s, ts);
    }
  }

  /** In every reachable state, transactions wait for each other in a circle exactly when a re-hold of an expired id has
      charged the budget while a late settlement of that id holds its row. */
  lemma DeadlockIsExactlyAClash(db: Db, run: Schedule)
    requires Play(Start(db), run).Some?
    ensures var s := Play(Start(db), run).value;
            && ((exists ts :: Deadlock(s, ts)) <==> (exists hold, settle :: Clash(s, hold, settle)))
            && forall hold, settle :: Clash(s, hold, settle) ==> OverAnExpiredRow(s, hold)
  {
    EveryScheduleIsExplained(Start(db), run, db);
    EveryScheduleAccountsForItsLocks(Start(db), run);
    CirclesAreClashes(Play(Start(db), run).value);
  }

  /** A clash does not pass: whatever the others do, neither transaction moves until one of the two is aborted. */
  lemma ClashLasts(s: System, hold: Tid, settle: Tid, t: Tid, a: Action)
    requires Good(s) && Clash(s, hold, settle) && Next(s, t, a).Some?
    requires a.Abort? ==> t != hold && t != settle
    ensures t != hold && t != settle
    ensures Clash(Next(s, t, a).value, hold, settle)
  {
    ClashersWaitForEachOther(s, hold, settle);
    if !(a.Advance? && s.txs[t].pc.Committing?) {
      UncommittedStepOk(s, t, a);
    }
  }

  predicate NeitherAborts(run: Schedule, hold: Tid, settle: Tid) {
    forall i :: 0 <= i < |run| && run[i].1.Abort? ==> run[i].0 != hold && run[i].0 != settle
  }

  lemma {:induction false} ClashLastsForEver(s: System, run: Schedule, db0: Db, hold: Tid, settle: Tid)
    requires Explained(s, db0) && Clash(s, hold, settle) && Play(s, run).Some? && NeitherAborts(run, hold, settle)
    ensures Clash(Play(s, run).value, hold, settle)
    ensures Blocked(Play(s, run).value, hold) && Blocked(Play(s, run).value, settle)
    decreases |run|
  {
    if run == [] {
      ClashersWaitForEachOther(s, hold, settle);
    } else {
      StepExplained(s, run[0].0, run[0].1, db0);
      ClashLasts(s, hold, settle, run[0].0, run[0].1);
      ClashLastsForEver(Next(s, run[0].0, run[0].1).value, run[1..], db0, hold, settle);
    }
  }

  /** The settlement begins after the re-hold has charged, and takes the row. */
  lemma SettlementTakesTheRow(s: System) returns (run: Schedule)
    requires s.db == OneExpiredHold() && s.txs.Keys == {1} && s.txs[1].op == Reserve("a", Money(10, USD), 5)
    requires s.txs[1].pc == RvHold && s.budgetLock == Some(1) && s.rowLocks == map[]
    ensures Play(s, run).Some? && Clash(Play(s, run).value, 1, 2)
  {
    var op := Settle("a", Money(7, USD));
    var s1 := Next(s, 2, Begin(op)).value;
    var s2 := Next(s1, 2, Advance).value;
    PlayStep(s1, [], 2, Advance);
    PlayStep(s, [(2, Advance)] + [], 2, Begin(op));
    run := [(2, Begin(op))] + ([(2, Advance)] + []);
  }

  /** It can happen: a re-hold reads and charges, then a late settlement of the same id locks its row. */
  lemma ClashCanHappen() returns (run: Schedule)
    ensures Play(Start(OneExpiredHold()), run).Some?
    ensures Clash(Play(Start(OneExpiredHold()), run).value, 1, 2)
  {
    var first := ReholdReads();
    var s1 := Play(Start(OneExpiredHold()), first).value;
    var s2 := Next(s1, 1, Advance).value;
    var s3 := Next(s2, 1, Advance).value;
    var rest := SettlementTakesTheRow(s3);
    PlayStep(s2, rest, 1, Advance);
    PlayStep(s1, [(1, Advance)] + rest, 1, Advance);
    PlayAppend(Start(OneExpiredHold()), first, [(1, Advance)] + ([(1, Advance)] + rest));
    run := first + ([(1, Advance)] + ([(1, Advance)] + rest));
  }
}
