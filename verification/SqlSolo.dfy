/** One transaction alone, statement by statement, ends as the whole operation decides. */
module SqlSolo {
  import opened MapSums
  import opened Ledger
  import opened SqlLedger
  import opened SqlConcurrency
  import opened SqlInterleavings
  import opened SqlSerial

  /** No transaction of its own yet, nothing the operation needs is locked, and the table's floor on `reserved`
      holds. */
  ghost predicate Undisputed(s: System, t: Tid, op: Op) {
    && t !in s.txs && s.budgetLock.None?
    && (forall id :: !Owns(s.rowLocks, id, t) && !Owns(s.keyLocks, id, t))
    && (s.db.books.totals.Some? ==> s.db.books.totals.value.reserved >= 0)
    && (if op.Reconcile? then forall id :: id in Due(s.db.books.rows, op.olderThan, op.locked) ==> id !in s.rowLocks
        else op.id !in s.rowLocks && (op.Reserve? ==> op.id !in s.keyLocks))
  }

  function Taken(locks: map<Id, Tid>, ids: set<Id>, t: Tid): map<Id, Tid> {
    locks + (map id | id in ids :: t)
  }

  lemma TakingMore(locks: map<Id, Tid>, ids: set<Id>, id: Id, t: Tid)
    ensures Taken(locks, {}, t) == locks
    ensures Taken(locks, ids, t)[id := t] == Taken(locks, ids + {id}, t)
  {
  }

  /** The state while `t` runs: its own record, and the locks it has taken. */
  function While(s: System, t: Tid, tx: Tx, budget: bool, rows: set<Id>, keys: set<Id>): System {
    s.(budgetLock := if budget then Some(t) else s.budgetLock,
       rowLocks := Taken(s.rowLocks, rows, t),
       keyLocks := Taken(s.keyLocks, keys, t),
       txs := s.txs[t := tx])
  }

  function ClosedTx(op: Op, result: Outcome): Tx {
    Tx(op, Closed(result), None, None, map[], map[])
  }

  /** The operation done, its answer given, every lock as it was found. */
  ghost function Ended(s: System, t: Tid, op: Op): System {
    var (e, outcome) := Decide(s.db, op);
    s.(db := After(s.db, op), log := s.log + (if e.Some? then [e.value] else []),
       txs := s.txs[t := ClosedTx(op, outcome)])
  }

  lemma LocksGivenBack(locks: map<Id, Tid>, ids: set<Id>, t: Tid)
    requires forall id :: !Owns(locks, id, t)
    requires ids !! locks.Keys
    ensures Unlock(Taken(locks, ids, t), t) == locks
  {
    assert forall id :: id in locks ==> Owns(locks, id, locks[id]);
  }

  /** Whatever it had taken, closing leaves only the answer. */
  lemma ClosingLeavesNothing(s: System, t: Tid, tx: Tx, budget: bool, rows: set<Id>, keys: set<Id>, result: Outcome)
    requires s.budgetLock.None? && (forall id :: !Owns(s.rowLocks, id, t) && !Owns(s.keyLocks, id, t))
    requires rows !! s.rowLocks.Keys && keys !! s.keyLocks.Keys
    ensures Close(While(s, t, tx, budget, rows, keys), t, result) == s.(txs := s.txs[t := ClosedTx(tx.op, result)])
  {
    LocksGivenBack(s.rowLocks, rows, t);
    LocksGivenBack(s.keyLocks, keys, t);
    assert s.txs[t := tx][t := ClosedTx(tx.op, result)] == s.txs[t := ClosedTx(tx.op, result)];
  }

  lemma OneMore(s: System, t: Tid, a: Action, next: System, rest: Schedule, end: System) returns (run: Schedule)
    requires Next(s, t, a) == Some(next) && Play(next, rest) == Some(end)
    ensures Play(s, run) == Some(end)
  {
    run := [(t, a)] + rest;
    PlayStep(s, rest, t, a);
  }

  /** The last statement: commit. */
  lemma Commits(s: System, t: Tid, tx: Tx, budget: bool, rows: set<Id>, keys: set<Id>) returns (run: Schedule)
    requires s.budgetLock.None? && (forall id :: !Owns(s.rowLocks, id, t) && !Owns(s.keyLocks, id, t))
    requires rows !! s.rowLocks.Keys && keys !! s.keyLocks.Keys && tx.pc.Committing?
    requires Decide(s.db, tx.op) == (Staged(tx), tx.pc.result) && Publish(s.db, tx) == After(s.db, tx.op)
    ensures Play(While(s, t, tx, budget, rows, keys), run) == Some(Ended(s, t, tx.op))
  {
    var at := While(s, t, tx, budget, rows, keys);
    ClosingLeavesNothing(s, t, tx, budget, rows, keys, tx.pc.result);
    assert s.log + [] == s.log;
    run := OneMore(at, t, Advance, Ended(s, t, tx.op), [], Ended(s, t, tx.op));
  }

  lemma Begins(s: System, t: Tid, op: Op, rest: Schedule) returns (run: Schedule)
    requires Undisputed(s, t, op)
    requires Play(While(s, t, Tx(op, FirstPc(op), None, None, map[], map[]), false, {}, {}), rest) ==
             Some(Ended(s, t, op))
    ensures Play(s, run) == Some(Ended(s, t, op))
  {
    var tx := Tx(op, FirstPc(op), None, None, map[], map[]);
    TakingMore(s.rowLocks, {}, "", t);
    TakingMore(s.keyLocks, {}, "", t);
    run := OneMore(s, t, Begin(op), While(s, t, tx, false, {}, {}), rest, Ended(s, t, op));
  }

  /** A statement that gives up. */
  lemma GivesUp(s: System, t: Tid, tx: Tx, budget: bool, rows: set<Id>, keys: set<Id>) returns (run: Schedule)
    requires s.budgetLock.None? && (forall id :: !Owns(s.rowLocks, id, t) && !Owns(s.keyLocks, id, t))
    requires rows !! s.rowLocks.Keys && keys !! s.keyLocks.Keys && Decide(s.db, tx.op).0.None?
    requires var at := While(s, t, tx, budget, rows, keys);
             Next(at, t, Advance) == Some(Close(at, t, Decide(s.db, tx.op).1))
    ensures Play(While(s, t, tx, budget, rows, keys), run) == Some(Ended(s, t, tx.op))
  {
    ClosingLeavesNothing(s, t, tx, budget, rows, keys, Decide(s.db, tx.op).1);
    assert s.log + [] == s.log;
    run := OneMore(While(s, t, tx, budget, rows, keys), t, Advance, Ended(s, t, tx.op), [], Ended(s, t, tx.op));
  }

  /** A statement that goes on: the same state with `t` further and perhaps one more lock. */
  lemma GoesOn(s: System, t: Tid, tx: Tx, budget: bool, rows: set<Id>, keys: set<Id>,
               tx': Tx, budget': bool, rows': set<Id>, keys': set<Id>, rest: Schedule) returns (run: Schedule)
    requires Play(While(s, t, tx', budget', rows', keys'), rest) == Some(Ended(s, t, tx.op))
    requires Next(While(s, t, tx, budget, rows, keys), t, Advance) == Some(While(s, t, tx', budget', rows', keys'))
    ensures Play(While(s, t, tx, budget, rows, keys), run) == Some(Ended(s, t, tx.op))
  {
    run := OneMore(While(s, t, tx, budget, rows, keys), t, Advance, While(s, t, tx', budget', rows', keys'), rest,
                   Ended(s, t, tx.op));
  }

  /** Moving on does not depend on where `t` was before. */
  lemma MovesOn(s: System, t: Tid, tx: Tx, budget: bool, rows: set<Id>, keys: set<Id>, tx': Tx)
    ensures While(s, t, tx, budget, rows, keys).txs[t := tx'] == s.txs[t := tx']
  {
  }

  /** An update of the budget row when nobody else has it. */
  ghost predicate Charges(s: System, reserved: int, spent: int, totals: Option<Totals>) {
    && ReservedStaysNonNegative(s.db.books.totals, reserved)
    && totals == if s.db.books.totals.Some? then Move(s.db.books.totals, reserved, spent) else None
  }

  lemma BudgetUpdates(s: System, t: Tid, tx: Tx, rows: set<Id>, keys: set<Id>, reserved: int, spent: int,
                      totals: Option<Totals>, then_: Pc)
    requires s.budgetLock.None? && Charges(s, reserved, spent, totals) && tx.totals.None?
    ensures UpdateBudget(While(s, t, tx, false, rows, keys), t, tx, reserved, spent, then_) ==
            Some(While(s, t, tx.(pc := then_, totals := totals), totals.Some?, rows, keys))
  {
    MovesOn(s, t, tx, false, rows, keys, tx.(pc := then_, totals := totals));
    assert totals.None? ==> tx.(pc := then_) == tx.(pc := then_, totals := totals);
  }

  // ---------------------------------------------------------------- settle

  /** The record of a settlement after so many of its own statements. */
  function SettleTx(db: Db, id: Id, cost: Money, totals: Option<Totals>, done: nat): Tx
    requires id in db.books.rows
  {
    var op, row := Settle(id, cost), db.books.rows[id];
    var written := map[id := row.(status := Committed)];
    if done == 1 then Tx(op, StBudget, Some(row), None, map[], map[])
    else if done == 2 then Tx(op, StMark, Some(row), totals, map[], map[])
    else if done == 3 then Tx(op, StCost, Some(row), totals, written, map[])
    else
      Tx(op, Committing(Outcome.Done), Some(row), totals, written,
         if id in db.costs then map[] else map[id := cost.units])
  }

  ghost predicate Settles(s: System, t: Tid, id: Id, cost: Money, totals: Option<Totals>) {
    && Undisputed(s, t, Settle(id, cost)) && Decide(s.db, Settle(id, cost)).0 == Some(Book(id, cost.units))
    && id in s.db.books.rows && Charges(s, -Holding(s.db.books, id), cost.units, totals)
  }

  lemma SettlePublishes(s: System, t: Tid, id: Id, cost: Money, totals: Option<Totals>)
    requires Settles(s, t, id, cost, totals)
    ensures var tx := SettleTx(s.db, id, cost, totals, 4);
            Decide(s.db, tx.op) == (Staged(tx), tx.pc.result) && Publish(s.db, tx) == After(s.db, tx.op)
  {
    var tx := SettleTx(s.db, id, cost, totals, 4);
    assert s.db.books.rows + tx.rows == s.db.books.rows[id := tx.rows[id]];
    assert s.db.costs + tx.costs == Record(s.db.costs, Book(id, cost.units));
  }

  lemma SettleWrites(s: System, t: Tid, id: Id, cost: Money, totals: Option<Totals>, done: nat)
    requires Settles(s, t, id, cost, totals) && done in {2, 3}
    ensures var here, next := SettleTx(s.db, id, cost, totals, done), SettleTx(s.db, id, cost, totals, done + 1);
            Next(While(s, t, here, totals.Some?, {id}, {}), t, Advance) ==
            Some(While(s, t, next, totals.Some?, {id}, {}))
  {
    MovesOn(s, t, SettleTx(s.db, id, cost, totals, done), totals.Some?, {id}, {},
            SettleTx(s.db, id, cost, totals, done + 1));
  }

  lemma SettleCharges(s: System, t: Tid, id: Id, cost: Money, totals: Option<Totals>)
    requires Settles(s, t, id, cost, totals)
    ensures Next(While(s, t, SettleTx(s.db, id, cost, totals, 1), false, {id}, {}), t, Advance) ==
            Some(While(s, t, SettleTx(s.db, id, cost, totals, 2), totals.Some?, {id}, {}))
  {
    BudgetUpdates(s, t, SettleTx(s.db, id, cost, totals, 1), {id}, {}, -Holding(s.db.books, id), cost.units, totals,
                  StMark);
  }

  lemma SettleTakesItsRow(s: System, t: Tid, id: Id, cost: Money, totals: Option<Totals>)
    requires Settles(s, t, id, cost, totals)
    ensures Next(While(s, t, Tx(Settle(id, cost), StLock, None, None, map[], map[]), false, {}, {}), t, Advance) ==
            Some(While(s, t, SettleTx(s.db, id, cost, totals, 1), false, {id}, {}))
  {
    var tx := Tx(Settle(id, cost), StLock, None, None, map[], map[]);
    TakingMore(s.rowLocks, {}, id, t);
    assert {} + {id} == {id};
    MovesOn(s, t, tx, false, {}, {}, SettleTx(s.db, id, cost, totals, 1));
  }

  lemma SoloBooking(s: System, t: Tid, id: Id, cost: Money, totals: Option<Totals>) returns (run: Schedule)
    requires Settles(s, t, id, cost, totals)
    ensures Play(s, run) == Some(Ended(s, t, Settle(id, cost)))
  {
    var tx0, b := Tx(Settle(id, cost), StLock, None, None, map[], map[]), totals.Some?;
    var tx1, tx2 := SettleTx(s.db, id, cost, totals, 1), SettleTx(s.db, id, cost, totals, 2);
    var tx3, tx4 := SettleTx(s.db, id, cost, totals, 3), SettleTx(s.db, id, cost, totals, 4);
    SettlePublishes(s, t, id, cost, totals);
    run := Commits(s, t, tx4, b, {id}, {});
    SettleWrites(s, t, id, cost, totals, 3);
    run := GoesOn(s, t, tx3, b, {id}, {}, tx4, b, {id}, {}, run);
    SettleWrites(s, t, id, cost, totals, 2);
    run := GoesOn(s, t, tx2, b, {id}, {}, tx3, b, {id}, {}, run);
    SettleCharges(s, t, id, cost, totals);
    run := GoesOn(s, t, tx1, false, {id}, {}, tx2, b, {id}, {}, run);
    SettleTakesItsRow(s, t, id, cost, totals);
    run := GoesOn(s, t, tx0, false, {}, {}, tx1, false, {id}, {}, run);
    run := Begins(s, t, Settle(id, cost), run);
  }

  /** An operation with nothing to write, from the statement that finds so. */
  lemma FindsNothingToDo(s: System, t: Tid, tx: Tx, budget: bool, rows: set<Id>, keys: set<Id>, rows': set<Id>)
    returns (run: Schedule)
    requires s.budgetLock.None? && (forall id :: !Owns(s.rowLocks, id, t) && !Owns(s.keyLocks, id, t))
    requires rows' !! s.rowLocks.Keys && keys !! s.keyLocks.Keys && Unstaged(tx) && Decide(s.db, tx.op).0.None?
    requires var tx' := tx.(pc := Committing(Decide(s.db, tx.op).1));
             Next(While(s, t, tx, budget, rows, keys), t, Advance) == Some(While(s, t, tx', budget, rows', keys))
    ensures Play(While(s, t, tx, budget, rows, keys), run) == Some(Ended(s, t, tx.op))
  {
    var tx' := tx.(pc := Committing(Decide(s.db, tx.op).1));
    assert s.db.books.rows + map[] == s.db.books.rows && s.db.costs + map[] == s.db.costs;
    run := Commits(s, t, tx', budget, rows', keys);
    run := GoesOn(s, t, tx, budget, rows, keys, tx', budget, rows', keys, run);
  }

  /** A negative cost, or an update the table's floor refuses, fails at the budget. */
  lemma SettlementIsRefused(s: System, t: Tid, id: Id, cost: Money) returns (run: Schedule)
    requires Undisputed(s, t, Settle(id, cost)) && Decide(s.db, Settle(id, cost)) == (None, Unavailable)
    requires id in s.db.books.rows
    ensures Play(While(s, t, SettleTx(s.db, id, cost, None, 1), false, {id}, {}), run) ==
            Some(Ended(s, t, Settle(id, cost)))
  {
    run := GivesUp(s, t, SettleTx(s.db, id, cost, None, 1), false, {id}, {});
  }

  lemma SoloSettleRefused(s: System, t: Tid, id: Id, cost: Money) returns (run: Schedule)
    requires Undisputed(s, t, Settle(id, cost)) && Decide(s.db, Settle(id, cost)).0.None?
    ensures Play(s, run) == Some(Ended(s, t, Settle(id, cost)))
  {
    var op, rows := Settle(id, cost), s.db.books.rows;
    var tx := Tx(op, StLock, None, None, map[], map[]);
    var at := While(s, t, tx, false, {}, {});
    TakingMore(s.rowLocks, {}, id, t);
    assert {} + {id} == {id} && at.rowLocks == s.rowLocks;
    if id !in rows || rows[id].status.Released? ||
       (!rows[id].status.Committed? && cost.currency != rows[id].estimate.currency) {
      run := GivesUp(s, t, tx, false, {}, {});
    } else if rows[id].status.Committed? {
      MovesOn(s, t, tx, false, {}, {}, tx.(pc := Committing(Outcome.Done)));
      run := FindsNothingToDo(s, t, tx, false, {}, {}, {id});
    } else {
      var tx1 := SettleTx(s.db, id, cost, None, 1);
      run := SettlementIsRefused(s, t, id, cost);
      MovesOn(s, t, tx, false, {}, {}, tx1);
      run := GoesOn(s, t, tx, false, {}, {}, tx1, false, {id}, {}, run);
    }
    run := Begins(s, t, op, run);
  }

  // ---------------------------------------------------------------- release

  function ReleaseTx(db: Db, id: Id, totals: Option<Totals>, done: nat): Tx
    requires id in db.books.rows
  {
    var op, row := Release(id), db.books.rows[id];
    if done == 1 then Tx(op, RlBudget, Some(row), None, map[], map[])
    else if done == 2 then Tx(op, RlMark, Some(row), totals, map[], map[])
    else Tx(op, Committing(Outcome.Done), Some(row), totals, map[id := row.(status := Released)], map[])
  }

  ghost predicate Releases(s: System, t: Tid, id: Id, totals: Option<Totals>) {
    && Undisputed(s, t, Release(id)) && Decide(s.db, Release(id)).0 == Some(Return(id))
    && id in s.db.books.rows && Charges(s, -Holding(s.db.books, id), 0, totals)
  }

  lemma ReleaseCharges(s: System, t: Tid, id: Id, totals: Option<Totals>)
    requires Releases(s, t, id, totals)
    ensures Next(While(s, t, ReleaseTx(s.db, id, totals, 1), false, {id}, {}), t, Advance) ==
            Some(While(s, t, ReleaseTx(s.db, id, totals, 2), totals.Some?, {id}, {}))
  {
    BudgetUpdates(s, t, ReleaseTx(s.db, id, totals, 1), {id}, {}, -Holding(s.db.books, id), 0, totals, RlMark);
  }

  lemma ReleaseMarks(s: System, t: Tid, id: Id, totals: Option<Totals>)
    requires Releases(s, t, id, totals)
    ensures Next(While(s, t, ReleaseTx(s.db, id, totals, 2), totals.Some?, {id}, {}), t, Advance) ==
            Some(While(s, t, ReleaseTx(s.db, id, totals, 3), totals.Some?, {id}, {}))
  {
    MovesOn(s, t, ReleaseTx(s.db, id, totals, 2), totals.Some?, {id}, {}, ReleaseTx(s.db, id, totals, 3));
  }

  lemma ReleasePublishes(s: System, t: Tid, id: Id, totals: Option<Totals>)
    requires Releases(s, t, id, totals)
    ensures var tx := ReleaseTx(s.db, id, totals, 3);
            Decide(s.db, tx.op) == (Staged(tx), tx.pc.result) && Publish(s.db, tx) == After(s.db, tx.op)
  {
    var tx := ReleaseTx(s.db, id, totals, 3);
    assert s.db.books.rows + tx.rows == s.db.books.rows[id := tx.rows[id]];
    assert s.db.costs + map[] == s.db.costs;
  }

  lemma ReleaseOfALiveHold(s: System, t: Tid, id: Id) returns (run: Schedule)
    requires Undisputed(s, t, Release(id)) && Live(s.db.books, id)
    ensures Play(While(s, t, ReleaseTx(s.db, id, None, 1), false, {id}, {}), run) == Some(Ended(s, t, Release(id)))
  {
    if !ReservedStaysNonNegative(s.db.books.totals, -Holding(s.db.books, id)) {
      run := GivesUp(s, t, ReleaseTx(s.db, id, None, 1), false, {id}, {});
    } else {
      run := SoloReturn(s, t, id);
    }
  }

  lemma SoloRelease(s: System, t: Tid, id: Id) returns (run: Schedule)
    requires Undisputed(s, t, Release(id))
    ensures Play(s, run) == Some(Ended(s, t, Release(id)))
  {
    var op, rows := Release(id), s.db.books.rows;
    var tx := Tx(op, RlLock, None, None, map[], map[]);
    var at := While(s, t, tx, false, {}, {});
    TakingMore(s.rowLocks, {}, id, t);
    assert {} + {id} == {id} && at.rowLocks == s.rowLocks;
    if id !in rows {
      run := GivesUp(s, t, tx, false, {}, {});
    } else if !rows[id].status.Reserved? {
      MovesOn(s, t, tx, false, {}, {}, tx.(pc := Committing(Outcome.Done)));
      run := FindsNothingToDo(s, t, tx, false, {}, {}, {id});
    } else {
      var tx1 := ReleaseTx(s.db, id, None, 1);
      run := ReleaseOfALiveHold(s, t, id);
      MovesOn(s, t, tx, false, {}, {}, tx1);
      run := GoesOn(s, t, tx, false, {}, {}, tx1, false, {id}, {}, run);
    }
    run := Begins(s, t, op, run);
  }

  lemma SoloReturn(s: System, t: Tid, id: Id) returns (run: Schedule)
    requires Undisputed(s, t, Release(id)) && Decide(s.db, Release(id)).0 == Some(Return(id))
    ensures Play(While(s, t, ReleaseTx(s.db, id, None, 1), false, {id}, {}), run) == Some(Ended(s, t, Release(id)))
  {
    var totals := if s.db.books.totals.Some? then Move(s.db.books.totals, -Holding(s.db.books, id), 0) else None;
    var tx1, tx2, tx3 := ReleaseTx(s.db, id, totals, 1), ReleaseTx(s.db, id, totals, 2), ReleaseTx(s.db, id, totals, 3);
    ReleasePublishes(s, t, id, totals);
    ReleaseMarks(s, t, id, totals);
    ReleaseCharges(s, t, id, totals);
    run := Commits(s, t, tx3, totals.Some?, {id}, {});
    run := GoesOn(s, t, tx2, totals.Some?, {id}, {}, tx3, totals.Some?, {id}, {}, run);
    run := GoesOn(s, t, tx1, false, {id}, {}, tx2, totals.Some?, {id}, {}, run);
  }

  // ---------------------------------------------------------------- reserve

  /** The record of a reserve that must hold: having read its row, before the budget, and after it. */
  function ReserveTx(db: Db, op: Op, pc: Pc, totals: Option<Totals>, rows: map<Id, Row>): Tx
    requires op.Reserve?
  {
    Tx(op, pc, if op.id in db.books.rows then Some(db.books.rows[op.id]) else None, totals, rows, map[])
  }

  predicate MustHold(s: System, op: Op)
    requires op.Reserve?
  {
    op.id in s.db.books.rows ==>
      s.db.books.rows[op.id].status.Released? || s.db.books.rows[op.id].status.Expired?
  }

  /** From the last statement on: the row is written, unless the amount is negative. */
  lemma ReserveWritesItsRow(s: System, t: Tid, op: Op, totals: Option<Totals>) returns (run: Schedule)
    requires op.Reserve? && Undisputed(s, t, op) && MustHold(s, op) && Charges(s, op.cost.units, 0, totals)
    requires Decide(s.db, op).1 == if op.cost.units < 0 then Unavailable else Granted(op.cost)
    requires op.cost.units < 0 ==> Decide(s.db, op).0.None?
    ensures Play(While(s, t, ReserveTx(s.db, op, RvHold, totals, map[]), totals.Some?, {}, {op.id}), run) ==
            Some(Ended(s, t, op))
  {
    var id, b := op.id, totals.Some?;
    var tx := ReserveTx(s.db, op, RvHold, totals, map[]);
    var at := While(s, t, tx, b, {}, {id});
    TakingMore(s.rowLocks, {}, id, t);
    assert {} + {id} == {id} && at.rowLocks == s.rowLocks;
    if op.cost.units < 0 {
      run := GivesUp(s, t, tx, b, {}, {id});
    } else {
      var row := Row(op.cost, Status.Reserved, StampFor(s.db.books.rows, id, op.now));
      var tx' := ReserveTx(s.db, op, Committing(Granted(op.cost)), totals, map[id := row]);
      ReservePublishes(s, t, op, totals, tx');
      run := Commits(s, t, tx', b, {id}, {id});
      MovesOn(s, t, tx, b, {}, {id}, tx');
      run := GoesOn(s, t, tx, b, {}, {id}, tx', b, {id}, {id}, run);
    }
  }

  lemma ReservePublishes(s: System, t: Tid, op: Op, totals: Option<Totals>, tx: Tx)
    requires op.Reserve? && Undisputed(s, t, op) && MustHold(s, op) && Charges(s, op.cost.units, 0, totals)
    requires Decide(s.db, op).1 == Granted(op.cost) && op.cost.units >= 0
    requires tx == ReserveTx(s.db, op, Committing(Granted(op.cost)), totals,
                             map[op.id := Row(op.cost, Status.Reserved, StampFor(s.db.books.rows, op.id, op.now))])
    ensures Decide(s.db, op) == (Staged(tx), tx.pc.result) && Publish(s.db, tx) == After(s.db, op)
  {
    assert s.db.books.rows + tx.rows == s.db.books.rows[op.id := tx.rows[op.id]];
    assert s.db.costs + map[] == s.db.costs;
  }

  /** The guard passes exactly when the whole operation would grant, and then charges the budget row. */
  lemma ReserveCharges(s: System, t: Tid, op: Op, tx: Tx, totals: Option<Totals>)
    requires op.Reserve? && s.budgetLock.None? && s.db.books.totals.Some? && Charges(s, op.cost.units, 0, totals)
    requires tx == ReserveTx(s.db, op, RvGuard(s.db.books.totals.value), None, map[])
    requires Remaining(s.db.books.totals.value) >= op.cost.units
    ensures Next(While(s, t, tx, false, {}, {op.id}), t, Advance) ==
            Some(While(s, t, ReserveTx(s.db, op, RvHold, totals, map[]), true, {}, {op.id}))
  {
    BudgetUpdates(s, t, tx, {}, {op.id}, op.cost.units, 0, totals, RvHold);
  }

  lemma ReserveIsRefused(s: System, t: Tid, op: Op, tx: Tx)
    requires op.Reserve? && s.budgetLock.None? && MustHold(s, op)
    requires s.db.books.totals.Some? && s.db.books.totals.value.reserved >= 0
    requires op.cost.currency == s.db.currency
    requires tx == ReserveTx(s.db, op, RvGuard(s.db.books.totals.value), None, map[])
    requires Remaining(s.db.books.totals.value) < op.cost.units ||
             !ReservedStaysNonNegative(s.db.books.totals, op.cost.units)
    ensures Decide(s.db, op).0.None?
    ensures var at := While(s, t, tx, false, {}, {op.id});
            Next(at, t, Advance) == Some(Close(at, t, Decide(s.db, op).1))
  {
  }

  lemma ReserveChecksTheBudget(s: System, t: Tid, op: Op, tx: Tx) returns (run: Schedule)
    requires op.Reserve? && Undisputed(s, t, op) && MustHold(s, op) && s.db.books.totals.Some?
    requires op.cost.currency == s.db.currency
    requires tx == ReserveTx(s.db, op, RvGuard(s.db.books.totals.value), None, map[])
    ensures Play(While(s, t, tx, false, {}, {op.id}), run) == Some(Ended(s, t, op))
  {
    var units := op.cost.units;
    if Remaining(s.db.books.totals.value) < units || !ReservedStaysNonNegative(s.db.books.totals, units) {
      ReserveIsRefused(s, t, op, tx);
      run := GivesUp(s, t, tx, false, {}, {op.id});
    } else {
      var totals := Move(s.db.books.totals, units, 0);
      run := ReserveWritesItsRow(s, t, op, totals);
      ReserveCharges(s, t, op, tx, totals);
      run := GoesOn(s, t, tx, false, {}, {op.id}, ReserveTx(s.db, op, RvHold, totals, map[]), true, {}, {op.id}, run);
    }
  }

  lemma ReserveReadsTheBudget(s: System, t: Tid, op: Op) returns (run: Schedule)
    requires op.Reserve? && Undisputed(s, t, op) && MustHold(s, op)
    ensures Play(While(s, t, ReserveTx(s.db, op, RvBudget, None, map[]), false, {}, {op.id}), run) ==
            Some(Ended(s, t, op))
  {
    var keys, tx := {op.id}, ReserveTx(s.db, op, RvBudget, None, map[]);
    if s.db.books.totals.None? {
      var tx' := ReserveTx(s.db, op, RvHold, None, map[]);
      run := ReserveWritesItsRow(s, t, op, None);
      MovesOn(s, t, tx, false, {}, keys, tx');
      run := GoesOn(s, t, tx, false, {}, keys, tx', false, {}, keys, run);
    } else if op.cost.currency != s.db.currency {
      run := GivesUp(s, t, tx, false, {}, keys);
    } else {
      var tx' := ReserveTx(s.db, op, RvGuard(s.db.books.totals.value), None, map[]);
      run := ReserveChecksTheBudget(s, t, op, tx');
      MovesOn(s, t, tx, false, {}, keys, tx');
      run := GoesOn(s, t, tx, false, {}, keys, tx', false, {}, keys, run);
    }
  }

  lemma SoloReserve(s: System, t: Tid, op: Op) returns (run: Schedule)
    requires op.Reserve? && Undisputed(s, t, op)
    ensures Play(s, run) == Some(Ended(s, t, op))
  {
    var id := op.id;
    var tx0 := Tx(op, RvLock, None, None, map[], map[]);
    var tx1 := tx0.(pc := RvRead);
    if MustHold(s, op) {
      var tx2 := ReserveTx(s.db, op, RvBudget, None, map[]);
      run := ReserveReadsTheBudget(s, t, op);
      MovesOn(s, t, tx1, false, {}, {id}, tx2);
      run := GoesOn(s, t, tx1, false, {}, {id}, tx2, false, {}, {id}, run);
    } else {
      MovesOn(s, t, tx1, false, {}, {id}, tx1.(pc := Committing(Decide(s.db, op).1)));
      run := FindsNothingToDo(s, t, tx1, false, {}, {id}, {});
    }
    ReserveLocks(s, t, op);
    run := GoesOn(s, t, tx0, false, {}, {}, tx1, false, {}, {id}, run);
    run := Begins(s, t, op, run);
  }

  lemma ReserveLocks(s: System, t: Tid, op: Op)
    requires op.Reserve? && Undisputed(s, t, op)
    ensures var tx0 := Tx(op, RvLock, None, None, map[], map[]);
            Next(While(s, t, tx0, false, {}, {}), t, Advance) ==
            Some(While(s, t, tx0.(pc := RvRead), false, {}, {op.id}))
  {
    var tx0 := Tx(op, RvLock, None, None, map[], map[]);
    TakingMore(s.keyLocks, {}, op.id, t);
    assert {} + {op.id} == {op.id} && While(s, t, tx0, false, {}, {}).keyLocks == s.keyLocks;
    MovesOn(s, t, tx0, false, {}, {}, tx0.(pc := RvRead));
  }

  // ---------------------------------------------------------------- the sweep

  function ExpiredRows(db: Db, ids: set<Id>): map<Id, Row>
    requires ids <= db.books.rows.Keys
  {
    map id | id in ids :: db.books.rows[id].(status := Expired)
  }

  function SweepTx(db: Db, op: Op, pc: Pc, totals: Option<Totals>, ids: set<Id>): Tx
    requires ids <= db.books.rows.Keys
  {
    Tx(op, pc, None, totals, ExpiredRows(db, ids), map[])
  }

  lemma SweepTakesOne(s: System, t: Tid, op: Op, ids: set<Id>, id: Id)
    requires op.Reconcile? && Undisputed(s, t, op) && ids <= Due(s.db.books.rows, op.olderThan, op.locked)
    requires id in Due(s.db.books.rows, op.olderThan, op.locked) && id !in ids
    ensures Next(While(s, t, SweepTx(s.db, op, RcSweep, None, ids), false, ids, {}), t, Sweep(id)) ==
            Some(While(s, t, SweepTx(s.db, op, RcSweep, None, ids + {id}), false, ids + {id}, {}))
  {
    var tx, tx' := SweepTx(s.db, op, RcSweep, None, ids), SweepTx(s.db, op, RcSweep, None, ids + {id});
    TakingMore(s.rowLocks, ids, id, t);
    MovesOn(s, t, tx, false, ids, {}, tx');
    assert tx'.rows == tx.rows[id := s.db.books.rows[id].(status := Expired)];
  }

  lemma {:induction false} SweepTakesTheRest(s: System, t: Tid, op: Op, ids: set<Id>, rest: Schedule)
    returns (run: Schedule)
    requires op.Reconcile? && Undisputed(s, t, op) && ids <= Due(s.db.books.rows, op.olderThan, op.locked)
    requires var all := Due(s.db.books.rows, op.olderThan, op.locked);
             all <= s.db.books.rows.Keys &&
             Play(While(s, t, SweepTx(s.db, op, RcSweep, None, all), false, all, {}), rest) == Some(Ended(s, t, op))
    ensures Play(While(s, t, SweepTx(s.db, op, RcSweep, None, ids), false, ids, {}), run) == Some(Ended(s, t, op))
    decreases |Due(s.db.books.rows, op.olderThan, op.locked) - ids|
  {
    var all := Due(s.db.books.rows, op.olderThan, op.locked);
    if all <= ids {
      assert ids == all;
      run := rest;
    } else {
      var id :| id in all && id !in ids;
      assert all - (ids + {id}) == all - ids - {id};
      SweepTakesOne(s, t, op, ids, id);
      run := SweepTakesTheRest(s, t, op, ids + {id}, rest);
      run := OneMore(While(s, t, SweepTx(s.db, op, RcSweep, None, ids), false, ids, {}), t, Sweep(id),
                     While(s, t, SweepTx(s.db, op, RcSweep, None, ids + {id}), false, ids + {id}, {}), run,
                     Ended(s, t, op));
    }
  }

  lemma SweptAddUp(db: Db, ids: set<Id>)
    requires ids <= db.books.rows.Keys
    ensures var rows := ExpiredRows(db, ids);
            && rows.Keys == ids && Estimates(rows, rows.Keys) == Estimates(db.books.rows, ids)
            && (rows == map[] <==> ids == {})
  {
    var rows := ExpiredRows(db, ids);
    assert rows.Keys == ids;
    assert rows == map[] ==> rows.Keys == {};
  }

  lemma SweepDecides(db: Db, op: Op, ids: set<Id>, back: int)
    requires op.Reconcile? && ids == Due(db.books.rows, op.olderThan, op.locked) != {} && ids <= db.books.rows.Keys
    requires back == -Sum(Estimates(db.books.rows, ids)) && ReservedStaysNonNegative(db.books.totals, back)
    ensures Decide(db, op) == (Some(Expire(ids)), Reclaimed(|ids|))
    ensures After(db, op) ==
            Db(Books(Move(db.books.totals, back, 0), WithStatus(db.books.rows, ids, Expired)), db.currency, db.costs)
  {
  }

  lemma SweptRows(db: Db, ids: set<Id>)
    requires ids <= db.books.rows.Keys
    ensures db.books.rows + ExpiredRows(db, ids) == WithStatus(db.books.rows, ids, Expired)
    ensures db.costs + map[] == db.costs
  {
  }

  lemma SweepPublishes(s: System, op: Op, ids: set<Id>, back: int, totals: Option<Totals>)
    requires op.Reconcile? && ids == Due(s.db.books.rows, op.olderThan, op.locked) != {} && ids <= s.db.books.rows.Keys
    requires back == -Sum(Estimates(s.db.books.rows, ids)) && Charges(s, back, 0, totals)
    ensures var tx := SweepTx(s.db, op, Committing(Reclaimed(|ids|)), totals, ids);
            Decide(s.db, op) == (Staged(tx), tx.pc.result) && Publish(s.db, tx) == After(s.db, op)
  {
    SweptAddUp(s.db, ids);
    SweptRows(s.db, ids);
    SweepDecides(s.db, op, ids, back);
  }

  lemma SweepEnds(s: System, t: Tid, op: Op) returns (run: Schedule)
    requires op.Reconcile? && Undisputed(s, t, op)
    requires Due(s.db.books.rows, op.olderThan, op.locked) <= s.db.books.rows.Keys
    ensures var all := Due(s.db.books.rows, op.olderThan, op.locked);
            Play(While(s, t, SweepTx(s.db, op, RcSweep, None, all), false, all, {}), run) == Some(Ended(s, t, op))
  {
    var all := Due(s.db.books.rows, op.olderThan, op.locked);
    var tx := SweepTx(s.db, op, RcSweep, None, all);
    SweptAddUp(s.db, all);
    if all == {} {
      MovesOn(s, t, tx, false, all, {}, tx.(pc := Committing(Reclaimed(0))));
      run := FindsNothingToDo(s, t, tx, false, all, {}, all);
    } else {
      var tx' := SweepTx(s.db, op, RcBudget, None, all);
      run := SweepCharges(s, t, op, all, tx', -Sum(Estimates(s.db.books.rows, all)));
      MovesOn(s, t, tx, false, all, {}, tx');
      run := GoesOn(s, t, tx, false, all, {}, tx', false, all, {}, run);
    }
  }

  /** The amount and the count the sweep's last statement goes by are those of its own rows. */
  ghost predicate Adds(tx: Tx, back: int, count: nat) {
    && tx.op.Reconcile? && tx.pc.RcBudget? && tx.totals.None?
    && back == -Sum(Estimates(tx.rows, tx.rows.Keys)) && count == |tx.rows.Keys|
  }

  lemma SweepUpdatesTheBudget(at: System, t: Tid, tx: Tx, back: int, count: nat)
    requires t in at.txs && at.txs[t] == tx && Adds(tx, back, count)
    ensures Next(at, t, Advance) == UpdateBudget(at, t, tx, back, 0, Committing(Reclaimed(count)))
  {
  }

  lemma SweepUpdates(s: System, t: Tid, tx: Tx, ids: set<Id>, back: int, count: nat, totals: Option<Totals>)
    requires s.budgetLock.None? && Charges(s, back, 0, totals) && Adds(tx, back, count)
    ensures Next(While(s, t, tx, false, ids, {}), t, Advance) ==
            Some(While(s, t, tx.(pc := Committing(Reclaimed(count)), totals := totals), totals.Some?, ids, {}))
  {
    SweepUpdatesTheBudget(While(s, t, tx, false, ids, {}), t, tx, back, count);
    BudgetUpdates(s, t, tx, ids, {}, back, 0, totals, Committing(Reclaimed(count)));
  }

  lemma SweepIsRefused(s: System, t: Tid, tx: Tx, ids: set<Id>, back: int, count: nat)
    requires s.budgetLock.None? && !ReservedStaysNonNegative(s.db.books.totals, back) && Adds(tx, back, count)
    ensures var at := While(s, t, tx, false, ids, {}); Next(at, t, Advance) == Some(Close(at, t, Unavailable))
  {
    SweepUpdatesTheBudget(While(s, t, tx, false, ids, {}), t, tx, back, count);
  }

  lemma SweepGivesUp(s: System, t: Tid, op: Op, ids: set<Id>, tx: Tx, back: int) returns (run: Schedule)
    requires op.Reconcile? && Undisputed(s, t, op) && ids == Due(s.db.books.rows, op.olderThan, op.locked) != {}
    requires back == -Sum(Estimates(s.db.books.rows, ids)) && !ReservedStaysNonNegative(s.db.books.totals, back)
    requires tx.op == op && Adds(tx, back, |ids|)
    ensures Play(While(s, t, tx, false, ids, {}), run) == Some(Ended(s, t, op))
  {
    SweepIsRefused(s, t, tx, ids, back, |ids|);
    run := GivesUp(s, t, tx, false, ids, {});
  }

  lemma SweepCharges(s: System, t: Tid, op: Op, ids: set<Id>, tx: Tx, back: int) returns (run: Schedule)
    requires op.Reconcile? && Undisputed(s, t, op) && ids == Due(s.db.books.rows, op.olderThan, op.locked) != {}
    requires ids <= s.db.books.rows.Keys && back == -Sum(Estimates(s.db.books.rows, ids))
    requires tx == SweepTx(s.db, op, RcBudget, None, ids) && Adds(tx, back, |ids|)
    ensures Play(While(s, t, tx, false, ids, {}), run) == Some(Ended(s, t, op))
  {
    if !ReservedStaysNonNegative(s.db.books.totals, back) {
      run := SweepGivesUp(s, t, op, ids, tx, back);
    } else {
      var totals := if s.db.books.totals.Some? then Move(s.db.books.totals, back, 0) else None;
      var tx' := tx.(pc := Committing(Reclaimed(|ids|)), totals := totals);
      run := SweepCommits(s, t, op, ids, totals);
      SweepUpdates(s, t, tx, ids, back, |ids|, totals);
      run := GoesOn(s, t, tx, false, ids, {}, tx', totals.Some?, ids, {}, run);
    }
  }

  lemma SweepCommits(s: System, t: Tid, op: Op, ids: set<Id>, totals: Option<Totals>) returns (run: Schedule)
    requires op.Reconcile? && Undisputed(s, t, op) && ids == Due(s.db.books.rows, op.olderThan, op.locked) != {}
    requires ids <= s.db.books.rows.Keys && Charges(s, -Sum(Estimates(s.db.books.rows, ids)), 0, totals)
    ensures var tx := SweepTx(s.db, op, Committing(Reclaimed(|ids|)), totals, ids);
            Play(While(s, t, tx, totals.Some?, ids, {}), run) == Some(Ended(s, t, op))
  {
    SweepPublishes(s, op, ids, -Sum(Estimates(s.db.books.rows, ids)), totals);
    run := Commits(s, t, SweepTx(s.db, op, Committing(Reclaimed(|ids|)), totals, ids), totals.Some?, ids, {});
  }

  lemma SoloSweep(s: System, t: Tid, op: Op) returns (run: Schedule)
    requires op.Reconcile? && Undisputed(s, t, op)
    ensures Play(s, run) == Some(Ended(s, t, op))
  {
    assert Due(s.db.books.rows, op.olderThan, op.locked) <= s.db.books.rows.Keys;
    run := SweepEnds(s, t, op);
    run := SweepTakesTheRest(s, t, op, {}, run);
    assert SweepTx(s.db, op, RcSweep, None, {}) == Tx(op, RcSweep, None, None, map[], map[]);
    run := Begins(s, t, op, run);
  }

  // ---------------------------------------------------------------- every operation

  /** Any operation whose locks are free has a run of its own, statement by statement, that ends as the one-transaction
      model decides: the same effect, the same answer, granted or refused, and every lock as it was found. */
  lemma AloneEveryOperationEndsAsDecided(s: System, t: Tid, op: Op) returns (run: Schedule)
    requires Undisputed(s, t, op)
    ensures Play(s, run) == Some(Ended(s, t, op))
  {
    match op
    case Reserve(_, _, _) => run := SoloReserve(s, t, op);
    case Release(id) => run := SoloRelease(s, t, id);
    case Reconcile(_, _) => run := SoloSweep(s, t, op);
    case Settle(id, cost) =>
      if Decide(s.db, op).0.None? {
        run := SoloSettleRefused(s, t, id, cost);
      } else {
        var was := s.db.books.totals;
        var totals := if was.Some? then Move(was, -Holding(s.db.books, id), cost.units) else None;
        run := SoloBooking(s, t, id, cost, totals);
      }
  }
}
