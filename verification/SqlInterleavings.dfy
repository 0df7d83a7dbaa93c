/** What every interleaving of the ledger's statements keeps. */
module SqlInterleavings {
  import opened MapSums
  import opened Ledger
  import opened SqlLedger
  import opened SqlConcurrency

  // ---------------------------------------------------------------- a transaction's own statements

  ghost predicate LocksKept(s: System, s': System, t: Tid) {
    && (forall id, u :: u != t && Owns(s.rowLocks, id, u) ==> Owns(s'.rowLocks, id, u))
    && (forall id, u :: u != t && Owns(s.keyLocks, id, u) ==> Owns(s'.keyLocks, id, u))
    && (forall u :: u != t && s.budgetLock == Some(u) ==> s'.budgetLock == Some(u))
  }

  /** A statement of `t` commits nothing and touches no other transaction. */
  ghost predicate Local(s: System, s': System, t: Tid) {
    && s'.db == s.db && s'.log == s.log && LocksKept(s, s', t)
    && t in s'.txs && s'.txs == s.txs[t := s'.txs[t]]
  }

  lemma ReserveGuardLocal(s: System, t: Tid)
    requires t in s.txs && s.txs[t].op.Reserve? && ReserveStep(s, t, s.txs[t]).Some?
    requires s.txs[t].pc.RvGuard? || s.txs[t].pc.RvHold?
    ensures Local(s, ReserveStep(s, t, s.txs[t]).value, t)
  {
  }

  lemma ReserveReadLocal(s: System, t: Tid)
    requires t in s.txs && s.txs[t].op.Reserve? && ReserveStep(s, t, s.txs[t]).Some?
    requires !s.txs[t].pc.RvGuard? && !s.txs[t].pc.RvHold?
    ensures Local(s, ReserveStep(s, t, s.txs[t]).value, t)
  {
  }

  lemma SettleStepLocal(s: System, t: Tid)
    requires t in s.txs && s.txs[t].op.Settle? && SettleStep(s, t, s.txs[t]).Some?
    ensures Local(s, SettleStep(s, t, s.txs[t]).value, t)
  {
  }

  lemma ReleaseStepLocal(s: System, t: Tid)
    requires t in s.txs && s.txs[t].op.Release? && ReleaseStep(s, t, s.txs[t]).Some?
    ensures Local(s, ReleaseStep(s, t, s.txs[t]).value, t)
  {
  }

  lemma ReconcileStepLocal(s: System, t: Tid)
    requires t in s.txs && s.txs[t].op.Reconcile? && ReconcileStep(s, t, s.txs[t]).Some?
    ensures Local(s, ReconcileStep(s, t, s.txs[t]).value, t)
  {
  }

  predicate RowsLocked(s: System, t: Tid)
    requires t in s.txs
  {
    forall id :: id in s.txs[t].rows ==> Owns(s.rowLocks, id, t)
  }

  lemma ReserveReadOk(s: System, t: Tid)
    requires t in s.txs && s.txs[t].op.Reserve? && ReserveStep(s, t, s.txs[t]).Some?
    requires ReserveOk(s, t) && !s.txs[t].pc.RvHold? && !s.txs[t].pc.RvGuard?
    ensures var s' := ReserveStep(s, t, s.txs[t]).value;
            t in s'.txs && s'.txs[t].op == s.txs[t].op && RowsLocked(s', t) && ReserveOk(s', t)
  {
  }

  lemma ReserveGuardOk(s: System, t: Tid)
    requires t in s.txs && s.txs[t].op.Reserve? && ReserveStep(s, t, s.txs[t]).Some?
    requires ReserveOk(s, t) && s.txs[t].pc.RvGuard?
    ensures var s' := ReserveStep(s, t, s.txs[t]).value;
            t in s'.txs && s'.txs[t].op == s.txs[t].op && RowsLocked(s', t) && ReserveOk(s', t)
  {
  }

  lemma ReserveHoldOk(s: System, t: Tid)
    requires t in s.txs && s.txs[t].op.Reserve? && ReserveStep(s, t, s.txs[t]).Some?
    requires ReserveOk(s, t) && s.txs[t].pc.RvHold?
    ensures var s' := ReserveStep(s, t, s.txs[t]).value;
            t in s'.txs && s'.txs[t].op == s.txs[t].op && RowsLocked(s', t) && ReserveOk(s', t)
  {
  }

  lemma SettleLockOk(s: System, t: Tid)
    requires t in s.txs && s.txs[t].op.Settle? && SettleStep(s, t, s.txs[t]).Some?
    requires SettleOk(s, t) && s.txs[t].pc.StLock?
    ensures var s' := SettleStep(s, t, s.txs[t]).value;
            t in s'.txs && s'.txs[t].op == s.txs[t].op && RowsLocked(s', t) && SettleOk(s', t)
  {
  }

  lemma SettleRestOk(s: System, t: Tid)
    requires t in s.txs && s.txs[t].op.Settle? && SettleStep(s, t, s.txs[t]).Some?
    requires SettleOk(s, t) && !s.txs[t].pc.StLock?
    ensures var s' := SettleStep(s, t, s.txs[t]).value;
            t in s'.txs && s'.txs[t].op == s.txs[t].op && RowsLocked(s', t) && SettleOk(s', t)
  {
  }

  lemma ReleaseLockOk(s: System, t: Tid)
    requires t in s.txs && s.txs[t].op.Release? && ReleaseStep(s, t, s.txs[t]).Some?
    requires ReleaseOk(s, t) && s.txs[t].pc.RlLock?
    ensures var s' := ReleaseStep(s, t, s.txs[t]).value;
            t in s'.txs && s'.txs[t].op == s.txs[t].op && RowsLocked(s', t) && ReleaseOk(s', t)
  {
  }

  lemma ReleaseRestOk(s: System, t: Tid)
    requires t in s.txs && s.txs[t].op.Release? && ReleaseStep(s, t, s.txs[t]).Some?
    requires ReleaseOk(s, t) && !s.txs[t].pc.RlLock?
    ensures var s' := ReleaseStep(s, t, s.txs[t]).value;
            t in s'.txs && s'.txs[t].op == s.txs[t].op && RowsLocked(s', t) && ReleaseOk(s', t)
  {
  }

  lemma ReconcileSweepOk(s: System, t: Tid)
    requires t in s.txs && s.txs[t].op.Reconcile? && ReconcileStep(s, t, s.txs[t]).Some?
    requires ReconcileOk(s, t) && RowsLocked(s, t) && s.txs[t].pc.RcSweep?
    ensures var s' := ReconcileStep(s, t, s.txs[t]).value;
            t in s'.txs && s'.txs[t].op == s.txs[t].op && RowsLocked(s', t) && ReconcileOk(s', t)
  {
  }

  lemma ReconcileCharges(s: System, t: Tid)
    requires t in s.txs && s.txs[t].op.Reconcile? && s.txs[t].pc.RcBudget? && s.txs[t].totals.None?
    requires ReconcileStep(s, t, s.txs[t]).Some?
    ensures var s', total := ReconcileStep(s, t, s.txs[t]).value, Sum(Estimates(s.txs[t].rows, s.txs[t].rows.Keys));
            && t in s'.txs && s'.db == s.db && s'.txs[t].op == s.txs[t].op
            && ((s'.txs[t].pc.Closed? && Unstaged(s'.txs[t])) ||
                (&& s'.txs[t].pc.Committing? && s'.rowLocks == s.rowLocks
                 && s'.txs[t].rows == s.txs[t].rows && s'.txs[t].costs == s.txs[t].costs
                 && Charged(s', t, -total, 0) && ReservedStaysNonNegative(s.db.books.totals, -total)))
  {
  }

  lemma ReconcileBudgetOk(s: System, t: Tid)
    requires t in s.txs && s.txs[t].op.Reconcile? && ReconcileStep(s, t, s.txs[t]).Some?
    requires ReconcileOk(s, t) && RowsLocked(s, t) && s.txs[t].pc.RcBudget?
    ensures var s' := ReconcileStep(s, t, s.txs[t]).value;
            t in s'.txs && s'.txs[t].op == s.txs[t].op && RowsLocked(s', t) && ReconcileOk(s', t)
  {
    ReconcileCharges(s, t);
    var s' := ReconcileStep(s, t, s.txs[t]).value;
    if s'.txs[t].pc.Committing? {
      assert Swept(s', s'.txs[t]);
    }
  }

  lemma SweepStepOk(s: System, t: Tid, id: Id)
    requires t in s.txs && SweepStep(s, t, s.txs[t], id).Some? && TxOk(s, t)
    ensures var s' := SweepStep(s, t, s.txs[t], id).value;
            Local(s, s', t) && TxOk(s', t) && s'.txs[t].op == s.txs[t].op
  {
  }

  lemma StatementOk(s: System, t: Tid)
    requires t in s.txs && TxOk(s, t) && !s.txs[t].pc.Committing? && Next(s, t, Advance).Some?
    ensures var s' := Next(s, t, Advance).value; Local(s, s', t) && TxOk(s', t) && s'.txs[t].op == s.txs[t].op
  {
    match s.txs[t].op
    case Reserve(_, _, _) =>
      if s.txs[t].pc.RvHold? {
        ReserveGuardLocal(s, t);
        ReserveHoldOk(s, t);
      } else if s.txs[t].pc.RvGuard? {
        ReserveGuardLocal(s, t);
        ReserveGuardOk(s, t);
      } else {
        ReserveReadLocal(s, t);
        ReserveReadOk(s, t);
      }
    case Settle(_, _) =>
      SettleStepLocal(s, t);
      if s.txs[t].pc.StLock? {
        SettleLockOk(s, t);
      } else {
        SettleRestOk(s, t);
      }
    case Release(_) =>
      ReleaseStepLocal(s, t);
      if s.txs[t].pc.RlLock? {
        ReleaseLockOk(s, t);
      } else {
        ReleaseRestOk(s, t);
      }
    case Reconcile(_, _) =>
      ReconcileStepLocal(s, t);
      if s.txs[t].pc.RcSweep? {
        ReconcileSweepOk(s, t);
      } else {
        ReconcileBudgetOk(s, t);
      }
  }

  // ---------------------------------------------------------------- what others may do meanwhile

  /** All that `u` relies on survives: its locked rows, its locked budget, the keys it has locked. */
  ghost predicate Insulated(s: System, s': System, u: Tid) {
    && u in s.txs && u in s'.txs && s'.txs[u] == s.txs[u]
    && s'.db.currency == s.db.currency
    && (forall id :: Owns(s.rowLocks, id, u) ==>
          && Owns(s'.rowLocks, id, u)
          && (id in s'.db.costs <==> id in s.db.costs)
          && (id in s'.db.books.rows <==> id in s.db.books.rows)
          && (id in s.db.books.rows ==> s'.db.books.rows[id] == s.db.books.rows[id]))
    && (forall id :: Owns(s.keyLocks, id, u) ==>
          && Owns(s'.keyLocks, id, u)
          && (id in s'.db.books.rows <==> id in s.db.books.rows)
          && (Live(s'.db.books, id) ==> Live(s.db.books, id)))
    && (s'.db.books.totals.Some? <==> s.db.books.totals.Some?)
    && (s.budgetLock == Some(u) ==> s'.budgetLock == Some(u) && s'.db.books.totals == s.db.books.totals)
  }

  lemma ReserveInsulated(s: System, s': System, u: Tid)
    requires Insulated(s, s', u) && RowsLocked(s, u) && s.txs[u].op.Reserve? && ReserveOk(s, u)
    ensures ReserveOk(s', u)
  {
  }

  lemma SettleInsulated(s: System, s': System, u: Tid)
    requires Insulated(s, s', u) && RowsLocked(s, u) && s.txs[u].op.Settle? && SettleOk(s, u)
    ensures SettleOk(s', u)
  {
  }

  lemma ReleaseInsulated(s: System, s': System, u: Tid)
    requires Insulated(s, s', u) && RowsLocked(s, u) && s.txs[u].op.Release? && ReleaseOk(s, u)
    ensures ReleaseOk(s', u)
  {
  }

  lemma ReconcileInsulated(s: System, s': System, u: Tid)
    requires Insulated(s, s', u) && RowsLocked(s, u) && s.txs[u].op.Reconcile? && ReconcileOk(s, u)
    ensures ReconcileOk(s', u)
  {
    assert Swept(s, s.txs[u]) ==> Swept(s', s'.txs[u]);
  }

  lemma TxInsulated(s: System, s': System, u: Tid)
    requires Insulated(s, s', u) && TxOk(s, u)
    ensures TxOk(s', u)
  {
    match s.txs[u].op
    case Reserve(_, _, _) => ReserveInsulated(s, s', u);
    case Settle(_, _) => SettleInsulated(s, s', u);
    case Release(_) => ReleaseInsulated(s, s', u);
    case Reconcile(_, _) => ReconcileInsulated(s, s', u);
  }

  lemma LocalKeepsOthers(s: System, s': System, t: Tid)
    requires Good(s) && Local(s, s', t) && TxOk(s', t)
    ensures Good(s')
  {
    forall u | u in s'.txs && u != t
      ensures TxOk(s', u)
    {
      assert TxOk(s, u);
      TxInsulated(s, s', u);
    }
  }

  // ---------------------------------------------------------------- commit

  lemma ReserveCommits(s: System, t: Tid)
    requires t in s.txs && s.txs[t].pc.Committing? && s.txs[t].op.Reserve? && ReserveOk(s, t)
    requires s.txs[t].rows != map[]
    ensures var e := Staged(s.txs[t]);
            && e.Some? && Legal(s.db.books, e.value) && NonNegative(e.value)
            && Publish(s.db, s.txs[t]) == Commit(s.db, e.value)
  {
    var tx := s.txs[t];
    assert s.db.books.rows + tx.rows == s.db.books.rows[tx.op.id := tx.rows[tx.op.id]];
    assert s.db.costs + tx.costs == s.db.costs;
  }

  lemma SettleCommits(s: System, t: Tid)
    requires t in s.txs && s.txs[t].pc.Committing? && s.txs[t].op.Settle? && SettleOk(s, t)
    requires s.txs[t].rows != map[]
    ensures var e := Staged(s.txs[t]);
            && e.Some? && Legal(s.db.books, e.value) && NonNegative(e.value)
            && Publish(s.db, s.txs[t]) == Commit(s.db, e.value)
  {
    var tx := s.txs[t];
    assert s.db.books.rows + tx.rows == s.db.books.rows[tx.op.id := tx.rows[tx.op.id]];
    assert s.db.costs + tx.costs == Record(s.db.costs, Book(tx.op.id, tx.op.cost.units));
  }

  lemma ReleaseCommits(s: System, t: Tid)
    requires t in s.txs && s.txs[t].pc.Committing? && s.txs[t].op.Release? && ReleaseOk(s, t)
    requires s.txs[t].rows != map[]
    ensures var e := Staged(s.txs[t]);
            && e.Some? && Legal(s.db.books, e.value) && NonNegative(e.value)
            && Publish(s.db, s.txs[t]) == Commit(s.db, e.value)
  {
    var tx := s.txs[t];
    assert s.db.books.rows + tx.rows == s.db.books.rows[tx.op.id := tx.rows[tx.op.id]];
    assert s.db.costs + tx.costs == s.db.costs;
  }

  lemma ReconcileCommits(s: System, t: Tid)
    requires t in s.txs && s.txs[t].pc.Committing? && s.txs[t].op.Reconcile? && ReconcileOk(s, t)
    requires s.txs[t].rows != map[]
    ensures var e := Staged(s.txs[t]);
            && e.Some? && Legal(s.db.books, e.value) && NonNegative(e.value)
            && Publish(s.db, s.txs[t]) == Commit(s.db, e.value)
  {
    var tx := s.txs[t];
    var ids := tx.rows.Keys;
    assert s.db.costs + tx.costs == s.db.costs;
    assert Estimates(tx.rows, ids) == Estimates(s.db.books.rows, ids);
    assert s.db.books.rows + tx.rows == WithStatus(s.db.books.rows, ids, Expired);
  }

  /** What a transaction publishes is exactly one legal effect of the abstract ledger, or nothing. */
  lemma CommitIsOneEffect(s: System, t: Tid)
    requires t in s.txs && TxOk(s, t) && s.txs[t].pc.Committing?
    ensures Staged(s.txs[t]).None? ==> Publish(s.db, s.txs[t]) == s.db
    ensures Staged(s.txs[t]).Some? ==>
              var e := Staged(s.txs[t]).value;
              Legal(s.db.books, e) && NonNegative(e) && Publish(s.db, s.txs[t]) == Commit(s.db, e)
  {
    var tx := s.txs[t];
    if tx.rows == map[] {
      assert s.db.books.rows + tx.rows == s.db.books.rows;
      assert s.db.costs + tx.costs == s.db.costs;
    } else {
      match tx.op
      case Reserve(_, _, _) => ReserveCommits(s, t);
      case Settle(_, _) => SettleCommits(s, t);
      case Release(_) => ReleaseCommits(s, t);
      case Reconcile(_, _) => ReconcileCommits(s, t);
    }
  }

  /** A committing transaction writes only rows it has locked; a row that becomes live or is new
      belongs to a reserve that has locked the key. */
  lemma WritesAreLocked(s: System, t: Tid)
    requires t in s.txs && TxOk(s, t) && s.txs[t].pc.Committing?
    ensures s.txs[t].costs.Keys <= s.txs[t].rows.Keys
    ensures s.txs[t].totals.Some? ==> s.db.books.totals.Some? && s.budgetLock == Some(t)
    ensures forall id :: id in s.txs[t].rows ==>
              Owns(s.keyLocks, id, t) || (id in s.db.books.rows && !s.txs[t].rows[id].status.Reserved?)
  {
  }

  lemma CommitInsulates(s: System, t: Tid, u: Tid)
    requires t in s.txs && TxOk(s, t) && s.txs[t].pc.Committing? && u in s.txs && u != t
    ensures Insulated(s, CommitStep(s, t, s.txs[t]), u)
  {
    WritesAreLocked(s, t);
  }

  lemma CommitOk(s: System, t: Tid)
    requires Good(s) && t in s.txs && s.txs[t].pc.Committing?
    ensures Good(CommitStep(s, t, s.txs[t]))
  {
    var s' := CommitStep(s, t, s.txs[t]);
    forall u | u in s'.txs
      ensures TxOk(s', u)
    {
      assert TxOk(s, t) && TxOk(s, u);
      if u != t {
        CommitInsulates(s, t, u);
        TxInsulated(s, s', u);
      }
    }
  }

  // ---------------------------------------------------------------- every run

  /** The committed tables are what the log of effects makes of the starting ones, and no open
      transaction's knowledge has gone stale. */
  ghost predicate Explained(s: System, db0: Db) {
    && Good(s)
    && LegalRun(db0.books, s.log) && AllNonNegative(s.log)
    && s.db == Db(Final(db0.books, s.log), db0.currency, Recorded(db0.costs, s.log))
  }

  lemma CommitExplained(s: System, t: Tid, db0: Db)
    requires Explained(s, db0) && t in s.txs && s.txs[t].pc.Committing?
    ensures Explained(CommitStep(s, t, s.txs[t]), db0)
  {
    assert TxOk(s, t);
    CommitOk(s, t);
    CommitIsOneEffect(s, t);
    var e := Staged(s.txs[t]);
    if e.Some? {
      RunExtends(db0.books, s.log, e.value);
      assert (s.log + [e.value])[..|s.log + [e.value]| - 1] == s.log;
    }
  }

  lemma BeginOk(s: System, t: Tid, op: Op)
    requires Next(s, t, Begin(op)).Some?
    ensures var s' := Next(s, t, Begin(op)).value; Local(s, s', t) && TxOk(s', t)
  {
  }

  lemma AbortOk(s: System, t: Tid)
    requires Next(s, t, Abort).Some?
    ensures var s' := Next(s, t, Abort).value; Local(s, s', t) && TxOk(s', t) && s'.txs[t].op == s.txs[t].op
  {
  }

  lemma UncommittedStepOk(s: System, t: Tid, a: Action)
    requires Good(s) && Next(s, t, a).Some? && !(a.Advance? && s.txs[t].pc.Committing?)
    ensures var s' := Next(s, t, a).value;
            Local(s, s', t) && TxOk(s', t) && (!a.Begin? ==> s'.txs[t].op == s.txs[t].op)
  {
    match a
    case Begin(op) => BeginOk(s, t, op);
    case Abort => AbortOk(s, t);
    case Sweep(id) => SweepStepOk(s, t, id);
    case Advance => StatementOk(s, t);
  }

  lemma StepExplained(s: System, t: Tid, a: Action, db0: Db)
    requires Explained(s, db0) && Next(s, t, a).Some?
    ensures Explained(Next(s, t, a).value, db0)
  {
    if a.Advance? && s.txs[t].pc.Committing? {
      CommitExplained(s, t, db0);
    } else {
      UncommittedStepOk(s, t, a);
      LocalKeepsOthers(s, Next(s, t, a).value, t);
    }
  }

  /** Any interleaving: which transaction moves, and how. */
  type Schedule = seq<(Tid, Action)>

  /** The state a schedule leads to, or nothing if it moves a transaction that has to wait. */
  ghost function Play(s: System, run: Schedule): Option<System>
    decreases |run|
  {
    if run == [] then Some(s)
    else
      var next := Next(s, run[0].0, run[0].1);
      if next.None? then None else Play(next.value, run[1..])
  }

  lemma {:induction false} EveryScheduleIsExplained(s: System, run: Schedule, db0: Db)
    requires Explained(s, db0) && Play(s, run).Some?
    ensures Explained(Play(s, run).value, db0)
    decreases |run|
  {
    if run != [] {
      StepExplained(s, run[0].0, run[0].1, db0);
      EveryScheduleIsExplained(Next(s, run[0].0, run[0].1).value, run[1..], db0);
    }
  }

  /** Under every interleaving, rollback and process death included: each committed state has
      `reserved` equal to the sum of the live holds, and no hold is ever returned twice. */
  lemma NoInterleavingReturnsAHoldTwice(db: Db, run: Schedule)
    requires Play(Start(db), run).Some? && Balanced(db.books)
    ensures var s := Play(Start(db), run).value;
            && LegalRun(db.books, s.log)
            && Balanced(s.db.books)
            && forall id :: Count(Live(db.books, id)) + Holds(s.log, id) ==
                            ReturnCount(db.books, s.log, id) + Count(Live(s.db.books, id))
  {
    var s := Play(Start(db), run).value;
    EveryScheduleIsExplained(Start(db), run, db);
    ReservedIsSumOfLiveHolds(db.books, s.log);
    forall id
      ensures Count(Live(db.books, id)) + Holds(s.log, id) ==
              ReturnCount(db.books, s.log, id) + Count(Live(s.db.books, id))
    {
      HoldsReturnedOnce(db.books, s.log, id);
    }
  }

  /** Under every interleaving, the limit is passed by no more than the recorded overrun. */
  lemma NoInterleavingPassesTheLimitUnrecorded(db: Db, run: Schedule)
    requires Play(Start(db), run).Some? && NonNegativeRows(db.books.rows) && WithinLimit(db.books, 0)
    ensures var s := Play(Start(db), run).value;
            && LegalRun(db.books, s.log)
            && WithinLimit(s.db.books, Overrun(db.books, s.log))
            && (Covered(db.books, s.log) ==> WithinLimit(s.db.books, 0))
  {
    var s := Play(Start(db), run).value;
    EveryScheduleIsExplained(Start(db), run, db);
    LimitPlusOverrun(db.books, s.log);
    if Covered(db.books, s.log) {
      CoveredHasNoOverrun(db.books, s.log);
    }
  }

  /** Under every interleaving, spending is the cost ledger's total plus exactly the settlements the
      cost ledger refused to record; and it refuses none unless a re-hold has overwritten a settled
      row. */
  lemma SpendingUnderEveryInterleaving(db: Db, run: Schedule)
    requires Play(Start(db), run).Some? && db.books.totals.Some? && OneRowPerSettlement(db.books, db.costs)
    ensures var s := Play(Start(db), run).value;
            && s.db.books.totals.Some? && LegalRun(db.books, s.log)
            && Spent(s.db.books) - Spent(db.books) ==
               Sum(s.db.costs) - Sum(db.costs) + Unrecorded(db.costs, s.log)
            && (CleanRun(db.books, s.log) ==>
                  Unrecorded(db.costs, s.log) == 0 && OneRowPerSettlement(s.db.books, s.db.costs))
  {
    var s := Play(Start(db), run).value;
    EveryScheduleIsExplained(Start(db), run, db);
    SpentIsRecordedPlusUnrecorded(db.books, s.log, db.costs);
    if CleanRun(db.books, s.log) {
      CleanRunsRecordEverything(db.books, s.log, db.costs);
    }
  }
}
