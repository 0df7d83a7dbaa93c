/** Exactly which schedules book a hold on a settled row: those in which a settlement commits between the read and the
    commit of a reserve of the same id. */
module SqlOvertaking {
  import opened Ledger
  import opened SqlLedger
  import opened SqlConcurrency
  import opened SqlInterleavings
  import opened SqlSerial
  import opened SqlReplay

  /** An open reserve that has read its row and is on its way to hold. */
  predicate Holding(s: System, t: Tid) {
    && t in s.txs && s.txs[t].op.Reserve?
    && (s.txs[t].pc.RvBudget? || s.txs[t].pc.RvGuard? || s.txs[t].pc.RvHold? ||
        (s.txs[t].pc.Committing? && s.txs[t].rows != map[]))
  }

  /** The transaction now open under `t` goes on to commit. */
  ghost predicate CommitsLater(s: System, run: Schedule, t: Tid)
    requires Play(s, run).Some?
    decreases |run|
  {
    run != [] &&
    if run[0].0 != t then CommitsLater(Next(s, run[0].0, run[0].1).value, run[1..], t)
    else Effective(s, t, run[0].1) || (Stays(s, t, run[0].1) && CommitsLater(Next(s, t, run[0].1).value, run[1..], t))
  }

  /** `t` is still the same open transaction after its own step. */
  ghost predicate Stays(s: System, t: Tid, a: Action)
    requires Next(s, t, a).Some?
  {
    t in s.txs && !s.txs[t].pc.Closed? && t in Next(s, t, a).value.txs && !Next(s, t, a).value.txs[t].pc.Closed?
  }

  /** A settlement commits now, under an id that an open reserve has read and will hold. */
  ghost predicate Overtakes(s: System, t: Tid, a: Action, rest: Schedule)
    requires Next(s, t, a).Some? && Play(Next(s, t, a).value, rest).Some?
  {
    && Effective(s, t, a) && s.txs[t].op.Settle?
    && exists u :: Holding(s, u) && s.txs[u].op.id == s.txs[t].op.id && CommitsLater(Next(s, t, a).value, rest, u)
  }

  ghost predicate Overtaken(s: System, run: Schedule)
    requires Play(s, run).Some?
    decreases |run|
  {
    run != [] &&
    (Overtakes(s, run[0].0, run[0].1, run[1..]) || Overtaken(Next(s, run[0].0, run[0].1).value, run[1..]))
  }

  /** An open reserve already overtaken goes on to commit. */
  ghost predicate Doomed(s: System, run: Schedule, u: Tid)
    requires Play(s, run).Some?
  {
    Holding(s, u) && IsCommitted(s.db.books, s.txs[u].op.id) && CommitsLater(s, run, u)
  }

  // ---------------------------------------------------------------- one step

  /** Another transaction's step leaves a holding reserve holding, and a settled row under its key settled. */
  lemma OthersLeaveItHolding(s: System, t: Tid, a: Action, u: Tid)
    requires Good(s) && Next(s, t, a).Some? && t != u
    ensures var n := Next(s, t, a).value;
            && (Holding(n, u) <==> Holding(s, u))
            && (Holding(s, u) ==> n.txs[u] == s.txs[u])
            && (Holding(s, u) ==>
                  (IsCommitted(n.db.books, s.txs[u].op.id) <==>
                   IsCommitted(s.db.books, s.txs[u].op.id) ||
                   (Effective(s, t, a) && s.txs[t].op.Settle? && s.txs[t].op.id == s.txs[u].op.id)))
  {
    OthersUntouched(s, t, a);
    StepLog(s, t, a);
    if Effective(s, t, a) && Holding(s, u) {
      assert TxOk(s, t) && TxOk(s, u);
    }
  }

  lemma ReservesBeginUnsettled(s: System, t: Tid)
    requires t in s.txs && TxOk(s, t) && s.txs[t].op.Reserve? && !s.txs[t].pc.Committing?
    requires ReserveStep(s, t, s.txs[t]).Some?
    ensures var n := ReserveStep(s, t, s.txs[t]).value;
            && t in n.txs && n.txs[t].op == s.txs[t].op
            && (Holding(n, t) && !Holding(s, t) ==> !IsCommitted(s.db.books, s.txs[t].op.id))
            && (Holding(s, t) ==> Holding(n, t) || n.txs[t].pc.Closed?)
  {
    var n := ReserveStep(s, t, s.txs[t]).value;
    if s.txs[t].pc.RvHold? && !n.txs[t].pc.Closed? {
      assert s.txs[t].op.id in n.txs[t].rows;
    }
  }

  lemma ClosingEndsTheHolding(s: System, t: Tid, a: Action)
    requires Good(s) && Next(s, t, a).Some? && !Effective(s, t, a)
    requires a.Advance? ==> t in s.txs && s.txs[t].pc.Committing?
    requires !a.Sweep?
    ensures !Holding(Next(s, t, a).value, t)
    ensures Holding(s, t) ==> t in Next(s, t, a).value.txs && Next(s, t, a).value.txs[t].pc.Closed?
  {
  }

  lemma OthersBeginNothing(s: System, t: Tid, a: Action)
    requires Good(s) && Next(s, t, a).Some? && (a.Advance? || a.Sweep?)
    requires t in s.txs && !s.txs[t].pc.Committing? && (a.Advance? ==> !s.txs[t].op.Reserve?)
    ensures !Holding(Next(s, t, a).value, t) && !Holding(s, t)
  {
    assert TxOk(s, t);
    UncommittedStepOk(s, t, a);
  }

  /** Its own step: a reserve begins to hold only on a row that is not settled. */
  lemma HoldsWhatIsNotSettled(s: System, t: Tid, a: Action)
    requires Good(s) && Next(s, t, a).Some? && !Effective(s, t, a)
    ensures var n := Next(s, t, a).value;
            && n.db == s.db
            && (Holding(n, t) && !Holding(s, t) ==> !IsCommitted(n.db.books, n.txs[t].op.id))
            && (Holding(n, t) && Holding(s, t) ==> n.txs[t].op == s.txs[t].op && Stays(s, t, a))
            && (Holding(s, t) && Stays(s, t, a) ==> Holding(n, t))
  {
    StepLog(s, t, a);
    if a.Advance? && t in s.txs && s.txs[t].op.Reserve? && !s.txs[t].pc.Committing? {
      assert TxOk(s, t);
      ReservesBeginUnsettled(s, t);
    } else if (a.Advance? && !s.txs[t].pc.Committing?) || a.Sweep? {
      OthersBeginNothing(s, t, a);
    } else {
      ClosingEndsTheHolding(s, t, a);
    }
  }

  // ---------------------------------------------------------------- a whole schedule

  /** The next step would book a hold on a settled row. */
  ghost predicate Unclean(s: System, t: Tid, a: Action) {
    Effective(s, t, a) && !Clean(s.db.books, Staged(s.txs[t]).value)
  }

  lemma UncleanIsDoomed(s: System, run: Schedule)
    requires Good(s) && Play(s, run).Some? && run != [] && Unclean(s, run[0].0, run[0].1)
    ensures Doomed(s, run, run[0].0)
  {
    var t := run[0].0;
    assert TxOk(s, t);
    CommitsSerially(s, t);
  }

  lemma DoomedStaysDoomed(s: System, run: Schedule, u: Tid)
    requires Good(s) && Play(s, run).Some? && run != [] && !Unclean(s, run[0].0, run[0].1) && Doomed(s, run, u)
    ensures Doomed(Next(s, run[0].0, run[0].1).value, run[1..], u)
  {
    var t, a := run[0].0, run[0].1;
    assert TxOk(s, u);
    if t == u {
      if Effective(s, t, a) {
        CommitsSerially(s, t);
        assert false;
      }
      HoldsWhatIsNotSettled(s, t, a);
    } else {
      OthersLeaveItHolding(s, t, a, u);
    }
  }

  lemma DoomedWasOvertaken(s: System, run: Schedule, u: Tid)
    requires Good(s) && Play(s, run).Some? && run != []
    requires Doomed(Next(s, run[0].0, run[0].1).value, run[1..], u)
    ensures Doomed(s, run, u) || Overtakes(s, run[0].0, run[0].1, run[1..])
  {
    var t, a := run[0].0, run[0].1;
    if t == u {
      HoldsWhatIsNotSettled(s, t, a);
    } else {
      OthersLeaveItHolding(s, t, a, u);
    }
  }

  lemma OvertakingDooms(s: System, run: Schedule) returns (u: Tid)
    requires Good(s) && Play(s, run).Some? && run != [] && Overtakes(s, run[0].0, run[0].1, run[1..])
    ensures Doomed(Next(s, run[0].0, run[0].1).value, run[1..], u)
  {
    var t, a := run[0].0, run[0].1;
    u :| Holding(s, u) && s.txs[u].op.id == s.txs[t].op.id && CommitsLater(Next(s, t, a).value, run[1..], u);
    OthersLeaveItHolding(s, t, a, u);
  }

  lemma {:induction false} CleanUnlessDoomed(s: System, run: Schedule, db0: Db)
    requires Explained(s, db0) && Play(s, run).Some?
    ensures AlwaysClean(s, run) <==> !Overtaken(s, run) && forall u :: !Doomed(s, run, u)
    decreases |run|
  {
    if run != [] {
      var t, a, rest := run[0].0, run[0].1, run[1..];
      var n := Next(s, t, a).value;
      StepExplained(s, t, a, db0);
      CleanUnlessDoomed(n, rest, db0);
      if Unclean(s, t, a) {
        UncleanIsDoomed(s, run);
      } else {
        if Overtakes(s, t, a, rest) {
          var u := OvertakingDooms(s, run);
        }
        forall u | Doomed(s, run, u) ensures Doomed(n, rest, u) {
          DoomedStaysDoomed(s, run, u);
        }
        forall u | Doomed(n, rest, u) ensures Doomed(s, run, u) || Overtakes(s, t, a, rest) {
          DoomedWasOvertaken(s, run, u);
        }
      }
    }
  }

  /** A schedule's log is clean, and its committed operations replay one after the other, exactly if no settlement
      commits between the read and the commit of a reserve of the same id. */
  lemma CleanExactlyUnlessOvertaken(db: Db, run: Schedule)
    requires Play(Start(db), run).Some?
    ensures var s, cs := Play(Start(db), run).value, CommitsOf(Start(db), run);
            && LegalRun(db.books, s.log)
            && (CleanRun(db.books, s.log) <==> !Overtaken(Start(db), run))
            && (Told(db, cs) && Run(db, OpsOf(cs)) == s.db && Effects(db, OpsOf(cs)) == s.log <==>
                  !Overtaken(Start(db), run))
  {
    SchedulesReplayExactly(db, run);
    CleanLogs(Start(db), run, db);
    CleanUnlessDoomed(Start(db), run, db);
    forall u ensures !Doomed(Start(db), run, u) {
    }
  }
}
