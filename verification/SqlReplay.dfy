/** Whole schedules of statements against whole transactions, one after the other in the order they commit. */
module SqlReplay {
  import opened Ledger
  import opened SqlLedger
  import opened SharedLedger
  import opened SqlConcurrency
  import opened SqlInterleavings
  import opened SqlSerial

  // ---------------------------------------------------------------- what has been committed

  /** The next step is a commit that changes the tables. */
  predicate Effective(s: System, t: Tid, a: Action) {
    a.Advance? && t in s.txs && s.txs[t].pc.Committing? && Staged(s.txs[t]).Some?
  }

  /** The operation a committing transaction turns out to be: a sweep is one that found locked whatever it did not
      take. */
  function Performed(s: System, t: Tid): Op
    requires t in s.txs
  {
    var op := s.txs[t].op;
    if op.Reconcile? then op.(locked := Due(s.db.books.rows, op.olderThan, {}) - s.txs[t].rows.Keys) else op
  }

  datatype Commitment = Commitment(op: Op, result: Outcome)

  /** What a schedule commits, with the answers given, in order. */
  ghost function CommitsOf(s: System, run: Schedule): seq<Commitment>
    requires Play(s, run).Some?
    decreases |run|
  {
    if run == [] then []
    else
      var t := run[0].0;
      (if Effective(s, t, run[0].1) then [Commitment(Performed(s, t), s.txs[t].pc.result)] else []) +
      CommitsOf(Next(s, t, run[0].1).value, run[1..])
  }

  function OpsOf(cs: seq<Commitment>): seq<Op> {
    seq(|cs|, i requires 0 <= i < |cs| => cs[i].op)
  }

  /** Each operation, run where it stands, answers what its transaction answered. */
  ghost predicate Told(db: Db, cs: seq<Commitment>)
    decreases |cs|
  {
    cs == [] || (Decide(db, cs[0].op).1 == cs[0].result && Told(After(db, cs[0].op), cs[1..]))
  }

  // ---------------------------------------------------------------- answers

  /** What a transaction that has something to commit is about to answer. */
  function Announced(tx: Tx): Outcome {
    match tx.op
    case Reserve(_, cost, _) => Granted(cost)
    case Settle(_, _) => Outcome.Done
    case Release(_) => Outcome.Done
    case Reconcile(_, _) => Reclaimed(|tx.rows.Keys|)
  }

  ghost predicate Announces(s: System, t: Tid)
    requires t in s.txs
  {
    s.txs[t].pc.Committing? && s.txs[t].rows != map[] ==> s.txs[t].pc.result == Announced(s.txs[t])
  }

  ghost predicate AllAnnounce(s: System) {
    forall t :: t in s.txs ==> Announces(s, t)
  }

  lemma ReserveAnnounces(s: System, t: Tid)
    requires t in s.txs && TxOk(s, t) && s.txs[t].op.Reserve? && ReserveStep(s, t, s.txs[t]).Some?
    ensures Announces(ReserveStep(s, t, s.txs[t]).value, t)
  {
  }

  lemma SettleAnnounces(s: System, t: Tid)
    requires t in s.txs && TxOk(s, t) && s.txs[t].op.Settle? && SettleStep(s, t, s.txs[t]).Some?
    ensures Announces(SettleStep(s, t, s.txs[t]).value, t)
  {
  }

  lemma ReleaseAnnounces(s: System, t: Tid)
    requires t in s.txs && TxOk(s, t) && s.txs[t].op.Release? && ReleaseStep(s, t, s.txs[t]).Some?
    ensures Announces(ReleaseStep(s, t, s.txs[t]).value, t)
  {
  }

  lemma ReconcileAnnounces(s: System, t: Tid)
    requires t in s.txs && TxOk(s, t) && s.txs[t].op.Reconcile? && ReconcileStep(s, t, s.txs[t]).Some?
    ensures Announces(ReconcileStep(s, t, s.txs[t]).value, t)
  {
  }

  lemma StatementAnnounces(s: System, t: Tid, a: Action)
    requires Good(s) && Next(s, t, a).Some? && t in Next(s, t, a).value.txs && (t in s.txs ==> Announces(s, t))
    ensures Announces(Next(s, t, a).value, t)
  {
    if a.Advance? && !s.txs[t].pc.Committing? {
      assert TxOk(s, t);
      match s.txs[t].op
      case Reserve(_, _, _) => ReserveAnnounces(s, t);
      case Settle(_, _) => SettleAnnounces(s, t);
      case Release(_) => ReleaseAnnounces(s, t);
      case Reconcile(_, _) => ReconcileAnnounces(s, t);
    }
  }

  lemma StepAnnounces(s: System, t: Tid, a: Action)
    requires Good(s) && AllAnnounce(s) && Next(s, t, a).Some?
    ensures AllAnnounce(Next(s, t, a).value)
  {
    var n := Next(s, t, a).value;
    OthersUntouched(s, t, a);
    forall u | u in n.txs ensures Announces(n, u) {
      if u == t {
        StatementAnnounces(s, t, a);
      } else {
        assert n.txs[u] == s.txs[u];
      }
    }
  }

  lemma OthersUntouched(s: System, t: Tid, a: Action)
    requires Good(s) && Next(s, t, a).Some?
    ensures forall u :: u != t ==> (u in Next(s, t, a).value.txs <==> u in s.txs)
    ensures forall u :: u != t && u in s.txs ==> Next(s, t, a).value.txs[u] == s.txs[u]
  {
    if !(a.Advance? && s.txs[t].pc.Committing?) {
      UncommittedStepOk(s, t, a);
    }
  }

  // ---------------------------------------------------------------- a clean commit is its operation

  lemma SweepIsPerformed(s: System, t: Tid)
    requires t in s.txs && TxOk(s, t) && s.txs[t].pc.Committing? && s.txs[t].op.Reconcile? && s.txs[t].rows != map[]
    ensures Decide(s.db, Performed(s, t)) == (Staged(s.txs[t]), Reclaimed(|s.txs[t].rows.Keys|))
  {
    var tx, rows := s.txs[t], s.db.books.rows;
    var ids := tx.rows.Keys;
    assert Due(rows, tx.op.olderThan, Performed(s, t).locked) == ids;
    assert Estimates(tx.rows, ids) == Estimates(rows, ids);
    var id :| id in tx.rows;
    assert ids != {};
  }

  lemma CommitIsItsOperation(s: System, t: Tid)
    requires t in s.txs && TxOk(s, t) && Announces(s, t) && Effective(s, t, Advance)
    requires Clean(s.db.books, Staged(s.txs[t]).value)
    ensures Decide(s.db, Performed(s, t)) == (Staged(s.txs[t]), s.txs[t].pc.result)
    ensures CommitStep(s, t, s.txs[t]).db == After(s.db, Performed(s, t))
    ensures CommitStep(s, t, s.txs[t]).log == s.log + [Staged(s.txs[t]).value]
  {
    CommitIsOneEffect(s, t);
    if s.txs[t].op.Reconcile? {
      SweepIsPerformed(s, t);
    } else {
      CommitsSerially(s, t);
    }
  }

  // ---------------------------------------------------------------- clean schedules

  /** No hold of the schedule lands on a settled row. */
  ghost predicate AlwaysClean(s: System, run: Schedule)
    requires Play(s, run).Some?
    decreases |run|
  {
    run == [] ||
    (&& (Effective(s, run[0].0, run[0].1) ==> Clean(s.db.books, Staged(s.txs[run[0].0]).value))
     && AlwaysClean(Next(s, run[0].0, run[0].1).value, run[1..]))
  }

  lemma StepLog(s: System, t: Tid, a: Action)
    requires Good(s) && Next(s, t, a).Some?
    ensures Next(s, t, a).value.log == if Effective(s, t, a) then s.log + [Staged(s.txs[t]).value] else s.log
    ensures !Effective(s, t, a) ==> Next(s, t, a).value.db == s.db
  {
    if a.Advance? && s.txs[t].pc.Committing? {
      assert TxOk(s, t);
      CommitIsOneEffect(s, t);
    } else {
      UncommittedStepOk(s, t, a);
    }
  }

  lemma {:induction false} CleanLogs(s: System, run: Schedule, db0: Db)
    requires Explained(s, db0) && Play(s, run).Some? && LegalRun(db0.books, Play(s, run).value.log)
    ensures CleanRun(db0.books, Play(s, run).value.log) <==> CleanRun(db0.books, s.log) && AlwaysClean(s, run)
    decreases |run|
  {
    if run != [] {
      var t, a := run[0].0, run[0].1;
      StepExplained(s, t, a, db0);
      StepLog(s, t, a);
      if Effective(s, t, a) {
        assert TxOk(s, t);
        CommitIsOneEffect(s, t);
        RunExtends(db0.books, s.log, Staged(s.txs[t]).value);
      }
      CleanLogs(Next(s, t, a).value, run[1..], db0);
    }
  }

  // ---------------------------------------------------------------- replaying

  lemma {:induction false} EffectsJoin(db: Db, a: seq<Op>, b: seq<Op>)
    ensures Effects(db, a + b) == Effects(db, a) + Effects(Run(db, a), b)
  {
    if b == [] {
      assert a + b == a;
    } else {
      assert (a + b)[..|a + b| - 1] == a + b[..|b| - 1];
      RunJoins(db, a, b[..|b| - 1]);
      EffectsJoin(db, a, b[..|b| - 1]);
    }
  }

  /** One operation first. */
  lemma RunFromTheFront(db: Db, op: Op, ops: seq<Op>)
    ensures Run(db, [op] + ops) == Run(After(db, op), ops)
    ensures Effects(db, [op] + ops) ==
            (if Decide(db, op).0.Some? then [Decide(db, op).0.value] else []) + Effects(After(db, op), ops)
  {
    RunJoins(db, [op], ops);
    EffectsJoin(db, [op], ops);
    assert [op][..0] == [];
  }

  lemma {:induction false} CleanSchedulesReplay(s: System, run: Schedule, db0: Db)
    requires Explained(s, db0) && AllAnnounce(s) && Play(s, run).Some? && AlwaysClean(s, run)
    ensures var end, cs := Play(s, run).value, CommitsOf(s, run);
            Told(s.db, cs) && Run(s.db, OpsOf(cs)) == end.db && end.log == s.log + Effects(s.db, OpsOf(cs))
    decreases |run|
  {
    if run == [] {
      assert s.log + [] == s.log;
    } else {
      var t, a := run[0].0, run[0].1;
      var n := Next(s, t, a).value;
      var rest := CommitsOf(n, run[1..]);
      StepExplained(s, t, a, db0);
      StepAnnounces(s, t, a);
      StepLog(s, t, a);
      CleanSchedulesReplay(n, run[1..], db0);
      if Effective(s, t, a) {
        var first := Commitment(Performed(s, t), s.txs[t].pc.result);
        assert TxOk(s, t) && Announces(s, t);
        CommitIsItsOperation(s, t);
        ReplayGrows(s, first, rest, Staged(s.txs[t]).value, n);
        assert CommitsOf(s, run) == [first] + rest;
      } else {
        assert CommitsOf(s, run) == [] + rest == rest;
      }
    }
  }

  lemma ToldGrows(db: Db, first: Commitment, rest: seq<Commitment>, now: Db)
    requires Decide(db, first.op).1 == first.result && now == After(db, first.op) && Told(now, rest)
    ensures Told(db, [first] + rest) && OpsOf([first] + rest) == [first.op] + OpsOf(rest)
  {
    assert ([first] + rest)[1..] == rest;
  }

  lemma LogGrows(log: seq<Effect>, e: Effect, more: seq<Effect>)
    ensures log + ([e] + more) == (log + [e]) + more
  {
  }

  lemma ReplayGrows(s: System, first: Commitment, rest: seq<Commitment>, e: Effect, n: System)
    requires Decide(s.db, first.op) == (Some(e), first.result) && n.db == After(s.db, first.op) && n.log == s.log + [e]
    requires Told(n.db, rest)
    ensures var cs := [first] + rest;
            && Told(s.db, cs) && Run(s.db, OpsOf(cs)) == Run(n.db, OpsOf(rest))
            && s.log + Effects(s.db, OpsOf(cs)) == n.log + Effects(n.db, OpsOf(rest))
  {
    ToldGrows(s.db, first, rest, n.db);
    RunFromTheFront(s.db, first.op, OpsOf(rest));
    LogGrows(s.log, e, Effects(n.db, OpsOf(rest)));
  }

  /** A schedule's committed operations, run whole and one after the other in commit order, leave its tables, its
      effects and its answers exactly if no hold landed on a settled row: so whatever is proved of `Run` holds of every
      such schedule. */
  lemma SchedulesReplayExactly(db: Db, run: Schedule)
    requires Play(Start(db), run).Some?
    ensures var s, cs := Play(Start(db), run).value, CommitsOf(Start(db), run);
            && LegalRun(db.books, s.log)
            && (CleanRun(db.books, s.log) <==>
                  Told(db, cs) && Run(db, OpsOf(cs)) == s.db && Effects(db, OpsOf(cs)) == s.log)
  {
    var s, cs := Play(Start(db), run).value, CommitsOf(Start(db), run);
    EveryScheduleIsExplained(Start(db), run, db);
    CleanLogs(Start(db), run, db);
    if CleanRun(db.books, s.log) {
      CleanSchedulesReplay(Start(db), run, db);
      assert [] + Effects(db, OpsOf(cs)) == Effects(db, OpsOf(cs));
    } else {
      RunsAreLedgerRuns(db, OpsOf(cs));
    }
  }

  lemma {:induction false} EveryScheduleAnnounces(s: System, run: Schedule, db0: Db)
    requires Explained(s, db0) && AllAnnounce(s) && Play(s, run).Some?
    ensures Explained(Play(s, run).value, db0) && AllAnnounce(Play(s, run).value)
    decreases |run|
  {
    if run != [] {
      StepExplained(s, run[0].0, run[0].1, db0);
      StepAnnounces(s, run[0].0, run[0].1);
      EveryScheduleAnnounces(Next(s, run[0].0, run[0].1).value, run[1..], db0);
    }
  }

  /** The same of any stretch of a schedule, whatever went before and whoever is still open at either end. */
  lemma StretchesReplay(db: Db, before: Schedule, run: Schedule)
    requires Play(Start(db), before).Some? && Play(Play(Start(db), before).value, run).Some?
    requires AlwaysClean(Play(Start(db), before).value, run)
    ensures var s := Play(Start(db), before).value;
            Told(s.db, CommitsOf(s, run)) && Run(s.db, OpsOf(CommitsOf(s, run))) == Play(s, run).value.db
  {
    EveryScheduleAnnounces(Start(db), before, db);
    CleanSchedulesReplay(Play(Start(db), before).value, run, db);
  }
}
