/** One request's transactions among everybody else's: between any two of its own, other requests of the same
    organization may run any number of theirs. */
module SharedLedger {
  import opened Ledger
  import opened SqlLedger

  /** What stands between a request and its next transaction: the transactions others get in first, and whether
      the store then answers. */
  datatype Moment = Moment(others: seq<Op>, up: bool)

  function With(m: Moment, op: Op): seq<Op> {
    m.others + if m.up then [op] else []
  }

  ghost function Answer(db: Db, m: Moment, op: Op): Outcome {
    if m.up then Decide(Run(db, m.others), op).1 else Unavailable
  }

  lemma {:induction false} RunJoins(db: Db, a: seq<Op>, b: seq<Op>)
    ensures Run(db, a + b) == Run(Run(db, a), b)
  {
    if b == [] {
      assert a + b == a;
    } else {
      assert (a + b)[..|a + b| - 1] == a + b[..|b| - 1];
      RunJoins(db, a, b[..|b| - 1]);
    }
  }

  lemma RunWith(db: Db, m: Moment, op: Op)
    ensures Run(db, With(m, op)) == if m.up then After(Run(db, m.others), op) else Run(db, m.others)
  {
    if m.up {
      assert (m.others + [op])[..|m.others|] == m.others;
    } else {
      assert m.others + [] == m.others;
    }
  }

  // ---------------------------------------------------------------- leaving an id alone

  predicate Names(op: Op, id: Id) {
    !op.Reconcile? && op.id == id
  }

  /** Nobody else uses the id; a sweep may still expire its hold. */
  predicate LeavesAlone(ops: seq<Op>, id: Id) {
    forall i :: 0 <= i < |ops| ==> !Names(ops[i], id)
  }

  /** The id's row is where it was, or was live and has been expired by a sweep. */
  predicate AtMostExpired(was: Db, now: Db, id: Id) {
    && (id in now.books.rows <==> id in was.books.rows)
    && (id in was.books.rows ==>
          now.books.rows[id] == was.books.rows[id] ||
          (Live(was.books, id) && now.books.rows[id] == was.books.rows[id].(status := Expired)))
    && (id in now.costs <==> id in was.costs)
    && (id in was.costs ==> now.costs[id] == was.costs[id])
  }

  lemma OtherStep(db: Db, op: Op, id: Id)
    requires !Names(op, id)
    ensures AtMostExpired(db, After(db, op), id)
  {
  }

  lemma {:induction false} OthersLeaveTheRow(db: Db, ops: seq<Op>, id: Id)
    requires LeavesAlone(ops, id)
    ensures AtMostExpired(db, Run(db, ops), id)
  {
    if ops != [] {
      OthersLeaveTheRow(db, ops[..|ops| - 1], id);
      OtherStep(Run(db, ops[..|ops| - 1]), ops[|ops| - 1], id);
    }
  }

  // ---------------------------------------------------------------- a hold is returned once, in any run

  predicate NeverReserves(ops: seq<Op>, id: Id) {
    forall i :: 0 <= i < |ops| ==> !(ops[i].Reserve? && ops[i].id == id)
  }

  lemma OnlyReservesHold(db: Db, op: Op, id: Id)
    requires !(op.Reserve? && op.id == id)
    ensures var e := Decide(db, op).0; !(e.Some? && e.value.Hold? && e.value.id == id)
  {
  }

  lemma HoldsExtends(es: seq<Effect>, e: Effect, id: Id)
    ensures Holds(es + [e], id) == Holds(es, id) + Count(e.Hold? && e.id == id)
  {
    assert (es + [e])[..|es + [e]| - 1] == es;
  }

  lemma {:induction false} NoReserveNoHold(db: Db, ops: seq<Op>, id: Id)
    requires NeverReserves(ops, id)
    ensures Holds(Effects(db, ops), id) == 0
  {
    if ops != [] {
      var before, op := ops[..|ops| - 1], ops[|ops| - 1];
      NoReserveNoHold(db, before, id);
      OnlyReservesHold(Run(db, before), op, id);
      var es, e := Effects(db, before), Decide(Run(db, before), op).0;
      if e.Some? {
        HoldsExtends(es, e.value, id);
        assert Effects(db, ops) == es + [e.value];
      } else {
        assert Effects(db, ops) == es;
      }
    }
  }

  /** Once a hold is live, whatever transactions follow return it once if it is gone at the end, else not at all. */
  lemma HoldReturnedOnceOrStillLive(db: Db, ops: seq<Op>, id: Id)
    requires NeverReserves(ops, id) && Live(db.books, id)
    ensures LegalRun(db.books, Effects(db, ops))
    ensures ReturnCount(db.books, Effects(db, ops), id) == if Live(Run(db, ops).books, id) then 0 else 1
  {
    RunsAreLedgerRuns(db, ops);
    NoReserveNoHold(db, ops, id);
    HoldsReturnedOnce(db.books, Effects(db, ops), id);
  }

  // ---------------------------------------------------------------- running them

  /** Other requests' transactions, one after the other. */
  method Elsewhere(ledger: SqlBudgetLedger, ops: seq<Op>)
    modifies ledger
    ensures ledger.Tables() == Run(old(ledger.Tables()), ops)
  {
    for i := 0 to |ops|
      invariant ledger.Tables() == Run(old(ledger.Tables()), ops[..i])
    {
      assert ops[..i + 1][..i] == ops[..i];
      var _ := Perform(ledger, ops[i]);
    }
    assert ops[..|ops|] == ops;
  }

  method Perform(ledger: SqlBudgetLedger, op: Op) returns (outcome: Outcome)
    modifies ledger
    ensures outcome == Decide(old(ledger.Tables()), op).1
    ensures ledger.Tables() == After(old(ledger.Tables()), op)
  {
    match op
    case Reserve(id, cost, now) => outcome := ledger.Reserve(true, id, cost, now);
    case Settle(id, cost) => outcome := ledger.Settle(true, id, cost);
    case Release(id) => outcome := ledger.Release(true, id);
    case Reconcile(olderThan, locked) => outcome := ledger.ReconcileExpired(true, olderThan, locked);
  }

  /** One of the request's own transactions, once the others that get in first are through. */
  method Call(ledger: SqlBudgetLedger, m: Moment, op: Op) returns (outcome: Outcome)
    modifies ledger
    ensures outcome == Answer(old(ledger.Tables()), m, op)
    ensures ledger.Tables() == Run(old(ledger.Tables()), With(m, op))
  {
    RunWith(ledger.Tables(), m, op);
    Elsewhere(ledger, m.others);
    if !m.up { return Unavailable; }
    outcome := Perform(ledger, op);
  }
}
