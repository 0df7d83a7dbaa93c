/** How far the two ledgers agree, and what reclaiming stale holds does in each. */
module LedgerParity {
  import opened MapSums
  import opened Ledger
  import opened SqlLedger
  import opened InMemoryLedger

  // ---------------------------------------------------------------- one simulates the other

  /** Same budget, same totals, same reservations up to their age. */
  ghost predicate Alike(l: OrgLedger, db: Db) {
    && l.limit.Some? && l.limit.value.currency == db.currency
    && View(l).totals == db.books.totals
    && l.reservations.Keys == db.books.rows.Keys
    && forall id :: id in l.reservations ==>
         && l.reservations[id].status == db.books.rows[id].status
         && l.reservations[id].estimate == db.books.rows[id].estimate
         && l.reservations[id].estimate.currency == db.currency
  }

  /** The operations two single-currency ledgers can be compared on. */
  predicate Comparable(op: Op, currency: string) {
    NonNegativeCost(op) && ((op.Reserve? || op.Settle?) ==> op.cost.currency == currency)
  }

  /** Where they part: settling a released id, and a sweep whose cutoff falls between the two ages of a
      live hold or which finds one locked. */
  ghost predicate Diverges(l: OrgLedger, db: Db, op: Op) {
    match op
    case Settle(id, _) => id in l.reservations && l.reservations[id].status.Released?
    case Reconcile(olderThan, locked) => Stale(l.reservations, olderThan) != Due(db.books.rows, olderThan, locked)
    case _ => false
  }

  lemma AlikeHeld(l: OrgLedger, db: Db, ids: set<Id>)
    requires Alike(l, db) && ids <= l.reservations.Keys
    ensures Estimates(l.reservations, ids) == Estimates(db.books.rows, ids)
    ensures LiveEstimates(l.reservations) == LiveEstimates(db.books.rows)
  {
  }

  lemma SweepsAgree(l: OrgLedger, db: Db, olderThan: int, locked: set<Id>)
    requires Alike(l, db) && Consistent(db) && Stale(l.reservations, olderThan) == Due(db.books.rows, olderThan, locked)
    ensures MemDecide(l, Reconcile(olderThan, locked)).1 == Decide(db, Reconcile(olderThan, locked)).1
    ensures Alike(MemAfter(l, Reconcile(olderThan, locked)), After(db, Reconcile(olderThan, locked)))
  {
    ReclaimFitsTheTotal(db, olderThan, locked);
    AlikeHeld(l, db, Stale(l.reservations, olderThan));
  }

  /** A sweep expires what it finds stale and nothing else, in either ledger. */
  lemma SweptStatuses(l: OrgLedger, db: Db, olderThan: int, locked: set<Id>, id: Id)
    requires Consistent(db)
    ensures id in l.reservations ==>
              id in MemAfter(l, Reconcile(olderThan, locked)).reservations &&
              (MemAfter(l, Reconcile(olderThan, locked)).reservations[id].status.Expired? <==>
               l.reservations[id].status.Expired? || id in Stale(l.reservations, olderThan))
    ensures id in db.books.rows ==>
              id in After(db, Reconcile(olderThan, locked)).books.rows &&
              (After(db, Reconcile(olderThan, locked)).books.rows[id].status.Expired? <==>
               db.books.rows[id].status.Expired? || id in Due(db.books.rows, olderThan, locked))
  {
    ReclaimFitsTheTotal(db, olderThan, locked);
  }

  lemma AlikeSweepsFoundTheSame(l: OrgLedger, db: Db, olderThan: int, locked: set<Id>)
    requires Alike(l, db) && Consistent(db)
    requires Alike(MemAfter(l, Reconcile(olderThan, locked)), After(db, Reconcile(olderThan, locked)))
    ensures Stale(l.reservations, olderThan) == Due(db.books.rows, olderThan, locked)
  {
    forall id ensures id in Stale(l.reservations, olderThan) <==> id in Due(db.books.rows, olderThan, locked) {
      SweptStatuses(l, db, olderThan, locked, id);
    }
  }

  lemma ReconcileParity(l: OrgLedger, db: Db, olderThan: int, locked: set<Id>)
    requires Alike(l, db) && Consistent(db)
    ensures (MemDecide(l, Reconcile(olderThan, locked)).1 == Decide(db, Reconcile(olderThan, locked)).1 &&
             Alike(MemAfter(l, Reconcile(olderThan, locked)), After(db, Reconcile(olderThan, locked))))
            <==> Stale(l.reservations, olderThan) == Due(db.books.rows, olderThan, locked)
  {
    if Stale(l.reservations, olderThan) == Due(db.books.rows, olderThan, locked) {
      SweepsAgree(l, db, olderThan, locked);
    } else if Alike(MemAfter(l, Reconcile(olderThan, locked)), After(db, Reconcile(olderThan, locked))) {
      AlikeSweepsFoundTheSame(l, db, olderThan, locked);
    }
  }

  lemma SettleParity(l: OrgLedger, db: Db, id: Id, cost: Money)
    requires Alike(l, db) && Consistent(db) && Comparable(Settle(id, cost), db.currency)
    ensures (MemDecide(l, Settle(id, cost)).1 == Decide(db, Settle(id, cost)).1 &&
             Alike(MemAfter(l, Settle(id, cost)), After(db, Settle(id, cost))))
            <==> !(id in l.reservations && l.reservations[id].status.Released?)
  {
    ReturnFitsTheTotal(db, id);
  }

  lemma HoldParity(l: OrgLedger, db: Db, op: Op)
    requires Alike(l, db) && Consistent(db) && Comparable(op, db.currency) && (op.Reserve? || op.Release?)
    ensures MemDecide(l, op).1 == Decide(db, op).1 && Alike(MemAfter(l, op), After(db, op))
  {
    ReturnFitsTheTotal(db, op.id);
  }

  /** One operation gives the same answer and leaves the ledgers alike exactly when it is not one of the
      two exceptions. */
  lemma ParityExactlyWithoutDivergence(l: OrgLedger, db: Db, op: Op)
    requires Alike(l, db) && Consistent(db) && Comparable(op, db.currency)
    ensures (MemDecide(l, op).1 == Decide(db, op).1 && Alike(MemAfter(l, op), After(db, op)))
            <==> !Diverges(l, db, op)
  {
    match op
    case Reserve(_, _, _) => HoldParity(l, db, op);
    case Settle(id, cost) => SettleParity(l, db, id, cost);
    case Release(_) => HoldParity(l, db, op);
    case Reconcile(olderThan, locked) => ReconcileParity(l, db, olderThan, locked);
  }

  /** What each does where they part over a settlement: in memory a released id is settled and its cost spent; the
      tables do not know it any more, and stay as they are. */
  lemma SettlingAReleasedId(l: OrgLedger, db: Db, id: Id, cost: Money)
    requires Alike(l, db) && id in l.reservations && l.reservations[id].status.Released?
    ensures var l' := MemAfter(l, Settle(id, cost));
            && MemDecide(l, Settle(id, cost)).1.Done?
            && l'.reservations == l.reservations[id := l.reservations[id].(status := Committed)]
            && l'.spent == l.spent + cost.units && l'.reserved == l.reserved && l'.limit == l.limit
    ensures Decide(db, Settle(id, cost)).1.UnknownReservation? && After(db, Settle(id, cost)) == db
  {
  }

  ghost predicate NeverDiverges(l: OrgLedger, db: Db, ops: seq<Op>) {
    ops == [] ||
    (NeverDiverges(l, db, ops[..|ops| - 1]) &&
     !Diverges(MemRun(l, ops[..|ops| - 1]), Run(db, ops[..|ops| - 1]), ops[|ops| - 1]))
  }

  /** Two ledgers that start alike answer alike on every run that meets no exception. */
  lemma {:induction false} LedgersSimulateEachOther(l: OrgLedger, db: Db, ops: seq<Op>, next: Op)
    requires Alike(l, db) && Consistent(db) && NeverDiverges(l, db, ops + [next])
    requires Comparable(next, db.currency) && forall i :: 0 <= i < |ops| ==> Comparable(ops[i], db.currency)
    ensures Alike(MemRun(l, ops), Run(db, ops))
    ensures MemDecide(MemRun(l, ops), next).1 == Decide(Run(db, ops), next).1
  {
    assert (ops + [next])[..|ops|] == ops;
    if ops != [] {
      var before, op := ops[..|ops| - 1], ops[|ops| - 1];
      assert before + [op] == ops;
      LedgersSimulateEachOther(l, db, before, op);
      RunKeepsConsistent(db, before);
      RunsAreLedgerRuns(db, before);
      ParityExactlyWithoutDivergence(MemRun(l, before), Run(db, before), op);
    }
    RunKeepsConsistent(db, ops);
    RunsAreLedgerRuns(db, ops);
    ParityExactlyWithoutDivergence(MemRun(l, ops), Run(db, ops), next);
  }

  // ---------------------------------------------------------------- reclaiming

  /** A row after a sweep at `now`: expired if it was live and older than the TTL, else untouched. */
  function SweptRow(row: Row, now: int, ttl: int): Row {
    if row.status.Reserved? && now - row.createdAt > ttl then row.(status := Expired) else row
  }

  /** What a sweep at `now` does: exactly the live holds older than the TTL expire and are given back
      once, every other row is untouched, and a second sweep finds nothing. */
  lemma ReclaimIsExact(l: OrgLedger, now: int, ttl: int)
    requires l.limit.Some? && Balanced(View(l)) && ttl > 0
    ensures var l' := MemAfter(l, Reconcile(now - ttl, {}));
            && l'.reservations == (map id | id in l.reservations :: SweptRow(l.reservations[id], now, ttl))
            && l'.reserved == Held(l'.reservations)
            && l'.reserved == l.reserved - Sum(Estimates(l.reservations, Stale(l.reservations, now - ttl)))
            && l'.spent == l.spent && l'.limit == l.limit
            && MemAfter(l', Reconcile(now - ttl, {})) == l'
            && MemDecide(l', Reconcile(now - ttl, {})).1 == Reclaimed(0)
  {
    var sweep := Reconcile(now - ttl, {});
    var l' := MemAfter(l, sweep);
    MemStepIsEffect(l, sweep);
    var e := MemDecide(l, sweep).0;
    if e.Some? {
      EffectKeepsBalance(View(l), e.value);
    } else {
      assert Stale(l.reservations, now - ttl) == {};
      assert Estimates(l.reservations, {}) == map[];
    }
    assert forall id :: id in l.reservations ==> (id in Stale(l.reservations, now - ttl) <==>
             l.reservations[id].status.Reserved? && now - l.reservations[id].createdAt > ttl);
    assert Stale(l'.reservations, now - ttl) == {};
  }

  lemma SweepsWhatIsDue(db: Db, olderThan: int, locked: set<Id>)
    requires Consistent(db)
    ensures var due := Due(db.books.rows, olderThan, locked);
            var db' := After(db, Reconcile(olderThan, locked));
            && Decide(db, Reconcile(olderThan, locked)).1 == Reclaimed(|due|) && (due == {} ==> db' == db)
            && db'.books.rows == WithStatus(db.books.rows, due, Expired)
            && Spent(db'.books) == Spent(db.books) && db'.costs == db.costs
  {
    ReclaimFitsTheTotal(db, olderThan, locked);
    if Due(db.books.rows, olderThan, locked) == {} {
      assert WithStatus(db.books.rows, {}, Expired) == db.books.rows;
    }
  }

  lemma SweptRows(rows: map<Id, Row>, now: int, ttl: int, locked: set<Id>)
    ensures WithStatus(rows, Due(rows, now - ttl, locked), Expired) ==
            map id | id in rows :: if id in locked then rows[id] else SweptRow(rows[id], now, ttl)
  {
  }

  lemma NothingLeftToSweep(rows: map<Id, Row>, db: Db, olderThan: int, locked: set<Id>)
    requires Consistent(db) && db.books.rows == WithStatus(rows, Due(rows, olderThan, locked), Expired)
    ensures After(db, Reconcile(olderThan, locked)) == db && Decide(db, Reconcile(olderThan, locked)).1 == Reclaimed(0)
  {
    SweepsWhatIsDue(db, olderThan, locked);
    assert Due(db.books.rows, olderThan, locked) == {};
  }

  /** The same sweep over the tables, which skips the rows that other transactions have locked. */
  lemma SqlReclaimIsExact(db: Db, now: int, ttl: int, locked: set<Id>)
    requires Consistent(db) && ttl > 0
    ensures var sweep := Reconcile(now - ttl, locked);
            var db' := After(db, sweep);
            && db'.books.rows == (map id | id in db.books.rows ::
                 if id in locked then db.books.rows[id] else SweptRow(db.books.rows[id], now, ttl))
            && Consistent(db') && Spent(db'.books) == Spent(db.books) && db'.costs == db.costs
            && After(db', sweep) == db' && Decide(db', sweep).1 == Reclaimed(0)
  {
    StepKeepsConsistent(db, Reconcile(now - ttl, locked));
    SweepsWhatIsDue(db, now - ttl, locked);
    SweptRows(db.books.rows, now, ttl, locked);
    NothingLeftToSweep(db.books.rows, After(db, Reconcile(now - ttl, locked)), now - ttl, locked);
  }

  /** The units of the holds a sweep leaves: those no older than the lifetime, and those it finds locked. */
  function HoldsLeft(db: Db, now: int, ttl: int, locked: set<Id>): map<Id, int> {
    map id | id in db.books.rows && Live(db.books, id) && (now - db.books.rows[id].createdAt <= ttl || id in locked)
      :: db.books.rows[id].estimate.units
  }

  /** What a reservation is granted against: the limit less spending and less the live holds. */
  lemma GrantedExactly(db: Db, id: Id, cost: Money, now: int)
    requires Consistent(db) && db.books.totals.Some? && cost.currency == db.currency && cost.units >= 0
    ensures var outcome := Decide(db, Reserve(id, cost, now)).1;
            var replayed := IsCommitted(db.books, id) || Live(db.books, id);
            && (replayed ==> outcome == Granted(db.books.rows[id].estimate))
            && (outcome.Granted? <==>
                  replayed ||
                  cost.units <= db.books.totals.value.limit - Spent(db.books) - Sum(LiveEstimates(db.books.rows)))
  {
  }

  lemma GrantedAfterTheSweep(db: Db, swept: Db, id: Id, cost: Money, now: int, ttl: int, locked: set<Id>)
    requires Consistent(swept) && swept.books.totals.Some? && cost.currency == swept.currency && cost.units >= 0
    requires swept.books.rows == (map id | id in db.books.rows ::
               if id in locked then db.books.rows[id] else SweptRow(db.books.rows[id], now, ttl))
    ensures var outcome := Decide(swept, Reserve(id, cost, now)).1;
            var replayed := IsCommitted(db.books, id) || id in HoldsLeft(db, now, ttl, locked);
            && (replayed ==> outcome == Granted(db.books.rows[id].estimate))
            && (outcome.Granted? <==>
                  replayed ||
                  cost.units <=
                  swept.books.totals.value.limit - Spent(swept.books) - Sum(HoldsLeft(db, now, ttl, locked)))
  {
    assert LiveEstimates(swept.books.rows) == HoldsLeft(db, now, ttl, locked);
    GrantedExactly(swept, id, cost, now);
  }

  /** A reservation is decided after the sweep: an id that is settled, or whose hold the sweep leaves, is answered as
      before; for every other, new or known, only spending and the holds left stand in its way. Whatever crashed
      requests left behind is back in time, for their own retries too. */
  lemma CrashedHoldsAreBackInTime(db: Db, id: Id, cost: Money, now: int, ttl: int, locked: set<Id>)
    requires Consistent(db) && db.books.totals.Some? && ttl > 0
    requires cost.currency == db.currency && cost.units >= 0
    ensures var outcome := Decide(After(db, Reconcile(now - ttl, locked)), Reserve(id, cost, now)).1;
            var replayed := IsCommitted(db.books, id) || id in HoldsLeft(db, now, ttl, locked);
            && (replayed ==> outcome == Granted(db.books.rows[id].estimate))
            && (outcome.Granted? <==>
                  replayed ||
                  cost.units <=
                  db.books.totals.value.limit - Spent(db.books) - Sum(HoldsLeft(db, now, ttl, locked)))
  {
    SqlReclaimIsExact(db, now, ttl, locked);
    SweepKeepsTheLimit(db, now - ttl, locked);
    GrantedAfterTheSweep(db, After(db, Reconcile(now - ttl, locked)), id, cost, now, ttl, locked);
  }

  lemma SweepKeepsTheLimit(db: Db, olderThan: int, locked: set<Id>)
    ensures var swept := After(db, Reconcile(olderThan, locked));
            && swept.currency == db.currency && (swept.books.totals.Some? <==> db.books.totals.Some?)
            && (db.books.totals.Some? ==> swept.books.totals.value.limit == db.books.totals.value.limit)
  {
  }

  /** The in-memory ledger stamps a re-hold anew, so no later sweep with an earlier cutoff takes it. The
      tables keep the first stamp: there the sweep takes a fresh hold exactly when the id was already
      known before the cutoff. */
  lemma ReholdAge(l: OrgLedger, db: Db, id: Id, cost: Money, now: int, olderThan: int)
    requires olderThan <= now
    requires MemDecide(l, Reserve(id, cost, now)).0.Some? && Decide(db, Reserve(id, cost, now)).0.Some?
    ensures id !in Stale(MemAfter(l, Reserve(id, cost, now)).reservations, olderThan)
    ensures id in Stale(After(db, Reserve(id, cost, now)).books.rows, olderThan) <==>
            id in db.books.rows && db.books.rows[id].createdAt < olderThan
  {
  }
}
