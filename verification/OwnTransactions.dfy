/** What each of a request's own transactions does to the row of its own id, whatever others run around it. */
module OwnTransactions {
  import opened Ledger
  import opened SqlLedger
  import opened SharedLedger
  import opened ReservationService

  /** The id has the same cost row, or the same absence of one. */
  predicate SameCost(was: Db, now: Db, id: Id) {
    (id in now.costs <==> id in was.costs) && (id in was.costs ==> now.costs[id] == was.costs[id])
  }

  /** Taken: the row is there, live unless it was settled before the request came. */
  predicate Taken(was: Db, now: Db, id: Id) {
    && id in now.books.rows
    && (IsCommitted(was.books, id) <==> IsCommitted(now.books, id))
    && !now.books.rows[id].status.Released?
    && SameCost(was, now, id)
  }

  lemma ReserveTakesTheRow(db: Db, id: Id, cost: Money, now: int)
    requires Decide(db, Reserve(id, cost, now)).1.Granted?
    ensures Taken(db, After(db, Reserve(id, cost, now)), id)
    ensures !After(db, Reserve(id, cost, now)).books.rows[id].status.Expired?
  {
  }

  lemma HoldTakesTheRow(db: Db, m: Moment, id: Id, cost: Money, now: int)
    requires LeavesAlone(m.others, id)
    ensures var d := Run(db, With(m, Reserve(id, cost, now)));
            if Answer(db, m, Reserve(id, cost, now)).Granted?
            then Taken(db, d, id) && !d.books.rows[id].status.Expired?
            else AtMostExpired(db, d, id)
  {
    var op := Reserve(id, cost, now);
    RunWith(db, m, op);
    OthersLeaveTheRow(db, m.others, id);
    if Answer(db, m, op).Granted? {
      ReserveTakesTheRow(Run(db, m.others), id, cost, now);
    }
  }

  /** A granted gate leaves the row taken; any other answer leaves it as it was, give or take a sweep. */
  lemma GateTakesTheRow(db: Db, ttl: int, b: Before, id: Id, payload: string)
    requires LeavesAlone(b.reclaim.others, id) && LeavesAlone(b.hold.others, id)
    ensures var gate, d := GateAnswer(db, ttl, b, id, payload), Run(db, GateOps(ttl, b, id, payload));
            if gate.Answered? && gate.outcome.Granted? then Taken(db, d, id) && !d.books.rows[id].status.Expired?
            else AtMostExpired(db, d, id)
  {
    var swept := Reclaim(ttl, b);
    assert LeavesAlone(swept, id);
    OthersLeaveTheRow(db, swept, id);
    if b.price.None? {
      assert swept + [] == swept;
    } else {
      var estimated := EstimatedCost(payload, b.price.value);
      RunJoins(db, swept, With(b.hold, Reserve(id, estimated, b.now)));
      HoldTakesTheRow(Run(db, swept), b.hold, id, estimated, b.now);
    }
  }

  /** The row holds `estimate`; only an id that was settled or held when the request came may still hold what it did
      then. */
  predicate HoldsFor(was: Db, db: Db, id: Id, estimate: Money) {
    && id in db.books.rows
    && (db.books.rows[id].estimate == estimate ||
        ((Live(was.books, id) || IsCommitted(was.books, id)) &&
         db.books.rows[id].estimate == was.books.rows[id].estimate))
  }

  lemma GateHoldsTheEstimate(db: Db, ttl: int, b: Before, id: Id, payload: string)
    requires LeavesAlone(b.reclaim.others, id) && LeavesAlone(b.hold.others, id)
    requires var gate := GateAnswer(db, ttl, b, id, payload); gate.Answered? && gate.outcome.Granted?
    ensures b.price.Some?
    ensures HoldsFor(db, Run(db, GateOps(ttl, b, id, payload)), id, EstimatedCost(payload, b.price.value))
  {
    var swept := Reclaim(ttl, b);
    var op := Reserve(id, EstimatedCost(payload, b.price.value), b.now);
    assert LeavesAlone(swept, id);
    OthersLeaveTheRow(db, swept, id);
    RunJoins(db, swept, With(b.hold, op));
    RunWith(Run(db, swept), b.hold, op);
    OthersLeaveTheRow(Run(db, swept), b.hold.others, id);
  }

  lemma ReleaseLeaves(db: Db, d: Db, id: Id)
    requires AtMostExpired(db, d, id)
    ensures var now := After(d, Release(id));
            && (IsCommitted(now.books, id) <==> IsCommitted(db.books, id))
            && SameCost(db, now, id)
            && (Decide(d, Release(id)).1.Done? ==> !Live(now.books, id))
            && (id in now.books.rows <==> id in db.books.rows)
  {
  }

  /** A release that answers leaves no live hold and changes neither a settlement nor a cost. */
  lemma ReleaseEndsTheHold(db: Db, m: Moment, id: Id)
    requires LeavesAlone(m.others, id)
    ensures var d := Run(db, With(m, Release(id)));
            && (IsCommitted(d.books, id) <==> IsCommitted(db.books, id))
            && SameCost(db, d, id)
            && (Answer(db, m, Release(id)).Done? ==> !Live(d.books, id))
            && (id in d.books.rows <==> id in db.books.rows)
  {
    RunWith(db, m, Release(id));
    OthersLeaveTheRow(db, m.others, id);
    if m.up {
      ReleaseLeaves(db, Run(db, m.others), id);
    }
  }

  /** With consistent books a release of a known id is refused only by an outage. */
  lemma ReleaseFailsOnlyInAnOutage(db: Db, m: Moment, id: Id)
    requires Consistent(db) && id in db.books.rows && LeavesAlone(m.others, id)
    ensures Answer(db, m, Release(id)) == if m.up then Outcome.Done else Unavailable
  {
    OthersLeaveTheRow(db, m.others, id);
    RunKeepsConsistent(db, m.others);
    ReturnFitsTheTotal(Run(db, m.others), id);
  }

  lemma SettleLeaves(db: Db, d: Db, id: Id, cost: Money)
    requires AtMostExpired(db, d, id) && (id in db.costs <==> IsCommitted(db.books, id))
    ensures var now := After(d, Settle(id, cost));
            if Decide(d, Settle(id, cost)).1.Done? then
              && IsCommitted(now.books, id)
              && id in now.costs
              && now.costs[id] == if IsCommitted(db.books, id) then db.costs[id] else cost.units
            else AtMostExpired(db, now, id)
  {
  }

  /** A settlement that answers leaves the id settled, at this cost unless it was settled before. */
  lemma SettleEndsTheHold(db: Db, m: Moment, id: Id, cost: Money)
    requires LeavesAlone(m.others, id) && OneRowPerSettlement(db.books, db.costs)
    ensures var d := Run(db, With(m, Settle(id, cost)));
            if Answer(db, m, Settle(id, cost)).Done? then
              && IsCommitted(d.books, id)
              && id in d.costs
              && d.costs[id] == if IsCommitted(db.books, id) then db.costs[id] else cost.units
            else AtMostExpired(db, d, id)
  {
    RunWith(db, m, Settle(id, cost));
    OthersLeaveTheRow(db, m.others, id);
    if m.up {
      SettleLeaves(db, Run(db, m.others), id, cost);
    }
  }

  lemma SettleFailsOnlyInAnOutageOrCurrency(db: Db, m: Moment, id: Id, cost: Money)
    requires Consistent(db) && id in db.books.rows && !db.books.rows[id].status.Released?
    requires LeavesAlone(m.others, id) && cost.units >= 0
    ensures var answer := Answer(db, m, Settle(id, cost));
            && (answer.Done? || answer.Unavailable? || answer.UnsupportedCurrency?)
            && (answer.Unavailable? ==> !m.up)
            && (answer.UnsupportedCurrency? ==> cost.currency != db.books.rows[id].estimate.currency)
  {
    OthersLeaveTheRow(db, m.others, id);
    RunKeepsConsistent(db, m.others);
    ReturnFitsTheTotal(Run(db, m.others), id);
  }
}
