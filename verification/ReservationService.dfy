/** The budget gate in front of a provider call, and what closes the hold afterwards. */
module ReservationService {
  import opened Ledger
  import opened SqlLedger
  import opened SharedLedger
  import opened Accounting

  /** What the gate meets: its clock, the moments of its two transactions, the rows its sweep finds locked, and the
      price it finds. */
  datatype Before = Before(now: int, reclaim: Moment, locked: set<Id>, price: Option<Price>, hold: Moment)

  /** What a settlement meets: the price it finds and the moment of its transaction. */
  datatype Closing = Closing(price: Option<Price>, settle: Moment)

  datatype Gate = Unpriced | Answered(outcome: Outcome)

  datatype Settlement = Charged(cost: Cost) | Defective(defect: Defect) | Refused(outcome: Outcome)

  function EstimatedCost(payload: string, price: Price): Money {
    ComputeCost(EstimateUsage(|payload|), price).total
  }

  function Reclaim(ttl: int, b: Before): seq<Op> {
    With(b.reclaim, Reconcile(b.now - ttl, b.locked))
  }

  /** The transactions the gate runs: the sweep always, the hold only for a priced model. */
  function GateOps(ttl: int, b: Before, id: Id, payload: string): seq<Op> {
    Reclaim(ttl, b) +
    if b.price.None? then [] else With(b.hold, Reserve(id, EstimatedCost(payload, b.price.value), b.now))
  }

  ghost function GateAnswer(db: Db, ttl: int, b: Before, id: Id, payload: string): Gate {
    if b.price.None? then Unpriced
    else
      Answered(Answer(Run(db, Reclaim(ttl, b)), b.hold, Reserve(id, EstimatedCost(payload, b.price.value), b.now)))
  }

  /** A response that cannot be costed never reaches the ledger. */
  function SettleOps(c: Closing, id: Id, usage: Option<Usage>): seq<Op> {
    var a := Account(usage, c.price);
    if a.Accounted? then With(c.settle, Settle(id, a.cost.total)) else []
  }

  ghost function SettleAnswer(db: Db, c: Closing, id: Id, usage: Option<Usage>): Settlement {
    var a := Account(usage, c.price);
    if a.Unaccountable? then Defective(a.defect)
    else
      var answer := Answer(db, c.settle, Settle(id, a.cost.total));
      if answer.Done? then Charged(a.cost) else Refused(answer)
  }

  class ReservationReconciler {
    const ledger: SqlBudgetLedger
    const ttl: int

    constructor (ledger: SqlBudgetLedger, ttl: int)
      requires ttl > 0
      ensures this.ledger == ledger && this.ttl == ttl
    {
      this.ledger, this.ttl := ledger, ttl;
    }

    /** Expire this tenant's old holds; a store that does not answer counts as nothing reclaimed. */
    method ReclaimExpired(m: Moment, now: int, locked: set<Id>) returns (count: nat)
      modifies ledger
      ensures ledger.Tables() == Run(old(ledger.Tables()), With(m, Reconcile(now - ttl, locked)))
      ensures var answer := Answer(old(ledger.Tables()), m, Reconcile(now - ttl, locked));
              count == if answer.Reclaimed? then answer.count else 0
    {
      var cutoff := now - ttl;
      var answer := Call(ledger, m, Reconcile(cutoff, locked));
      count := if answer.Reclaimed? then answer.count else 0;
    }
  }

  class ReservationService {
    const ledger: SqlBudgetLedger
    const reconciler: ReservationReconciler

    constructor (reconciler: ReservationReconciler)
      ensures this.reconciler == reconciler && ledger == reconciler.ledger
    {
      this.reconciler, this.ledger := reconciler, reconciler.ledger;
    }

    predicate Wired() { ledger == reconciler.ledger }

    /** Reclaim, price, estimate, hold. */
    method Reserve(b: Before, id: Id, payload: string) returns (gate: Gate)
      requires Wired()
      modifies ledger
      ensures gate == GateAnswer(old(ledger.Tables()), reconciler.ttl, b, id, payload)
      ensures ledger.Tables() == Run(old(ledger.Tables()), GateOps(reconciler.ttl, b, id, payload))
    {
      ghost var was, swept := ledger.Tables(), Reclaim(reconciler.ttl, b);
      var _ := reconciler.ReclaimExpired(b.reclaim, b.now, b.locked);
      if b.price.None? {
        assert swept + [] == swept;
        return Unpriced;
      }
      var estimate := EstimateUsage(|payload|);
      var estimatedCost := ComputeCost(estimate, b.price.value).total;
      RunJoins(was, swept, With(b.hold, Op.Reserve(id, estimatedCost, b.now)));
      var answer := Call(ledger, b.hold, Op.Reserve(id, estimatedCost, b.now));
      gate := Answered(answer);
    }

    /** Cost the response and turn the hold into spending. */
    method Settle(c: Closing, id: Id, usage: Option<Usage>) returns (s: Settlement)
      requires Wired()
      modifies ledger
      ensures s == SettleAnswer(old(ledger.Tables()), c, id, usage)
      ensures ledger.Tables() == Run(old(ledger.Tables()), SettleOps(c, id, usage))
    {
      var accounted := Account(usage, c.price);
      if accounted.Unaccountable? { return Defective(accounted.defect); }
      var answer := Call(ledger, c.settle, Op.Settle(id, accounted.cost.total));
      s := if answer.Done? then Charged(accounted.cost) else Refused(answer);
    }

    method Release(m: Moment, id: Id) returns (answer: Outcome)
      requires Wired()
      modifies ledger
      ensures answer == Answer(old(ledger.Tables()), m, Op.Release(id))
      ensures ledger.Tables() == Run(old(ledger.Tables()), With(m, Op.Release(id)))
    {
      answer := Call(ledger, m, Op.Release(id));
    }
  }
}
