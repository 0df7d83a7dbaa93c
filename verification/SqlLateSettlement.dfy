/** A re-hold of an expired id and a late settlement of it, each going on while the other is open. */
module SqlLateSettlement {
  import opened MapSums
  import opened Ledger
  import opened SqlLedger
  import opened SqlConcurrency
  import opened SqlInterleavings
  import opened SqlSerial
  import opened SqlSolo

  const USD := "USD"

  function OneExpiredHold(): Db {
    Db(Books(Some(Totals(100, 0, 0)), map["a" := Row(Money(10, USD), Expired, 0)]), USD, map[])
  }

  /** The re-hold transaction of the example: it has read the expired row, then does the rest. */
  function Rehold(db: Db, pc: Pc, locks: map<Id, Tid>, totals: Option<Totals>, rows: map<Id, Row>,
                  others: map<Tid, Tx>, log: seq<Effect>): System {
    System(db, if totals.Some? then Some(1) else None, locks, map["a" := 1],
           others[1 := Tx(Reserve("a", Money(10, USD), 5), pc, Some(Row(Money(10, USD), Expired, 0)), totals, rows,
                          map[])],
           log)
  }

  lemma ReholdReads() returns (run: Schedule)
    ensures Play(Start(OneExpiredHold()), run) ==
            Some(Rehold(OneExpiredHold(), RvBudget, map[], None, map[], map[], []))
  {
    var s0 := Start(OneExpiredHold());
    var op := Reserve("a", Money(10, USD), 5);
    var s1 := Next(s0, 1, Begin(op)).value;
    var s2 := Next(s1, 1, Advance).value;
    var s3 := Next(s2, 1, Advance).value;
    assert s3.txs == map[1 := Tx(op, RvBudget, Some(Row(Money(10, USD), Expired, 0)), None, map[], map[])];
    AdvancesCompose(s2, 1, 1, s3);
    AdvancesCompose(s1, 1, 2, s3);
    PlayStep(s0, seq(2, i => (1, Advance)), 1, Begin(op));
    run := [(1, Begin(op))] + seq(2, i => (1, Advance));
  }

  /** A late settlement of the row has committed since the read. */
  predicate SettledMeanwhile(db: Db, others: map<Tid, Tx>) {
    && 1 !in others && db.currency == USD && db.books.totals == Some(Totals(100, 0, 7))
    && db.books.rows == map["a" := Row(Money(10, USD), Committed, 0)]
  }

  /** The states the rest of the re-hold passes through: read, checked, charged, written. */
  function Reholding(db: Db, others: map<Tid, Tx>, log: seq<Effect>, statements: nat): System {
    var charged := Some(Totals(100, 10, 7));
    if statements == 0 then Rehold(db, RvBudget, map[], None, map[], others, log)
    else if statements == 1 then Rehold(db, RvGuard(Totals(100, 0, 7)), map[], None, map[], others, log)
    else if statements == 2 then Rehold(db, RvHold, map[], charged, map[], others, log)
    else
      Rehold(db, Committing(Granted(Money(10, USD))), map["a" := 1], charged,
             map["a" := Row(Money(10, USD), Status.Reserved, 0)], others, log)
  }

  lemma ReholdProceeds(db: Db, others: map<Tid, Tx>, log: seq<Effect>)
    requires SettledMeanwhile(db, others)
    ensures Next(Reholding(db, others, log, 0), 1, Advance) == Some(Reholding(db, others, log, 1))
    ensures Next(Reholding(db, others, log, 1), 1, Advance) == Some(Reholding(db, others, log, 2))
    ensures Next(Reholding(db, others, log, 2), 1, Advance) == Some(Reholding(db, others, log, 3))
  {
    var s0, s1 := Reholding(db, others, log, 0), Reholding(db, others, log, 1);
    var s2, s3 := Reholding(db, others, log, 2), Reholding(db, others, log, 3);
    assert s0.txs[1 := s1.txs[1]] == s1.txs && s1.txs[1 := s2.txs[1]] == s2.txs && s2.txs[1 := s3.txs[1]] == s3.txs;
  }

  lemma ReholdCommits(db: Db, others: map<Tid, Tx>, log: seq<Effect>) returns (s': System)
    requires SettledMeanwhile(db, others)
    ensures Next(Reholding(db, others, log, 3), 1, Advance) == Some(s')
    ensures var again := Hold("a", Money(10, USD), 0);
            Legal(db.books, again) && s'.db == Commit(db, again) && s'.log == log + [again]
    ensures s'.budgetLock.None? && s'.rowLocks == map[] && s'.keyLocks == map[] && s'.txs.Keys == others.Keys + {1}
  {
    var s3 := Reholding(db, others, log, 3);
    s' := Next(s3, 1, Advance).value;
    assert db.books.rows + s3.txs[1].rows == db.books.rows["a" := s3.txs[1].rows["a"]];
    assert s'.db.costs == db.costs;
  }

  /** After a settlement of the same row has committed, the re-hold still goes through. */
  lemma ReholdOverwrites(db: Db, others: map<Tid, Tx>, log: seq<Effect>) returns (run: Schedule, s': System)
    requires SettledMeanwhile(db, others)
    ensures Play(Reholding(db, others, log, 0), run) == Some(s')
    ensures var again := Hold("a", Money(10, USD), 0);
            Legal(db.books, again) && s'.db == Commit(db, again) && s'.log == log + [again]
    ensures s'.budgetLock.None? && s'.rowLocks == map[] && s'.keyLocks == map[] && s'.txs.Keys == others.Keys + {1}
  {
    ReholdProceeds(db, others, log);
    s' := ReholdCommits(db, others, log);
    AdvancesCompose(Reholding(db, others, log, 3), 1, 1, s');
    AdvancesCompose(Reholding(db, others, log, 2), 1, 2, s');
    AdvancesCompose(Reholding(db, others, log, 1), 1, 3, s');
    AdvancesCompose(Reholding(db, others, log, 0), 1, 4, s');
    run := seq(4, i => (1, Advance));
  }

  /** A late settlement of 7, decided while the re-hold is open. */
  lemma SettlementOfSeven(s: System) returns (db: Db, others: map<Tid, Tx>, log: seq<Effect>)
    requires s == Rehold(OneExpiredHold(), RvBudget, map[], None, map[], map[], [])
    ensures Undisputed(s, 2, Settle("a", Money(7, USD)))
    ensures SettledMeanwhile(db, others) && db.costs == map["a" := 7] && others.Keys == {2}
    ensures Ended(s, 2, Settle("a", Money(7, USD))) == Reholding(db, others, log, 0)
  {
    var op := Settle("a", Money(7, USD));
    var end := Ended(s, 2, op);
    db, others, log := end.db, map[2 := end.txs[2]], end.log;
    assert db.books.rows == map["a" := Row(Money(10, USD), Committed, 0)];
    assert end.txs == others[1 := s.txs[1]];
  }

  /** The first half of the example: the re-hold reads, then the late settlement commits. */
  lemma SettlesMeanwhile() returns (run: Schedule, db: Db, others: map<Tid, Tx>, log: seq<Effect>)
    ensures SettledMeanwhile(db, others) && db.costs == map["a" := 7] && others.Keys == {2}
    ensures Play(Start(OneExpiredHold()), run) == Some(Reholding(db, others, log, 0))
  {
    var first := ReholdReads();
    var s1 := Rehold(OneExpiredHold(), RvBudget, map[], None, map[], map[], []);
    db, others, log := SettlementOfSeven(s1);
    var second := AloneEveryOperationEndsAsDecided(s1, 2, Settle("a", Money(7, USD)));
    PlayAppend(Start(OneExpiredHold()), first, second);
    run := first + second;
  }

  /** The read that precedes a re-hold takes no row lock, so a late settlement can commit between the
      two and be overwritten; settling the re-held id then spends without a cost row. One such schedule
      spends 16 of which the cost ledger records 7. */
  lemma LateSettlementCanBeOverwritten() returns (run: Schedule)
    ensures Play(Start(OneExpiredHold()), run).Some?
    ensures var s := Play(Start(OneExpiredHold()), run).value;
            Spent(s.db.books) == 16 && Sum(s.db.costs) == 7
  {
    var s0 := Start(OneExpiredHold());
    var half, db, others, log := SettlesMeanwhile();
    var rest, s3 := ReholdOverwrites(db, others, log);
    PlayAppend(s0, half, rest);
    var last := AloneEveryOperationEndsAsDecided(s3, 3, Settle("a", Money(9, USD)));
    PlayAppend(s0, half + rest, last);
    run := half + rest + last;
    SumRemove(db.costs, "a");
    assert db.costs - {"a"} == map[];
  }
}
