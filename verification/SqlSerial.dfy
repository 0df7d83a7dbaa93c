/** How the statement-level ledger and the one-transaction-at-a-time ledger agree. */
module SqlSerial {
  import opened Ledger
  import opened SqlLedger
  import opened SqlConcurrency
  import opened SqlInterleavings

  // ---------------------------------------------------------------- commits look serial

  /** What a transaction commits is what the whole operation, run at the moment of commit, would
      decide. A settle or a release always; a reserve exactly when no settlement of its own key slipped
      in between; a sweep takes some of the rows that are stale at that moment. */
  lemma CommitsSerially(s: System, t: Tid)
    requires t in s.txs && TxOk(s, t) && s.txs[t].pc.Committing? && Staged(s.txs[t]).Some?
    ensures var op, e := s.txs[t].op, Staged(s.txs[t]);
            match op
            case Reserve(id, cost, _) => Decide(s.db, op) == (e, Granted(cost)) <==> !IsCommitted(s.db.books, id)
            case Settle(_, _) => Decide(s.db, op) == (e, Outcome.Done)
            case Release(_) => Decide(s.db, op) == (e, Outcome.Done)
            case Reconcile(olderThan, locked) =>
              e.value.Expire? && e.value.ids <= Due(s.db.books.rows, olderThan, locked)
    ensures Clean(s.db.books, Staged(s.txs[t]).value) <==>
            !(s.txs[t].op.Reserve? && IsCommitted(s.db.books, s.txs[t].op.id))
  {
  }

  // ---------------------------------------------------------------- playing schedules

  lemma PlayStep(s: System, run: Schedule, t: Tid, a: Action)
    requires Next(s, t, a).Some?
    ensures Play(s, [(t, a)] + run) == Play(Next(s, t, a).value, run)
  {
    assert ([(t, a)] + run)[1..] == run;
  }

  lemma {:induction false} AdvancesCompose(s: System, t: Tid, n: nat, s': System)
    requires n > 0 && Next(s, t, Advance).Some?
    requires Play(Next(s, t, Advance).value, seq(n - 1, i => (t, Advance))) == Some(s')
    ensures Play(s, seq(n, i => (t, Advance))) == Some(s')
  {
    assert seq(n, i => (t, Advance)) == [(t, Advance)] + seq(n - 1, i => (t, Advance));
    PlayStep(s, seq(n - 1, i => (t, Advance)), t, Advance);
  }

  lemma {:induction false} PlayAppend(s: System, first: Schedule, second: Schedule)
    requires Play(s, first).Some?
    ensures Play(s, first + second) == Play(Play(s, first).value, second)
    decreases |first|
  {
    if first == [] {
      assert first + second == second;
    } else {
      PlayAppend(Next(s, first[0].0, first[0].1).value, first[1..], second);
      assert (first + second)[1..] == first[1..] + second;
    }
  }
}
