/** The in-memory provider: a synthesized answer, delivered whole or in pieces, at a cost its estimate covers. */
module InMemoryClient {
  import opened Ledger
  import opened SqlLedger
  import opened SharedLedger
  import opened Accounting
  import opened ReservationService
  import opened OwnTransactions
  import opened InferenceCoordinator
  import opened Streaming

  const CHUNKS := 3

  /** One answer in slices of a third of its length, rounded up, then the usage. */
  method Stream(text: string, payload: string) returns (events: seq<ProviderEvent>)
    ensures var n := |events| - 1;
            && 0 <= n <= CHUNKS
            && events[n] == Completed(Some(SynthesizedUsage(|payload|)))
            && (forall i :: 0 <= i < n ==> events[i].Chunk? && events[i].content != "")
            && Joined(Contents(events[..n])) == text
  {
    var size := if |text| == 0 then 1 else (|text| + 2) / CHUNKS;
    events := [];
    var start := 0;
    while start < |text|
      invariant forall i :: 0 <= i < |events| ==> events[i].Chunk? && events[i].content != ""
      invariant start == if size * |events| < |text| then size * |events| else |text|
      invariant |events| <= CHUNKS
      invariant start < |text| ==> |events| < CHUNKS
      invariant Joined(Contents(events)) == text[..start]
      decreases |text| - start
    {
      var end := if start + size < |text| then start + size else |text|;
      JoinedGrows(events, text[start..end]);
      assert text[..end] == text[..start] + text[start..end];
      events := events + [Chunk(text[start..end])];
      start := end;
    }
    assert text[..start] == text;
    assert (events + [Completed(Some(SynthesizedUsage(|payload|)))])[..|events|] == events;
    events := events + [Completed(Some(SynthesizedUsage(|payload|)))];
  }

  /** The texts of a run of pieces. */
  function Contents(events: seq<ProviderEvent>): seq<string>
    requires forall i :: 0 <= i < |events| ==> events[i].Chunk?
  {
    seq(|events|, i requires 0 <= i < |events| => events[i].content)
  }

  lemma JoinedGrows(events: seq<ProviderEvent>, more: string)
    requires forall i :: 0 <= i < |events| ==> events[i].Chunk?
    ensures Joined(Contents(events + [Chunk(more)])) == Joined(Contents(events)) + more
  {
    JoinedAppends(Contents(events), more);
    assert Contents(events + [Chunk(more)]) == Contents(events) + [more];
  }

  // ---------------------------------------------------------------- its cost

  lemma SettlingKeepsTheEstimate(was: Db, db: Db, m: Moment, id: Id, cost: Money, estimate: Money)
    requires LeavesAlone(m.others, id) && HoldsFor(was, db, id, estimate)
    ensures HoldsFor(was, Run(db, With(m, Settle(id, cost))), id, estimate)
  {
    RunWith(db, m, Settle(id, cost));
    OthersLeaveTheRow(db, m.others, id);
  }

  /** With an unchanged price, a call this provider answers costs no more than the estimate of its payload, whatever
      other transactions run in between; and that is what its row holds, unless its id was settled or held already when
      it came and still holds what it did then. */
  lemma InMemoryCallsNeverOverrun(db: Db, ttl: int, request: Request, c: Conditions)
    requires Undisturbed(c, request.id)
    requires c.gate.price == c.closing.price && Priced(c.gate.price)
    requires c.response.ok && c.response.usage == Some(SynthesizedUsage(|request.payload|))
    ensures var t := Serve(db, ttl, request, c);
            t.result.Returned? && t.result.cost.Some? ==>
              var cost := t.result.cost.value.total;
              var estimate := EstimatedCost(request.payload, c.gate.price.value);
              && 0 <= cost.units <= estimate.units && cost.currency == estimate.currency
              && HoldsFor(db, Run(db, t.ops), request.id, estimate)
  {
    var id, t := request.id, Serve(db, ttl, request, c);
    if t.result.Returned? && t.result.cost.Some? {
      var estimate := EstimatedCost(request.payload, c.gate.price.value);
      var ops := GateOps(ttl, c.gate, id, request.payload);
      GateHoldsTheEstimate(db, ttl, c.gate, id, request.payload);
      var a := Account(c.response.usage, c.closing.price);
      SettlingKeepsTheEstimate(db, Run(db, ops), c.closing.settle, id, a.cost.total, estimate);
      RunJoins(db, ops, Concluded(Run(db, ops), id, c).ops);
      EstimateCoversTheSynthesizedCall(|request.payload|, c.gate.price.value);
    }
  }
}
