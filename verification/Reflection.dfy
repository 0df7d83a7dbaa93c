/** Retrying a transient failure: each attempt under its own id, and what the whole loop leaves in the ledger. */
module Reflection {
  import opened Ledger
  import opened SqlLedger
  import opened SharedLedger
  import opened OwnTransactions
  import opened ResponseCache
  import opened InferenceCoordinator
  import CircuitBreaker

  // ---------------------------------------------------------------- attempt ids

  predicate IsDigit(c: char) { '0' <= c <= '9' }

  /** Decimal text, most significant digit first. */
  function Decimal(n: nat): (s: string)
    ensures s != "" && forall i :: 0 <= i < |s| ==> IsDigit(s[i])
  {
    var last := ['0' + (n % 10) as char];
    if n < 10 then last else Decimal(n / 10) + last
  }

  function Value(s: string): nat
    requires forall i :: 0 <= i < |s| ==> IsDigit(s[i])
  {
    if s == "" then 0
    else
      assert IsDigit(s[|s| - 1]);
      10 * Value(s[..|s| - 1]) + s[|s| - 1] as int - '0' as int
  }

  lemma {:induction false} DecimalReadsBack(n: nat)
    ensures Value(Decimal(n)) == n
  {
    var s := Decimal(n);
    assert s[|s| - 1] as int - '0' as int == n % 10;
    if n < 10 {
      assert s[..|s| - 1] == "";
    } else {
      assert s[..|s| - 1] == Decimal(n / 10);
      DecimalReadsBack(n / 10);
    }
  }

  /** Digits with no idle zero in front. */
  predicate IsNumeral(s: string) {
    s != "" && (forall i :: 0 <= i < |s| ==> IsDigit(s[i])) && (|s| > 1 ==> s[0] != '0')
  }

  lemma {:induction false} NumeralIsPositive(s: string)
    requires IsNumeral(s) && s[0] != '0'
    ensures Value(s) > 0
  {
    var last := |s| - 1;
    assert IsDigit(s[last]) && IsDigit(s[0]);
    if last > 0 {
      NumeralIsPositive(s[..last]);
    } else {
      assert s[..0] == "";
    }
  }

  lemma {:induction false} NumeralsAreDecimal(s: string)
    requires IsNumeral(s)
    ensures Decimal(Value(s)) == s
  {
    var last := |s| - 1;
    assert IsDigit(s[last]) && s == s[..last] + [s[last]];
    if last == 0 {
      assert s[..0] == "";
    } else {
      NumeralIsPositive(s[..last]);
      NumeralsAreDecimal(s[..last]);
      assert Value(s) / 10 == Value(s[..last]) && Value(s) % 10 == s[last] as int - '0' as int;
    }
  }

  function AttemptId(id: Id, attempt: nat): Id {
    id + ("#" + Decimal(attempt))
  }

  /** An attempt's id is the request's, a hash sign, and the attempt's number as it is usually written. */
  lemma AttemptIdsAreNumbered(id: Id, numeral: string)
    requires IsNumeral(numeral)
    ensures AttemptId(id, Value(numeral)) == id + ("#" + numeral)
  {
    NumeralsAreDecimal(numeral);
  }

  lemma SplitAtLastHash(x: string, a: string, y: string, b: string)
    requires '#' !in a && '#' !in b && x + ("#" + a) == y + ("#" + b)
    ensures x == y && a == b
  {
    var s, t := x + ("#" + a), y + ("#" + b);
    assert forall i :: |x| < i < |s| ==> s[i] == a[i - |x| - 1];
    assert forall i :: |y| < i < |t| ==> t[i] == b[i - |y| - 1];
    assert s[|x|] == '#' && t[|y|] == '#';
    assert x == s[..|x|] && y == t[..|y|];
    assert a == s[|x| + 1..] && b == t[|y| + 1..];
  }

  /** No two (request, attempt) pairs share an id, whatever the request ids contain. */
  lemma AttemptIdsAreDistinct(id: Id, m: nat, other: Id, n: nat)
    ensures AttemptId(id, m) == AttemptId(other, n) <==> id == other && m == n
  {
    if AttemptId(id, m) == AttemptId(other, n) {
      SplitAtLastHash(id, Decimal(m), other, Decimal(n));
      DecimalReadsBack(m);
      DecimalReadsBack(n);
    }
  }

  // ---------------------------------------------------------------- the policy

  datatype Verdict = Succeeded | Retry | TerminalFailure

  function Classify(outcome: ExecutionOutcome, response: Response): Verdict {
    if outcome == CacheHit then Succeeded
    else if outcome == Executed && response.ok then Succeeded
    else if outcome != Executed then TerminalFailure
    else if CircuitBreaker.Transient(response.category) then Retry
    else TerminalFailure
  }

  /** The base, doubled so many times. */
  function Doubled(base: int, times: nat): int {
    if times == 0 then base else 2 * Doubled(base, times - 1)
  }

  function BackoffBefore(base: int, attempt: nat): int
    requires attempt >= 2
  {
    Doubled(base, attempt - 2)
  }

  function TotalBackoff(base: int, attempts: nat): int {
    if attempts < 2 then 0 else TotalBackoff(base, attempts - 1) + BackoffBefore(base, attempts)
  }

  /** Sleep before every attempt but the first. */
  method Waited(base: int, attempt: nat, before: int) returns (waited: int)
    requires attempt >= 1 && before == TotalBackoff(base, attempt - 1)
    ensures waited == TotalBackoff(base, attempt)
  {
    waited := if attempt > 1 then before + BackoffBefore(base, attempt) else before;
  }

  /** All the waiting of a request that made so many attempts is one base short of one more doubling. */
  lemma {:induction false} TotalBackoffIsOneMoreDoubling(base: int, attempts: nat)
    requires attempts >= 1
    ensures TotalBackoff(base, attempts) == Doubled(base, attempts - 1) - base
  {
    if attempts > 1 {
      TotalBackoffIsOneMoreDoubling(base, attempts - 1);
    }
  }

  // ---------------------------------------------------------------- the loop

  function NthRequest(request: Request, k: nat): Request {
    Request(AttemptId(request.id, k), request.payload)
  }

  predicate Again(r: Result) {
    r.Returned? && Classify(r.outcome, r.response).Retry?
  }

  /** What one execution does to the ledger, whoever performs it. */
  type Step = (Db, Request, nat, Conditions) -> Trace

  /** The cache as each attempt finds it. */
  type Shelves = nat -> Shelf

  ghost function Through(ttl: int, shelves: Shelves, provider: Option<Provider>): Step {
    (db: Db, request: Request, k: nat, c: Conditions) => Attempted(db, ttl, shelves(k), provider, request, c)
  }

  /** The cache at the k-th attempt, when other requests write so much before each. */
  function ShelfAt(shelf: Shelf, written: seq<Store>, k: nat): Shelf {
    if k == 0 || k > |written| then shelf
    else
      var before := ShelfAt(shelf, written, k - 1);
      before.(store := Grown(before.store, before.unavailable, written[k - 1]))
  }

  function Filling(shelf: Shelf, written: seq<Store>): Shelves {
    (k: nat) => ShelfAt(shelf, written, k)
  }

  /** The attempts made, the transactions run meanwhile, and the tables they left. */
  datatype Reflection = Reflection(attempts: seq<Trace>, ops: seq<Op>, tables: Db) {
    function Last(): Trace
      requires attempts != []
    {
      attempts[|attempts| - 1]
    }
  }

  /** Attempts from the k-th on, one set of conditions for each attempt the policy allows. */
  ghost function Reflect(step: Step, db: Db, request: Request, cs: seq<Conditions>, k: nat): (r: Reflection)
    requires 1 <= k <= |cs|
    ensures 1 <= |r.attempts| <= |cs| - k + 1
    decreases |cs| - k
  {
    var t := step(db, NthRequest(request, k), k, cs[k - 1]);
    var next := Run(db, t.ops);
    if !Again(t.result) || k == |cs| then Reflection([t], t.ops, next)
    else
      var rest := Reflect(step, next, request, cs, k + 1);
      Reflection([t] + rest.attempts, t.ops + rest.ops, rest.tables)
  }

  /** The tables a reflection leaves are those its transactions leave. */
  ghost predicate Faithful(db: Db, r: Reflection) { r.tables == Run(db, r.ops) }

  lemma FaithfulGrows(db: Db, first: Trace, rest: Reflection)
    requires Faithful(Run(db, first.ops), rest)
    ensures Faithful(db, Reflection([first] + rest.attempts, first.ops + rest.ops, rest.tables))
  {
    RunJoins(db, first.ops, rest.ops);
  }

  lemma {:induction false} ReflectRunsItsTransactions(step: Step, db: Db, request: Request, cs: seq<Conditions>, k: nat)
    requires 1 <= k <= |cs|
    ensures Faithful(db, Reflect(step, db, request, cs, k))
    decreases |cs| - k
  {
    var t := step(db, NthRequest(request, k), k, cs[k - 1]);
    if Again(t.result) && k < |cs| {
      ReflectRunsItsTransactions(step, Run(db, t.ops), request, cs, k + 1);
      FaithfulGrows(db, t, Reflect(step, Run(db, t.ops), request, cs, k + 1));
    }
  }

  /** A retried attempt returned a failed provider call, so it put nothing in the cache and cost nothing. */
  lemma RetriedStoredNothing(db: Db, ttl: int, shelf: Shelf, provider: Option<Provider>, request: Request,
                             c: Conditions)
    ensures var t := Attempted(db, ttl, shelf, provider, request, c);
            Again(t.result) ==> !t.stored && t.result.cost.None? && Called(t)
  {
  }

  // ---------------------------------------------------------------- when it tries again

  /** A provider call that was made and failed in a way that passes. */
  predicate FailedForNow(r: Result) {
    && r.Returned? && r.outcome == Executed && !r.response.ok
    && (r.response.category == Some(CircuitBreaker.Timeout) ||
        r.response.category == Some(CircuitBreaker.RateLimited) ||
        r.response.category == Some(CircuitBreaker.ServerError))
  }

  /** Every attempt but the last failed for now; the last did not, or was the last allowed. */
  predicate TriedAgainWhileFailing(traces: seq<Trace>, allowed: nat) {
    && 1 <= |traces| <= allowed
    && (forall i :: 0 <= i < |traces| - 1 ==> FailedForNow(traces[i].result))
    && (FailedForNow(traces[|traces| - 1].result) ==> |traces| == allowed)
  }

  lemma AgainMeansFailedForNow(r: Result)
    ensures Again(r) <==> FailedForNow(r)
  {
  }

  lemma OneMoreTry(t: Trace, rest: seq<Trace>, allowed: nat)
    requires FailedForNow(t.result) && TriedAgainWhileFailing(rest, allowed)
    ensures TriedAgainWhileFailing([t] + rest, allowed + 1)
  {
    assert forall i :: 0 < i < |rest| + 1 ==> ([t] + rest)[i] == rest[i - 1];
  }

  /** The loop repeats exactly the attempts whose provider timed out, limited or broke, as often as it may. */
  lemma {:induction false} RetriesExactlyWhatPasses(step: Step, db: Db, request: Request, cs: seq<Conditions>, k: nat)
    requires 1 <= k <= |cs|
    ensures TriedAgainWhileFailing(Reflect(step, db, request, cs, k).attempts, |cs| - k + 1)
    decreases |cs| - k
  {
    var t := step(db, NthRequest(request, k), k, cs[k - 1]);
    AgainMeansFailedForNow(t.result);
    if Again(t.result) && k < |cs| {
      RetriesExactlyWhatPasses(step, Run(db, t.ops), request, cs, k + 1);
      OneMoreTry(t, Reflect(step, Run(db, t.ops), request, cs, k + 1).attempts, |cs| - k);
    }
  }

  /** What the trace of attempts keeps of each one. */
  datatype AttemptRecord = AttemptRecord(attempt: nat, id: Id, result: Result, verdict: Verdict)

  function VerdictOn(r: Result): Verdict {
    if r.Returned? then Classify(r.outcome, r.response) else TerminalFailure
  }

  function RecordOf(request: Request, k: nat, r: Result): AttemptRecord {
    AttemptRecord(k, AttemptId(request.id, k), r, VerdictOn(r))
  }

  ghost predicate Turn(step: Step, request: Request, k: nat, c: Conditions, db: Db, t: Trace, next: Db) {
    t == step(db, NthRequest(request, k), k, c) && next == Run(db, t.ops)
  }

  /** Attempts that followed one another, each from the tables the one before left. */
  ghost predicate Chained(step: Step, request: Request, cs: seq<Conditions>, dbs: seq<Db>, traces: seq<Trace>) {
    && |dbs| == |traces| + 1 && |traces| <= |cs|
    && forall i {:trigger traces[i]} :: 0 <= i < |traces| ==>
         Turn(step, request, i + 1, cs[i], dbs[i], traces[i], dbs[i + 1])
  }

  predicate AllAgain(traces: seq<Trace>) {
    forall i :: 0 <= i < |traces| ==> Again(traces[i].result)
  }

  /** Where the loop stops: every attempt before the last was worth repeating, and the last is not or may not be. */
  predicate Ended(cs: seq<Conditions>, traces: seq<Trace>) {
    && traces != []
    && (forall i :: 0 <= i < |traces| - 1 ==> Again(traces[i].result))
    && (!Again(traces[|traces| - 1].result) || |traces| == |cs|)
  }

  lemma ChainExtends(step: Step, request: Request, cs: seq<Conditions>, dbs: seq<Db>, traces: seq<Trace>,
                     t: Trace, next: Db)
    requires Chained(step, request, cs, dbs, traces) && |traces| < |cs|
    requires Turn(step, request, |traces| + 1, cs[|traces|], dbs[|traces|], t, next)
    ensures Chained(step, request, cs, dbs + [next], traces + [t])
  {
  }

  /** From the k-th attempt on, these attempts are made and these tables left. */
  ghost predicate Reflects(step: Step, db: Db, request: Request, cs: seq<Conditions>, k: nat, traces: seq<Trace>,
                           end: Db)
    requires 1 <= k <= |cs|
  {
    Reflect(step, db, request, cs, k).attempts == traces && Reflect(step, db, request, cs, k).tables == end
  }

  lemma LastTurn(step: Step, db: Db, request: Request, cs: seq<Conditions>, k: nat, t: Trace, next: Db)
    requires 1 <= k <= |cs| && Turn(step, request, k, cs[k - 1], db, t, next) && (!Again(t.result) || k == |cs|)
    ensures Reflects(step, db, request, cs, k, [t], next)
  {
  }

  lemma TurnBefore(step: Step, db: Db, request: Request, cs: seq<Conditions>, k: nat, t: Trace, next: Db,
                   rest: seq<Trace>, end: Db)
    requires 1 <= k < |cs| && Turn(step, request, k, cs[k - 1], db, t, next) && Again(t.result)
    requires Reflects(step, next, request, cs, k + 1, rest, end)
    ensures Reflects(step, db, request, cs, k, [t] + rest, end)
  {
  }

  /** A chain that stopped where the loop stops is the whole reflection. */
  lemma {:induction false} ChainIsTheReflection(step: Step, request: Request, cs: seq<Conditions>, dbs: seq<Db>,
                                                traces: seq<Trace>, k: nat)
    requires Chained(step, request, cs, dbs, traces) && 1 <= k <= |traces|
    requires Ended(cs, traces)
    ensures Reflects(step, dbs[k - 1], request, cs, k, traces[k - 1..], dbs[|traces|])
    decreases |traces| - k
  {
    var t := traces[k - 1];
    assert Turn(step, request, k, cs[k - 1], dbs[k - 1], t, dbs[k]);
    if k < |traces| {
      ChainIsTheReflection(step, request, cs, dbs, traces, k + 1);
      TurnBefore(step, dbs[k - 1], request, cs, k, t, dbs[k], traces[k..], dbs[|traces|]);
      assert traces[k - 1..] == [t] + traces[k..];
    } else {
      LastTurn(step, dbs[k - 1], request, cs, k, t, dbs[k]);
      assert traces[k - 1..] == [t];
    }
  }

  /** The record of an attempt: its number, the id it ran under, what came back, and the verdict: success for a cached
      answer or a call that went well, a retry for one that failed for now, and a failure for good otherwise. */
  lemma RecordsInPlainTerms(request: Request, k: nat, r: Result)
    ensures var a := RecordOf(request, k, r);
            && a.attempt == k && a.id == request.id + ("#" + Decimal(k)) && a.result == r
            && (a.verdict.Retry? <==> FailedForNow(r))
            && (a.verdict.Succeeded? <==>
                r.Returned? && (r.outcome == CacheHit || (r.outcome == Executed && r.response.ok)))
  {
  }

  /** The attempt ran under its own id, from some tables, with the request's own payload. */
  ghost predicate Asks(step: Step, request: Request, c: Conditions, attempt: nat, t: Trace) {
    exists db :: t == step(db, Request(AttemptId(request.id, attempt), request.payload), attempt, c)
  }

  ghost predicate AllAsk(step: Step, request: Request, cs: seq<Conditions>, k: nat, traces: seq<Trace>)
    requires 1 <= k && k - 1 + |traces| <= |cs|
    decreases |traces|
  {
    traces == [] ||
    (Asks(step, request, cs[k - 1], k, traces[0]) && AllAsk(step, request, cs, k + 1, traces[1..]))
  }

  lemma OneMoreAsks(step: Step, request: Request, cs: seq<Conditions>, k: nat, t: Trace, rest: seq<Trace>)
    requires 1 <= k && k + |rest| <= |cs| && Asks(step, request, cs[k - 1], k, t)
    requires AllAsk(step, request, cs, k + 1, rest)
    ensures AllAsk(step, request, cs, k, [t] + rest)
  {
    assert ([t] + rest)[1..] == rest;
  }

  /** Every attempt asks the same under its own id. */
  lemma {:induction false} EveryAttemptAsksTheSame(step: Step, db: Db, request: Request, cs: seq<Conditions>, k: nat)
    requires 1 <= k <= |cs|
    ensures AllAsk(step, request, cs, k, Reflect(step, db, request, cs, k).attempts)
    decreases |cs| - k
  {
    var t := step(db, NthRequest(request, k), k, cs[k - 1]);
    assert Asks(step, request, cs[k - 1], k, t);
    if Again(t.result) && k < |cs| {
      EveryAttemptAsksTheSame(step, Run(db, t.ops), request, cs, k + 1);
      OneMoreAsks(step, request, cs, k, t, Reflect(step, Run(db, t.ops), request, cs, k + 1).attempts);
    } else {
      OneMoreAsks(step, request, cs, k, t, []);
    }
  }

  /** The records name the attempts that returned, in order. */
  predicate RecordsMatch(request: Request, traces: seq<Trace>, attempts: seq<AttemptRecord>) {
    && |attempts| <= |traces|
    && forall i :: 0 <= i < |attempts| ==> attempts[i] == RecordOf(request, i + 1, traces[i].result)
  }

  /** What the method promises of a reflection `r`. */
  ghost predicate Reports(request: Request, base: int, allowed: nat, r: Reflection, now: Db, final: Result,
                          attempts: seq<AttemptRecord>, waited: int)
  {
    && r.attempts != []
    && TriedAgainWhileFailing(r.attempts, allowed)
    && waited == TotalBackoff(base, |r.attempts|)
    && now == r.tables
    && final == r.Last().result
    && RecordsMatch(request, r.attempts, attempts)
    && |attempts| == if final.Returned? then |r.attempts| else |r.attempts| - 1
  }

  /** Where the loop is: the chain so far, from `was` to `now`. */
  ghost predicate Underway(step: Step, request: Request, base: int, cs: seq<Conditions>, was: Db, now: Db,
                           dbs: seq<Db>, traces: seq<Trace>, attempts: seq<AttemptRecord>, waited: int)
  {
    && waited == TotalBackoff(base, |traces|)
    && Chained(step, request, cs, dbs, traces) && dbs[0] == was && dbs[|traces|] == now
    && RecordsMatch(request, traces, attempts) && |attempts| == |traces|
  }

  lemma Proceed(step: Step, request: Request, base: int, cs: seq<Conditions>, was: Db, now: Db, dbs: seq<Db>,
                traces: seq<Trace>, attempts: seq<AttemptRecord>, before: int, waited: int, t: Trace, next: Db)
    requires Underway(step, request, base, cs, was, now, dbs, traces, attempts, before)
    requires |traces| < |cs| && AllAgain(traces) && waited == TotalBackoff(base, |traces| + 1)
    requires Turn(step, request, |traces| + 1, cs[|traces|], now, t, next)
    ensures Underway(step, request, base, cs, was, next, dbs + [next], traces + [t],
                     attempts + [RecordOf(request, |traces| + 1, t.result)], waited)
    ensures Again(t.result) ==> AllAgain(traces + [t])
    ensures !Again(t.result) || |traces| + 1 == |cs| ==>
              var records := attempts + if t.result.Returned? then [RecordOf(request, |traces| + 1, t.result)] else [];
              Reports(request, base, |cs|, Reflect(step, was, request, cs, 1), next, t.result, records, waited)
  {
    ChainExtends(step, request, cs, dbs, traces, t, next);
    if !Again(t.result) || |traces| + 1 == |cs| {
      ChainIsTheReflection(step, request, cs, dbs + [next], traces + [t], 1);
      RetriesExactlyWhatPasses(step, was, request, cs, 1);
      assert (traces + [t])[0..] == traces + [t];
    }
  }

  class ReflectiveExecutor {
    const coordinator: Coordinator

    constructor (coordinator: Coordinator)
      ensures this.coordinator == coordinator
    {
      this.coordinator := coordinator;
    }

    /** The cache as it is. */
    ghost function Now(): Shelf
      reads coordinator.cache
    {
      Shelf(coordinator.cache.store, coordinator.cache.unavailable, coordinator.org)
    }

    ghost function Ways(provider: Option<Provider>, written: seq<Store>): Step
      reads coordinator.cache
    {
      Through(coordinator.service.reconciler.ttl, Filling(Now(), written), provider)
    }

    /** One attempt, once others have written to the cache; if it is to be retried it left the cache alone. */
    method AttemptOnce(provider: Option<Provider>, request: Request, k: nat, c: Conditions, ghost start: Shelf,
                       written: seq<Store>)
      returns (result: Result, ghost t: Trace)
      requires coordinator.service.Wired() && 1 <= k <= |written| && Now() == ShelfAt(start, written, k - 1)
      modifies coordinator.cache, coordinator.service.ledger, coordinator.breaker
      ensures var step := Through(coordinator.service.reconciler.ttl, Filling(start, written), provider);
              Turn(step, request, k, c, old(coordinator.service.ledger.Tables()), t,
                   coordinator.service.ledger.Tables())
      ensures result == t.result
      ensures Again(result) ==> Now() == ShelfAt(start, written, k)
    {
      coordinator.cache.Elsewhere(written[k - 1]);
      ghost var was, ttl := coordinator.service.ledger.Tables(), coordinator.service.reconciler.ttl;
      ghost var shelf := ShelfAt(start, written, k);
      assert shelf == Now();
      var attemptRequest := NthRequest(request, k);
      t := Attempted(was, ttl, shelf, provider, attemptRequest, c);
      RetriedStoredNothing(was, ttl, shelf, provider, attemptRequest, c);
      result := coordinator.Execute(provider, attemptRequest, c);
    }

    /** Attempt until something other than a transient failure comes back, at most once per given condition, waiting
        twice as long before each further attempt. An error an attempt raises is raised. Before each attempt other
        requests may have `written` to the cache. */
    method Execute(provider: Option<Provider>, request: Request, base: int, cs: seq<Conditions>, written: seq<Store>)
      returns (final: Result, attempts: seq<AttemptRecord>, waited: int)
      requires coordinator.service.Wired() && cs != [] && |written| == |cs|
      modifies coordinator.cache, coordinator.service.ledger, coordinator.breaker
      ensures Reports(request, base, |cs|,
                      Reflect(old(Ways(provider, written)), old(coordinator.service.ledger.Tables()), request, cs, 1),
                      coordinator.service.ledger.Tables(), final, attempts, waited)
    {
      ghost var step, was, start := Ways(provider, written), coordinator.service.ledger.Tables(), Now();
      ghost var dbs, traces: seq<Trace>, t: Trace := [was], [], *;
      attempts, waited := [], 0;
      var result: Option<Result> := None;
      for attempt := 1 to |cs| + 1
        invariant |traces| == attempt - 1 && Now() == ShelfAt(start, written, attempt - 1)
        invariant Underway(step, request, base, cs, was, coordinator.service.ledger.Tables(), dbs, traces, attempts,
                           waited)
        invariant AllAgain(traces)
        invariant attempt == |cs| + 1 ==>
                    result.Some? && Reports(request, base, |cs|, Reflect(step, was, request, cs, 1),
                                            coordinator.service.ledger.Tables(), result.value, attempts, waited)
      {
        ghost var now := coordinator.service.ledger.Tables();
        ghost var before := waited;
        waited := Waited(base, attempt, waited);
        var answer;
        answer, t := AttemptOnce(provider, request, attempt, cs[attempt - 1], start, written);
        Proceed(step, request, base, cs, was, now, dbs, traces, attempts, before, waited, t,
                coordinator.service.ledger.Tables());
        dbs, traces := dbs + [coordinator.service.ledger.Tables()], traces + [t];
        result := Some(answer);
        if answer.Raised? { assert attempts + [] == attempts; break; }
        attempts := attempts + [RecordOf(request, attempt, answer)];
        if VerdictOn(answer) != Retry { break; }
      }
      final := result.value;
    }
  }

  // ---------------------------------------------------------------- what the loop leaves in the ledger

  /** Nobody else uses any id this request may attempt under. */
  predicate AllUndisturbed(request: Request, cs: seq<Conditions>) {
    forall j, n :: 0 <= j < |cs| && 1 <= n <= |cs| ==> Undisturbed(cs[j], AttemptId(request.id, n))
  }

  /** The id's row and cost are what they were. */
  predicate Untouched(was: Db, now: Db, id: Id) {
    && (id in now.books.rows <==> id in was.books.rows)
    && (id in was.books.rows ==> now.books.rows[id] == was.books.rows[id])
    && SameCost(was, now, id)
  }

  /** One id before the k-th attempt: neither held nor paid, and if not attempted yet as the loop found it. */
  predicate IdBefore(was: Db, db: Db, request: Request, k: nat, n: nat) {
    var id := AttemptId(request.id, n);
    !Live(db.books, id) && !IsCommitted(db.books, id) && (n >= k ==> Untouched(was, db, id))
  }

  ghost predicate Upto(was: Db, db: Db, request: Request, max: nat, k: nat) {
    forall n :: 1 <= n <= max ==> IdBefore(was, db, request, k, n)
  }

  /** No attempt id is held or paid under yet; earlier, given up attempts may have left their rows. */
  ghost predicate NoneTaken(db: Db, request: Request, max: nat) {
    forall n :: 1 <= n <= max ==>
      !Live(db.books, AttemptId(request.id, n)) && !IsCommitted(db.books, AttemptId(request.id, n))
  }

  /** One id after the last attempt: not held, and settled only under the last one, exactly if a cost was returned and
      then at exactly that cost; those not attempted are as the loop found them. */
  predicate IdAfter(was: Db, db: Db, request: Request, last: nat, r: Result, n: nat)
    requires r.Returned?
  {
    var id := AttemptId(request.id, n);
    && !Live(db.books, id)
    && (IsCommitted(db.books, id) <==> n == last && r.cost.Some?)
    && (n == last && r.cost.Some? ==> id in db.costs && db.costs[id] == r.cost.value.total.units)
    && (n > last ==> Untouched(was, db, id))
  }

  ghost predicate Closed(was: Db, db: Db, request: Request, max: nat, last: nat, r: Result)
    requires r.Returned?
  {
    forall n :: 1 <= n <= max ==> IdAfter(was, db, request, last, r, n)
  }

  lemma AttemptClosesItsOwn(was: Db, db: Db, ttl: int, shelf: Shelf, provider: Option<Provider>, request: Request,
                            cs: seq<Conditions>, k: nat, n: nat)
    requires Consistent(db) && AllUndisturbed(request, cs) && 1 <= k <= |cs| && 1 <= n <= |cs|
    requires IdBefore(was, db, request, k, n)
    ensures var t := Attempted(db, ttl, shelf, provider, NthRequest(request, k), cs[k - 1]);
            t.result.Returned? ==> IdAfter(was, Run(db, t.ops), request, k, t.result, n)
  {
    var t := Attempted(db, ttl, shelf, provider, NthRequest(request, k), cs[k - 1]);
    var id := AttemptId(request.id, n);
    AttemptIdsAreDistinct(request.id, n, request.id, k);
    assert Undisturbed(cs[k - 1], id);
    if n == k {
      UnaryRequestsEndTheirHold(db, ttl, shelf, provider, NthRequest(request, k), cs[k - 1]);
    } else {
      RunsOnlyItsOwn(db, ttl, shelf, provider, NthRequest(request, k), cs[k - 1], id);
      OthersLeaveTheRow(db, t.ops, id);
    }
  }

  lemma ClosedAndUnpaidIsUpto(was: Db, db: Db, request: Request, max: nat, k: nat, r: Result)
    requires r.Returned? && r.cost.None? && Closed(was, db, request, max, k, r)
    ensures Upto(was, db, request, max, k + 1)
  {
    var next := k + 1;
    forall n: nat | 1 <= n <= max ensures IdBefore(was, db, request, next, n) {
      assert IdAfter(was, db, request, k, r, n);
    }
  }

  /** One attempt closes its own id and disturbs no other; retried attempts cost nothing. */
  ghost predicate Closes(step: Step, was: Db, db: Db, request: Request, cs: seq<Conditions>, k: nat)
    requires 1 <= k <= |cs|
  {
    var t := step(db, NthRequest(request, k), k, cs[k - 1]);
    && Consistent(Run(db, t.ops))
    && (t.result.Returned? ==> Closed(was, Run(db, t.ops), request, |cs|, k, t.result))
    && (Again(t.result) ==> t.result.cost.None?)
  }

  lemma AttemptsClose(ttl: int, shelves: Shelves, provider: Option<Provider>, was: Db, db: Db, request: Request,
                      cs: seq<Conditions>, k: nat)
    requires Consistent(db) && AllUndisturbed(request, cs) && 1 <= k <= |cs| && Upto(was, db, request, |cs|, k)
    ensures Closes(Through(ttl, shelves, provider), was, db, request, cs, k)
  {
    var t := Attempted(db, ttl, shelves(k), provider, NthRequest(request, k), cs[k - 1]);
    RunKeepsConsistent(db, t.ops);
    RetriedStoredNothing(db, ttl, shelves(k), provider, NthRequest(request, k), cs[k - 1]);
    if t.result.Returned? {
      forall n: nat | 1 <= n <= |cs| ensures IdAfter(was, Run(db, t.ops), request, k, t.result, n) {
        assert IdBefore(was, db, request, k, n);
        AttemptClosesItsOwn(was, db, ttl, shelves(k), provider, request, cs, k, n);
      }
    }
  }

  /** The reflection from the k-th attempt on, if it returned, left every id closed. */
  ghost predicate AllClosed(was: Db, request: Request, max: nat, k: nat, r: Reflection)
    requires k >= 1 && r.attempts != []
  {
    r.Last().result.Returned? ==> Closed(was, r.tables, request, max, k + |r.attempts| - 1, r.Last().result)
  }

  lemma OneMoreClosed(was: Db, request: Request, max: nat, k: nat, t: Trace, rest: Reflection)
    requires k >= 1 && rest.attempts != [] && AllClosed(was, request, max, k + 1, rest)
    ensures AllClosed(was, request, max, k, Reflection([t] + rest.attempts, t.ops + rest.ops, rest.tables))
  {
    assert ([t] + rest.attempts)[|rest.attempts|] == rest.Last();
  }

  lemma {:induction false} ClosingStepsCloseTheLoop(step: Step, was: Db, db: Db, request: Request,
                                                    cs: seq<Conditions>, k: nat)
    requires Consistent(db) && 1 <= k <= |cs| && Upto(was, db, request, |cs|, k)
    requires forall d, j ::
               Consistent(d) && 1 <= j <= |cs| && Upto(was, d, request, |cs|, j) ==>
                 Closes(step, was, d, request, cs, j)
    ensures AllClosed(was, request, |cs|, k, Reflect(step, db, request, cs, k))
    decreases |cs| - k
  {
    var t := step(db, NthRequest(request, k), k, cs[k - 1]);
    assert Closes(step, was, db, request, cs, k);
    if Again(t.result) && k < |cs| {
      var next := Run(db, t.ops);
      ClosedAndUnpaidIsUpto(was, next, request, |cs|, k, t.result);
      ClosingStepsCloseTheLoop(step, was, next, request, cs, k + 1);
      OneMoreClosed(was, request, |cs|, k, t, Reflect(step, next, request, cs, k + 1));
    }
  }

  /** Reflection that returns has left no attempt id holding money, and booked at most the last one: exactly the cost it
      returns, whatever other transactions ran in between. */
  lemma ReflectionClosesEveryHold(db: Db, ttl: int, shelves: Shelves, provider: Option<Provider>, request: Request,
                                  cs: seq<Conditions>)
    requires Consistent(db) && AllUndisturbed(request, cs) && cs != []
    requires NoneTaken(db, request, |cs|)
    ensures var r := Reflect(Through(ttl, shelves, provider), db, request, cs, 1);
            r.Last().result.Returned? ==> Closed(db, r.tables, request, |cs|, |r.attempts|, r.Last().result)
  {
    var step := Through(ttl, shelves, provider);
    forall d, j | Consistent(d) && 1 <= j <= |cs| && Upto(db, d, request, |cs|, j)
      ensures Closes(step, db, d, request, cs, j)
    {
      AttemptsClose(ttl, shelves, provider, db, d, request, cs, j);
    }
    assert Upto(db, db, request, |cs|, 1);
    ClosingStepsCloseTheLoop(step, db, db, request, cs, 1);
  }

  // ---------------------------------------------------------------- what it spends, with nobody else about

  /** One attempt spends exactly the cost it returns. */
  ghost predicate Spends(step: Step, db: Db, request: Request, cs: seq<Conditions>, k: nat)
    requires 1 <= k <= |cs|
  {
    var t := step(db, NthRequest(request, k), k, cs[k - 1]);
    && Run(db, t.ops).books.totals.Some?
    && (t.result.Returned? ==>
          Spent(Run(db, t.ops).books) - Spent(db.books) ==
          if t.result.cost.Some? then t.result.cost.value.total.units else 0)
  }

  lemma AttemptsSpend(ttl: int, shelves: Shelves, provider: Option<Provider>, db: Db, request: Request,
                      cs: seq<Conditions>, k: nat)
    requires Consistent(db) && db.books.totals.Some? && 1 <= k <= |cs| && Alone(cs[k - 1])
    requires !IsCommitted(db.books, AttemptId(request.id, k))
    ensures Spends(Through(ttl, shelves, provider), db, request, cs, k)
  {
    var t := Attempted(db, ttl, shelves(k), provider, NthRequest(request, k), cs[k - 1]);
    SpendingIsBookedOnce(db, t.ops);
    if t.result.Returned? {
      AloneARequestSpendsWhatItReturns(db, ttl, shelves(k), provider, NthRequest(request, k), cs[k - 1]);
    }
  }

  lemma {:induction false} SpendingStepsAddUp(step: Step, was: Db, db: Db, request: Request, cs: seq<Conditions>,
                                              k: nat)
    requires Consistent(db) && db.books.totals.Some? && 1 <= k <= |cs| && Upto(was, db, request, |cs|, k)
    requires forall d, j ::
               Consistent(d) && 1 <= j <= |cs| && Upto(was, d, request, |cs|, j) ==>
                 Closes(step, was, d, request, cs, j)
    requires forall d, j ::
               Consistent(d) && d.books.totals.Some? && 1 <= j <= |cs| && Upto(was, d, request, |cs|, j) ==>
                 Spends(step, d, request, cs, j)
    ensures var r := Reflect(step, db, request, cs, k);
            var final := r.Last().result;
            final.Returned? ==>
              Spent(r.tables.books) - Spent(db.books) == if final.cost.Some? then final.cost.value.total.units else 0
    decreases |cs| - k
  {
    var t := step(db, NthRequest(request, k), k, cs[k - 1]);
    assert Closes(step, was, db, request, cs, k) && Spends(step, db, request, cs, k);
    if Again(t.result) && k < |cs| {
      var next := Run(db, t.ops);
      ClosedAndUnpaidIsUpto(was, next, request, |cs|, k, t.result);
      SpendingStepsAddUp(step, was, next, request, cs, k + 1);
    }
  }

  /** Run alone under ids nobody holds or has paid under, reflection spends exactly the cost it returns: failed attempts
      are free. */
  lemma ReflectionSpendsWhatItReturns(db: Db, ttl: int, shelves: Shelves, provider: Option<Provider>, request: Request,
                                      cs: seq<Conditions>)
    requires Consistent(db) && db.books.totals.Some? && cs != []
    requires NoneTaken(db, request, |cs|)
    requires forall j :: 0 <= j < |cs| ==> Alone(cs[j])
    ensures var r := Reflect(Through(ttl, shelves, provider), db, request, cs, 1);
            var final := r.Last().result;
            final.Returned? ==>
              Spent(r.tables.books) - Spent(db.books) == if final.cost.Some? then final.cost.value.total.units else 0
  {
    var step := Through(ttl, shelves, provider);
    forall d, j | Consistent(d) && 1 <= j <= |cs| && Upto(db, d, request, |cs|, j)
      ensures Closes(step, db, d, request, cs, j)
    {
      AttemptsClose(ttl, shelves, provider, db, d, request, cs, j);
    }
    forall d, j | Consistent(d) && d.books.totals.Some? && 1 <= j <= |cs| && Upto(db, d, request, |cs|, j)
      ensures Spends(step, d, request, cs, j)
    {
      assert IdBefore(db, d, request, j, j);
      AttemptsSpend(ttl, shelves, provider, d, request, cs, j);
    }
    assert Upto(db, db, request, |cs|, 1);
    SpendingStepsAddUp(step, db, db, request, cs, 1);
  }
}
