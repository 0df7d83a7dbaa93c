/** One process sharing one execution among concurrent duplicates of a request: the event loop, the tasks, and the
    callers that wait for them, leave, or are answered. */
module Deduplicator {
  import opened Ledger
  import opened SqlLedger
  import opened SharedLedger
  import opened InferenceCoordinator

  type Key = (Org, Id)
  type TaskId = nat
  type Caller = nat

  /** The part of a call before it waits: join the task in flight, or start the one about to be `created`. */
  function Entered(inFlight: map<Key, TaskId>, key: Key, created: TaskId): (map<Key, TaskId>, TaskId) {
    if key in inFlight then (inFlight, inFlight[key]) else (inFlight[key := created], created)
  }

  /** The callback of a finished task. */
  function Cleared(inFlight: map<Key, TaskId>, key: Key, done: TaskId): map<Key, TaskId> {
    if key in inFlight && inFlight[key] == done then inFlight - {key} else inFlight
  }

  class RequestDeduplicator {
    var inFlight: map<Key, TaskId>

    constructor ()
      ensures inFlight == map[]
    {
      inFlight := map[];
    }

    /** Up to the await: which task the caller waits for, and whether it had to be started. */
    method Coalesce(org: Org, id: Id, created: TaskId) returns (task: TaskId, started: bool)
      modifies this
      ensures (inFlight, task) == Entered(old(inFlight), (org, id), created)
      ensures started <==> (org, id) !in old(inFlight)
    {
      var key := (org, id);
      started := key !in inFlight;
      if started {
        inFlight := inFlight[key := created];
      }
      task := inFlight[key];
    }

    method Forget(key: Key, done: TaskId)
      modifies this
      ensures inFlight == Cleared(old(inFlight), key, done)
      ensures key in inFlight <==> key in old(inFlight) && old(inFlight)[key] != done
    {
      if key in inFlight && inFlight[key] == done {
        inFlight := inFlight - {key};
      }
    }
  }

  // ---------------------------------------------------------------- the event loop

  /** One execution: what it returned or raised once finished, and whether its callback has run. */
  datatype Task = Task(key: Key, result: Option<Result>, forgotten: bool)

  datatype Waiter =
    | Waiting(key: Key, task: TaskId)
    | Answered(key: Key, task: TaskId, result: Result)
    | Gone(key: Key, task: TaskId)

  /** `tasks` lists every execution ever started, oldest first. */
  datatype Loop = Loop(inFlight: map<Key, TaskId>, tasks: seq<Task>, callers: map<Caller, Waiter>)

  const IDLE := Loop(map[], [], map[])

  datatype Event =
    | Call(caller: Caller, key: Key)
    | Issue(task: TaskId, op: Op)            // a running execution's next ledger transaction
    | Finish(task: TaskId, result: Result)
    | Forget(task: TaskId)                   // the callback, some time after the execution has finished
    | Resume(caller: Caller)                 // the caller is handed the result it waited for
    | Leave(caller: Caller)                  // the caller is cancelled while it waits; the shield keeps the task

  predicate Running(l: Loop, t: TaskId) {
    t < |l.tasks| && l.tasks[t].result.None?
  }

  /** An execution's own transactions are sweeps and operations on its own id. */
  predicate Own(op: Op, id: Id) {
    op.Reconcile? || op.id == id
  }

  function Next(l: Loop, e: Event): Option<Loop> {
    match e
    case Call(c, key) =>
      if c in l.callers then None
      else
        var (inFlight, task) := Entered(l.inFlight, key, |l.tasks|);
        Some(Loop(inFlight, if key in l.inFlight then l.tasks else l.tasks + [Task(key, None, false)],
                  l.callers[c := Waiting(key, task)]))
    case Issue(t, op) => if Running(l, t) && Own(op, l.tasks[t].key.1) then Some(l) else None
    case Finish(t, result) =>
      if !Running(l, t) then None else Some(l.(tasks := l.tasks[t := l.tasks[t].(result := Some(result))]))
    case Forget(t) =>
      if t >= |l.tasks| || l.tasks[t].result.None? || l.tasks[t].forgotten then None
      else
        Some(l.(inFlight := Cleared(l.inFlight, l.tasks[t].key, t),
                tasks := l.tasks[t := l.tasks[t].(forgotten := true)]))
    case Resume(c) =>
      if c !in l.callers || !l.callers[c].Waiting? then None
      else
        var w := l.callers[c];
        if w.task < |l.tasks| && l.tasks[w.task].result.Some? then
          Some(l.(callers := l.callers[c := Answered(w.key, w.task, l.tasks[w.task].result.value)]))
        else None
    case Leave(c) =>
      if c !in l.callers || !l.callers[c].Waiting? then None
      else Some(l.(callers := l.callers[c := Gone(l.callers[c].key, l.callers[c].task)]))
  }

  function Play(l: Loop, run: seq<Event>): Option<Loop>
    decreases |run|
  {
    if run == [] then Some(l)
    else if Next(l, run[0]).None? then None
    else Play(Next(l, run[0]).value, run[1..])
  }

  // ---------------------------------------------------------------- what every run keeps

  /** The table lists exactly the executions whose callback has not run. */
  predicate Tracked(l: Loop) {
    && (forall key :: key in l.inFlight ==> l.inFlight[key] < |l.tasks| && l.tasks[l.inFlight[key]].key == key)
    && forall t :: 0 <= t < |l.tasks| ==>
         && (l.tasks[t].result.None? ==> !l.tasks[t].forgotten)
         && (!l.tasks[t].forgotten <==> l.tasks[t].key in l.inFlight && l.inFlight[l.tasks[t].key] == t)
  }

  /** A caller waits for an execution of its own key, and is answered what that execution came to. */
  predicate Served(l: Loop) {
    forall c :: c in l.callers ==>
      var w := l.callers[c];
      && w.task < |l.tasks| && l.tasks[w.task].key == w.key
      && (w.Answered? ==> l.tasks[w.task].result == Some(w.result))
  }

  lemma StepKeepsTrack(l: Loop, e: Event)
    requires Tracked(l) && Next(l, e).Some?
    ensures Tracked(Next(l, e).value)
  {
  }

  lemma StepKeepsServing(l: Loop, e: Event)
    requires Tracked(l) && Served(l) && Next(l, e).Some?
    ensures Served(Next(l, e).value)
  {
  }

  lemma {:induction false} RunsKeepTrack(l: Loop, run: seq<Event>)
    requires Tracked(l) && Served(l) && Play(l, run).Some?
    ensures Tracked(Play(l, run).value) && Served(Play(l, run).value)
    decreases |run|
  {
    if run != [] {
      StepKeepsTrack(l, run[0]);
      StepKeepsServing(l, run[0]);
      RunsKeepTrack(Next(l, run[0]).value, run[1..]);
    }
  }

  /** At any time at most one execution per tenant and id is running, and everybody waits for, or was answered by, an
      execution of their own tenant and id: those who waited for the same one are answered alike. */
  lemma OneExecutionAtATime(run: seq<Event>)
    requires Play(IDLE, run).Some?
    ensures var l := Play(IDLE, run).value;
            && (forall t: TaskId, u: TaskId ::
                  Running(l, t) && Running(l, u) && l.tasks[t].key == l.tasks[u].key ==> t == u)
            && Served(l)
  {
    RunsKeepTrack(IDLE, run);
  }

  // ---------------------------------------------------------------- who shares what

  predicate Forgets(run: seq<Event>, t: TaskId) {
    exists i :: 0 <= i < |run| && run[i] == Forget(t)
  }

  lemma ForgetsStep(run: seq<Event>, t: TaskId)
    requires run != []
    ensures Forgets(run, t) <==> run[0] == Forget(t) || Forgets(run[1..], t)
  {
    if Forgets(run[1..], t) {
      var i :| 0 <= i < |run| - 1 && run[1..][i] == Forget(t);
      assert run[i + 1] == Forget(t);
    }
    if Forgets(run, t) && run[0] != Forget(t) {
      var i :| 0 <= i < |run| && run[i] == Forget(t);
      assert run[1..][i - 1] == Forget(t);
    }
  }

  lemma ForgottenOnce(l: Loop, e: Event, t: TaskId)
    requires Tracked(l) && t < |l.tasks| && Next(l, e).Some?
    ensures var n := Next(l, e).value;
            && t < |n.tasks| && n.tasks[t].key == l.tasks[t].key
            && (n.tasks[t].forgotten <==> l.tasks[t].forgotten || e == Forget(t))
            && (l.tasks[t].result.Some? ==> n.tasks[t].result == l.tasks[t].result)
  {
  }

  lemma {:induction false} ForgottenByRun(l: Loop, run: seq<Event>, t: TaskId)
    requires Tracked(l) && Served(l) && t < |l.tasks| && Play(l, run).Some?
    ensures var n := Play(l, run).value;
            && t < |n.tasks| && n.tasks[t].key == l.tasks[t].key
            && (n.tasks[t].forgotten <==> l.tasks[t].forgotten || Forgets(run, t))
            && (l.tasks[t].result.Some? ==> n.tasks[t].result == l.tasks[t].result)
    decreases |run|
  {
    if run != [] {
      StepKeepsTrack(l, run[0]);
      StepKeepsServing(l, run[0]);
      ForgottenOnce(l, run[0], t);
      ForgottenByRun(Next(l, run[0]).value, run[1..], t);
      ForgetsStep(run, t);
    }
  }

  /** A later call under the same tenant and id joins an execution exactly if its callback has not run in between;
      whether it has finished by then, or its first caller has left, makes no difference. */
  lemma SharedExactlyUntilForgotten(l: Loop, run: seq<Event>, t: TaskId)
    requires Tracked(l) && Served(l) && Play(l, run).Some? && t < |l.tasks| && !l.tasks[t].forgotten
    ensures var now := Play(l, run).value;
            Entered(now.inFlight, l.tasks[t].key, |now.tasks|).1 == t <==> !Forgets(run, t)
  {
    RunsKeepTrack(l, run);
    ForgottenByRun(l, run, t);
  }

  /** An execution of the key has started, and its callback has not run. */
  predicate Pending(l: Loop, key: Key) {
    exists t :: 0 <= t < |l.tasks| && l.tasks[t].key == key && !l.tasks[t].forgotten
  }

  /** No call is turned away: it waits, for one more execution if none of its key is pending, and else for no more. */
  lemma EveryCallIsTaken(l: Loop, c: Caller, key: Key)
    requires Tracked(l) && c !in l.callers
    ensures var next := Next(l, Call(c, key));
            && next.Some? && c in next.value.callers && next.value.callers[c].Waiting?
            && next.value.callers[c].key == key
            && |next.value.tasks| == |l.tasks| + if Pending(l, key) then 0 else 1
  {
    if key in l.inFlight {
      assert l.tasks[l.inFlight[key]].key == key;
    }
  }

  /** Nobody is kept waiting: once the execution it waits for has come to a result, a caller can be handed it. */
  lemma WaitersAreAnswered(l: Loop, c: Caller, result: Result)
    requires Served(l) && c in l.callers && l.callers[c].Waiting?
    ensures var w := l.callers[c];
            var finished := if Running(l, w.task) then Next(l, Finish(w.task, result)) else Some(l);
            var came := if Running(l, w.task) then result else l.tasks[w.task].result.value;
            && finished.Some? && Next(finished.value, Resume(c)).Some?
            && Next(finished.value, Resume(c)).value.callers[c] == Answered(w.key, w.task, came)
  {
  }

  // ---------------------------------------------------------------- leaving

  function WithoutLeaving(run: seq<Event>): seq<Event> {
    if run == [] then []
    else (if run[0].Leave? then [] else [run[0]]) + WithoutLeaving(run[1..])
  }

  /** The same but for the callers that left: in `m` they still wait. */
  predicate SameButForTheGone(l: Loop, m: Loop) {
    && m.inFlight == l.inFlight && m.tasks == l.tasks && m.callers.Keys == l.callers.Keys
    && forall c :: c in l.callers ==>
         if l.callers[c].Gone? then m.callers[c] == Waiting(l.callers[c].key, l.callers[c].task)
         else m.callers[c] == l.callers[c]
  }

  lemma LeavingIsInvisible(l: Loop, m: Loop, e: Event)
    requires SameButForTheGone(l, m) && Next(l, e).Some?
    ensures e.Leave? ==> SameButForTheGone(Next(l, e).value, m)
    ensures !e.Leave? ==> Next(m, e).Some? && SameButForTheGone(Next(l, e).value, Next(m, e).value)
  {
  }

  /** Callers that leave change nothing for the others: had they stayed, the same executions would have run, with the
      same transactions and results, and everybody else would have been answered the same. */
  lemma {:induction false} LeavingChangesNothingElse(l: Loop, m: Loop, run: seq<Event>)
    requires SameButForTheGone(l, m) && Play(l, run).Some?
    ensures Play(m, WithoutLeaving(run)).Some?
    ensures SameButForTheGone(Play(l, run).value, Play(m, WithoutLeaving(run)).value)
    decreases |run|
  {
    if run != [] {
      LeavingIsInvisible(l, m, run[0]);
      var rest := WithoutLeaving(run[1..]);
      if run[0].Leave? {
        assert WithoutLeaving(run) == rest;
        LeavingChangesNothingElse(Next(l, run[0]).value, m, run[1..]);
      } else {
        assert WithoutLeaving(run)[1..] == rest;
        LeavingChangesNothingElse(Next(l, run[0]).value, Next(m, run[0]).value, run[1..]);
      }
    }
  }

  // ---------------------------------------------------------------- the ledger, seen from one execution

  /** The transactions that executions other than `t`, of the same tenant, issue during a run. */
  function IssuedByOthers(l: Loop, run: seq<Event>, t: TaskId): seq<Op>
    requires t < |l.tasks| && Play(l, run).Some?
    decreases |run|
  {
    if run == [] then []
    else
      var n := Next(l, run[0]).value;
      var others := run[0].Issue? && run[0].task != t && l.tasks[run[0].task].key.0 == l.tasks[t].key.0;
      (if others then [run[0].op] else []) + IssuedByOthers(n, run[1..], t)
  }

  /** While an execution runs, no other execution of this process issues a transaction on its id. */
  lemma {:induction false} OthersLeaveARunningRequestAlone(l: Loop, run: seq<Event>, t: TaskId)
    requires Tracked(l) && Served(l) && Play(l, run).Some? && Running(l, t) && Running(Play(l, run).value, t)
    ensures LeavesAlone(IssuedByOthers(l, run, t), l.tasks[t].key.1)
    decreases |run|
  {
    if run != [] {
      var n := Next(l, run[0]).value;
      StepKeepsTrack(l, run[0]);
      StepKeepsServing(l, run[0]);
      ForgottenOnce(l, run[0], t);
      ForgottenByRun(n, run[1..], t);
      OthersLeaveARunningRequestAlone(n, run[1..], t);
      assert run[0].Issue? && run[0].task != t ==> l.tasks[run[0].task].key != l.tasks[t].key;
    }
  }

  /** An execution's own transactions are what the loop lets it issue. */
  lemma RequestsIssueTheirOwn(db: Db, ttl: int, shelf: Shelf, provider: Option<Provider>, request: Request,
                              c: Conditions)
    requires Alone(c)
    ensures var ops := Attempted(db, ttl, shelf, provider, request, c).ops;
            forall i :: 0 <= i < |ops| ==> Own(ops[i], request.id)
  {
    var ops := Attempted(db, ttl, shelf, provider, request, c).ops;
    forall i | 0 <= i < |ops| ensures Own(ops[i], request.id) {
      if !ops[i].Reconcile? && ops[i].id != request.id {
        RunsOnlyItsOwn(db, ttl, shelf, provider, request, c, ops[i].id);
        assert Names(ops[i], ops[i].id);
      }
    }
  }

  /** A stretch of the loop all through which `t` is running. */
  predicate During(l: Loop, run: seq<Event>, t: TaskId) {
    Tracked(l) && Served(l) && Running(l, t) && Play(l, run).Some? && Running(Play(l, run).value, t)
  }

  /** All that got in before one of an execution's transactions was issued by other executions of this process. */
  ghost predicate Overheard(m: Moment, key: Key) {
    exists l: Loop, run: seq<Event>, t: TaskId ::
      During(l, run, t) && l.tasks[t].key == key && m.others == IssuedByOthers(l, run, t)
  }

  lemma OverheardLeavesAlone(m: Moment, key: Key)
    requires Overheard(m, key)
    ensures LeavesAlone(m.others, key.1)
  {
    var l: Loop, run: seq<Event>, t: TaskId :|
      During(l, run, t) && l.tasks[t].key == key && m.others == IssuedByOthers(l, run, t);
    OthersLeaveARunningRequestAlone(l, run, t);
  }

  /** With every request of the tenant in this process, no assumption on ids is needed: whatever requests come in, under
      whatever ids and repeats, each execution ends its hold and is charged exactly the cost it returns. */
  lemma RequestsOfOneProcessEndTheirHold(db: Db, ttl: int, shelf: Shelf, provider: Option<Provider>, request: Request,
                                         c: Conditions)
    requires Consistent(db)
    requires Overheard(c.gate.reclaim, (shelf.org, request.id)) && Overheard(c.gate.hold, (shelf.org, request.id))
    requires Overheard(c.closing.settle, (shelf.org, request.id)) && Overheard(c.release, (shelf.org, request.id))
    ensures var t := Attempted(db, ttl, shelf, provider, request, c); Settled(db, Run(db, t.ops), request.id, t)
  {
    var key := (shelf.org, request.id);
    OverheardLeavesAlone(c.gate.reclaim, key);
    OverheardLeavesAlone(c.gate.hold, key);
    OverheardLeavesAlone(c.closing.settle, key);
    OverheardLeavesAlone(c.release, key);
    UnaryRequestsEndTheirHold(db, ttl, shelf, provider, request, c);
  }
}
