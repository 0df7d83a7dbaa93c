/** Concurrent appenders, statement by statement: lock, read the head, insert the row, move the head, commit. */
module AuditConcurrency {
  import opened Ledger
  import opened AuditChain

  /** How far a transaction has come; what it has written is its own until it commits. */
  datatype Stage =
    | Waiting
    | HasLock
    | HasHead(prev: Option<string>)
    | Inserted(row: Entry)
    | Moved(row: Entry)
    | Over

  datatype Tx = Tx(event: Event, stage: Stage)

  datatype System = System(
    logs: map<Tenant, seq<Entry>>,
    heads: map<Tenant, string>,
    locks: map<int, nat>,
    txs: map<nat, Tx>)

  datatype Statement = Lock | ReadHead | Insert | MoveHead | Commit | Abort

  datatype Action = Begin(event: Event) | Do(statement: Statement)

  /** The digest, and the number the database locks a tenant by; two tenants may share one. */
  datatype Rules = Rules(hash: string -> string, lockKey: Tenant -> int)

  function Unlocked(locks: map<int, nat>, id: nat): map<int, nat> {
    map key | key in locks && locks[key] != id :: locks[key]
  }

  function Staged(s: System, id: nat, stage: Stage): System
    requires id in s.txs
  {
    s.(txs := s.txs[id := s.txs[id].(stage := stage)])
  }

  /** One statement of one transaction. A statement that cannot go on, because it is out of turn or waits for a
      lock, leaves everything as it was; a transaction may abort anywhere, by rollback or by a lost connection. */
  function Next(rules: Rules, s: System, id: nat, action: Action): System {
    if action.Begin? then
      if id in s.txs then s else s.(txs := s.txs[id := Tx(action.event, Waiting)])
    else if id !in s.txs then s
    else
      var tx := s.txs[id];
      var key := rules.lockKey(tx.event.org);
      match (action.statement, tx.stage)
      case (Lock, Waiting) =>
        if key in s.locks then s else Staged(s, id, HasLock).(locks := s.locks[key := id])
      case (ReadHead, HasLock) => Staged(s, id, HasHead(HeadOf(s.heads, tx.event.org)))
      case (Insert, HasHead(prev)) =>
        Staged(s, id, Inserted(Entry(tx.event, prev, rules.hash(Canonical(prev, tx.event)))))
      case (MoveHead, Inserted(row)) => Staged(s, id, Moved(row))
      case (Commit, Moved(row)) =>
        Staged(s, id, Over).(
          logs := s.logs[tx.event.org := LogOf(s.logs, tx.event.org) + [row]],
          heads := s.heads[tx.event.org := row.hash],
          locks := Unlocked(s.locks, id))
      case (Abort, _) => Staged(s, id, Over).(locks := Unlocked(s.locks, id))
      case _ => s
  }

  // ---------------------------------------------------------------- what every statement keeps

  predicate TxGood(rules: Rules, s: System, id: nat, tx: Tx) {
    var key, head := rules.lockKey(tx.event.org), Head(LogOf(s.logs, tx.event.org));
    && (!tx.stage.Waiting? && !tx.stage.Over? ==> key in s.locks && s.locks[key] == id)
    && (tx.stage.HasHead? ==> tx.stage.prev == head)
    && (tx.stage.Inserted? || tx.stage.Moved? ==>
          tx.stage.row == Entry(tx.event, head, rules.hash(Canonical(head, tx.event))))
  }

  ghost predicate HeadsMatch(s: System) {
    forall org :: HeadOf(s.heads, org) == Head(LogOf(s.logs, org))
  }

  ghost predicate Good(rules: Rules, s: System) {
    HeadsMatch(s) && forall id :: id in s.txs ==> TxGood(rules, s, id, s.txs[id])
  }

  /** Only a commit moves a log or a head, and it moves both together. */
  lemma HeadsStayMatched(rules: Rules, s: System, id: nat, action: Action, org: Tenant)
    requires HeadOf(s.heads, org) == Head(LogOf(s.logs, org))
    ensures HeadOf(Next(rules, s, id, action).heads, org) == Head(LogOf(Next(rules, s, id, action).logs, org))
  {
    var t := Next(rules, s, id, action);
    if action == Do(Commit) && id in s.txs && s.txs[id].stage.Moved? {
      var tx := s.txs[id];
      assert t.logs == s.logs[tx.event.org := LogOf(s.logs, tx.event.org) + [tx.stage.row]];
      assert t.heads == s.heads[tx.event.org := tx.stage.row.hash];
    } else {
      assert t.logs == s.logs && t.heads == s.heads;
    }
  }

  /** The writer's own next state. */
  lemma OwnStepIsGood(rules: Rules, s: System, id: nat, action: Action)
    requires Good(rules, s) && id in Next(rules, s, id, action).txs
    ensures TxGood(rules, Next(rules, s, id, action), id, Next(rules, s, id, action).txs[id])
  {
    if id in s.txs {
      assert TxGood(rules, s, id, s.txs[id]);
      assert HeadOf(s.heads, s.txs[id].event.org) == Head(LogOf(s.logs, s.txs[id].event.org));
    }
  }

  /** Another writer keeps its lock, and so the head it read is still the head. */
  lemma OthersStayGood(rules: Rules, s: System, id: nat, action: Action, other: nat)
    requires Good(rules, s) && other in s.txs && other != id
    ensures TxGood(rules, Next(rules, s, id, action), other, s.txs[other])
  {
    assert TxGood(rules, s, other, s.txs[other]);
    if id in s.txs {
      assert TxGood(rules, s, id, s.txs[id]);
    }
  }

  lemma OthersKeepTheirPlace(rules: Rules, s: System, id: nat, action: Action, other: nat)
    requires other != id
    ensures other in Next(rules, s, id, action).txs <==> other in s.txs
    ensures other in s.txs ==> Next(rules, s, id, action).txs[other] == s.txs[other]
  {
  }

  lemma StepKeepsGood(rules: Rules, s: System, id: nat, action: Action)
    requires Good(rules, s)
    ensures Good(rules, Next(rules, s, id, action))
  {
    var t := Next(rules, s, id, action);
    forall org ensures HeadOf(t.heads, org) == Head(LogOf(t.logs, org)) {
      assert HeadOf(s.heads, org) == Head(LogOf(s.logs, org));
      HeadsStayMatched(rules, s, id, action, org);
    }
    forall other | other in t.txs ensures TxGood(rules, t, other, t.txs[other]) {
      if other == id {
        OwnStepIsGood(rules, s, id, action);
      } else {
        OthersKeepTheirPlace(rules, s, id, action, other);
        OthersStayGood(rules, s, id, action, other);
      }
    }
  }

  // ---------------------------------------------------------------- whole schedules

  datatype Turn = Turn(id: nat, action: Action)

  function Play(rules: Rules, run: seq<Turn>): System {
    if run == [] then System(map[], map[], map[], map[])
    else
      var turn := run[|run| - 1];
      Next(rules, Play(rules, run[..|run| - 1]), turn.id, turn.action)
  }

  /** The event a turn makes durable, if it does. */
  function CommittedBy(rules: Rules, s: System, turn: Turn): Option<Event> {
    if turn.action == Do(Commit) && turn.id in s.txs && s.txs[turn.id].stage.Moved?
    then Some(s.txs[turn.id].event)
    else None
  }

  /** A tenant's events in the order their transactions committed. */
  function Commits(rules: Rules, run: seq<Turn>, org: Tenant): seq<Event> {
    if run == [] then []
    else
      var before := run[..|run| - 1];
      var e := CommittedBy(rules, Play(rules, before), run[|run| - 1]);
      Commits(rules, before, org) + if e.Some? && e.value.org == org then [e.value] else []
  }

  /** The chain one appender alone would have written. */
  function ChainOf(hash: string -> string, events: seq<Event>): seq<Entry> {
    if events == [] then []
    else Appended(hash, ChainOf(hash, events[..|events| - 1]), events[|events| - 1])
  }

  lemma {:induction false} ChainsAreLinked(hash: string -> string, events: seq<Event>)
    ensures Linked(hash, ChainOf(hash, events))
  {
    if events != [] {
      ChainsAreLinked(hash, events[..|events| - 1]);
      AppendKeepsTheChain(hash, ChainOf(hash, events[..|events| - 1]), events[|events| - 1]);
    }
  }

  lemma {:induction false} EveryScheduleIsGood(rules: Rules, run: seq<Turn>)
    ensures Good(rules, Play(rules, run))
  {
    if run != [] {
      EveryScheduleIsGood(rules, run[..|run| - 1]);
      StepKeepsGood(rules, Play(rules, run[..|run| - 1]), run[|run| - 1].id, run[|run| - 1].action);
    }
  }

  /** Only a commit touches a log, and it appends exactly its own event. */
  lemma CommitAppendsItsEvent(rules: Rules, s: System, turn: Turn, org: Tenant)
    requires Good(rules, s)
    ensures var e := CommittedBy(rules, s, turn);
            LogOf(Next(rules, s, turn.id, turn.action).logs, org) ==
            if e.Some? && e.value.org == org then Appended(rules.hash, LogOf(s.logs, org), e.value)
            else LogOf(s.logs, org)
  {
    if turn.id in s.txs {
      assert TxGood(rules, s, turn.id, s.txs[turn.id]);
    }
  }

  /** However the statements of any number of appenders interleave, and wherever they abort, each tenant's log is
      the single chain of its committed events in commit order, and the stored head is that chain's end. */
  lemma {:induction false} EveryInterleavingIsOneChain(rules: Rules, run: seq<Turn>, org: Tenant)
    ensures var s := Play(rules, run);
            && LogOf(s.logs, org) == ChainOf(rules.hash, Commits(rules, run, org))
            && Linked(rules.hash, LogOf(s.logs, org))
            && HeadOf(s.heads, org) == Head(LogOf(s.logs, org))
  {
    EveryScheduleIsGood(rules, run);
    assert HeadOf(Play(rules, run).heads, org) == Head(LogOf(Play(rules, run).logs, org));
    if run != [] {
      var before := run[..|run| - 1];
      EveryInterleavingIsOneChain(rules, before, org);
      EveryScheduleIsGood(rules, before);
      CommitAppendsItsEvent(rules, Play(rules, before), run[|run| - 1], org);
      var events := Commits(rules, run, org);
      assert events != Commits(rules, before, org) ==> events[..|events| - 1] == Commits(rules, before, org);
    }
    ChainsAreLinked(rules.hash, Commits(rules, run, org));
  }

  // ---------------------------------------------------------------- getting through

  /** Still as it was but for this writer, which holds its lock and has come so far. */
  predicate Holding(rules: Rules, s: System, t: System, id: nat, event: Event, stage: Stage) {
    var key := rules.lockKey(event.org);
    && t.logs == s.logs && t.heads == s.heads && key in t.locks && t.locks[key] == id
    && id in t.txs && t.txs[id] == Tx(event, stage)
  }

  lemma TakesItsLock(rules: Rules, s: System, id: nat, event: Event)
    requires id !in s.txs && rules.lockKey(event.org) !in s.locks
    ensures Holding(rules, s, Next(rules, Next(rules, s, id, Begin(event)), id, Do(Lock)), id, event, HasLock)
  {
  }

  lemma ReadsTheHead(rules: Rules, s: System, t: System, id: nat, event: Event)
    requires Holding(rules, s, t, id, event, HasLock)
    ensures Holding(rules, s, Next(rules, t, id, Do(ReadHead)), id, event, HasHead(HeadOf(s.heads, event.org)))
  {
  }

  lemma WritesItsRow(rules: Rules, s: System, t: System, id: nat, event: Event, prev: Option<string>)
    requires Holding(rules, s, t, id, event, HasHead(prev))
    ensures var row := Entry(event, prev, rules.hash(Canonical(prev, event)));
            Holding(rules, s, Next(rules, Next(rules, t, id, Do(Insert)), id, Do(MoveHead)), id, event, Moved(row))
  {
  }

  /** An appender whose lock is free gets through: its event is appended to its tenant's log, and the lock is free
      again. */
  lemma FreeAppendersGetThrough(rules: Rules, s: System, id: nat, event: Event)
    requires Good(rules, s) && id !in s.txs && rules.lockKey(event.org) !in s.locks
    ensures var locked := Next(rules, Next(rules, s, id, Begin(event)), id, Do(Lock));
            var read := Next(rules, locked, id, Do(ReadHead));
            var moved := Next(rules, Next(rules, read, id, Do(Insert)), id, Do(MoveHead));
            var over := Next(rules, moved, id, Do(Commit));
            && LogOf(over.logs, event.org) == Appended(rules.hash, LogOf(s.logs, event.org), event)
            && rules.lockKey(event.org) !in over.locks
  {
    var locked := Next(rules, Next(rules, s, id, Begin(event)), id, Do(Lock));
    var read, head := Next(rules, locked, id, Do(ReadHead)), HeadOf(s.heads, event.org);
    TakesItsLock(rules, s, id, event);
    ReadsTheHead(rules, s, locked, id, event);
    WritesItsRow(rules, s, read, id, event, head);
    assert head == Head(LogOf(s.logs, event.org));
  }
}
