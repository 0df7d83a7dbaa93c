/** The agent chain that decides where a request goes, and the engine that resolves its choice. */
module Routing {
  import opened Ledger
  import opened CircuitBreaker

  // ---------------------------------------------------------------- provider names in order

  /** Strings by code point, a proper prefix first. */
  predicate NameLeq(a: string, b: string) {
    a == "" || (b != "" && (a[0] < b[0] || (a[0] == b[0] && NameLeq(a[1..], b[1..]))))
  }

  lemma {:induction false} NameOrderIsTotal(a: string, b: string)
    ensures NameLeq(a, b) || NameLeq(b, a)
    ensures NameLeq(a, b) && NameLeq(b, a) ==> a == b
  {
    if a != "" && b != "" && a[0] == b[0] {
      NameOrderIsTotal(a[1..], b[1..]);
      assert a == [a[0]] + a[1..] && b == [b[0]] + b[1..];
    }
  }

  lemma {:induction false} NameOrderIsTransitive(a: string, b: string, c: string)
    requires NameLeq(a, b) && NameLeq(b, c)
    ensures NameLeq(a, c)
  {
    if a != "" && a[0] == b[0] == c[0] {
      NameOrderIsTransitive(a[1..], b[1..], c[1..]);
    }
  }

  predicate PartsAt(a: string, b: string, i: int) {
    0 <= i < |a| && i < |b| && a[..i] == b[..i] && a[i] != b[i]
  }

  lemma PartsBehind(first: char, a: string, b: string, i: nat)
    ensures PartsAt(a, b, i) <==> PartsAt([first] + a, [first] + b, i + 1)
  {
    if i <= |a| && i <= |b| {
      assert ([first] + a)[..i + 1] == [first] + a[..i] && ([first] + b)[..i + 1] == [first] + b[..i];
      assert a[..i] == ([first] + a)[..i + 1][1..] && b[..i] == ([first] + b)[..i + 1][1..];
    }
  }

  lemma PrefixBehind(first: char, a: string, b: string)
    ensures a <= b <==> [first] + a <= [first] + b
  {
    if [first] + a <= [first] + b {
      assert forall k :: 0 <= k < |a| ==> a[k] == ([first] + a)[k + 1] == ([first] + b)[k + 1] == b[k];
    }
  }

  /** Where two names part, the smaller one is known. */
  lemma {:induction false} PartedNames(a: string, b: string, i: nat)
    requires PartsAt(a, b, i)
    ensures NameLeq(a, b) <==> a[i] < b[i]
  {
    if i > 0 {
      assert a[0] == a[..i][0] == b[..i][0] == b[0];
      assert a == [a[0]] + a[1..] && b == [a[0]] + b[1..];
      PartsBehind(a[0], a[1..], b[1..], i - 1);
      PartedNames(a[1..], b[1..], i - 1);
    }
  }

  lemma {:induction false} PrefixesComeFirst(a: string, b: string)
    requires a <= b
    ensures NameLeq(a, b) && (NameLeq(b, a) ==> a == b)
  {
    NameOrderIsTotal(a, b);
    if a != "" {
      PrefixesComeFirst(a[1..], b[1..]);
    }
  }

  /** It is dictionary order: a prefix comes first, else the name that is smaller where the two first part. */
  lemma {:induction false} NamesAreInDictionaryOrder(a: string, b: string)
    ensures a <= b || b <= a || exists i :: PartsAt(a, b, i)
    ensures a <= b ==> NameLeq(a, b) && (NameLeq(b, a) ==> a == b)
    ensures forall i :: PartsAt(a, b, i) ==> (NameLeq(a, b) <==> a[i] < b[i])
  {
    if a <= b { PrefixesComeFirst(a, b); }
    forall i | PartsAt(a, b, i) ensures NameLeq(a, b) <==> a[i] < b[i] { PartedNames(a, b, i); }
    if a != "" && b != "" {
      if a[0] == b[0] {
        NamesAreInDictionaryOrder(a[1..], b[1..]);
        assert a == [a[0]] + a[1..] && b == [a[0]] + b[1..];
        PrefixBehind(a[0], a[1..], b[1..]);
        PrefixBehind(a[0], b[1..], a[1..]);
        if i: nat :| PartsAt(a[1..], b[1..], i) {
          PartsBehind(a[0], a[1..], b[1..], i);
        }
      } else {
        assert PartsAt(a, b, 0);
      }
    }
  }

  // ---------------------------------------------------------------- the health-tiered strategy

  datatype RoutingCandidate = RoutingCandidate(provider: string, degraded: bool)

  /** Healthy before degraded, then by name. */
  predicate RankLeq(a: RoutingCandidate, b: RoutingCandidate) {
    (!a.degraded && b.degraded) || (a.degraded == b.degraded && NameLeq(a.provider, b.provider))
  }

  /** The first candidate no other ranks before. */
  function Best(candidates: seq<RoutingCandidate>): (best: RoutingCandidate)
    requires candidates != []
    ensures best in candidates
    ensures forall c :: c in candidates ==> RankLeq(best, c)
  {
    var last := candidates[|candidates| - 1];
    if |candidates| == 1 then
      NameOrderIsTotal(last.provider, last.provider);
      last
    else
      var best := Best(candidates[..|candidates| - 1]);
      NameOrderIsTotal(best.provider, last.provider);
      NameOrderIsTotal(last.provider, last.provider);
      assert forall c :: c in candidates ==> c in candidates[..|candidates| - 1] || c == last;
      if RankLeq(best, last) then best
      else
        assert forall c :: c in candidates ==> RankLeq(last, c) by {
          forall c | c in candidates ensures RankLeq(last, c) {
            if c in candidates[..|candidates| - 1] { RankIsTransitive(last, best, c); }
          }
        }
        last
  }

  lemma RankIsTransitive(a: RoutingCandidate, b: RoutingCandidate, c: RoutingCandidate)
    requires RankLeq(a, b) && RankLeq(b, c)
    ensures RankLeq(a, c)
  {
    if a.degraded == b.degraded == c.degraded {
      NameOrderIsTransitive(a.provider, b.provider, c.provider);
    }
  }

  lemma BestIsUnique(candidates: seq<RoutingCandidate>, c: RoutingCandidate)
    requires c in candidates && forall d :: d in candidates ==> RankLeq(c, d)
    ensures c == Best(candidates)
  {
    NameOrderIsTotal(c.provider, Best(candidates).provider);
  }

  function Select(candidates: seq<RoutingCandidate>): Option<string> {
    if candidates == [] then None else Some(Best(candidates).provider)
  }

  // ---------------------------------------------------------------- the chain, as a function

  datatype Agent = Planner | Policy(allow: bool) | Cost(within: bool) | Health | Provider

  datatype HealthDecision = HealthDecision(healthy: seq<string>, degraded: seq<string>, excluded: seq<string>)

  datatype Outcome = Selected | NoCandidate | AllUnhealthy | BlockedByPolicy | BudgetExceeded

  /** What the agents have written so far. */
  datatype Scratch = Scratch(
    org: Org,
    candidates: seq<string>,
    policy: Option<bool>,
    cost: Option<bool>,
    health: Option<HealthDecision>,
    selected: Option<string>,
    confidence: Option<real>)

  datatype Decision = Decision(
    outcome: Outcome,
    selected: Option<string>,
    confidence: Option<real>,
    health: Option<HealthDecision>,
    steps: seq<Agent>)

  /** The providers an assessment reports in one state, in order. */
  function InState(assessments: seq<ProviderCircuit>, state: CircuitState): seq<string> {
    if assessments == [] then []
    else
      var last := assessments[|assessments| - 1];
      InState(assessments[..|assessments| - 1], state) + if last.state == state then [last.provider] else []
  }

  function Sorted(assessments: seq<ProviderCircuit>): HealthDecision {
    HealthDecision(InState(assessments, Closed), InState(assessments, HalfOpen), InState(assessments, Open))
  }

  function Candidates(names: seq<string>, degraded: bool): (cs: seq<RoutingCandidate>)
    ensures |cs| == |names|
    ensures forall i :: 0 <= i < |cs| ==> cs[i] == RoutingCandidate(names[i], degraded)
  {
    seq(|names|, i requires 0 <= i < |names| => RoutingCandidate(names[i], degraded))
  }

  function Usable(health: Option<HealthDecision>): seq<RoutingCandidate> {
    if health.None? then []
    else Candidates(health.value.healthy, false) + Candidates(health.value.degraded, true)
  }

  function Contributed(cfg: Config, agent: Agent, s: Scratch, circuits: map<Key, Circuit>, now: int)
    : (Scratch, map<Key, Circuit>)
  {
    match agent
    case Planner => (s, circuits)
    case Policy(allow) => (s.(policy := Some(allow)), circuits)
    case Cost(within) => (s.(cost := Some(within)), circuits)
    case Health =>
      (s.(health := Some(Sorted(Assessments(cfg, circuits, s.org, s.candidates, now)))),
       AfterAssess(cfg, circuits, s.org, s.candidates, now))
    case Provider =>
      var usable := Usable(s.health);
      if usable == [] then (s, circuits)
      else (s.(selected := Select(usable), confidence := Some(1.0 / |usable| as real)), circuits)
  }

  function TerminalOutcome(s: Scratch): Option<Outcome> {
    if s.policy == Some(false) then Some(BlockedByPolicy)
    else if s.cost == Some(false) then Some(BudgetExceeded)
    else if s.health.Some? && s.health.value.healthy == [] && s.health.value.degraded == [] && s.candidates != []
    then Some(AllUnhealthy)
    else None
  }

  function Build(s: Scratch, steps: seq<Agent>, outcome: Outcome): Decision {
    var selected := if outcome.Selected? then s.selected else None;
    var confidence := if selected.Some? && selected.value != "" then s.confidence else None;
    Decision(outcome, selected, confidence, s.health, steps)
  }

  function Decided(cfg: Config, agents: seq<Agent>, s: Scratch, circuits: map<Key, Circuit>, now: int,
                   steps: seq<Agent>): (Decision, map<Key, Circuit>)
    decreases |agents|
  {
    if agents == [] then (Build(s, steps, if s.selected.Some? then Selected else NoCandidate), circuits)
    else
      var (next, after) := Contributed(cfg, agents[0], s, circuits, now);
      var taken := steps + [agents[0]];
      if TerminalOutcome(next).Some? then (Build(next, taken, TerminalOutcome(next).value), after)
      else Decided(cfg, agents[1..], next, after, now, taken)
  }

  function Fresh(org: Org, candidates: seq<string>): Scratch {
    Scratch(org, candidates, None, None, None, None, None)
  }

  // ---------------------------------------------------------------- the chain, as it runs

  class AgentContext {
    const org: Org
    const candidates: seq<string>
    var policy: Option<bool>
    var cost: Option<bool>
    var health: Option<HealthDecision>
    var selected: Option<string>
    var confidence: Option<real>

    constructor (org: Org, candidates: seq<string>)
      ensures Snapshot() == Fresh(org, candidates)
    {
      this.org, this.candidates := org, candidates;
      policy, cost, health, selected, confidence := None, None, None, None, None;
    }

    function Snapshot(): Scratch
      reads this
    {
      Scratch(org, candidates, policy, cost, health, selected, confidence)
    }
  }

  /** Three lists built in one pass over the assessments. */
  method Partition(assessments: seq<ProviderCircuit>) returns (h: HealthDecision)
    ensures h == Sorted(assessments)
  {
    var healthy: seq<string>, degraded: seq<string>, excluded: seq<string> := [], [], [];
    for i := 0 to |assessments|
      invariant HealthDecision(healthy, degraded, excluded) == Sorted(assessments[..i])
    {
      var a := assessments[i];
      assert assessments[..i + 1][..i] == assessments[..i];
      match a.state
      case Open => excluded := excluded + [a.provider];
      case HalfOpen => degraded := degraded + [a.provider];
      case Closed => healthy := healthy + [a.provider];
    }
    assert assessments[..|assessments|] == assessments;
    h := HealthDecision(healthy, degraded, excluded);
  }

  class AgentRuntime {
    const agents: seq<Agent>
    const breaker: InMemoryCircuitBreaker

    constructor (agents: seq<Agent>, breaker: InMemoryCircuitBreaker)
      requires agents != []
      ensures this.agents == agents && this.breaker == breaker
    {
      this.agents, this.breaker := agents, breaker;
    }

    method Contribute(agent: Agent, context: AgentContext, now: int)
      modifies context, breaker
      ensures (context.Snapshot(), breaker.circuits) ==
              Contributed(breaker.config, agent, old(context.Snapshot()), old(breaker.circuits), now)
    {
      match agent
      case Planner =>
      case Policy(allow) => context.policy := Some(allow);
      case Cost(within) => context.cost := Some(within);
      case Health =>
        var assessments := breaker.Assess(context.org, context.candidates, now);
        var h := Partition(assessments);
        context.health := Some(h);
      case Provider =>
        var usable := Usable(context.health);
        var choice := Select(usable);
        if choice.Some? {
          context.selected := choice;
          context.confidence := Some(1.0 / |usable| as real);
        }
    }

    /** Run the chain, stopping as soon as an outcome is settled. */
    method Decide(org: Org, candidates: seq<string>, now: int) returns (d: Decision)
      modifies breaker
      ensures (d, breaker.circuits) ==
              Decided(breaker.config, agents, Fresh(org, candidates), old(breaker.circuits), now, [])
    {
      var context := new AgentContext(org, candidates);
      var steps: seq<Agent> := [];
      ghost var verdict := Decided(breaker.config, agents, Fresh(org, candidates), breaker.circuits, now, []);
      assert agents[0..] == agents;
      for i := 0 to |agents|
        invariant verdict == Decided(breaker.config, agents[i..], context.Snapshot(), breaker.circuits, now, steps)
      {
        assert agents[i..][1..] == agents[i + 1..];
        Contribute(agents[i], context, now);
        steps := steps + [agents[i]];
        var outcome := TerminalOutcome(context.Snapshot());
        if outcome.Some? {
          return Build(context.Snapshot(), steps, outcome.value);
        }
      }
      d := Build(context.Snapshot(), steps, if context.selected.Some? then Selected else NoCandidate);
    }
  }

  /** A list keeps the order of the assessments it was made from: `at` says where each of its names stood, and every
      assessment in that state stands in one of those places. */
  lemma {:induction false} ListsKeepTheOrder(assessments: seq<ProviderCircuit>, state: CircuitState)
    returns (at: seq<nat>)
    ensures |at| == |InState(assessments, state)|
    ensures forall i :: 0 <= i < |at| ==>
              at[i] < |assessments| && assessments[at[i]] == ProviderCircuit(InState(assessments, state)[i], state)
    ensures forall i, j :: 0 <= i < j < |at| ==> at[i] < at[j]
    ensures forall k :: 0 <= k < |assessments| && assessments[k].state == state ==> k in at
  {
    at := [];
    if assessments != [] {
      var n := |assessments| - 1;
      at := ListsKeepTheOrder(assessments[..n], state);
      if assessments[n].state == state {
        at := at + [n];
      }
      assert forall k :: 0 <= k < n ==> assessments[..n][k] == assessments[k];
    }
  }

  // ---------------------------------------------------------------- every chain explains itself

  /** A decision records a non-empty prefix of its chain: all of it, or up to the agent that settled it. */
  lemma {:induction false} DecisionsAreExplained(cfg: Config, agents: seq<Agent>, s: Scratch,
                                                 circuits: map<Key, Circuit>, now: int, steps: seq<Agent>)
    requires agents != []
    ensures var d := Decided(cfg, agents, s, circuits, now, steps).0;
            exists n :: 0 < n <= |agents| && d.steps == steps + agents[..n] &&
                        (n < |agents| ==> d.outcome in {BlockedByPolicy, BudgetExceeded, AllUnhealthy})
  {
    var (next, after) := Contributed(cfg, agents[0], s, circuits, now);
    var d := Decided(cfg, agents, s, circuits, now, steps).0;
    if TerminalOutcome(next).Some? || |agents| == 1 {
      var end := Decided(cfg, [], next, after, now, steps + [agents[0]]).0;
      assert TerminalOutcome(next).None? ==> agents[1..] == [] && d == end;
      assert d.steps == steps + agents[..1];
    } else {
      var taken := steps + [agents[0]];
      DecisionsAreExplained(cfg, agents[1..], next, after, now, taken);
      var n :| 0 < n <= |agents| - 1 && d.steps == taken + agents[1..][..n] &&
               (n < |agents| - 1 ==> d.outcome in {BlockedByPolicy, BudgetExceeded, AllUnhealthy});
      assert d.steps == steps + agents[..n + 1];
    }
  }

  /** An agent that has nothing to object to. */
  predicate Willing(agent: Agent) { agent.Planner? || agent == Policy(true) || agent == Cost(true) }

  /** The first agent that objects settles the decision, whoever comes after it: no candidate's circuit is looked at,
      and nothing is selected. */
  lemma {:induction false} RefusingAgentsSettleIt(cfg: Config, before: seq<Agent>, refusing: Agent, later: seq<Agent>,
                                                  s: Scratch, circuits: map<Key, Circuit>, now: int, steps: seq<Agent>)
    requires forall i :: 0 <= i < |before| ==> Willing(before[i])
    requires refusing == Policy(false) || (refusing == Cost(false))
    requires TerminalOutcome(s).None? && s.health.None?
    ensures Decided(cfg, before + ([refusing] + later), s, circuits, now, steps) ==
            (Decision(if refusing.Policy? then BlockedByPolicy else BudgetExceeded, None, None, None,
                      steps + (before + [refusing])),
             circuits)
  {
    var agents := before + ([refusing] + later);
    if before == [] {
      assert agents[0] == refusing && steps + [refusing] == steps + (before + [refusing]);
    } else {
      var next := Contributed(cfg, before[0], s, circuits, now).0;
      RefusingAgentsSettleIt(cfg, before[1..], refusing, later, next, circuits, now, steps + [before[0]]);
      assert agents[0] == before[0] && agents[1..] == before[1..] + ([refusing] + later);
      assert (steps + [before[0]]) + (before[1..] + [refusing]) == steps + (before + [refusing]);
    }
  }

  // ---------------------------------------------------------------- the chain as wired

  const WIRED: seq<Agent> := [Planner, Policy(true), Cost(true), Health, Provider]

  /** The state a candidate's circuit is in when routing looks at it. */
  function SeenAs(cfg: Config, circuits: map<Key, Circuit>, org: Org, name: string, now: int): CircuitState {
    StateOf(Assessed(cfg, Lookup(circuits, (org, name)), now))
  }

  lemma {:induction false} InStateMembers(cfg: Config, circuits: map<Key, Circuit>, org: Org,
                                          names: seq<string>, now: int, state: CircuitState, name: string)
    ensures name in InState(Assessments(cfg, circuits, org, names, now), state) <==>
            name in names && SeenAs(cfg, circuits, org, name, now) == state
  {
    if names != [] {
      var before := names[..|names| - 1];
      InStateMembers(cfg, circuits, org, before, now, state, name);
      var all := Assessments(cfg, circuits, org, names, now);
      assert all[..|names| - 1] == Assessments(cfg, circuits, org, before, now);
      assert name in names <==> name in before || name == names[|names| - 1];
    }
  }

  function Route(cfg: Config, circuits: map<Key, Circuit>, org: Org, names: seq<string>, now: int): Decision {
    Decided(cfg, WIRED, Fresh(org, names), circuits, now, []).0
  }

  /** The planner and the two agents that agree leave the decision to the last two. */
  lemma WiredChainAgrees(cfg: Config, circuits: map<Key, Circuit>, org: Org, names: seq<string>, now: int)
    ensures var s := Fresh(org, names).(policy := Some(true), cost := Some(true));
            Decided(cfg, WIRED, Fresh(org, names), circuits, now, []) ==
            Decided(cfg, [Health, Provider], s, circuits, now, WIRED[..3])
  {
    var s0 := Fresh(org, names);
    var s2 := s0.(policy := Some(true));
    var a1, a2, a3 := WIRED[1..], WIRED[2..], [Health, Provider];
    assert WIRED[1..] == a1 && a1[1..] == a2 && a2[1..] == a3;
    var t1, t2, t3 := [Planner], [Planner, Policy(true)], WIRED[..3];
    assert [] + [WIRED[0]] == t1 && t1 + [a1[0]] == t2 && t2 + [a2[0]] == t3;
    assert Decided(cfg, WIRED, s0, circuits, now, []) == Decided(cfg, a1, s0, circuits, now, t1);
    assert Decided(cfg, a1, s0, circuits, now, t1) == Decided(cfg, a2, s2, circuits, now, t2);
  }

  /** The wired chain reduced to its last two agents. */
  lemma WiredChain(cfg: Config, circuits: map<Key, Circuit>, org: Org, names: seq<string>, now: int)
    ensures var health := Sorted(Assessments(cfg, circuits, org, names, now));
            var after := AfterAssess(cfg, circuits, org, names, now);
            var usable := Usable(Some(health));
            var d := Route(cfg, circuits, org, names, now);
            && Decided(cfg, WIRED, Fresh(org, names), circuits, now, []).1 == after
            && d.outcome == (if usable != [] then Selected else if names != [] then AllUnhealthy else NoCandidate)
            && d.selected == Select(usable)
            && d.health == Some(health)
            && d.confidence == if usable == [] || Best(usable).provider == "" then None
                               else Some(1.0 / |usable| as real)
  {
    WiredChainAgrees(cfg, circuits, org, names, now);
    var h := Some(Sorted(Assessments(cfg, circuits, org, names, now)));
    assert [Health, Provider][1..] == [Provider] && [Provider][1..] == [];
    assert h.value.healthy == [] && h.value.degraded == [] <==> Usable(h) == [];
  }

  /** Who is usable, in terms of circuits. */
  lemma UsableMembers(cfg: Config, circuits: map<Key, Circuit>, org: Org, names: seq<string>, now: int,
                      c: RoutingCandidate)
    ensures c in Usable(Some(Sorted(Assessments(cfg, circuits, org, names, now)))) <==>
            c.provider in names &&
            SeenAs(cfg, circuits, org, c.provider, now) == if c.degraded then HalfOpen else Closed
  {
    var h := Sorted(Assessments(cfg, circuits, org, names, now));
    var mine := if c.degraded then h.degraded else h.healthy;
    InStateMembers(cfg, circuits, org, names, now, if c.degraded then HalfOpen else Closed, c.provider);
    if c.provider in mine {
      var i :| 0 <= i < |mine| && mine[i] == c.provider;
      assert Candidates(mine, c.degraded)[i] == c;
    }
  }

  predicate Down(cfg: Config, circuits: map<Key, Circuit>, org: Org, name: string, now: int) {
    SeenAs(cfg, circuits, org, name, now).Open?
  }

  /** Which outcome the wired chain reaches, and which provider it selects. */
  lemma RoutingTakesTheBestUsable(cfg: Config, circuits: map<Key, Circuit>, org: Org, names: seq<string>, now: int)
    ensures var d := Route(cfg, circuits, org, names, now);
            && (d.outcome.NoCandidate? <==> names == [])
            && (d.outcome.AllUnhealthy? <==>
                names != [] && forall n :: n in names ==> Down(cfg, circuits, org, n, now))
            && (d.outcome.Selected? <==> exists n :: n in names && !Down(cfg, circuits, org, n, now))
            && (d.selected.Some? <==> d.outcome.Selected?)
    ensures var d := Route(cfg, circuits, org, names, now);
            d.selected.Some? ==>
              var best := d.selected.value;
              && best in names
              && !Down(cfg, circuits, org, best, now)
              && forall n :: n in names && !Down(cfg, circuits, org, n, now) ==>
                   && (SeenAs(cfg, circuits, org, n, now).Closed? ==> SeenAs(cfg, circuits, org, best, now).Closed?)
                   && (SeenAs(cfg, circuits, org, n, now) == SeenAs(cfg, circuits, org, best, now) ==>
                         NameLeq(best, n))
  {
    WiredChain(cfg, circuits, org, names, now);
    var usable := Usable(Some(Sorted(Assessments(cfg, circuits, org, names, now))));
    forall n | n in names && !Down(cfg, circuits, org, n, now)
      ensures RoutingCandidate(n, SeenAs(cfg, circuits, org, n, now).HalfOpen?) in usable
    {
      UsableMembers(cfg, circuits, org, names, now,
                    RoutingCandidate(n, SeenAs(cfg, circuits, org, n, now).HalfOpen?));
    }
    if usable != [] {
      UsableMembers(cfg, circuits, org, names, now, Best(usable));
    }
  }

  /** How many candidates are up, repeats counted. */
  function UpCount(cfg: Config, circuits: map<Key, Circuit>, org: Org, names: seq<string>, now: int): nat {
    if names == [] then 0
    else
      UpCount(cfg, circuits, org, names[..|names| - 1], now) +
      if Down(cfg, circuits, org, names[|names| - 1], now) then 0 else 1
  }

  lemma {:induction false} UpCountIsUsable(cfg: Config, circuits: map<Key, Circuit>, org: Org, names: seq<string>,
                                           now: int)
    ensures var h := Sorted(Assessments(cfg, circuits, org, names, now));
            |h.healthy| + |h.degraded| == UpCount(cfg, circuits, org, names, now)
  {
    if names != [] {
      var before := names[..|names| - 1];
      UpCountIsUsable(cfg, circuits, org, before, now);
      assert Assessments(cfg, circuits, org, names, now)[..|names| - 1] == Assessments(cfg, circuits, org, before, now);
    }
  }

  /** What a decision reports of its candidates: each in the list its circuit's state puts it in. */
  lemma DecisionsReportTheCircuits(cfg: Config, circuits: map<Key, Circuit>, org: Org, names: seq<string>, now: int,
                                   name: string)
    ensures var h := Route(cfg, circuits, org, names, now).health;
            && h.Some?
            && (name in h.value.healthy <==> name in names && SeenAs(cfg, circuits, org, name, now).Closed?)
            && (name in h.value.degraded <==> name in names && SeenAs(cfg, circuits, org, name, now).HalfOpen?)
            && (name in h.value.excluded <==> name in names && SeenAs(cfg, circuits, org, name, now).Open?)
  {
    WiredChain(cfg, circuits, org, names, now);
    InStateMembers(cfg, circuits, org, names, now, Closed, name);
    InStateMembers(cfg, circuits, org, names, now, HalfOpen, name);
    InStateMembers(cfg, circuits, org, names, now, Open, name);
  }

  predicate OneInSoMany(d: Decision, up: nat) {
    && (d.confidence.Some? <==> d.selected.Some? && d.selected.value != "")
    && (d.confidence.Some? ==> up > 0 && d.confidence.value == 1.0 / up as real)
  }

  lemma ConfidenceOfAChoice(d: Decision, usable: seq<RoutingCandidate>, up: nat)
    requires d.selected == Select(usable) && |usable| == up
    requires d.confidence ==
             if usable == [] || Best(usable).provider == "" then None else Some(1.0 / |usable| as real)
    ensures OneInSoMany(d, up)
  {
  }

  /** With a choice, the confidence is one over the number of candidates that are up. */
  lemma ConfidenceIsOneInSoMany(cfg: Config, circuits: map<Key, Circuit>, org: Org, names: seq<string>, now: int)
    ensures OneInSoMany(Route(cfg, circuits, org, names, now), UpCount(cfg, circuits, org, names, now))
  {
    WiredChain(cfg, circuits, org, names, now);
    UpCountIsUsable(cfg, circuits, org, names, now);
    var usable := Usable(Some(Sorted(Assessments(cfg, circuits, org, names, now))));
    ConfidenceOfAChoice(Route(cfg, circuits, org, names, now), usable, UpCount(cfg, circuits, org, names, now));
  }

  /** The same candidates in any order, with any repeats, route the same way. */
  lemma CatalogOrderDoesNotMatter(cfg: Config, circuits: map<Key, Circuit>, org: Org,
                                  these: seq<string>, those: seq<string>, now: int)
    requires forall n :: n in these <==> n in those
    ensures Route(cfg, circuits, org, these, now).outcome == Route(cfg, circuits, org, those, now).outcome
    ensures Route(cfg, circuits, org, these, now).selected == Route(cfg, circuits, org, those, now).selected
  {
    WiredChain(cfg, circuits, org, these, now);
    WiredChain(cfg, circuits, org, those, now);
    var a := Usable(Some(Sorted(Assessments(cfg, circuits, org, these, now))));
    var b := Usable(Some(Sorted(Assessments(cfg, circuits, org, those, now))));
    if b != [] { assert b[0] in b; }
    forall c ensures c in a <==> c in b {
      UsableMembers(cfg, circuits, org, these, now, c);
      UsableMembers(cfg, circuits, org, those, now, c);
    }
    if a != [] {
      assert a[0] in b;
      BestIsUnique(b, Best(a));
    }
    if these != [] { assert these[0] in these; }
    if those != [] { assert those[0] in those; }
  }

  // ---------------------------------------------------------------- the engine

  datatype Descriptor = Descriptor(name: string, model: string, region: string)

  datatype Execution =
    | Routed(decision: Decision, provider: Descriptor)
    | Declined(decision: Decision)
    | IntegrityError(selected: Option<string>)

  function Names(catalog: seq<Descriptor>): (names: seq<string>)
    ensures |names| == |catalog| && forall i :: 0 <= i < |names| ==> names[i] == catalog[i].name
  {
    seq(|catalog|, i requires 0 <= i < |catalog| => catalog[i].name)
  }

  /** The first descriptor of that name. */
  function Get(catalog: seq<Descriptor>, name: string): (found: Option<Descriptor>)
    ensures found.Some? <==> name in Names(catalog)
    ensures found.Some? ==>
      exists i :: 0 <= i < |catalog| && catalog[i] == found.value && found.value.name == name &&
                  name !in Names(catalog[..i])
  {
    if catalog == [] then None
    else
      var rest := catalog[..|catalog| - 1];
      var last := catalog[|catalog| - 1];
      var found := Get(rest, name);
      assert name in Names(catalog) <==> name in Names(rest) || name == last.name by {
        assert Names(catalog) == Names(rest) + [last.name];
      }
      if found.Some? then
        assert forall i :: 0 <= i < |rest| ==> catalog[i] == rest[i] && catalog[..i] == rest[..i];
        found
      else if last.name == name then Some(last)
      else None
  }

  /** Candidates from one reading of the catalog, the selected provider from a second. */
  method Engine(runtime: AgentRuntime, catalog: seq<Descriptor>, later: seq<Descriptor>, org: Org, now: int)
    returns (e: Execution)
    modifies runtime.breaker
    ensures var (d, after) :=
              Decided(runtime.breaker.config, runtime.agents, Fresh(org, Names(catalog)),
                      old(runtime.breaker.circuits), now, []);
            && runtime.breaker.circuits == after
            && e == Resolved(d, later)
  {
    var decision := runtime.Decide(org, Names(catalog), now);
    if decision.outcome != Selected {
      return Declined(decision);
    }
    var provider := Get(later, if decision.selected.Some? then decision.selected.value else "");
    if provider.None? {
      return IntegrityError(decision.selected);
    }
    return Routed(decision, provider.value);
  }

  function Resolved(d: Decision, later: seq<Descriptor>): Execution {
    if !d.outcome.Selected? then Declined(d)
    else
      var provider := Get(later, if d.selected.Some? then d.selected.value else "");
      if provider.None? then IntegrityError(d.selected) else Routed(d, provider.value)
  }

  /** The integrity error means exactly that the selected name left the catalog between the two readings; with an
      unchanged catalog it cannot happen. */
  lemma IntegrityErrorMeansTheCatalogMoved(cfg: Config, circuits: map<Key, Circuit>, org: Org,
                                           catalog: seq<Descriptor>, later: seq<Descriptor>, now: int)
    ensures var d := Route(cfg, circuits, org, Names(catalog), now);
            Resolved(d, later).IntegrityError? <==>
              d.selected.Some? && d.selected.value in Names(catalog) && d.selected.value !in Names(later)
    ensures !Resolved(Route(cfg, circuits, org, Names(catalog), now), catalog).IntegrityError?
    ensures var d := Route(cfg, circuits, org, Names(catalog), now);
            var e := Resolved(d, later);
            && (e.Declined? <==> forall n :: n in Names(catalog) ==> Down(cfg, circuits, org, n, now))
            && (e.Routed? ==> e.provider in later && d.selected == Some(e.provider.name))
            && (if e.IntegrityError? then e.selected == d.selected else e.decision == d)
  {
    RoutingTakesTheBestUsable(cfg, circuits, org, Names(catalog), now);
  }
}
