/** The bucket shared through Redis, whose keys expire, and the fallback to per-replica buckets. */
module SharedBuckets {
  import opened Ledger
  import opened TokenBucket

  // ---------------------------------------------------------------- the script

  /** The stored hash and the moment from which the store may drop it. */
  datatype Stored = Stored(tokens: real, updatedAt: real, expiresAt: real)

  class RedisTokenBucketRateLimiter<Key(==)> {
    const policy: Policy
    var store: map<Key, Stored>

    constructor (policy: Policy)
      ensures this.policy == policy && store == map[]
    {
      this.policy := policy;
      store := map[];
    }

    /** One evaluation of the script. `up` is false when the store cannot answer; `gone` says that it has
        already dropped the key, which it may do only once the key has expired. */
    method Acquire(up: bool, key: Key, now: real, gone: bool) returns (d: Option<Decision>)
      requires policy.Valid()
      requires gone && key in store ==> store[key].expiresAt <= now
      modifies this
      ensures !up ==> d == None && store == old(store)
      ensures up ==>
                var step := Script(policy, Fetch(old(store), key, gone), now);
                d == Some(step.1) && store == old(store)[key := step.0]
    {
      if !up { return None; }
      var rate, burst := policy.rate, policy.burst as real;
      var tokens, updatedAt := burst, now;
      if key in store && !gone {
        tokens, updatedAt := store[key].tokens, store[key].updatedAt;
      }
      tokens := MinReal(burst, tokens + Accrued(policy, updatedAt, now));
      var allowed := tokens >= 1.0;
      if allowed {
        tokens := tokens - 1.0;
      }
      var ttl := MaxInt(1, Ceil((burst - tokens) / rate));
      store := store[key := Stored(tokens, now, now + ttl as real)];
      var retryAfter := 0;
      if !allowed {
        retryAfter := MaxInt(1, Ceil((1.0 - tokens) / rate));
      }
      d := Some(Decision(allowed, policy.burst, tokens.Floor, ttl,
                         if allowed then None else Some(MaxInt(1, retryAfter))));
    }
  }

  function Fetch<Key(==)>(store: map<Key, Stored>, key: Key, gone: bool): Option<Stored> {
    if key in store && !gone then Some(store[key]) else None
  }

  /** What the script stores and answers. */
  function Script(p: Policy, stored: Option<Stored>, now: real): (Stored, Decision)
    requires p.Valid()
  {
    var ready :=
      match stored
      case None => Refill(p, Bucket(p.burst as real, now), now)
      case Some(v) => Refill(p, Bucket(v.tokens, v.updatedAt), now);
    var left := Take(ready).tokens;
    var ttl := MaxInt(1, Ceil((p.burst as real - left) / p.rate));
    var allowed := ready.tokens >= 1.0;
    var retryAfter := if allowed then None else Some(MaxInt(1, Ceil((1.0 - left) / p.rate)));
    (Stored(left, now, now + ttl as real), Decision(allowed, p.burst, left.Floor, ttl, retryAfter))
  }

  // ---------------------------------------------------------------- expiry changes no answer

  /** The same level in both, and by the time the stored key expires the bucket is full again. */
  predicate SameLevel(p: Policy, b: Bucket, v: Stored) {
    && b == Bucket(v.tokens, v.updatedAt)
    && 0.0 <= b.tokens <= p.burst as real
    && b.updatedAt <= v.expiresAt
    && Accrued(p, b.updatedAt, v.expiresAt) >= p.burst as real - b.tokens
  }

  lemma AccruedIsMonotone(p: Policy, from: real, to: real, later: real)
    requires p.Valid() && from <= to <= later
    ensures Accrued(p, from, to) <= Accrued(p, from, later)
  {
    assert (later - to) * p.rate >= 0.0;
    AccruedAdds(p, from, to, later);
  }

  lemma ExpiredMeansFull(p: Policy, b: Bucket, v: Stored, now: real)
    requires p.Valid() && SameLevel(p, b, v) && v.expiresAt <= now
    ensures Refill(p, b, now) == Bucket(p.burst as real, now)
  {
    AccruedIsMonotone(p, b.updatedAt, v.expiresAt, now);
  }

  lemma ReadyAlike(p: Policy, b: Option<Bucket>, stored: Option<Stored>, now: real)
    requires p.Valid()
    requires b.None? ==> stored.None?
    requires b.Some? && stored.Some? ==> SameLevel(p, b.value, stored.value)
    requires b.Some? && stored.None? ==> exists v: Stored :: SameLevel(p, b.value, v) && v.expiresAt <= now
    ensures var ready := Ready(p, b, now);
            && 0.0 <= ready.tokens <= p.burst as real
            && ready == match stored
                        case None => Refill(p, Bucket(p.burst as real, now), now)
                        case Some(v) => Refill(p, Bucket(v.tokens, v.updatedAt), now)
  {
    assert Accrued(p, now, now) == 0.0;
    if b.Some? {
      if stored.None? {
        var v: Stored :| SameLevel(p, b.value, v) && v.expiresAt <= now;
        ExpiredMeansFull(p, b.value, v, now);
      }
      AccruedNonNegative(p, b.value.updatedAt, now);
    }
  }

  lemma AccruedNonNegative(p: Policy, from: real, to: real)
    requires p.Valid()
    ensures Accrued(p, from, to) >= 0.0
  {
  }

  /** The stored key outlives the time to full. */
  lemma FullByExpiry(p: Policy, ready: Bucket, now: real)
    requires p.Valid() && ready.updatedAt == now && 0.0 <= ready.tokens <= p.burst as real
    ensures var left := Take(ready).tokens;
            var ttl := MaxInt(1, Ceil((p.burst as real - left) / p.rate));
            SameLevel(p, Take(ready), Stored(left, now, now + ttl as real))
  {
    var left := Take(ready).tokens;
    var wait := (p.burst as real - left) / p.rate;
    var ttl := MaxInt(1, Ceil(wait));
    CeilIsTheLeastAbove(wait, ttl);
    EnoughAccrues(p, now, now + ttl as real, p.burst as real - left);
  }

  /** One access: every field of the two answers is equal, and so are the levels left behind. */
  lemma SameAnswer(p: Policy, b: Option<Bucket>, stored: Option<Stored>, now: real)
    requires p.Valid()
    requires b.None? ==> stored.None?
    requires b.Some? && stored.Some? ==> SameLevel(p, b.value, stored.value)
    requires b.Some? && stored.None? ==> exists v: Stored :: SameLevel(p, b.value, v) && v.expiresAt <= now
    ensures Script(p, stored, now).1 == Decide(p, Ready(p, b, now))
    ensures SameLevel(p, Take(Ready(p, b, now)), Script(p, stored, now).0)
  {
    ReadyAlike(p, b, stored, now);
    FullByExpiry(p, Ready(p, b, now), now);
    PositiveDeficit(p, Ready(p, b, now));
  }

  /** After any access the bucket is not full, and a denied one holds less than a token. */
  lemma PositiveDeficit(p: Policy, ready: Bucket)
    requires p.Valid() && 0.0 <= ready.tokens <= p.burst as real
    ensures p.burst as real - Take(ready).tokens > 0.0
    ensures ready.tokens < 1.0 ==> Take(ready).tokens.Floor == 0
  {
  }

  /** An access, and whether the store had dropped the key by then. */
  datatype Access<Key> = Access(event: Event<Key>, gone: bool)

  function Stores<Key(==)>(p: Policy, run: seq<Access<Key>>): map<Key, Stored>
    requires p.Valid()
  {
    if run == [] then map[]
    else
      var before, a := Stores(p, run[..|run| - 1]), run[|run| - 1];
      before[a.event.key := Script(p, Fetch(before, a.event.key, a.gone), a.event.at).0]
  }

  /** The store drops a key only after it expired. */
  predicate ExpiryKept<Key(==)>(p: Policy, run: seq<Access<Key>>)
    requires p.Valid()
  {
    forall i :: 0 <= i < |run| ==>
      run[i].gone && run[i].event.key in Stores(p, run[..i]) ==>
        Stores(p, run[..i])[run[i].event.key].expiresAt <= run[i].event.at
  }

  function EventsOf<Key>(run: seq<Access<Key>>): seq<Event<Key>> {
    seq(|run|, i requires 0 <= i < |run| => run[i].event)
  }

  ghost predicate LevelsAgree<Key>(p: Policy, buckets: map<Key, Bucket>, store: map<Key, Stored>) {
    && buckets.Keys == store.Keys
    && forall k :: k in buckets ==> SameLevel(p, buckets[k], store[k])
  }

  lemma {:induction false} LevelsAlwaysAgree<Key>(p: Policy, run: seq<Access<Key>>)
    requires p.Valid() && ExpiryKept(p, run)
    ensures LevelsAgree(p, After(p, map[], EventsOf(run)), Stores(p, run))
  {
    if run != [] {
      var before, a := run[..|run| - 1], run[|run| - 1];
      assert EventsOf(run)[..|run| - 1] == EventsOf(before);
      assert forall i :: 0 <= i < |before| ==> before[..i] == run[..i];
      LevelsAlwaysAgree(p, before);
      var buckets, store := After(p, map[], EventsOf(before)), Stores(p, before);
      SameAnswer(p, Lookup(buckets, a.event.key), Fetch(store, a.event.key, a.gone), a.event.at);
    }
  }

  /** On any run of accesses, whatever the store drops after expiry, the next answer equals the
      never-expiring limiter's in every field. */
  lemma ExpiryChangesNoAnswer<Key>(p: Policy, run: seq<Access<Key>>, next: Access<Key>)
    requires p.Valid() && ExpiryKept(p, run + [next])
    ensures Script(p, Fetch(Stores(p, run), next.event.key, next.gone), next.event.at).1 ==
            Decide(p, Ready(p, Lookup(After(p, map[], EventsOf(run)), next.event.key), next.event.at))
  {
    var all := run + [next];
    assert all[..|run|] == run;
    assert forall i :: 0 <= i < |run| ==> run[i] == all[i] && run[..i] == all[..i];
    LevelsAlwaysAgree(p, run);
    assert all[|run|] == next;
    var buckets, store := After(p, map[], EventsOf(run)), Stores(p, run);
    SameAnswer(p, Lookup(buckets, next.event.key), Fetch(store, next.event.key, next.gone), next.event.at);
  }

  // ---------------------------------------------------------------- falling back

  /** What a replica sees of one key: the shared hash, and its own bucket. */
  datatype Sight = Sight(shared: Option<Stored>, local: Option<Bucket>)

  /** One call: the shared answer when there is one, with the local bucket left alone; otherwise the local answer, with
      the shared hash left alone. */
  function Served(sharedPolicy: Policy, localPolicy: Policy, s: Sight, up: bool, gone: bool, now: real)
    : (Decision, Sight)
    requires sharedPolicy.Valid() && localPolicy.Valid()
  {
    if up then
      var step := Script(sharedPolicy, if gone then None else s.shared, now);
      (step.1, s.(shared := Some(step.0)))
    else
      var ready := Ready(localPolicy, s.local, now);
      (Decide(localPolicy, ready), s.(local := Some(Take(ready))))
  }

  function StoredOf<Key(==)>(store: map<Key, Stored>, key: Key): Option<Stored> {
    if key in store then Some(store[key]) else None
  }

  class DegradedRateLimiter<Key(==, !new)> {
    const shared: RedisTokenBucketRateLimiter<Key>
    const local: InMemoryTokenBucketRateLimiter<Key>
    var degraded: bool

    constructor (shared: RedisTokenBucketRateLimiter<Key>, local: InMemoryTokenBucketRateLimiter<Key>)
      ensures this.shared == shared && this.local == local && !degraded
    {
      this.shared := shared;
      this.local := local;
      degraded := false;
    }

    function SightOf(key: Key): Sight
      reads shared, local
    {
      Sight(StoredOf(shared.store, key), Lookup(local.buckets, key))
    }

    /** Ask the shared bucket, and the local one if there is no answer. The flag tells which it was; no other key
        moves. */
    method Acquire(up: bool, key: Key, now: real, gone: bool) returns (d: Decision)
      requires shared.policy.Valid() && local.policy.Valid()
      requires gone && key in shared.store ==> shared.store[key].expiresAt <= now
      modifies this, shared, local
      ensures degraded == !up
      ensures (d, SightOf(key)) == Served(shared.policy, local.policy, old(SightOf(key)), up, gone, now)
      ensures forall other :: other != key ==> SightOf(other) == old(SightOf(other))
    {
      var decision := shared.Acquire(up, key, now, gone);
      if decision.None? {
        degraded := true;
        d := local.Acquire(key, now);
      } else {
        degraded := false;
        d := decision.value;
      }
    }
  }

  /** Where one tenant's request is counted. */
  datatype Place = Shared | Local(replica: nat)

  /** A request of the tenant reaching a replica, and whether the shared store could answer. */
  datatype Request = Request(replica: nat, at: real, up: bool)

  function PlaceOf(r: Request): Place { if r.up then Shared else Local(r.replica) }

  function Placed(rs: seq<Request>): seq<Event<Place>> {
    seq(|rs|, i requires 0 <= i < |rs| => Event(PlaceOf(rs[i]), rs[i].at))
  }

  /** All admissions of the tenant, wherever counted. */
  function Admitted(p: Policy, buckets: map<Place, Bucket>, run: seq<Event<Place>>): int {
    if run == [] then 0
    else
      var before, e := After(p, buckets, run[..|run| - 1]), run[|run| - 1];
      Admitted(p, buckets, run[..|run| - 1]) +
      (if Ready(p, Lookup(before, e.key), e.at).tokens >= 1.0 then 1 else 0)
  }

  function LocallyAdmitted(p: Policy, buckets: map<Place, Bucket>, run: seq<Event<Place>>, replicas: nat): int {
    if replicas == 0 then 0
    else LocallyAdmitted(p, buckets, run, replicas - 1) + Allowed(p, buckets, run, Local(replicas - 1))
  }

  lemma {:induction false} LocalStep(p: Policy, buckets: map<Place, Bucket>, run: seq<Event<Place>>, replicas: nat)
    requires run != []
    ensures var e, before := run[|run| - 1], run[..|run| - 1];
            LocallyAdmitted(p, buckets, run, replicas) == LocallyAdmitted(p, buckets, before, replicas) +
              (if e.key.Local? && e.key.replica < replicas &&
                  Ready(p, Lookup(After(p, buckets, before), e.key), e.at).tokens >= 1.0 then 1 else 0)
  {
    if replicas > 0 {
      LocalStep(p, buckets, run, replicas - 1);
    }
  }

  lemma {:induction false} LocalsOfNothing(p: Policy, buckets: map<Place, Bucket>, replicas: nat)
    ensures LocallyAdmitted(p, buckets, [], replicas) == 0
  {
    if replicas > 0 {
      LocalsOfNothing(p, buckets, replicas - 1);
    }
  }

  predicate WithinReplicas(run: seq<Event<Place>>, replicas: nat) {
    forall i :: 0 <= i < |run| ==> run[i].key.Shared? || run[i].key.replica < replicas
  }

  lemma {:induction false} AdmittedIsSharedPlusLocal(p: Policy, buckets: map<Place, Bucket>, run: seq<Event<Place>>,
                                                     replicas: nat)
    requires WithinReplicas(run, replicas)
    ensures Admitted(p, buckets, run) == Allowed(p, buckets, run, Shared) + LocallyAdmitted(p, buckets, run, replicas)
  {
    if run == [] {
      LocalsOfNothing(p, buckets, replicas);
    } else {
      AdmittedIsSharedPlusLocal(p, buckets, run[..|run| - 1], replicas);
      LocalStep(p, buckets, run, replicas);
    }
  }

  predicate InOrder<Key>(run: seq<Event<Key>>, from: real, to: real) {
    && (forall i :: 0 <= i < |run| ==> from <= run[i].at <= to)
    && (forall i, j :: 0 <= i < j < |run| ==> run[i].at <= run[j].at)
  }

  /** On a monotone clock a key's refill is at most what accrues over the whole stretch. */
  lemma {:induction false} CreditIsBounded<Key>(p: Policy, run: seq<Event<Key>>, key: Key, from: real, to: real)
    requires p.Valid() && InOrder(run, from, to) && from <= to
    ensures LastSeen(run, key).Some? ==>
              from <= LastSeen(run, key).value <= to &&
              ForwardCredit(p, run, key) <= Accrued(p, from, LastSeen(run, key).value)
    ensures LastSeen(run, key).None? ==> ForwardCredit(p, run, key) == 0.0
    ensures ForwardCredit(p, run, key) <= Accrued(p, from, to)
  {
    AccruedNonNegative(p, from, to);
    if run != [] {
      var before, at := run[..|run| - 1], run[|run| - 1].at;
      CreditIsBounded(p, before, key, from, at);
      AccruedNonNegative(p, from, at);
      AccruedIsMonotone(p, from, at, to);
      if LastSeen(before, key).Some? {
        AccruedAdds(p, from, LastSeen(before, key).value, at);
      }
    }
  }

  predicate NonNegativeLevels<Key(==)>(buckets: map<Key, Bucket>) {
    forall k :: k in buckets ==> buckets[k].tokens >= 0.0
  }

  lemma PlaceBound(p: Policy, buckets: map<Place, Bucket>, run: seq<Event<Place>>, place: Place, from: real, to: real)
    requires p.Valid() && NonNegativeLevels(buckets) && InOrder(run, from, to) && from <= to
    ensures Allowed(p, buckets, run, place) as real <= p.burst as real + Accrued(p, from, to)
  {
    SegmentBoundByCredit(p, buckets, run, place);
    CreditIsBounded(p, run, place, from, to);
  }

  /** So many equal shares. */
  function Shares(n: nat, share: real): real {
    if n == 0 then 0.0 else Shares(n - 1, share) + share
  }

  lemma {:induction false} SharesMultiply(n: nat, share: real)
    ensures Shares(n, share) == n as real * share
  {
    if n > 0 {
      SharesMultiply(n - 1, share);
      assert (n - 1) as real * share + share == ((n - 1) as real + 1.0) * share;
    }
  }

  lemma WithinAProduct(admitted: int, n: nat, share: real)
    requires admitted as real <= Shares(n, share)
    ensures admitted as real <= n as real * share
  {
    SharesMultiply(n, share);
  }

  lemma {:induction false} LocalBound(p: Policy, buckets: map<Place, Bucket>, run: seq<Event<Place>>, replicas: nat,
                                      share: real)
    requires forall place :: Allowed(p, buckets, run, place) as real <= share
    ensures LocallyAdmitted(p, buckets, run, replicas) as real <= Shares(replicas, share)
  {
    if replicas > 0 {
      LocalBound(p, buckets, run, replicas - 1, share);
    }
  }

  lemma {:induction false} NoLocalWithoutOutage(p: Policy, buckets: map<Place, Bucket>, run: seq<Event<Place>>)
    requires forall i :: 0 <= i < |run| ==> run[i].key.Shared?
    ensures Admitted(p, buckets, run) == Allowed(p, buckets, run, Shared)
  {
    if run != [] {
      NoLocalWithoutOutage(p, buckets, run[..|run| - 1]);
    }
  }

  lemma SharesAddUp(p: Policy, buckets: map<Place, Bucket>, run: seq<Event<Place>>, replicas: nat, share: real)
    requires WithinReplicas(run, replicas)
    requires forall place :: Allowed(p, buckets, run, place) as real <= share
    ensures Admitted(p, buckets, run) as real <= Shares(replicas + 1, share)
    ensures (forall i :: 0 <= i < |run| ==> run[i].key.Shared?) ==> Admitted(p, buckets, run) as real <= share
  {
    AdmittedIsSharedPlusLocal(p, buckets, run, replicas);
    LocalBound(p, buckets, run, replicas, share);
    var local := LocallyAdmitted(p, buckets, run, replicas);
    assert Admitted(p, buckets, run) as real == Allowed(p, buckets, run, Shared) as real + local as real;
    if forall i :: 0 <= i < |run| ==> run[i].key.Shared? {
      NoLocalWithoutOutage(p, buckets, run);
    }
  }

  lemma EqualShares(p: Policy, buckets: map<Place, Bucket>, rs: seq<Request>, replicas: nat, shares: nat, share: real)
    requires shares == replicas + 1 && forall i :: 0 <= i < |rs| ==> rs[i].replica < replicas
    requires forall place :: Allowed(p, buckets, Placed(rs), place) as real <= share
    ensures Admitted(p, buckets, Placed(rs)) as real <= shares as real * share
    ensures (forall i :: 0 <= i < |rs| ==> rs[i].up) ==> Admitted(p, buckets, Placed(rs)) as real <= share
  {
    SharesAddUp(p, buckets, Placed(rs), replicas, share);
    WithinAProduct(Admitted(p, buckets, Placed(rs)), shares, share);
  }

  lemma SameProduct(admitted: int, replicas: nat, shares: nat, share: real)
    requires shares == replicas + 1 && admitted as real <= shares as real * share
    ensures admitted as real <= (replicas + 1) as real * share
  {
  }

  lemma OneSharePerPlace(p: Policy, buckets: map<Place, Bucket>, rs: seq<Request>, replicas: nat, share: real)
    requires forall i :: 0 <= i < |rs| ==> rs[i].replica < replicas
    requires forall place :: Allowed(p, buckets, Placed(rs), place) as real <= share
    ensures Admitted(p, buckets, Placed(rs)) as real <= (replicas + 1) as real * share
    ensures (forall i :: 0 <= i < |rs| ==> rs[i].up) ==> Admitted(p, buckets, Placed(rs)) as real <= share
  {
    var shares := replicas + 1;
    EqualShares(p, buckets, rs, replicas, shares, share);
    SameProduct(Admitted(p, buckets, Placed(rs)), replicas, shares, share);
  }

  /** Under any pattern of outages a tenant is admitted at most one share per replica plus the shared one;
      with no outage, at most one share. */
  lemma DegradedBound(p: Policy, buckets: map<Place, Bucket>, rs: seq<Request>, replicas: nat,
                      from: real, to: real, share: real)
    requires p.Valid() && NonNegativeLevels(buckets) && from <= to
    requires forall i :: 0 <= i < |rs| ==> rs[i].replica < replicas
    requires InOrder(Placed(rs), from, to)
    requires p.burst as real + Accrued(p, from, to) <= share
    ensures Admitted(p, buckets, Placed(rs)) as real <= (replicas + 1) as real * share
    ensures (forall i :: 0 <= i < |rs| ==> rs[i].up) ==> Admitted(p, buckets, Placed(rs)) as real <= share
  {
    forall place
      ensures Allowed(p, buckets, Placed(rs), place) as real <= share
    {
      PlaceBound(p, buckets, Placed(rs), place, from, to);
    }
    OneSharePerPlace(p, buckets, rs, replicas, share);
  }

  // ---------------------------------------------------------------- a fleet of replicas

  /** One tenant's call to a replica, and whether the store had dropped its key by then. */
  datatype Call = Call(request: Request, gone: bool)

  /** One tenant's hash in the shared store and its bucket in each replica. */
  datatype Fleet = Fleet(shared: Option<Stored>, locals: map<nat, Bucket>)

  function Serving(p: Policy, f: Fleet, c: Call): (Decision, Sight)
    requires p.Valid()
  {
    Served(p, p, Sight(f.shared, Lookup(f.locals, c.request.replica)), c.request.up, c.gone, c.request.at)
  }

  function FleetStep(p: Policy, f: Fleet, c: Call): Fleet
    requires p.Valid()
  {
    var seen := Serving(p, f, c).1;
    Fleet(seen.shared, if seen.local.Some? then f.locals[c.request.replica := seen.local.value] else f.locals)
  }

  const COLD := Fleet(None, map[])

  function FleetAfter(p: Policy, start: Fleet, calls: seq<Call>): Fleet
    requires p.Valid()
  {
    if calls == [] then start else FleetStep(p, FleetAfter(p, start, calls[..|calls| - 1]), calls[|calls| - 1])
  }

  /** How many calls the replicas allowed. */
  function FleetAdmitted(p: Policy, start: Fleet, calls: seq<Call>): int
    requires p.Valid()
  {
    if calls == [] then 0
    else
      var before, c := calls[..|calls| - 1], calls[|calls| - 1];
      FleetAdmitted(p, start, before) + if Serving(p, FleetAfter(p, start, before), c).0.allowed then 1 else 0
  }

  /** The store drops the key only once it expired. */
  predicate DropsOnlyExpired(p: Policy, start: Fleet, calls: seq<Call>)
    requires p.Valid()
  {
    calls == [] ||
    (DropsOnlyExpired(p, start, calls[..|calls| - 1]) &&
     var c, shared := calls[|calls| - 1], FleetAfter(p, start, calls[..|calls| - 1]).shared;
     c.request.up && c.gone && shared.Some? ==> shared.value.expiresAt <= c.request.at)
  }

  function RequestsOf(calls: seq<Call>): seq<Request> {
    seq(|calls|, i requires 0 <= i < |calls| => calls[i].request)
  }

  /** The fleet holds what one never-expiring limiter would hold with a bucket per place. */
  ghost predicate Mirrors(p: Policy, f: Fleet, buckets: map<Place, Bucket>) {
    && (f.shared.Some? <==> Shared in buckets)
    && (f.shared.Some? ==> SameLevel(p, buckets[Shared], f.shared.value))
    && forall r :: Lookup(buckets, Local(r)) == Lookup(f.locals, r)
  }

  lemma OneCallMirrors(p: Policy, f: Fleet, buckets: map<Place, Bucket>, c: Call)
    requires p.Valid() && Mirrors(p, f, buckets)
    requires c.request.up && c.gone && f.shared.Some? ==> f.shared.value.expiresAt <= c.request.at
    ensures var place := PlaceOf(c.request);
            var ready := Ready(p, Lookup(buckets, place), c.request.at);
            && Mirrors(p, FleetStep(p, f, c), buckets[place := Take(ready)])
            && (Serving(p, f, c).0.allowed <==> ready.tokens >= 1.0)
  {
    if c.request.up {
      SameAnswer(p, Lookup(buckets, Shared), if c.gone then None else f.shared, c.request.at);
    } else {
      assert Lookup(buckets, Local(c.request.replica)) == Lookup(f.locals, c.request.replica);
    }
  }

  lemma {:induction false} FleetMirrors(p: Policy, start: Fleet, buckets: map<Place, Bucket>, calls: seq<Call>)
    requires p.Valid() && Mirrors(p, start, buckets) && DropsOnlyExpired(p, start, calls)
    ensures Mirrors(p, FleetAfter(p, start, calls), After(p, buckets, Placed(RequestsOf(calls))))
    ensures FleetAdmitted(p, start, calls) == Admitted(p, buckets, Placed(RequestsOf(calls)))
  {
    if calls != [] {
      var before, c := calls[..|calls| - 1], calls[|calls| - 1];
      FleetMirrors(p, start, buckets, before);
      var run := Placed(RequestsOf(calls));
      assert run[..|run| - 1] == Placed(RequestsOf(before));
      OneCallMirrors(p, FleetAfter(p, start, before), After(p, buckets, Placed(RequestsOf(before))), c);
    }
  }

  /** However a fleet got where it is from a cold start, some bucket per place mirrors it. */
  lemma EveryFleetMirrors(p: Policy, calls: seq<Call>) returns (buckets: map<Place, Bucket>)
    requires p.Valid() && DropsOnlyExpired(p, COLD, calls)
    ensures Mirrors(p, FleetAfter(p, COLD, calls), buckets) && NonNegativeLevels(buckets)
  {
    FleetMirrors(p, COLD, map[], calls);
    buckets := After(p, map[], Placed(RequestsOf(calls)));
    forall k | k in buckets ensures buckets[k].tokens >= 0.0 {
      TokensStayNonNegative(p, map[], Placed(RequestsOf(calls)), k);
    }
  }

  /** Replicas that call the shared script and fall back to their own buckets, under any outages and any expiries, after
      any calls `before`: in a stretch on a monotone clock one tenant is admitted at most one share per replica called
      plus the shared one, and without an outage in it at most one share. */
  lemma FleetBound(p: Policy, before: seq<Call>, calls: seq<Call>, replicas: nat, from: real, to: real, share: real)
    requires p.Valid() && from <= to
    requires DropsOnlyExpired(p, COLD, before) && DropsOnlyExpired(p, FleetAfter(p, COLD, before), calls)
    requires forall i :: 0 <= i < |calls| ==> calls[i].request.replica < replicas
    requires InOrder(Placed(RequestsOf(calls)), from, to)
    requires p.burst as real + Accrued(p, from, to) <= share
    ensures var admitted := FleetAdmitted(p, FleetAfter(p, COLD, before), calls) as real;
            && admitted <= (replicas + 1) as real * share
            && ((forall i :: 0 <= i < |calls| ==> calls[i].request.up) ==> admitted <= share)
  {
    var buckets := EveryFleetMirrors(p, before);
    FleetMirrors(p, FleetAfter(p, COLD, before), buckets, calls);
    DegradedBound(p, buckets, RequestsOf(calls), replicas, from, to, share);
  }
}
