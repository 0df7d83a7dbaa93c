/** Token buckets over real time: the in-process limiter and what any run of it admits. */
module TokenBucket {
  import opened Ledger

  datatype Policy = Policy(rate: real, burst: nat) {
    predicate Valid() { rate > 0.0 && burst >= 1 }
  }

  datatype Bucket = Bucket(tokens: real, updatedAt: real)

  datatype Decision = Decision(allowed: bool, limit: nat, remaining: int, resetSeconds: int, retryAfter: Option<int>)

  function MinReal(a: real, b: real): real { if a < b then a else b }

  function MaxInt(a: int, b: int): int { if a < b then b else a }

  function Positive(x: real): real { if x < 0.0 then 0.0 else x }

  function Ceil(x: real): int { -((-x).Floor) }

  /** What accrues between two looks; nothing when the clock went back. */
  function Accrued(p: Policy, from: real, to: real): real {
    Positive(to - from) * p.rate
  }

  /** Tokens that accrued since the last look, capped; the look itself is now, even if the clock went
      back. */
  function Refill(p: Policy, b: Bucket, now: real): Bucket {
    Bucket(MinReal(p.burst as real, b.tokens + Accrued(p, b.updatedAt, now)), now)
  }

  /** A bucket never seen starts full. */
  function Ready(p: Policy, b: Option<Bucket>, now: real): Bucket {
    match b
    case None => Bucket(p.burst as real, now)
    case Some(v) => Refill(p, v, now)
  }

  function Take(b: Bucket): Bucket {
    if b.tokens >= 1.0 then b.(tokens := b.tokens - 1.0) else b
  }

  function SecondsToNextToken(p: Policy, b: Bucket): int
    requires p.Valid()
  {
    MaxInt(1, Ceil((1.0 - b.tokens) / p.rate))
  }

  function SecondsToFull(p: Policy, b: Bucket): int
    requires p.Valid()
  {
    var deficit := p.burst as real - b.tokens;
    if deficit <= 0.0 then 0 else MaxInt(1, Ceil(deficit / p.rate))
  }

  function Decide(p: Policy, ready: Bucket): Decision
    requires p.Valid()
  {
    var after := Take(ready);
    if ready.tokens >= 1.0 then Decision(true, p.burst, after.tokens.Floor, SecondsToFull(p, after), None)
    else Decision(false, p.burst, 0, SecondsToFull(p, after), Some(SecondsToNextToken(p, after)))
  }

  // ---------------------------------------------------------------- the limiter

  class InMemoryTokenBucketRateLimiter<Key(==)> {
    const policy: Policy
    var buckets: map<Key, Bucket>

    constructor (policy: Policy)
      ensures this.policy == policy && buckets == map[]
    {
      this.policy := policy;
      buckets := map[];
    }

    method RefillBucket(bucket: Bucket, now: real) returns (refilled: Bucket)
      ensures refilled == Refill(policy, bucket, now)
    {
      var elapsed := Positive(now - bucket.updatedAt);
      refilled := Bucket(MinReal(policy.burst as real, bucket.tokens + elapsed * policy.rate), now);
    }

    /** Spend one token of `key`'s bucket if it has one; nobody else's bucket is touched. */
    method Acquire(key: Key, now: real) returns (d: Decision)
      requires policy.Valid()
      modifies this
      ensures var ready := Ready(policy, Lookup(old(buckets), key), now);
              d == Decide(policy, ready) && buckets == old(buckets)[key := Take(ready)]
    {
      var bucket: Bucket;
      if key !in buckets {
        bucket := Bucket(policy.burst as real, now);
      } else {
        bucket := RefillBucket(buckets[key], now);
      }
      if bucket.tokens >= 1.0 {
        bucket := bucket.(tokens := bucket.tokens - 1.0);
        buckets := buckets[key := bucket];
        return Decision(true, policy.burst, bucket.tokens.Floor, SecondsToFull(policy, bucket), None);
      }
      buckets := buckets[key := bucket];
      d := Decision(false, policy.burst, 0, SecondsToFull(policy, bucket), Some(SecondsToNextToken(policy, bucket)));
    }
  }

  function Lookup<Key(==)>(buckets: map<Key, Bucket>, key: Key): Option<Bucket> {
    if key in buckets then Some(buckets[key]) else None
  }

  // ---------------------------------------------------------------- runs over many keys

  datatype Event<Key> = Event(key: Key, at: real)

  /** The buckets after a run, oldest event first. */
  function After<Key(==)>(p: Policy, buckets: map<Key, Bucket>, run: seq<Event<Key>>): map<Key, Bucket> {
    if run == [] then buckets
    else
      var before, e := After(p, buckets, run[..|run| - 1]), run[|run| - 1];
      before[e.key := Take(Ready(p, Lookup(before, e.key), e.at))]
  }

  /** How many of `key`'s events in the run were allowed. */
  function Allowed<Key(==)>(p: Policy, buckets: map<Key, Bucket>, run: seq<Event<Key>>, key: Key): int {
    if run == [] then 0
    else
      var before, e := After(p, buckets, run[..|run| - 1]), run[|run| - 1];
      Allowed(p, buckets, run[..|run| - 1], key) +
      (if e.key == key && Ready(p, Lookup(before, key), e.at).tokens >= 1.0 then 1 else 0)
  }

  /** When `key` was last seen in the run, if it was. */
  function LastSeen<Key(==)>(run: seq<Event<Key>>, key: Key): Option<real> {
    if run == [] then None
    else if run[|run| - 1].key == key then Some(run[|run| - 1].at)
    else LastSeen(run[..|run| - 1], key)
  }

  /** By how much the clock moved forward between consecutive events of `key`; steps back count for
      nothing. */
  function ForwardTime<Key(==)>(run: seq<Event<Key>>, key: Key): real {
    if run == [] then 0.0
    else
      var before, e := run[..|run| - 1], run[|run| - 1];
      var last := LastSeen(before, key);
      ForwardTime(before, key) +
      (if e.key == key && last.Some? && e.at > last.value then e.at - last.value else 0.0)
  }

  /** The refill of all the forward time, as it accrues step by step. */
  function ForwardCredit<Key(==)>(p: Policy, run: seq<Event<Key>>, key: Key): real {
    if run == [] then 0.0
    else
      var before, e := run[..|run| - 1], run[|run| - 1];
      var last := LastSeen(before, key);
      ForwardCredit(p, before, key) +
      (if e.key == key && last.Some? then Accrued(p, last.value, e.at) else 0.0)
  }

  lemma {:induction false} LastSeenIsRecorded<Key>(p: Policy, buckets: map<Key, Bucket>, run: seq<Event<Key>>, key: Key)
    ensures LastSeen(run, key).Some? ==>
              key in After(p, buckets, run) && After(p, buckets, run)[key].updatedAt == LastSeen(run, key).value
    ensures LastSeen(run, key).None? ==> Lookup(After(p, buckets, run), key) == Lookup(buckets, key)
    ensures LastSeen(run, key).None? ==> Allowed(p, buckets, run, key) == 0 && ForwardCredit(p, run, key) == 0.0
  {
    if run != [] {
      LastSeenIsRecorded(p, buckets, run[..|run| - 1], key);
    }
  }

  lemma {:induction false} CreditIsRateTimesTime<Key>(p: Policy, run: seq<Event<Key>>, key: Key)
    ensures ForwardCredit(p, run, key) == p.rate * ForwardTime(run, key)
  {
    if run != [] {
      var before, e := run[..|run| - 1], run[|run| - 1];
      CreditIsRateTimesTime(p, before, key);
      var step := ForwardTime(run, key) - ForwardTime(before, key);
      assert p.rate * (ForwardTime(before, key) + step) == p.rate * ForwardTime(before, key) + p.rate * step;
    }
  }

  /** Tokens spent and tokens left never exceed a full bucket plus what accrued since. */
  lemma {:induction false} SpentPlusLeft<Key>(p: Policy, buckets: map<Key, Bucket>, run: seq<Event<Key>>, key: Key)
    requires p.Valid()
    ensures LastSeen(run, key).Some? ==>
              && key in After(p, buckets, run)
              && Allowed(p, buckets, run, key) as real + After(p, buckets, run)[key].tokens
                 <= p.burst as real + ForwardCredit(p, run, key)
  {
    if run != [] {
      var before, e := run[..|run| - 1], run[|run| - 1];
      SpentPlusLeft(p, buckets, before, key);
      LastSeenIsRecorded(p, buckets, before, key);
    }
  }

  lemma {:induction false} TokensStayNonNegative<Key>(p: Policy, buckets: map<Key, Bucket>, run: seq<Event<Key>>,
                                                      key: Key)
    requires p.Valid() && (key in buckets ==> buckets[key].tokens >= 0.0)
    ensures key in After(p, buckets, run) ==> After(p, buckets, run)[key].tokens >= 0.0
  {
    if run != [] {
      TokensStayNonNegative(p, buckets, run[..|run| - 1], key);
    }
  }

  lemma SegmentBoundByCredit<Key>(p: Policy, buckets: map<Key, Bucket>, segment: seq<Event<Key>>, key: Key)
    requires p.Valid() && (key in buckets ==> buckets[key].tokens >= 0.0)
    ensures Allowed(p, buckets, segment, key) as real <= p.burst as real + ForwardCredit(p, segment, key)
  {
    SpentPlusLeft(p, buckets, segment, key);
    TokensStayNonNegative(p, buckets, segment, key);
    LastSeenIsRecorded(p, buckets, segment, key);
  }

  /** In any segment of a run one key is allowed at most a burst plus the refill of the time that passed
      between its own events, whatever other keys do and however the clock steps back. */
  lemma SegmentBound<Key>(p: Policy, buckets: map<Key, Bucket>, segment: seq<Event<Key>>, key: Key)
    requires p.Valid() && (key in buckets ==> buckets[key].tokens >= 0.0)
    ensures Allowed(p, buckets, segment, key) as real <= p.burst as real + p.rate * ForwardTime(segment, key)
  {
    SegmentBoundByCredit(p, buckets, segment, key);
    CreditIsRateTimesTime(p, segment, key);
  }

  // ---------------------------------------------------------------- retry guidance

  lemma CeilIsTheLeastAbove(x: real, n: int)
    ensures Ceil(x) <= n <==> x <= n as real
  {
  }

  /** A denied bucket looked at again and again, with every further attempt denied too. */
  function Denials(p: Policy, b: Bucket, times: seq<real>): Bucket {
    if times == [] then b else Refill(p, Denials(p, b, times[..|times| - 1]), times[|times| - 1])
  }

  predicate AllDenied(p: Policy, b: Bucket, times: seq<real>) {
    forall k :: 0 < k <= |times| ==> Denials(p, b, times[..k]).tokens < 1.0
  }

  predicate Monotone(from: real, times: seq<real>, to: real) {
    && (forall i :: 0 <= i < |times| ==> from <= times[i] <= to)
    && (forall i, j :: 0 <= i < j < |times| ==> times[i] <= times[j])
  }

  lemma AccruedAdds(p: Policy, a: real, b: real, c: real)
    requires a <= b <= c
    ensures Accrued(p, a, b) + Accrued(p, b, c) == Accrued(p, a, c)
  {
    assert (b - a) * p.rate + (c - b) * p.rate == (c - a) * p.rate;
  }

  /** Denied attempts cost nothing: after any number of them the level is what one refill would give. */
  lemma {:induction false} DenialsAreOneRefill(p: Policy, b: Bucket, times: seq<real>, to: real)
    requires p.Valid() && b.tokens < 1.0 && AllDenied(p, b, times) && b.updatedAt <= to
    requires Monotone(b.updatedAt, times, to)
    ensures Refill(p, Denials(p, b, times), to) == Refill(p, b, to)
    ensures Denials(p, b, times).tokens < 1.0
  {
    if times != [] {
      var before, at := times[..|times| - 1], times[|times| - 1];
      assert forall k :: 0 < k <= |before| ==> before[..k] == times[..k];
      DenialsAreOneRefill(p, b, before, at);
      assert times[..|times|] == times;
      AccruedAdds(p, b.updatedAt, at, to);
    }
  }

  lemma EnoughAccrues(p: Policy, from: real, to: real, deficit: real)
    requires p.Valid() && from <= to
    ensures Accrued(p, from, to) >= deficit <==> to - from >= deficit / p.rate
  {
    assert deficit / p.rate * p.rate == deficit;
    if to - from >= deficit / p.rate {
      assert (to - from - deficit / p.rate) * p.rate >= 0.0;
    } else {
      assert (deficit / p.rate - (to - from)) * p.rate > 0.0;
    }
  }

  /** The advertised wait is sound and tight: on a monotone clock, with any number of denied attempts in
      between, an attempt at or after it is allowed, and when it exceeds one second an attempt a whole
      second earlier is denied. */
  lemma RetryAfterIsSoundAndTight(p: Policy, b: Bucket, times: seq<real>, to: real)
    requires p.Valid() && b.tokens < 1.0 && AllDenied(p, b, times) && b.updatedAt <= to
    requires Monotone(b.updatedAt, times, to)
    ensures var wait := SecondsToNextToken(p, b);
            && wait >= 1
            && (to >= b.updatedAt + wait as real ==> Decide(p, Refill(p, Denials(p, b, times), to)).allowed)
            && (wait > 1 && to <= b.updatedAt + (wait - 1) as real ==>
                  !Decide(p, Refill(p, Denials(p, b, times), to)).allowed)
  {
    var deficit, wait := 1.0 - b.tokens, SecondsToNextToken(p, b);
    DenialsAreOneRefill(p, b, times, to);
    EnoughAccrues(p, b.updatedAt, to, deficit);
    CeilIsTheLeastAbove(deficit / p.rate, wait);
    CeilIsTheLeastAbove(deficit / p.rate, wait - 1);
  }

  // ---------------------------------------------------------------- what an answer says

  /** `n` whole seconds are what it takes for `level` to reach `goal`, none to spare. */
  predicate LeastWait(p: Policy, level: real, goal: real, n: int) {
    && level + n as real * p.rate >= goal
    && (n > 0 ==> level + (n - 1) as real * p.rate < goal)
  }

  lemma WaitIsLeast(p: Policy, level: real, goal: real)
    requires p.Valid() && goal > level
    ensures LeastWait(p, level, goal, MaxInt(1, Ceil((goal - level) / p.rate)))
  {
    var deficit := goal - level;
    var n := Ceil(deficit / p.rate);
    assert deficit / p.rate > 0.0;
    CeilIsTheLeastAbove(deficit / p.rate, n);
    CeilIsTheLeastAbove(deficit / p.rate, n - 1);
    EnoughAccrues(p, 0.0, n as real, deficit);
    EnoughAccrues(p, 0.0, (n - 1) as real, deficit);
  }

  /** An answer tells the limit, how many whole tokens are left, how soon the bucket is full again, and, when
      denied, how soon there is a whole token; a wait is never told as none. */
  lemma AnswersTellTheBucket(p: Policy, ready: Bucket)
    requires p.Valid() && 0.0 <= ready.tokens <= p.burst as real
    ensures var d, left := Decide(p, ready), if ready.tokens >= 1.0 then ready.tokens - 1.0 else ready.tokens;
            && (d.allowed <==> ready.tokens >= 1.0) && d.limit == p.burst
            && d.remaining as real <= left < d.remaining as real + 1.0
            && LeastWait(p, left, p.burst as real, d.resetSeconds)
            && (d.retryAfter.Some? <==> !d.allowed)
            && (d.retryAfter.Some? ==> d.retryAfter.value >= 1 && LeastWait(p, left, 1.0, d.retryAfter.value))
  {
    var left := Take(ready).tokens;
    if left < p.burst as real {
      WaitIsLeast(p, left, p.burst as real);
    }
    if ready.tokens < 1.0 {
      WaitIsLeast(p, left, 1.0);
    }
  }

  /** So many attempts of one key at one instant. */
  function AtOnce<Key>(key: Key, at: real, n: nat): seq<Event<Key>> {
    seq(n, i => Event(key, at))
  }

  /** A key not seen before is allowed a whole burst at once, and no more. */
  lemma {:induction false} FreshKeysGetTheirBurst<Key>(p: Policy, buckets: map<Key, Bucket>, key: Key, at: real, n: nat)
    requires p.Valid() && key !in buckets
    ensures Allowed(p, buckets, AtOnce(key, at, n), key) == if n < p.burst then n else p.burst
    ensures n > 0 ==> var b := Lookup(After(p, buckets, AtOnce(key, at, n)), key);
                      b.Some? && b.value.updatedAt == at &&
                      b.value.tokens == if n < p.burst then (p.burst - n) as real else 0.0
  {
    if n > 0 {
      var run := AtOnce(key, at, n);
      assert run[..n - 1] == AtOnce(key, at, n - 1);
      FreshKeysGetTheirBurst(p, buckets, key, at, n - 1);
    }
  }
}
