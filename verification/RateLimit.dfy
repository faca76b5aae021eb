/** The windowed counters of src/numi/common/rate_limit_backend.py, the limiter on top of them
    (src/numi/gateway/domain/rate_limiter.py), and what both backends let through. Time is in seconds and
    handed in; it is assumed not to run backwards. */
module RateLimit {
  import opened Basics

  datatype Bucket = Bucket(count: nat, windowStart: real)

  /** One call on one key of the in-memory backend: a window runs its length from its first call. */
  function MemoryStep(b: Option<Bucket>, window: int, now: real): Bucket {
    var current := if b.Some? then b.value else Bucket(0, now);
    if now - current.windowStart >= window as real then Bucket(1, now)
    else Bucket(current.count + 1, current.windowStart)
  }

  /** A Redis counter and the instant its key expires at. */
  datatype Counter = Counter(count: nat, expiresAt: real)

  /** Whether a key is already gone at the very instant of its deadline is left open (`early`). */
  predicate Alive(c: Option<Counter>, now: real, early: bool) {
    c.Some? && (now < c.value.expiresAt || (now == c.value.expiresAt && !early))
  }

  /** INCR then EXPIRE: every call counts, and every call renews the deadline. */
  function RedisCount(c: Option<Counter>, now: real, early: bool): nat {
    if Alive(c, now, early) then c.value.count + 1 else 1
  }

  function RedisStep(c: Option<Counter>, window: int, now: real, early: bool): Option<Counter> {
    if window <= 0 then None else Some(Counter(RedisCount(c, now, early), now + window as real))
  }

  // ---------------------------------------------------------------- Redis refines memory

  /** After a last call at `last`: Redis counts at least what memory counts. */
  predicate Simulated(r: Option<Counter>, m: Option<Bucket>, window: int, last: real) {
    && (r.Some? ==>
          && window > 0 && m.Some?
          && r.value.expiresAt == last + window as real && r.value.count >= m.value.count)
    && (m.Some? ==> m.value.windowStart <= last)
    && (r.None? && m.Some? ==> window <= 0)
  }

  /** Every Redis reset coincides with an in-memory reset, so the Redis count is never the smaller one
      and a call Redis grants, under whatever limit, memory grants too. */
  lemma RedisCountsNoLess(r: Option<Counter>, m: Option<Bucket>, window: int, last: real, now: real, early: bool)
    requires Simulated(r, m, window, last) && last <= now
    ensures var m' := MemoryStep(m, window, now);
            && Simulated(RedisStep(r, window, now, early), Some(m'), window, now)
            && RedisCount(r, now, early) >= m'.count
            && (!Alive(r, now, early) ==> m' == Bucket(1, now))
  {
  }

  // ---------------------------------------------------------------- what a window lets through

  predicate Ordered(times: seq<real>) {
    forall i, j :: 0 <= i <= j < |times| ==> times[i] <= times[j]
  }

  predicate InSpan(t: real, a: real, window: int) {
    a <= t < a + window as real
  }

  /** Granted calls in [a, a + window), from bucket b on. */
  function MemoryGrants(b: Option<Bucket>, times: seq<real>, limit: int, window: int, a: real): nat
    decreases |times|
  {
    if times == [] then 0
    else
      var b' := MemoryStep(b, window, times[0]);
      (if InSpan(times[0], a, window) && b'.count <= limit then 1 else 0)
          + MemoryGrants(Some(b'), times[1..], limit, window, a)
  }

  function RedisGrants(c: Option<Counter>, times: seq<real>, limit: int, window: int, a: real, early: bool): nat
    decreases |times|
  {
    if times == [] then 0
    else
      (if InSpan(times[0], a, window) && RedisCount(c, times[0], early) <= limit then 1 else 0)
      + RedisGrants(RedisStep(c, window, times[0], early), times[1..], limit, window, a, early)
  }

  lemma {:induction false} RedisGrantsNoMore(r: Option<Counter>, m: Option<Bucket>, times: seq<real>, limit: int,
                                             window: int, a: real, last: real, early: bool)
    requires Simulated(r, m, window, last) && Ordered(times) && (times != [] ==> last <= times[0])
    ensures RedisGrants(r, times, limit, window, a, early) <= MemoryGrants(m, times, limit, window, a)
    decreases |times|
  {
    if times != [] {
      var now := times[0];
      RedisCountsNoLess(r, m, window, last, now, early);
      RedisGrantsNoMore(RedisStep(r, window, now, early), Some(MemoryStep(m, window, now)), times[1..], limit,
                        window, a, now, early);
    }
  }

  function Positive(n: int): nat {
    if n > 0 then n else 0
  }

  lemma {:induction false} NoneAfterSpan(b: Option<Bucket>, times: seq<real>, limit: int, window: int, a: real)
    requires Ordered(times) && (times != [] ==> a + window as real <= times[0])
    ensures MemoryGrants(b, times, limit, window, a) == 0
    decreases |times|
  {
    if times != [] {
      NoneAfterSpan(Some(MemoryStep(b, window, times[0])), times[1..], limit, window, a);
    }
  }

  /** A window that starts inside the span outlasts it. */
  lemma {:induction false} OneWindow(b: Bucket, times: seq<real>, limit: int, window: int, a: real)
    requires Ordered(times) && a <= b.windowStart
    ensures MemoryGrants(Some(b), times, limit, window, a) <= Positive(limit - b.count)
    decreases |times|
  {
    if times != [] {
      var b' := MemoryStep(Some(b), window, times[0]);
      if times[0] < a + window as real {
        OneWindow(b', times[1..], limit, window, a);
      } else {
        NoneAfterSpan(Some(b'), times[1..], limit, window, a);
      }
    }
  }

  /** Inside the span, a window that started before it spends what is left of it, and at most one more starts. */
  lemma {:induction false} OldWindow(b: Bucket, times: seq<real>, limit: int, window: int, a: real)
    requires Ordered(times) && b.windowStart < a && (times != [] ==> a <= times[0])
    ensures MemoryGrants(Some(b), times, limit, window, a) <= Positive(limit - b.count) + Positive(limit)
    decreases |times|
  {
    if times != [] {
      var b' := MemoryStep(Some(b), window, times[0]);
      if b'.windowStart < a {
        OldWindow(b', times[1..], limit, window, a);
      } else {
        OneWindow(b', times[1..], limit, window, a);
      }
    }
  }

  lemma {:induction false} TwoWindows(b: Bucket, times: seq<real>, limit: int, window: int, a: real)
    requires Ordered(times) && b.windowStart < a && b.count >= 1
    ensures MemoryGrants(Some(b), times, limit, window, a) <= Positive(limit - 1) + Positive(limit)
    decreases |times|
  {
    if times != [] && times[0] < a {
      TwoWindows(MemoryStep(Some(b), window, times[0]), times[1..], limit, window, a);
    } else {
      OldWindow(b, times, limit, window, a);
    }
  }

  /** In-memory window bound: any half-open span of one window's length holds at most 2 * limit - 1
      granted calls of a key; with limit 1, grants are at least a window apart. */
  lemma MemoryWindowBound(times: seq<real>, limit: int, window: int, a: real)
    requires Ordered(times)
    ensures MemoryGrants(None, times, limit, window, a) <= Positive(2 * limit - 1)
  {
    if times != [] {
      var b' := MemoryStep(None, window, times[0]);
      if times[0] < a {
        TwoWindows(b', times[1..], limit, window, a);
      } else {
        OneWindow(b', times[1..], limit, window, a);
      }
    }
  }

  /** The same bound holds of Redis, because it grants no call memory would not. */
  lemma RedisWindowBound(times: seq<real>, limit: int, window: int, a: real, early: bool)
    requires Ordered(times)
    ensures RedisGrants(None, times, limit, window, a, early) <= Positive(2 * limit - 1)
  {
    MemoryWindowBound(times, limit, window, a);
    RedisGrantsNoMore(None, None, times, limit, window, a, if times == [] then 0.0 else times[0], early);
  }

  function Repeated(t: real, n: nat): seq<real> {
    seq(n, i => t)
  }

  lemma {:induction false} BurstGranted(b: Bucket, t: real, n: nat, rest: seq<real>, limit: int, window: int, a: real)
    requires InSpan(t, a, window) && t - b.windowStart < window as real && b.count + n <= limit
    ensures MemoryGrants(Some(b), Repeated(t, n) + rest, limit, window, a)
            == n + MemoryGrants(Some(Bucket(b.count + n, b.windowStart)), rest, limit, window, a)
    decreases n
  {
    if n == 0 {
      assert Repeated(t, 0) + rest == rest;
    } else {
      assert (Repeated(t, n) + rest)[1..] == Repeated(t, n - 1) + rest;
      BurstGranted(Bucket(b.count + 1, b.windowStart), t, n - 1, rest, limit, window, a);
    }
  }

  /** The bound is met for every limit and every window: one call opens a window, the rest of its budget
      comes half a window later, and the whole next budget comes the moment the next window opens. */
  lemma WindowBoundIsMet(limit: int, window: int)
    requires limit >= 1 && window >= 1
    ensures var half, whole := window as real / 2.0, window as real;
            var times := [0.0] + (Repeated(half, limit - 1) + Repeated(whole, limit));
            Ordered(times) && MemoryGrants(None, times, limit, window, half) == 2 * limit - 1
  {
    var half, whole := window as real / 2.0, window as real;
    var second := Repeated(whole, limit);
    var times := [0.0] + (Repeated(half, limit - 1) + second);
    assert times[1..] == Repeated(half, limit - 1) + second;
    BurstGranted(Bucket(1, 0.0), half, limit - 1, second, limit, window, half);
    assert second == [whole] + Repeated(whole, limit - 1);
    assert second[1..] == Repeated(whole, limit - 1) + [];
    BurstGranted(Bucket(1, whole), whole, limit - 1, [], limit, window, half);
  }

  // ---------------------------------------------------------------- the backends

  datatype Tier = CRITICAL_TIER | WRITE_TIER | READ_TIER

  datatype Scope = USER | CONVERSATION | TOOL | DATABASE | ENVIRONMENT

  /** `rl:{tier}:{scope}:{name}` and `alert-cooldown:{server}:{metric}`. */
  datatype Key = LimiterKey(tier: Tier, scope: Scope, name: string) | CooldownKey(server: string, metric: string)

  type Buckets = map<Key, Bucket>

  function Held<V>(m: map<Key, V>, k: Key): Option<V> {
    if k in m then Some(m[k]) else None
  }

  class InMemoryRateLimitBackend {
    var buckets: Buckets

    constructor ()
      ensures buckets == map[]
    {
      buckets := map[];
    }

    method IncrementAndCheck(key: Key, limit: int, window: int, now: real) returns (ok: bool)
      modifies this
      ensures buckets == old(buckets)[key := MemoryStep(Held(old(buckets), key), window, now)]
      ensures ok <==> MemoryStep(Held(old(buckets), key), window, now).count <= limit
    {
      var count, windowStart := 0, now;
      if key in buckets {
        count, windowStart := buckets[key].count, buckets[key].windowStart;
      }
      if now - windowStart >= window as real {
        count, windowStart := 0, now;
      }
      count := count + 1;
      buckets := buckets[key := Bucket(count, windowStart)];
      return count <= limit;
    }
  }

  class RedisRateLimitBackend {
    const early: bool
    var store: map<Key, Counter>

    constructor (early: bool)
      ensures this.early == early && store == map[]
    {
      this.early := early;
      store := map[];
    }

    method Incr(key: Key, now: real) returns (count: int)
      modifies this
      ensures count == RedisCount(Held(old(store), key), now, early)
      ensures key in store && store[key].count == count
      ensures forall k :: k != key ==> Held(store, k) == Held(old(store), k)
    {
      if key in store && (now < store[key].expiresAt || (now == store[key].expiresAt && !early)) {
        count := store[key].count + 1;
        store := store[key := Counter(count, store[key].expiresAt)];
      } else {
        count := 1;
        store := store[key := Counter(1, now)];
      }
    }

    method Expire(key: Key, window: int, now: real)
      requires key in store
      modifies this
      ensures Held(store, key) == if window <= 0 then None
              else Some(Counter(old(store)[key].count, now + window as real))
      ensures forall k :: k != key ==> Held(store, k) == Held(old(store), k)
    {
      if window <= 0 {
        store := store - {key};
      } else {
        store := store[key := Counter(store[key].count, now + window as real)];
      }
    }

    method IncrementAndCheck(key: Key, limit: int, window: int, now: real) returns (ok: bool)
      modifies this
      ensures Held(store, key) == RedisStep(Held(old(store), key), window, now, early)
      ensures forall k :: k != key ==> Held(store, k) == Held(old(store), k)
      ensures ok <==> RedisCount(Held(old(store), key), now, early) <= limit
    {
      var count := Incr(key, now);
      Expire(key, window, now);
      return count <= limit;
    }
  }

  // ---------------------------------------------------------------- the limiter

  const MINUTE := 60

  type Limits = (Tier, Scope) -> int

  datatype OperationType = READ | WRITE | PRIVILEGED

  datatype Check = Check(
    operation: OperationType, requiresApproval: bool, user: string, conversation: string, tool: string,
    database: string, environment: string, at: real)

  function TierFor(operation: OperationType, requiresApproval: bool): Tier {
    if operation.PRIVILEGED? || requiresApproval then CRITICAL_TIER
    else if operation.WRITE? then WRITE_TIER
    else READ_TIER
  }

  /** The five budgets of a call, in the order they are charged. */
  function KeysOf(c: Check): seq<Key> {
    var tier := TierFor(c.operation, c.requiresApproval);
    [LimiterKey(tier, USER, c.user), LimiterKey(tier, CONVERSATION, c.conversation), LimiterKey(tier, TOOL, c.tool),
     LimiterKey(tier, DATABASE, c.database), LimiterKey(tier, ENVIRONMENT, c.environment)]
  }

  /** What the call says of itself: its tier, and its name in each scope. */
  predicate Concerns(c: Check, tier: Tier, scope: Scope, name: string) {
    && (match tier
        case CRITICAL_TIER => c.operation == PRIVILEGED || c.requiresApproval
        case WRITE_TIER => c.operation == WRITE && !c.requiresApproval
        case READ_TIER => c.operation == READ && !c.requiresApproval)
    && name == match scope
               case USER => c.user
               case CONVERSATION => c.conversation
               case TOOL => c.tool
               case DATABASE => c.database
               case ENVIRONMENT => c.environment
  }

  /** A call is charged to exactly the five budgets it concerns, each once, the caller's own first. */
  lemma KeysAreConcerns(c: Check)
    ensures |KeysOf(c)| == 5
    ensures forall i :: 0 <= i < 5 ==> KeysOf(c)[i].LimiterKey?
                                       && KeysOf(c)[i].scope == [USER, CONVERSATION, TOOL, DATABASE, ENVIRONMENT][i]
    ensures forall tier, scope, name :: LimiterKey(tier, scope, name) in KeysOf(c) <==> Concerns(c, tier, scope, name)
    ensures (forall k :: k in KeysOf(c) ==> k.LimiterKey?) && Distinct(KeysOf(c))
  {
  }

  function LimitOf(limits: Limits, k: Key): int
    requires k.LimiterKey?
  {
    limits(k.tier, k.scope)
  }

  /** What a backend makes of one call on one key: the key's new state, and the count it answers. */
  type Tick<!V> = (Option<V>, real) -> (Option<V>, nat)

  function MemoryTick(): Tick<Bucket> {
    (b, now) => (Some(MemoryStep(b, MINUTE, now)), MemoryStep(b, MINUTE, now).count)
  }

  function RedisTick(early: bool): Tick<Counter> {
    (c, now) => (RedisStep(c, MINUTE, now, early), RedisCount(c, now, early))
  }

  function Stored<V>(m: map<Key, V>, k: Key, v: Option<V>): map<Key, V> {
    if v.Some? then m[k := v.value] else m - {k}
  }

  /** Charges the keys in order and stops at the first refusal; what was charged stays charged. */
  function Charge<V>(tick: Tick<V>, m: map<Key, V>, keys: seq<Key>, limits: Limits, now: real): (map<Key, V>, bool)
    requires forall k :: k in keys ==> k.LimiterKey?
    decreases |keys|
  {
    if keys == [] then (m, true)
    else
      var (v, count) := tick(Held(m, keys[0]), now);
      var m' := Stored(m, keys[0], v);
      if count <= LimitOf(limits, keys[0]) then Charge(tick, m', keys[1..], limits, now) else (m', false)
  }

  datatype Backend = Memory(memory: InMemoryRateLimitBackend) | Redis(redis: RedisRateLimitBackend)

  class RateLimiter {
    const limits: Limits
    const backend: Backend

    constructor (limits: Limits, backend: Backend)
      ensures this.limits == limits && this.backend == backend
    {
      this.limits, this.backend := limits, backend;
    }

    /** The object that holds the counters. */
    ghost function Counters(): set<object> {
      match backend case Memory(b) => {b} case Redis(r) => {r}
    }

    /** `false` is RATE_LIMITED. */
    method CheckCall(c: Check) returns (ok: bool)
      modifies Counters()
      ensures match backend
              case Memory(b) => (b.buckets, ok) == Charge(MemoryTick(), old(b.buckets), KeysOf(c), limits, c.at)
              case Redis(r) => (r.store, ok) == Charge(RedisTick(r.early), old(r.store), KeysOf(c), limits, c.at)
    {
      match backend
      case Memory(b) => ok := CheckInMemory(b, KeysOf(c), c.at);
      case Redis(r) => ok := CheckInRedis(r, KeysOf(c), c.at);
    }

    method CheckInMemory(b: InMemoryRateLimitBackend, keys: seq<Key>, now: real) returns (ok: bool)
      requires forall k :: k in keys ==> k.LimiterKey?
      modifies b
      ensures (b.buckets, ok) == Charge(MemoryTick(), old(b.buckets), keys, limits, now)
    {
      var i := 0;
      assert keys[0..] == keys;
      while i < |keys|
        invariant 0 <= i <= |keys|
        invariant Charge(MemoryTick(), b.buckets, keys[i..], limits, now) ==
                  Charge(MemoryTick(), old(b.buckets), keys, limits, now)
      {
        assert keys[i..][1..] == keys[i + 1..];
        var within := b.IncrementAndCheck(keys[i], LimitOf(limits, keys[i]), MINUTE, now);
        if !within {
          return false;
        }
        i := i + 1;
      }
      return true;
    }

    method CheckInRedis(r: RedisRateLimitBackend, keys: seq<Key>, now: real) returns (ok: bool)
      requires forall k :: k in keys ==> k.LimiterKey?
      modifies r
      ensures (r.store, ok) == Charge(RedisTick(r.early), old(r.store), keys, limits, now)
    {
      var i := 0;
      assert keys[0..] == keys;
      while i < |keys|
        invariant 0 <= i <= |keys|
        invariant Charge(RedisTick(r.early), r.store, keys[i..], limits, now) ==
                  Charge(RedisTick(r.early), old(r.store), keys, limits, now)
      {
        assert keys[i..][1..] == keys[i + 1..];
        ghost var before := r.store;
        var within := r.IncrementAndCheck(keys[i], LimitOf(limits, keys[i]), MINUTE, now);
        SameEverywhere(r.store, before, keys[i], RedisStep(Held(before, keys[i]), MINUTE, now, r.early));
        if !within {
          return false;
        }
        i := i + 1;
      }
      return true;
    }
  }

  lemma SameEverywhere<V>(m': map<Key, V>, m: map<Key, V>, k: Key, v: Option<V>)
    requires Held(m', k) == v && forall x :: x != k ==> Held(m', x) == Held(m, x)
    ensures m' == Stored(m, k, v)
  {
    forall x ensures x in m' <==> x in Stored(m, k, v) {
      assert x != k ==> Held(m', x) == Held(m, x);
    }
    forall x | x in m' ensures m'[x] == Stored(m, k, v)[x] {
      assert x != k ==> Held(m', x) == Held(m, x);
    }
  }

  /** Whether charging the keys gets as far as k. */
  predicate Reaches<V>(tick: Tick<V>, m: map<Key, V>, keys: seq<Key>, limits: Limits, now: real, k: Key)
    requires forall k' :: k' in keys ==> k'.LimiterKey?
    decreases |keys|
  {
    keys != [] &&
    (keys[0] == k ||
     (var (v, count) := tick(Held(m, keys[0]), now);
      count <= LimitOf(limits, keys[0]) && Reaches(tick, Stored(m, keys[0], v), keys[1..], limits, now, k)))
  }

  /** Checks of the run that pass, within the span, and concern the budget. */
  function Passes<V>(tick: Tick<V>, m: map<Key, V>, checks: seq<Check>, limits: Limits,
                     tier: Tier, scope: Scope, name: string, a: real): nat
    decreases |checks|
  {
    if checks == [] then 0
    else
      var c := checks[0];
      var (m', ok) := Charge(tick, m, KeysOf(c), limits, c.at);
      (if ok && Concerns(c, tier, scope, name) && InSpan(c.at, a, 60) then 1 else 0)
      + Passes(tick, m', checks[1..], limits, tier, scope, name, a)
  }

  /** The instants at which the run charges k, whether or not the check passes in the end. */
  function Charged<V>(tick: Tick<V>, m: map<Key, V>, checks: seq<Check>, limits: Limits, k: Key): seq<real>
    decreases |checks|
  {
    if checks == [] then []
    else
      var c := checks[0];
      (if Reaches(tick, m, KeysOf(c), limits, c.at, k) then [c.at] else [])
      + Charged(tick, Charge(tick, m, KeysOf(c), limits, c.at).0, checks[1..], limits, k)
  }

  /** What one key of a backend grants, charged at the given instants. */
  function Granted<V>(tick: Tick<V>, v: Option<V>, times: seq<real>, limit: int, a: real): nat
    decreases |times|
  {
    if times == [] then 0
    else
      var (v', count) := tick(v, times[0]);
      (if InSpan(times[0], a, MINUTE) && count <= limit then 1 else 0) + Granted(tick, v', times[1..], limit, a)
  }

  predicate Distinct(keys: seq<Key>) {
    forall i, j :: 0 <= i < j < |keys| ==> keys[i] != keys[j]
  }

  /** A check charges each of its keys at most once, and all of them when it passes. */
  lemma {:induction false} ChargedAtMostOnce<V>(tick: Tick<V>, m: map<Key, V>, keys: seq<Key>, limits: Limits,
                                                now: real, k: Key)
    requires (forall k' :: k' in keys ==> k'.LimiterKey?) && Distinct(keys)
    ensures var (m', ok) := Charge(tick, m, keys, limits, now);
            && Held(m', k) == (if Reaches(tick, m, keys, limits, now, k) then tick(Held(m, k), now).0 else Held(m, k))
            && (k !in keys ==> !Reaches(tick, m, keys, limits, now, k))
            && (ok && k in keys ==>
                Reaches(tick, m, keys, limits, now, k) && tick(Held(m, k), now).1 <= LimitOf(limits, k))
    decreases |keys|
  {
    if keys != [] {
      var (v, count) := tick(Held(m, keys[0]), now);
      assert keys == [keys[0]] + keys[1..];
      ChargedAtMostOnce(tick, Stored(m, keys[0], v), keys[1..], limits, now, k);
    }
  }

  /** A check passes exactly when every budget it concerns still has room for it. */
  lemma {:induction false} ChargePassesIff<V>(tick: Tick<V>, m: map<Key, V>, keys: seq<Key>, limits: Limits, now: real)
    requires (forall k :: k in keys ==> k.LimiterKey?) && Distinct(keys)
    ensures Charge(tick, m, keys, limits, now).1 <==>
            forall i :: 0 <= i < |keys| ==> tick(Held(m, keys[i]), now).1 <= LimitOf(limits, keys[i])
    decreases |keys|
  {
    if keys != [] {
      var k, rest := keys[0], keys[1..];
      var m' := Stored(m, k, tick(Held(m, k), now).0);
      ChargePassesIff(tick, m', rest, limits, now);
      assert forall i :: 0 <= i < |rest| ==> rest[i] == keys[i + 1] && Held(m', rest[i]) == Held(m, rest[i]);
    }
  }

  lemma CheckPassesIff<V>(tick: Tick<V>, m: map<Key, V>, c: Check, limits: Limits)
    ensures (forall k :: k in KeysOf(c) ==> k.LimiterKey?)
            && (Charge(tick, m, KeysOf(c), limits, c.at).1 <==>
                forall tier, scope, name :: Concerns(c, tier, scope, name) ==>
                  tick(Held(m, LimiterKey(tier, scope, name)), c.at).1 <= limits(tier, scope))
  {
    var keys := KeysOf(c);
    KeysAreConcerns(c);
    ChargePassesIff(tick, m, keys, limits, c.at);
    hide KeysOf, Charge, Concerns, Held;
    forall tier, scope, name | Concerns(c, tier, scope, name) && Charge(tick, m, keys, limits, c.at).1
      ensures tick(Held(m, LimiterKey(tier, scope, name)), c.at).1 <= limits(tier, scope)
    {
      assert LimiterKey(tier, scope, name) in keys;
      var i :| 0 <= i < |keys| && keys[i] == LimiterKey(tier, scope, name);
    }
    forall i | 0 <= i < |keys|
      ensures Concerns(c, keys[i].tier, keys[i].scope, keys[i].name)
              && keys[i] == LimiterKey(keys[i].tier, keys[i].scope, keys[i].name)
    {
      assert keys[i] in keys;
    }
  }

  /** Budgets are charged in order, up to and including the first that refuses. */
  lemma {:induction false} ReachesIff<V>(tick: Tick<V>, m: map<Key, V>, keys: seq<Key>, limits: Limits, now: real,
                                         n: nat)
    requires (forall k :: k in keys ==> k.LimiterKey?) && Distinct(keys) && n < |keys|
    ensures Reaches(tick, m, keys, limits, now, keys[n]) <==>
            forall i :: 0 <= i < n ==> tick(Held(m, keys[i]), now).1 <= LimitOf(limits, keys[i])
    decreases |keys|
  {
    if n > 0 {
      var k, rest := keys[0], keys[1..];
      var m' := Stored(m, k, tick(Held(m, k), now).0);
      ReachesIff(tick, m', rest, limits, now, n - 1);
      assert forall i :: 0 <= i < |rest| ==> rest[i] == keys[i + 1] && Held(m', rest[i]) == Held(m, rest[i]);
    }
  }

  predicate InOrder(checks: seq<Check>) {
    forall i, j :: 0 <= i <= j < |checks| ==> checks[i].at <= checks[j].at
  }

  lemma {:induction false} ChargedInOrder<V>(tick: Tick<V>, m: map<Key, V>, checks: seq<Check>, limits: Limits,
                                             k: Key, from: real)
    requires InOrder(checks) && (checks != [] ==> from <= checks[0].at)
    ensures Ordered(Charged(tick, m, checks, limits, k))
    ensures forall t :: t in Charged(tick, m, checks, limits, k) ==> from <= t
    decreases |checks|
  {
    if checks != [] {
      var m' := Charge(tick, m, KeysOf(checks[0]), limits, checks[0].at).0;
      ChargedInOrder(tick, m', checks[1..], limits, k, checks[0].at);
      var rest := Charged(tick, m', checks[1..], limits, k);
      assert forall j :: 0 <= j < |rest| ==> rest[j] in rest;
    }
  }

  /** One check and one budget. */
  lemma OneCheck<V>(tick: Tick<V>, m: map<Key, V>, c: Check, limits: Limits, tier: Tier, scope: Scope, name: string)
    ensures forall k :: k in KeysOf(c) ==> k.LimiterKey?
    ensures var k, keys := LimiterKey(tier, scope, name), KeysOf(c);
            var (m', ok) := Charge(tick, m, keys, limits, c.at);
            var (v, count) := tick(Held(m, k), c.at);
            && Held(m', k) == (if Reaches(tick, m, keys, limits, c.at, k) then v else Held(m, k))
            && (ok && Concerns(c, tier, scope, name) ==>
                  Reaches(tick, m, keys, limits, c.at, k) && count <= limits(tier, scope))
  {
    hide Charge, KeysOf, Reaches, Concerns, Distinct;
    KeysAreConcerns(c);
    ChargedAtMostOnce(tick, m, KeysOf(c), limits, c.at, LimiterKey(tier, scope, name));
  }

  lemma GrantedFrom<V>(tick: Tick<V>, v: Option<V>, t: real, rest: seq<real>, limit: int, a: real)
    ensures var (v', count) := tick(v, t);
            Granted(tick, v, [t] + rest, limit, a) ==
            (if InSpan(t, a, MINUTE) && count <= limit then 1 else 0) + Granted(tick, v', rest, limit, a)
  {
    assert ([t] + rest)[1..] == rest;
  }

  /** A check that passes was granted by every budget it concerns, at the instant that budget was charged. */
  lemma {:induction false} PassesAreGrants<V>(tick: Tick<V>, m: map<Key, V>, checks: seq<Check>, limits: Limits,
                                              tier: Tier, scope: Scope, name: string, a: real)
    ensures var k := LimiterKey(tier, scope, name);
            Passes(tick, m, checks, limits, tier, scope, name, a) <=
            Granted(tick, Held(m, k), Charged(tick, m, checks, limits, k), limits(tier, scope), a)
    decreases |checks|
  {
    if checks != [] {
      hide Charge, KeysOf, Reaches, Concerns, Held, Granted;
      var c, k := checks[0], LimiterKey(tier, scope, name);
      OneCheck(tick, m, c, limits, tier, scope, name);
      var m' := Charge(tick, m, KeysOf(c), limits, c.at).0;
      PassesAreGrants(tick, m', checks[1..], limits, tier, scope, name, a);
      var rest := Charged(tick, m', checks[1..], limits, k);
      GrantedFrom(tick, Held(m, k), c.at, rest, limits(tier, scope), a);
      assert [] + rest == rest;
    } else {
      assert Charged(tick, m, checks, limits, LimiterKey(tier, scope, name)) == [];
    }
  }

  lemma {:induction false} GrantedInMemory(b: Option<Bucket>, times: seq<real>, limit: int, a: real)
    ensures Granted(MemoryTick(), b, times, limit, a) == MemoryGrants(b, times, limit, MINUTE, a)
    decreases |times|
  {
    if times != [] {
      GrantedInMemory(Some(MemoryStep(b, MINUTE, times[0])), times[1..], limit, a);
    }
  }

  lemma {:induction false} GrantedInRedis(c: Option<Counter>, times: seq<real>, limit: int, a: real, early: bool)
    ensures Granted(RedisTick(early), c, times, limit, a) == RedisGrants(c, times, limit, MINUTE, a, early)
    decreases |times|
  {
    if times != [] {
      GrantedInRedis(RedisStep(c, MINUTE, times[0], early), times[1..], limit, a, early);
    }
  }

  /** All budgets hold together: in any run of the limiter, on either backend, any one-minute span holds at most
      2 * limit - 1 passing checks of one tier by the same user, and of the same conversation, tool, database and
      environment. */
  lemma EveryBudgetHolds(checks: seq<Check>, limits: Limits, tier: Tier, scope: Scope, name: string, a: real,
                         early: bool)
    requires InOrder(checks)
    ensures Passes(MemoryTick(), map[], checks, limits, tier, scope, name, a) <= Positive(2 * limits(tier, scope) - 1)
    ensures Passes(RedisTick(early), map[], checks, limits, tier, scope, name,
                   a) <= Positive(2 * limits(tier, scope) - 1)
  {
    hide Passes, Charged, MemoryGrants, RedisGrants, Granted, MemoryTick, RedisTick;
    var from, limit, k := if checks == [] then 0.0 else checks[0].at, limits(tier, scope),
        LimiterKey(tier, scope, name);

    var inMemory := Charged(MemoryTick(), map[], checks, limits, k);
    PassesAreGrants(MemoryTick(), map[], checks, limits, tier, scope, name, a);
    ChargedInOrder(MemoryTick(), map[], checks, limits, k, from);
    GrantedInMemory(None, inMemory, limit, a);
    MemoryWindowBound(inMemory, limit, MINUTE, a);

    var inRedis := Charged(RedisTick(early), map[], checks, limits, k);
    PassesAreGrants(RedisTick(early), map[], checks, limits, tier, scope, name, a);
    ChargedInOrder(RedisTick(early), map[], checks, limits, k, from);
    GrantedInRedis(None, inRedis, limit, a, early);
    RedisWindowBound(inRedis, limit, MINUTE, a, early);
  }

  // ---------------------------------------------------------------- what is counted

  /** Calls on one key of the in-memory backend, in order. */
  function MemoryAfter(times: seq<real>, window: int): Option<Bucket> {
    if times == [] then None
    else Some(MemoryStep(MemoryAfter(times[..|times| - 1], window), window, times[|times| - 1]))
  }

  function RedisAfter(times: seq<real>, window: int, early: bool): Option<Counter> {
    if times == [] then None
    else RedisStep(RedisAfter(times[..|times| - 1], window, early), window, times[|times| - 1], early)
  }

  /** The in-memory count is exact: of the calls since some call j, none as late as a window after it, where j is the
      first of all or comes a full window or more after the call its predecessors were counted from. */
  lemma {:induction false} MemoryCountsSince(times: seq<real>, window: int) returns (j: nat)
    requires times != [] && window > 0
    ensures j < |times|
    ensures MemoryAfter(times, window) == Some(Bucket(|times| - j, times[j]))
    ensures forall i :: j <= i < |times| ==> times[i] - times[j] < window as real
    ensures j > 0 ==> MemoryAfter(times[..j], window).Some?
                      && times[j] - MemoryAfter(times[..j], window).value.windowStart >= window as real
    decreases |times|
  {
    var n := |times| - 1;
    var before := times[..n];
    if n == 0 {
      j := 0;
    } else {
      j := MemoryCountsSince(before, window);
      if times[n] - times[j] >= window as real {
        j := n;
      } else {
        assert before[..j] == times[..j];
      }
    }
  }

  /** So is the Redis count: of the calls since the last that came a full window or more after the one before it. */
  lemma {:induction false} RedisCountsSince(times: seq<real>, window: int, early: bool) returns (j: nat)
    requires times != [] && window > 0
    ensures j < |times|
    ensures RedisAfter(times, window, early) == Some(Counter(|times| - j, times[|times| - 1] + window as real))
    ensures forall i :: j < i < |times| ==> times[i] - times[i - 1] <= window as real
    ensures forall i :: j < i < |times| && early ==> times[i] - times[i - 1] < window as real
    ensures j > 0 ==> times[j] - times[j - 1] >= window as real
    ensures j > 0 && !early ==> times[j] - times[j - 1] > window as real
    decreases |times|
  {
    var n := |times| - 1;
    var before := times[..n];
    if n == 0 {
      j := 0;
    } else {
      j := RedisCountsSince(before, window, early);
      if !Alive(RedisAfter(before, window, early), times[n], early) {
        j := n;
      }
    }
  }
}
