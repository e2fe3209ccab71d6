/**
 * The per-client token bucket, its bounded map and the eviction that keeps it bounded. Times are
 * seconds on a monotonic clock; tokens are exact.
 */
module RateLimit {
  import opened Basics

  const MAX_TRACKED_IPS: nat := 100_000
  const IDLE_EVICT_SECS := 600

  /** What the hard-cap phase of an eviction leaves. */
  const TARGET: nat := 90_000

  type Ip = nat

  datatype Bucket = Bucket(tokens: real, last: real)

  type Buckets = map<Ip, Bucket>

  datatype Params = Params(capacity: real, rate: real)

  predicate Sane(p: Params) {
    p.capacity >= 1.0 && p.rate > 0.0
  }

  function Elapsed(last: real, now: real): (e: real)
    ensures e >= 0.0
  {
    if now >= last then now - last else 0.0
  }

  predicate Idle(b: Bucket, now: real) {
    Elapsed(b.last, now).Floor >= IDLE_EVICT_SECS
  }

  /** Tokens that `seconds` bring. */
  function Refill(p: Params, seconds: real): real {
    seconds * p.rate
  }

  lemma RefillIs(p: Params, seconds: real)
    ensures Refill(p, seconds) == p.rate * seconds
  {
  }

  lemma RefillZero(p: Params)
    ensures Refill(p, 0.0) == 0.0
  {
  }

  lemma RefillAdds(p: Params, x: real, y: real)
    ensures Refill(p, x + y) == Refill(p, x) + Refill(p, y)
  {
  }

  lemma RefillNonNegative(p: Params, seconds: real)
    requires Sane(p) && seconds >= 0.0
    ensures Refill(p, seconds) >= 0.0
  {
  }

  lemma RefillMonotone(p: Params, x: real, y: real)
    requires Sane(p) && x <= y
    ensures Refill(p, x) <= Refill(p, y)
  {
    RefillNonNegative(p, y - x);
    RefillAdds(p, x, y - x);
  }

  /** Tokens a bucket holds at `now`; a client without a bucket has a full one. */
  function Level(p: Params, b: Option<Bucket>, now: real): real {
    if b.None? then p.capacity
    else
      var refilled := b.value.tokens + Refill(p, Elapsed(b.value.last, now));
      if refilled <= p.capacity then refilled else p.capacity
  }

  function Admits(p: Params, b: Option<Bucket>, now: real): bool {
    Level(p, b, now) >= 1.0
  }

  function Charged(p: Params, b: Option<Bucket>, now: real): Bucket {
    Bucket(if Admits(p, b, now) then Level(p, b, now) - 1.0 else Level(p, b, now), now)
  }

  function At(m: Buckets, ip: Ip): Option<Bucket> {
    if ip in m then Some(m[ip]) else None
  }

  function Fresh(m: Buckets, now: real): Buckets {
    map ip | ip in m && !Idle(m[ip], now) :: m[ip]
  }

  /**
   * What an eviction may leave: all buckets that are not idle, or, when those are still too many,
   * exactly the target number of them, none older than one it drops.
   */
  ghost predicate Evicted(m: Buckets, m': Buckets, now: real) {
    var kept := Fresh(m, now);
    if |kept| <= MAX_TRACKED_IPS then m' == kept
    else
      && |m'| == TARGET
      && (forall ip | ip in m' :: ip in kept && m'[ip] == kept[ip])
      && (forall k, r | k in m' && r in kept && r !in m' :: kept[r].last <= kept[k].last)
  }

  predicate Evicts(m: Buckets, ip: Ip) {
    |m| > MAX_TRACKED_IPS && ip !in m
  }

  // ---------------------------------------------------------------- the limiter

  lemma Oldest(m: Buckets, rest: set<Ip>) returns (ip: Ip)
    requires rest != {} && rest <= m.Keys
    ensures ip in rest && forall x | x in rest :: m[ip].last <= m[x].last
    decreases |rest|
  {
    var a :| a in rest;
    if rest == {a} {
      ip := a;
    } else {
      var b := Oldest(m, rest - {a});
      ip := if m[a].last <= m[b].last then a else b;
    }
  }

  /** Addresses by age, oldest first. */
  method ByAge(m: Buckets) returns (order: seq<Ip>)
    ensures forall ip :: ip in order <==> ip in m
    ensures forall i, j | 0 <= i < j < |order| :: order[i] != order[j] && m[order[i]].last <= m[order[j]].last
  {
    order := [];
    var rest := m.Keys;
    while rest != {}
      invariant rest <= m.Keys && forall ip :: ip in order <==> ip in m && ip !in rest
      invariant forall i, j | 0 <= i < j < |order| :: order[i] != order[j] && m[order[i]].last <= m[order[j]].last
      invariant forall i, x | 0 <= i < |order| && x in rest :: m[order[i]].last <= m[x].last
      decreases rest
    {
      ghost var least := Oldest(m, rest);
      var ip :| ip in rest && forall x | x in rest :: m[ip].last <= m[x].last;
      order := order + [ip];
      rest := rest - {ip};
    }
  }

  /** Remove the first `n` of `order`. */
  method RemoveFirst(m: Buckets, order: seq<Ip>, n: nat) returns (m': Buckets)
    requires n <= |order| && (forall i, j | 0 <= i < j < |order| :: order[i] != order[j])
    requires forall ip | ip in order :: ip in m
    ensures |m'| == |m| - n && forall ip :: ip in m' <==> ip in m && ip !in order[..n]
    ensures forall ip | ip in m' :: m'[ip] == m[ip]
  {
    m' := m;
    for i := 0 to n
      invariant |m'| == |m| - i && forall ip :: ip in m' <==> ip in m && ip !in order[..i]
      invariant forall ip | ip in m' :: m'[ip] == m[ip]
    {
      assert order[..i + 1] == order[..i] + [order[i]];
      assert order[i] in order && order[i] in m';
      assert m'.Keys - {order[i]} == (m' - {order[i]}).Keys;
      m' := m' - {order[i]};
    }
  }

  method Evict(m: Buckets, now: real) returns (m': Buckets)
    ensures Evicted(m, m', now)
  {
    var kept := Fresh(m, now);
    if |kept| <= MAX_TRACKED_IPS {
      return kept;
    }
    m' := DropOldest(kept);
  }

  /** The hard-cap phase: the oldest go, down to the target. */
  method DropOldest(kept: Buckets) returns (m': Buckets)
    requires |kept| > MAX_TRACKED_IPS
    ensures |m'| == TARGET && forall ip | ip in m' :: ip in kept && m'[ip] == kept[ip]
    ensures forall k, r | k in m' && r in kept && r !in m' :: kept[r].last <= kept[k].last
  {
    var excess := |kept| - TARGET;
    var order := ByAge(kept);
    OrderCovers(order, kept);
    m' := RemoveFirst(kept, order, excess);
    assert forall x | 0 <= x < excess :: order[..excess][x] == order[x];
    forall k, r | k in m' && r in kept && r !in m'
      ensures kept[r].last <= kept[k].last
    {
      var j :| 0 <= j < |order| && order[j] == k;
      var i :| 0 <= i < excess && order[..excess][i] == r;
      assert k !in order[..excess];
    }
  }

  /**
   * Buckets seen in the last 600 seconds stay, or the 90000 youngest of them when they exceed 100000;
   * no other stays.
   */
  lemma EvictedMeans(m: Buckets, m': Buckets, now: real)
    requires Evicted(m, m', now)
    ensures forall ip | ip in m' :: ip in m && m'[ip] == m[ip] && now - m[ip].last < 600.0
    ensures |set ip | ip in m && now - m[ip].last < 600.0| <= 100_000 ==>
              forall ip | ip in m && now - m[ip].last < 600.0 :: ip in m'
    ensures |set ip | ip in m && now - m[ip].last < 600.0| > 100_000 ==>
              && |m'| == 90_000
              && forall k, r | k in m' && r in m && r !in m' && now - m[r].last < 600.0 :: m[r].last <= m[k].last
  {
    forall ip | ip in m
      ensures Idle(m[ip], now) <==> now - m[ip].last >= 600.0
    {
      IdleIff(m[ip], now);
    }
    assert Fresh(m, now).Keys == set ip | ip in m && now - m[ip].last < 600.0;
    assert |Fresh(m, now)| == |Fresh(m, now).Keys|;
  }

  lemma IdleIff(b: Bucket, now: real)
    ensures Idle(b, now) <==> now - b.last >= 600.0
  {
    var e := Elapsed(b.last, now);
    assert e.Floor as real <= e < (e.Floor + 1) as real;
  }

  ghost function Members(order: seq<Ip>): set<Ip> {
    set ip | ip in order
  }

  lemma OrderCovers(order: seq<Ip>, m: Buckets)
    requires forall ip :: ip in order <==> ip in m
    requires forall i, j | 0 <= i < j < |order| :: order[i] != order[j]
    ensures |order| == |m|
  {
    DistinctSize(order);
    assert Members(order) == m.Keys;
  }

  lemma {:induction false} DistinctSize(order: seq<Ip>)
    requires forall i, j | 0 <= i < j < |order| :: order[i] != order[j]
    ensures |Members(order)| == |order|
  {
    if order == [] {
      assert Members(order) == {};
    } else {
      var rest, last := order[..|order| - 1], order[|order| - 1];
      DistinctSize(rest);
      assert order == rest + [last];
      assert last !in Members(rest) && Members(order) == Members(rest) + {last};
    }
  }

  class RateLimiter {
    const p: Params
    const enabled: bool
    var buckets: Buckets

    ghost predicate Valid()
      reads this
    {
      && (enabled ==> Sane(p))
      && |buckets| <= MAX_TRACKED_IPS + 1
    }

    constructor (perSecond: nat, burst: nat)
      ensures Valid() && buckets == map[] && (enabled <==> perSecond > 0)
      ensures p.capacity == (if burst >= 1 then burst else 1) as real && p.rate == perSecond as real
    {
      p, enabled, buckets := Params(Max(burst, 1) as real, perSecond as real), perSecond > 0, map[];
    }

    /**
     * Consume one token for `ip`; `mid` is the map between eviction and lookup, `gained` the tokens
     * since the last call. The bucket, full when there is none, refills at the rate up to the capacity;
     * a whole token admits and is taken.
     */
    method Check(ip: Ip, now: real) returns (ok: bool, ghost mid: Buckets, ghost gained: real)
      requires Valid()
      modifies this`buckets
      ensures Valid()
      ensures !enabled ==> ok && buckets == old(buckets)
      ensures enabled ==> Called(p, old(buckets), Call(ip, now), mid, ok, buckets)
      ensures enabled && (|old(buckets)| <= 100_000 || ip in old(buckets)) ==> mid == old(buckets)
      ensures enabled && |old(buckets)| > 100_000 && ip !in old(buckets) ==> Evicted(old(buckets), mid, now)
      ensures enabled && ip !in mid ==> ok && buckets == mid[ip := Bucket(p.capacity - 1.0, now)]
      ensures enabled && ip in mid ==>
                var refilled := mid[ip].tokens + gained;
                var tokens := if refilled <= p.capacity then refilled else p.capacity;
                && (now <= mid[ip].last ==> gained == 0.0)
                && (now >= mid[ip].last ==> gained == p.rate * (now - mid[ip].last))
                && (ok <==> tokens >= 1.0)
                && buckets == mid[ip := Bucket(if ok then tokens - 1.0 else tokens, now)]
    {
      mid, gained := buckets, 0.0;
      if !enabled {
        return true, mid, gained;
      }
      if |buckets| > MAX_TRACKED_IPS && ip !in buckets {
        buckets := Evict(buckets, now);
        FreshIsSmaller(mid, now);
        mid := buckets;
      }
      var bucket := if ip in buckets then buckets[ip] else Bucket(p.capacity, now);
      var refilled := bucket.tokens + Refill(p, Elapsed(bucket.last, now));
      gained := Refill(p, Elapsed(bucket.last, now));
      GainedIs(p, bucket.last, now);
      var tokens := if refilled <= p.capacity then refilled else p.capacity;
      NewBucketIsFull(p, now);
      assert tokens == Level(p, At(mid, ip), now);
      ok := tokens >= 1.0;
      if ok {
        tokens := tokens - 1.0;
      }
      assert Bucket(tokens, now) == Charged(p, At(mid, ip), now);
      InsertSize(mid, ip, Bucket(tokens, now));
      buckets := buckets[ip := Bucket(tokens, now)];
    }
  }

  lemma GainedIs(p: Params, last: real, now: real)
    ensures now <= last ==> Refill(p, Elapsed(last, now)) == 0.0
    ensures now >= last ==> Refill(p, Elapsed(last, now)) == p.rate * (now - last)
  {
    RefillZero(p);
    RefillIs(p, now - last);
  }

  /** A bucket made just now holds its capacity, as does a client without one. */
  lemma NewBucketIsFull(p: Params, now: real)
    ensures p.capacity + Refill(p, Elapsed(now, now)) == p.capacity
  {
    RefillZero(p);
  }

  lemma InsertSize(m: Buckets, ip: Ip, b: Bucket)
    ensures |m[ip := b]| == if ip in m then |m| else |m| + 1
  {
    assert m[ip := b].Keys == m.Keys + {ip};
  }

  lemma FreshIsSmaller(m: Buckets, now: real)
    ensures |Fresh(m, now)| <= |m|
  {
    SubsetSize(Fresh(m, now).Keys, m.Keys);
  }

  lemma SubsetSize(a: set<Ip>, b: set<Ip>)
    requires a <= b
    ensures |a| <= |b|
  {
    if a != {} {
      var x :| x in a;
      SubsetSize(a - {x}, b - {x});
    }
  }

  // ---------------------------------------------------------------- histories

  datatype Call = Call(ip: Ip, now: real)

  /** One call on the map `m`. */
  ghost predicate Called(p: Params, m: Buckets, c: Call, mid: Buckets, ok: bool, m': Buckets) {
    && (if Evicts(m, c.ip) then Evicted(m, mid, c.now) else mid == m)
    && ok == Admits(p, At(mid, c.ip), c.now)
    && m' == mid[c.ip := Charged(p, At(mid, c.ip), c.now)]
  }

  /** Calls with their answers, and the map before each (`ms`), and after its eviction (`mids`). */
  datatype History = History(calls: seq<Call>, oks: seq<bool>, mids: seq<Buckets>, ms: seq<Buckets>)

  ghost predicate Recorded(p: Params, h: History) {
    && |h.oks| == |h.mids| == |h.calls| && |h.ms| == |h.calls| + 1
    && h.ms[0] == map[]
    && forall i | 0 <= i < |h.calls| :: Called(p, h.ms[i], h.calls[i], h.mids[i], h.oks[i], h.ms[i + 1])
  }

  ghost predicate Forward(calls: seq<Call>) {
    forall i, j | 0 <= i < j < |calls| :: calls[i].now <= calls[j].now
  }

  /** The hard-cap phase never took `ip` in the first `n` calls. */
  ghost predicate Spared(h: History, ip: Ip, n: nat)
    requires n <= |h.calls| && |h.mids| == |h.calls| && |h.ms| == |h.calls| + 1
  {
    forall i | 0 <= i < n && ip in h.ms[i] && !Idle(h.ms[i][ip], h.calls[i].now) :: ip in h.mids[i]
  }

  // ---------------------------------------------------------------- the reference: no eviction

  /** The bucket of `ip` after `calls` in a limiter that keeps every bucket for ever. */
  ghost function Kept(p: Params, calls: seq<Call>, ip: Ip): Option<Bucket> {
    if calls == [] then None
    else
      var n := |calls| - 1;
      var b := Kept(p, calls[..n], ip);
      if calls[n].ip == ip then Some(Charged(p, b, calls[n].now)) else b
  }

  ghost function KeptAnswer(p: Params, calls: seq<Call>, i: nat): bool
    requires i < |calls|
  {
    Admits(p, Kept(p, calls[..i], calls[i].ip), calls[i].now)
  }

  lemma KeptStep(p: Params, calls: seq<Call>, i: nat, ip: Ip)
    requires i < |calls|
    ensures Kept(p, calls[..i + 1], ip) ==
            if calls[i].ip == ip then Some(Charged(p, Kept(p, calls[..i], ip), calls[i].now))
                else Kept(p, calls[..i], ip)
  {
    assert calls[..i + 1][..i] == calls[..i];
  }

  /** Tokens stay between nothing and the capacity, and `last` is the time of a call made. */
  lemma {:induction false} KeptIsSane(p: Params, calls: seq<Call>, i: nat, ip: Ip)
    requires Sane(p) && Forward(calls) && i <= |calls|
    ensures var b := Kept(p, calls[..i], ip);
            b.Some? ==> 0.0 <= b.value.tokens <= p.capacity && i > 0 && b.value.last <= calls[i - 1].now
  {
    if i == 0 {
    } else {
      KeptIsSane(p, calls, i - 1, ip);
      KeptStep(p, calls, i - 1, ip);
      LevelInRange(p, Kept(p, calls[..i - 1], ip), calls[i - 1].now);
    }
  }

  lemma LevelInRange(p: Params, b: Option<Bucket>, now: real)
    requires Sane(p) && (b.Some? ==> 0.0 <= b.value.tokens)
    ensures 0.0 <= Level(p, b, now) <= p.capacity
  {
    if b.Some? {
      RefillNonNegative(p, Elapsed(b.value.last, now));
    }
  }

  // ---------------------------------------------------------------- eviction cannot be observed

  /** Without its bucket a client would find what it finds with it, from `now` on. */
  ghost predicate Refilled(p: Params, b: Bucket, now: real) {
    b.last <= now && b.tokens + Refill(p, now - b.last) >= p.capacity
  }

  lemma RefilledStays(p: Params, b: Bucket, now: real, later: real)
    requires Sane(p) && Refilled(p, b, now) && now <= later
    ensures Refilled(p, b, later) && Level(p, Some(b), later) == p.capacity
  {
    RefillMonotone(p, now - b.last, later - b.last);
    RefilledIsFull(p, b, later);
  }

  /**
   * Dropping an idle bucket changes no answer, whatever the bucket, if and only if ten idle minutes
   * refill it from empty.
   */
  lemma IdleDropIsInvisibleIff(p: Params)
    requires Sane(p)
    ensures (forall b: Bucket, now: real | 0.0 <= b.tokens <= p.capacity && now - b.last >= 600.0 ::
               Level(p, Some(b), now) == p.capacity) <==> 600.0 * p.rate >= p.capacity
  {
    RefillIs(p, 600.0);
    if Refill(p, IDLE_EVICT_SECS as real) >= p.capacity {
      forall b: Bucket, now: real | 0.0 <= b.tokens <= p.capacity && now - b.last >= 600.0
        ensures Level(p, Some(b), now) == p.capacity
      {
        IdleIff(b, now);
        IdleIsRefilled(p, b, now);
      }
    } else {
      var b := Bucket(0.0, 0.0);
      assert Level(p, Some(b), 600.0) == Refill(p, 600.0);
      assert Level(p, Some(b), 600.0) != p.capacity;
    }
  }

  lemma IdleMeans(b: Bucket, now: real)
    requires Idle(b, now)
    ensures now - b.last >= IDLE_EVICT_SECS as real
  {
    assert Elapsed(b.last, now) >= IDLE_EVICT_SECS as real;
  }

  lemma LongWaitRefills(p: Params, seconds: real)
    requires Sane(p) && Refill(p, IDLE_EVICT_SECS as real) >= p.capacity && seconds >= IDLE_EVICT_SECS as real
    ensures Refill(p, seconds) >= p.capacity
  {
    RefillMonotone(p, IDLE_EVICT_SECS as real, seconds);
  }

  lemma RefilledIsFull(p: Params, b: Bucket, now: real)
    requires Sane(p) && Refilled(p, b, now)
    ensures Level(p, Some(b), now) == p.capacity
  {
    assert Elapsed(b.last, now) == now - b.last;
  }

  lemma IdleIsRefilled(p: Params, b: Bucket, now: real)
    requires Sane(p) && 0.0 <= b.tokens && Idle(b, now) && Refill(p, IDLE_EVICT_SECS as real) >= p.capacity
    ensures Refilled(p, b, now) && Level(p, Some(b), now) == p.capacity
  {
    IdleMeans(b, now);
    LongWaitRefills(p, now - b.last);
    RefilledIsFull(p, b, now);
  }

  /** The bucket the limiter has for `ip`, against the one kept for ever. */
  ghost predicate Follows(p: Params, b: Option<Bucket>, kept: Option<Bucket>, now: real) {
    b == kept || (b.None? && kept.Some? && Refilled(p, kept.value, now))
  }

  lemma FollowsAnswers(p: Params, b: Option<Bucket>, kept: Option<Bucket>, now: real)
    requires Sane(p) && Follows(p, b, kept, now)
    ensures Level(p, b, now) == Level(p, kept, now)
    ensures Admits(p, b, now) == Admits(p, kept, now) && Charged(p, b, now) == Charged(p, kept, now)
  {
    if b != kept {
      RefilledStays(p, kept.value, now, now);
    }
  }

  /** The map after the eviction that call `i` may start still follows. */
  lemma EvictionFollows(p: Params, h: History, ip: Ip, i: nat)
    requires Sane(p) && Recorded(p, h) && i < |h.calls| && Spared(h, ip, i + 1)
    requires Refill(p, IDLE_EVICT_SECS as real) >= p.capacity
    requires var kept := Kept(p, h.calls[..i], ip);
             Follows(p, At(h.ms[i], ip), kept, h.calls[i].now) && (kept.Some? ==> 0.0 <= kept.value.tokens)
    ensures Follows(p, At(h.mids[i], ip), Kept(p, h.calls[..i], ip), h.calls[i].now)
  {
    assert Called(p, h.ms[i], h.calls[i], h.mids[i], h.oks[i], h.ms[i + 1]);
    if ip in h.ms[i] && ip !in h.mids[i] {
      IdleIsRefilled(p, h.ms[i][ip], h.calls[i].now);
    }
  }

  /** A call, its own or another's, leaves the two buckets following. */
  lemma CallFollows(p: Params, b: Option<Bucket>, kept: Option<Bucket>, own: bool, t: real, now: real)
    requires Sane(p) && Follows(p, b, kept, t) && t <= now
    ensures Follows(p, if own then Some(Charged(p, b, t)) else b, if own then Some(Charged(p, kept, t)) else kept, now)
  {
    FollowsAnswers(p, b, kept, t);
    if b != kept {
      RefilledStays(p, kept.value, t, now);
    }
  }

  lemma AtAfterCall(p: Params, h: History, ip: Ip, i: nat)
    requires Recorded(p, h) && i < |h.calls|
    ensures At(h.ms[i + 1], ip) ==
            if h.calls[i].ip == ip then Some(Charged(p, At(h.mids[i], ip), h.calls[i].now)) else At(h.mids[i], ip)
  {
    assert Called(p, h.ms[i], h.calls[i], h.mids[i], h.oks[i], h.ms[i + 1]);
  }

  lemma {:induction false} RunFollows(p: Params, h: History, ip: Ip, i: nat, now: real)
    requires Sane(p) && Recorded(p, h) && Forward(h.calls) && i <= |h.calls| && Spared(h, ip, i)
    requires Refill(p, IDLE_EVICT_SECS as real) >= p.capacity
    requires i > 0 ==> h.calls[i - 1].now <= now
    ensures Follows(p, At(h.ms[i], ip), Kept(p, h.calls[..i], ip), now)
    decreases i
  {
    if i == 0 {
    } else {
      var j, c := i - 1, h.calls[i - 1];
      RunFollows(p, h, ip, j, c.now);
      KeptIsSane(p, h.calls, j, ip);
      EvictionFollows(p, h, ip, j);
      CallFollows(p, At(h.mids[j], ip), Kept(p, h.calls[..j], ip), c.ip == ip, c.now, now);
      KeptStep(p, h.calls, j, ip);
      AtAfterCall(p, h, ip, j);
    }
  }

  /**
   * When ten minutes refill a bucket, a client that the hard-cap phase spares gets the answers of a
   * limiter that never evicts: the bounded map refines the unbounded one.
   */
  lemma EvictionIsUnobservable(p: Params, h: History, i: nat)
    requires Sane(p) && Recorded(p, h) && Forward(h.calls) && i < |h.calls| && Spared(h, h.calls[i].ip, i + 1)
    requires 600.0 * p.rate >= p.capacity
    ensures h.oks[i] == KeptAnswer(p, h.calls, i)
  {
    var c := h.calls[i];
    RefillIs(p, 600.0);
    RunFollows(p, h, c.ip, i, c.now);
    KeptIsSane(p, h.calls, i, c.ip);
    EvictionFollows(p, h, c.ip, i);
    FollowsAnswers(p, At(h.mids[i], c.ip), Kept(p, h.calls[..i], c.ip), c.now);
    assert Called(p, h.ms[i], h.calls[i], h.mids[i], h.oks[i], h.ms[i + 1]);
  }

  // ---------------------------------------------------------------- how much gets through

  /** Calls of `ip` admitted among calls `i` to `j` of the reference. */
  ghost function Admitted(p: Params, calls: seq<Call>, ip: Ip, i: nat, j: nat): nat
    requires i <= j <= |calls|
  {
    if i == j then 0
    else Admitted(p, calls, ip, i, j - 1) + if calls[j - 1].ip == ip && KeptAnswer(p, calls, j - 1) then 1 else 0
  }

  lemma LevelGrows(p: Params, b: Option<Bucket>, t: real, now: real)
    requires Sane(p) && t <= now && (b.Some? ==> b.value.last <= t)
    ensures Level(p, b, now) <= Level(p, b, t) + Refill(p, now - t)
  {
    RefillNonNegative(p, now - t);
    if b.Some? {
      RefillAdds(p, t - b.value.last, now - t);
    }
  }

  /** What was admitted and what is left never exceed one full bucket and the refill. */
  lemma {:induction false} Budget(p: Params, calls: seq<Call>, ip: Ip, i: nat, j: nat, now: real)
    requires Sane(p) && Forward(calls) && i < |calls| && i <= j <= |calls|
    requires calls[i].now <= now && (j > i ==> calls[j - 1].now <= now)
    ensures Admitted(p, calls, ip, i, j) as real + Level(p, Kept(p, calls[..j], ip), now) <=
            p.capacity + Refill(p, now - calls[i].now)
    decreases j
  {
    if i == j {
      BudgetBegins(p, calls, ip, i, now);
    } else {
      BudgetStep(p, calls, ip, i, j, now);
    }
  }

  lemma BudgetBegins(p: Params, calls: seq<Call>, ip: Ip, i: nat, now: real)
    requires Sane(p) && Forward(calls) && i < |calls| && calls[i].now <= now
    ensures Level(p, Kept(p, calls[..i], ip), now) <= p.capacity + Refill(p, now - calls[i].now)
  {
    RefillNonNegative(p, now - calls[i].now);
    KeptIsSane(p, calls, i, ip);
    LevelInRange(p, Kept(p, calls[..i], ip), now);
  }

  lemma {:induction false} BudgetStep(p: Params, calls: seq<Call>, ip: Ip, i: nat, j: nat, now: real)
    requires Sane(p) && Forward(calls) && i < j <= |calls| && calls[j - 1].now <= now
    ensures Admitted(p, calls, ip, i, j) as real + Level(p, Kept(p, calls[..j], ip), now) <=
            p.capacity + Refill(p, now - calls[i].now)
    decreases j, 0
  {
    KeptStep(p, calls, j - 1, ip);
    var t := calls[j - 1].now;
    if calls[j - 1].ip == ip {
      Budget(p, calls, ip, i, j - 1, t);
      var b := Kept(p, calls[..j - 1], ip);
      LevelAfterCharge(p, calls, j - 1, ip);
      LevelGrows(p, Some(Charged(p, b, t)), t, now);
      RefillAdds(p, t - calls[i].now, now - t);
    } else {
      Budget(p, calls, ip, i, j - 1, now);
    }
  }

  lemma LevelAfterCharge(p: Params, calls: seq<Call>, j: nat, ip: Ip)
    requires Sane(p) && Forward(calls) && j < |calls|
    ensures var b, t := Kept(p, calls[..j], ip), calls[j].now;
            Level(p, Some(Charged(p, b, t)), t) == Level(p, b, t) - (if Admits(p, b, t) then 1.0 else 0.0)
  {
    KeptIsSane(p, calls, j, ip);
    LevelInRange(p, Kept(p, calls[..j], ip), calls[j].now);
    RefillZero(p);
  }

  /** In any window at most a full bucket and the refill over its length are admitted. */
  lemma ReferenceWindow(p: Params, calls: seq<Call>, ip: Ip, i: nat, j: nat, seconds: real)
    requires Sane(p) && Forward(calls) && i < j <= |calls| && seconds == calls[j - 1].now - calls[i].now
    ensures Admitted(p, calls, ip, i, j) as real <= p.capacity + p.rate * seconds
  {
    ReferenceBudget(p, calls, ip, i, j);
    RefillIs(p, seconds);
  }

  lemma ReferenceBudget(p: Params, calls: seq<Call>, ip: Ip, i: nat, j: nat)
    requires Sane(p) && Forward(calls) && i < j <= |calls|
    ensures Admitted(p, calls, ip, i, j) as real <= p.capacity + Refill(p, calls[j - 1].now - calls[i].now)
  {
    Budget(p, calls, ip, i, j, calls[j - 1].now);
    KeptIsSane(p, calls, j, ip);
    LevelInRange(p, Kept(p, calls[..j], ip), calls[j - 1].now);
  }

  ghost function AdmittedBy(h: History, ip: Ip, i: nat, j: nat): nat
    requires i <= j <= |h.calls| == |h.oks|
  {
    if i == j then 0 else AdmittedBy(h, ip, i, j - 1) + if h.calls[j - 1].ip == ip && h.oks[j - 1] then 1 else 0
  }

  lemma {:induction false} AdmittedAsReference(p: Params, h: History, ip: Ip, i: nat, j: nat)
    requires Sane(p) && Recorded(p, h) && Forward(h.calls) && i <= j <= |h.calls| && Spared(h, ip, j)
    requires 600.0 * p.rate >= p.capacity
    ensures AdmittedBy(h, ip, i, j) == Admitted(p, h.calls, ip, i, j)
    decreases j
  {
    if i < j {
      AdmittedAsReference(p, h, ip, i, j - 1);
      if h.calls[j - 1].ip == ip {
        EvictionIsUnobservable(p, h, j - 1);
      }
    }
  }

  /** The same bound, for the limiter with eviction. */
  lemma WindowBound(p: Params, h: History, ip: Ip, i: nat, j: nat, seconds: real)
    requires Sane(p) && Recorded(p, h) && Forward(h.calls) && i < j <= |h.calls| && Spared(h, ip, j)
    requires seconds == h.calls[j - 1].now - h.calls[i].now && 600.0 * p.rate >= p.capacity
    ensures AdmittedBy(h, ip, i, j) as real <= p.capacity + p.rate * seconds
  {
    AdmittedAsReference(p, h, ip, i, j);
    ReferenceBudget(p, h.calls, ip, i, j);
    RefillIs(p, seconds);
  }

  // ---------------------------------------------------------------- nobody patient is refused

  ghost predicate TokensNonNegative(m: Buckets) {
    forall ip | ip in m :: m[ip].tokens >= 0.0
  }

  lemma {:induction false} NoDebt(p: Params, h: History, i: nat)
    requires Sane(p) && Recorded(p, h) && i <= |h.calls|
    ensures TokensNonNegative(h.ms[i])
  {
    if i == 0 {
    } else {
      NoDebt(p, h, i - 1);
      var c := h.calls[i - 1];
      assert Called(p, h.ms[i - 1], c, h.mids[i - 1], h.oks[i - 1], h.ms[i]);
      assert TokensNonNegative(h.mids[i - 1]);
      LevelInRange(p, At(h.mids[i - 1], c.ip), c.now);
    }
  }

  /** After call `i` the bucket of its client stays as it is, or is dropped, until the client calls again. */
  lemma {:induction false} BucketWaits(p: Params, h: History, i: nat, j: nat)
    requires Sane(p) && Recorded(p, h) && i < j <= |h.calls|
    requires forall k | i < k < j :: h.calls[k].ip != h.calls[i].ip
    ensures h.calls[i].ip in h.ms[j] ==> h.ms[j][h.calls[i].ip].last == h.calls[i].now
    decreases j
  {
    var k := j - 1;
    assert Called(p, h.ms[k], h.calls[k], h.mids[k], h.oks[k], h.ms[j]);
    if k > i {
      BucketWaits(p, h, i, k);
    }
  }

  /**
   * A client whose calls are at least 1/rate seconds apart is never refused, and neither is a first
   * call, whatever is evicted in between.
   */
  lemma SpacedCallsAreAdmitted(p: Params, h: History, j: nat)
    requires Sane(p) && Recorded(p, h) && j < |h.calls|
    requires forall i | 0 <= i < j && h.calls[i].ip == h.calls[j].ip ::
               p.rate * (h.calls[j].now - h.calls[i].now) >= 1.0
    ensures h.oks[j]
  {
    var c := h.calls[j];
    assert Called(p, h.ms[j], c, h.mids[j], h.oks[j], h.ms[j + 1]);
    if c.ip in h.mids[j] {
      NoDebt(p, h, j);
      assert c.ip in h.ms[j];
      var i := LastCall(p, h, j, c.ip);
      BucketWaits(p, h, i, j);
      RefillIs(p, c.now - h.calls[i].now);
      RefillTakesTime(p, c.now - h.calls[i].now);
    }
  }

  lemma RefillTakesTime(p: Params, seconds: real)
    requires Sane(p) && Refill(p, seconds) >= 1.0
    ensures seconds > 0.0
  {
    if seconds <= 0.0 {
      RefillMonotone(p, seconds, 0.0);
      RefillZero(p);
    }
  }

  lemma {:induction false} LastCall(p: Params, h: History, j: nat, ip: Ip) returns (i: nat)
    requires Recorded(p, h) && j <= |h.calls| && ip in h.ms[j]
    ensures i < j && h.calls[i].ip == ip && forall k | i < k < j :: h.calls[k].ip != ip
    decreases j
  {
    assert j > 0;
    assert Called(p, h.ms[j - 1], h.calls[j - 1], h.mids[j - 1], h.oks[j - 1], h.ms[j]);
    if h.calls[j - 1].ip == ip {
      i := j - 1;
    } else {
      i := LastCall(p, h, j - 1, ip);
    }
  }

  // ---------------------------------------------------------------- the map stays small

  /** The map never holds more than one bucket over the cap. */
  lemma {:induction false} MapIsBounded(p: Params, h: History, i: nat)
    requires Recorded(p, h) && i <= |h.calls|
    ensures |h.ms[i]| <= 100_001
  {
    if i == 0 {
    } else {
      MapIsBounded(p, h, i - 1);
      var c := h.calls[i - 1];
      assert Called(p, h.ms[i - 1], c, h.mids[i - 1], h.oks[i - 1], h.ms[i]);
      InsertSize(h.mids[i - 1], c.ip, Charged(p, At(h.mids[i - 1], c.ip), c.now));
    }
  }
}
