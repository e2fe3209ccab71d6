/**
 * When the bound on a window holds: if ten idle minutes do not refill a bucket, an eviction hands a
 * client that the hard-cap phase spares a second full bucket within ten minutes.
 */
module RateWindow {
  import opened Basics
  import opened RateLimit

  /** In every history, every window and for every spared client the bound holds. */
  ghost predicate WindowsBounded(p: Params) {
    forall h, ip, i: nat, j: nat | Recorded(p, h) && Forward(h.calls) && i < j <= |h.calls| && Spared(h, ip, j) ::
      Within(p, AdmittedBy(h, ip, i, j), h.calls[j - 1].now - h.calls[i].now)
  }

  ghost predicate Within(p: Params, admitted: nat, seconds: real) {
    admitted as real <= p.capacity + p.rate * seconds
  }

  // ---------------------------------------------------------------- a history, call by call

  ghost function Last(h: History): Buckets
    requires |h.ms| > 0
  {
    h.ms[|h.ms| - 1]
  }

  /** One more call, answered on the map `mid`. */
  ghost function Logged(p: Params, h: History, c: Call, mid: Buckets): History {
    History(h.calls + [c], h.oks + [Admits(p, At(mid, c.ip), c.now)], h.mids + [mid],
            h.ms + [mid[c.ip := Charged(p, At(mid, c.ip), c.now)]])
  }

  /** A recorded history between times 0 and `now` that never evicted client 0 by force. */
  ghost predicate Upto(p: Params, h: History, now: real) {
    && Recorded(p, h) && Forward(h.calls) && Spared(h, 0, |h.calls|)
    && (forall i | 0 <= i < |h.calls| :: 0.0 <= h.calls[i].now <= now)
  }

  lemma {:induction false} AdmittedOfPrefix(p: Params, h: History, c: Call, mid: Buckets, j: nat)
    requires j <= |h.calls| == |h.oks|
    ensures AdmittedBy(Logged(p, h, c, mid), 0, 0, j) == AdmittedBy(h, 0, 0, j)
  {
    if j == 0 {
    } else {
      AdmittedOfPrefix(p, h, c, mid, j - 1);
    }
  }

  lemma LoggedIsUpto(p: Params, h: History, now: real, c: Call, mid: Buckets)
    requires Upto(p, h, now) && 0.0 <= now <= c.now
    requires if Evicts(Last(h), c.ip) then Evicted(Last(h), mid, c.now) else mid == Last(h)
    requires 0 in Last(h) && !Idle(Last(h)[0], c.now) ==> 0 in mid
    ensures Upto(p, Logged(p, h, c, mid), c.now)
    ensures Last(Logged(p, h, c, mid)) == mid[c.ip := Charged(p, At(mid, c.ip), c.now)]
  {
    var g, n := Logged(p, h, c, mid), |h.calls|;
    forall i | 0 <= i < |g.calls|
      ensures Called(p, g.ms[i], g.calls[i], g.mids[i], g.oks[i], g.ms[i + 1])
    {
      if i < n {
        assert Called(p, h.ms[i], h.calls[i], h.mids[i], h.oks[i], h.ms[i + 1]);
      }
    }
  }

  lemma LoggedAdmits(p: Params, h: History, c: Call, mid: Buckets)
    requires |h.oks| == |h.calls|
    ensures AdmittedBy(Logged(p, h, c, mid), 0, 0, |h.calls| + 1) ==
            AdmittedBy(h, 0, 0, |h.calls|) + if c.ip == 0 && Admits(p, At(mid, 0), c.now) then 1 else 0
  {
    AdmittedOfPrefix(p, h, c, mid, |h.calls|);
  }

  // ---------------------------------------------------------------- drain, crowd, evict, drain

  lemma ChargedLevel(p: Params, b: Option<Bucket>, now: real)
    requires 1.0 <= Level(p, b, now) <= p.capacity
    ensures Level(p, Some(Charged(p, b, now)), now) == Level(p, b, now) - 1.0 && Charged(p, b, now).last == now
  {
    var after := Charged(p, b, now);
    assert after.tokens == Level(p, b, now) - 1.0;
    RefillZero(p);
    assert Elapsed(after.last, now) == 0.0;
    assert Refill(p, Elapsed(after.last, now)) == 0.0;
  }

  /** Only the bucket of client 0 changed, at `now`. */
  ghost predicate OnlyTouched(m: Buckets, m': Buckets, now: real) {
    0 in m' && m' == m[0 := m'[0]] && m'[0].last == now
  }

  lemma SpendOne(p: Params, h: History, now: real, k: nat) returns (g: History)
    requires Upto(p, h, now) && now >= 0.0 && !Evicts(Last(h), 0) && k > 0
    requires Level(p, At(Last(h), 0), now) == k as real <= p.capacity
    ensures Upto(p, g, now) && |g.calls| == |h.calls| + 1
    ensures AdmittedBy(g, 0, 0, |g.calls|) == AdmittedBy(h, 0, 0, |h.calls|) + 1
    ensures OnlyTouched(Last(h), Last(g), now)
    ensures Level(p, At(Last(g), 0), now) == (k - 1) as real
  {
    var m, c := Last(h), Call(0, now);
    g := Logged(p, h, c, m);
    LoggedIsUpto(p, h, now, c, m);
    LoggedAdmits(p, h, c, m);
    ChargedLevel(p, At(m, 0), now);
  }

  /** Client 0 spends `k` tokens at once. */
  lemma {:induction false} Drain(p: Params, h: History, now: real, k: nat) returns (g: History)
    requires Upto(p, h, now) && now >= 0.0 && !Evicts(Last(h), 0)
    requires Level(p, At(Last(h), 0), now) == k as real <= p.capacity
    ensures Upto(p, g, now) && |g.calls| == |h.calls| + k
    ensures AdmittedBy(g, 0, 0, |g.calls|) == AdmittedBy(h, 0, 0, |h.calls|) + k
    ensures if k == 0 then g == h else OnlyTouched(Last(h), Last(g), now)
    decreases k
  {
    if k == 0 {
      g := h;
    } else {
      var h1 := SpendOne(p, h, now, k);
      g := Drain(p, h1, now, k - 1);
    }
  }

  /** Clients 0 to `i`, all seen at time 0. */
  ghost predicate Crowd(m: Buckets, i: nat) {
    |m| == i + 1 && 0 in m && forall x | x in m :: x <= i && m[x].last == 0.0
  }

  /** Others arrive until the map is one over its cap. */
  lemma {:induction false} Arrive(p: Params, h: History, i: nat) returns (g: History)
    requires Sane(p) && Upto(p, h, 0.0) && Crowd(Last(h), i) && i <= MAX_TRACKED_IPS
    ensures Upto(p, g, 0.0) && Crowd(Last(g), MAX_TRACKED_IPS) && |g.calls| >= |h.calls|
    ensures AdmittedBy(g, 0, 0, |g.calls|) == AdmittedBy(h, 0, 0, |h.calls|)
    decreases MAX_TRACKED_IPS - i
  {
    if i == MAX_TRACKED_IPS {
      g := h;
    } else {
      var m, c := Last(h), Call(i + 1, 0.0);
      var h1 := Logged(p, h, c, m);
      LoggedIsUpto(p, h, 0.0, c, m);
      LoggedAdmits(p, h, c, m);
      InsertSize(m, i + 1, Charged(p, At(m, i + 1), 0.0));
      g := Arrive(p, h1, i + 1);
    }
  }

  const TEN_MINUTES := 600.0

  lemma AllIdle(m: Buckets, i: nat)
    requires Crowd(m, i)
    ensures Fresh(m, TEN_MINUTES) == map[] && Idle(m[0], TEN_MINUTES)
  {
    forall x | x in m
      ensures Idle(m[x], TEN_MINUTES)
    {
      assert Elapsed(m[x].last, TEN_MINUTES) == 600.0;
    }
  }

  /** A newcomer ten minutes later empties the map. */
  lemma Newcomer(p: Params, h: History) returns (g: History)
    requires Sane(p) && Upto(p, h, 0.0) && Crowd(Last(h), MAX_TRACKED_IPS)
    ensures Upto(p, g, TEN_MINUTES) && Last(g).Keys == {MAX_TRACKED_IPS + 1}
    ensures AdmittedBy(g, 0, 0, |g.calls|) == AdmittedBy(h, 0, 0, |h.calls|)
  {
    var m, c := Last(h), Call(MAX_TRACKED_IPS + 1, TEN_MINUTES);
    AllIdle(m, MAX_TRACKED_IPS);
    g := Logged(p, h, c, map[]);
    LoggedIsUpto(p, h, 0.0, c, map[]);
    LoggedAdmits(p, h, c, map[]);
  }

  /** Client 0 gets two full buckets within ten minutes. */
  lemma TwoBuckets(p: Params, n: nat) returns (h: History)
    requires Sane(p) && p.capacity == n as real
    ensures Upto(p, h, TEN_MINUTES) && AdmittedBy(h, 0, 0, |h.calls|) == 2 * n
  {
    var h0 := History([], [], [], [map[]]);
    var h1 := Drain(p, h0, 0.0, n);
    var h2 := Arrive(p, h1, 0);
    var h3 := Newcomer(p, h2);
    assert Last(h3).Keys == {MAX_TRACKED_IPS + 1} && |Last(h3).Keys| == 1;
    h := Drain(p, h3, TEN_MINUTES, n);
  }

  /** A slow refill breaks the bound, for a client that was never dropped by force. */
  lemma SlowRefillBreaksTheBound(p: Params, n: nat) returns (h: History, seconds: real)
    requires Sane(p) && p.capacity == n as real && 600.0 * p.rate < p.capacity
    ensures Recorded(p, h) && Forward(h.calls) && |h.calls| > 0 && Spared(h, 0, |h.calls|)
    ensures seconds == h.calls[|h.calls| - 1].now - h.calls[0].now
    ensures AdmittedBy(h, 0, 0, |h.calls|) as real > p.capacity + p.rate * seconds
  {
    h := TwoBuckets(p, n);
    RefillIs(p, TEN_MINUTES);
    assert |h.calls| > 0;
    seconds := h.calls[|h.calls| - 1].now - h.calls[0].now;
    RefillIs(p, seconds);
    RefillMonotone(p, seconds, TEN_MINUTES);
  }

  lemma BoundedWindow(p: Params, h: History, ip: Ip, i: nat, j: nat, seconds: real)
    requires Sane(p) && Recorded(p, h) && Forward(h.calls) && i < j <= |h.calls| && Spared(h, ip, j)
    requires seconds == h.calls[j - 1].now - h.calls[i].now && 600.0 * p.rate >= p.capacity
    ensures Within(p, AdmittedBy(h, ip, i, j), seconds)
  {
    WindowBound(p, h, ip, i, j, seconds);
  }

  lemma UnboundedWindow(p: Params, n: nat)
    requires Sane(p) && p.capacity == n as real && 600.0 * p.rate < p.capacity
    ensures !WindowsBounded(p)
  {
    var h, seconds := SlowRefillBreaksTheBound(p, n);
    assert !Within(p, AdmittedBy(h, 0, 0, |h.calls|), seconds);
  }

  /**
   * With a whole number of tokens, as the configuration gives it, the window bound holds for all
   * histories and all spared clients if and only if ten minutes refill a bucket.
   */
  lemma WindowBoundIff(p: Params, n: nat)
    requires Sane(p) && p.capacity == n as real
    ensures WindowsBounded(p) <==> 600.0 * p.rate >= p.capacity
  {
    if 600.0 * p.rate >= p.capacity {
      forall h, ip, i: nat, j: nat | Recorded(p, h) && Forward(h.calls) && i < j <= |h.calls| && Spared(h, ip, j)
        ensures Within(p, AdmittedBy(h, ip, i, j), h.calls[j - 1].now - h.calls[i].now)
      {
        BoundedWindow(p, h, ip, i, j, h.calls[j - 1].now - h.calls[i].now);
      }
    } else {
      UnboundedWindow(p, n);
    }
  }
}
