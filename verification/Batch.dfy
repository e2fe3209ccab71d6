/** How long a batch of deliveries takes when at most `c` of them run at a time. */
module Batch {
  import Webhooks

  const DELIVERY_CONCURRENCY: nat := 8

  /** When each delivery of the batch starts, and how long it takes; the batch starts at time zero. */
  datatype Schedule = Schedule(start: seq<real>, takes: seq<real>)

  predicate Running(s: Schedule, j: nat, at: real)
    requires j < |s.start| == |s.takes|
  {
    s.start[j] <= at < s.start[j] + s.takes[j]
  }

  ghost function RunningAt(s: Schedule, at: real): set<nat>
    requires |s.start| == |s.takes|
  {
    set j: nat | j < |s.start| && Running(s, j, at)
  }

  /**
   * Deliveries start in order, at most `c` run at a time, and none waits while a slot is free.
   */
  ghost predicate Greedy(s: Schedule, c: nat, t: real) {
    && |s.start| == |s.takes|
    && (forall i | 0 <= i < |s.start| :: s.start[i] >= 0.0 && 0.0 <= s.takes[i] <= t)
    && (forall i, j | 0 <= i < j < |s.start| :: s.start[i] <= s.start[j])
    && (forall at | at >= 0.0 :: |RunningAt(s, at)| <= c)
    && (forall i, at | 0 <= i < |s.start| && 0.0 <= at < s.start[i] :: |RunningAt(s, at)| == c)
  }

  /** `k` times `t`. */
  ghost function Rounds(k: nat, t: real): real {
    if k == 0 then 0.0 else Rounds(k - 1, t) + t
  }

  lemma {:induction false} RoundsIs(k: nat, t: real)
    ensures Rounds(k, t) == k as real * t
  {
    if k > 0 {
      RoundsIs(k - 1, t);
      assert (k - 1) as real * t + t == k as real * t;
    }
  }

  lemma RoundsGrow(j: nat, k: nat, t: real)
    requires j <= k && t >= 0.0
    ensures Rounds(j, t) <= Rounds(k, t)
  {
    if j < k {
      RoundsGrow(j, k - 1, t);
    }
  }

  lemma RoundsNonNegative(k: nat, t: real)
    requires t >= 0.0
    ensures Rounds(k, t) >= 0.0
  {
  }

  lemma IntervalSize(lo: nat, hi: nat, s: set<nat>)
    requires lo <= hi && forall x | x in s :: lo <= x < hi
    ensures |s| <= hi - lo
    decreases hi - lo
  {
    if lo < hi {
      IntervalSize(lo, hi - 1, s - {hi - 1});
      assert hi - 1 in s ==> |s - {hi - 1}| == |s| - 1;
      assert hi - 1 !in s ==> s - {hi - 1} == s;
    } else {
      assert s == {};
    }
  }

  /** Once all but the last few deliveries before `i` have ended, a slot is free for `i`. */
  lemma SlotIsFree(s: Schedule, c: nat, t: real, i: nat, lo: nat, at: real)
    requires Greedy(s, c, t) && lo <= i < |s.start| && i - lo < c && at >= 0.0
    requires forall j: nat | j < lo :: s.start[j] + s.takes[j] <= at
    ensures s.start[i] <= at
  {
    if s.start[i] > at {
      assert forall j | j in RunningAt(s, at) :: lo <= j < i;
      IntervalSize(lo, i, RunningAt(s, at));
      assert false;
    }
  }

  /** Delivery `i` starts no later than when the rounds before its own could all have run. */
  lemma {:induction false} StartsByRound(s: Schedule, c: nat, t: real, i: nat)
    requires Greedy(s, c, t) && c > 0 && i < |s.start|
    ensures s.start[i] <= Rounds(i / c, t)
    decreases i
  {
    var k := i / c;
    assert 0.0 <= s.takes[i] <= t;
    RoundOf(i, c);
    RoundsNonNegative(k, t);
    forall j: nat | j < k * c
      ensures s.start[j] + s.takes[j] <= Rounds(k, t)
    {
      StartsByRound(s, c, t, j);
      EndsByRound(s, c, t, j, k);
    }
    SlotIsFree(s, c, t, i, k * c, Rounds(k, t));
  }

  lemma EndsByRound(s: Schedule, c: nat, t: real, j: nat, k: nat)
    requires Greedy(s, c, t) && c > 0 && j < |s.start| && j < k * c && s.start[j] <= Rounds(j / c, t)
    ensures s.start[j] + s.takes[j] <= Rounds(k, t)
  {
    EarlierRound(j, k, c);
    assert 0.0 <= s.takes[j] <= t;
    RoundsGrow(j / c + 1, k, t);
  }

  lemma RoundOf(i: nat, c: nat)
    requires c > 0
    ensures i / c * c <= i < i / c * c + c
  {
  }

  lemma EarlierRound(j: nat, k: nat, c: nat)
    requires c > 0 && j < k * c
    ensures k >= 1 && j / c <= k - 1
  {
    if j / c >= k {
      assert j / c * c >= k * c by { Monotone(k, j / c, c); }
    }
  }

  lemma Monotone(a: nat, b: nat, c: nat)
    requires a <= b
    ensures a * c <= b * c
  {
  }

  /** `n` deliveries of at most `t` seconds through `c` slots end within ceil(n/c) rounds of `t` seconds. */
  lemma BatchEnds(s: Schedule, c: nat, t: real, i: nat, rounds: nat)
    requires Greedy(s, c, t) && c > 0 && i < |s.start| && rounds == (|s.start| + c - 1) / c
    ensures s.start[i] + s.takes[i] <= rounds as real * t
  {
    EndsInRounds(s, c, t, i);
    RoundsIs(rounds, t);
  }

  lemma EndsInRounds(s: Schedule, c: nat, t: real, i: nat)
    requires Greedy(s, c, t) && c > 0 && i < |s.start|
    ensures s.start[i] + s.takes[i] <= Rounds((|s.start| + c - 1) / c, t)
  {
    StartsByRound(s, c, t, i);
    RoundIsCounted(i, |s.start|, c);
    assert s.takes[i] <= t;
    RoundsGrow(i / c + 1, (|s.start| + c - 1) / c, t);
  }

  lemma RoundIsCounted(i: nat, n: nat, c: nat)
    requires c > 0 && i < n
    ensures i / c + 1 <= (n + c - 1) / c
  {
    RoundOf(i, c);
    var rounds := (n + c - 1) / c;
    RoundOf(n + c - 1, c);
    if rounds < i / c + 1 {
      Monotone(rounds, i / c, c);
    }
  }

  // ---------------------------------------------------------------- the bound is met

  /** Deliveries that all take `t` seconds. */
  ghost function Slowest(n: nat, c: nat, t: real): Schedule
    requires c > 0
  {
    Schedule(seq(n, i requires i >= 0 => Rounds(i / c, t)), seq(n, i => t))
  }

  lemma DivMonotone(i: nat, j: nat, c: nat)
    requires c > 0 && i <= j
    ensures i / c <= j / c
  {
    if i / c > j / c {
      RoundOf(i, c);
      RoundOf(j, c);
      Monotone(j / c + 1, i / c, c);
    }
  }

  /** The round that is running at a time before round `m`. */
  lemma RoundAt(m: nat, t: real, at: real) returns (k: nat)
    requires t > 0.0 && 0.0 <= at < Rounds(m, t)
    ensures k < m && Rounds(k, t) <= at < Rounds(k + 1, t)
  {
    if at < Rounds(m - 1, t) {
      k := RoundAt(m - 1, t, at);
    } else {
      k := m - 1;
    }
  }

  lemma SameRound(j: nat, k: nat, t: real, at: real)
    requires t > 0.0 && Rounds(j, t) <= at < Rounds(j + 1, t) && Rounds(k, t) <= at < Rounds(k + 1, t)
    ensures j == k
  {
    if j < k {
      RoundsGrow(j + 1, k, t);
    } else if k < j {
      RoundsGrow(k + 1, j, t);
    }
  }

  lemma RunningRound(n: nat, c: nat, t: real, at: real, k: nat)
    requires c > 0 && t > 0.0 && Rounds(k, t) <= at < Rounds(k + 1, t)
    ensures RunningAt(Slowest(n, c, t), at) == set j: nat | j < n && j / c == k
  {
    forall j: nat | j < n
      ensures Running(Slowest(n, c, t), j, at) <==> j / c == k
    {
      if Running(Slowest(n, c, t), j, at) {
        SameRound(j / c, k, t, at);
      }
    }
  }

  lemma InRound(j: nat, k: nat, c: nat)
    requires c > 0
    ensures j / c == k <==> k * c <= j < k * c + c
  {
    RoundOf(j, c);
    if j / c < k {
      Monotone(j / c + 1, k, c);
    } else if j / c > k {
      Monotone(k + 1, j / c, c);
    }
  }

  lemma RoundSize(n: nat, c: nat, k: nat)
    requires c > 0
    ensures var block := set j: nat | j < n && j / c == k;
            |block| <= c && ((k + 1) * c <= n ==> |block| == c)
  {
    var lo := k * c;
    var block := set j: nat | j < n && j / c == k;
    forall j: nat
      ensures j in block <==> j < n && lo <= j < lo + c
    {
      InRound(j, k, c);
    }
    IntervalSize(lo, lo + c, block);
    assert (k + 1) * c == lo + c;
    if lo + c <= n {
      IntervalFull(lo, lo + c, block);
    }
  }

  lemma IntervalFull(lo: nat, hi: nat, s: set<nat>)
    requires lo <= hi && forall x: nat | lo <= x < hi :: x in s
    ensures |s| >= hi - lo
    decreases hi - lo
  {
    if lo < hi {
      IntervalFull(lo, hi - 1, s - {hi - 1});
    }
  }

  /** No better bound holds for all greedy schedules: this one needs every second of it. */
  lemma BoundIsMet(n: nat, c: nat, t: real, rounds: nat)
    requires n > 0 && c > 0 && t > 0.0 && rounds == (n + c - 1) / c
    ensures var s := Slowest(n, c, t);
            && Greedy(s, c, t) && |s.start| == n && s.takes[n - 1] == t
            && s.start[n - 1] + s.takes[n - 1] == rounds as real * t
  {
    SlowestIsGreedy(n, c, t);
    LastRound(n, c);
    RoundsIs(rounds, t);
  }

  lemma SlowestIsGreedy(n: nat, c: nat, t: real)
    requires n > 0 && c > 0 && t > 0.0
    ensures Greedy(Slowest(n, c, t), c, t)
  {
    var s := Slowest(n, c, t);
    SlowestInOrder(n, c, t);
    forall at | at >= 0.0
      ensures |RunningAt(s, at)| <= c
    {
      SlowestFits(n, c, t, at);
    }
    forall i, at | 0 <= i < n && 0.0 <= at < s.start[i]
      ensures |RunningAt(s, at)| == c
    {
      SlowestIsBusy(n, c, t, i, at);
    }
  }

  lemma SlowestInOrder(n: nat, c: nat, t: real)
    requires c > 0 && t > 0.0
    ensures var s := Slowest(n, c, t);
            && (forall i | 0 <= i < n :: s.start[i] >= 0.0)
            && (forall i, j | 0 <= i < j < n :: s.start[i] <= s.start[j])
  {
    forall i: nat, j: nat | i < j < n
      ensures Rounds(i / c, t) <= Rounds(j / c, t)
    {
      DivMonotone(i, j, c);
      RoundsGrow(i / c, j / c, t);
    }
    forall i: nat | i < n
      ensures Rounds(i / c, t) >= 0.0
    {
      RoundsNonNegative(i / c, t);
    }
  }

  lemma SlowestFits(n: nat, c: nat, t: real, at: real)
    requires c > 0 && t > 0.0
    ensures |RunningAt(Slowest(n, c, t), at)| <= c
  {
    var running := RunningAt(Slowest(n, c, t), at);
    if running != {} {
      var j :| j in running;
      RunningRound(n, c, t, at, j / c);
      RoundSize(n, c, j / c);
    }
  }

  lemma SlowestIsBusy(n: nat, c: nat, t: real, i: nat, at: real)
    requires c > 0 && t > 0.0 && i < n && 0.0 <= at < Rounds(i / c, t)
    ensures |RunningAt(Slowest(n, c, t), at)| == c
  {
    var k := RoundAt(i / c, t, at);
    RunningRound(n, c, t, at, k);
    RoundOf(i, c);
    Monotone(k + 1, i / c, c);
    RoundSize(n, c, k);
  }

  lemma LastRound(n: nat, c: nat)
    requires n > 0 && c > 0
    ensures (n + c - 1) / c == (n - 1) / c + 1
  {
    assert (n + c - 1) == (n - 1) + c;
    RoundOf(n - 1, c);
    RoundOf(n + c - 1, c);
    var a, b := (n - 1) / c + 1, (n + c - 1) / c;
    if a < b {
      Monotone(a + 1, b, c);
    } else if b < a {
      Monotone(b + 1, a, c);
    }
  }

  /**
   * A full batch through the worker's slots ends within the lease it claimed, whenever a delivery
   * takes at most 20 seconds and the claim took no longer than what three deliveries leave.
   */
  lemma BatchEndsBeforeItsLease(s: Schedule, t: real, i: nat, stamp: real, begin: real)
    requires Greedy(s, 8, t) && |s.start| <= 20 && i < |s.start|
    requires stamp <= begin < stamp + 60.0 - 3.0 * t
    ensures begin + s.start[i] + s.takes[i] < stamp + 60.0
  {
    EndsInRounds(s, 8, t, i);
    RoundsGrow((|s.start| + 7) / 8, 3, t);
    ThreeRounds(t);
  }

  lemma ThreeRounds(t: real)
    ensures Rounds(3, t) == t + t + t
  {
    assert Rounds(0, t) == 0.0;
    assert Rounds(1, t) == Rounds(0, t) + t;
    assert Rounds(2, t) == Rounds(1, t) + t;
    assert Rounds(3, t) == Rounds(2, t) + t;
  }

  // ---------------------------------------------------------------- batches that keep their leases

  /** When a batch claimed its rows (`stamp`), when it set to work, and which row is which delivery of its schedule. */
  datatype Plan = Plan(stamp: int, begin: real, schedule: Schedule, order: seq<nat>)

  /** A batch of no more rows than a claim takes, begun early enough for deliveries of `t` seconds. */
  ghost predicate InTime(p: Plan, t: real) {
    && Greedy(p.schedule, DELIVERY_CONCURRENCY, t)
    && |p.order| == |p.schedule.start| <= Webhooks.BATCH
    && p.stamp as real <= p.begin < (p.stamp + Webhooks.CLAIM_LEASE_SECS) as real - 3.0 * t
  }

  /** The row `id` is in the hands of its batch only until its delivery is scheduled to end. */
  ghost predicate NotOver(p: Plan, id: nat, now: int)
    requires |p.order| == |p.schedule.start| == |p.schedule.takes|
  {
    exists i :: 0 <= i < |p.order| && p.order[i] == id &&
                now as real <= p.begin + p.schedule.start[i] + p.schedule.takes[i]
  }

  /** Every row in hand belongs to a planned batch, under the lease that batch took, and is not overdue. */
  ghost predicate OnPlan(s: Webhooks.State, plans: map<nat, Plan>, t: real) {
    forall j | j in s.jobs ::
      && j.batch in plans && InTime(plans[j.batch], t)
      && s.jobs[j].lease == plans[j.batch].stamp + Webhooks.CLAIM_LEASE_SECS
      && NotOver(plans[j.batch], j.id, s.now)
  }

  ghost predicate PlannedRun(s: Webhooks.State, steps: seq<Webhooks.Step>, u: Webhooks.State, plans: map<nat, Plan>,
                             t: real)
    decreases |steps|
  {
    && OnPlan(s, plans, t)
    && if steps == [] then s == u
       else Webhooks.Enabled(s, steps[0]) && PlannedRun(Webhooks.Apply(s, steps[0]), steps[1..], u, plans, t)
  }

  lemma OnPlanIsPrompt(s: Webhooks.State, plans: map<nat, Plan>, t: real)
    requires OnPlan(s, plans, t)
    ensures Webhooks.Prompt(s)
  {
    forall j | j in s.jobs
      ensures s.now < s.jobs[j].lease
    {
      var p := plans[j.batch];
      var i :| 0 <= i < |p.order| && p.order[i] == j.id &&
               s.now as real <= p.begin + p.schedule.start[i] + p.schedule.takes[i];
      BatchEndsBeforeItsLease(p.schedule, t, i, p.stamp as real, p.begin);
    }
  }

  /**
   * The lease assumption of the queue is met by what the workers do: batches of at most the claim
   * limit, run through the worker's slots with deliveries of at most `t` seconds and begun while three
   * of those still fit the lease, give runs in which every claim ends before its lease.
   */
  lemma {:induction false} PlannedRunIsPrompt(s: Webhooks.State, steps: seq<Webhooks.Step>, u: Webhooks.State,
                                              plans: map<nat, Plan>, t: real)
    requires PlannedRun(s, steps, u, plans, t)
    ensures Webhooks.PromptRun(s, steps, u)
    decreases |steps|
  {
    OnPlanIsPrompt(s, plans, t);
    if steps == [] {
    } else {
      PlannedRunIsPrompt(Webhooks.Apply(s, steps[0]), steps[1..], u, plans, t);
    }
  }

  /** So with deliveries of less than 20 seconds the queue keeps one holder a row, its bounds and its final states. */
  lemma PlannedQueue(s: Webhooks.State, steps: seq<Webhooks.Step>, u: Webhooks.State, plans: map<nat, Plan>, t: real,
                     i: Webhooks.Job, id: nat)
    requires Webhooks.Init(s) && PlannedRun(s, steps, u, plans, t)
    requires i in u.jobs && id in u.rows
    ensures forall j | j in u.jobs && j.id == i.id :: j == i
    ensures id in u.lost && u.rows[id].attempts <= Webhooks.MAX_ATTEMPTS + u.lost[id]
    ensures i.id in u.rows && u.rows[i.id].status.Pending?
  {
    PlannedRunIsPrompt(s, steps, u, plans, t);
    forall j | j in u.jobs && j.id == i.id
      ensures j == i
    {
      Webhooks.NoTwoHolders(s, steps, u, j, i);
    }
    Webhooks.AttemptsAreBounded(s, steps, u, id);
    Webhooks.RunKeepsInv(s, steps, u);
    assert Webhooks.HoldOk(u, i);
  }
}
