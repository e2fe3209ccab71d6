/**
 * The webhook delivery queue: workers claim due rows under a lease, send, and record the outcome;
 * they may crash or fail to record it. No write after the claim looks at the row's status.
 */
module Webhooks {
  import opened Basics

  const MAX_ATTEMPTS := 6
  const CLAIM_LEASE_SECS := 60
  const BATCH := 20

  datatype Status = Pending | Delivered | Failed

  datatype Delivery = Delivery(status: Status, attempts: nat, nextAt: int, created: int)

  /** One row in the hands of one batch. */
  datatype Job = Job(batch: nat, id: nat)

  datatype Hold = Hold(attempts: nat, lease: int)

  /**
   * `batches` counts the claims so far; `lost` and `acks` count, for each row, outcomes that were
   * never recorded and requests the receiver acknowledged.
   */
  datatype State = State(now: int, rows: map<nat, Delivery>, jobs: map<Job, Hold>, batches: nat,
                         lost: map<nat, nat>, acks: map<nat, nat>)

  datatype Outcome = Acknowledged | Blocked | Error

  /** Clock readings (`at`, `stamp`) are taken at or before the moment they are written. */
  datatype Step =
    | Tick(to: int)
    | Enqueue(id: nat, at: int)
    | Claim(stamp: int, ids: set<nat>, locked: set<nat>)
    | End(job: Job, outcome: Outcome, stamp: int, saved: bool)

  function Backoff(attempt: nat): nat {
    match attempt
    case 1 => 5
    case 2 => 30
    case 3 => 120
    case 4 => 600
    case _ => 3600
  }

  predicate Due(s: State, id: nat) {
    id in s.rows && s.rows[id].status.Pending? && s.rows[id].nextAt <= s.now
  }

  /** The due rows that come first, up to the batch limit, skipping those locked by others. */
  ghost predicate ClaimEnabled(s: State, ids: set<nat>, locked: set<nat>) {
    && (forall id | id in ids :: Due(s, id) && id !in locked)
    && |ids| <= BATCH
    && (forall id | Due(s, id) && id !in locked && id !in ids ::
          |ids| == BATCH && forall x | x in ids :: s.rows[x].nextAt <= s.rows[id].nextAt)
  }

  ghost predicate Enabled(s: State, a: Step) {
    match a
    case Tick(to) => s.now <= to
    case Enqueue(id, at) => id !in s.rows && at <= s.now
    case Claim(stamp, ids, locked) => stamp <= s.now && ClaimEnabled(s, ids, locked)
    case End(j, _, stamp, _) => j in s.jobs && j.id in s.rows && j.id in s.lost && j.id in s.acks && stamp <= s.now
  }

  function Claimed(r: Delivery, lease: int): Delivery {
    r.(attempts := r.attempts + 1, nextAt := lease)
  }

  /** What recording an outcome writes. */
  function Recorded(r: Delivery, h: Hold, o: Outcome, stamp: int): Delivery {
    match o
    case Acknowledged => r.(status := Delivered)
    case Blocked => r.(status := Failed)
    case Error =>
      if h.attempts >= MAX_ATTEMPTS then r.(status := Failed) else r.(nextAt := stamp + Backoff(h.attempts))
  }

  ghost function Apply(s: State, a: Step): State
    requires Enabled(s, a)
  {
    match a
    case Tick(to) => s.(now := to)
    case Enqueue(id, at) =>
      s.(rows := s.rows[id := Delivery(Pending, 0, at, s.now)], lost := s.lost[id := 0], acks := s.acks[id := 0])
    case Claim(stamp, ids, _) =>
      var lease := stamp + CLAIM_LEASE_SECS;
      s.(rows := map id | id in s.rows :: if id in ids then Claimed(s.rows[id], lease) else s.rows[id],
         jobs := s.jobs + NewJobs(s, ids, lease),
         batches := s.batches + 1)
    case End(j, o, stamp, saved) =>
      s.(jobs := s.jobs - {j},
         rows := if saved then s.rows[j.id := Recorded(s.rows[j.id], s.jobs[j], o, stamp)] else s.rows,
         lost := if saved then s.lost else s.lost[j.id := s.lost[j.id] + 1],
         acks := if o.Acknowledged? then s.acks[j.id := s.acks[j.id] + 1] else s.acks)
  }

  ghost function NewJobs(s: State, ids: set<nat>, lease: int): map<Job, Hold> {
    map j: Job | j in JobsOf(s.batches, ids) && j.id in s.rows :: Hold(s.rows[j.id].attempts + 1, lease)
  }

  ghost function JobsOf(batch: nat, ids: set<nat>): set<Job> {
    set id | id in ids :: Job(batch, id)
  }

  // ---------------------------------------------------------------- what a step writes

  /**
   * A batch claims at most 20 pending rows that are due and not locked, and leaves such a row behind
   * only when it has 20 that were due no later.
   */
  lemma ClaimTakesTheOldest(s: State, a: Step)
    requires a.Claim?
    ensures Enabled(s, a) <==>
            && a.stamp <= s.now && |a.ids| <= 20
            && (forall id | id in a.ids ::
                  id in s.rows && s.rows[id].status == Pending && s.rows[id].nextAt <= s.now && id !in a.locked)
            && (forall id | id in s.rows && s.rows[id].status == Pending && s.rows[id].nextAt <= s.now &&
                            id !in a.locked && id !in a.ids ::
                  |a.ids| == 20 && forall x | x in a.ids :: s.rows[x].nextAt <= s.rows[id].nextAt)
  {
  }

  /** Claimed rows count one attempt more and are hidden for 60 seconds; no other row changes. */
  lemma ClaimLeases(s: State, a: Step, id: nat)
    requires Enabled(s, a) && a.Claim? && id in s.rows
    ensures var t, r := Apply(s, a), s.rows[id];
            && t.rows.Keys == s.rows.Keys && t.now == s.now && t.lost == s.lost && t.acks == s.acks
            && (id !in a.ids ==> t.rows[id] == r)
            && (id in a.ids ==> t.rows[id] == Delivery(r.status, r.attempts + 1, a.stamp + 60, r.created))
  {
  }

  /**
   * What an outcome leaves of the row: delivered, failed for good, or, after an error with attempts
   * left, as pending as before and due again 5, 30, 120, 600 or 3600 seconds later.
   */
  lemma OutcomeIsWritten(s: State, a: Step)
    requires Enabled(s, a) && a.End?
    ensures var t, id, tried := Apply(s, a), a.job.id, s.jobs[a.job].attempts;
            var was, row := s.rows[id], t.rows[id];
            && t.rows == s.rows[id := row] && t.jobs == s.jobs - {a.job}
            && t.lost == s.lost[id := s.lost[id] + if a.saved then 0 else 1]
            && t.acks == s.acks[id := s.acks[id] + if a.outcome == Acknowledged then 1 else 0]
            && row.attempts == was.attempts && row.created == was.created
            && (!a.saved ==> row == was)
            && (a.saved && a.outcome == Acknowledged ==> row.status == Delivered && row.nextAt == was.nextAt)
            && (a.saved && a.outcome == Blocked ==> row.status == Failed && row.nextAt == was.nextAt)
            && (a.saved && a.outcome == Error && tried >= 6 ==> row.status == Failed && row.nextAt == was.nextAt)
            && (a.saved && a.outcome == Error && tried < 6 ==> row.status == was.status)
            && (a.saved && a.outcome == Error && tried == 1 ==> row.nextAt == a.stamp + 5)
            && (a.saved && a.outcome == Error && tried == 2 ==> row.nextAt == a.stamp + 30)
            && (a.saved && a.outcome == Error && tried == 3 ==> row.nextAt == a.stamp + 120)
            && (a.saved && a.outcome == Error && tried == 4 ==> row.nextAt == a.stamp + 600)
            && (a.saved && a.outcome == Error && tried == 5 ==> row.nextAt == a.stamp + 3600)
  {
  }

  // ---------------------------------------------------------------- what holds while leases last

  /** Every batch is done with a row before the lease it took runs out. */
  ghost predicate Prompt(s: State) {
    forall j | j in s.jobs :: s.now < s.jobs[j].lease
  }

  ghost predicate Held(s: State, id: nat) {
    exists j | j in s.jobs :: j.id == id
  }

  ghost predicate OneHolder(s: State) {
    forall i, j | i in s.jobs && j in s.jobs && i.id == j.id :: i == j
  }

  /** A held row is exactly as its holder claimed it. */
  ghost predicate HoldOk(s: State, j: Job)
    requires j in s.jobs
  {
    && j.batch < s.batches && j.id in s.rows
    && s.rows[j.id].status.Pending? && s.rows[j.id].nextAt == s.jobs[j].lease
    && s.rows[j.id].attempts == s.jobs[j].attempts >= 1
  }

  ghost predicate CountsOk(r: Delivery, held: bool, lost: nat, acks: nat) {
    && (r.status.Pending? ==> acks <= lost && r.attempts <= lost + if held then MAX_ATTEMPTS else MAX_ATTEMPTS - 1)
    && (r.status.Delivered? ==> 1 <= acks <= lost + 1 && r.attempts <= lost + MAX_ATTEMPTS)
    && (r.status.Failed? ==> acks <= lost && r.attempts <= lost + MAX_ATTEMPTS)
  }

  ghost predicate RowOk(s: State, id: nat)
    requires id in s.rows
  {
    id in s.lost && id in s.acks && CountsOk(s.rows[id], Held(s, id), s.lost[id], s.acks[id])
  }

  ghost predicate Inv(s: State) {
    && OneHolder(s)
    && (forall j | j in s.jobs :: HoldOk(s, j))
    && (forall id | id in s.rows :: RowOk(s, id))
  }

  lemma SameHolders(s: State, t: State, id: nat)
    requires forall j: Job | j.id == id :: j in s.jobs <==> j in t.jobs
    ensures Held(s, id) <==> Held(t, id)
  {
  }

  /** A row that still is as its holder claimed it is due again if and only if that lease has run out. */
  lemma ReclaimIffLeasePassed(s: State, j: Job)
    requires j in s.jobs && HoldOk(s, j)
    ensures Due(s, j.id) <==> s.jobs[j].lease <= s.now
  {
  }

  lemma ClaimEffect(s: State, a: Step)
    requires Enabled(s, a) && a.Claim?
    ensures var t, lease := Apply(s, a), a.stamp + CLAIM_LEASE_SECS;
            && t.rows.Keys == s.rows.Keys
            && (forall id | id in s.rows :: t.rows[id] == if id in a.ids then Claimed(s.rows[id], lease)
                  else s.rows[id])
            && (forall j :: j in t.jobs <==> j in s.jobs || (j.batch == s.batches && j.id in a.ids))
            && (forall j | j in t.jobs ::
                  t.jobs[j] == if j.batch == s.batches && j.id in a.ids then Hold(s.rows[j.id].attempts + 1, lease)
                      else s.jobs[j])
  {
  }

  lemma FreeWhenDue(s: State, id: nat)
    requires Inv(s) && Prompt(s) && Due(s, id)
    ensures !Held(s, id)
  {
  }

  /** A job that was there holds none of the rows claimed now. */
  lemma ClaimKeepsHold(s: State, a: Step, j: Job)
    requires Inv(s) && Prompt(s) && Enabled(s, a) && a.Claim? && j in Apply(s, a).jobs
    ensures HoldOk(Apply(s, a), j)
    ensures j in s.jobs ==> j.id !in a.ids
    ensures j !in s.jobs ==> j.batch == s.batches && j.id in a.ids
  {
    ClaimEffect(s, a);
    if j in s.jobs {
      assert HoldOk(s, j);
      ReclaimIffLeasePassed(s, j);
    } else {
      assert Due(s, j.id);
    }
  }

  lemma ClaimKeepsHolds(s: State, a: Step)
    requires Inv(s) && Prompt(s) && Enabled(s, a) && a.Claim?
    ensures OneHolder(Apply(s, a)) && forall j | j in Apply(s, a).jobs :: HoldOk(Apply(s, a), j)
  {
    forall j | j in Apply(s, a).jobs
      ensures HoldOk(Apply(s, a), j)
      ensures j in s.jobs ==> j.id !in a.ids
      ensures j !in s.jobs ==> j.batch == s.batches && j.id in a.ids
    {
      ClaimKeepsHold(s, a, j);
    }
  }

  lemma ClaimKeepsRow(s: State, a: Step, id: nat)
    requires Inv(s) && Prompt(s) && Enabled(s, a) && a.Claim? && id in s.rows
    ensures id in Apply(s, a).rows && RowOk(Apply(s, a), id)
    ensures Held(Apply(s, a), id) <==> Held(s, id) || id in a.ids
  {
    ClaimEffect(s, a);
    var t := Apply(s, a);
    assert RowOk(s, id);
    if id in a.ids {
      FreeWhenDue(s, id);
      assert Job(s.batches, id) in t.jobs;
    } else {
      SameHolders(s, t, id);
    }
  }

  lemma ClaimKeeps(s: State, a: Step)
    requires Inv(s) && Prompt(s) && Enabled(s, a) && a.Claim?
    ensures Inv(Apply(s, a))
  {
    ClaimEffect(s, a);
    ClaimKeepsHolds(s, a);
    forall id | id in Apply(s, a).rows
      ensures RowOk(Apply(s, a), id)
    {
      ClaimKeepsRow(s, a, id);
    }
  }

  lemma EndKeeps(s: State, a: Step)
    requires Inv(s) && Enabled(s, a) && a.End?
    ensures Inv(Apply(s, a))
  {
    var t := Apply(s, a);
    assert HoldOk(s, a.job);
    forall j | j in t.jobs
      ensures HoldOk(t, j) && j.id != a.job.id
    {
      assert HoldOk(s, j);
    }
    forall id | id in t.rows
      ensures RowOk(t, id)
    {
      assert RowOk(s, id);
      if id == a.job.id {
        assert Held(s, id) && !Held(t, id);
      } else {
        SameHolders(s, t, id);
      }
    }
  }

  lemma QuietStepKeeps(s: State, a: Step)
    requires Inv(s) && Enabled(s, a) && (a.Tick? || a.Enqueue?)
    ensures Inv(Apply(s, a))
  {
  }

  lemma InvStep(s: State, a: Step)
    requires Inv(s) && Prompt(s) && Enabled(s, a)
    ensures Inv(Apply(s, a))
  {
    if a.Claim? {
      ClaimKeeps(s, a);
    } else if a.End? {
      EndKeeps(s, a);
    } else {
      QuietStepKeeps(s, a);
    }
  }

  /** A settled row is never written again. */
  lemma SettledStays(s: State, a: Step, id: nat)
    requires Inv(s) && Prompt(s) && Enabled(s, a) && id in s.rows && !s.rows[id].status.Pending?
    ensures id in Apply(s, a).rows && Apply(s, a).rows[id] == s.rows[id]
  {
  }

  // ---------------------------------------------------------------- runs

  ghost predicate Init(s: State) {
    s.rows == map[] && s.jobs == map[] && s.batches == 0 && s.lost == map[] && s.acks == map[]
  }

  /** `steps` lead from `s` to `t`, with every claim ending before its lease. */
  ghost predicate PromptRun(s: State, steps: seq<Step>, t: State)
    decreases |steps|
  {
    Prompt(s) && if steps == [] then s == t else Enabled(s, steps[0]) && PromptRun(Apply(s, steps[0]), steps[1..], t)
  }

  lemma {:induction false} RunKeepsInv(s: State, steps: seq<Step>, t: State)
    requires Inv(s) && PromptRun(s, steps, t)
    ensures Inv(t) && Prompt(t)
    decreases |steps|
  {
    if steps == [] {
    } else {
      InvStep(s, steps[0]);
      RunKeepsInv(Apply(s, steps[0]), steps[1..], t);
    }
  }

  /**
   * In every prompt run a recorded error frees the row: before the sixth attempt it stays pending, due
   * 5, 30, 120, 600 or 3600 seconds later; the sixth error, and a blocked target, fail it for good.
   */
  lemma ErrorIsRetried(s0: State, steps: seq<Step>, s: State, a: Step)
    requires Init(s0) && PromptRun(s0, steps, s) && Enabled(s, a) && a.End? && a.saved
    ensures var id, t := a.job.id, Apply(s, a);
            var n, row := s.rows[id].attempts, t.rows[id];
            && n >= 1 && row.attempts == n && (forall j | j in t.jobs :: j.id != id)
            && (a.outcome == Acknowledged ==> row.status == Delivered)
            && (a.outcome == Blocked ==> row.status == Failed)
            && (a.outcome == Error && n >= 6 ==> row.status == Failed)
            && (a.outcome == Error && n < 6 ==> row.status == Pending)
            && (a.outcome == Error && n == 1 ==> row.nextAt == a.stamp + 5)
            && (a.outcome == Error && n == 2 ==> row.nextAt == a.stamp + 30)
            && (a.outcome == Error && n == 3 ==> row.nextAt == a.stamp + 120)
            && (a.outcome == Error && n == 4 ==> row.nextAt == a.stamp + 600)
            && (a.outcome == Error && n == 5 ==> row.nextAt == a.stamp + 3600)
  {
    RunKeepsInv(s0, steps, s);
    assert HoldOk(s, a.job);
    OutcomeIsWritten(s, a);
  }

  /** No two batches ever hold the same row. */
  lemma NoTwoHolders(s: State, steps: seq<Step>, t: State, i: Job, j: Job)
    requires Init(s) && PromptRun(s, steps, t)
    requires i in t.jobs && j in t.jobs && i.id == j.id
    ensures i == j
  {
    RunKeepsInv(s, steps, t);
  }

  lemma {:induction false} SettledForGood(s: State, steps: seq<Step>, t: State, id: nat)
    requires Inv(s) && PromptRun(s, steps, t) && id in s.rows && !s.rows[id].status.Pending?
    ensures id in t.rows && t.rows[id] == s.rows[id]
    decreases |steps|
  {
    if steps == [] {
    } else {
      SettledStays(s, steps[0], id);
      InvStep(s, steps[0]);
      SettledForGood(Apply(s, steps[0]), steps[1..], t, id);
    }
  }

  /** Delivered and failed are final. */
  lemma TerminalStatesStick(s0: State, before: seq<Step>, s: State, id: nat, after: seq<Step>, t: State)
    requires Init(s0) && PromptRun(s0, before, s) && PromptRun(s, after, t)
    requires id in s.rows && !s.rows[id].status.Pending?
    ensures id in t.rows && t.rows[id] == s.rows[id]
  {
    RunKeepsInv(s0, before, s);
    SettledForGood(s, after, t, id);
  }

  /**
   * Attempts exceed the limit, and acknowledgements exceed one, only by outcomes that were lost. A
   * row said to be delivered was acknowledged, and without lost outcomes a row said to be failed
   * never was and a pending one not claimed has an attempt left.
   */
  lemma AttemptsAreBounded(s: State, steps: seq<Step>, t: State, id: nat)
    requires Init(s) && PromptRun(s, steps, t) && id in t.rows
    ensures id in t.lost && id in t.acks
    ensures t.rows[id].attempts <= 6 + t.lost[id]
    ensures t.acks[id] <= 1 + t.lost[id]
    ensures t.rows[id].status.Delivered? ==> t.acks[id] >= 1
    ensures t.lost[id] == 0 && !t.rows[id].status.Delivered? ==> t.acks[id] == 0
    ensures t.lost[id] == 0 && t.rows[id].status.Pending? && !Held(t, id) ==> t.rows[id].attempts < 6
  {
    RunKeepsInv(s, steps, t);
    assert RowOk(t, id);
  }

  // ---------------------------------------------------------------- how many claims

  /** How often `id` was claimed along `steps`. */
  ghost function Claims(steps: seq<Step>, id: nat): nat {
    if steps == [] then 0
    else (if steps[0].Claim? && id in steps[0].ids then 1 else 0) + Claims(steps[1..], id)
  }

  lemma {:induction false} AttemptsCountClaims(s: State, steps: seq<Step>, t: State, id: nat)
    requires PromptRun(s, steps, t) && id in s.rows
    ensures id in t.rows && t.rows[id].attempts == s.rows[id].attempts + Claims(steps, id)
    decreases |steps|
  {
    if steps == [] {
    } else {
      AttemptsCountClaims(Apply(s, steps[0]), steps[1..], t, id);
    }
  }

  /** With no outcome lost, a row is settled once its sixth claim has ended. */
  lemma SixClaimsSettle(s0: State, before: seq<Step>, s: State, at: int, id: nat, after: seq<Step>, t: State)
    requires Init(s0) && PromptRun(s0, before, s) && Enabled(s, Enqueue(id, at))
    requires PromptRun(Apply(s, Enqueue(id, at)), after, t) && id in t.lost && t.lost[id] == 0
    ensures Claims(after, id) <= 6
    ensures id in t.rows && (Claims(after, id) == 6 && !Held(t, id) ==> !t.rows[id].status.Pending?)
  {
    RunKeepsInv(s0, before, s);
    InvStep(s, Enqueue(id, at));
    RunKeepsInv(Apply(s, Enqueue(id, at)), after, t);
    AttemptsCountClaims(Apply(s, Enqueue(id, at)), after, t, id);
    assert RowOk(t, id);
  }

  // ---------------------------------------------------------------- how every claim ended

  /** How often a claim of `id` ended in `o` along `steps`. */
  ghost function Ends(steps: seq<Step>, id: nat, o: Outcome): nat {
    if steps == [] then 0
    else
      (if steps[0].End? && steps[0].job.id == id && steps[0].outcome == o then 1 else 0) + Ends(steps[1..], id, o)
  }

  /** The row after `errors`, `blocks` and `acks` recorded outcomes. */
  ghost predicate Tallied(r: Delivery, held: bool, errors: nat, blocks: nat, acks: nat) {
    && r.attempts == errors + blocks + acks + (if held then 1 else 0)
    && match r.status
       case Pending => errors < MAX_ATTEMPTS && blocks == 0 && acks == 0
       case Delivered => errors < MAX_ATTEMPTS && blocks == 0 && acks == 1
       case Failed => acks == 0 && if blocks == 0 then errors == MAX_ATTEMPTS else errors < MAX_ATTEMPTS && blocks == 1
  }

  lemma TallyStep(s: State, a: Step, id: nat, e: nat, b: nat, k: nat)
    requires Inv(s) && Prompt(s) && Enabled(s, a) && id in s.rows && Tallied(s.rows[id], Held(s, id), e, b, k)
    requires id in Apply(s, a).lost && Apply(s, a).lost[id] == 0
    ensures var t, end := Apply(s, a), a.End? && a.job.id == id;
            && id in t.rows
            && Tallied(t.rows[id], Held(t, id), e + (if end && a.outcome == Error then 1 else 0),
                       b + (if end && a.outcome == Blocked then 1 else 0),
                       k + (if end && a.outcome == Acknowledged then 1 else 0))
  {
    var t := Apply(s, a);
    if a.Claim? {
      ClaimKeepsRow(s, a, id);
      if id in a.ids {
        FreeWhenDue(s, id);
      }
    } else if a.End? && a.job.id == id {
      assert HoldOk(s, a.job) && Held(s, id) && !Held(t, id);
    } else {
      SameHolders(s, t, id);
    }
  }

  lemma {:induction false} LostGrows(s: State, steps: seq<Step>, t: State, id: nat)
    requires PromptRun(s, steps, t) && id in s.rows && id in s.lost
    ensures id in t.lost && s.lost[id] <= t.lost[id]
    decreases |steps|
  {
    if steps == [] {
    } else {
      LostGrows(Apply(s, steps[0]), steps[1..], t, id);
    }
  }

  lemma {:induction false} RunTallies(s: State, steps: seq<Step>, t: State, id: nat, e: nat, b: nat, k: nat)
    requires Inv(s) && PromptRun(s, steps, t) && id in s.rows && Tallied(s.rows[id], Held(s, id), e, b, k)
    requires id in t.lost && t.lost[id] == 0
    ensures id in t.rows
    ensures Tallied(t.rows[id], Held(t, id), e + Ends(steps, id, Error), b + Ends(steps, id, Blocked),
                    k + Ends(steps, id, Acknowledged))
    decreases |steps|
  {
    if steps == [] {
    } else {
      var a := steps[0];
      assert RowOk(s, id);
      InvStep(s, a);
      LostGrows(Apply(s, a), steps[1..], t, id);
      TallyStep(s, a, id, e, b, k);
      var end := a.End? && a.job.id == id;
      RunTallies(Apply(s, a), steps[1..], t, id, e + (if end && a.outcome == Error then 1 else 0),
                 b + (if end && a.outcome == Blocked then 1 else 0),
                 k + (if end && a.outcome == Acknowledged then 1 else 0));
    }
  }

  /**
   * With no outcome lost every claim of a delivery ended in one outcome or is still held, and the
   * outcomes decide the status: failed if and only if six claims ended in an error or one was blocked,
   * delivered if and only if one was acknowledged, and otherwise pending, to be tried again.
   */
  lemma OutcomesDecide(s0: State, before: seq<Step>, s: State, at: int, id: nat, after: seq<Step>, t: State)
    requires Init(s0) && PromptRun(s0, before, s) && Enabled(s, Enqueue(id, at))
    requires PromptRun(Apply(s, Enqueue(id, at)), after, t) && id in t.lost && t.lost[id] == 0
    ensures id in t.rows
    ensures var e, b, k := Ends(after, id, Error), Ends(after, id, Blocked), Ends(after, id, Acknowledged);
            && Claims(after, id) == t.rows[id].attempts
            && Claims(after, id) == e + b + k + (if exists j | j in t.jobs :: j.id == id then 1 else 0)
            && e <= 6 && b <= 1 && k <= 1
            && (t.rows[id].status == Failed <==> e == 6 || b == 1)
            && (t.rows[id].status == Delivered <==> k == 1)
            && (t.rows[id].status == Pending <==> e < 6 && b == 0 && k == 0)
  {
    var s1 := Apply(s, Enqueue(id, at));
    RunKeepsInv(s0, before, s);
    InvStep(s, Enqueue(id, at));
    NoHolderYet(s, id);
    SameHolders(s, s1, id);
    RunTallies(s1, after, t, id, 0, 0, 0);
    AttemptsCountClaims(s1, after, t, id);
  }

  // ---------------------------------------------------------------- how long it takes

  /** No due row waits for a worker longer than `d` seconds. */
  ghost predicate Served(s: State, d: nat) {
    forall id | id in s.rows && s.rows[id].status.Pending? && !Held(s, id) ::
      s.now <= Max(s.rows[id].nextAt, s.rows[id].created) + d
  }

  /** A pending row in nobody's hands is picked up within `d` seconds of being both due and enqueued. */
  lemma ServedIff(s: State, d: nat)
    ensures Served(s, d) <==>
              forall id | id in s.rows && s.rows[id].status == Pending && (forall j | j in s.jobs :: j.id != id) ::
                s.now <= s.rows[id].nextAt + d || s.now <= s.rows[id].created + d
  {
  }

  /** `PromptRun` with workers that serve the queue. */
  ghost predicate ServedRun(s: State, steps: seq<Step>, t: State, d: nat)
    decreases |steps|
  {
    && Prompt(s) && Served(s, d)
    && if steps == [] then s == t else Enabled(s, steps[0]) && ServedRun(Apply(s, steps[0]), steps[1..], t, d)
  }

  /** Seconds from enqueueing until attempt `a` is over and its backoff has passed, at the latest. */
  ghost function Deadline(a: nat, d: nat): nat {
    if a == 0 then 0 else Deadline(a - 1, d) + d + CLAIM_LEASE_SECS + Backoff(a)
  }

  ghost predicate OnTime(s: State, id: nat, d: nat)
    requires id in s.rows
  {
    var r := s.rows[id];
    r.status.Pending? ==>
      if Held(s, id) then r.attempts >= 1 && r.nextAt <= r.created + Deadline(r.attempts - 1, d) + d + CLAIM_LEASE_SECS
      else r.nextAt <= r.created + Deadline(r.attempts, d)
  }

  /** A pick-up within `d` seconds of the time the row was due takes a lease that is still on time. */
  lemma LeaseOnTime(r: Delivery, now: int, stamp: int, d: nat)
    requires stamp <= now <= Max(r.nextAt, r.created) + d && r.nextAt <= r.created + Deadline(r.attempts, d)
    ensures var c := Claimed(r, stamp + CLAIM_LEASE_SECS);
            c.attempts >= 1 && c.nextAt <= c.created + Deadline(c.attempts - 1, d) + d + CLAIM_LEASE_SECS
  {
  }

  lemma OnTimeWhenClaimed(s: State, a: Step, d: nat, id: nat)
    requires Inv(s) && Prompt(s) && Served(s, d) && Enabled(s, a) && a.Claim? && id in a.ids && id in s.rows
    requires OnTime(s, id, d)
    ensures id in Apply(s, a).rows && OnTime(Apply(s, a), id, d)
  {
    assert Due(s, id);
    FreeWhenDue(s, id);
    ClaimKeepsRow(s, a, id);
    LeaseOnTime(s.rows[id], s.now, a.stamp, d);
    assert Apply(s, a).rows[id] == Claimed(s.rows[id], a.stamp + CLAIM_LEASE_SECS);
  }

  lemma OnTimeClaim(s: State, a: Step, d: nat, id: nat)
    requires Inv(s) && Prompt(s) && Served(s, d) && Enabled(s, a) && a.Claim? && id in s.rows && OnTime(s, id, d)
    ensures id in Apply(s, a).rows && OnTime(Apply(s, a), id, d)
  {
    if id in a.ids {
      OnTimeWhenClaimed(s, a, d, id);
    } else {
      ClaimKeepsRow(s, a, id);
      assert Apply(s, a).rows[id] == s.rows[id];
    }
  }

  lemma OnTimeEnd(s: State, a: Step, d: nat, id: nat)
    requires Inv(s) && Prompt(s) && Enabled(s, a) && a.End? && id in s.rows && OnTime(s, id, d)
    ensures id in Apply(s, a).rows && OnTime(Apply(s, a), id, d)
  {
  }

  lemma OnTimeStep(s: State, a: Step, d: nat)
    requires Inv(s) && Prompt(s) && Served(s, d) && Enabled(s, a) && forall id | id in s.rows :: OnTime(s, id, d)
    ensures forall id | id in Apply(s, a).rows :: OnTime(Apply(s, a), id, d)
  {
    var t := Apply(s, a);
    if a.Claim? {
      ClaimEffect(s, a);
    }
    forall id | id in t.rows
      ensures OnTime(t, id, d)
    {
      if id in s.rows && a.Claim? {
        OnTimeClaim(s, a, d, id);
      } else if id in s.rows && a.End? {
        OnTimeEnd(s, a, d, id);
      } else {
        SameHolders(s, t, id);
        if id in s.rows {
          assert OnTime(s, id, d);
        } else {
          NoHolderYet(s, id);
        }
      }
    }
  }

  lemma NoHolderYet(s: State, id: nat)
    requires Inv(s) && id !in s.rows
    ensures !Held(s, id)
  {
  }

  lemma {:induction false} RunOnTime(s: State, steps: seq<Step>, t: State, d: nat)
    requires Inv(s) && ServedRun(s, steps, t, d) && forall id | id in s.rows :: OnTime(s, id, d)
    ensures Inv(t) && Prompt(t) && Served(t, d) && forall id | id in t.rows :: OnTime(t, id, d)
    decreases |steps|
  {
    if steps == [] {
    } else {
      InvStep(s, steps[0]);
      OnTimeStep(s, steps[0], d);
      RunOnTime(Apply(s, steps[0]), steps[1..], t, d);
    }
  }

  lemma DeadlineGrows(a: nat, b: nat, d: nat)
    requires a <= b
    ensures Deadline(a, d) <= Deadline(b, d)
  {
  }

  lemma DeadlineOfFive(d: nat)
    ensures Deadline(5, d) == 5 * (60 + d) + (5 + 30 + 120 + 600 + 3600)
  {
    assert Deadline(1, d) == d + CLAIM_LEASE_SECS + 5;
    assert Deadline(2, d) == Deadline(1, d) + d + CLAIM_LEASE_SECS + 30;
    assert Deadline(3, d) == Deadline(2, d) + d + CLAIM_LEASE_SECS + 120;
    assert Deadline(4, d) == Deadline(3, d) + d + CLAIM_LEASE_SECS + 600;
  }

  lemma PendingUntil(t: State, d: nat, id: nat)
    requires Inv(t) && Prompt(t) && Served(t, d) && id in t.rows && OnTime(t, id, d)
    requires t.rows[id].status.Pending? && id in t.lost && t.lost[id] == 0
    ensures t.now <= t.rows[id].created + Deadline(5, d) + d + CLAIM_LEASE_SECS
  {
    var r := t.rows[id];
    assert RowOk(t, id);
    if Held(t, id) {
      var j :| j in t.jobs && j.id == id;
      assert HoldOk(t, j);
      DeadlineGrows(r.attempts - 1, 5, d);
    } else {
      DeadlineGrows(r.attempts, 5, d);
    }
  }

  /**
   * When no outcome is lost and workers pick up due rows within `d` seconds, every delivery is
   * settled at most six leases, six pick-ups and the five backoffs after it was enqueued.
   */
  lemma SettledInTime(s: State, steps: seq<Step>, t: State, d: nat, id: nat)
    requires Init(s) && ServedRun(s, steps, t, d) && id in t.rows && id in t.lost && t.lost[id] == 0
    requires t.now > t.rows[id].created + 6 * (60 + d) + (5 + 30 + 120 + 600 + 3600)
    ensures !t.rows[id].status.Pending?
  {
    RunOnTime(s, steps, t, d);
    if t.rows[id].status.Pending? {
      PendingUntil(t, d, id);
      DeadlineOfFive(d);
    }
  }

  // ---------------------------------------------------------------- without the lease assumption

  /** A run without any assumption. */
  ghost predicate AnyRun(s: State, steps: seq<Step>, t: State)
    decreases |steps|
  {
    if steps == [] then s == t else Enabled(s, steps[0]) && AnyRun(Apply(s, steps[0]), steps[1..], t)
  }

  ghost function RowState(now: int, r: Delivery, jobs: map<Job, Hold>, batches: nat, acks: nat): State {
    State(now, map[0 := r], jobs, batches, map[0 := 0], map[0 := acks])
  }

  /** A settled row in nobody's hands stays as it is, whatever happens. */
  lemma UnheldStays(s: State, a: Step, id: nat)
    requires Enabled(s, a) && id in s.rows && !s.rows[id].status.Pending? && !Held(s, id)
    ensures id in Apply(s, a).rows && Apply(s, a).rows[id] == s.rows[id] && !Held(Apply(s, a), id)
  {
    if a.Claim? {
      ClaimEffect(s, a);
      assert id in a.ids ==> Due(s, id);
    }
  }

  lemma {:induction false} UnheldRunStays(s: State, steps: seq<Step>, t: State, id: nat)
    requires AnyRun(s, steps, t) && id in s.rows && !s.rows[id].status.Pending? && !Held(s, id)
    ensures id in t.rows && t.rows[id] == s.rows[id]
    decreases |steps|
  {
    if steps == [] {
    } else {
      UnheldStays(s, steps[0], id);
      UnheldRunStays(Apply(s, steps[0]), steps[1..], t, id);
    }
  }

  /** A settled row in a batch's hands can be recorded the other way. */
  lemma HeldCanChange(s: State, id: nat) returns (steps: seq<Step>, t: State)
    requires id in s.rows && !s.rows[id].status.Pending? && id in s.lost && id in s.acks && Held(s, id)
    ensures AnyRun(s, steps, t) && id in t.rows && t.rows[id].status != s.rows[id].status
  {
    var j :| j in s.jobs && j.id == id;
    var a := End(j, if s.rows[id].status.Delivered? then Blocked else Acknowledged, s.now, true);
    t := Apply(s, a);
    steps := [a];
    assert steps[1..] == [] && AnyRun(t, [], t);
  }

  ghost predicate StatusFinal(s: State, id: nat)
    requires id in s.rows
  {
    forall steps, t | AnyRun(s, steps, t) :: id in t.rows && t.rows[id].status == s.rows[id].status
  }

  /** In any state at all, a settled status is final if and only if no batch still holds the row. */
  lemma FinalIffUnheld(s: State, id: nat)
    requires id in s.rows && !s.rows[id].status.Pending? && id in s.lost && id in s.acks
    ensures StatusFinal(s, id) <==> !Held(s, id)
  {
    if Held(s, id) {
      var steps, t := HeldCanChange(s, id);
    } else {
      forall steps, t | AnyRun(s, steps, t)
        ensures id in t.rows && t.rows[id].status == s.rows[id].status
      {
        UnheldRunStays(s, steps, t, id);
      }
    }
  }

  lemma Prepend(s: State, a: Step, steps: seq<Step>, t: State)
    requires Enabled(s, a) && AnyRun(Apply(s, a), steps, t)
    ensures AnyRun(s, [a] + steps, t)
  {
  }

  /** Delivery 0 in the hands of two batches, the lease of the first having run out. */
  ghost function Contested(now: int): State {
    RowState(now + 60, Delivery(Pending, 2, now + 120, now),
             map[Job(0, 0) := Hold(1, now + 60), Job(1, 0) := Hold(2, now + 120)], 2, 0)
  }

  ghost function Taken(now: int, at: int): State {
    RowState(at, Delivery(Pending, 1, now + 60, now), map[Job(0, 0) := Hold(1, now + 60)], 1, 0)
  }

  lemma ClaimAgain(now: int, rest: seq<Step>, t: State)
    requires AnyRun(Contested(now), rest, t)
    ensures AnyRun(Taken(now, now + 60), [Claim(now + 60, {0}, {})] + rest, t)
  {
    ClaimOfOne(Taken(now, now + 60), Claim(now + 60, {0}, {}), Contested(now));
    Prepend(Taken(now, now + 60), Claim(now + 60, {0}, {}), rest, t);
  }

  lemma ReclaimTaken(now: int, rest: seq<Step>, t: State)
    requires AnyRun(Contested(now), rest, t)
    ensures AnyRun(Taken(now, now), [Tick(now + 60)] + ([Claim(now + 60, {0}, {})] + rest), t)
  {
    ClaimAgain(now, rest, t);
    assert Apply(Taken(now, now), Tick(now + 60)) == Taken(now, now + 60);
    Prepend(Taken(now, now), Tick(now + 60), [Claim(now + 60, {0}, {})] + rest, t);
  }

  lemma TakeFirst(now: int, rest: seq<Step>, t: State)
    requires AnyRun(Taken(now, now), rest, t)
    ensures AnyRun(State(now, map[], map[], 0, map[], map[]), [Enqueue(0, now)] + ([Claim(now, {0}, {})] + rest), t)
  {
    var s := State(now, map[], map[], 0, map[], map[]);
    var s1 := RowState(now, Delivery(Pending, 0, now, now), map[], 0, 0);
    ClaimOfOne(s1, Claim(now, {0}, {}), Taken(now, now));
    Prepend(s1, Claim(now, {0}, {}), rest, t);
    assert Enabled(s, Enqueue(0, now));
    assert Apply(s, Enqueue(0, now)) == s1;
    Prepend(s, Enqueue(0, now), [Claim(now, {0}, {})] + rest, t);
  }

  /** A batch that outlives its lease lets a second one in ... */
  lemma ReachContested(now: int, rest: seq<Step>, t: State) returns (s: State, steps: seq<Step>)
    requires AnyRun(Contested(now), rest, t)
    ensures Init(s) && AnyRun(s, steps, t)
  {
    s := State(now, map[], map[], 0, map[], map[]);
    ReclaimTaken(now, rest, t);
    var later := [Tick(now + 60)] + ([Claim(now + 60, {0}, {})] + rest);
    TakeFirst(now, later, t);
    steps := [Enqueue(0, now)] + ([Claim(now, {0}, {})] + later);
  }

  /**
   * ... and then the row can be recorded as delivered and after that as failed, since recording a
   * failure does not look at the status.
   */
  lemma LateBatchOverwritesDelivered(now: int) returns (s: State, steps: seq<Step>, t: State)
    ensures Init(s) && AnyRun(s, steps, t) && 0 in t.rows && t.rows[0].status.Failed? && t.acks == map[0 := 1]
  {
    var s4 := Contested(now);
    var s5 := RowState(now + 60, Delivery(Delivered, 2, now + 120, now), map[Job(0, 0) := Hold(1, now + 60)], 2, 1);
    t := RowState(now + 60, Delivery(Failed, 2, now + 120, now), map[], 2, 1);
    var a5, a6 := End(Job(1, 0), Acknowledged, now + 60, true), End(Job(0, 0), Blocked, now + 60, true);
    EndOfOne(s5, a6, t);
    assert AnyRun(t, [], t);
    Prepend(s5, a6, [], t);
    EndOfOne(s4, a5, s5);
    Prepend(s4, a5, [a6] + [], t);
    s, steps := ReachContested(now, [a5] + ([a6] + []), t);
  }

  lemma EndOfOne(s: State, a: Step, t: State)
    requires a.End? && a.job in s.jobs && a.job.id == 0 && s.rows.Keys == {0} && a.stamp == s.now && a.saved
    requires 0 in s.lost && s.acks.Keys == {0}
    requires t == s.(rows := map[0 := Recorded(s.rows[0], s.jobs[a.job], a.outcome, a.stamp)], jobs := s.jobs - {a.job},
                     acks := map[0 := s.acks[0] + if a.outcome.Acknowledged? then 1 else 0])
    ensures Enabled(s, a) && Apply(s, a) == t
  {
  }

  lemma ClaimOfOne(s: State, a: Step, t: State)
    requires a.Claim? && a.ids == {0} && a.locked == {} && s.rows.Keys == {0} && a.stamp <= s.now && Due(s, 0)
    requires t == s.(rows := map[0 := Claimed(s.rows[0], a.stamp + CLAIM_LEASE_SECS)],
                     jobs := s.jobs[Job(s.batches, 0) := Hold(s.rows[0].attempts + 1, a.stamp + CLAIM_LEASE_SECS)],
                     batches := s.batches + 1)
    ensures Enabled(s, a) && Apply(s, a) == t
  {
    ClaimOfOneEnabled(s, a);
    JobOfOne(s, a.stamp + CLAIM_LEASE_SECS);
  }

  lemma JobOfOne(s: State, lease: int)
    requires s.rows.Keys == {0}
    ensures NewJobs(s, {0}, lease) == map[Job(s.batches, 0) := Hold(s.rows[0].attempts + 1, lease)]
  {
    assert Job(s.batches, 0) in JobsOf(s.batches, {0});
    assert JobsOf(s.batches, {0}) == {Job(s.batches, 0)};
  }

  lemma ClaimOfOneEnabled(s: State, a: Step)
    requires a.Claim? && a.ids == {0} && a.locked == {} && s.rows.Keys == {0} && a.stamp <= s.now && Due(s, 0)
    ensures Enabled(s, a)
  {
  }
}
