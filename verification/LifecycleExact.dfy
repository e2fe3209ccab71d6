/**
 * The assumptions are exact: from an empty server, live files stay readable in all runs if and only
 * if the runs respect all four of them, and reconciliation spares every referenced blob if and only
 * if they respect the ones on purges, uploads and grace.
 */
module LifecycleExact {
  import opened Basics
  import opened Keys
  import opened Lifecycle
  import opened LifecycleBase
  import opened LifecycleTracked
  import opened LifecycleSafety
  import opened LifecycleAccounts
  import opened LifecycleTheorems
  import opened LifecycleRace
  import ContentTypes

  // ---------------------------------------------------------------- a sweep counts an adopted key

  lemma AccountsOfEmpty()
    ensures Init(Empty()) && Base(Empty()) && Accounts(Empty())
  {
  }

  /** One uploaded byte, and a grant left. */
  lemma FirstUpload(c: Config, care: Care, t: Uuid, p: Policy, a: IdHex, contentType: string)
    returns (steps: seq<Step>, w: State)
    requires Permits(c, p, contentType) && c.settle > 0
    ensures Runs(c, care, Empty(), steps, w)
    ensures Quiescent(w, t) && w.now == 0 && Granted(w, 1, t, p) && w.ids == {a} && 2 !in w.minted
    ensures a in w.files && w.files == map[a := w.files[a]] && Duplicate(w.files[a], t, Sha256([0]))
    ensures w.files[a].key == ByteKey(t, p, a) && w.files[a].key in w.blobs && w.blobs[w.files[a].key].modified == 0
    ensures a in w.origin && w.origin[a].committed == 0 && w.minted[1].exp == GRANT_MAX_TTL
  {
    var s1 := OpenTenant(c, care, t);
    var s2 := MintOne(c, care, s1, 0, t, p);
    var s3 := MintOne(c, care, s2, 1, t, p);
    var x1, x2, x3 := [Env(CreateTenant(t, 0))], [Env(Mint(0, t, p, GRANT_MAX_TTL))],
        [Env(Mint(1, t, p, GRANT_MAX_TTL))];
    RunsJoin(c, care, Empty(), x1, s1, x2, s2);
    RunsJoin(c, care, Empty(), x1 + x2, s2, x3, s3);
    var x4;
    x4, w := UploadFresh(c, care, s3, 0, t, p, a, contentType);
    RunsJoin(c, care, Empty(), x1 + x2 + x3, s3, x4, w);
    steps := x1 + x2 + x3 + x4;
  }

  /** A second upload of the byte, a second later and about to look it up. */
  lemma ReachAdoption(c: Config, care: Care, t: Uuid, p: Policy, a: IdHex, b: IdHex, contentType: string)
    returns (steps: seq<Step>, w: State)
    requires Permits(c, p, contentType) && c.settle > 0 && a != b
    ensures Runs(c, care, Empty(), steps, w) && AboutToAdopt(w, 0, a) && Candidate(w, a, a, w.now)
  {
    var xs, s := FirstUpload(c, care, t, p, a, contentType);
    var d := s.(now := 1);
    OneStepRun(c, care, s, Env(Tick(1)));
    var ys;
    ys, w := StreamOne(c, care, d, 0, 1, t, p, b, contentType);
    RunsJoin(c, care, Empty(), xs, s, [Env(Tick(1))], d);
    RunsJoin(c, care, Empty(), xs + [Env(Tick(1))], d, ys, w);
    steps := xs + [Env(Tick(1))] + ys;
    KeysDiffer(t, p, a, b);
    assert forall f | f in s.files - {a} :: false;
  }

  /**
   * The remark that reclamation is race-free fails for every server that lets an upload through: the
   * second upload finds the row of the first, a delete begun after that row was committed takes it,
   * and a sweep without retention reclaims the blob before the second upload commits on it.
   */
  lemma RaceFreeRemarkFails(c: Config, care: Care, t: Uuid, p: Policy, a: IdHex, b: IdHex, contentType: string)
    returns (steps: seq<Step>, w: State)
    requires Permits(c, p, contentType) && c.settle > 0 && a != b && !care.count
    ensures Init(Empty()) && Runs(c, care, Empty(), steps, w) && !Readable(w)
  {
    var xs, s := ReachAdoption(c, care, t, p, a, b, contentType);
    AccountsOfEmpty();
    RunKeepsBase(c, care, Empty(), xs, s);
    RunKeepsAccounts(c, care, Empty(), xs, s);
    RunKeepsDates(c, care, Empty(), xs, s);
    var ys;
    ys, w := AdoptionCanLoseTheBlob(c, care, s, 0, a, a, s.now);
    RunsJoin(c, care, Empty(), xs, s, ys, w);
    steps := xs + ys;
  }

  // ---------------------------------------------------------------- reconciliation takes a live row's blob

  /** A reconciliation is about to delete the blob of a live row. */
  ghost predicate AboutToLose(s: State, f: IdHex) {
    && 0 in s.recs && s.recs[0].phase.Removing?
    && f in s.files && Live(s.files[f]) && s.files[f].key == s.recs[0].phase.key
  }

  ghost function RemovingState(s: State, k: Key, grace: int): State
    requires k in s.blobs
  {
    s.(recs := map[0 := Reconcile(grace, map[k := Some(s.blobs[k].modified)],
        Removing(ReferencedKeys(s.files), s.now, k))])
  }

  ghost function ListedState(s: State, k: Key, grace: int, phase: RecPhase): State
    requires k in s.blobs
  {
    s.(recs := map[0 := Reconcile(grace, map[k := Some(s.blobs[k].modified)], phase)])
  }

  lemma ListBlob(c: Config, care: Care, s: State, k: Key, requested: nat) returns (steps: seq<Step>)
    requires s.recs == map[] && k in s.blobs && k.Original?
    requires care.grace ==> Grace(Some(requested)) >= c.settle
    ensures Runs(c, care, s, steps, ListedState(s, k, Grace(Some(requested)), Listing))
  {
    var g := Grace(Some(requested));
    var a1, a2 := Rec(0, RecStart(Some(requested))), Rec(0, RecList(k, true));
    var s1 := s.(recs := map[0 := Reconcile(g, map[], Listing)]);
    RunsTwo(c, care, s, a1, s1, a2, ListedState(s, k, g, Listing));
    steps := [a1, a2];
  }

  lemma SnapshotIs(c: Config, s: State, k: Key, g: int)
    requires k in s.blobs
    ensures Enabled(c, ListedState(s, k, g, Listing), Rec(0, RecSnapshot))
    ensures Apply(c, ListedState(s, k, g, Listing), Rec(0, RecSnapshot)) ==
            ListedState(s, k, g, Snapped(ReferencedKeys(s.files)))
  {
  }

  lemma ClockIs(c: Config, s: State, k: Key, g: int, referenced: set<Key>)
    requires k in s.blobs
    ensures Enabled(c, ListedState(s, k, g, Snapped(referenced)), Rec(0, RecClock))
    ensures Apply(c, ListedState(s, k, g, Snapped(referenced)), Rec(0, RecClock)) ==
            ListedState(s, k, g, Checking(referenced, s.now))
  {
  }

  lemma SnapshotAndClock(c: Config, care: Care, s: State, k: Key, g: int) returns (steps: seq<Step>)
    requires k in s.blobs
    ensures Runs(c, care, ListedState(s, k, g, Listing), steps,
                 ListedState(s, k, g, Checking(ReferencedKeys(s.files), s.now)))
  {
    var s1, s2 := ListedState(s, k, g, Listing), ListedState(s, k, g, Snapped(ReferencedKeys(s.files)));
    var s3 := ListedState(s, k, g, Checking(ReferencedKeys(s.files), s.now));
    SnapshotIs(c, s, k, g);
    ClockIs(c, s, k, g, ReferencedKeys(s.files));
    OneStepRun(c, care, s1, Rec(0, RecSnapshot));
    OneStepRun(c, care, s2, Rec(0, RecClock));
    RunsJoin(c, care, s1, [Rec(0, RecSnapshot)], s2, [Rec(0, RecClock)], s3);
    steps := [Rec(0, RecSnapshot)] + [Rec(0, RecClock)];
  }

  lemma CheckIs(c: Config, s: State, k: Key, g: int)
    requires k in s.blobs && NoRow(s.files, k) && s.now - s.blobs[k].modified >= g > 0
    ensures var s1 := ListedState(s, k, g, Checking(ReferencedKeys(s.files), s.now));
            Enabled(c, s1, Rec(0, RecCheck(k))) && Apply(c, s1, Rec(0, RecCheck(k))) == RemovingState(s, k, g)
  {
  }

  /** Reconciliation up to the re-check of an old blob that no row refers to. */
  lemma Condemn(c: Config, care: Care, s: State, k: Key, requested: nat) returns (steps: seq<Step>)
    requires s.recs == map[] && k in s.blobs && k.Original? && NoRow(s.files, k)
    requires s.now - s.blobs[k].modified >= Grace(Some(requested)) > 0
    requires care.grace ==> Grace(Some(requested)) >= c.settle
    ensures Runs(c, care, s, steps, RemovingState(s, k, Grace(Some(requested))))
  {
    var g := Grace(Some(requested));
    var xs := ListBlob(c, care, s, k, requested);
    var ys := SnapshotAndClock(c, care, s, k, g);
    var s1, s2 := ListedState(s, k, g, Listing), ListedState(s, k, g, Checking(ReferencedKeys(s.files), s.now));
    CheckIs(c, s, k, g);
    OneStepRun(c, care, s2, Rec(0, RecCheck(k)));
    RunsJoin(c, care, s, xs, s1, ys, s2);
    RunsJoin(c, care, s, xs + ys, s2, [Rec(0, RecCheck(k))], RemovingState(s, k, g));
    steps := xs + ys + [Rec(0, RecCheck(k))];
  }

  // ---- because an upload outlives the grace

  /** An upload whose transaction is open and whose blob is `g` seconds old. */
  lemma SlowUpload(c: Config, care: Care, t: Uuid, p: Policy, a: IdHex, contentType: string, g: nat)
    returns (steps: seq<Step>, w: State)
    requires Permits(c, p, contentType) && c.settle > 0 && (care.settles ==> g < c.settle)
    ensures Runs(c, care, Empty(), steps, w)
    ensures w.now == g && w.files == map[] && w.recs == map[] && w.quotas == map[t := 0] && w.lock.Free?
    ensures 0 in w.uploads && w.uploads == map[0 := w.uploads[0]] && w.uploads[0].phase.Opened?
    ensures w.uploads[0].claims.tenant == t && w.uploads[0].phase.st.id == a
    ensures w.uploads[0].phase.key == ByteKey(t, p, a) && ConsumeEnabled(w, w.uploads[0].claims,
              w.uploads[0].phase.started)
    ensures ByteKey(t, p, a) in w.blobs && w.blobs[ByteKey(t, p, a)].modified == 0
  {
    var s1 := OpenTenant(c, care, t);
    var s2 := MintOne(c, care, s1, 0, t, p);
    var x1, x2 := [Env(CreateTenant(t, 0))], [Env(Mint(0, t, p, GRANT_MAX_TTL))];
    RunsJoin(c, care, Empty(), x1, s1, x2, s2);
    var x3, s3 := StreamOne(c, care, s2, 0, 0, t, p, a, contentType);
    RunsJoin(c, care, Empty(), x1 + x2, s2, x3, s3);
    var x4;
    x4, w := OpenAndWait(c, care, s3, 0, g);
    RunsJoin(c, care, Empty(), x1 + x2 + x3, s3, x4, w);
    steps := x1 + x2 + x3 + x4;
  }

  lemma OpenAndWait(c: Config, care: Care, s: State, u: nat, to: int) returns (steps: seq<Step>, w: State)
    requires u in s.uploads && s.uploads == map[u := s.uploads[u]] && s.uploads[u].phase.Streamed? && s.files == map[]
    requires s.now <= to && (care.settles ==> to < s.uploads[u].phase.st.at + c.settle)
    ensures Runs(c, care, s, steps, w)
    ensures var st := s.uploads[u].phase.st;
            w == WithPhase(s, u, Opened(st, st.key, true, s.now)).(now := to)
  {
    var st := s.uploads[u].phase.st;
    var s1, s2 := FoundNothing(s, u), WithPhase(s, u, Opened(st, st.key, true, s.now));
    w := s2.(now := to);
    LookupFresh(c, care, s, u);
    assert Apply(c, s1, Up(u, Open)) == s2;
    assert SettledBy(s2.uploads, to, c.settle) || !care.settles;
    RunsTwo(c, care, s1, Up(u, Open), s2, Env(Tick(to)), w);
    RunsJoin(c, care, s, [Up(u, Lookup(None))], s1, [Up(u, Open), Env(Tick(to))], w);
    steps := [Up(u, Lookup(None))] + [Up(u, Open), Env(Tick(to))];
  }

  /** The re-check of reconciliation does not close the race: the row commits between it and the delete. */
  lemma SlowUploadLoses(c: Config, care: Care, t: Uuid, p: Policy, a: IdHex, contentType: string, requested: nat)
    returns (steps: seq<Step>, w: State)
    requires Permits(c, p, contentType) && c.settle > 0
    requires care.settles ==> Grace(Some(requested)) < c.settle
    requires care.grace ==> Grace(Some(requested)) >= c.settle
    ensures Runs(c, care, Empty(), steps, w) && AboutToLose(w, a)
  {
    var g, k := Grace(Some(requested)), ByteKey(t, p, a);
    var xs, s := SlowUpload(c, care, t, p, a, contentType, g);
    var ys := Condemn(c, care, s, k, requested);
    var d := RemovingState(s, k, g);
    var zs;
    zs, w := FinishOpened(c, care, d, 0);
    RunsJoin(c, care, Empty(), xs, s, ys, d);
    RunsJoin(c, care, Empty(), xs + ys, d, zs, w);
    steps := xs + ys + zs;
  }

  // ---- because a purge takes the rows of an adopted key

  ghost function DeletedState(s: State, f: IdHex, started: int): State
    requires f in s.files
  {
    var r := s.files[f];
    s.(files := s.files[f := r.(deletedAt := Some(started))], counters := DropUsage(s.counters, r.tenant, r.size),
       events := s.events + [Event(r.tenant, Delete, r.size)])
  }

  lemma DeleteOne(c: Config, care: Care, s: State, f: IdHex, started: int)
    requires f in s.files && Live(s.files[f]) && !s.lock.Restoring?
    requires f in s.origin && s.origin[f].committed <= started <= s.now
    requires forall u | u in s.uploads :: !s.uploads[u].phase.Checked?
    ensures Runs(c, care, s, [Row(DeleteFile(f, started))], DeletedState(s, f, started))
  {
    OneStepRun(c, care, s, Row(DeleteFile(f, started)));
  }

  /** Two rows on the key of `a`, that of `a` deleted at time 0, and `now` seconds gone by. */
  ghost predicate Siblings(s: State, t: Uuid, p: Policy, a: IdHex, b: IdHex, k: Key, now: int) {
    && Quiescent(s, t) && s.now == now && s.ids == {a, b} && 2 !in s.minted
    && a in s.files && b in s.files && s.files.Keys == {a, b}
    && s.files[a].key == k && s.files[a].deletedAt == Some(0)
    && s.files[b].key == k && Duplicate(s.files[b], t, Sha256([0]))
    && k == ByteKey(t, p, a) && k in s.blobs && s.blobs[k].modified == 0
    && b in s.origin && s.origin[b].committed == 0
  }

  lemma SecondUpload(c: Config, care: Care, t: Uuid, p: Policy, a: IdHex, b: IdHex, contentType: string)
    returns (steps: seq<Step>, w: State)
    requires Permits(c, p, contentType) && c.settle > 0 && a != b
    ensures Runs(c, care, Empty(), steps, w) && a in w.files && Live(w.files[a])
    ensures a in w.origin && w.origin[a].committed == 0 && w.now == 0
    ensures Siblings(DeletedState(w, a, 0), t, p, a, b, ByteKey(t, p, a), 0)
  {
    var xs, s := FirstUpload(c, care, t, p, a, contentType);
    KeysDiffer(t, p, a, b);
    var ys;
    ys, w := UploadAgain(c, care, s, 1, t, p, b, contentType, a);
    RunsJoin(c, care, Empty(), xs, s, ys, w);
    steps := xs + ys;
    assert w.files.Keys == {a, b};
  }

  lemma ReachSiblings(c: Config, care: Care, t: Uuid, p: Policy, a: IdHex, b: IdHex, contentType: string, now: nat)
    returns (steps: seq<Step>, w: State)
    requires Permits(c, p, contentType) && c.settle > 0 && a != b
    ensures Runs(c, care, Empty(), steps, w) && Siblings(w, t, p, a, b, ByteKey(t, p, a), now)
  {
    var xs, s := SecondUpload(c, care, t, p, a, b, contentType);
    DeleteOne(c, care, s, a, 0);
    var d := DeletedState(s, a, 0);
    w := d.(now := now);
    OneStepRun(c, care, d, Env(Tick(now)));
    RunsJoin(c, care, Empty(), xs, s, [Row(DeleteFile(a, 0))], d);
    RunsJoin(c, care, Empty(), xs + [Row(DeleteFile(a, 0))], d, [Env(Tick(now))], w);
    steps := xs + [Row(DeleteFile(a, 0))] + [Env(Tick(now))];
  }

  ghost function Purge(cutoff: int, k: Key): Lock {
    Sweeping(Sweep(cutoff, {k}, {}, Purging(k)))
  }

  /** The sweep counts the key while `b` is live and no upload has adopted it. */
  lemma CountLive(c: Config, care: Care, s: State, t: Uuid, p: Policy, a: IdHex, b: IdHex, k: Key, now: int)
    requires Siblings(s, t, p, a, b, k, now) && now > 0
    ensures Runs(c, care, s, [Gc(GcStart(None, now)), Gc(GcCount(k))], s.(lock := Purge(now, k)))
  {
    var s1 := s.(lock := Sweeping(Sweep(now, {k}, {}, Idle)));
    assert Expired(s.files[a], now);
    assert Candidates(s.files, None, now) == {k};
    RunsTwo(c, care, s, Gc(GcStart(None, now)), s1, Gc(GcCount(k)), s.(lock := Purge(now, k)));
  }

  /** Then a third upload adopts the key of `b`. */
  lemma ThirdUpload(c: Config, care: Care, s: State, t: Uuid, p: Policy, a: IdHex, b: IdHex, h: IdHex, k: Key, now: int,
                    contentType: string)
    returns (steps: seq<Step>, w: State)
    requires Siblings(s.(lock := Free), t, p, a, b, k, now) && s.lock == Purge(now, k)
    requires Permits(c, p, contentType) && c.settle > 0 && h != a && h != b
    ensures Runs(c, care, s, steps, w)
    ensures w.files == s.files && w.recs == map[] && w.lock == s.lock && w.now == s.now && w.quotas == s.quotas
    ensures w.origin == s.origin
    ensures 0 in w.uploads && w.uploads == map[0 := w.uploads[0]] && w.uploads[0].phase.Ready?
    ensures w.uploads[0].phase.key == k && w.uploads[0].phase.st.id == h && w.uploads[0].claims.tenant == t
    ensures ConsumeEnabled(w, w.uploads[0].claims, w.now) && k in w.blobs && w.blobs[k].modified == 0
  {
    var s1 := MintOne(c, care, s, 2, t, p);
    var x1 := [Env(Mint(2, t, p, GRANT_MAX_TTL))];
    var x2;
    KeysDiffer(t, p, a, h);
    x2, w := AdoptAgain(c, care, s1, 2, t, p, h, contentType, b);
    GrantedIsConsumable(s1, 2, t, p, w);
    RunsJoin(c, care, s, x1, s1, x2, w);
    steps := x1 + x2;
  }

  /** A delete that began before the cutoff lets the purge take both rows. */
  lemma PurgeBoth(c: Config, care: Care, s: State, a: IdHex, b: IdHex, k: Key, now: int)
    returns (steps: seq<Step>, w: State)
    requires s.now == now > 0 && s.lock == Purge(now, k) && !care.purge && a != b
    requires a in s.files && b in s.files && s.files.Keys == {a, b} && s.files[a].key == k && s.files[b].key == k
    requires s.files[a].deletedAt == Some(0) && Live(s.files[b]) && b in s.origin && s.origin[b].committed < now
    requires forall u | u in s.uploads :: !s.uploads[u].phase.Checked?
    ensures Runs(c, care, s, steps, w)
    ensures w.files == map[] && w.lock.Free? && w.uploads == s.uploads && w.blobs == s.blobs && w.now == s.now
    ensures w.recs == s.recs && w.grants == s.grants && w.quotas == s.quotas
  {
    DeleteOne(c, care, s, b, now - 1);
    var d := DeletedState(s, b, now - 1);
    var d1 := d.(lock := Sweeping(Sweep(now, {}, {a, b}, Idle)));
    PurgeIs(c, d, a, b, k, now, d1);
    w := d.(files := map[], lock := Free);
    assert d.files - {a, b} == map[];
    RunsTwo(c, care, d, Gc(GcPurge), d1, Gc(GcCommit), w);
    RunsJoin(c, care, s, [Row(DeleteFile(b, now - 1))], d, [Gc(GcPurge), Gc(GcCommit)], w);
    steps := [Row(DeleteFile(b, now - 1))] + [Gc(GcPurge), Gc(GcCommit)];
  }

  lemma PurgeIs(c: Config, s: State, a: IdHex, b: IdHex, k: Key, now: int, w: State)
    requires s.lock == Purge(now, k) && a in s.files && b in s.files && s.files.Keys == {a, b}
    requires s.files[a].key == k && s.files[b].key == k && Expired(s.files[a], now) && Expired(s.files[b], now)
    requires w == s.(lock := Sweeping(Sweep(now, {}, {a, b}, Idle)))
    ensures Enabled(c, s, Gc(GcPurge)) && Apply(c, s, Gc(GcPurge)) == w
  {
    assert PurgeSet(s.files, k, now) == {a, b} && {k} - {k} == {} && {} + {a, b} == {a, b};
  }

  /**
   * With the counts of sweeps, the uploads and the grace in order, a purge of an adopted key is enough
   * for reconciliation to take a live row's blob.
   */
  lemma PurgeLoses(c: Config, care: Care, t: Uuid, p: Policy, a: IdHex, b: IdHex, h: IdHex, contentType: string)
    returns (steps: seq<Step>, w: State)
    requires Permits(c, p, contentType) && c.settle > 0 && a != b && a != h && b != h && !care.purge
    ensures Runs(c, care, Empty(), steps, w) && AboutToLose(w, h)
  {
    var now, k := Grace(Some(c.settle)), ByteKey(t, p, a);
    var x1, s1 := ReachSiblings(c, care, t, p, a, b, contentType, now);
    CountLive(c, care, s1, t, p, a, b, k, now);
    var x2, s2 := [Gc(GcStart(None, now)), Gc(GcCount(k))], s1.(lock := Purge(now, k));
    assert s2.(lock := Free) == s1;
    var x3, s3 := ThirdUpload(c, care, s2, t, p, a, b, h, k, now, contentType);
    var x4, s4 := PurgeBoth(c, care, s3, a, b, k, now);
    var x5;
    x5, w := CondemnThenCommit(c, care, s4, k, h);
    RunsJoin(c, care, Empty(), x1, s1, x2, s2);
    RunsJoin(c, care, Empty(), x1 + x2, s2, x3, s3);
    RunsJoin(c, care, Empty(), x1 + x2 + x3, s3, x4, s4);
    RunsJoin(c, care, Empty(), x1 + x2 + x3 + x4, s4, x5, w);
    steps := x1 + x2 + x3 + x4 + x5;
  }

  lemma CondemnThenCommit(c: Config, care: Care, s: State, k: Key, h: IdHex) returns (steps: seq<Step>, w: State)
    requires c.settle > 0 && s.files == map[] && s.recs == map[] && s.lock.Free?
    requires k.Original? && k in s.blobs && s.now - s.blobs[k].modified >= Grace(Some(c.settle))
    requires 0 in s.uploads && s.uploads == map[0 := s.uploads[0]] && s.uploads[0].phase.Ready?
    requires s.uploads[0].phase.key == k && s.uploads[0].phase.st.id == h && Quota(s, s.uploads[0].claims.tenant) <= 0
    requires ConsumeEnabled(s, s.uploads[0].claims, s.now)
    ensures Runs(c, care, s, steps, w) && AboutToLose(w, h)
  {
    var xs := Condemn(c, care, s, k, c.settle);
    var d := RemovingState(s, k, Grace(Some(c.settle)));
    var ys;
    ys, w := FinishReady(c, care, d, 0);
    RunsJoin(c, care, s, xs, d, ys, w);
    steps := xs + ys;
  }

  // ---------------------------------------------------------------- exactly these assumptions

  /** Some upload can get through at all. */
  ghost predicate CanUpload(c: Config) {
    c.maxUpload >= 1 && c.settle > 0 && exists contentType :: ContentTypes.MasterAllowed(c.allowed, contentType)
  }

  function Id(d: char): IdHex
    requires d in HEX
  {
    seq(32, _ => d)
  }

  lemma IdsDiffer()
    ensures Id('0') != Id('1') && Id('0') != Id('2') && Id('1') != Id('2')
  {
    assert Id('0')[0] == '0' && Id('1')[0] == '1' && Id('2')[0] == '2';
  }

  function SomeTenant(): Uuid {
    seq(36, _ => '0')
  }

  function SomePolicy(): Policy {
    Policy("avatar", "images", 1, [], "private")
  }

  lemma SomePermitted(c: Config) returns (contentType: string)
    requires CanUpload(c)
    ensures Permits(c, SomePolicy(), contentType)
  {
    contentType :| ContentTypes.MasterAllowed(c.allowed, contentType);
  }

  ghost predicate Spares(s: State) {
    forall r | r in s.recs && s.recs[r].phase.Removing? :: NoRow(s.files, s.recs[r].phase.key)
  }

  lemma SparesMeans(s: State)
    ensures Spares(s) <==>
              forall r, f | r in s.recs && s.recs[r].phase.Removing? && f in s.files ::
                s.files[f].key != s.recs[r].phase.key
  {
  }

  /** Reconciliation never comes to delete a blob that a row refers to. */
  ghost predicate StaysSpared(c: Config, care: Care, s: State) {
    forall steps, t | Runs(c, care, s, steps, t) :: Spares(t)
  }

  lemma SettlingSpares(c: Config, care: Care)
    requires care.purge && care.settles && GraceAssured(c, care)
    ensures StaysSpared(c, care, Empty())
  {
    forall steps, t | Runs(c, care, Empty(), steps, t)
      ensures Spares(t)
    {
      RunKeepsTracked(c, care, Empty(), steps, t);
      forall r | r in t.recs && t.recs[r].phase.Removing?
        ensures NoRow(t.files, t.recs[r].phase.key)
      {
        assert RecOk(t.recs[r], t, c.settle);
      }
    }
  }

  /** Without one of the three, some run comes to a delete of a live row's blob. */
  lemma SomeRunLoses(c: Config, care: Care) returns (steps: seq<Step>, w: State, f: IdHex)
    requires CanUpload(c) && !(care.purge && care.settles && GraceAssured(c, care))
    ensures Runs(c, care, Empty(), steps, w) && AboutToLose(w, f)
  {
    IdsDiffer();
    var ct := SomePermitted(c);
    if !care.purge {
      f := Id('2');
      steps, w := PurgeLoses(c, care, SomeTenant(), SomePolicy(), Id('0'), Id('1'), f, ct);
    } else {
      f := Id('0');
      var requested: nat := if !care.settles then c.settle else 0;
      steps, w := SlowUploadLoses(c, care, SomeTenant(), SomePolicy(), f, ct, requested);
    }
  }

  /**
   * Reconciliation spares every blob that a row refers to, in all runs, if and only if no sweep
   * purges an adopted key and uploads settle within the grace, be it the one asked for or the floor.
   */
  lemma ReconcileSparesIff(c: Config, care: Care)
    requires CanUpload(c)
    ensures StaysSpared(c, care, Empty()) <==> care.purge && care.settles && (care.grace || c.settle <= 60)
  {
    if care.purge && care.settles && GraceAssured(c, care) {
      SettlingSpares(c, care);
    } else {
      var steps, w, f := SomeRunLoses(c, care);
      assert !NoRow(w.files, w.recs[0].phase.key);
    }
  }

  lemma LossIsUnreadable(c: Config, care: Care, steps: seq<Step>, s: State, f: IdHex)
    returns (longer: seq<Step>, t: State)
    requires Runs(c, care, Empty(), steps, s) && AboutToLose(s, f)
    ensures Runs(c, care, Empty(), longer, t) && !Readable(t)
  {
    var a := Rec(0, RecDelete(false));
    OneStepLoses(c, care, s, a, f);
    t := Apply(c, s, a);
    RunsJoin(c, care, Empty(), steps, s, [a], t);
    longer := steps + [a];
  }

  lemma CarelessRunLoses(c: Config, care: Care) returns (steps: seq<Step>, t: State)
    requires CanUpload(c) && !(Full(care) && GraceAssured(c, care))
    ensures Runs(c, care, Empty(), steps, t) && !Readable(t)
  {
    if !care.count {
      IdsDiffer();
      var ct := SomePermitted(c);
      steps, t := RaceFreeRemarkFails(c, care, SomeTenant(), SomePolicy(), Id('0'), Id('1'), ct);
    } else {
      var xs, s, f := SomeRunLoses(c, care);
      steps, t := LossIsUnreadable(c, care, xs, s, f);
    }
  }

  /**
   * Live files stay readable in all runs if and only if no sweep counts or purges an adopted key and
   * uploads settle within the grace: each assumption is needed, and together they are enough.
   */
  lemma LiveFilesStayReadableIff(c: Config, care: Care)
    requires CanUpload(c)
    ensures StaysReadable(c, care, Empty()) <==>
              care.count && care.purge && care.settles && (care.grace || c.settle <= 60)
  {
    if Full(care) && GraceAssured(c, care) {
      SafeStaysReadable(c, care, Empty());
    } else {
      var steps, t := CarelessRunLoses(c, care);
    }
  }
}
