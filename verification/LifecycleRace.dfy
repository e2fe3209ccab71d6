/**
 * Runs that go wrong. An upload that has found its duplicate, a delete of that duplicate and a sweep
 * can interleave so that the upload commits a live row without bytes; and reconciliation can take
 * the blob of a live row when a purge takes an adopted key or when an upload outlives the grace.
 */
module LifecycleRace {
  import opened Basics
  import opened Keys
  import opened Lifecycle
  import opened LifecycleBase
  import opened LifecycleTracked
  import opened LifecycleAccounts
  import opened LifecycleTheorems
  import ContentTypes

  // ---------------------------------------------------------------- putting runs together

  lemma {:induction false} RunsJoin(c: Config, care: Care, s: State, xs: seq<Step>, t: State, ys: seq<Step>, w: State)
    requires Runs(c, care, s, xs, t) && Runs(c, care, t, ys, w)
    ensures Runs(c, care, s, xs + ys, w)
    decreases |xs|
  {
    if xs == [] {
      assert xs + ys == ys;
    } else {
      assert (xs + ys)[1..] == xs[1..] + ys;
      RunsJoin(c, care, Apply(c, s, xs[0]), xs[1..], t, ys, w);
    }
  }

  lemma RunsThree(c: Config, care: Care, s: State, a1: Step, s1: State, a2: Step, s2: State, a3: Step, s3: State)
    requires Enabled(c, s, a1) && Respects(c, care, s, a1) && Apply(c, s, a1) == s1
    requires Enabled(c, s1, a2) && Respects(c, care, s1, a2) && Apply(c, s1, a2) == s2
    requires Enabled(c, s2, a3) && Respects(c, care, s2, a3) && Apply(c, s2, a3) == s3
    ensures Runs(c, care, s, [a1, a2, a3], s3)
  {
    assert [a1, a2, a3][1..] == [a2, a3] && [a2, a3][1..] == [a3];
    OneStepRun(c, care, s2, a3);
  }

  lemma RunsTwo(c: Config, care: Care, s: State, a1: Step, s1: State, a2: Step, s2: State)
    requires Enabled(c, s, a1) && Respects(c, care, s, a1) && Apply(c, s, a1) == s1
    requires Enabled(c, s1, a2) && Respects(c, care, s1, a2) && Apply(c, s1, a2) == s2
    ensures Runs(c, care, s, [a1, a2], s2)
  {
    assert [a1, a2][1..] == [a2];
    OneStepRun(c, care, s1, a2);
  }

  // ---------------------------------------------------------------- an upload that goes on to commit

  /** What an upload leaves alone. */
  ghost predicate SameWorld(s: State, t: State) {
    && t.now == s.now && t.quotas == s.quotas && t.lock == s.lock && t.recs == s.recs && t.minted == s.minted
  }

  /** No transaction holds the counter row of `t`, and a further `size` bytes fit its quota. */
  ghost predicate Roomy(s: State, t: Uuid, size: nat) {
    && !s.lock.Restoring?
    && (forall v | v in s.uploads && s.uploads[v].phase.Checked? :: s.uploads[v].claims.tenant != t)
    && (Quota(s, t) <= 0 || Used(s, t) + size <= Quota(s, t))
  }

  /** The row of `u` is in, on the key that `u` had. */
  ghost predicate Committed(s: State, t: State, u: nat)
    requires u in s.uploads && Chosen(s.uploads[u].phase)
  {
    var x := s.uploads[u];
    && SameWorld(s, t) && t.blobs == s.blobs && t.ids == s.ids && t.uploads == s.uploads - {u}
    && t.files == s.files[x.phase.st.id := RowFor(x.claims, x.phase.st, x.phase.key)]
    && (forall n | n in s.grants && n != x.claims.nonce :: n in t.grants && t.grants[n] == s.grants[n])
    && x.phase.st.id in t.origin && t.origin == s.origin[x.phase.st.id := t.origin[x.phase.st.id]]
    && t.origin[x.phase.st.id].committed == s.now
  }

  lemma CommitIsCommitted(s: State, u: nat)
    requires u in s.uploads && InTx(s.uploads[u].phase) && s.uploads[u].claims.nonce in s.grants
    ensures Committed(s, CommitApply(s, u), u)
  {
  }

  lemma CheckIs(c: Config, s: State, u: nat, w: State)
    requires u in s.uploads && s.uploads[u].phase.Consumed? && s.uploads[u].claims.nonce in s.grants
    requires Roomy(s, s.uploads[u].claims.tenant, s.uploads[u].phase.st.size) &&
               Quota(s, s.uploads[u].claims.tenant) > 0
    requires var x := s.uploads[u];
             w == WithPhase(s, u, Checked(x.phase.st, x.phase.key, x.phase.wroteNew, x.phase.started,
                 Used(s, x.claims.tenant)))
    ensures Enabled(c, s, Up(u, CheckQuota)) && Apply(c, s, Up(u, CheckQuota)) == w && Enabled(c, w, Up(u, Commit))
  {
  }

  lemma CommitConsumed(c: Config, care: Care, s: State, u: nat) returns (steps: seq<Step>, t: State)
    requires u in s.uploads && s.uploads[u].phase.Consumed? && s.uploads[u].claims.nonce in s.grants
    requires Roomy(s, s.uploads[u].claims.tenant, s.uploads[u].phase.st.size)
    ensures Runs(c, care, s, steps, t) && Committed(s, t, u)
  {
    var x := s.uploads[u];
    if Quota(s, x.claims.tenant) <= 0 {
      steps, t := [Up(u, Commit)], CommitApply(s, u);
      OneStepRun(c, care, s, Up(u, Commit));
      CommitIsCommitted(s, u);
    } else {
      steps, t := CommitChecked(c, care, s, u);
    }
  }

  lemma CommitChecked(c: Config, care: Care, s: State, u: nat) returns (steps: seq<Step>, t: State)
    requires u in s.uploads && s.uploads[u].phase.Consumed? && s.uploads[u].claims.nonce in s.grants
    requires Roomy(s, s.uploads[u].claims.tenant, s.uploads[u].phase.st.size) &&
               Quota(s, s.uploads[u].claims.tenant) > 0
    ensures Runs(c, care, s, steps, t) && Committed(s, t, u)
  {
    var x := s.uploads[u];
    var p := Checked(x.phase.st, x.phase.key, x.phase.wroteNew, x.phase.started, Used(s, x.claims.tenant));
    var w := WithPhase(s, u, p);
    CheckIs(c, s, u, w);
    steps, t := [Up(u, CheckQuota), Up(u, Commit)], CommitApply(w, u);
    RunsTwo(c, care, s, Up(u, CheckQuota), w, Up(u, Commit), t);
    CommitIsCommitted(w, u);
    CommittedFromPhase(s, w, t, u, p);
  }

  lemma CommittedFromPhase(s: State, w: State, t: State, u: nat, p: Phase)
    requires u in s.uploads && Chosen(s.uploads[u].phase) && Chosen(p) && w == WithPhase(s, u, p)
    requires p.st == s.uploads[u].phase.st && p.key == s.uploads[u].phase.key && Committed(w, t, u)
    ensures Committed(s, t, u)
  {
    assert w.uploads - {u} == s.uploads - {u};
  }

  lemma FinishOpened(c: Config, care: Care, s: State, u: nat) returns (steps: seq<Step>, t: State)
    requires u in s.uploads && s.uploads[u].phase.Opened?
    requires ConsumeEnabled(s, s.uploads[u].claims, s.uploads[u].phase.started)
    requires Roomy(s, s.uploads[u].claims.tenant, s.uploads[u].phase.st.size)
    ensures Runs(c, care, s, steps, t) && Committed(s, t, u)
  {
    var p := s.uploads[u].phase;
    var s1 := WithPhase(s, u, Phase.Consumed(p.st, p.key, p.wroteNew, p.started));
    OneStepRun(c, care, s, Up(u, Consume));
    var rest;
    rest, t := CommitConsumed(c, care, s1, u);
    RunsJoin(c, care, s, [Up(u, Consume)], s1, rest, t);
    steps := [Up(u, Consume)] + rest;
    CommittedFromPhase(s, s1, t, u, s1.uploads[u].phase);
  }

  lemma FinishReady(c: Config, care: Care, s: State, u: nat) returns (steps: seq<Step>, t: State)
    requires u in s.uploads && s.uploads[u].phase.Ready? && ConsumeEnabled(s, s.uploads[u].claims, s.now)
    requires Roomy(s, s.uploads[u].claims.tenant, s.uploads[u].phase.st.size)
    ensures Runs(c, care, s, steps, t) && Committed(s, t, u)
  {
    var p := s.uploads[u].phase;
    var s1 := WithPhase(s, u, Opened(p.st, p.key, p.wroteNew, s.now));
    OneStepRun(c, care, s, Up(u, Open));
    StillConsumable(s, u, Opened(p.st, p.key, p.wroteNew, s.now), s.now);
    var rest;
    rest, t := FinishOpened(c, care, s1, u);
    RunsJoin(c, care, s, [Up(u, Open)], s1, rest, t);
    steps := [Up(u, Open)] + rest;
    CommittedFromPhase(s, s1, t, u, s1.uploads[u].phase);
  }

  lemma StillConsumable(s: State, u: nat, p: Phase, started: int)
    requires u in s.uploads && !InTx(p) && ConsumeEnabled(s, s.uploads[u].claims, started)
    ensures ConsumeEnabled(WithPhase(s, u, p), s.uploads[u].claims, started)
  {
  }

  // ---------------------------------------------------------------- a sweep counts an adopted key

  /** An upload that will find its duplicate `f`, the only live row on its key, and can still commit. */
  ghost predicate AboutToAdopt(s: State, u: nat, f: IdHex) {
    && u in s.uploads && s.uploads[u].phase.Streamed?
    && f in s.files && Duplicate(s.files[f], s.uploads[u].claims.tenant, s.uploads[u].phase.st.checksum)
    && s.files[f].key != s.uploads[u].phase.st.key
    && NoLive(s.files - {f}, s.files[f].key)
    && ConsumeEnabled(s, s.uploads[u].claims, s.now)
    && (forall v | v in s.uploads && s.uploads[v].phase.Checked? ::
          s.uploads[v].claims.tenant != s.uploads[u].claims.tenant)
  }

  /**
   * A sweep with this cutoff takes up the key of `f`: because of `f` itself, committed before the
   * cutoff and deleted in between, or because of an older sibling.
   */
  ghost predicate Candidate(s: State, f: IdHex, g: IdHex, cutoff: int) {
    && cutoff <= s.now && f in s.files && g in s.files && s.files[g].key == s.files[f].key
    && (if g == f then f in s.origin && s.origin[f].committed < cutoff else Expired(s.files[g], cutoff))
  }

  /** Whoever holds the advisory lock can give up. */
  lemma FreeTheLock(c: Config, care: Care, s: State) returns (steps: seq<Step>)
    ensures Runs(c, care, s, steps, s.(lock := Free))
  {
    if s.lock.Free? {
      steps := [];
    } else {
      var a := if s.lock.Sweeping? then Gc(GcAbort) else Row(RestoreAbort);
      steps := [a];
      OneStepRun(c, care, s, a);
    }
  }

  lemma DuplicateHasItsSize(s: State, u: nat, f: IdHex)
    requires Base(s) && AboutToAdopt(s, u, f)
    ensures s.files[f].size == s.uploads[u].phase.st.size && s.files[f].tenant == s.uploads[u].claims.tenant
    ensures Live(s.files[f])
  {
    assert RowOk(f, s.files[f], s.written, s.ids);
    assert PhaseOk(s.uploads[u].claims.tenant, s.uploads[u].phase, s.written, s.ids);
  }

  lemma FitsAgain(s: State, d: State, f: IdHex)
    requires Accounts(s) && f in s.files && Live(s.files[f]) && d.quotas == s.quotas
    requires d.counters == DropUsage(s.counters, s.files[f].tenant, s.files[f].size)
    ensures var t := s.files[f].tenant; Quota(d, t) <= 0 || Used(d, t) + s.files[f].size <= Quota(d, t)
  {
    assert s.files[f].tenant in s.counters;
    DeleteIsCovered(s.counters, s.files, s.events, f);
  }

  /** The duplicate has the size of the upload, so its delete makes room for it. */
  lemma DeleteMakesRoom(s: State, u: nat, f: IdHex, d: State)
    requires Base(s) && Accounts(s) && AboutToAdopt(s, u, f)
    requires d.counters == DropUsage(s.counters, s.files[f].tenant, s.files[f].size) && d.quotas == s.quotas
    requires d.uploads == s.uploads[u := s.uploads[u].(phase := Adopting(s.uploads[u].phase.st, s.files[f].key))]
    requires !d.lock.Restoring?
    ensures Roomy(d, s.uploads[u].claims.tenant, s.uploads[u].phase.st.size)
  {
    DuplicateHasItsSize(s, u, f);
    FitsAgain(s, d, f);
  }

  /** The state in which the duplicate is found and then deleted. */
  ghost function FoundThenDeleted(s: State, u: nat, f: IdHex, started: int): State
    requires AboutToAdopt(s, u, f)
  {
    var r := s.files[f];
    s.(uploads := s.uploads[u := s.uploads[u].(phase := Adopting(s.uploads[u].phase.st, r.key))],
       files := s.files[f := r.(deletedAt := Some(started))],
       counters := DropUsage(s.counters, r.tenant, r.size),
       events := s.events + [Event(r.tenant, Delete, r.size)])
  }

  lemma LookupThenDelete(c: Config, care: Care, s: State, u: nat, f: IdHex, started: int) returns (steps: seq<Step>)
    requires AboutToAdopt(s, u, f) && s.lock.Free?
    requires f in s.origin && s.origin[f].committed <= started <= s.now
    ensures Runs(c, care, s, steps, FoundThenDeleted(s, u, f, started))
  {
    var a1, a2 := Up(u, Lookup(Some(f))), Row(DeleteFile(f, started));
    var s1 := WithPhase(s, u, Adopting(s.uploads[u].phase.st, s.files[f].key));
    RunsTwo(c, care, s, a1, s1, a2, FoundThenDeleted(s, u, f, started));
    steps := [a1, a2];
  }

  /** Sweep up to and including the delete of the blob `k`, when only tombstones hold it. */
  lemma SweepBlob(c: Config, care: Care, s: State, g: IdHex, k: Key, cutoff: int) returns (steps: seq<Step>, t: State)
    requires g in s.files && s.files[g].key == k && Expired(s.files[g], cutoff) && cutoff <= s.now
    requires s.lock.Free? && NoLive(s.files, k) && !care.count
    ensures Runs(c, care, s, steps, t) && t.lock.Sweeping? && t == s.(lock := t.lock, blobs := s.blobs - {k})
  {
    var w := Sweep(cutoff, Candidates(s.files, None, cutoff), {}, Idle);
    assert k in w.todo;
    var s1 := s.(lock := Sweeping(w));
    var s2 := s.(lock := Sweeping(w.(phase := Deleting(k))));
    t := s.(lock := Sweeping(w.(phase := Purging(k))), blobs := s.blobs - {k});
    RunsThree(c, care, s, Gc(GcStart(None, cutoff)), s1, Gc(GcCount(k)), s2, Gc(GcDelete), t);
    steps := [Gc(GcStart(None, cutoff)), Gc(GcCount(k)), Gc(GcDelete)];
  }

  /** The upload, unaware, goes on to commit. */
  lemma CommitAnyway(c: Config, care: Care, s: State, u: nat) returns (steps: seq<Step>, t: State)
    requires u in s.uploads && s.uploads[u].phase.Adopting? && s.uploads[u].phase.key !in s.blobs
    requires ConsumeEnabled(s, s.uploads[u].claims, s.now)
    requires Roomy(s, s.uploads[u].claims.tenant, s.uploads[u].phase.st.size)
    ensures Runs(c, care, s, steps, t) && !Readable(t)
  {
    var p := s.uploads[u].phase;
    var q := Ready(p.st, p.key, false);
    var s1 := WithPhase(s, u, q).(blobs := s.blobs - {p.st.key});
    OneStepRun(c, care, s, Up(u, DropOwn(true)));
    StillConsumable(s, u, q, s.now);
    var rest;
    rest, t := FinishReady(c, care, s1, u);
    RunsJoin(c, care, s, [Up(u, DropOwn(true))], s1, rest, t);
    steps := [Up(u, DropOwn(true))] + rest;
    assert t.files[p.st.id].key == p.key && Live(t.files[p.st.id]) && p.key !in t.blobs;
  }

  lemma NowDead(s: State, u: nat, f: IdHex, started: int)
    requires AboutToAdopt(s, u, f)
    ensures NoLive(FoundThenDeleted(s, u, f, started).files, s.files[f].key)
  {
    var d := FoundThenDeleted(s, u, f, started);
    forall x | x in d.files && Live(d.files[x])
      ensures d.files[x].key != s.files[f].key
    {
      assert x in s.files - {f} && d.files[x] == s.files[x];
    }
  }

  lemma StillAdopts(s: State, u: nat, f: IdHex, started: int, w: State)
    requires AboutToAdopt(s, u, f)
    requires var d := FoundThenDeleted(s, u, f, started);
             w.uploads == d.uploads && w.grants == d.grants && w.now == s.now
    ensures u in w.uploads && w.uploads[u].phase == Adopting(s.uploads[u].phase.st, s.files[f].key)
    ensures w.uploads[u].claims == s.uploads[u].claims && ConsumeEnabled(w, w.uploads[u].claims, w.now)
  {
    StillConsumable(s, u, Adopting(s.uploads[u].phase.st, s.files[f].key), s.now);
  }

  lemma DeletedIsCandidate(s: State, u: nat, f: IdHex, g: IdHex, cutoff: int, started: int)
    requires AboutToAdopt(s, u, f) && Candidate(s, f, g, cutoff) && (g == f ==> started < cutoff)
    ensures var d := FoundThenDeleted(s, u, f, started);
            g in d.files && d.files[g].key == s.files[f].key && Expired(d.files[g], cutoff)
  {
  }

  lemma LoseWhenFree(c: Config, care: Care, s: State, u: nat, f: IdHex, g: IdHex, cutoff: int)
    returns (steps: seq<Step>, t: State)
    requires Base(s) && Accounts(s) && Dated(s) && AboutToAdopt(s, u, f) && Candidate(s, f, g, cutoff)
    requires s.lock.Free? && !care.count
    ensures Runs(c, care, s, steps, t) && !Readable(t)
  {
    var started := if g == f then cutoff - 1 else s.now;
    var d := FoundThenDeleted(s, u, f, started);
    var xs := LookupThenDelete(c, care, s, u, f, started);
    NowDead(s, u, f, started);
    DeletedIsCandidate(s, u, f, g, cutoff, started);
    var ys, w := SweepBlob(c, care, d, g, s.files[f].key, cutoff);
    DeleteMakesRoom(s, u, f, w);
    StillAdopts(s, u, f, started, w);
    var zs;
    zs, t := CommitAnyway(c, care, w, u);
    RunsJoin(c, care, s, xs, d, ys, w);
    RunsJoin(c, care, s, xs + ys, w, zs, t);
    steps := xs + ys + zs;
  }

  /**
   * Reclamation is not race-free: from every state in which an upload is about to adopt the only
   * live row on a key, can consume its grant, and finds no other upload holding its tenant's counter,
   * some run leaves its row live and unreadable. A retention window does not help once a sibling on
   * the key is past it.
   */
  lemma AdoptionCanLoseTheBlob(c: Config, care: Care, s: State, u: nat, f: IdHex, g: IdHex, cutoff: int)
    returns (steps: seq<Step>, t: State)
    requires Base(s) && Accounts(s) && Dated(s) && AboutToAdopt(s, u, f) && Candidate(s, f, g, cutoff) && !care.count
    ensures Runs(c, care, s, steps, t) && !Readable(t)
  {
    var xs := FreeTheLock(c, care, s);
    var w := s.(lock := Free);
    assert Base(w) && Dated(w);
    AccountsUnlocked(s);
    var ys;
    ys, t := LoseWhenFree(c, care, w, u, f, g, cutoff);
    RunsJoin(c, care, s, xs, w, ys, t);
    steps := xs + ys;
  }

  lemma AccountsUnlocked(s: State)
    requires Accounts(s)
    ensures Accounts(s.(lock := Free))
  {
  }

  // ---------------------------------------------------------------- from an empty server

  ghost function Empty(): State {
    State(0, map[], map[], [], map[], map[], map[], map[], Free, map[], map[], {}, map[], map[])
  }

  /** One tenant without quota, and nothing going on. */
  ghost predicate Quiescent(s: State, t: Uuid) {
    && s.quotas == map[t := 0] && s.lock.Free? && s.uploads == map[] && s.recs == map[]
  }

  /** The grant `n` for `t` under policy `p` is there and unused until after `now`. */
  ghost predicate Granted(s: State, n: Nonce, t: Uuid, p: Policy) {
    && n in s.minted && s.minted[n].tenant == t && s.minted[n].nonce == n && s.minted[n].category == p.category
    && s.minted[n].max == p.maxSize && s.minted[n].types == p.types
    && s.minted[n].exp > s.now
    && n in s.grants && s.grants[n] == GrantRow(t, s.minted[n].exp, None)
  }

  /** One byte of this type may be uploaded under the policy. */
  predicate Permits(c: Config, p: Policy, contentType: string) {
    && c.maxUpload >= 1 && p.maxSize >= 1 && '/' !in p.category
    && ContentTypes.MasterAllowed(c.allowed, contentType) && ContentTypes.PolicyAllowed(p.types, contentType)
  }

  lemma OpenTenant(c: Config, care: Care, t: Uuid) returns (s: State)
    ensures Runs(c, care, Empty(), [Env(CreateTenant(t, 0))], s)
    ensures Quiescent(s, t) && s.files == map[] && s.blobs == map[] && s.minted == map[] && s.ids == {} && s.now == 0
  {
    s := Apply(c, Empty(), Env(CreateTenant(t, 0)));
    OneStepRun(c, care, Empty(), Env(CreateTenant(t, 0)));
  }

  lemma MintOne(c: Config, care: Care, s: State, n: Nonce, t: Uuid, p: Policy) returns (w: State)
    requires t in s.quotas && n !in s.minted && '/' !in p.category
    ensures Runs(c, care, s, [Env(Mint(n, t, p, GRANT_MAX_TTL))], w)
    ensures Granted(w, n, t, p) && w == s.(minted := w.minted, grants := w.grants)
    ensures w.minted[n].exp == s.now + GRANT_MAX_TTL
    ensures forall m | m != n :: m in w.minted <==> m in s.minted
    ensures forall m, q | m != n && Granted(s, m, t, q) :: Granted(w, m, t, q)
  {
    w := Apply(c, s, Env(Mint(n, t, p, GRANT_MAX_TTL)));
    OneStepRun(c, care, s, Env(Mint(n, t, p, GRANT_MAX_TTL)));
  }

  /** The key and the staged blob of a one-byte upload. */
  ghost function ByteKey(t: Uuid, p: Policy, id: IdHex): Key {
    Original(StoredPath(t, p.category, 2024, 1, id, "bin"))
  }

  ghost function ByteStaged(t: Uuid, p: Policy, id: IdHex, contentType: string, at: int): Staged {
    Staged(id, ByteKey(t, p, id), contentType, 1, Sha256([0]), at)
  }

  lemma KeysDiffer(t: Uuid, p: Policy, a: IdHex, b: IdHex)
    requires '/' !in p.category && a != b
    ensures ByteKey(t, p, a) != ByteKey(t, p, b)
  {
    StoredPathReadsBack(t, p.category, 2024, 1, a, "bin");
    StoredPathReadsBack(t, p.category, 2024, 1, b, "bin");
  }

  /** Stream one byte under grant `n`. */
  lemma StreamOne(c: Config, care: Care, s: State, u: nat, n: Nonce, t: Uuid, p: Policy, id: IdHex, contentType: string)
    returns (steps: seq<Step>, w: State)
    requires u !in s.uploads && Granted(s, n, t, p) && id !in s.ids && Permits(c, p, contentType) && c.settle > 0
    ensures Runs(c, care, s, steps, w)
    ensures w == s.(uploads := s.uploads[u := InFlight(s.minted[n],
              Streamed(ByteStaged(t, p, id, contentType, s.now)))],
                    blobs := s.blobs[ByteKey(t, p, id) := Blob([0], s.now)],
                    written := s.written[ByteKey(t, p, id) := Blob([0], s.now)],
                    ids := s.ids + {id})
  {
    var a1, a2 := Up(u, Receive(n)), Up(u, Stage(id, [0], s.now, contentType, 2024, 1, "bin"));
    var s1 := s.(uploads := s.uploads[u := InFlight(s.minted[n], Received)]);
    w := s.(uploads := s.uploads[u := InFlight(s.minted[n], Streamed(ByteStaged(t, p, id, contentType, s.now)))],
            blobs := s.blobs[ByteKey(t, p, id) := Blob([0], s.now)],
            written := s.written[ByteKey(t, p, id) := Blob([0], s.now)],
            ids := s.ids + {id});
    StageIs(c, s1, u, a2.up, w);
    RunsTwo(c, care, s, a1, s1, a2, w);
    steps := [a1, a2];
  }

  lemma StageIs(c: Config, s: State, u: nat, a: UploadStep, w: State)
    requires a.Stage? && u in s.uploads && s.uploads[u].phase.Received? && StageEnabled(c, s, s.uploads[u].claims, a)
    requires var st := StagedBy(s.uploads[u].claims, a);
             w == s.(uploads := s.uploads[u := InFlight(s.uploads[u].claims, Streamed(st))],
                     blobs := s.blobs[st.key := Blob(a.bytes, a.modified)],
                     written := s.written[st.key := Blob(a.bytes, a.modified)],
                     ids := s.ids + {a.id})
    ensures Enabled(c, s, Up(u, a)) && Apply(c, s, Up(u, a)) == w
  {
  }

  /** Without a duplicate an upload keeps its own key. */
  ghost function FoundNothing(s: State, u: nat): State
    requires u in s.uploads && s.uploads[u].phase.Streamed?
  {
    WithPhase(s, u, Ready(s.uploads[u].phase.st, s.uploads[u].phase.st.key, true))
  }

  lemma LookupFresh(c: Config, care: Care, s: State, u: nat)
    requires u in s.uploads && s.uploads[u].phase.Streamed? && s.files == map[]
    ensures Runs(c, care, s, [Up(u, Lookup(None))], FoundNothing(s, u))
  {
    OneStepRun(c, care, s, Up(u, Lookup(None)));
  }

  /** With one it takes that row's key and drops its own blob. */
  ghost function FoundHit(s: State, u: nat, f: IdHex): State
    requires u in s.uploads && s.uploads[u].phase.Streamed? && f in s.files
  {
    var st := s.uploads[u].phase.st;
    WithPhase(s, u, Ready(st, s.files[f].key, false)).(blobs := s.blobs - {st.key})
  }

  lemma LookupHit(c: Config, care: Care, s: State, u: nat, f: IdHex)
    requires u in s.uploads && s.uploads[u].phase.Streamed?
    requires f in s.files && Duplicate(s.files[f], s.uploads[u].claims.tenant, s.uploads[u].phase.st.checksum)
    requires s.files[f].key != s.uploads[u].phase.st.key
    ensures Runs(c, care, s, [Up(u, Lookup(Some(f))), Up(u, DropOwn(true))], FoundHit(s, u, f))
  {
    var s1 := WithPhase(s, u, Adopting(s.uploads[u].phase.st, s.files[f].key));
    RunsTwo(c, care, s, Up(u, Lookup(Some(f))), s1, Up(u, DropOwn(true)), FoundHit(s, u, f));
  }

  /** What a whole upload of one byte leaves. */
  ghost predicate Uploaded(s: State, w: State, t: Uuid, n: Nonce, id: IdHex, key: Key) {
    && SameWorld(s, w) && w.uploads == s.uploads && w.ids == s.ids + {id} && n in s.minted
    && id in w.files && w.files == s.files[id := w.files[id]]
    && w.files[id].key == key && Duplicate(w.files[id], t, Sha256([0]))
    && key in w.blobs && (key in s.blobs ==> w.blobs[key] == s.blobs[key])
    && (key !in s.blobs ==> w.blobs[key].modified == s.now)
    && (forall m | m in s.grants && m != n :: m in w.grants && w.grants[m] == s.grants[m])
    && id in w.origin && w.origin == s.origin[id := w.origin[id]] && w.origin[id].committed == s.now
  }

  lemma CommittedIsUploaded(s: State, s1: State, w: State, t: Uuid, n: Nonce, id: IdHex, key: Key)
    requires n in s.minted && s.minted[n].tenant == t && s.minted[n].nonce == n && s.uploads == map[]
    requires 0 in s1.uploads && s1.uploads == map[0 := s1.uploads[0]] && Chosen(s1.uploads[0].phase)
    requires Committed(s1, w, 0) && SameWorld(s, s1) && s1.files == s.files && s1.grants == s.grants
    requires s1.origin == s.origin
    requires s1.uploads[0].claims == s.minted[n] && s1.uploads[0].phase.key == key && s1.ids == s.ids + {id}
    requires s1.uploads[0].phase.st.id == id && s1.uploads[0].phase.st.checksum == Sha256([0])
    requires key in s1.blobs && (key in s.blobs ==> s1.blobs[key] == s.blobs[key])
    requires key !in s.blobs ==> s1.blobs[key].modified == s.now
    ensures Uploaded(s, w, t, n, id, key)
  {
    assert s1.uploads - {0} == map[];
  }

  /** One byte, from its grant to its row, when nothing was uploaded before. */
  lemma UploadFresh(c: Config, care: Care, s: State, n: Nonce, t: Uuid, p: Policy, id: IdHex, contentType: string)
    returns (steps: seq<Step>, w: State)
    requires Quiescent(s, t) && Granted(s, n, t, p) && id !in s.ids && Permits(c, p, contentType) && c.settle > 0
    requires s.files == map[] && ByteKey(t, p, id) !in s.blobs
    ensures Runs(c, care, s, steps, w) && Uploaded(s, w, t, n, id, ByteKey(t, p, id))
  {
    var xs, s1 := StreamOne(c, care, s, 0, n, t, p, id, contentType);
    var s2 := FoundNothing(s1, 0);
    LookupFresh(c, care, s1, 0);
    ReadyToFinish(s, s2, n, t, p);
    var zs;
    zs, w := FinishReady(c, care, s2, 0);
    RunsJoin(c, care, s, xs, s1, [Up(0, Lookup(None))], s2);
    RunsJoin(c, care, s, xs + [Up(0, Lookup(None))], s2, zs, w);
    steps := xs + [Up(0, Lookup(None))] + zs;
    CommittedIsUploaded(s, s2, w, t, n, id, ByteKey(t, p, id));
  }

  /** A streamed byte whose upload took the key of `f`. */
  ghost predicate Again(s: State, w: State, n: Nonce, t: Uuid, p: Policy, id: IdHex, contentType: string, key: Key)
    requires n in s.minted
  {
    && SameWorld(s, w) && w.files == s.files && w.grants == s.grants && w.origin == s.origin && w.ids == s.ids + {id}
    && w.uploads == map[0 := InFlight(s.minted[n], Ready(ByteStaged(t, p, id, contentType, s.now), key, false))]
    && (key in s.blobs ==> key in w.blobs && w.blobs[key] == s.blobs[key])
  }

  lemma HitIsAgain(s: State, s1: State, n: Nonce, t: Uuid, p: Policy, id: IdHex, contentType: string, f: IdHex)
    requires n in s.minted && s.uploads == map[] && f in s.files && s.files[f].key != ByteKey(t, p, id)
    requires s1 == s.(uploads := s1.uploads, blobs := s.blobs[ByteKey(t, p, id) := Blob([0], s.now)],
                      written := s1.written, ids := s.ids + {id})
    requires s1.uploads == map[0 := InFlight(s.minted[n], Streamed(ByteStaged(t, p, id, contentType, s.now)))]
    ensures Again(s, FoundHit(s1, 0, f), n, t, p, id, contentType, s.files[f].key)
  {
  }

  lemma AdoptAgain(c: Config, care: Care, s: State, n: Nonce, t: Uuid, p: Policy, id: IdHex, contentType: string,
                   f: IdHex)
    returns (steps: seq<Step>, w: State)
    requires Granted(s, n, t, p) && id !in s.ids && Permits(c, p, contentType) && c.settle > 0 && s.uploads == map[]
    requires f in s.files && Duplicate(s.files[f], t, Sha256([0])) && s.files[f].key != ByteKey(t, p, id)
    ensures Runs(c, care, s, steps, w) && Again(s, w, n, t, p, id, contentType, s.files[f].key)
  {
    var xs, s1 := StreamOne(c, care, s, 0, n, t, p, id, contentType);
    LookupHit(c, care, s1, 0, f);
    w := FoundHit(s1, 0, f);
    var ys := [Up(0, Lookup(Some(f))), Up(0, DropOwn(true))];
    RunsJoin(c, care, s, xs, s1, ys, w);
    steps := xs + ys;
    HitIsAgain(s, s1, n, t, p, id, contentType, f);
  }

  /** The same byte again: the upload adopts the key of `f`. */
  lemma UploadAgain(c: Config, care: Care, s: State, n: Nonce, t: Uuid, p: Policy, id: IdHex, contentType: string,
                    f: IdHex)
    returns (steps: seq<Step>, w: State)
    requires Quiescent(s, t) && Granted(s, n, t, p) && id !in s.ids && Permits(c, p, contentType) && c.settle > 0
    requires f in s.files && Duplicate(s.files[f], t, Sha256([0]))
    requires s.files[f].key != ByteKey(t, p, id) && s.files[f].key in s.blobs
    ensures Runs(c, care, s, steps, w) && Uploaded(s, w, t, n, id, s.files[f].key)
  {
    var xs, s1 := AdoptAgain(c, care, s, n, t, p, id, contentType, f);
    ReadyToFinish(s, s1, n, t, p);
    var ys;
    ys, w := FinishReady(c, care, s1, 0);
    RunsJoin(c, care, s, xs, s1, ys, w);
    steps := xs + ys;
    CommittedIsUploaded(s, s1, w, t, n, id, s.files[f].key);
  }

  lemma GrantedIsConsumable(s: State, n: Nonce, t: Uuid, p: Policy, w: State)
    requires Granted(s, n, t, p) && w.now == s.now && w.grants == s.grants
    requires 0 in w.uploads && w.uploads == map[0 := w.uploads[0]] && !InTx(w.uploads[0].phase)
    ensures ConsumeEnabled(w, s.minted[n], w.now)
  {
  }

  lemma ReadyToFinish(s: State, w: State, n: Nonce, t: Uuid, p: Policy)
    requires Quiescent(s, t) && Granted(s, n, t, p)
    requires w.now == s.now && w.grants == s.grants && w.quotas == s.quotas && w.lock == s.lock
    requires 0 in w.uploads && w.uploads == map[0 := w.uploads[0]] && w.uploads[0].claims == s.minted[n]
    requires !InTx(w.uploads[0].phase)
    ensures ConsumeEnabled(w, w.uploads[0].claims, w.now)
    ensures forall size: nat :: Roomy(w, w.uploads[0].claims.tenant, size)
  {
  }
}
