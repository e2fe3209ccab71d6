/**
 * The collector of the lifecycle machine and the one that runs on its own are the same: a sweep that
 * nothing interrupts ends exactly where `Gc` says. And what `Gc` needs to know about keys to keep a
 * sweep inside its tenant holds in every reachable state.
 */
module LifecycleSweep {
  import opened Basics
  import opened Keys
  import opened Lifecycle
  import opened LifecycleTheorems
  import Gc
  import Variants

  // ---------------------------------------------------------------- one sweep, uninterrupted

  /** The steps of one sweep after its start, with none in between and no rollback. */
  ghost predicate SweepOnly(steps: seq<Step>) {
    forall a | a in steps :: a.Gc? && !a.gc.GcStart? && !a.gc.GcAbort?
  }

  /** Keys whose blob was looked at already. */
  ghost function Counted(ks: set<Key>, w: Sweep): set<Key> {
    (ks - w.todo) + if w.phase.Purging? then {w.phase.key} else {}
  }

  /** Where the sweep begun in `s` over the keys `ks` stands. */
  ghost predicate Standing(s: State, ks: set<Key>, cutoff: int, w: Sweep, t: State) {
    && t == s.(lock := Sweeping(w), blobs := s.blobs - Gc.Unreferenced(s.files, Counted(ks, w)))
    && w.cutoff == cutoff && w.todo <= ks
    && w.purged == Gc.Doomed(s.files, ks - w.todo, cutoff)
    && (w.phase.Deleting? ==> w.phase.key in w.todo && NoLive(s.files, w.phase.key))
    && (w.phase.Purging? ==> w.phase.key in w.todo)
  }

  lemma StandsAtStart(s: State, tenant: Option<Uuid>, cutoff: int)
    requires s.lock.Free? && cutoff <= s.now
    ensures var ks := Candidates(s.files, tenant, cutoff);
            Standing(s, ks, cutoff, Sweep(cutoff, ks, {}, Idle), GcApply(s, GcStart(tenant, cutoff)))
  {
    var ks := Candidates(s.files, tenant, cutoff);
    var w := Sweep(cutoff, ks, {}, Idle);
    assert Counted(ks, w) == {} && Gc.Unreferenced(s.files, {}) == {} && s.blobs - {} == s.blobs;
    assert ks - ks == {} && Gc.Doomed(s.files, {}, cutoff) == {};
  }

  lemma StandsAfterCount(s: State, ks: set<Key>, cutoff: int, w: Sweep, t: State, a: GcStep)
    requires Standing(s, ks, cutoff, w, t) && GcEnabled(t, a) && a.GcCount?
    ensures var w' := w.(phase := if NoLive(s.files, a.key) then Deleting(a.key) else Purging(a.key));
            Standing(s, ks, cutoff, w', GcApply(t, a))
  {
    var w' := w.(phase := if NoLive(s.files, a.key) then Deleting(a.key) else Purging(a.key));
    assert Gc.Unreferenced(s.files, Counted(ks, w')) == Gc.Unreferenced(s.files, Counted(ks, w));
  }

  lemma StandsAfterDelete(s: State, ks: set<Key>, cutoff: int, w: Sweep, t: State)
    requires Standing(s, ks, cutoff, w, t) && GcEnabled(t, GcDelete)
    ensures Standing(s, ks, cutoff, w.(phase := Purging(w.phase.key)), GcApply(t, GcDelete))
  {
    var k, w' := w.phase.key, w.(phase := Purging(w.phase.key));
    assert Counted(ks, w') == Counted(ks, w) + {k};
    Gc.UnreferencedStep(s.files, Counted(ks, w), k);
    Gc.MinusTwice(s.blobs, Gc.Unreferenced(s.files, Counted(ks, w)), {k});
  }

  lemma StandsAfterPurge(s: State, ks: set<Key>, cutoff: int, w: Sweep, t: State)
    requires Standing(s, ks, cutoff, w, t) && GcEnabled(t, GcPurge)
    ensures var w' := w.(todo := w.todo - {w.phase.key}, phase := Idle,
                         purged := w.purged + PurgeSet(s.files, w.phase.key, cutoff));
            Standing(s, ks, cutoff, w', GcApply(t, GcPurge))
  {
    var k := w.phase.key;
    Gc.MoveOne(ks, w.todo, k);
    Gc.DoomedStep(s.files, ks - w.todo, k, cutoff);
    assert Counted(ks, w) == (ks - w.todo) + {k};
  }

  /** Rows and blobs after a sweep, as `Gc` has it. */
  ghost predicate SweptState(s: State, ks: set<Key>, cutoff: int, t: State) {
    t == s.(files := s.files - Gc.Doomed(s.files, ks, cutoff), blobs := s.blobs - Gc.Unreferenced(s.files, ks))
  }

  lemma SweptAtCommit(s: State, ks: set<Key>, cutoff: int, w: Sweep, t: State)
    requires s.lock.Free? && Standing(s, ks, cutoff, w, t) && GcEnabled(t, GcCommit)
    ensures SweptState(s, ks, cutoff, GcApply(t, GcCommit))
  {
    assert ks - {} == ks && Counted(ks, w) == ks;
  }

  lemma StandsNext(s: State, ks: set<Key>, cutoff: int, w: Sweep, t: State, a: GcStep) returns (w': Sweep)
    requires Standing(s, ks, cutoff, w, t) && GcEnabled(t, a) && !a.GcStart? && !a.GcAbort? && !a.GcCommit?
    ensures Standing(s, ks, cutoff, w', GcApply(t, a))
  {
    if a.GcCount? {
      StandsAfterCount(s, ks, cutoff, w, t, a);
      w' := w.(phase := if NoLive(s.files, a.key) then Deleting(a.key) else Purging(a.key));
    } else if a.GcDelete? {
      StandsAfterDelete(s, ks, cutoff, w, t);
      w' := w.(phase := Purging(w.phase.key));
    } else {
      StandsAfterPurge(s, ks, cutoff, w, t);
      w' := w.(todo := w.todo - {w.phase.key}, phase := Idle,
          purged := w.purged + PurgeSet(s.files, w.phase.key, cutoff));
    }
  }

  lemma HeadIsIn(steps: seq<Step>)
    ensures steps != [] ==> steps[0] in steps
  {
  }

  /** Once the lock is free again nothing of the sweep is left to do. */
  lemma NothingLeft(c: Config, t: State, steps: seq<Step>, u: State)
    requires t.lock.Free? && SweepOnly(steps) && Runs(c, ANY, t, steps, u)
    ensures u == t
  {
    HeadIsIn(steps);
  }

  lemma {:induction false} RunIsSwept(c: Config, s: State, ks: set<Key>, cutoff: int, w: Sweep, t: State,
                                      steps: seq<Step>,
                                      u: State)
    requires s.lock.Free? && Standing(s, ks, cutoff, w, t) && SweepOnly(steps) && Runs(c, ANY, t, steps, u) &&
               u.lock.Free?
    ensures SweptState(s, ks, cutoff, u)
    decreases |steps|
  {
    assert steps != [] && steps[0] in steps && forall a | a in steps[1..] :: a in steps;
    var a, next := steps[0].gc, Apply(c, t, steps[0]);
    if a.GcCommit? {
      SweptAtCommit(s, ks, cutoff, w, t);
      NothingLeft(c, next, steps[1..], u);
    } else {
      var w' := StandsNext(s, ks, cutoff, w, t, a);
      RunIsSwept(c, s, ks, cutoff, w', next, steps[1..], u);
    }
  }

  /**
   * A sweep of the lifecycle machine that runs from start to commit without interruption, over its
   * keys in whatever order, purges the rows and deletes the blobs that the sweep of `Gc` does.
   */
  lemma UninterruptedSweepIsGc(c: Config, s: State, tenant: Option<Uuid>, cutoff: int, steps: seq<Step>, t: State)
    requires s.lock.Free? && cutoff <= s.now && SweepOnly(steps) && t.lock.Free?
    requires Runs(c, ANY, GcApply(s, GcStart(tenant, cutoff)), steps, t)
    ensures var lost := Gc.Unreferenced(s.files, Candidates(s.files, tenant, cutoff));
            && t.blobs == s.blobs - lost
            && exists r :: Gc.Swept(s.files, NONE, tenant, cutoff, {}, t.files, NONE, r, lost)
  {
    var ks := Candidates(s.files, tenant, cutoff);
    StandsAtStart(s, tenant, cutoff);
    RunIsSwept(c, s, ks, cutoff, Sweep(cutoff, ks, {}, Idle), GcApply(s, GcStart(tenant, cutoff)), steps, t);
    var gone, lost := Gc.Doomed(s.files, ks, cutoff), Gc.Unreferenced(s.files, ks);
    NoVariantsOrphaned(s.files, ks, cutoff);
    assert Gc.Swept(s.files, NONE, tenant, cutoff, {}, t.files, NONE, Some(Gc.Report(|lost|, |gone|)), lost);
  }

  const NONE: Gc.VariantRows := map[]

  /**
   * The rows that such a sweep purges when it commits are the tombstones past the cutoff, those of the
   * tenant if one is given; the blobs are those of keys that such a row, and no live row, holds.
   */
  lemma UninterruptedSweepPurges(c: Config, s: State, tenant: Option<Uuid>, cutoff: int, steps: seq<Step>, t: State)
    requires s.lock.Free? && cutoff <= s.now && SweepOnly(steps) && t.lock.Free?
    requires Runs(c, ANY, GcApply(s, GcStart(tenant, cutoff)), steps, t)
    requires forall f, g | f in s.files && g in s.files && s.files[f].key == s.files[g].key ::
               s.files[f].tenant == s.files[g].tenant
    ensures forall f ::
              f in t.files <==>
                f in s.files &&
                !(s.files[f].deletedAt.Some? && s.files[f].deletedAt.value < cutoff &&
                  (tenant.None? || s.files[f].tenant == tenant.value))
    ensures forall f | f in t.files :: t.files[f] == s.files[f]
    ensures forall k | k in s.blobs ::
              k in t.blobs <==>
                || (exists f :: f in s.files && s.files[f].key == k && s.files[f].deletedAt.None?)
                || !exists g ::
                     && g in s.files && s.files[g].key == k
                     && s.files[g].deletedAt.Some? && s.files[g].deletedAt.value < cutoff
                     && (tenant.None? || s.files[g].tenant == tenant.value)
  {
    var ks := Candidates(s.files, tenant, cutoff);
    StandsAtStart(s, tenant, cutoff);
    RunIsSwept(c, s, ks, cutoff, Sweep(cutoff, ks, {}, Idle), GcApply(s, GcStart(tenant, cutoff)), steps, t);
    SweptStateRows(s, tenant, cutoff, t);
    SweptStateBlobs(s, tenant, cutoff, t);
  }

  lemma SweptStateRows(s: State, tenant: Option<Uuid>, cutoff: int, t: State)
    requires SweptState(s, Candidates(s.files, tenant, cutoff), cutoff, t)
    requires forall f, g | f in s.files && g in s.files && s.files[f].key == s.files[g].key ::
               s.files[f].tenant == s.files[g].tenant
    ensures forall f ::
              f in t.files <==>
                f in s.files &&
                !(s.files[f].deletedAt.Some? && s.files[f].deletedAt.value < cutoff &&
                  (tenant.None? || s.files[f].tenant == tenant.value))
  {
    var ks := Candidates(s.files, tenant, cutoff);
    var gone, lost := Gc.Doomed(s.files, ks, cutoff), Gc.Unreferenced(s.files, ks);
    NoVariantsOrphaned(s.files, ks, cutoff);
    Gc.SweptOwnRows(s.files, NONE, tenant, cutoff, {}, t.files, NONE, Some(Gc.Report(|lost|, |gone|)), lost);
  }

  lemma SweptStateBlobs(s: State, tenant: Option<Uuid>, cutoff: int, t: State)
    requires SweptState(s, Candidates(s.files, tenant, cutoff), cutoff, t)
    ensures forall k | k in s.blobs ::
              k in t.blobs <==>
                || (exists f :: f in s.files && s.files[f].key == k && s.files[f].deletedAt.None?)
                || !exists g ::
                     && g in s.files && s.files[g].key == k
                     && s.files[g].deletedAt.Some? && s.files[g].deletedAt.value < cutoff
                     && (tenant.None? || s.files[g].tenant == tenant.value)
  {
    CandidatesAre(s.files, tenant, cutoff);
    forall k | k in s.blobs
      ensures k in t.blobs <==> !(k in Candidates(s.files, tenant, cutoff) && NoLive(s.files, k))
    {
    }
  }

  lemma CandidatesAre(files: map<IdHex, FileRow>, tenant: Option<Uuid>, cutoff: int)
    ensures forall k ::
              k in Candidates(files, tenant, cutoff) <==>
                exists g ::
                  && g in files && files[g].key == k
                  && files[g].deletedAt.Some? && files[g].deletedAt.value < cutoff
                  && (tenant.None? || files[g].tenant == tenant.value)
  {
    forall k
      ensures k in Candidates(files, tenant, cutoff) <==>
                exists g ::
                  && g in files && files[g].key == k
                  && files[g].deletedAt.Some? && files[g].deletedAt.value < cutoff
                  && (tenant.None? || files[g].tenant == tenant.value)
    {
      Gc.CandidateIff(files, tenant, cutoff, k);
    }
  }

  lemma NoVariantsOrphaned(files: map<IdHex, FileRow>, ks: set<Key>, cutoff: int)
    ensures Gc.Reclaimed(files, NONE, ks, cutoff) == Gc.Unreferenced(files, ks)
    ensures NONE - Gc.Cascade(NONE, Gc.Doomed(files, ks, cutoff)) == NONE
  {
    assert Gc.Cascade(NONE, Gc.Doomed(files, ks, cutoff)) == {};
    assert Gc.Orphaned(NONE, Gc.Doomed(files, ks, cutoff)) == {};
  }

  // ---------------------------------------------------------------- one reconciliation, uninterrupted

  /** Steps of the reconciliation `r` up to its end, deleting for real, with none in between. */
  ghost predicate ReconcileOnly(r: nat, steps: seq<Step>) {
    forall a | a in steps :: a.Rec? && a.r == r && !a.rec.RecStart? && !a.rec.RecEnd? && a.rec != RecDelete(true)
  }

  ghost function CheckedAlong(r: nat, steps: seq<Step>): set<Key> {
    if steps == [] then {}
    else (if steps[0].Rec? && steps[0].rec.RecCheck? then {steps[0].rec.key} else {}) + CheckedAlong(r, steps[1..])
  }

  ghost function InHand(rec: Reconcile): set<Key> {
    if rec.phase.Removing? then {rec.phase.key} else {}
  }

  /** Where the reconciliation begun in `s` stands once it has deleted `gone`. */
  ghost predicate Reconciling(s: State, r: nat, rec: Reconcile, gone: set<Key>, t: State) {
    var p := rec.phase;
    && t == s.(recs := s.recs[r := rec], blobs := s.blobs - gone)
    && (p.Listing? || p.Snapped? ==> gone == {})
    && (!p.Listing? ==> p.referenced == ReferencedKeys(s.files))
    && (p.Checking? || p.Removing? ==> p.now == s.now)
    && (forall k | k in gone + InHand(rec) :: OldEnough(rec.entries, k, s.now, rec.grace) && NoRow(s.files, k))
  }

  /** Each step of it, and what the step adds to the keys deleted or about to be. */
  lemma ReconcileStep(s: State, r: nat, rec: Reconcile, gone: set<Key>, t: State, a: RecStep)
    returns (rec': Reconcile, gone': set<Key>)
    requires Reconciling(s, r, rec, gone, t) && RecEnabled(t, r, a)
    requires !a.RecStart? && !a.RecEnd? && a != RecDelete(true)
    ensures Reconciling(s, r, rec', gone', RecApply(t, r, a)) && rec'.grace == rec.grace
    ensures gone + InHand(rec) + (if a.RecCheck? then {a.key} else {}) <= gone' + InHand(rec')
  {
    assert t.recs[r] == rec;
    rec' := RecApply(t, r, a).recs[r];
    gone' := if a.RecDelete? then gone + {rec.phase.key} else gone;
    assert s.recs[r := rec][r := rec'] == s.recs[r := rec'];
    if a.RecDelete? {
      Gc.MinusTwice(s.blobs, gone, {rec.phase.key});
    } else if a.RecList? {
      assert s.blobs - {} == s.blobs;
    }
  }

  lemma {:induction false} RunReconciles(c: Config, s: State, r: nat, rec: Reconcile, gone: set<Key>, t: State,
                                         steps: seq<Step>, u: State)
    returns (rec': Reconcile, gone': set<Key>)
    requires Reconciling(s, r, rec, gone, t) && ReconcileOnly(r, steps) && Runs(c, ANY, t, steps, u)
    ensures Reconciling(s, r, rec', gone', u) && rec'.grace == rec.grace
    ensures gone + InHand(rec) + CheckedAlong(r, steps) <= gone' + InHand(rec')
    decreases |steps|
  {
    if steps == [] {
      rec', gone' := rec, gone;
    } else {
      assert steps[0] in steps && forall a | a in steps[1..] :: a in steps;
      var rec1, gone1 := ReconcileStep(s, r, rec, gone, t, steps[0].rec);
      rec', gone' := RunReconciles(c, s, r, rec1, gone1, Apply(c, t, steps[0]), steps[1..], u);
    }
  }

  /** `es` is the listing that `entries` holds, in some order. */
  ghost predicate Lists(es: seq<Gc.Entry>, entries: map<Key, Option<int>>) {
    && Gc.Distinct(es)
    && (forall e | e in es :: e.key in entries && entries[e.key] == e.modified)
    && (forall k | k in entries :: Gc.Entry(k, entries[k]) in es)
  }

  lemma OrphansOfListing(es: seq<Gc.Entry>, rec: Reconcile, files: map<IdHex, FileRow>, now: int, k: Key)
    requires Lists(es, rec.entries)
    ensures k in Gc.Orphans(es, files, NONE, now, rec.grace) <==>
              OldEnough(rec.entries, k, now, rec.grace) && NoRow(files, k)
  {
    if OldEnough(rec.entries, k, now, rec.grace) && NoRow(files, k) {
      var i :| 0 <= i < |es| && es[i] == Gc.Entry(k, rec.entries[k]);
      assert Gc.IsOrphan(es[i], files, NONE, now, rec.grace);
    }
    if k in Gc.Orphans(es, files, NONE, now, rec.grace) {
      var i :| 0 <= i < |es| && Gc.IsOrphan(es[i], files, NONE, now, rec.grace) && es[i].key == k;
      assert es[i] in es;
    }
  }

  /** What it deleted, once it took up every listed key it could. */
  lemma EndOfReconcile(c: Config, s: State, r: nat, requested: Option<nat>, steps: seq<Step>, t: State)
    returns (rec: Reconcile, gone: set<Key>)
    requires r !in s.recs && ReconcileOnly(r, steps)
    requires Runs(c, ANY, RecApply(s, r, RecStart(requested)), steps, t)
    requires r in t.recs && t.recs[r].phase.Checking?
    requires forall k | RecEnabled(t, r, RecCheck(k)) :: k in CheckedAlong(r, steps)
    ensures rec == t.recs[r] && rec.grace == Grace(requested)
    ensures t.blobs == s.blobs - gone && t.files == s.files
    ensures forall k :: k in gone <==> OldEnough(rec.entries, k, s.now, rec.grace) && NoRow(s.files, k)
  {
    var rec0 := Reconcile(Grace(requested), map[], Listing);
    assert s.blobs - {} == s.blobs;
    rec, gone := RunReconciles(c, s, r, rec0, {}, RecApply(s, r, RecStart(requested)), steps, t);
    assert t.recs[r] == rec;
    forall k | OldEnough(rec.entries, k, s.now, rec.grace) && NoRow(s.files, k)
      ensures k in gone
    {
      assert RecEnabled(t, r, RecCheck(k));
    }
  }

  /**
   * A reconciliation of the lifecycle machine that nothing interrupts, and that took up every listed
   * key it could, deletes exactly the blobs that the one of `Gc` deletes over the same listing.
   */
  lemma UninterruptedReconcileIsGc(c: Config, s: State, r: nat, requested: Option<nat>, steps: seq<Step>, t: State,
                                   es: seq<Gc.Entry>)
    requires r !in s.recs && ReconcileOnly(r, steps)
    requires Runs(c, ANY, RecApply(s, r, RecStart(requested)), steps, t)
    requires r in t.recs && t.recs[r].phase.Checking? && Lists(es, t.recs[r].entries)
    requires forall k | RecEnabled(t, r, RecCheck(k)) :: k in CheckedAlong(r, steps)
    ensures var orphans := Gc.Orphans(es, s.files, NONE, s.now, Grace(requested));
            && t.blobs == s.blobs - orphans && t.files == s.files
            && exists report :: Gc.Reconciled(orphans, false, {}, report, orphans)
  {
    var rec, gone := EndOfReconcile(c, s, r, requested, steps, t);
    var orphans := Gc.Orphans(es, s.files, NONE, s.now, Grace(requested));
    forall k
      ensures k in gone <==> k in orphans
    {
      OrphansOfListing(es, rec, s.files, s.now, k);
    }
    assert gone == orphans;
    assert Gc.Reconciled(orphans, false, {}, Some(Gc.ReconcileReport(|orphans|, |orphans|, false)), orphans);
  }

  /** Those are the listed blobs of known age, at least the grace old, that no row refers to. */
  lemma UninterruptedReconcileTakes(c: Config, s: State, r: nat, requested: Option<nat>, steps: seq<Step>, t: State,
                                    k: Key)
    requires r !in s.recs && ReconcileOnly(r, steps)
    requires Runs(c, ANY, RecApply(s, r, RecStart(requested)), steps, t)
    requires r in t.recs && t.recs[r].phase.Checking? && k in s.blobs
    requires forall x | RecEnabled(t, r, RecCheck(x)) :: x in CheckedAlong(r, steps)
    ensures var entries := t.recs[r].entries;
            var grace := if requested.None? then 3600 else if requested.value >= 60 then requested.value else 60;
            k !in t.blobs <==>
              && (forall f | f in s.files :: s.files[f].key != k)
              && k in entries && entries[k].Some? && entries[k].value <= s.now && s.now - entries[k].value >= grace
  {
    var rec, gone := EndOfReconcile(c, s, r, requested, steps, t);
    assert k in gone <==> OldEnough(rec.entries, k, s.now, rec.grace) && NoRow(s.files, k);
  }

  // ---------------------------------------------------------------- keys are tenant-scoped

  /** The files of `t` are those whose originals the cache of `v` knows, and `variants` are rows of that cache. */
  ghost predicate SameServer(t: State, v: Variants.State, variants: Gc.VariantRows) {
    && (forall f | f in t.files :: f in v.paths && t.files[f].key == Original(v.paths[f]))
    && (forall i | i in variants ::
          variants[i].file in t.files &&
          exists name :: Variants.Name(variants[i].file, name) in v.rows &&
                         v.rows[Variants.Name(variants[i].file, name)].key == variants[i].key)
  }

  lemma ReachableIsTenantScoped(c: Config, s: State, steps: seq<Step>, t: State, vc: Variants.Config,
                                v0: Variants.State,
                                vsteps: seq<Variants.Step>, v: Variants.State, variants: Gc.VariantRows)
    requires Init(s) && Runs(c, ANY, s, steps, t) && Variants.Init(v0) && Variants.Runs(vc, v0, vsteps, v)
    requires SameServer(t, v, variants)
    ensures Gc.TenantScoped(t.files, variants)
  {
    forall f, g | f in t.files && g in t.files && t.files[f].key == t.files[g].key
      ensures t.files[f].tenant == t.files[g].tenant
    {
      KeysAreTenantScoped(c, s, steps, t, f, g);
    }
    forall i, j | i in variants && j in variants && variants[i].key == variants[j].key
      ensures t.files[variants[i].file].key == t.files[variants[j].file].key
    {
      var m :| Variants.Name(variants[i].file, m) in v.rows &&
               v.rows[Variants.Name(variants[i].file, m)].key == variants[i].key;
      var n :| Variants.Name(variants[j].file, n) in v.rows &&
               v.rows[Variants.Name(variants[j].file, n)].key == variants[j].key;
      Variants.SharedVariantsShareOriginals(vc, v0, vsteps, v, Variants.Name(variants[i].file, m),
                                            Variants.Name(variants[j].file, n));
    }
  }

  /**
   * In every reachable state a tenant's sweep purges exactly that tenant's due rows, and reclaims no
   * blob that another tenant's file or variant refers to, although its queries do not name the tenant.
   */
  lemma SweepStaysInItsTenant(c: Config, s: State, steps: seq<Step>, t: State, vc: Variants.Config, v0: Variants.State,
                              vsteps: seq<Variants.Step>, v: Variants.State, variants: Gc.VariantRows,
                              tenant: Uuid, cutoff: int)
    requires Init(s) && Runs(c, ANY, s, steps, t) && Variants.Init(v0) && Variants.Runs(vc, v0, vsteps, v)
    requires SameServer(t, v, variants)
    ensures var ks := Candidates(t.files, Some(tenant), cutoff);
            var gone := Gc.Doomed(t.files, ks, cutoff);
            && (forall f ::
                  f in gone <==>
                    && f in t.files && t.files[f].tenant == tenant
                    && t.files[f].deletedAt.Some? && t.files[f].deletedAt.value < cutoff)
            && (forall f | f in t.files && t.files[f].tenant != tenant ::
                  t.files[f].key !in Gc.Unreferenced(t.files, ks))
            && (forall i | i in variants && t.files[variants[i].file].tenant != tenant ::
                  i !in Gc.Cascade(variants, gone) && variants[i].key !in Gc.Orphaned(variants, gone))
  {
    ReachableIsTenantScoped(c, s, steps, t, vc, v0, vsteps, v, variants);
    Gc.TenantSweepStaysInside(t.files, variants, tenant, cutoff);
  }
}
