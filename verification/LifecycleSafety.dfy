/**
 * The bytes of live files survive: while a run respects the four assumptions, no sweep,
 * reconciliation, crash or concurrent upload ever takes a blob a live row needs.
 */
module LifecycleSafety {
  import opened Basics
  import opened Keys
  import opened Lifecycle
  import opened LifecycleBase
  import opened LifecycleTracked

  // ---------------------------------------------------------------- invariants

  ghost predicate HasRow(files: map<IdHex, FileRow>, k: Key) {
    exists f :: f in files && files[f].key == k
  }

  /** What in-flight uploads will commit is in the store. */
  ghost predicate HeldOk(uploads: map<nat, InFlight>, blobs: map<Key, Blob>) {
    forall u | u in uploads && Target(uploads[u].phase).Some? :: Target(uploads[u].phase).value in blobs
  }

  /** A sweep works on keys that have rows, and deletes a blob that no live row and no upload needs. */
  ghost predicate SweepOk(lock: Lock, files: map<IdHex, FileRow>, uploads: map<nat, InFlight>) {
    lock.Sweeping? ==>
      && (forall k | k in lock.sweep.todo :: HasRow(files, k))
      && (lock.sweep.phase.Deleting? ==>
            && HasRow(files, lock.sweep.phase.key)
            && NoLive(files, lock.sweep.phase.key)
            && NoTarget(uploads, lock.sweep.phase.key))
  }

  ghost predicate RestoreOk(lock: Lock, files: map<IdHex, FileRow>, blobs: map<Key, Blob>) {
    lock.Restoring? && !lock.phase.Waiting? ==>
      && lock.file in files && !Live(files[lock.file])
      && (!lock.phase.Marked? ==> files[lock.file].key in blobs)
  }

  ghost predicate LiveOk(files: map<IdHex, FileRow>, blobs: map<Key, Blob>) {
    forall f | f in files && Live(files[f]) :: files[f].key in blobs
  }

  ghost predicate Stored(s: State) {
    && HeldOk(s.uploads, s.blobs)
    && SweepOk(s.lock, s.files, s.uploads)
    && RestoreOk(s.lock, s.files, s.blobs)
    && LiveOk(s.files, s.blobs)
  }

  ghost predicate Safe(c: Config, s: State) {
    Tracked(c, s) && Stored(s)
  }

  // ---------------------------------------------------------------- frames

  lemma StoredFrame(s: State, t: State)
    requires Stored(s)
    requires t.uploads == s.uploads && t.files == s.files && t.blobs == s.blobs && t.lock == s.lock
    ensures Stored(t)
  {
  }

  /** Losing a blob that no upload, live row or restore needs. */
  lemma StoredLose(s: State, k: Key)
    requires Stored(s) && NoTarget(s.uploads, k) && NoLive(s.files, k)
    requires s.lock.Restoring? ==> NoRow(s.files, k)
    ensures Stored(s.(blobs := s.blobs - {k}))
  {
  }

  /** An upload moves to a phase whose target, if new, is the key of a live row. */
  lemma StoredMove(s: State, u: nat, p: Phase)
    requires Stored(s) && u in s.uploads && Target(s.uploads[u].phase).Some?
    requires Target(p).Some? && Target(p) != Target(s.uploads[u].phase) ==>
               exists f :: f in s.files && Live(s.files[f]) && s.files[f].key == Target(p).value
    ensures Stored(WithPhase(s, u, p))
  {
  }

  lemma StoredForget(s: State, u: nat)
    requires Stored(s)
    ensures Stored(s.(uploads := s.uploads - {u}))
  {
  }

  // ---------------------------------------------------------------- environment

  /** The store may change freely outside the upload keys. */
  lemma StoredVariantBlob(s: State, blobs: map<Key, Blob>)
    requires Base(s) && Stored(s) && forall k | k in s.blobs && k.Original? :: k in blobs
    ensures Stored(s.(blobs := blobs))
  {
    forall u | u in s.uploads && Target(s.uploads[u].phase).Some?
      ensures Target(s.uploads[u].phase).value in blobs
    {
      TargetsWritten(s, u);
    }
    forall f | f in s.files
      ensures s.files[f].key.Original?
    {
      assert RowOk(f, s.files[f], s.written, s.ids);
    }
  }

  lemma StoredEnv(s: State, a: EnvStep)
    requires Base(s) && Stored(s) && EnvEnabled(s, a)
    ensures Stored(EnvApply(s, a))
  {
    if a.VariantBlob? {
      StoredVariantBlob(s, EnvApply(s, a).blobs);
    } else {
      StoredFrame(s, EnvApply(s, a));
    }
  }

  // ---------------------------------------------------------------- upload

  lemma StoredReceive(c: Config, s: State, u: nat, a: UploadStep)
    requires Stored(s) && UploadEnabled(c, s, u, a) && a.Receive?
    ensures Stored(UploadApply(c, s, u, a))
  {
  }

  lemma AfterStage(s: State, t: State, u: nat, st: Staged, b: Blob)
    requires Stored(s) && u in s.uploads && NoRow(s.files, st.key)
    requires t.uploads == s.uploads[u := s.uploads[u].(phase := Streamed(st))] && t.blobs == s.blobs[st.key := b]
    requires t.files == s.files && t.lock == s.lock
    ensures Stored(t)
  {
  }

  lemma StoredStage(c: Config, s: State, u: nat, a: UploadStep)
    requires Base(s) && Stored(s) && UploadEnabled(c, s, u, a) && a.Stage?
    ensures Stored(UploadApply(c, s, u, a))
  {
    var claims := s.uploads[u].claims;
    StoredPathReadsBack(claims.tenant, claims.category, a.year, a.month, a.id, a.ext);
    var st := StagedBy(claims, a);
    FreshKey(s, st.key, a.id);
    AfterStage(s, UploadApply(c, s, u, a), u, st, Blob(a.bytes, a.modified));
  }

  lemma StoredLookup(c: Config, s: State, u: nat, a: UploadStep)
    requires Stored(s) && UploadEnabled(c, s, u, a) && a.Lookup?
    ensures Stored(UploadApply(c, s, u, a))
  {
    StoredMove(s, u, LookupPhase(s, s.uploads[u].phase.st, a.hit));
  }

  lemma StoredMoves(c: Config, s: State, u: nat, a: UploadStep)
    requires Stored(s) && UploadEnabled(c, s, u, a) && IsMove(a)
    ensures Stored(UploadApply(c, s, u, a))
  {
    var p := MoveIsPhase(c, s, u, a);
    StoredMove(s, u, p);
  }

  /** An upload's own blob is needed by no other upload and by no row. */
  lemma OwnBlobUnneeded(s: State, u: nat, k: Key)
    requires Base(s) && u in s.uploads && !s.uploads[u].phase.Received? && k == s.uploads[u].phase.st.key
    ensures NoRow(s.files, k) && NoTarget(s.uploads - {u}, k)
  {
    assert OwnUnreferenced(s.uploads[u].phase, s.files);
    forall v | v in s.uploads - {u}
      ensures Target(s.uploads[v].phase) != Some(k)
    {
      assert Disjoint(s.uploads[u].phase, s.uploads[v].phase);
    }
  }

  lemma StoredDropOwn(c: Config, s: State, u: nat, a: UploadStep)
    requires Base(s) && Stored(s) && UploadEnabled(c, s, u, a) && a.DropOwn?
    ensures Stored(UploadApply(c, s, u, a))
  {
    var p := DropIsPhase(c, s, u, a);
    StoredMove(s, u, p);
    OwnBlobUnneeded(s, u, p.st.key);
    AdoptsOther(s, u);
    if a.ok {
      LoseOwn(s, u, p);
    } else {
      StoredFrame(WithPhase(s, u, p), UploadApply(c, s, u, a));
    }
  }

  lemma LoseOwn(s: State, u: nat, p: Phase)
    requires u in s.uploads && Stored(WithPhase(s, u, p)) && !p.Received? && Target(p) != Some(p.st.key)
    requires NoRow(s.files, p.st.key) && NoTarget(s.uploads - {u}, p.st.key)
    ensures Stored(WithPhase(s, u, p).(blobs := s.blobs - {p.st.key}))
  {
    forall v | v in WithPhase(s, u, p).uploads
      ensures Target(WithPhase(s, u, p).uploads[v].phase) != Some(p.st.key)
    {
      assert v != u ==> v in s.uploads - {u};
    }
    StoredLose(WithPhase(s, u, p), p.st.key);
  }

  lemma AdoptsOther(s: State, u: nat)
    requires Base(s) && u in s.uploads && s.uploads[u].phase.Adopting?
    ensures s.uploads[u].phase.key != s.uploads[u].phase.st.key
  {
    assert PhaseOk(s.uploads[u].claims.tenant, s.uploads[u].phase, s.written, s.ids);
  }

  lemma StoredCleanup(c: Config, s: State, u: nat, a: UploadStep)
    requires Base(s) && Stored(s) && UploadEnabled(c, s, u, a) && a.Cleanup?
    ensures Stored(UploadApply(c, s, u, a))
  {
    var p := s.uploads[u].phase;
    StoredForget(s, u);
    assert PhaseOk(s.uploads[u].claims.tenant, p, s.written, s.ids);
    OwnBlobUnneeded(s, u, p.st.key);
    if p.wroteNew && a.ok {
      StoredLose(s.(uploads := s.uploads - {u}), p.st.key);
    }
  }

  // ---- commit: one more live row, on a key that is in the store and that nobody is about to delete

  ghost predicate NotDeleting(lock: Lock, k: Key) {
    lock.Sweeping? && lock.sweep.phase.Deleting? ==> lock.sweep.phase.key != k
  }

  /** The blob `k` is there, and neither a sweep nor a reconciliation has decided to delete it. */
  ghost predicate Undoomed(s: State, k: Key) {
    k in s.blobs && NotDeleting(s.lock, k) && NotRemoving(s, k)
  }

  lemma RowsPersist(files: map<IdHex, FileRow>, f: IdHex, r: FileRow, k: Key)
    requires f !in files && HasRow(files, k)
    ensures HasRow(files[f := r], k)
  {
    var g :| g in files && files[g].key == k;
    assert g in files[f := r] && files[f := r][g].key == k;
  }

  lemma SweepAfterInsert(lock: Lock, files: map<IdHex, FileRow>, uploads: map<nat, InFlight>, f: IdHex, r: FileRow)
    requires SweepOk(lock, files, uploads) && f !in files && NotDeleting(lock, r.key)
    ensures SweepOk(lock, files[f := r], uploads)
  {
    if lock.Sweeping? {
      forall k | k in lock.sweep.todo
        ensures HasRow(files[f := r], k)
      {
        RowsPersist(files, f, r, k);
      }
      if lock.sweep.phase.Deleting? {
        RowsPersist(files, f, r, lock.sweep.phase.key);
      }
    }
  }

  lemma StoredInsert(s: State, t: State, f: IdHex, r: FileRow)
    requires Stored(s) && f !in s.files && r.key in s.blobs && NotDeleting(s.lock, r.key)
    requires t.files == s.files[f := r] && t.uploads == s.uploads && t.blobs == s.blobs && t.lock == s.lock
    ensures Stored(t)
  {
    SweepAfterInsert(s.lock, s.files, s.uploads, f, r);
  }

  /** A commit on an undoomed key is safe, even when the upload itself was not covered by the invariant. */
  lemma SafeInsert(c: Config, s: State, u: nat)
    requires Base(s) && Safe(c, s.(uploads := s.uploads - {u}))
    requires u in s.uploads && InTx(s.uploads[u].phase) && s.uploads[u].claims.nonce in s.grants
    requires Undoomed(s, s.uploads[u].phase.key)
    ensures Safe(c, CommitApply(s, u))
  {
    var p := s.uploads[u].phase;
    assert OwnUnreferenced(p, s.files);
    TrackedInsert(c, s, u);
    StoredInsert(s.(uploads := s.uploads - {u}), CommitApply(s, u), p.st.id, NewRow(s.uploads[u].claims, p));
  }

  /** The invariant keeps the keys of its uploads undoomed. */
  lemma TargetUndoomed(c: Config, s: State, u: nat)
    requires Safe(c, s) && u in s.uploads && InTx(s.uploads[u].phase)
    ensures Undoomed(s, s.uploads[u].phase.key)
  {
    forall r | r in s.recs && s.recs[r].phase.Removing?
      ensures s.recs[r].phase.key != s.uploads[u].phase.key
    {
      assert RecOk(s.recs[r], s, c.settle);
    }
  }

  lemma SafeCommit(c: Config, s: State, u: nat)
    requires Base(s) && Safe(c, s)
    requires u in s.uploads && InTx(s.uploads[u].phase) && s.uploads[u].claims.nonce in s.grants
    ensures Safe(c, CommitApply(s, u))
  {
    TargetUndoomed(c, s, u);
    TrackedForget(c, s, u);
    StoredForget(s, u);
    SafeInsert(c, s, u);
  }

  lemma StoredUpload(c: Config, s: State, u: nat, a: UploadStep)
    requires Base(s) && Safe(c, s) && UploadEnabled(c, s, u, a)
    ensures Stored(UploadApply(c, s, u, a))
  {
    match a
    case Receive(_) => StoredReceive(c, s, u, a);
    case Stage(_, _, _, _, _, _, _) => StoredStage(c, s, u, a);
    case Lookup(_) => StoredLookup(c, s, u, a);
    case DropOwn(_) => StoredDropOwn(c, s, u, a);
    case Commit => SafeCommit(c, s, u);
    case Cleanup(_) => StoredCleanup(c, s, u, a);
    case Crash => StoredForget(s, u);
    case _ => StoredMoves(c, s, u, a);
  }

  // ---------------------------------------------------------------- delete and restore

  lemma TouchKeepsRow(files: map<IdHex, FileRow>, f: IdHex, d: Option<int>, k: Key)
    requires f in files && HasRow(files, k)
    ensures HasRow(files[f := files[f].(deletedAt := d)], k)
  {
    var files' := files[f := files[f].(deletedAt := d)];
    var g :| g in files && files[g].key == k;
    assert g in files' && files'[g].key == k;
  }

  lemma SweepAfterDelete(lock: Lock, files: map<IdHex, FileRow>, uploads: map<nat, InFlight>, f: IdHex, started: int)
    requires SweepOk(lock, files, uploads) && f in files
    ensures SweepOk(lock, files[f := files[f].(deletedAt := Some(started))], uploads)
  {
    if lock.Sweeping? {
      forall k | k in lock.sweep.todo
        ensures HasRow(files[f := files[f].(deletedAt := Some(started))], k)
      {
        TouchKeepsRow(files, f, Some(started), k);
      }
      if lock.sweep.phase.Deleting? {
        TouchKeepsRow(files, f, Some(started), lock.sweep.phase.key);
      }
    }
  }

  lemma StoredDelete(s: State, t: State, f: IdHex, started: int)
    requires Stored(s) && f in s.files && Live(s.files[f])
    requires t.files == s.files[f := s.files[f].(deletedAt := Some(started))]
    requires t.uploads == s.uploads && t.blobs == s.blobs && t.lock == s.lock
    ensures Stored(t)
  {
    SweepAfterDelete(s.lock, s.files, s.uploads, f, started);
  }

  lemma StoredRestore(s: State, t: State)
    requires Stored(s) && s.lock.Restoring? && (s.lock.phase.Verified? || s.lock.phase.Metered?) &&
               s.lock.file in s.files
    requires t.files == s.files[s.lock.file := s.files[s.lock.file].(deletedAt := None)]
    requires t.uploads == s.uploads && t.blobs == s.blobs && t.lock == Free
    ensures Stored(t)
  {
  }

  lemma StoredLock(s: State, lock: Lock)
    requires Stored(s) && SweepOk(lock, s.files, s.uploads) && RestoreOk(lock, s.files, s.blobs)
    ensures Stored(s.(lock := lock))
  {
  }

  lemma StoredRow(s: State, a: RowStep)
    requires Stored(s) && RowEnabled(s, a)
    ensures Stored(RowApply(s, a))
  {
    if a.DeleteFile? {
      StoredDelete(s, RowApply(s, a), a.file, a.started);
    } else if a.RestoreCommit? {
      StoredRestore(s, RowApply(s, a));
    } else {
      StoredLock(s, RowApply(s, a).lock);
    }
  }

  // ---------------------------------------------------------------- collection

  /** A key with a row is nobody's own key, so only adopters could target it. */
  lemma NoTargetWhenQuiet(s: State, k: Key)
    requires Base(s) && HasRow(s.files, k) && NoAdopter(s.uploads, k)
    ensures NoTarget(s.uploads, k)
  {
    var f :| f in s.files && s.files[f].key == k;
    forall u | u in s.uploads
      ensures Target(s.uploads[u].phase) != Some(k)
    {
      assert OwnUnreferenced(s.uploads[u].phase, s.files);
      assert !Adopts(s.uploads[u].phase, k);
    }
  }

  lemma StoredGcStart(s: State, a: GcStep)
    requires Stored(s) && GcEnabled(s, a) && a.GcStart?
    ensures Stored(GcApply(s, a))
  {
    forall k | k in Candidates(s.files, a.tenant, a.cutoff)
      ensures HasRow(s.files, k)
    {
    }
    StoredLock(s, GcApply(s, a).lock);
  }

  lemma CountKeepsSweep(w: Sweep, files: map<IdHex, FileRow>, uploads: map<nat, InFlight>, k: Key)
    requires SweepOk(Sweeping(w), files, uploads) && k in w.todo && NoTarget(uploads, k)
    ensures SweepOk(Sweeping(w.(phase := if NoLive(files, k) then Deleting(k) else Purging(k))), files, uploads)
  {
  }

  lemma StoredGcCount(s: State, a: GcStep)
    requires Base(s) && Stored(s) && GcEnabled(s, a) && a.GcCount? && CountQuiet(s, Gc(a))
    ensures Stored(GcApply(s, a))
  {
    NoTargetWhenQuiet(s, a.key);
    CountKeepsSweep(s.lock.sweep, s.files, s.uploads, a.key);
    StoredLock(s, GcApply(s, a).lock);
  }

  lemma StoredGcDelete(s: State, a: GcStep)
    requires Stored(s) && GcEnabled(s, a) && a.GcDelete?
    ensures Stored(GcApply(s, a))
  {
    StoredLose(s, s.lock.sweep.phase.key);
    StoredLock(s.(blobs := s.blobs - {s.lock.sweep.phase.key}), GcApply(s, a).lock);
  }

  lemma StoredGcCommit(s: State, a: GcStep)
    requires Stored(s) && GcEnabled(s, a) && a.GcCommit?
    ensures Stored(GcApply(s, a))
  {
  }

  lemma StoredGc(s: State, a: GcStep)
    requires Base(s) && Stored(s) && GcEnabled(s, a) && CountQuiet(s, Gc(a))
    ensures Stored(GcApply(s, a))
  {
    match a
    case GcStart(_, _) => StoredGcStart(s, a);
    case GcCount(_) => StoredGcCount(s, a);
    case GcDelete => StoredGcDelete(s, a);
    case GcPurge => StoredLock(s, GcApply(s, a).lock);
    case GcCommit => StoredGcCommit(s, a);
    case GcAbort => StoredLock(s, Free);
  }

  // ---------------------------------------------------------------- reconciliation

  lemma StoredRec(c: Config, s: State, r: nat, a: RecStep)
    requires Safe(c, s) && RecEnabled(s, r, a)
    ensures Stored(RecApply(s, r, a))
  {
    if a.RecDelete? {
      assert RecOk(s.recs[r], s, c.settle);
      StoredLose(s, s.recs[r].phase.key);
    } else {
      StoredFrame(s, RecApply(s, r, a));
    }
  }

  ghost predicate Full(care: Care) {
    care.count && care.purge && care.settles
  }

  lemma SafeStep(c: Config, care: Care, s: State, a: Step)
    requires Base(s) && Safe(c, s) && Enabled(c, s, a) && Respects(c, care, s, a)
    requires Full(care) && GraceAssured(c, care)
    ensures Safe(c, Apply(c, s, a))
  {
    TrackedStep(c, care, s, a);
    match a
    case Env(x) => StoredEnv(s, x);
    case Up(u, x) => StoredUpload(c, s, u, x);
    case Row(x) => StoredRow(s, x);
    case Gc(x) => StoredGc(s, x);
    case Rec(r, x) => StoredRec(c, s, r, x);
  }
}
