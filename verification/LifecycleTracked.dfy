/**
 * What can be assumed of an interleaving, and the bookkeeping that holds under the assumptions on
 * purges, uploads and grace: adopted keys keep a row, and what reconciliation is about to remove
 * belongs to no row and to no upload.
 */
module LifecycleTracked {
  import opened Basics
  import opened Keys
  import opened Lifecycle
  import opened LifecycleBase

  // ---------------------------------------------------------------- assumptions on a run

  /** The upload will commit a row on a blob it did not write. */
  predicate Adopts(p: Phase, k: Key) {
    Target(p) == Some(k) && p.st.key != k
  }

  ghost predicate NoAdopter(uploads: map<nat, InFlight>, k: Key) {
    forall u | u in uploads :: !Adopts(uploads[u].phase, k)
  }

  /** A sweep counts no key that an upload has adopted and not yet settled. */
  ghost predicate CountQuiet(s: State, a: Step) {
    a.Gc? && a.gc.GcCount? ==> NoAdopter(s.uploads, a.gc.key)
  }

  /** A sweep purges no such key. */
  ghost predicate PurgeQuiet(s: State, a: Step) {
    a.Gc? && a.gc.GcPurge? && s.lock.Sweeping? && s.lock.sweep.phase.Purging? ==>
      NoAdopter(s.uploads, s.lock.sweep.phase.key)
  }

  ghost predicate SettledBy(uploads: map<nat, InFlight>, now: int, settle: int) {
    forall u | u in uploads && Target(uploads[u].phase).Some? ::
      now < uploads[u].phase.st.at + settle
  }

  /** Uploads commit or give up within `settle` seconds of the time their blob is dated with. */
  ghost predicate Settles(c: Config, s: State, a: Step) {
    && (a.Env? && a.env.Tick? ==> SettledBy(s.uploads, a.env.to, c.settle))
    && (a.Up? && a.up.Stage? ==> s.now < a.up.modified + c.settle)
  }

  /** No reconciliation runs with a grace below `settle`. */
  predicate GraceCovers(c: Config, a: Step) {
    a.Rec? && a.rec.RecStart? ==> Grace(a.rec.requested) >= c.settle
  }

  /** Which of the four a run respects; nothing in the code enforces any of them. */
  datatype Care = Care(count: bool, purge: bool, settles: bool, grace: bool)

  ghost predicate Respects(c: Config, care: Care, s: State, a: Step) {
    && (care.count ==> CountQuiet(s, a))
    && (care.purge ==> PurgeQuiet(s, a))
    && (care.settles ==> Settles(c, s, a))
    && (care.grace ==> GraceCovers(c, a))
  }

  /** The floor of the handler makes up for an unchecked grace when uploads settle within it. */
  predicate GraceAssured(c: Config, care: Care) {
    care.grace || c.settle <= RECONCILE_MIN_GRACE
  }

  /** On its way to a row, from the lookup of a duplicate to its commit, with key `k`. */
  ghost predicate Underway(p: Phase, k: Key) {
    (p.Adopting? || p.Ready? || p.Opened? || p.Consumed? || p.Checked?) && p.key == k
  }

  /**
   * What each of the four rules out: a count or a purge of a key that an upload has taken over from
   * another row; a clock that runs past, or a blob dated before, the time an upload has; and a
   * reconciliation whose grace is shorter than that time. All else is left to the interleaving.
   */
  lemma RespectsIff(c: Config, care: Care, s: State, a: Step)
    requires Enabled(c, s, a)
    ensures Respects(c, care, s, a) <==>
              && !(care.count && a.Gc? && a.gc.GcCount? &&
                   exists u :: u in s.uploads && Underway(s.uploads[u].phase, a.gc.key) &&
                               s.uploads[u].phase.st.key != a.gc.key)
              && !(care.purge && a == Gc(GcPurge) &&
                   exists u :: u in s.uploads && Underway(s.uploads[u].phase, s.lock.sweep.phase.key) &&
                               s.uploads[u].phase.st.key != s.lock.sweep.phase.key)
              && !(care.settles && a.Env? && a.env.Tick? &&
                   exists u :: u in s.uploads && !s.uploads[u].phase.Received? && !s.uploads[u].phase.Failed? &&
                               a.env.to >= s.uploads[u].phase.st.at + c.settle)
              && !(care.settles && a.Up? && a.up.Stage? && s.now >= a.up.modified + c.settle)
              && !(care.grace && a.Rec? && a.rec.RecStart? && a.rec.requested.Some? &&
                   a.rec.requested.value < c.settle && 60 < c.settle)
              && !(care.grace && a.Rec? && a.rec.RecStart? && a.rec.requested.None? && 3600 < c.settle)
  {
    forall u, k | u in s.uploads
      ensures Adopts(s.uploads[u].phase, k) <==> Underway(s.uploads[u].phase, k) && s.uploads[u].phase.st.key != k
    {
    }
    forall u | u in s.uploads
      ensures Target(s.uploads[u].phase).Some? <==> !s.uploads[u].phase.Received? && !s.uploads[u].phase.Failed?
    {
    }
  }

  // ---------------------------------------------------------------- invariants

  ghost predicate KeptRow(files: map<IdHex, FileRow>, purged: set<IdHex>, k: Key) {
    exists f :: f in files && f !in purged && files[f].key == k
  }

  ghost predicate NoTarget(uploads: map<nat, InFlight>, k: Key) {
    forall u | u in uploads :: Target(uploads[u].phase) != Some(k)
  }

  /** An adopted key keeps a row, live or not, that no open purge has taken. */
  ghost predicate AdoptedOk(uploads: map<nat, InFlight>, files: map<IdHex, FileRow>, purged: set<IdHex>) {
    forall u | u in uploads && Target(uploads[u].phase).Some? ::
      Adopts(uploads[u].phase, Target(uploads[u].phase).value) ==>
        KeptRow(files, purged, Target(uploads[u].phase).value)
  }

  function PurgedOf(lock: Lock): set<IdHex> {
    if lock.Sweeping? then lock.sweep.purged else {}
  }

  ghost predicate PurgedDead(purged: set<IdHex>, files: map<IdHex, FileRow>) {
    forall f | f in purged :: f in files && !Live(files[f])
  }

  ghost predicate EntriesOk(entries: map<Key, Option<int>>, written: map<Key, Blob>) {
    forall k | k in entries :: k in written && (entries[k].Some? ==> entries[k].value == written[k].modified)
  }

  ghost predicate RecOk(rec: Reconcile, s: State, settle: int) {
    && rec.grace >= settle
    && EntriesOk(rec.entries, s.written)
    && (rec.phase.Checking? || rec.phase.Removing? ==> rec.phase.now <= s.now)
    && (rec.phase.Removing? ==>
          && rec.phase.key in s.written
          && NoRow(s.files, rec.phase.key)
          && NoTarget(s.uploads, rec.phase.key))
  }

  ghost predicate RecsOk(s: State, settle: int) {
    forall r | r in s.recs :: RecOk(s.recs[r], s, settle)
  }

  ghost predicate Tracked(c: Config, s: State) {
    && AdoptedOk(s.uploads, s.files, PurgedOf(s.lock))
    && PurgedDead(PurgedOf(s.lock), s.files)
    && RecsOk(s, c.settle)
    && SettledBy(s.uploads, s.now, c.settle)
  }

  // ---------------------------------------------------------------- frames

  /** Rows, uploads and the open purge stay as they are. */
  lemma TrackedFrame(c: Config, s: State, t: State)
    requires Tracked(c, s)
    requires t.uploads == s.uploads && t.files == s.files && PurgedOf(t.lock) == PurgedOf(s.lock)
    requires t.recs == s.recs && t.written == s.written && s.now <= t.now && SettledBy(t.uploads, t.now, c.settle)
    ensures Tracked(c, t)
  {
  }

  /** An upload moves to a phase whose target, if new, is the key of a live row. */
  lemma TrackedMove(c: Config, s: State, u: nat, p: Phase)
    requires Tracked(c, s) && u in s.uploads && !s.uploads[u].phase.Received?
    requires !p.Received? && p.st == s.uploads[u].phase.st
    requires Target(s.uploads[u].phase).Some?
    requires Target(p).Some? && Target(p) != Target(s.uploads[u].phase) ==>
               exists f :: f in s.files && Live(s.files[f]) && s.files[f].key == Target(p).value
    ensures Tracked(c, WithPhase(s, u, p))
  {
  }

  lemma TrackedForget(c: Config, s: State, u: nat)
    requires Tracked(c, s)
    ensures Tracked(c, s.(uploads := s.uploads - {u}))
  {
  }

  // ---------------------------------------------------------------- upload

  lemma TrackedReceive(c: Config, s: State, u: nat, a: UploadStep)
    requires Tracked(c, s) && UploadEnabled(c, s, u, a) && a.Receive?
    ensures Tracked(c, UploadApply(c, s, u, a))
  {
  }

  lemma RecsAfterStage(s: State, t: State, u: nat, st: Staged, b: Blob, settle: int)
    requires RecsOk(s, settle) && u in s.uploads && st.key !in s.written
    requires t.recs == s.recs && t.files == s.files && t.now == s.now && t.written == s.written[st.key := b]
    requires t.uploads == s.uploads[u := s.uploads[u].(phase := Streamed(st))]
    ensures RecsOk(t, settle)
  {
  }

  lemma TrackedStage(c: Config, s: State, u: nat, a: UploadStep)
    requires Base(s) && Tracked(c, s) && UploadEnabled(c, s, u, a) && a.Stage? && s.now < a.modified + c.settle
    ensures Tracked(c, UploadApply(c, s, u, a))
  {
    var claims := s.uploads[u].claims;
    StoredPathReadsBack(claims.tenant, claims.category, a.year, a.month, a.id, a.ext);
    var st := StagedBy(claims, a);
    FreshKey(s, st.key, a.id);
    var t := UploadApply(c, s, u, a);
    RecsAfterStage(s, t, u, st, Blob(a.bytes, a.modified), c.settle);
    AfterStage(s.uploads, s.files, PurgedOf(s.lock), u, st, s.now, c.settle);
  }

  lemma AfterStage(uploads: map<nat, InFlight>, files: map<IdHex, FileRow>, purged: set<IdHex>, u: nat, st: Staged,
                   now: int, settle: int)
    requires AdoptedOk(uploads, files, purged) && SettledBy(uploads, now, settle) && u in uploads &&
               now < st.at + settle
    ensures AdoptedOk(uploads[u := uploads[u].(phase := Streamed(st))], files, purged)
    ensures SettledBy(uploads[u := uploads[u].(phase := Streamed(st))], now, settle)
  {
  }

  lemma TrackedLookup(c: Config, s: State, u: nat, a: UploadStep)
    requires Tracked(c, s) && UploadEnabled(c, s, u, a) && a.Lookup?
    ensures Tracked(c, UploadApply(c, s, u, a))
  {
    TrackedMove(c, s, u, LookupPhase(s, s.uploads[u].phase.st, a.hit));
  }

  lemma TrackedMoves(c: Config, s: State, u: nat, a: UploadStep)
    requires Tracked(c, s) && UploadEnabled(c, s, u, a) && IsMove(a)
    ensures Tracked(c, UploadApply(c, s, u, a))
  {
    var p := MoveIsPhase(c, s, u, a);
    TrackedMove(c, s, u, p);
  }

  lemma TrackedDropOwn(c: Config, s: State, u: nat, a: UploadStep)
    requires Tracked(c, s) && UploadEnabled(c, s, u, a) && a.DropOwn?
    ensures Tracked(c, UploadApply(c, s, u, a))
  {
    var p := DropIsPhase(c, s, u, a);
    TrackedMove(c, s, u, p);
    TrackedFrame(c, WithPhase(s, u, p), UploadApply(c, s, u, a));
  }

  lemma TrackedEnd(c: Config, s: State, u: nat, a: UploadStep)
    requires Tracked(c, s) && UploadEnabled(c, s, u, a) && (a.Cleanup? || a.Crash?)
    ensures Tracked(c, UploadApply(c, s, u, a))
  {
    TrackedForget(c, s, u);
    TrackedFrame(c, s.(uploads := s.uploads - {u}), UploadApply(c, s, u, a));
  }

  // ---- commit: one more live row

  lemma KeptAfterInsert(files: map<IdHex, FileRow>, purged: set<IdHex>, f: IdHex, r: FileRow, k: Key)
    requires f !in files && KeptRow(files, purged, k)
    ensures KeptRow(files[f := r], purged, k)
  {
    var g :| g in files && g !in purged && files[g].key == k;
    assert g in files[f := r] && files[f := r][g].key == k;
  }

  lemma AdoptedAfterInsert(uploads: map<nat, InFlight>, files: map<IdHex, FileRow>, purged: set<IdHex>, u: nat,
                           f: IdHex, r: FileRow)
    requires AdoptedOk(uploads, files, purged) && f !in files
    ensures AdoptedOk(uploads - {u}, files[f := r], purged)
  {
    forall v | v in uploads - {u} && Target(uploads[v].phase).Some? &&
               Adopts(uploads[v].phase, Target(uploads[v].phase).value)
      ensures KeptRow(files[f := r], purged, Target(uploads[v].phase).value)
    {
      KeptAfterInsert(files, purged, f, r, Target(uploads[v].phase).value);
    }
  }

  /** The key of the new row is not one that a reconciliation is about to remove. */
  ghost predicate NotRemoving(s: State, k: Key) {
    forall r | r in s.recs && s.recs[r].phase.Removing? :: s.recs[r].phase.key != k
  }

  lemma RecsAfterInsert(s: State, t: State, u: nat, f: IdHex, r: FileRow, settle: int)
    requires RecsOk(s, settle) && NotRemoving(s, r.key)
    requires t.recs == s.recs && t.written == s.written && t.now == s.now
    requires t.files == s.files[f := r] && t.uploads == s.uploads - {u}
    ensures RecsOk(t, settle)
  {
    forall x | x in t.recs
      ensures RecOk(t.recs[x], t, settle)
    {
      assert RecOk(s.recs[x], s, settle);
    }
  }

  /** What a commit keeps, whether or not the bookkeeping covered the upload itself. */
  lemma TrackedInsert(c: Config, s: State, u: nat)
    requires Base(s) && Tracked(c, s.(uploads := s.uploads - {u}))
    requires u in s.uploads && InTx(s.uploads[u].phase) && s.uploads[u].claims.nonce in s.grants
    requires NotRemoving(s, s.uploads[u].phase.key)
    ensures Tracked(c, CommitApply(s, u))
  {
    var p := s.uploads[u].phase;
    var f, r := p.st.id, NewRow(s.uploads[u].claims, p);
    assert OwnUnreferenced(p, s.files);
    AfterInsert(c, s.(uploads := s.uploads - {u}), CommitApply(s, u), u, f, r);
  }

  lemma AfterInsert(c: Config, s: State, t: State, u: nat, f: IdHex, r: FileRow)
    requires Tracked(c, s) && NotRemoving(s, r.key) && f !in s.files && u !in s.uploads
    requires t.recs == s.recs && t.written == s.written && t.now == s.now && t.lock == s.lock
    requires t.files == s.files[f := r] && t.uploads == s.uploads
    ensures Tracked(c, t)
  {
    assert s.uploads - {u} == s.uploads;
    AdoptedAfterInsert(s.uploads, s.files, PurgedOf(s.lock), u, f, r);
    RecsAfterInsert(s, t, u, f, r, c.settle);
  }

  lemma TrackedCommit(c: Config, s: State, u: nat)
    requires Base(s) && Tracked(c, s)
    requires u in s.uploads && InTx(s.uploads[u].phase) && s.uploads[u].claims.nonce in s.grants
    ensures Tracked(c, CommitApply(s, u))
  {
    TrackedForget(c, s, u);
    forall r | r in s.recs && s.recs[r].phase.Removing?
      ensures s.recs[r].phase.key != s.uploads[u].phase.key
    {
      assert RecOk(s.recs[r], s, c.settle);
    }
    TrackedInsert(c, s, u);
  }

  lemma TrackedUpload(c: Config, s: State, u: nat, a: UploadStep)
    requires Base(s) && Tracked(c, s) && UploadEnabled(c, s, u, a) && Settles(c, s, Up(u, a))
    ensures Tracked(c, UploadApply(c, s, u, a))
  {
    match a
    case Receive(_) => TrackedReceive(c, s, u, a);
    case Stage(_, _, _, _, _, _, _) => TrackedStage(c, s, u, a);
    case Lookup(_) => TrackedLookup(c, s, u, a);
    case DropOwn(_) => TrackedDropOwn(c, s, u, a);
    case Commit => TrackedCommit(c, s, u);
    case Cleanup(_) => TrackedEnd(c, s, u, a);
    case Crash => TrackedEnd(c, s, u, a);
    case _ => TrackedMoves(c, s, u, a);
  }

  // ---------------------------------------------------------------- delete and restore

  lemma AdoptedAfterTouch(uploads: map<nat, InFlight>, files: map<IdHex, FileRow>, purged: set<IdHex>,
                          f: IdHex, d: Option<int>)
    requires AdoptedOk(uploads, files, purged) && f in files
    ensures AdoptedOk(uploads, files[f := files[f].(deletedAt := d)], purged)
  {
    var files' := files[f := files[f].(deletedAt := d)];
    forall v | v in uploads && Target(uploads[v].phase).Some? &&
               Adopts(uploads[v].phase, Target(uploads[v].phase).value)
      ensures KeptRow(files', purged, Target(uploads[v].phase).value)
    {
      var g :| g in files && g !in purged && files[g].key == Target(uploads[v].phase).value;
      assert g in files' && files'[g].key == files[g].key;
    }
  }

  lemma RecsAfterTouch(s: State, t: State, f: IdHex, d: Option<int>, settle: int)
    requires RecsOk(s, settle) && f in s.files
    requires t.recs == s.recs && t.written == s.written && t.now == s.now && t.uploads == s.uploads
    requires t.files == s.files[f := s.files[f].(deletedAt := d)]
    ensures RecsOk(t, settle)
  {
  }

  lemma TrackedTouch(c: Config, s: State, t: State, f: IdHex, d: Option<int>)
    requires Tracked(c, s) && f in s.files && t.files == s.files[f := s.files[f].(deletedAt := d)]
    requires t.recs == s.recs && t.written == s.written && t.now == s.now && t.uploads == s.uploads
    requires PurgedOf(t.lock) == PurgedOf(s.lock) && (d.Some? || f !in PurgedOf(s.lock))
    ensures Tracked(c, t)
  {
    AdoptedAfterTouch(s.uploads, s.files, PurgedOf(s.lock), f, d);
    RecsAfterTouch(s, t, f, d, c.settle);
  }

  lemma TrackedRow(c: Config, s: State, a: RowStep)
    requires Tracked(c, s) && RowEnabled(s, a)
    ensures Tracked(c, RowApply(s, a))
  {
    if a.DeleteFile? {
      TrackedTouch(c, s, RowApply(s, a), a.file, Some(a.started));
    } else if a.RestoreCommit? {
      TrackedTouch(c, s, RowApply(s, a), s.lock.file, None);
    } else {
      TrackedFrame(c, s, RowApply(s, a));
    }
  }

  // ---------------------------------------------------------------- collection

  lemma TrackedPurge(c: Config, s: State, a: GcStep)
    requires Tracked(c, s) && GcEnabled(s, a) && a.GcPurge? && PurgeQuiet(s, Gc(a))
    ensures Tracked(c, GcApply(s, a))
  {
    var k, t := s.lock.sweep.phase.key, GcApply(s, a);
    var purged := PurgedOf(t.lock);
    forall v | v in s.uploads && Target(s.uploads[v].phase).Some? &&
               Adopts(s.uploads[v].phase, Target(s.uploads[v].phase).value)
      ensures KeptRow(s.files, purged, Target(s.uploads[v].phase).value)
    {
      var x := Target(s.uploads[v].phase).value;
      assert x != k;
      var f :| f in s.files && f !in s.lock.sweep.purged && s.files[f].key == x;
      assert f in s.files && f !in purged && s.files[f].key == x;
    }
    RecsSame(s, t, c.settle);
  }

  lemma RecsSame(s: State, t: State, settle: int)
    requires RecsOk(s, settle)
    requires t.recs == s.recs && t.written == s.written && t.now == s.now && t.uploads == s.uploads &&
               t.files == s.files
    ensures RecsOk(t, settle)
  {
  }

  lemma TrackedGcCommit(c: Config, s: State, a: GcStep)
    requires Tracked(c, s) && GcEnabled(s, a) && a.GcCommit?
    ensures Tracked(c, GcApply(s, a))
  {
    var t, purged := GcApply(s, a), s.lock.sweep.purged;
    forall v | v in s.uploads && Target(s.uploads[v].phase).Some? &&
               Adopts(s.uploads[v].phase, Target(s.uploads[v].phase).value)
      ensures KeptRow(t.files, {}, Target(s.uploads[v].phase).value)
    {
      var k := Target(s.uploads[v].phase).value;
      var f :| f in s.files && f !in purged && s.files[f].key == k;
      assert f in t.files && f !in {} && t.files[f].key == k;
    }
    forall r | r in t.recs
      ensures RecOk(t.recs[r], t, c.settle)
    {
      assert RecOk(s.recs[r], s, c.settle);
    }
  }

  /** Rolling back, or starting anew, forgets the open purge. */
  lemma TrackedNoPurge(c: Config, s: State, lock: Lock)
    requires Tracked(c, s) && PurgedOf(lock) == {}
    ensures Tracked(c, s.(lock := lock))
  {
    RecsSame(s, s.(lock := lock), c.settle);
    forall v | v in s.uploads && Target(s.uploads[v].phase).Some? &&
               Adopts(s.uploads[v].phase, Target(s.uploads[v].phase).value)
      ensures KeptRow(s.files, {}, Target(s.uploads[v].phase).value)
    {
      var k := Target(s.uploads[v].phase).value;
      assert KeptRow(s.files, PurgedOf(s.lock), k);
    }
  }

  lemma TrackedGc(c: Config, s: State, a: GcStep)
    requires Tracked(c, s) && GcEnabled(s, a) && PurgeQuiet(s, Gc(a))
    ensures Tracked(c, GcApply(s, a))
  {
    if a.GcPurge? {
      TrackedPurge(c, s, a);
    } else if a.GcCommit? {
      TrackedGcCommit(c, s, a);
    } else if a.GcAbort? || a.GcStart? {
      TrackedNoPurge(c, s, GcApply(s, a).lock);
    } else {
      TrackedFrame(c, s, GcApply(s, a));
    }
  }

  // ---------------------------------------------------------------- reconciliation

  lemma TargetsWritten(s: State, u: nat)
    requires Base(s) && u in s.uploads && Target(s.uploads[u].phase).Some?
    ensures Target(s.uploads[u].phase).value in s.written && Target(s.uploads[u].phase).value.Original?
    ensures s.uploads[u].phase.st.key in s.written
    ensures s.written[s.uploads[u].phase.st.key].modified == s.uploads[u].phase.st.at
  {
  }

  /** A blob listed as old that no row refers to is not the blob of an upload still in flight. */
  lemma OldBlobIsSettled(c: Config, s: State, rec: Reconcile, k: Key, now: int)
    requires Base(s) && SettledBy(s.uploads, s.now, c.settle) && rec.grace >= c.settle
    requires EntriesOk(rec.entries, s.written) && now <= s.now
    requires OldEnough(rec.entries, k, now, rec.grace)
    requires AdoptedOk(s.uploads, s.files, PurgedOf(s.lock)) && NoRow(s.files, k)
    ensures NoTarget(s.uploads, k)
  {
    forall u | u in s.uploads
      ensures Target(s.uploads[u].phase) != Some(k)
    {
      assert !KeptRow(s.files, PurgedOf(s.lock), k);
      if Target(s.uploads[u].phase).Some? {
        TargetsWritten(s, u);
      }
    }
  }

  lemma TrackedRecs(c: Config, s: State, r: nat, rec: Reconcile)
    requires Tracked(c, s) && RecOk(rec, s, c.settle)
    ensures Tracked(c, s.(recs := s.recs[r := rec]))
  {
  }

  lemma TrackedRecEnd(c: Config, s: State, r: nat)
    requires Tracked(c, s)
    ensures Tracked(c, s.(recs := s.recs - {r}))
  {
  }

  lemma TrackedRecCheck(c: Config, s: State, r: nat, a: RecStep)
    requires Base(s) && Tracked(c, s) && RecEnabled(s, r, a) && a.RecCheck?
    ensures Tracked(c, RecApply(s, r, a))
  {
    var rec := s.recs[r];
    assert RecOk(rec, s, c.settle);
    OldBlobIsSettled(c, s, rec, a.key, rec.phase.now);
    TrackedRecs(c, s, r, rec.(phase := Removing(rec.phase.referenced, rec.phase.now, a.key)));
  }

  lemma TrackedRecDelete(c: Config, s: State, r: nat, a: RecStep)
    requires Tracked(c, s) && RecEnabled(s, r, a) && a.RecDelete?
    ensures Tracked(c, RecApply(s, r, a))
  {
    var rec := s.recs[r];
    assert RecOk(rec, s, c.settle);
    var rec' := rec.(phase := Checking(rec.phase.referenced, rec.phase.now));
    TrackedRecs(c, s, r, rec');
    TrackedFrame(c, s.(recs := s.recs[r := rec']), RecApply(s, r, a));
  }

  /** Steps that only read, listing or snapshotting. */
  lemma TrackedRecRead(c: Config, s: State, r: nat, a: RecStep)
    requires Base(s) && Tracked(c, s) && RecEnabled(s, r, a) && (a.RecList? || a.RecSnapshot? || a.RecClock?)
    ensures Tracked(c, RecApply(s, r, a))
  {
    assert RecOk(s.recs[r], s, c.settle);
    ReadKeepsRec(s, r, a, c.settle);
    TrackedRecs(c, s, r, RecApply(s, r, a).recs[r]);
  }

  lemma ReadKeepsRec(s: State, r: nat, a: RecStep, settle: int)
    requires StoreOk(s.blobs, s.written) && RecEnabled(s, r, a) && (a.RecList? || a.RecSnapshot? || a.RecClock?)
    requires RecOk(s.recs[r], s, settle)
    ensures var t := RecApply(s, r, a);
            r in t.recs && t == s.(recs := s.recs[r := t.recs[r]]) && RecOk(t.recs[r], s, settle)
  {
  }

  lemma TrackedRec(c: Config, s: State, r: nat, a: RecStep)
    requires Base(s) && Tracked(c, s) && RecEnabled(s, r, a) && GraceCovers(c, Rec(r, a))
    ensures Tracked(c, RecApply(s, r, a))
  {
    match a
    case RecStart(requested) => TrackedRecs(c, s, r, Reconcile(Grace(requested), map[], Listing));
    case RecCheck(_) => TrackedRecCheck(c, s, r, a);
    case RecDelete(_) => TrackedRecDelete(c, s, r, a);
    case RecEnd => TrackedRecEnd(c, s, r);
    case _ => TrackedRecRead(c, s, r, a);
  }

  lemma TrackedEnv(c: Config, s: State, a: EnvStep)
    requires Tracked(c, s) && EnvEnabled(s, a) && Settles(c, s, Env(a))
    ensures Tracked(c, EnvApply(s, a))
  {
    TrackedFrame(c, s, EnvApply(s, a));
  }

  lemma TrackedStep(c: Config, care: Care, s: State, a: Step)
    requires Base(s) && Tracked(c, s) && Enabled(c, s, a) && Respects(c, care, s, a)
    requires care.purge && care.settles && GraceAssured(c, care)
    ensures Tracked(c, Apply(c, s, a))
  {
    match a
    case Env(x) => TrackedEnv(c, s, x);
    case Up(u, x) => TrackedUpload(c, s, u, x);
    case Row(x) => TrackedRow(c, s, x);
    case Gc(x) => TrackedGc(c, s, x);
    case Rec(r, x) => TrackedRec(c, s, r, x);
  }
}
