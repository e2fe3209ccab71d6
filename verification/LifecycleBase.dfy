/**
 * What every run of the lifecycle keeps, whatever the interleaving: upload blobs are written
 * once, rows describe what was written under their key, and the key an upload owns is nobody
 * else's until its row commits.
 */
module LifecycleBase {
  import opened Basics
  import opened Keys
  import opened Lifecycle

  /** The key an upload would commit. */
  function Target(p: Phase): Option<Key> {
    match p
    case Received => None
    case Streamed(st) => Some(st.key)
    case Adopting(_, k) => Some(k)
    case Ready(_, k, _) => Some(k)
    case Opened(_, k, _, _) => Some(k)
    case Consumed(_, k, _, _) => Some(k)
    case Checked(_, k, _, _, _) => Some(k)
    case Failed(_, _, _) => None
  }

  /** A store holds what was written, unless it lost it. */
  ghost predicate StoreOk(blobs: map<Key, Blob>, written: map<Key, Blob>) {
    forall k | k in blobs && k.Original? :: k in written && blobs[k] == written[k]
  }

  ghost predicate WrittenOk(written: map<Key, Blob>, ids: set<IdHex>, now: int) {
    forall k | k in written :: k.Original? && IdOf(k.path) in ids && written[k].modified <= now
  }

  /** Bytes `b` of tenant `t` are what `key` holds, with this size and checksum. */
  ghost predicate Describes(written: map<Key, Blob>, key: Key, t: Uuid, size: nat, checksum: Digest) {
    && key in written && key.Original?
    && size == |written[key].bytes|
    && checksum == Sha256(written[key].bytes)
    && TenantOf(key.path) == t
  }

  ghost predicate RowOk(f: IdHex, r: FileRow, written: map<Key, Blob>, ids: set<IdHex>) {
    f in ids && Describes(written, r.key, r.tenant, r.size, r.checksum)
  }

  ghost predicate RowsOk(files: map<IdHex, FileRow>, written: map<Key, Blob>, ids: set<IdHex>) {
    forall f | f in files :: RowOk(f, files[f], written, ids)
  }

  ghost predicate PhaseOk(t: Uuid, p: Phase, written: map<Key, Blob>, ids: set<IdHex>) {
    !p.Received? ==>
      && p.st.id in ids
      && Describes(written, p.st.key, t, p.st.size, p.st.checksum)
      && IdOf(p.st.key.path) == p.st.id
      && written[p.st.key].modified == p.st.at
      && (Target(p).Some? ==> Describes(written, Target(p).value, t, p.st.size, p.st.checksum))
      && (!p.Streamed? && !p.Adopting? ==> (p.wroteNew <==> p.key == p.st.key))
      && (p.Adopting? ==> p.key != p.st.key)
  }

  ghost predicate UploadsOk(uploads: map<nat, InFlight>, written: map<Key, Blob>, ids: set<IdHex>) {
    forall u | u in uploads ::
      '/' !in uploads[u].claims.category && PhaseOk(uploads[u].claims.tenant, uploads[u].phase, written, ids)
  }

  /** What upload `p` owns is not referenced by any row. */
  ghost predicate OwnUnreferenced(p: Phase, files: map<IdHex, FileRow>) {
    !p.Received? ==> p.st.id !in files && NoRow(files, p.st.key)
  }

  /** ... nor claimed by another upload. */
  ghost predicate Disjoint(p: Phase, q: Phase) {
    !p.Received? ==>
      && Target(q) != Some(p.st.key)
      && (!q.Received? ==> p.st.id != q.st.id)
  }

  ghost predicate OwnsOk(uploads: map<nat, InFlight>, files: map<IdHex, FileRow>) {
    forall u | u in uploads :: OwnUnreferenced(uploads[u].phase, files)
  }

  ghost predicate ApartOk(uploads: map<nat, InFlight>) {
    forall u, v | u in uploads && v in uploads && u != v :: Disjoint(uploads[u].phase, uploads[v].phase)
  }

  ghost predicate MintedOk(minted: map<Nonce, Claims>) {
    forall n | n in minted :: '/' !in minted[n].category
  }

  ghost predicate Base(s: State) {
    && StoreOk(s.blobs, s.written)
    && WrittenOk(s.written, s.ids, s.now)
    && RowsOk(s.files, s.written, s.ids)
    && UploadsOk(s.uploads, s.written, s.ids)
    && OwnsOk(s.uploads, s.files)
    && ApartOk(s.uploads)
    && MintedOk(s.minted)
  }

  /** Every row was committed by now. */
  ghost predicate Dated(s: State) {
    forall f | f in s.files :: f in s.origin && s.origin[f].committed <= s.now
  }

  lemma DatedFrame(s: State, t: State)
    requires Dated(s) && t.files.Keys <= s.files.Keys && t.origin == s.origin && s.now <= t.now
    ensures Dated(t)
  {
  }

  lemma DatedUpload(c: Config, s: State, u: nat, a: UploadStep)
    requires Dated(s) && UploadEnabled(c, s, u, a)
    ensures Dated(UploadApply(c, s, u, a))
  {
    if !a.Commit? {
      DatedFrame(s, UploadApply(c, s, u, a));
    }
  }

  lemma DatedEnv(s: State, a: EnvStep)
    requires Dated(s) && EnvEnabled(s, a)
    ensures Dated(EnvApply(s, a))
  {
  }

  lemma DatedRow(s: State, a: RowStep)
    requires Dated(s) && RowEnabled(s, a)
    ensures Dated(RowApply(s, a))
  {
  }

  lemma DatedGc(s: State, a: GcStep)
    requires Dated(s) && GcEnabled(s, a)
    ensures Dated(GcApply(s, a))
  {
  }

  lemma DatedRec(s: State, r: nat, a: RecStep)
    requires Dated(s) && RecEnabled(s, r, a)
    ensures Dated(RecApply(s, r, a))
  {
  }

  lemma DatedStep(c: Config, s: State, a: Step)
    requires Dated(s) && Enabled(c, s, a)
    ensures Dated(Apply(c, s, a))
  {
    match a
    case Env(x) => DatedEnv(s, x);
    case Up(u, x) => DatedUpload(c, s, u, x);
    case Row(x) => DatedRow(s, x);
    case Gc(x) => DatedGc(s, x);
    case Rec(r, x) => DatedRec(s, r, x);
  }

  // ---------------------------------------------------------------- steps that keep Base

  lemma BaseEnv(s: State, a: EnvStep)
    requires Base(s) && EnvEnabled(s, a)
    ensures Base(EnvApply(s, a))
  {
  }

  lemma BaseReceive(c: Config, s: State, u: nat, a: UploadStep)
    requires Base(s) && UploadEnabled(c, s, u, a) && a.Receive?
    ensures Base(UploadApply(c, s, u, a))
  {
  }

  lemma BaseParts(t: State, uploads: map<nat, InFlight>, files: map<IdHex, FileRow>, written: map<Key, Blob>,
                  ids: set<IdHex>)
    requires t.uploads == uploads && t.files == files && t.written == written && t.ids == ids
    requires StoreOk(t.blobs, written) && WrittenOk(written, ids, t.now) && MintedOk(t.minted)
    requires RowsOk(files, written, ids) && UploadsOk(uploads, written, ids)
    requires OwnsOk(uploads, files) && ApartOk(uploads)
    ensures Base(t)
  {
  }

  lemma ApartAfterMove(uploads: map<nat, InFlight>, files: map<IdHex, FileRow>, u: nat, p: Phase)
    requires ApartOk(uploads) && OwnsOk(uploads, files) && u in uploads
    requires !uploads[u].phase.Received? && !p.Received? && p.st == uploads[u].phase.st
    requires Target(p).Some? && Target(p) != Target(uploads[u].phase) ==>
               exists f :: f in files && files[f].key == Target(p).value
    ensures ApartOk(uploads[u := uploads[u].(phase := p)])
    ensures OwnsOk(uploads[u := uploads[u].(phase := p)], files)
  {
  }

  /** A step that moves one upload to another phase with the same staged blob. */
  lemma BaseMove(s: State, u: nat, p: Phase)
    requires Base(s) && u in s.uploads && !s.uploads[u].phase.Received? && !p.Received?
    requires p.st == s.uploads[u].phase.st
    requires PhaseOk(s.uploads[u].claims.tenant, p, s.written, s.ids)
    requires Target(p).Some? && Target(p) != Target(s.uploads[u].phase) ==>
               exists f :: f in s.files && s.files[f].key == Target(p).value
    ensures Base(WithPhase(s, u, p))
  {
    ApartAfterMove(s.uploads, s.files, u, p);
    BaseParts(WithPhase(s, u, p), s.uploads[u := s.uploads[u].(phase := p)], s.files, s.written, s.ids);
  }

  /** A fresh key is unknown to every row and every upload. */
  lemma FreshKey(s: State, key: Key, id: IdHex)
    requires Base(s) && key.Original? && IdOf(key.path) == id && id !in s.ids
    ensures key !in s.written && NoRow(s.files, key) && id !in s.files
    ensures forall u | u in s.uploads :: Target(s.uploads[u].phase) != Some(key)
    ensures forall u | u in s.uploads && !s.uploads[u].phase.Received? ::
              s.uploads[u].phase.st.key != key && s.uploads[u].phase.st.id != id
  {
  }

  lemma WrittenGrows(written: map<Key, Blob>, ids: set<IdHex>, key: Key, b: Blob, id: IdHex,
                     files: map<IdHex, FileRow>, uploads: map<nat, InFlight>)
    requires key !in written && RowsOk(files, written, ids) && UploadsOk(uploads, written, ids)
    ensures RowsOk(files, written[key := b], ids + {id})
    ensures UploadsOk(uploads, written[key := b], ids + {id})
  {
  }

  lemma ApartAfterStage(uploads: map<nat, InFlight>, u: nat, st: Staged)
    requires ApartOk(uploads) && u in uploads && uploads[u].phase.Received?
    requires forall v | v in uploads :: Target(uploads[v].phase) != Some(st.key)
    requires forall v | v in uploads && !uploads[v].phase.Received? ::
               uploads[v].phase.st.key != st.key && uploads[v].phase.st.id != st.id
    ensures ApartOk(uploads[u := uploads[u].(phase := Streamed(st))])
  {
  }

  lemma UploadsAfterStage(uploads: map<nat, InFlight>, written: map<Key, Blob>, ids: set<IdHex>, u: nat, st: Staged)
    requires UploadsOk(uploads, written, ids) && u in uploads
    requires PhaseOk(uploads[u].claims.tenant, Streamed(st), written, ids)
    ensures UploadsOk(uploads[u := uploads[u].(phase := Streamed(st))], written, ids)
  {
  }

  lemma BaseStage(c: Config, s: State, u: nat, a: UploadStep)
    requires Base(s) && UploadEnabled(c, s, u, a) && a.Stage?
    ensures Base(UploadApply(c, s, u, a))
  {
    var claims := s.uploads[u].claims;
    StoredPathReadsBack(claims.tenant, claims.category, a.year, a.month, a.id, a.ext);
    var st := StagedBy(claims, a);
    FreshKey(s, st.key, a.id);
    var b := Blob(a.bytes, a.modified);
    var written, ids := s.written[st.key := b], s.ids + {a.id};
    WrittenGrows(s.written, s.ids, st.key, b, a.id, s.files, s.uploads);
    ApartAfterStage(s.uploads, u, st);
    assert PhaseOk(claims.tenant, Streamed(st), written, ids);
    UploadsAfterStage(s.uploads, written, ids, u, st);
    StoreAfterStage(s, st.key, b, a.id);
    OwnsAfterStage(s.uploads, s.files, u, st);
    var t := UploadApply(c, s, u, a);
    assert t.blobs == s.blobs[st.key := b];
    BaseParts(t, s.uploads[u := s.uploads[u].(phase := Streamed(st))], s.files, written, ids);
  }

  lemma StoreAfterStage(s: State, key: Key, b: Blob, id: IdHex)
    requires StoreOk(s.blobs, s.written) && WrittenOk(s.written, s.ids, s.now)
    requires key.Original? && IdOf(key.path) == id && b.modified <= s.now
    ensures StoreOk(s.blobs[key := b], s.written[key := b])
    ensures WrittenOk(s.written[key := b], s.ids + {id}, s.now)
  {
  }

  lemma OwnsAfterStage(uploads: map<nat, InFlight>, files: map<IdHex, FileRow>, u: nat, st: Staged)
    requires OwnsOk(uploads, files) && u in uploads && st.id !in files && NoRow(files, st.key)
    ensures OwnsOk(uploads[u := uploads[u].(phase := Streamed(st))], files)
  {
  }

  lemma OwnsAfterInsert(uploads: map<nat, InFlight>, files: map<IdHex, FileRow>, u: nat, row: FileRow)
    requires OwnsOk(uploads, files) && ApartOk(uploads)
    requires u in uploads && !uploads[u].phase.Received? && Target(uploads[u].phase) == Some(row.key)
    ensures OwnsOk(uploads - {u}, files[uploads[u].phase.st.id := row])
  {
  }

  lemma RestAfterRemove(uploads: map<nat, InFlight>, u: nat, written: map<Key, Blob>, ids: set<IdHex>)
    requires UploadsOk(uploads, written, ids) && ApartOk(uploads)
    ensures UploadsOk(uploads - {u}, written, ids) && ApartOk(uploads - {u})
  {
  }

  lemma BaseCommit(s: State, u: nat)
    requires Base(s) && u in s.uploads && InTx(s.uploads[u].phase) && s.uploads[u].claims.nonce in s.grants
    ensures Base(CommitApply(s, u))
  {
    var claims, p := s.uploads[u].claims, s.uploads[u].phase;
    OwnsAfterInsert(s.uploads, s.files, u, NewRow(claims, p));
    RestAfterRemove(s.uploads, u, s.written, s.ids);
    RowsAfterInsert(s.files, s.written, s.ids, p.st.id, NewRow(claims, p));
    var t := CommitApply(s, u);
    BaseParts(t, s.uploads - {u}, s.files[p.st.id := NewRow(claims, p)], s.written, s.ids);
  }

  lemma RowsAfterInsert(files: map<IdHex, FileRow>, written: map<Key, Blob>, ids: set<IdHex>, f: IdHex, r: FileRow)
    requires RowsOk(files, written, ids) && RowOk(f, r, written, ids)
    ensures RowsOk(files[f := r], written, ids)
  {
  }

  lemma OwnsAfterTouch(uploads: map<nat, InFlight>, files: map<IdHex, FileRow>, f: IdHex, d: Option<int>)
    requires OwnsOk(uploads, files) && f in files
    ensures OwnsOk(uploads, files[f := files[f].(deletedAt := d)])
  {
  }

  lemma BaseRow(s: State, a: RowStep)
    requires Base(s) && RowEnabled(s, a)
    ensures Base(RowApply(s, a))
  {
    match a
    case DeleteFile(f, started) => OwnsAfterTouch(s.uploads, s.files, f, Some(started));
    case RestoreCommit => OwnsAfterTouch(s.uploads, s.files, s.lock.file, None);
    case _ =>
  }

  lemma BaseGc(s: State, a: GcStep)
    requires Base(s) && GcEnabled(s, a)
    ensures Base(GcApply(s, a))
  {
  }

  lemma BaseRec(s: State, r: nat, a: RecStep)
    requires Base(s) && RecEnabled(s, r, a)
    ensures Base(RecApply(s, r, a))
  {
  }

  lemma BaseLookup(c: Config, s: State, u: nat, a: UploadStep)
    requires Base(s) && UploadEnabled(c, s, u, a) && a.Lookup?
    ensures Base(UploadApply(c, s, u, a))
  {
    var st := s.uploads[u].phase.st;
    if a.hit.Some? {
      var r := s.files[a.hit.value];
      assert RowOk(a.hit.value, r, s.written, s.ids);
      assert Describes(s.written, r.key, s.uploads[u].claims.tenant, st.size, st.checksum);
    }
    BaseMove(s, u, LookupPhase(s, st, a.hit));
  }

  lemma BaseLose(s: State, lost: set<Key>)
    requires Base(s)
    ensures Base(s.(blobs := s.blobs - lost))
  {
  }

  lemma BaseDropOwn(c: Config, s: State, u: nat, a: UploadStep)
    requires Base(s) && UploadEnabled(c, s, u, a) && a.DropOwn?
    ensures Base(UploadApply(c, s, u, a))
  {
    var p := DropIsPhase(c, s, u, a);
    BaseMove(s, u, p);
    BaseLose(WithPhase(s, u, p), if a.ok then {p.st.key} else {});
  }

  lemma DropIsPhase(c: Config, s: State, u: nat, a: UploadStep) returns (p: Phase)
    requires UploadEnabled(c, s, u, a) && a.DropOwn?
    ensures u in s.uploads && s.uploads[u].phase.Adopting?
    ensures p == Ready(s.uploads[u].phase.st, s.uploads[u].phase.key, false)
    ensures UploadApply(c, s, u, a) ==
            WithPhase(s, u, p).(blobs := s.blobs - if a.ok then {p.st.key} else {})
  {
    p := Ready(s.uploads[u].phase.st, s.uploads[u].phase.key, false);
    assert s.blobs - {} == s.blobs;
  }

  /** Steps that only move an upload from one phase to another with the same staged blob. */
  predicate IsMove(a: UploadStep) {
    a.Open? || a.Consume? || a.CheckQuota? || a.Fail?
  }

  predicate Chosen(p: Phase) {
    !p.Received? && !p.Streamed? && !p.Adopting?
  }

  lemma MoveIsPhase(c: Config, s: State, u: nat, a: UploadStep) returns (p: Phase)
    requires UploadEnabled(c, s, u, a) && IsMove(a)
    ensures u in s.uploads && UploadApply(c, s, u, a) == WithPhase(s, u, p)
    ensures var q := s.uploads[u].phase;
            && Chosen(p) && Chosen(q) && p.st == q.st && p.key == q.key && p.wroteNew == q.wroteNew
            && Target(q) == Some(q.key) && Target(p) == (if a.Fail? then None else Some(q.key))
            && (a.Open? ==> p.Opened? && q.Ready?)
            && (a.Consume? ==> q.Opened? && p.Consumed? && p.started == q.started &&
                               ConsumeEnabled(s, s.uploads[u].claims, p.started))
            && (a.CheckQuota? ==> q.Consumed? && p.Checked? && p.started == q.started)
            && (a.Fail? ==> p.Failed?)
  {
    p := UploadApply(c, s, u, a).uploads[u].phase;
  }

  lemma MovedPhaseOk(t: Uuid, q: Phase, p: Phase, written: map<Key, Blob>, ids: set<IdHex>)
    requires PhaseOk(t, q, written, ids) && Chosen(q) && Chosen(p)
    requires p.st == q.st && p.key == q.key && p.wroteNew == q.wroteNew
    requires Target(q) == Some(q.key) && (Target(p).None? || Target(p) == Target(q))
    ensures PhaseOk(t, p, written, ids)
  {
  }

  lemma BaseMoves(c: Config, s: State, u: nat, a: UploadStep)
    requires Base(s) && UploadEnabled(c, s, u, a) && IsMove(a)
    ensures Base(UploadApply(c, s, u, a))
  {
    var p := MoveIsPhase(c, s, u, a);
    MovedPhaseOk(s.uploads[u].claims.tenant, s.uploads[u].phase, p, s.written, s.ids);
    BaseMove(s, u, p);
  }

  lemma BaseCleanup(c: Config, s: State, u: nat, a: UploadStep)
    requires Base(s) && UploadEnabled(c, s, u, a) && a.Cleanup?
    ensures Base(UploadApply(c, s, u, a))
  {
  }

  lemma BaseCrash(s: State, u: nat)
    requires Base(s)
    ensures Base(s.(uploads := s.uploads - {u}))
  {
  }

  lemma BaseUpload(c: Config, s: State, u: nat, a: UploadStep)
    requires Base(s) && UploadEnabled(c, s, u, a)
    ensures Base(UploadApply(c, s, u, a))
  {
    match a
    case Receive(_) => BaseReceive(c, s, u, a);
    case Stage(_, _, _, _, _, _, _) => BaseStage(c, s, u, a);
    case Lookup(_) => BaseLookup(c, s, u, a);
    case DropOwn(_) => BaseDropOwn(c, s, u, a);
    case Commit => BaseCommit(s, u);
    case Cleanup(_) => BaseCleanup(c, s, u, a);
    case Crash => BaseCrash(s, u);
    case _ => BaseMoves(c, s, u, a);
  }

  lemma BaseStep(c: Config, s: State, a: Step)
    requires Base(s) && Enabled(c, s, a)
    ensures Base(Apply(c, s, a))
  {
    match a
    case Env(x) => BaseEnv(s, x);
    case Up(u, x) => BaseUpload(c, s, u, x);
    case Row(x) => BaseRow(s, x);
    case Gc(x) => BaseGc(s, x);
    case Rec(r, x) => BaseRec(s, r, x);
  }
}
