/**
 * The file lifecycle as a state machine: uploads, deletes, restores, garbage collection and
 * reconciliation interleave over the database rows and the blob store, one atomic step at a
 * time. A transaction takes effect at its commit; the row locks and the advisory lock it holds
 * before that are visible to the others as guards on their steps.
 */
module Lifecycle {
  import opened Basics
  import opened Keys
  import ContentTypes

  type Nonce = nat

  datatype Config = Config(maxUpload: nat, allowed: seq<string>, settle: int)

  // ---------------------------------------------------------------- rows and blobs

  datatype Policy = Policy(key: string, category: string, maxSize: nat, types: seq<string>, visibility: string)

  datatype Claims = Claims(tenant: Uuid, policy: string, category: string, max: nat, types: seq<string>,
                           nonce: Nonce, exp: int, visibility: string)

  datatype GrantRow = GrantRow(tenant: Uuid, expires: int, consumed: Option<int>)

  datatype FileRow = FileRow(tenant: Uuid, policy: string, category: string, key: Key, contentType: string,
                             size: nat, checksum: Digest, visibility: string, deletedAt: Option<int>)

  datatype Counter = Counter(used: int, objects: int)

  datatype Op = Upload | Restore | Delete | Egress

  datatype Event = Event(tenant: Uuid, op: Op, bytes: nat)

  datatype Blob = Blob(bytes: Bytes, modified: int)

  // ---------------------------------------------------------------- work in flight

  /** What streaming the body to the store produced; `at` is the time the store dates the blob with. */
  datatype Staged = Staged(id: IdHex, key: Key, contentType: string, size: nat, checksum: Digest, at: int)

  datatype Phase =
    | Received
    | Streamed(st: Staged)
    | Adopting(st: Staged, key: Key)
    | Ready(st: Staged, key: Key, wroteNew: bool)
    | Opened(st: Staged, key: Key, wroteNew: bool, started: int)
    | Consumed(st: Staged, key: Key, wroteNew: bool, started: int)
    | Checked(st: Staged, key: Key, wroteNew: bool, started: int, seen: int)
    | Failed(st: Staged, key: Key, wroteNew: bool)

  datatype InFlight = InFlight(claims: Claims, phase: Phase)

  datatype SweepPhase = Idle | Deleting(key: Key) | Purging(key: Key)

  /** A collection run; `purged` rows are deleted in its own, still open, transaction. */
  datatype Sweep = Sweep(cutoff: int, todo: set<Key>, purged: set<IdHex>, phase: SweepPhase)

  datatype RestorePhase = Waiting | Marked | Verified | Metered(seen: int)

  /** Holder of the advisory lock shared by collection and restore. */
  datatype Lock = Free | Sweeping(sweep: Sweep) | Restoring(file: IdHex, phase: RestorePhase)

  datatype RecPhase =
    | Listing
    | Snapped(referenced: set<Key>)
    | Checking(referenced: set<Key>, now: int)
    | Removing(referenced: set<Key>, now: int, key: Key)

  datatype Reconcile = Reconcile(grace: int, entries: map<Key, Option<int>>, phase: RecPhase)

  /** The grant, the transaction start and the time a row was committed with. */
  datatype Origin = Origin(nonce: Nonce, started: int, committed: int)

  /**
   * `written`, `ids`, `minted` and `origin` are history: every upload blob ever written, every
   * file id ever drawn, every grant ever signed, and where each row came from.
   */
  datatype State = State(
    now: int,
    quotas: map<Uuid, int>,
    counters: map<Uuid, Counter>,
    events: seq<Event>,
    grants: map<Nonce, GrantRow>,
    files: map<IdHex, FileRow>,
    blobs: map<Key, Blob>,
    uploads: map<nat, InFlight>,
    lock: Lock,
    recs: map<nat, Reconcile>,
    written: map<Key, Blob>,
    ids: set<IdHex>,
    minted: map<Nonce, Claims>,
    origin: map<IdHex, Origin>)

  ghost predicate Init(s: State) {
    && s.quotas == map[] && s.counters == map[] && s.events == [] && s.grants == map[] && s.files == map[]
    && s.blobs == map[] && s.uploads == map[] && s.lock == Free && s.recs == map[]
    && s.written == map[] && s.ids == {} && s.minted == map[] && s.origin == map[]
  }

  // ---------------------------------------------------------------- queries

  predicate Live(r: FileRow) {
    r.deletedAt.None?
  }

  /** A tombstone past the retention cutoff. */
  predicate Expired(r: FileRow, cutoff: int) {
    r.deletedAt.Some? && r.deletedAt.value < cutoff
  }

  predicate NoRow(files: map<IdHex, FileRow>, k: Key) {
    forall f | f in files :: files[f].key != k
  }

  predicate NoLive(files: map<IdHex, FileRow>, k: Key) {
    forall f | f in files && Live(files[f]) :: files[f].key != k
  }

  function Candidates(files: map<IdHex, FileRow>, tenant: Option<Uuid>, cutoff: int): set<Key> {
    set f | f in files && Expired(files[f], cutoff) && (tenant.None? || files[f].tenant == tenant.value) :: files[f].key
  }

  /** Rows the purge of `k` deletes. */
  function PurgeSet(files: map<IdHex, FileRow>, k: Key, cutoff: int): set<IdHex> {
    set f | f in files && files[f].key == k && Expired(files[f], cutoff)
  }

  predicate Duplicate(r: FileRow, tenant: Uuid, checksum: Digest) {
    r.tenant == tenant && r.checksum == checksum && Live(r)
  }

  // Row locks held by open transactions.

  predicate InTx(p: Phase) {
    p.Consumed? || p.Checked?
  }

  ghost predicate NonceFree(uploads: map<nat, InFlight>, n: Nonce) {
    forall u | u in uploads && InTx(uploads[u].phase) :: uploads[u].claims.nonce != n
  }

  ghost predicate CounterFree(s: State, t: Uuid) {
    && (forall u | u in s.uploads && s.uploads[u].phase.Checked? :: s.uploads[u].claims.tenant != t)
    && !(s.lock.Restoring? && s.lock.phase.Metered? && s.lock.file in s.files && s.files[s.lock.file].tenant == t)
  }

  // ---------------------------------------------------------------- metering

  function AddUsage(counters: map<Uuid, Counter>, t: Uuid, bytes: nat): map<Uuid, Counter> {
    if t in counters then counters[t := Counter(counters[t].used + bytes, counters[t].objects + 1)]
    else counters[t := Counter(bytes, 1)]
  }

  /** A restore updates the counter row only when there is one. */
  function CreditUsage(counters: map<Uuid, Counter>, t: Uuid, bytes: nat): map<Uuid, Counter> {
    if t in counters then counters[t := Counter(counters[t].used + bytes, counters[t].objects + 1)] else counters
  }

  function DropUsage(counters: map<Uuid, Counter>, t: Uuid, bytes: nat): map<Uuid, Counter> {
    if t in counters then
      counters[t := Counter(Max(0, counters[t].used - bytes), Max(0, counters[t].objects - 1))]
    else counters
  }

  // ---------------------------------------------------------------- steps: environment

  datatype EnvStep =
    | Tick(to: int)
    | CreateTenant(tenant: Uuid, quota: int)
    | Mint(nonce: Nonce, tenant: Uuid, policy: Policy, ttl: int)
    | Prune
    | Download(tenant: Uuid, bytes: nat)
    | VariantBlob(digest: string, blob: Option<Blob>)

  const GRANT_MIN_TTL := 30
  const GRANT_MAX_TTL := 3600
  const DAY := 86400

  /** Seconds a grant lives when `asked` were requested or, without a request, configured. */
  function GrantTtl(asked: int): int {
    Max(GRANT_MIN_TTL, Min(GRANT_MAX_TTL, asked))
  }

  function MintClaims(s: State, n: Nonce, t: Uuid, p: Policy, ttl: int): Claims {
    Claims(t, p.key, p.category, p.maxSize, p.types, n, s.now + GrantTtl(ttl), p.visibility)
  }

  ghost predicate EnvEnabled(s: State, a: EnvStep) {
    match a
    case Tick(to) => s.now <= to
    case CreateTenant(t, quota) => t !in s.quotas
    case Mint(n, t, p, ttl) => t in s.quotas && n !in s.minted && '/' !in p.category
    case Prune => true
    case Download(t, bytes) => t in s.quotas
    case VariantBlob(d, b) => true
  }

  /** Pruning waits for rows locked by an upload transaction. */
  ghost function Pruned(s: State): map<Nonce, GrantRow> {
    map n | n in s.grants &&
      (!NonceFree(s.uploads, n) || !(s.grants[n].consumed.Some? || s.grants[n].expires < s.now - DAY)) :: s.grants[n]
  }

  ghost function EnvApply(s: State, a: EnvStep): State
    requires EnvEnabled(s, a)
  {
    match a
    case Tick(to) => s.(now := to)
    case CreateTenant(t, quota) => s.(quotas := s.quotas[t := quota], counters := s.counters[t := Counter(0, 0)])
    case Mint(n, t, p, ttl) =>
      var claims := MintClaims(s, n, t, p, ttl);
      s.(minted := s.minted[n := claims], grants := s.grants[n := GrantRow(t, claims.exp, None)])
    case Prune => s.(grants := Pruned(s))
    case Download(t, bytes) => s.(events := s.events + [Event(t, Egress, bytes)])
    case VariantBlob(d, b) =>
      s.(blobs := if b.Some? then s.blobs[Variant(d) := b.value] else s.blobs - {Variant(d)})
  }

  // ---------------------------------------------------------------- steps: upload

  datatype UploadStep =
    | Receive(nonce: Nonce)
    | Stage(id: IdHex, bytes: Bytes, modified: int, contentType: string, year: nat, month: nat, ext: string)
    | Lookup(hit: Option<IdHex>)
    | DropOwn(ok: bool)
    | Open
    | Consume
    | CheckQuota
    | Commit
    | Fail
    | Cleanup(ok: bool)
    | Crash

  function SizeCap(c: Config, claims: Claims): nat {
    if claims.max <= c.maxUpload then claims.max else c.maxUpload
  }

  function StagedBy(claims: Claims, a: UploadStep): Staged
    requires a.Stage?
  {
    Staged(a.id, Original(StoredPath(claims.tenant, claims.category, a.year, a.month, a.id, a.ext)), a.contentType,
           |a.bytes|, Sha256(a.bytes), a.modified)
  }

  ghost predicate StageEnabled(c: Config, s: State, claims: Claims, a: UploadStep)
    requires a.Stage?
  {
    && a.id !in s.ids
    && a.modified <= s.now
    && 0 < |a.bytes| <= SizeCap(c, claims)
    && ContentTypes.MasterAllowed(c.allowed, a.contentType)
    && ContentTypes.PolicyAllowed(claims.types, a.contentType)
  }

  ghost predicate LookupEnabled(s: State, claims: Claims, st: Staged, hit: Option<IdHex>) {
    match hit
    case Some(f) => f in s.files && Duplicate(s.files[f], claims.tenant, st.checksum)
    case None => forall f | f in s.files :: !Duplicate(s.files[f], claims.tenant, st.checksum)
  }

  ghost predicate ConsumeEnabled(s: State, claims: Claims, started: int) {
    && claims.nonce in s.grants
    && s.grants[claims.nonce].tenant == claims.tenant
    && s.grants[claims.nonce].consumed.None?
    && s.grants[claims.nonce].expires > started
    && NonceFree(s.uploads, claims.nonce)
  }

  function Quota(s: State, t: Uuid): int {
    if t in s.quotas then s.quotas[t] else 0
  }

  function Used(s: State, t: Uuid): int {
    if t in s.counters then s.counters[t].used else 0
  }

  ghost predicate UploadEnabled(c: Config, s: State, u: nat, a: UploadStep) {
    if a.Receive? then u !in s.uploads && a.nonce in s.minted && s.minted[a.nonce].exp >= s.now
    else
      && u in s.uploads
      && var claims, p := s.uploads[u].claims, s.uploads[u].phase;
      match a
      case Stage(_, _, _, _, _, _, _) => p.Received? && StageEnabled(c, s, claims, a)
      case Lookup(hit) => p.Streamed? && LookupEnabled(s, claims, p.st, hit)
      case DropOwn(_) => p.Adopting?
      case Open => p.Ready?
      case Consume => p.Opened? && ConsumeEnabled(s, claims, p.started)
      case CheckQuota =>
        && p.Consumed? && Quota(s, claims.tenant) > 0 && CounterFree(s, claims.tenant)
        && Used(s, claims.tenant) + p.st.size <= Quota(s, claims.tenant)
      case Commit =>
        && claims.nonce in s.grants
        && (p.Checked? || (p.Consumed? && Quota(s, claims.tenant) <= 0 && CounterFree(s, claims.tenant)))
      case Fail => p.Opened? || p.Consumed? || p.Checked?
      case Cleanup(_) => p.Failed?
      case Crash => true
  }

  /** The row of an upload that staged `st` and commits on `key`. */
  function RowFor(claims: Claims, st: Staged, key: Key): FileRow {
    FileRow(claims.tenant, claims.policy, claims.category, key, st.contentType, st.size, st.checksum,
            claims.visibility, None)
  }

  function NewRow(claims: Claims, p: Phase): FileRow
    requires InTx(p)
  {
    RowFor(claims, p.st, p.key)
  }

  function LookupPhase(s: State, st: Staged, hit: Option<IdHex>): Phase
    requires hit.Some? ==> hit.value in s.files
  {
    if hit.Some? && s.files[hit.value].key != st.key then Adopting(st, s.files[hit.value].key)
    else Ready(st, st.key, true)
  }

  function WithPhase(s: State, u: nat, p: Phase): State
    requires u in s.uploads
  {
    s.(uploads := s.uploads[u := s.uploads[u].(phase := p)])
  }

  ghost function CommitApply(s: State, u: nat): State
    requires u in s.uploads && InTx(s.uploads[u].phase) && s.uploads[u].claims.nonce in s.grants
  {
    var claims, p := s.uploads[u].claims, s.uploads[u].phase;
    s.(files := s.files[p.st.id := NewRow(claims, p)],
       origin := s.origin[p.st.id := Origin(claims.nonce, p.started, s.now)],
       grants := s.grants[claims.nonce := s.grants[claims.nonce].(consumed := Some(p.started))],
       counters := AddUsage(s.counters, claims.tenant, p.st.size),
       events := s.events + [Event(claims.tenant, Upload, p.st.size)],
       uploads := s.uploads - {u})
  }

  ghost function UploadApply(c: Config, s: State, u: nat, a: UploadStep): State
    requires UploadEnabled(c, s, u, a)
  {
    if a.Receive? then s.(uploads := s.uploads[u := InFlight(s.minted[a.nonce], Received)])
    else
      var claims, p := s.uploads[u].claims, s.uploads[u].phase;
      match a
      case Stage(id, bytes, modified, _, _, _, _) =>
        var st := StagedBy(claims, a);
        WithPhase(s, u, Streamed(st)).(
          blobs := s.blobs[st.key := Blob(bytes, modified)],
          written := s.written[st.key := Blob(bytes, modified)],
          ids := s.ids + {id})
      case Lookup(hit) => WithPhase(s, u, LookupPhase(s, p.st, hit))
      case DropOwn(ok) =>
        WithPhase(s, u, Ready(p.st, p.key, false)).(blobs := if ok then s.blobs - {p.st.key} else s.blobs)
      case Open => WithPhase(s, u, Opened(p.st, p.key, p.wroteNew, s.now))
      case Consume => WithPhase(s, u, Consumed(p.st, p.key, p.wroteNew, p.started))
      case CheckQuota => WithPhase(s, u, Checked(p.st, p.key, p.wroteNew, p.started, Used(s, claims.tenant)))
      case Commit => CommitApply(s, u)
      case Fail => WithPhase(s, u, Failed(p.st, p.key, p.wroteNew))
      case Cleanup(ok) =>
        s.(uploads := s.uploads - {u}, blobs := if p.wroteNew && ok then s.blobs - {p.key} else s.blobs)
      case Crash => s.(uploads := s.uploads - {u})
  }

  // ---------------------------------------------------------------- steps: delete and restore

  datatype RowStep =
    | DeleteFile(file: IdHex, started: int)
    | RestoreLock(file: IdHex)
    | RestoreMark
    | RestoreStat
    | RestoreQuota
    | RestoreCommit
    | RestoreAbort

  ghost predicate RestoreEnabled(s: State, f: IdHex, p: RestorePhase, a: RowStep) {
    match a
    case RestoreMark => p.Waiting? && f in s.files && !Live(s.files[f])
    case RestoreStat => p.Marked? && f in s.files && s.files[f].key in s.blobs
    case RestoreQuota =>
      && p.Verified? && f in s.files && Quota(s, s.files[f].tenant) > 0 && CounterFree(s, s.files[f].tenant)
      && Used(s, s.files[f].tenant) + s.files[f].size <= Quota(s, s.files[f].tenant)
    case RestoreCommit =>
      && f in s.files
      && (p.Metered? || (p.Verified? && Quota(s, s.files[f].tenant) <= 0 && CounterFree(s, s.files[f].tenant)))
    case _ => true
  }

  /** A request that deletes a file names its reference, which is given out once the row is committed. */
  ghost predicate RowEnabled(s: State, a: RowStep) {
    match a
    case DeleteFile(f, started) =>
      && f in s.files && Live(s.files[f]) && CounterFree(s, s.files[f].tenant)
      && f in s.origin && s.origin[f].committed <= started <= s.now
    case RestoreLock(_) => s.lock.Free?
    case _ => s.lock.Restoring? && RestoreEnabled(s, s.lock.file, s.lock.phase, a)
  }

  ghost function RowApply(s: State, a: RowStep): State
    requires RowEnabled(s, a)
  {
    match a
    case DeleteFile(f, started) =>
      var r := s.files[f];
      s.(files := s.files[f := r.(deletedAt := Some(started))],
         counters := DropUsage(s.counters, r.tenant, r.size),
         events := s.events + [Event(r.tenant, Delete, r.size)])
    case RestoreLock(f) => s.(lock := Restoring(f, Waiting))
    case RestoreMark => s.(lock := Restoring(s.lock.file, Marked))
    case RestoreStat => s.(lock := Restoring(s.lock.file, Verified))
    case RestoreQuota => s.(lock := Restoring(s.lock.file, Metered(Used(s, s.files[s.lock.file].tenant))))
    case RestoreCommit =>
      var f := s.lock.file;
      var r := s.files[f];
      s.(files := s.files[f := r.(deletedAt := None)],
         counters := CreditUsage(s.counters, r.tenant, r.size),
         events := s.events + [Event(r.tenant, Restore, r.size)],
         lock := Free)
    case RestoreAbort => s.(lock := Free)
  }

  // ---------------------------------------------------------------- steps: collection

  datatype GcStep =
    | GcStart(tenant: Option<Uuid>, cutoff: int)
    | GcCount(key: Key)
    | GcDelete
    | GcPurge
    | GcCommit
    | GcAbort

  ghost predicate GcEnabled(s: State, a: GcStep) {
    match a
    case GcStart(_, cutoff) => s.lock.Free? && cutoff <= s.now
    case _ =>
      && s.lock.Sweeping?
      && var w := s.lock.sweep;
      match a
      case GcCount(k) => w.phase.Idle? && k in w.todo
      case GcDelete => w.phase.Deleting?
      case GcPurge => w.phase.Purging?
      case GcCommit => w.phase.Idle? && w.todo == {}
      case _ => true
  }

  ghost function GcApply(s: State, a: GcStep): State
    requires GcEnabled(s, a)
  {
    match a
    case GcStart(t, cutoff) => s.(lock := Sweeping(Sweep(cutoff, Candidates(s.files, t, cutoff), {}, Idle)))
    case GcCount(k) =>
      s.(lock := Sweeping(s.lock.sweep.(phase := if NoLive(s.files, k) then Deleting(k) else Purging(k))))
    case GcDelete =>
      var k := s.lock.sweep.phase.key;
      s.(lock := Sweeping(s.lock.sweep.(phase := Purging(k))), blobs := s.blobs - {k})
    case GcPurge =>
      var w := s.lock.sweep;
      s.(lock := Sweeping(w.(todo := w.todo - {w.phase.key}, phase := Idle,
                             purged := w.purged + PurgeSet(s.files, w.phase.key, w.cutoff))))
    case GcCommit => s.(files := s.files - s.lock.sweep.purged, lock := Free)
    case GcAbort => s.(lock := Free)
  }

  // ---------------------------------------------------------------- steps: reconciliation

  datatype RecStep =
    | RecStart(requested: Option<nat>)
    | RecList(key: Key, stamped: bool)
    | RecSnapshot
    | RecClock
    | RecCheck(key: Key)
    | RecDelete(dryRun: bool)
    | RecEnd

  const RECONCILE_DEFAULT_GRACE := 3600
  const RECONCILE_MIN_GRACE := 60

  function Grace(requested: Option<nat>): int {
    Max(if requested.Some? then requested.value else RECONCILE_DEFAULT_GRACE, RECONCILE_MIN_GRACE)
  }

  /** Listed with a timestamp, and that at least `grace` seconds before `now`. */
  predicate OldEnough(entries: map<Key, Option<int>>, k: Key, now: int, grace: int) {
    k in entries && entries[k].Some? && entries[k].value <= now && now - entries[k].value >= grace
  }

  ghost predicate RecEnabled(s: State, r: nat, a: RecStep) {
    if a.RecStart? then r !in s.recs
    else
      && r in s.recs
      && var p := s.recs[r].phase;
      match a
      case RecList(k, _) => p.Listing? && k in s.blobs && k.Original?
      case RecSnapshot => p.Listing?
      case RecClock => p.Snapped?
      case RecCheck(k) =>
        && p.Checking? && k !in p.referenced
        && OldEnough(s.recs[r].entries, k, p.now, s.recs[r].grace)
        && NoRow(s.files, k)
      case RecDelete(_) => p.Removing?
      case _ => true
  }

  ghost function ReferencedKeys(files: map<IdHex, FileRow>): set<Key> {
    set f | f in files :: files[f].key
  }

  ghost function RecApply(s: State, r: nat, a: RecStep): State
    requires RecEnabled(s, r, a)
  {
    if a.RecStart? then s.(recs := s.recs[r := Reconcile(Grace(a.requested), map[], Listing)])
    else
      var rec := s.recs[r];
      var p := rec.phase;
      match a
      case RecList(k, stamped) =>
        s.(recs := s.recs[r := rec.(entries := rec.entries[k := if stamped then Some(s.blobs[k].modified) else None])])
      case RecSnapshot => s.(recs := s.recs[r := rec.(phase := Snapped(ReferencedKeys(s.files)))])
      case RecClock => s.(recs := s.recs[r := rec.(phase := Checking(p.referenced, s.now))])
      case RecCheck(k) => s.(recs := s.recs[r := rec.(phase := Removing(p.referenced, p.now, k))])
      case RecDelete(dryRun) =>
        s.(recs := s.recs[r := rec.(phase := Checking(p.referenced, p.now))],
           blobs := if dryRun then s.blobs else s.blobs - {p.key})
      case _ => s.(recs := s.recs - {r})
  }

  // ---------------------------------------------------------------- runs

  datatype Step =
    | Env(env: EnvStep)
    | Up(u: nat, up: UploadStep)
    | Row(row: RowStep)
    | Gc(gc: GcStep)
    | Rec(r: nat, rec: RecStep)

  ghost predicate Enabled(c: Config, s: State, a: Step) {
    match a
    case Env(x) => EnvEnabled(s, x)
    case Up(u, x) => UploadEnabled(c, s, u, x)
    case Row(x) => RowEnabled(s, x)
    case Gc(x) => GcEnabled(s, x)
    case Rec(r, x) => RecEnabled(s, r, x)
  }

  ghost function Apply(c: Config, s: State, a: Step): State
    requires Enabled(c, s, a)
  {
    match a
    case Env(x) => EnvApply(s, x)
    case Up(u, x) => UploadApply(c, s, u, x)
    case Row(x) => RowApply(s, x)
    case Gc(x) => GcApply(s, x)
    case Rec(r, x) => RecApply(s, r, x)
  }
}
