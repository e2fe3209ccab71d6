/**
 * Metering: in every state of every run the counter row of a tenant agrees with its live rows
 * and with the event ledger, and stays within a fixed quota.
 */
module LifecycleAccounts {
  import opened Basics
  import opened Keys
  import opened Lifecycle
  import opened LifecycleBase
  import opened Tally

  /** Counter, live rows and ledger of one tenant agree. */
  ghost predicate Balanced(counter: Counter, files: map<IdHex, FileRow>, events: seq<Event>, t: Uuid) {
    && counter.used == Total(files, t, InBytes)
    && counter.used == Ledger(events, t)
    && counter.objects == Total(files, t, InObjects)
  }

  ghost predicate BooksOk(counters: map<Uuid, Counter>, files: map<IdHex, FileRow>, events: seq<Event>) {
    forall t | t in counters :: Balanced(counters[t], files, events, t)
  }

  /** Everything metered belongs to a tenant with a counter row. */
  ghost predicate TenantsOk(s: State) {
    && s.counters.Keys == s.quotas.Keys
    && (forall f | f in s.files :: s.files[f].tenant in s.counters)
    && (forall e | e in s.events :: e.tenant in s.counters)
    && (forall n | n in s.minted :: s.minted[n].tenant in s.counters)
    && (forall u | u in s.uploads :: s.uploads[u].claims.tenant in s.counters)
  }

  /** A restore works on a tombstone, and a sweep purges tombstones only. */
  ghost predicate LockOk(lock: Lock, files: map<IdHex, FileRow>) {
    && (lock.Restoring? && !lock.phase.Waiting? ==> lock.file in files && !Live(files[lock.file]))
    && (lock.Sweeping? ==> forall f | f in lock.sweep.purged :: f in files && !Live(files[f]))
  }

  /** A transaction that has read the counter under its row lock. */
  ghost predicate Reserved(s: State, t: Uuid, seen: int, size: nat) {
    && t in s.counters && t in s.quotas && s.quotas[t] > 0
    && seen == s.counters[t].used
    && seen + size <= s.quotas[t]
  }

  ghost predicate ReservationsOk(s: State) {
    && (forall u | u in s.uploads && s.uploads[u].phase.Checked? ::
          Reserved(s, s.uploads[u].claims.tenant, s.uploads[u].phase.seen, s.uploads[u].phase.st.size))
    && (s.lock.Restoring? && s.lock.phase.Metered? && s.lock.file in s.files ==>
          Reserved(s, s.files[s.lock.file].tenant, s.lock.phase.seen, s.files[s.lock.file].size))
  }

  /** The counter row lock has one holder. */
  ghost predicate MutexOk(s: State) {
    && (forall u, v | u in s.uploads && v in s.uploads && u != v &&
                      s.uploads[u].phase.Checked? && s.uploads[v].phase.Checked? ::
          s.uploads[u].claims.tenant != s.uploads[v].claims.tenant)
    && (forall u | u in s.uploads && s.uploads[u].phase.Checked? &&
                   s.lock.Restoring? && s.lock.phase.Metered? && s.lock.file in s.files ::
          s.uploads[u].claims.tenant != s.files[s.lock.file].tenant)
  }

  ghost predicate QuotaOk(s: State) {
    forall t | t in s.counters && t in s.quotas && s.quotas[t] > 0 :: s.counters[t].used <= s.quotas[t]
  }

  ghost predicate Accounts(s: State) {
    && BooksOk(s.counters, s.files, s.events)
    && TenantsOk(s)
    && LockOk(s.lock, s.files)
    && ReservationsOk(s)
    && MutexOk(s)
    && QuotaOk(s)
  }

  // ---------------------------------------------------------------- books

  lemma BooksAfterCommit(counters: map<Uuid, Counter>, files: map<IdHex, FileRow>, events: seq<Event>,
                         f: IdHex, r: FileRow)
    requires BooksOk(counters, files, events) && r.tenant in counters && f !in files && Live(r)
    ensures BooksOk(AddUsage(counters, r.tenant, r.size), files[f := r], events + [Event(r.tenant, Upload, r.size)])
  {
    var counters', e := AddUsage(counters, r.tenant, r.size), Event(r.tenant, Upload, r.size);
    forall t | t in counters'
      ensures Balanced(counters'[t], files[f := r], events + [e], t)
    {
      TotalInsert(files, t, InBytes, f, r);
      TotalInsert(files, t, InObjects, f, r);
      LedgerAppend(events, t, e);
      assert Balanced(counters[t], files, events, t);
    }
  }

  /** The clamps of a delete never bite: the counter covers the row it gives back. */
  lemma DeleteIsCovered(counters: map<Uuid, Counter>, files: map<IdHex, FileRow>, events: seq<Event>, f: IdHex)
    requires BooksOk(counters, files, events) && f in files && Live(files[f]) && files[f].tenant in counters
    ensures counters[files[f].tenant].used >= files[f].size && counters[files[f].tenant].objects >= 1
    ensures DropUsage(counters, files[f].tenant, files[f].size) ==
            counters[files[f].tenant := Counter(counters[files[f].tenant].used - files[f].size,
                                                counters[files[f].tenant].objects - 1)]
  {
    TotalSplit(files, files[f].tenant, InBytes, f);
    TotalSplit(files, files[f].tenant, InObjects, f);
    assert Balanced(counters[files[f].tenant], files, events, files[f].tenant);
  }

  lemma BooksAfterDelete(counters: map<Uuid, Counter>, files: map<IdHex, FileRow>, events: seq<Event>,
                         f: IdHex, started: int)
    requires BooksOk(counters, files, events) && f in files && Live(files[f]) && files[f].tenant in counters
    ensures BooksOk(DropUsage(counters, files[f].tenant, files[f].size),
                    files[f := files[f].(deletedAt := Some(started))],
                    events + [Event(files[f].tenant, Delete, files[f].size)])
  {
    DeleteIsCovered(counters, files, events, f);
    var r, e := files[f].(deletedAt := Some(started)), Event(files[f].tenant, Delete, files[f].size);
    forall t | t in counters
      ensures Balanced(DropUsage(counters, files[f].tenant, files[f].size)[t], files[f := r], events + [e], t)
    {
      TotalUpdate(files, t, InBytes, f, r);
      TotalUpdate(files, t, InObjects, f, r);
      LedgerAppend(events, t, e);
      assert Balanced(counters[t], files, events, t);
    }
  }

  lemma BooksAfterRestore(counters: map<Uuid, Counter>, files: map<IdHex, FileRow>, events: seq<Event>, f: IdHex)
    requires BooksOk(counters, files, events) && f in files && !Live(files[f]) && files[f].tenant in counters
    ensures BooksOk(CreditUsage(counters, files[f].tenant, files[f].size),
                    files[f := files[f].(deletedAt := None)],
                    events + [Event(files[f].tenant, Restore, files[f].size)])
  {
    var r, e := files[f].(deletedAt := None), Event(files[f].tenant, Restore, files[f].size);
    forall t | t in counters
      ensures Balanced(CreditUsage(counters, files[f].tenant, files[f].size)[t], files[f := r], events + [e], t)
    {
      TotalUpdate(files, t, InBytes, f, r);
      TotalUpdate(files, t, InObjects, f, r);
      LedgerAppend(events, t, e);
      assert Balanced(counters[t], files, events, t);
    }
  }

  lemma BooksAfterPurge(counters: map<Uuid, Counter>, files: map<IdHex, FileRow>, events: seq<Event>, dead: set<IdHex>)
    requires BooksOk(counters, files, events) && forall f | f in dead :: f in files && !Live(files[f])
    ensures BooksOk(counters, files - dead, events)
  {
    forall t | t in counters
      ensures Balanced(counters[t], files - dead, events, t)
    {
      TotalPurge(files, t, InBytes, dead);
      TotalPurge(files, t, InObjects, dead);
    }
  }

  lemma BooksAfterTenant(s: State, t: Uuid)
    requires BooksOk(s.counters, s.files, s.events) && TenantsOk(s) && t !in s.counters
    ensures BooksOk(s.counters[t := Counter(0, 0)], s.files, s.events)
  {
    TotalOfStranger(s.files, t, InBytes);
    TotalOfStranger(s.files, t, InObjects);
    LedgerOfStranger(s.events, t);
  }

  // ---------------------------------------------------------------- row locks

  /** Nobody else holds the counter row of `t`. */
  ghost predicate OnlyHolder(s: State, u: nat, t: Uuid) {
    && (forall v | v in s.uploads && v != u && s.uploads[v].phase.Checked? :: s.uploads[v].claims.tenant != t)
    && !(s.lock.Restoring? && s.lock.phase.Metered? && s.lock.file in s.files && s.files[s.lock.file].tenant == t)
  }

  ghost predicate SameBut(counters: map<Uuid, Counter>, counters': map<Uuid, Counter>, t: Uuid) {
    forall x | x in counters && x != t :: x in counters' && counters'[x] == counters[x]
  }

  lemma ReservationsAfterCommit(s: State, s': State, u: nat, t: Uuid, f: IdHex, r: FileRow)
    requires ReservationsOk(s) && OnlyHolder(s, u, t) && f !in s.files && LockOk(s.lock, s.files)
    requires s'.quotas == s.quotas && s'.lock == s.lock && s'.uploads == s.uploads - {u} && s'.files == s.files[f := r]
    requires SameBut(s.counters, s'.counters, t)
    ensures ReservationsOk(s')
  {
  }

  lemma MutexAfterCommit(s: State, s': State, u: nat, f: IdHex, r: FileRow)
    requires MutexOk(s) && f !in s.files && LockOk(s.lock, s.files)
    requires s'.lock == s.lock && s'.uploads == s.uploads - {u} && s'.files == s.files[f := r]
    ensures MutexOk(s')
  {
  }

  lemma QuotaAfterCommit(s: State, s': State, t: Uuid, size: nat)
    requires QuotaOk(s) && t in s.counters && s'.quotas == s.quotas
    requires s'.counters == AddUsage(s.counters, t, size)
    requires Quota(s, t) <= 0 || s.counters[t].used + size <= Quota(s, t)
    ensures QuotaOk(s')
  {
  }

  lemma TenantsAfterCommit(s: State, s': State, u: nat, f: IdHex, r: FileRow, e: Event)
    requires TenantsOk(s) && r.tenant in s.counters && e.tenant == r.tenant
    requires s'.quotas == s.quotas && s'.counters.Keys == s.counters.Keys && s'.minted == s.minted
    requires s'.files == s.files[f := r] && s'.events == s.events + [e] && s'.uploads == s.uploads - {u}
    ensures TenantsOk(s')
  {
  }

  // ---------------------------------------------------------------- steps

  lemma AccountsTenant(s: State, a: EnvStep)
    requires Accounts(s) && EnvEnabled(s, a) && a.CreateTenant?
    ensures Accounts(EnvApply(s, a))
  {
    BooksAfterTenant(s, a.tenant);
  }

  lemma AccountsMint(s: State, a: EnvStep)
    requires Accounts(s) && EnvEnabled(s, a) && a.Mint?
    ensures Accounts(EnvApply(s, a))
  {
  }

  lemma AccountsDownload(s: State, a: EnvStep)
    requires Accounts(s) && EnvEnabled(s, a) && a.Download?
    ensures Accounts(EnvApply(s, a))
  {
  }

  lemma AccountsEnv(s: State, a: EnvStep)
    requires Accounts(s) && EnvEnabled(s, a)
    ensures Accounts(EnvApply(s, a))
  {
    if a.CreateTenant? {
      AccountsTenant(s, a);
    } else if a.Mint? {
      AccountsMint(s, a);
    } else if a.Download? {
      AccountsDownload(s, a);
    } else {
      AccountsFrame(s, EnvApply(s, a));
    }
  }

  /** The store, the clock, the grants and reconciliation do not enter the accounts. */
  lemma AccountsFrame(s: State, t: State)
    requires Accounts(s)
    requires t.quotas == s.quotas && t.counters == s.counters && t.events == s.events && t.files == s.files
    requires t.minted == s.minted && t.uploads == s.uploads && t.lock == s.lock
    ensures Accounts(t)
  {
  }

  lemma AccountsMove(s: State, u: nat, p: Phase)
    requires Accounts(s) && u in s.uploads
    requires p.Checked? ==>
               && CounterFree(s, s.uploads[u].claims.tenant)
               && Reserved(s, s.uploads[u].claims.tenant, p.seen, p.st.size)
    ensures Accounts(WithPhase(s, u, p))
  {
  }

  lemma AccountsForget(s: State, u: nat)
    requires Accounts(s)
    ensures Accounts(s.(uploads := s.uploads - {u}))
  {
  }

  /** What a committing upload knows about the counter row. */
  lemma CommitHoldsCounter(s: State, u: nat)
    requires ReservationsOk(s) && MutexOk(s) && u in s.uploads && InTx(s.uploads[u].phase)
    requires s.uploads[u].phase.Checked? ||
             (Quota(s, s.uploads[u].claims.tenant) <= 0 && CounterFree(s, s.uploads[u].claims.tenant))
    ensures OnlyHolder(s, u, s.uploads[u].claims.tenant)
    ensures Quota(s, s.uploads[u].claims.tenant) <= 0 ||
            Used(s, s.uploads[u].claims.tenant) + s.uploads[u].phase.st.size <= Quota(s, s.uploads[u].claims.tenant)
  {
  }

  lemma AccountsCommit(s: State, u: nat)
    requires Base(s) && Accounts(s) && u in s.uploads && InTx(s.uploads[u].phase) &&
               s.uploads[u].claims.nonce in s.grants
    requires s.uploads[u].phase.Checked? ||
             (Quota(s, s.uploads[u].claims.tenant) <= 0 && CounterFree(s, s.uploads[u].claims.tenant))
    ensures Accounts(CommitApply(s, u))
  {
    var claims, p := s.uploads[u].claims, s.uploads[u].phase;
    var f, r, t := p.st.id, NewRow(claims, p), CommitApply(s, u);
    assert OwnUnreferenced(p, s.files);
    CommitHoldsCounter(s, u);
    BooksAfterCommit(s.counters, s.files, s.events, f, r);
    CommitParts(s, t, u, claims.tenant, p.st.size, f, r);
  }

  lemma CommitParts(s: State, t: State, u: nat, tenant: Uuid, size: nat, f: IdHex, r: FileRow)
    requires TenantsOk(s) && LockOk(s.lock, s.files) && ReservationsOk(s) && MutexOk(s) && QuotaOk(s)
    requires OnlyHolder(s, u, tenant) && tenant in s.counters && r.tenant == tenant && f !in s.files
    requires Quota(s, tenant) <= 0 || Used(s, tenant) + size <= Quota(s, tenant)
    requires t.quotas == s.quotas && t.lock == s.lock && t.minted == s.minted && t.uploads == s.uploads - {u}
    requires t.files == s.files[f := r] && t.events == s.events + [Event(tenant, Upload, size)]
    requires t.counters == AddUsage(s.counters, tenant, size)
    ensures TenantsOk(t) && LockOk(t.lock, t.files) && ReservationsOk(t) && MutexOk(t) && QuotaOk(t)
  {
    ReservationsAfterCommit(s, t, u, tenant, f, r);
    MutexAfterCommit(s, t, u, f, r);
    QuotaAfterCommit(s, t, tenant, size);
    TenantsAfterCommit(s, t, u, f, r, Event(tenant, Upload, size));
  }

  lemma AccountsReceive(c: Config, s: State, u: nat, a: UploadStep)
    requires Accounts(s) && UploadEnabled(c, s, u, a) && a.Receive?
    ensures Accounts(UploadApply(c, s, u, a))
  {
  }

  lemma AccountsStage(c: Config, s: State, u: nat, a: UploadStep)
    requires Accounts(s) && UploadEnabled(c, s, u, a) && a.Stage?
    ensures Accounts(UploadApply(c, s, u, a))
  {
    var p := Streamed(StagedBy(s.uploads[u].claims, a));
    AccountsMove(s, u, p);
    AccountsFrame(WithPhase(s, u, p), UploadApply(c, s, u, a));
  }

  lemma AccountsDropOwn(c: Config, s: State, u: nat, a: UploadStep)
    requires Accounts(s) && UploadEnabled(c, s, u, a) && a.DropOwn?
    ensures Accounts(UploadApply(c, s, u, a))
  {
    var p := DropIsPhase(c, s, u, a);
    AccountsMove(s, u, p);
    AccountsFrame(WithPhase(s, u, p), UploadApply(c, s, u, a));
  }

  lemma AccountsCheck(c: Config, s: State, u: nat, a: UploadStep)
    requires Accounts(s) && UploadEnabled(c, s, u, a) && a.CheckQuota?
    ensures Accounts(UploadApply(c, s, u, a))
  {
    var claims, p := s.uploads[u].claims, s.uploads[u].phase;
    AccountsMove(s, u, Checked(p.st, p.key, p.wroteNew, p.started, Used(s, claims.tenant)));
  }

  lemma AccountsTx(c: Config, s: State, u: nat, a: UploadStep)
    requires Accounts(s) && UploadEnabled(c, s, u, a) && (a.Open? || a.Consume? || a.Fail?)
    ensures Accounts(UploadApply(c, s, u, a))
  {
    var p := MoveIsPhase(c, s, u, a);
    AccountsMove(s, u, p);
  }

  lemma AccountsLookup(c: Config, s: State, u: nat, a: UploadStep)
    requires Accounts(s) && UploadEnabled(c, s, u, a) && a.Lookup?
    ensures Accounts(UploadApply(c, s, u, a))
  {
    AccountsMove(s, u, LookupPhase(s, s.uploads[u].phase.st, a.hit));
  }

  lemma AccountsBegin(c: Config, s: State, u: nat, a: UploadStep)
    requires Base(s) && Accounts(s) && UploadEnabled(c, s, u, a)
    requires a.Receive? || a.Stage? || a.DropOwn? || a.CheckQuota?
    ensures Accounts(UploadApply(c, s, u, a))
  {
    if a.Receive? {
      AccountsReceive(c, s, u, a);
    } else if a.Stage? {
      AccountsStage(c, s, u, a);
    } else if a.DropOwn? {
      AccountsDropOwn(c, s, u, a);
    } else {
      AccountsCheck(c, s, u, a);
    }
  }

  lemma AccountsEnd(c: Config, s: State, u: nat, a: UploadStep)
    requires Accounts(s) && UploadEnabled(c, s, u, a) && (a.Cleanup? || a.Crash?)
    ensures Accounts(UploadApply(c, s, u, a))
  {
    AccountsForget(s, u);
    AccountsFrame(s.(uploads := s.uploads - {u}), UploadApply(c, s, u, a));
  }

  lemma AccountsUpload(c: Config, s: State, u: nat, a: UploadStep)
    requires Base(s) && Accounts(s) && UploadEnabled(c, s, u, a)
    ensures Accounts(UploadApply(c, s, u, a))
  {
    if a.Receive? || a.Stage? || a.DropOwn? || a.CheckQuota? {
      AccountsBegin(c, s, u, a);
    } else if a.Commit? {
      AccountsCommit(s, u);
    } else if a.Cleanup? || a.Crash? {
      AccountsEnd(c, s, u, a);
    } else if a.Lookup? {
      AccountsLookup(c, s, u, a);
    } else {
      AccountsTx(c, s, u, a);
    }
  }

  lemma AccountsDelete(s: State, a: RowStep)
    requires Accounts(s) && RowEnabled(s, a) && a.DeleteFile?
    ensures Accounts(RowApply(s, a))
  {
    DeleteIsCovered(s.counters, s.files, s.events, a.file);
    BooksAfterDelete(s.counters, s.files, s.events, a.file, a.started);
    AccountsAfterDelete(s, RowApply(s, a), a.file, a.started);
  }

  lemma AccountsAfterDelete(s: State, t: State, f: IdHex, started: int)
    requires Accounts(s) && f in s.files && Live(s.files[f]) && CounterFree(s, s.files[f].tenant)
    requires s.files[f].tenant in s.counters && s.counters[s.files[f].tenant].used - s.files[f].size >= 0
    requires var r := s.files[f];
             t == s.(files := s.files[f := r.(deletedAt := Some(started))],
                     counters := DropUsage(s.counters, r.tenant, r.size), events := t.events)
    requires BooksOk(t.counters, t.files, t.events) && forall e | e in t.events :: e.tenant in s.counters
    ensures Accounts(t)
  {
    LocksAfterDelete(s, t, f);
    BalancesAfterDelete(s, t, f);
  }

  lemma LocksAfterDelete(s: State, t: State, f: IdHex)
    requires LockOk(s.lock, s.files) && ReservationsOk(s) && MutexOk(s)
    requires f in s.files && Live(s.files[f]) && CounterFree(s, s.files[f].tenant)
    requires f in t.files && !Live(t.files[f])
    requires t.files == s.files[f := s.files[f].(deletedAt := t.files[f].deletedAt)]
    requires t.uploads == s.uploads && t.lock == s.lock && t.quotas == s.quotas
    requires SameBut(s.counters, t.counters, s.files[f].tenant)
    ensures LockOk(t.lock, t.files) && ReservationsOk(t) && MutexOk(t)
  {
  }

  lemma BalancesAfterDelete(s: State, t: State, f: IdHex)
    requires TenantsOk(s) && QuotaOk(s) && f in s.files && s.files[f].tenant in s.counters
    requires s.counters[s.files[f].tenant].used - s.files[f].size >= 0
    requires f in t.files && t.files == s.files[f := s.files[f].(deletedAt := t.files[f].deletedAt)]
    requires t.counters == DropUsage(s.counters, s.files[f].tenant, s.files[f].size) && t.quotas == s.quotas
    requires t.uploads == s.uploads && t.minted == s.minted && forall e | e in t.events :: e.tenant in s.counters
    ensures TenantsOk(t) && QuotaOk(t)
  {
  }

  lemma AccountsRestore(s: State, a: RowStep)
    requires Accounts(s) && RowEnabled(s, a) && a.RestoreCommit?
    ensures Accounts(RowApply(s, a))
  {
    BooksAfterRestore(s.counters, s.files, s.events, s.lock.file);
    AccountsAfterRestore(s, RowApply(s, a));
  }

  lemma AccountsAfterRestore(s: State, t: State)
    requires Accounts(s) && s.lock.Restoring? && s.lock.file in s.files && !s.lock.phase.Waiting?
    requires s.lock.phase.Metered? || (Quota(s, s.files[s.lock.file].tenant) <= 0 &&
               CounterFree(s, s.files[s.lock.file].tenant))
    requires var r := s.files[s.lock.file];
             t == s.(files := s.files[s.lock.file := r.(deletedAt := None)], lock := Free,
                     counters := CreditUsage(s.counters, r.tenant, r.size), events := t.events)
    requires BooksOk(t.counters, t.files, t.events) && forall e | e in t.events :: e.tenant in s.counters
    ensures Accounts(t)
  {
  }

  lemma AccountsRow(s: State, a: RowStep)
    requires Accounts(s) && RowEnabled(s, a)
    ensures Accounts(RowApply(s, a))
  {
    if a.DeleteFile? {
      AccountsDelete(s, a);
    } else if a.RestoreCommit? {
      AccountsRestore(s, a);
    }
  }

  lemma AccountsGc(s: State, a: GcStep)
    requires Accounts(s) && GcEnabled(s, a)
    ensures Accounts(GcApply(s, a))
  {
    if a.GcCommit? {
      BooksAfterPurge(s.counters, s.files, s.events, s.lock.sweep.purged);
    }
  }

  lemma AccountsRec(s: State, r: nat, a: RecStep)
    requires Accounts(s) && RecEnabled(s, r, a)
    ensures Accounts(RecApply(s, r, a))
  {
    AccountsFrame(s, RecApply(s, r, a));
  }

  lemma AccountsStep(c: Config, s: State, a: Step)
    requires Base(s) && Accounts(s) && Enabled(c, s, a)
    ensures Accounts(Apply(c, s, a))
  {
    match a
    case Env(x) => AccountsEnv(s, x);
    case Up(u, x) => AccountsUpload(c, s, u, x);
    case Row(x) => AccountsRow(s, x);
    case Gc(x) => AccountsGc(s, x);
    case Rec(r, x) => AccountsRec(s, r, x);
  }
}
