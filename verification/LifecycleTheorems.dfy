/** The main results about the file lifecycle, over every run. */
module LifecycleTheorems {
  import opened Basics
  import opened Keys
  import opened Lifecycle
  import opened LifecycleBase
  import opened LifecycleTracked
  import opened LifecycleSafety
  import opened LifecycleAccounts
  import opened LifecycleGrants
  import opened Tally
  import ContentTypes

  /** `steps` lead from `s` to `t`, and every one of them respects what `care` says. */
  ghost predicate Runs(c: Config, care: Care, s: State, steps: seq<Step>, t: State)
    decreases |steps|
  {
    if steps == [] then s == t
    else
      && Enabled(c, s, steps[0]) && Respects(c, care, s, steps[0])
      && Runs(c, care, Apply(c, s, steps[0]), steps[1..], t)
  }

  /** Runs of every kind. */
  const ANY := Care(false, false, false, false)

  predicate Implies(care: Care, weaker: Care) {
    && (weaker.count ==> care.count) && (weaker.purge ==> care.purge)
    && (weaker.settles ==> care.settles) && (weaker.grace ==> care.grace)
  }

  lemma {:induction false} RunsWeaken(c: Config, care: Care, weaker: Care, s: State, steps: seq<Step>, t: State)
    requires Runs(c, care, s, steps, t) && Implies(care, weaker)
    ensures Runs(c, weaker, s, steps, t)
    decreases |steps|
  {
    if steps == [] {
    } else {
      RunsWeaken(c, care, weaker, Apply(c, s, steps[0]), steps[1..], t);
    }
  }

  // ---------------------------------------------------------------- every run

  lemma {:induction false} RunKeepsBase(c: Config, care: Care, s: State, steps: seq<Step>, t: State)
    requires Base(s) && Runs(c, care, s, steps, t)
    ensures Base(t)
    decreases |steps|
  {
    if steps == [] {
    } else {
      BaseStep(c, s, steps[0]);
      RunKeepsBase(c, care, Apply(c, s, steps[0]), steps[1..], t);
    }
  }

  lemma {:induction false} RunKeepsDates(c: Config, care: Care, s: State, steps: seq<Step>, t: State)
    requires Dated(s) && Runs(c, care, s, steps, t)
    ensures Dated(t)
    decreases |steps|
  {
    if steps == [] {
    } else {
      DatedStep(c, s, steps[0]);
      RunKeepsDates(c, care, Apply(c, s, steps[0]), steps[1..], t);
    }
  }

  lemma {:induction false} RunKeepsAccounts(c: Config, care: Care, s: State, steps: seq<Step>, t: State)
    requires Base(s) && Accounts(s) && Runs(c, care, s, steps, t)
    ensures Accounts(t)
    decreases |steps|
  {
    if steps == [] {
    } else {
      BaseStep(c, s, steps[0]);
      AccountsStep(c, s, steps[0]);
      RunKeepsAccounts(c, care, Apply(c, s, steps[0]), steps[1..], t);
    }
  }

  lemma {:induction false} RunKeepsGrants(c: Config, care: Care, s: State, steps: seq<Step>, t: State)
    requires Base(s) && Grants(c, s) && Runs(c, care, s, steps, t)
    ensures Grants(c, t)
    decreases |steps|
  {
    if steps == [] {
    } else {
      BaseStep(c, s, steps[0]);
      GrantsStep(c, s, steps[0]);
      RunKeepsGrants(c, care, Apply(c, s, steps[0]), steps[1..], t);
    }
  }

  lemma {:induction false} RunKeepsTracked(c: Config, care: Care, s: State, steps: seq<Step>, t: State)
    requires Base(s) && Tracked(c, s) && Runs(c, care, s, steps, t)
    requires care.purge && care.settles && GraceAssured(c, care)
    ensures Base(t) && Tracked(c, t)
    decreases |steps|
  {
    if steps == [] {
    } else {
      BaseStep(c, s, steps[0]);
      TrackedStep(c, care, s, steps[0]);
      RunKeepsTracked(c, care, Apply(c, s, steps[0]), steps[1..], t);
    }
  }

  lemma {:induction false} RunKeepsSafe(c: Config, care: Care, s: State, steps: seq<Step>, t: State)
    requires Base(s) && Safe(c, s) && Runs(c, care, s, steps, t)
    requires Full(care) && GraceAssured(c, care)
    ensures Base(t) && Safe(c, t)
    decreases |steps|
  {
    if steps == [] {
    } else {
      BaseStep(c, s, steps[0]);
      SafeStep(c, care, s, steps[0]);
      RunKeepsSafe(c, care, Apply(c, s, steps[0]), steps[1..], t);
    }
  }

  // ---------------------------------------------------------------- no live file loses its bytes

  /** The bytes of every live row are in the store, with the row's size and checksum. */
  ghost predicate Readable(s: State) {
    forall f | f in s.files && Live(s.files[f]) ::
      && s.files[f].key in s.blobs
      && |s.blobs[s.files[f].key].bytes| == s.files[f].size
      && Sha256(s.blobs[s.files[f].key].bytes) == s.files[f].checksum
  }

  lemma ReadableMeans(s: State)
    ensures Readable(s) <==>
              forall f | f in s.files && s.files[f].deletedAt.None? ::
                && s.files[f].key in s.blobs
                && |s.blobs[s.files[f].key].bytes| == s.files[f].size
                && Sha256(s.blobs[s.files[f].key].bytes) == s.files[f].checksum
  {
  }

  lemma ReadableWhenPresent(s: State)
    requires Base(s)
    ensures Readable(s) <==> LiveOk(s.files, s.blobs)
  {
    forall f | f in s.files && s.files[f].key in s.blobs
      ensures |s.blobs[s.files[f].key].bytes| == s.files[f].size
      ensures Sha256(s.blobs[s.files[f].key].bytes) == s.files[f].checksum
    {
      assert RowOk(f, s.files[f], s.written, s.ids);
    }
  }

  /**
   * When no sweep counts or purges an adopted key, and uploads settle within the grace asked for or
   * within the floor of 60 seconds, the bytes of every live row are in the store.
   */
  lemma LiveFilesAreReadable(c: Config, care: Care, s: State, steps: seq<Step>, t: State)
    requires Init(s) && Runs(c, care, s, steps, t)
    requires care.count && care.purge && care.settles && (care.grace || c.settle <= 60)
    ensures forall f | f in t.files && t.files[f].deletedAt.None? ::
              && t.files[f].key in t.blobs
              && |t.blobs[t.files[f].key].bytes| == t.files[f].size
              && Sha256(t.blobs[t.files[f].key].bytes) == t.files[f].checksum
  {
    RunKeepsSafe(c, care, s, steps, t);
    ReadableWhenPresent(t);
  }

  // ---- the price of the lookup outside the transaction, exactly

  lemma OneStepRun(c: Config, care: Care, s: State, a: Step)
    requires Enabled(c, s, a) && Respects(c, care, s, a)
    ensures Runs(c, care, s, [a], Apply(c, s, a))
  {
    assert [a][1..] == [];
  }

  /** The new row's blob can be gone one step later. */
  lemma OneStepLoses(c: Config, care: Care, w: State, a: Step, f: IdHex)
    requires Enabled(c, w, a) && Respects(c, care, w, a) && f in w.files && Live(w.files[f])
    requires (a.Gc? && a.gc.GcDelete? && w.lock.sweep.phase.key == w.files[f].key) ||
             (a.Rec? && a.rec == RecDelete(false) && w.recs[a.r].phase.key == w.files[f].key)
    ensures Runs(c, care, w, [a], Apply(c, w, a)) && !Readable(Apply(c, w, a))
  {
    OneStepRun(c, care, w, a);
    var t := Apply(c, w, a);
    assert f in t.files && t.files[f] == w.files[f] && w.files[f].key !in t.blobs;
  }

  /** A deletion already decided on is enabled right after the commit, and takes the new row's blob. */
  lemma DoomedIsLost(c: Config, care: Care, s: State, w: State, f: IdHex) returns (steps: seq<Step>, t: State)
    requires f in w.files && Live(w.files[f]) && !Undoomed(s, w.files[f].key)
    requires w.blobs == s.blobs && w.lock == s.lock && w.recs == s.recs
    ensures Runs(c, care, w, steps, t) && !Readable(t)
  {
    var k := w.files[f].key;
    if k !in s.blobs {
      steps, t := [], w;
    } else if !NotDeleting(s.lock, k) {
      steps, t := [Gc(GcDelete)], Apply(c, w, Gc(GcDelete));
      OneStepLoses(c, care, w, Gc(GcDelete), f);
    } else {
      var r :| r in s.recs && s.recs[r].phase.Removing? && s.recs[r].phase.key == k;
      steps, t := [Rec(r, RecDelete(false))], Apply(c, w, Rec(r, RecDelete(false)));
      OneStepLoses(c, care, w, Rec(r, RecDelete(false)), f);
    }
  }

  ghost predicate StaysReadable(c: Config, care: Care, s: State) {
    forall steps, t | Runs(c, care, s, steps, t) :: Readable(t)
  }

  lemma SafeStaysReadable(c: Config, care: Care, s: State)
    requires Base(s) && Safe(c, s) && Full(care) && GraceAssured(c, care)
    ensures StaysReadable(c, care, s)
  {
    forall steps, t | Runs(c, care, s, steps, t)
      ensures Readable(t)
    {
      RunKeepsSafe(c, care, s, steps, t);
      ReadableWhenPresent(t);
    }
  }

  lemma CommitLeaves(s: State, u: nat)
    requires u in s.uploads && InTx(s.uploads[u].phase) && s.uploads[u].claims.nonce in s.grants
    ensures var p, w := s.uploads[u].phase, CommitApply(s, u);
            && p.st.id in w.files && w.files[p.st.id].key == p.key && Live(w.files[p.st.id])
            && w.blobs == s.blobs && w.lock == s.lock && w.recs == s.recs
  {
  }

  lemma UndoomedCommit(c: Config, care: Care, s: State, u: nat)
    requires Base(s) && Safe(c, s.(uploads := s.uploads - {u})) && Full(care) && GraceAssured(c, care)
    requires u in s.uploads && InTx(s.uploads[u].phase) && s.uploads[u].claims.nonce in s.grants
    requires Undoomed(s, s.uploads[u].phase.key)
    ensures StaysReadable(c, care, CommitApply(s, u))
  {
    BaseCommit(s, u);
    SafeInsert(c, s, u);
    SafeStaysReadable(c, care, CommitApply(s, u));
  }

  lemma DoomedCommit(c: Config, care: Care, s: State, u: nat)
    requires u in s.uploads && InTx(s.uploads[u].phase) && s.uploads[u].claims.nonce in s.grants
    requires !Undoomed(s, s.uploads[u].phase.key)
    ensures !StaysReadable(c, care, CommitApply(s, u))
  {
    CommitLeaves(s, u);
    var steps, t := DoomedIsLost(c, care, s, CommitApply(s, u), s.uploads[u].phase.st.id);
  }

  /**
   * An upload outside the invariant, because a sweep or a reconciliation took up its key meanwhile,
   * commits: live files stay readable in every careful run that follows if and only if the key is
   * still stored and neither a sweep nor a reconciliation has decided to delete it.
   */
  lemma CommitStaysReadableIff(c: Config, care: Care, s: State, u: nat)
    requires Base(s) && Safe(c, s.(uploads := s.uploads - {u})) && Full(care) && GraceAssured(c, care)
    requires u in s.uploads && InTx(s.uploads[u].phase) && s.uploads[u].claims.nonce in s.grants
    ensures StaysReadable(c, care, CommitApply(s, u)) <==>
              var k := s.uploads[u].phase.key;
              && k in s.blobs
              && !(s.lock.Sweeping? && s.lock.sweep.phase == Deleting(k))
              && forall r | r in s.recs && s.recs[r].phase.Removing? :: s.recs[r].phase.key != k
  {
    UndoomedIff(s, s.uploads[u].phase.key);
    if Undoomed(s, s.uploads[u].phase.key) {
      UndoomedCommit(c, care, s, u);
    } else {
      DoomedCommit(c, care, s, u);
    }
  }

  lemma UndoomedIff(s: State, k: Key)
    ensures Undoomed(s, k) <==>
              && k in s.blobs
              && !(s.lock.Sweeping? && s.lock.sweep.phase == Deleting(k))
              && forall r | r in s.recs && s.recs[r].phase.Removing? :: s.recs[r].phase.key != k
  {
  }

  // ---------------------------------------------------------------- reconciliation

  /** Written once, referenced by no row, and on no upload's way to a row. */
  ghost predicate Forsaken(s: State, k: Key) {
    k in s.written && NoRow(s.files, k) && NoTarget(s.uploads, k)
  }

  lemma ForsakenStage(c: Config, s: State, u: nat, a: UploadStep, k: Key)
    requires Base(s) && UploadEnabled(c, s, u, a) && a.Stage? && Forsaken(s, k)
    ensures Forsaken(UploadApply(c, s, u, a), k)
  {
    var claims := s.uploads[u].claims;
    StoredPathReadsBack(claims.tenant, claims.category, a.year, a.month, a.id, a.ext);
  }

  lemma ForsakenCommit(s: State, u: nat, k: Key)
    requires u in s.uploads && InTx(s.uploads[u].phase) && s.uploads[u].claims.nonce in s.grants && Forsaken(s, k)
    ensures Forsaken(CommitApply(s, u), k)
  {
  }

  lemma ForsakenUpload(c: Config, s: State, u: nat, a: UploadStep, k: Key)
    requires UploadEnabled(c, s, u, a) && !a.Stage? && !a.Commit? && Forsaken(s, k)
    ensures Forsaken(UploadApply(c, s, u, a), k)
  {
  }

  lemma ForsakenRow(s: State, a: RowStep, k: Key)
    requires RowEnabled(s, a) && Forsaken(s, k)
    ensures Forsaken(RowApply(s, a), k)
  {
  }

  lemma ForsakenGc(s: State, a: GcStep, k: Key)
    requires GcEnabled(s, a) && Forsaken(s, k)
    ensures Forsaken(GcApply(s, a), k)
  {
  }

  lemma ForsakenEnv(s: State, a: EnvStep, k: Key)
    requires EnvEnabled(s, a) && Forsaken(s, k)
    ensures Forsaken(EnvApply(s, a), k)
  {
  }

  lemma ForsakenRec(s: State, r: nat, a: RecStep, k: Key)
    requires RecEnabled(s, r, a) && Forsaken(s, k)
    ensures Forsaken(RecApply(s, r, a), k)
  {
  }

  lemma ForsakenStep(c: Config, s: State, a: Step, k: Key)
    requires Base(s) && Enabled(c, s, a) && Forsaken(s, k)
    ensures Forsaken(Apply(c, s, a), k)
  {
    match a
    case Env(x) => ForsakenEnv(s, x, k);
    case Up(u, x) =>
      if x.Stage? {
        ForsakenStage(c, s, u, x, k);
      } else if x.Commit? {
        ForsakenCommit(s, u, k);
      } else {
        ForsakenUpload(c, s, u, x, k);
      }
    case Row(x) => ForsakenRow(s, x, k);
    case Gc(x) => ForsakenGc(s, x, k);
    case Rec(r, x) => ForsakenRec(s, r, x, k);
  }

  lemma {:induction false} ForsakenForever(c: Config, s: State, k: Key, steps: seq<Step>, t: State)
    requires Base(s) && Forsaken(s, k) && Runs(c, ANY, s, steps, t)
    ensures NoRow(t.files, k)
    decreases |steps|
  {
    if steps == [] {
    } else {
      BaseStep(c, s, steps[0]);
      ForsakenStep(c, s, steps[0], k);
      ForsakenForever(c, Apply(c, s, steps[0]), k, steps[1..], t);
    }
  }

  /**
   * A blob that reconciliation deletes is referenced by no row then, and by no row ever after:
   * neither by a file, live or in the trash, nor by an upload that commits later. Sweeps may count
   * and delete adopted keys; only purges must leave them, and uploads must settle within the grace.
   */
  lemma ReconcileTakesOnlyOrphans(c: Config, care: Care, s: State, steps: seq<Step>, t: State, r: nat,
                                  later: seq<Step>, w: State)
    requires Init(s) && Runs(c, care, s, steps, t)
    requires care.purge && care.settles && GraceAssured(c, care)
    requires RecEnabled(t, r, RecDelete(false))
    requires Runs(c, ANY, RecApply(t, r, RecDelete(false)), later, w)
    ensures forall f | f in t.files :: t.files[f].key != t.recs[r].phase.key
    ensures forall f | f in w.files :: w.files[f].key != t.recs[r].phase.key
  {
    RunKeepsTracked(c, care, s, steps, t);
    assert RecOk(t.recs[r], t, c.settle);
    BaseRec(t, r, RecDelete(false));
    ForsakenForever(c, RecApply(t, r, RecDelete(false)), t.recs[r].phase.key, later, w);
  }

  // ---------------------------------------------------------------- metering and quota

  /** Counter row, live rows and ledger agree, and a positive quota is respected. */
  lemma UsageIsConserved(c: Config, s: State, steps: seq<Step>, t: State, tenant: Uuid)
    requires Init(s) && Runs(c, ANY, s, steps, t) && tenant in t.counters
    ensures t.counters[tenant].used == Total(t.files, tenant, InBytes) == Ledger(t.events, tenant)
    ensures t.counters[tenant].objects == Total(t.files, tenant, InObjects)
    ensures tenant in t.quotas && (t.quotas[tenant] > 0 ==> t.counters[tenant].used <= t.quotas[tenant])
  {
    RunKeepsAccounts(c, ANY, s, steps, t);
    assert Balanced(t.counters[tenant], t.files, t.events, tenant);
  }

  /** A delete subtracts exactly the row: neither clamp at zero ever fires. */
  lemma ClampsNeverFire(c: Config, s: State, steps: seq<Step>, t: State, f: IdHex)
    requires Init(s) && Runs(c, ANY, s, steps, t) && f in t.files && Live(t.files[f])
    ensures t.files[f].tenant in t.counters
    ensures t.counters[t.files[f].tenant].used - t.files[f].size >= 0
    ensures t.counters[t.files[f].tenant].objects - 1 >= 0
  {
    RunKeepsAccounts(c, ANY, s, steps, t);
    DeleteIsCovered(t.counters, t.files, t.events, f);
  }

  // ---------------------------------------------------------------- grants

  /**
   * Every row there ever was used up its own grant, in a transaction begun before that grant expired,
   * and carries what the grant says, with a size and a type that grant, policy and server allow.
   */
  lemma GrantsAreSingleUse(c: Config, s: State, steps: seq<Step>, t: State)
    requires Init(s) && Runs(c, ANY, s, steps, t)
    ensures forall f, g | f in t.origin && g in t.origin && f != g :: t.origin[f].nonce != t.origin[g].nonce
    ensures forall f | f in t.origin ::
              t.origin[f].nonce in t.minted && t.origin[f].started < t.minted[t.origin[f].nonce].exp
    ensures forall f | f in t.files ::
              && f in t.origin && t.origin[f].nonce in t.minted
              && var r, claims := t.files[f], t.minted[t.origin[f].nonce];
                 && r.tenant == claims.tenant && r.policy == claims.policy && r.category == claims.category
                 && r.visibility == claims.visibility && 0 < r.size <= claims.max && r.size <= c.maxUpload
                 && r.contentType !in ContentTypes.DENYLIST
                 && (c.allowed == [] || r.contentType in c.allowed)
                 && (claims.types == [] || r.contentType in claims.types)
  {
    RunKeepsGrants(c, ANY, s, steps, t);
  }

  // ---------------------------------------------------------------- tenant isolation

  /** Rows that share a blob belong to one tenant: the one its key names. */
  lemma KeysAreTenantScoped(c: Config, s: State, steps: seq<Step>, t: State, f: IdHex, g: IdHex)
    requires Init(s) && Runs(c, ANY, s, steps, t)
    requires f in t.files && g in t.files && t.files[f].key == t.files[g].key
    ensures t.files[f].tenant == t.files[g].tenant
    ensures t.files[f].key.Original? && |t.files[f].key.path| >= 36 && t.files[f].key.path[..36] == t.files[f].tenant
  {
    RunKeepsBase(c, ANY, s, steps, t);
    assert RowOk(f, t.files[f], t.written, t.ids) && RowOk(g, t.files[g], t.written, t.ids);
  }
}
