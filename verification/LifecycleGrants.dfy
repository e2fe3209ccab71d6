/**
 * Grants: a nonce authorises at most one row, ever, in a transaction begun before it expired,
 * and the row is what the signed claims allowed.
 */
module LifecycleGrants {
  import opened Basics
  import opened Keys
  import opened Lifecycle
  import opened LifecycleBase
  import ContentTypes

  /** Size and type are inside the grant, the policy and the server's own limits. */
  predicate Within(c: Config, claims: Claims, size: nat, contentType: string) {
    && 0 < size <= claims.max && size <= c.maxUpload
    && ContentTypes.MasterAllowed(c.allowed, contentType)
    && ContentTypes.PolicyAllowed(claims.types, contentType)
  }

  predicate RowFromClaims(c: Config, r: FileRow, claims: Claims) {
    && r.tenant == claims.tenant && r.policy == claims.policy && r.category == claims.category
    && r.visibility == claims.visibility
    && Within(c, claims, r.size, r.contentType)
  }

  ghost predicate GrantRowsOk(grants: map<Nonce, GrantRow>, minted: map<Nonce, Claims>) {
    forall n | n in grants ::
      n in minted && grants[n].expires == minted[n].exp && grants[n].tenant == minted[n].tenant && minted[n].nonce == n
  }

  ghost predicate OriginsOk(origin: map<IdHex, Origin>, minted: map<Nonce, Claims>, ids: set<IdHex>) {
    forall f | f in origin ::
      f in ids && origin[f].nonce in minted && origin[f].started < minted[origin[f].nonce].exp
  }

  ghost predicate RowsFromClaims(c: Config, files: map<IdHex, FileRow>, origin: map<IdHex, Origin>,
                                 minted: map<Nonce, Claims>) {
    forall f | f in files ::
      f in origin && origin[f].nonce in minted && RowFromClaims(c, files[f], minted[origin[f].nonce])
  }

  /** A nonce that gave a row is consumed, or pruned for good. */
  ghost predicate SpentOk(origin: map<IdHex, Origin>, grants: map<Nonce, GrantRow>) {
    forall f | f in origin && origin[f].nonce in grants :: grants[origin[f].nonce].consumed.Some?
  }

  ghost predicate SingleUse(origin: map<IdHex, Origin>) {
    forall f, g | f in origin && g in origin && f != g :: origin[f].nonce != origin[g].nonce
  }

  ghost predicate HolderOk(c: Config, x: InFlight, s: State) {
    && x.claims.nonce in s.minted && s.minted[x.claims.nonce] == x.claims
    && (!x.phase.Received? ==>
          && x.phase.st.id !in s.origin
          && Within(c, x.claims, x.phase.st.size, x.phase.st.contentType))
    && (InTx(x.phase) ==>
          && x.claims.nonce in s.grants
          && s.grants[x.claims.nonce].consumed.None?
          && x.phase.started < x.claims.exp)
  }

  ghost predicate HoldersOk(c: Config, s: State) {
    forall u | u in s.uploads :: HolderOk(c, s.uploads[u], s)
  }

  /** The grant row lock has one holder. */
  ghost predicate NonceMutex(uploads: map<nat, InFlight>) {
    forall u, v | u in uploads && v in uploads && u != v && InTx(uploads[u].phase) && InTx(uploads[v].phase) ::
      uploads[u].claims.nonce != uploads[v].claims.nonce
  }

  ghost predicate Grants(c: Config, s: State) {
    && GrantRowsOk(s.grants, s.minted)
    && (forall n | n in s.minted :: s.minted[n].nonce == n)
    && OriginsOk(s.origin, s.minted, s.ids)
    && RowsFromClaims(c, s.files, s.origin, s.minted)
    && SpentOk(s.origin, s.grants)
    && SingleUse(s.origin)
    && HoldersOk(c, s)
    && NonceMutex(s.uploads)
  }

  // ---------------------------------------------------------------- environment

  lemma GrantsMint(c: Config, s: State, a: EnvStep)
    requires Grants(c, s) && EnvEnabled(s, a) && a.Mint?
    ensures Grants(c, EnvApply(s, a))
  {
    GrantsMinted(c, s, EnvApply(s, a), a.nonce);
  }

  lemma GrantsMinted(c: Config, s: State, t: State, n: Nonce)
    requires Grants(c, s) && n !in s.minted && n in t.minted && n in t.grants
    requires t == s.(minted := s.minted[n := t.minted[n]], grants := s.grants[n := t.grants[n]])
    requires t.minted[n].nonce == n
    requires t.grants[n].expires == t.minted[n].exp && t.grants[n].tenant == t.minted[n].tenant
    ensures Grants(c, t)
  {
    forall u | u in t.uploads
      ensures HolderOk(c, t.uploads[u], t)
    {
      assert HolderOk(c, s.uploads[u], s);
    }
  }

  /** Pruning takes no grant an open transaction relies on. */
  lemma GrantsPrune(c: Config, s: State)
    requires Grants(c, s)
    ensures Grants(c, s.(grants := Pruned(s)))
  {
  }

  lemma GrantsFrame(c: Config, s: State, t: State)
    requires Grants(c, s)
    requires t.grants == s.grants && t.minted == s.minted && t.origin == s.origin && t.ids == s.ids
    requires t.files == s.files && t.uploads == s.uploads
    ensures Grants(c, t)
  {
  }

  lemma GrantsEnv(c: Config, s: State, a: EnvStep)
    requires Grants(c, s) && EnvEnabled(s, a)
    ensures Grants(c, EnvApply(s, a))
  {
    if a.Mint? {
      GrantsMint(c, s, a);
    } else if a.Prune? {
      GrantsPrune(c, s);
    } else {
      GrantsFrame(c, s, EnvApply(s, a));
    }
  }

  // ---------------------------------------------------------------- upload

  lemma GrantsMove(c: Config, s: State, u: nat, p: Phase)
    requires Grants(c, s) && u in s.uploads && HolderOk(c, s.uploads[u].(phase := p), s)
    requires InTx(p) && !InTx(s.uploads[u].phase) ==> NonceFree(s.uploads, s.uploads[u].claims.nonce)
    ensures Grants(c, WithPhase(s, u, p))
  {
  }

  lemma GrantsReceive(c: Config, s: State, u: nat, a: UploadStep)
    requires Grants(c, s) && UploadEnabled(c, s, u, a) && a.Receive?
    ensures Grants(c, UploadApply(c, s, u, a))
  {
  }

  lemma GrantsStage(c: Config, s: State, u: nat, a: UploadStep)
    requires Grants(c, s) && UploadEnabled(c, s, u, a) && a.Stage?
    ensures Grants(c, UploadApply(c, s, u, a))
  {
  }

  lemma GrantsForget(c: Config, s: State, u: nat)
    requires Grants(c, s)
    ensures Grants(c, s.(uploads := s.uploads - {u}))
  {
  }

  lemma HolderAfterCommit(c: Config, s: State, u: nat, x: InFlight, t: State)
    requires HolderOk(c, x, s) && u in s.uploads && InTx(s.uploads[u].phase) && s.uploads[u].claims.nonce in s.grants
    requires InTx(x.phase) ==> x.claims.nonce != s.uploads[u].claims.nonce
    requires Disjoint(s.uploads[u].phase, x.phase)
    requires t.minted == s.minted
    requires t.origin == s.origin[s.uploads[u].phase.st.id :=
               Origin(s.uploads[u].claims.nonce, s.uploads[u].phase.started, s.now)]
    requires forall n | n in s.grants && n != s.uploads[u].claims.nonce :: n in t.grants && t.grants[n] == s.grants[n]
    ensures HolderOk(c, x, t)
  {
  }

  lemma HoldersAfterCommit(c: Config, s: State, u: nat)
    requires ApartOk(s.uploads) && HoldersOk(c, s) && NonceMutex(s.uploads)
    requires u in s.uploads && InTx(s.uploads[u].phase) && s.uploads[u].claims.nonce in s.grants
    ensures HoldersOk(c, CommitApply(s, u)) && NonceMutex(CommitApply(s, u).uploads)
  {
    var t := CommitApply(s, u);
    assert t.uploads == s.uploads - {u};
    forall v | v in t.uploads
      ensures HolderOk(c, t.uploads[v], t)
    {
      assert HolderOk(c, s.uploads[v], s);
      assert Disjoint(s.uploads[u].phase, s.uploads[v].phase);
      HolderAfterCommit(c, s, u, s.uploads[v], t);
    }
  }

  lemma OriginAfterCommit(origin: map<IdHex, Origin>, grants: map<Nonce, GrantRow>, f: IdHex, o: Origin)
    requires SpentOk(origin, grants) && SingleUse(origin) && o.nonce in grants && grants[o.nonce].consumed.None?
    ensures SingleUse(origin[f := o])
    ensures SpentOk(origin[f := o], grants[o.nonce := grants[o.nonce].(consumed := Some(o.started))])
  {
  }

  lemma GrantsCommit(c: Config, s: State, u: nat)
    requires Base(s) && Grants(c, s) && u in s.uploads && InTx(s.uploads[u].phase) &&
               s.uploads[u].claims.nonce in s.grants
    ensures Grants(c, CommitApply(s, u))
  {
    var claims, p := s.uploads[u].claims, s.uploads[u].phase;
    assert HolderOk(c, s.uploads[u], s);
    assert OwnUnreferenced(p, s.files);
    assert PhaseOk(claims.tenant, p, s.written, s.ids);
    HoldersAfterCommit(c, s, u);
    OriginAfterCommit(s.origin, s.grants, p.st.id, Origin(claims.nonce, p.started, s.now));
    GrantsParts(c, s, CommitApply(s, u), claims, p.st.id, NewRow(claims, p), p.started);
  }

  lemma GrantsParts(c: Config, s: State, t: State, claims: Claims, f: IdHex, r: FileRow, started: int)
    requires Grants(c, s) && claims.nonce in s.grants && s.minted[claims.nonce] == claims
    requires f in s.ids && f !in s.files && RowFromClaims(c, r, claims) && started < claims.exp
    requires t.minted == s.minted && t.ids == s.ids && t.files == s.files[f := r]
    requires t.origin == s.origin[f := Origin(claims.nonce, started, s.now)]
    requires t.grants == s.grants[claims.nonce := s.grants[claims.nonce].(consumed := Some(started))]
    requires SpentOk(t.origin, t.grants) && SingleUse(t.origin) && HoldersOk(c, t) && NonceMutex(t.uploads)
    ensures Grants(c, t)
  {
  }

  lemma GrantsMoves(c: Config, s: State, u: nat, a: UploadStep)
    requires Grants(c, s) && UploadEnabled(c, s, u, a) && IsMove(a)
    ensures Grants(c, UploadApply(c, s, u, a))
  {
    assert HolderOk(c, s.uploads[u], s);
    var p := MoveIsPhase(c, s, u, a);
    HolderMoves(c, s, u, a, p);
    GrantsMove(c, s, u, p);
  }

  lemma HolderMoves(c: Config, s: State, u: nat, a: UploadStep, p: Phase)
    requires Grants(c, s) && u in s.uploads && HolderOk(c, s.uploads[u], s)
    requires !s.uploads[u].phase.Received? && !p.Received? && p.st == s.uploads[u].phase.st
    requires a.Consume? ==> p.Consumed? && ConsumeEnabled(s, s.uploads[u].claims, p.started)
    requires InTx(p) && !a.Consume? ==> InTx(s.uploads[u].phase) && p.started == s.uploads[u].phase.started
    ensures HolderOk(c, s.uploads[u].(phase := p), s)
  {
  }

  lemma GrantsLookup(c: Config, s: State, u: nat, a: UploadStep)
    requires Grants(c, s) && UploadEnabled(c, s, u, a) && a.Lookup?
    ensures Grants(c, UploadApply(c, s, u, a))
  {
    assert HolderOk(c, s.uploads[u], s);
    GrantsMove(c, s, u, LookupPhase(s, s.uploads[u].phase.st, a.hit));
  }

  lemma GrantsDropOwn(c: Config, s: State, u: nat, a: UploadStep)
    requires Grants(c, s) && UploadEnabled(c, s, u, a) && a.DropOwn?
    ensures Grants(c, UploadApply(c, s, u, a))
  {
  }

  lemma GrantsEnd(c: Config, s: State, u: nat, a: UploadStep)
    requires Grants(c, s) && UploadEnabled(c, s, u, a) && (a.Cleanup? || a.Crash?)
    ensures Grants(c, UploadApply(c, s, u, a))
  {
    GrantsForget(c, s, u);
    GrantsFrame(c, s.(uploads := s.uploads - {u}), UploadApply(c, s, u, a));
  }

  lemma GrantsUpload(c: Config, s: State, u: nat, a: UploadStep)
    requires Base(s) && Grants(c, s) && UploadEnabled(c, s, u, a)
    ensures Grants(c, UploadApply(c, s, u, a))
  {
    if a.Receive? {
      GrantsReceive(c, s, u, a);
    } else if a.Stage? {
      GrantsStage(c, s, u, a);
    } else if a.DropOwn? {
      GrantsDropOwn(c, s, u, a);
    } else if a.Commit? {
      GrantsCommit(c, s, u);
    } else if a.Cleanup? || a.Crash? {
      GrantsEnd(c, s, u, a);
    } else if a.Lookup? {
      GrantsLookup(c, s, u, a);
    } else {
      GrantsMoves(c, s, u, a);
    }
  }

  // ---------------------------------------------------------------- other steps

  lemma GrantsFiles(c: Config, s: State, t: State)
    requires Grants(c, s)
    requires t.grants == s.grants && t.minted == s.minted && t.origin == s.origin && t.ids == s.ids &&
               t.uploads == s.uploads
    requires forall f | f in t.files :: f in s.files && t.files[f] == s.files[f].(deletedAt := t.files[f].deletedAt)
    ensures Grants(c, t)
  {
  }

  lemma RowTouchesStamps(s: State, a: RowStep)
    requires RowEnabled(s, a)
    ensures var t := RowApply(s, a);
            && t.grants == s.grants && t.minted == s.minted && t.origin == s.origin && t.ids == s.ids &&
               t.uploads == s.uploads
            && forall f | f in t.files :: f in s.files && t.files[f] == s.files[f].(deletedAt := t.files[f].deletedAt)
  {
  }

  lemma GrantsRow(c: Config, s: State, a: RowStep)
    requires Grants(c, s) && RowEnabled(s, a)
    ensures Grants(c, RowApply(s, a))
  {
    RowTouchesStamps(s, a);
    GrantsFiles(c, s, RowApply(s, a));
  }

  lemma GrantsGc(c: Config, s: State, a: GcStep)
    requires Grants(c, s) && GcEnabled(s, a)
    ensures Grants(c, GcApply(s, a))
  {
  }

  lemma GrantsRec(c: Config, s: State, r: nat, a: RecStep)
    requires Grants(c, s) && RecEnabled(s, r, a)
    ensures Grants(c, RecApply(s, r, a))
  {
  }

  lemma GrantsStep(c: Config, s: State, a: Step)
    requires Base(s) && Grants(c, s) && Enabled(c, s, a)
    ensures Grants(c, Apply(c, s, a))
  {
    match a
    case Env(x) => GrantsEnv(c, s, x);
    case Up(u, x) => GrantsUpload(c, s, u, x);
    case Row(x) => GrantsRow(c, s, x);
    case Gc(x) => GrantsGc(c, s, x);
    case Rec(r, x) => GrantsRec(c, s, r, x);
  }
}
