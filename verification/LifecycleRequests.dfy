/**
 * Requests that nothing interrupts, in the machine where everything interleaves: an upload whose body
 * is stored, a restore and a delete take the steps of their handler and leave what the handler leaves.
 */
module LifecycleRequests {
  import opened Basics
  import opened Keys
  import opened Lifecycle
  import opened LifecycleAccounts
  import opened LifecycleTheorems
  import opened LifecycleRace
  import ContentTypes

  // ---------------------------------------------------------------- single steps of the environment

  /** A grant says what its policy says, and lives 30 seconds to an hour. */
  lemma MintIs(c: Config, s: State, n: Nonce, t: Uuid, p: Policy, ttl: int)
    requires Enabled(c, s, Env(Mint(n, t, p, ttl)))
    ensures var w := Apply(c, s, Env(Mint(n, t, p, ttl)));
            var exp := s.now + if ttl < 30 then 30 else if ttl > 3600 then 3600 else ttl;
            && w.minted == s.minted[n := Claims(t, p.key, p.category, p.maxSize, p.types, n, exp, p.visibility)]
            && w.grants == s.grants[n := GrantRow(t, exp, None)]
            && w == s.(minted := w.minted, grants := w.grants)
  {
  }

  /** Pruning takes a grant if and only if it is used or expired for a day, and no open upload holds its row. */
  lemma PruneTakesIff(c: Config, s: State, n: Nonce)
    requires n in s.grants
    ensures var w := Apply(c, s, Env(Prune));
            && w == s.(grants := w.grants) && w.grants.Keys <= s.grants.Keys
            && (n !in w.grants <==>
                  && (s.grants[n].consumed.Some? || s.grants[n].expires < s.now - 86400)
                  && forall u | u in s.uploads && s.uploads[u].claims.nonce == n ::
                       !s.uploads[u].phase.Consumed? && !s.uploads[u].phase.Checked?)
            && (n in w.grants ==> w.grants[n] == s.grants[n])
  {
  }

  /** A body is staged if and only if its id is new and the grant, the policy and the server allow size and type. */
  lemma StageIff(c: Config, s: State, u: nat, a: UploadStep)
    requires a.Stage? && u in s.uploads && s.uploads[u].phase.Received?
    ensures var claims := s.uploads[u].claims;
            Enabled(c, s, Up(u, a)) <==>
              && a.id !in s.ids && a.modified <= s.now
              && 0 < |a.bytes| <= claims.max && |a.bytes| <= c.maxUpload
              && a.contentType !in ContentTypes.DENYLIST
              && (c.allowed == [] || a.contentType in c.allowed)
              && (claims.types == [] || a.contentType in claims.types)
    ensures Enabled(c, s, Up(u, a)) ==>
              var t, claims := Apply(c, s, Up(u, a)), s.uploads[u].claims;
              var k := Original(StoredPath(claims.tenant, claims.category, a.year, a.month, a.id, a.ext));
              && t.blobs == s.blobs[k := Blob(a.bytes, a.modified)] && t.ids == s.ids + {a.id}
              && t.uploads == s.uploads[u := InFlight(claims, Streamed(Staged(a.id, k, a.contentType, |a.bytes|,
                                                                              Sha256(a.bytes), a.modified)))]
  {
  }

  /** An upload is received with a signed grant, unexpired by its own claims. */
  lemma ReceiveIff(c: Config, s: State, u: nat, n: Nonce)
    requires u !in s.uploads
    ensures Enabled(c, s, Up(u, Receive(n))) <==> n in s.minted && s.minted[n].exp >= s.now
    ensures Enabled(c, s, Up(u, Receive(n))) ==>
              Apply(c, s, Up(u, Receive(n))) == s.(uploads := s.uploads[u := InFlight(s.minted[n], Received)])
  {
  }

  /**
   * A delete, in a transaction begun at `started`, goes through if and only if the row is live: it
   * stamps the row with that time and takes it off the counter, which every run keeps high enough.
   */
  lemma DeleteIff(c: Config, s: State, f: IdHex, started: int)
    requires f in s.files && f in s.origin && s.origin[f].committed <= started <= s.now
    requires !s.lock.Restoring? && forall v | v in s.uploads :: !s.uploads[v].phase.Checked?
    requires BooksOk(s.counters, s.files, s.events) && s.files[f].tenant in s.counters
    ensures Enabled(c, s, Row(DeleteFile(f, started))) <==> s.files[f].deletedAt.None?
    ensures s.files[f].deletedAt.None? ==>
              var r, kept := s.files[f], s.counters[s.files[f].tenant];
              Apply(c, s, Row(DeleteFile(f, started))) ==
              s.(files := s.files[f := r.(deletedAt := Some(started))],
                 counters := s.counters[r.tenant := Counter(kept.used - r.size, kept.objects - 1)],
                 events := s.events + [Event(r.tenant, Delete, r.size)])
  {
    if s.files[f].deletedAt.None? {
      DeleteIsCovered(s.counters, s.files, s.events, f);
    }
  }

  // ---------------------------------------------------------------- an upload, step by step

  ghost predicate OwnSteps(steps: seq<Step>, u: nat) {
    forall i | 0 <= i < |steps| :: steps[i].Up? && steps[i].u == u && !steps[i].up.Crash?
  }

  /** No other upload is in its transaction, and no restore holds the advisory lock. */
  ghost predicate Alone(s: State, u: nat) {
    && !s.lock.Restoring?
    && forall v | v in s.uploads && v != u :: !s.uploads[v].phase.Consumed? && !s.uploads[v].phase.Checked?
  }

  /** Step `a` leads from `s` to `t`. */
  ghost predicate Leads(c: Config, s: State, a: Step, t: State) {
    Enabled(c, s, a) && Apply(c, s, a) == t
  }

  lemma OneRun(c: Config, s: State, a: Step, t: State)
    requires Leads(c, s, a, t)
    ensures Runs(c, ANY, s, [a], t)
  {
    OneStepRun(c, ANY, s, a);
  }

  lemma TwoRun(c: Config, s: State, a1: Step, s1: State, a2: Step, s2: State)
    requires Leads(c, s, a1, s1) && Leads(c, s1, a2, s2)
    ensures Runs(c, ANY, s, [a1, a2], s2)
  {
    RunsTwo(c, ANY, s, a1, s1, a2, s2);
  }

  lemma LookupIs(c: Config, s: State, u: nat, hit: Option<IdHex>, p: Phase)
    requires u in s.uploads && s.uploads[u].phase.Streamed?
    requires LookupEnabled(s, s.uploads[u].claims, s.uploads[u].phase.st, hit)
    requires p == LookupPhase(s, s.uploads[u].phase.st, hit)
    ensures Leads(c, s, Up(u, Lookup(hit)), WithPhase(s, u, p))
  {
  }

  /** The state of upload `u` once it knows its key. */
  ghost function Chose(s: State, u: nat, st: Staged, key: Key, dropped: bool): State
    requires u in s.uploads
  {
    WithPhase(s, u, Ready(st, key, key == st.key)).(blobs := if dropped then s.blobs - {st.key} else s.blobs)
  }

  /** No duplicate: the upload keeps its own blob. */
  lemma KeepRun(c: Config, s: State, u: nat) returns (steps: seq<Step>)
    requires u in s.uploads && s.uploads[u].phase.Streamed?
    requires LookupEnabled(s, s.uploads[u].claims, s.uploads[u].phase.st, None)
    ensures var st := s.uploads[u].phase.st;
            Runs(c, ANY, s, steps, Chose(s, u, st, st.key, false)) && OwnSteps(steps, u)
  {
    var st := s.uploads[u].phase.st;
    steps := [Up(u, Lookup(None))];
    LookupIs(c, s, u, None, Ready(st, st.key, true));
    OneRun(c, s, Up(u, Lookup(None)), WithPhase(s, u, Ready(st, st.key, true)));
  }

  /** A duplicate: the upload takes its key and drops its own blob, if it can. */
  lemma AdoptRun(c: Config, s: State, u: nat, f: IdHex, key: Key, dropOk: bool) returns (steps: seq<Step>)
    requires u in s.uploads && s.uploads[u].phase.Streamed?
    requires LookupEnabled(s, s.uploads[u].claims, s.uploads[u].phase.st, Some(f))
    requires key == s.files[f].key != s.uploads[u].phase.st.key
    ensures Runs(c, ANY, s, steps, Chose(s, u, s.uploads[u].phase.st, key, dropOk)) && OwnSteps(steps, u)
  {
    var st := s.uploads[u].phase.st;
    var s1, w := WithPhase(s, u, Adopting(st, key)), Chose(s, u, st, key, dropOk);
    steps := [Up(u, Lookup(Some(f))), Up(u, DropOwn(dropOk))];
    LookupIs(c, s, u, Some(f), Adopting(st, key));
    DropIs(c, s, u, st, key, dropOk, w);
    TwoRun(c, s, Up(u, Lookup(Some(f))), s1, Up(u, DropOwn(dropOk)), w);
  }

  lemma DropIs(c: Config, s: State, u: nat, st: Staged, key: Key, ok: bool, w: State)
    requires u in s.uploads
    requires w == WithPhase(s, u, Ready(st, key, false)).(blobs := if ok then s.blobs - {st.key} else s.blobs)
    ensures var s1 := WithPhase(s, u, Adopting(st, key));
            Leads(c, s1, Up(u, DropOwn(ok)), w)
  {
  }

  /** The commit of upload `u`, which staged `st`, on `key`. */
  ghost predicate Landed(s: State, t: State, u: nat, claims: Claims, st: Staged, key: Key, started: int)
    requires claims.nonce in s.grants
  {
    && t.files == s.files[st.id := RowFor(claims, st, key)]
    && t.grants == s.grants[claims.nonce := s.grants[claims.nonce].(consumed := Some(started))]
    && t.counters == AddUsage(s.counters, claims.tenant, st.size)
    && t.events == s.events + [Event(claims.tenant, Upload, st.size)]
    && t.uploads == s.uploads - {u} && t.blobs == s.blobs
  }

  lemma CommitLands(s: State, w: State, u: nat, p: Phase)
    requires u in s.uploads && s.uploads[u].claims.nonce in s.grants && InTx(p) && w == WithPhase(s, u, p)
    ensures Landed(s, CommitApply(w, u), u, s.uploads[u].claims, p.st, p.key, p.started)
  {
    assert w.uploads - {u} == s.uploads - {u};
  }

  lemma ConsumeIs(c: Config, s: State, u: nat, w: State)
    requires u in s.uploads && s.uploads[u].phase.Opened? && Alone(s, u)
    requires ConsumeEnabled(s, s.uploads[u].claims, s.uploads[u].phase.started)
    requires var p := s.uploads[u].phase; w == WithPhase(s, u, Phase.Consumed(p.st, p.key, p.wroteNew, p.started))
    ensures Leads(c, s, Up(u, Consume), w) && w.uploads[u].claims.nonce in w.grants && Alone(w, u)
  {
  }

  ghost predicate Roomy(s: State, u: nat)
    requires u in s.uploads && !s.uploads[u].phase.Received?
  {
    var q, t := Quota(s, s.uploads[u].claims.tenant), s.uploads[u].claims.tenant;
    q > 0 ==> Used(s, t) + s.uploads[u].phase.st.size <= q
  }

  lemma MeterIs(c: Config, s: State, u: nat, w: State)
    requires u in s.uploads && s.uploads[u].phase.Consumed? && Alone(s, u) && Roomy(s, u)
    requires Quota(s, s.uploads[u].claims.tenant) > 0 && s.uploads[u].claims.nonce in s.grants
    requires var x, p := s.uploads[u], s.uploads[u].phase;
             w == WithPhase(s, u, Checked(p.st, p.key, p.wroteNew, p.started, Used(s, x.claims.tenant)))
    ensures Leads(c, s, Up(u, CheckQuota), w)
  {
  }

  /** In the transaction: meter when there is a quota, and commit. */
  lemma CommitRun(c: Config, s: State, u: nat) returns (steps: seq<Step>, t: State)
    requires u in s.uploads && s.uploads[u].phase.Consumed? && Alone(s, u) && Roomy(s, u)
    requires s.uploads[u].claims.nonce in s.grants
    ensures Runs(c, ANY, s, steps, t) && OwnSteps(steps, u)
    ensures var p := s.uploads[u].phase; Landed(s, t, u, s.uploads[u].claims, p.st, p.key, p.started)
  {
    var x, p := s.uploads[u], s.uploads[u].phase;
    if Quota(s, x.claims.tenant) <= 0 {
      steps, t := [Up(u, Commit)], CommitApply(s, u);
      assert Leads(c, s, Up(u, Commit), t);
      OneRun(c, s, Up(u, Commit), t);
      assert s == WithPhase(s, u, p);
      CommitLands(s, s, u, p);
    } else {
      steps, t := MeteredRun(c, s, u);
    }
  }

  lemma MeteredRun(c: Config, s: State, u: nat) returns (steps: seq<Step>, t: State)
    requires u in s.uploads && s.uploads[u].phase.Consumed? && Alone(s, u) && Roomy(s, u)
    requires s.uploads[u].claims.nonce in s.grants && Quota(s, s.uploads[u].claims.tenant) > 0
    ensures Runs(c, ANY, s, steps, t) && OwnSteps(steps, u)
    ensures var p := s.uploads[u].phase; Landed(s, t, u, s.uploads[u].claims, p.st, p.key, p.started)
  {
    var x, p := s.uploads[u], s.uploads[u].phase;
    var p1 := Checked(p.st, p.key, p.wroteNew, p.started, Used(s, x.claims.tenant));
    var s1 := WithPhase(s, u, p1);
    MeterIs(c, s, u, s1);
    steps, t := [Up(u, CheckQuota), Up(u, Commit)], CommitApply(s1, u);
    assert Leads(c, s1, Up(u, Commit), t);
    TwoRun(c, s, Up(u, CheckQuota), s1, Up(u, Commit), t);
    CommitLands(s, s1, u, p1);
  }

  /** A refused upload rolls back and drops the blob it wrote. */
  lemma RefuseRun(c: Config, s: State, u: nat, ok: bool) returns (steps: seq<Step>, t: State)
    requires u in s.uploads && s.uploads[u].phase.Opened?
    ensures Runs(c, ANY, s, steps, t) && OwnSteps(steps, u)
    ensures var p := s.uploads[u].phase;
            t == s.(uploads := s.uploads - {u}, blobs := if p.wroteNew && ok then s.blobs - {p.key} else s.blobs)
  {
    var p := s.uploads[u].phase;
    var s1 := WithPhase(s, u, Failed(p.st, p.key, p.wroteNew));
    t := s.(uploads := s.uploads - {u}, blobs := if p.wroteNew && ok then s.blobs - {p.key} else s.blobs);
    steps := [Up(u, UploadStep.Fail), Up(u, Cleanup(ok))];
    CleanupIs(c, s, u, ok, t);
    TwoRun(c, s, Up(u, UploadStep.Fail), s1, Up(u, Cleanup(ok)), t);
  }

  lemma CleanupIs(c: Config, s: State, u: nat, ok: bool, t: State)
    requires u in s.uploads && s.uploads[u].phase.Opened?
    requires var p := s.uploads[u].phase;
             t == s.(uploads := s.uploads - {u}, blobs := if p.wroteNew && ok then s.blobs - {p.key} else s.blobs)
    ensures var p := s.uploads[u].phase;
            var s1 := WithPhase(s, u, Failed(p.st, p.key, p.wroteNew));
            Leads(c, s, Up(u, UploadStep.Fail), s1) && Leads(c, s1, Up(u, Cleanup(ok)), t)
  {
    var p := s.uploads[u].phase;
    var s1 := WithPhase(s, u, Failed(p.st, p.key, p.wroteNew));
    assert s1.uploads - {u} == s.uploads - {u};
  }

  lemma OpenRun(c: Config, s: State, u: nat, w: State)
    requires u in s.uploads && s.uploads[u].phase.Ready?
    requires var p := s.uploads[u].phase; w == WithPhase(s, u, Opened(p.st, p.key, p.wroteNew, s.now))
    ensures Runs(c, ANY, s, [Up(u, UploadStep.Open)], w)
  {
    assert Leads(c, s, Up(u, UploadStep.Open), w);
    OneRun(c, s, Up(u, UploadStep.Open), w);
  }

  /** The state of upload `u` once its transaction is open. */
  ghost function Began(s: State, u: nat, st: Staged, key: Key, dropped: bool): State
    requires u in s.uploads
  {
    WithPhase(s, u, Opened(st, key, key == st.key, s.now)).(blobs := if dropped then s.blobs - {st.key} else s.blobs)
  }

  lemma BeginRun(c: Config, s: State, u: nat, st: Staged, key: Key, dropped: bool, xs: seq<Step>)
    returns (steps: seq<Step>)
    requires u in s.uploads && Runs(c, ANY, s, xs, Chose(s, u, st, key, dropped)) && OwnSteps(xs, u)
    ensures Runs(c, ANY, s, steps, Began(s, u, st, key, dropped)) && OwnSteps(steps, u)
  {
    var s1, w := Chose(s, u, st, key, dropped), Began(s, u, st, key, dropped);
    assert s1.uploads[u := w.uploads[u]] == w.uploads;
    OpenRun(c, s1, u, w);
    RunsJoin(c, ANY, s, xs, s1, [Up(u, UploadStep.Open)], w);
    steps := xs + [Up(u, UploadStep.Open)];
  }

  /** From the stored body to the open transaction. */
  lemma ToTransaction(c: Config, s: State, u: nat, hit: Option<IdHex>, dropOk: bool)
    returns (steps: seq<Step>, key: Key)
    requires u in s.uploads && s.uploads[u].phase.Streamed? && NoRow(s.files, s.uploads[u].phase.st.key)
    requires LookupEnabled(s, s.uploads[u].claims, s.uploads[u].phase.st, hit)
    ensures var st := s.uploads[u].phase.st;
            && (hit.None? ==> key == st.key) && (hit.Some? ==> key == s.files[hit.value].key != st.key)
            && Runs(c, ANY, s, steps, Began(s, u, st, key, hit.Some? && dropOk)) && OwnSteps(steps, u)
  {
    var st := s.uploads[u].phase.st;
    if hit.None? {
      key := st.key;
      var xs := KeepRun(c, s, u);
      steps := BeginRun(c, s, u, st, key, false, xs);
    } else {
      key := s.files[hit.value].key;
      var xs := AdoptRun(c, s, u, hit.value, key, dropOk);
      steps := BeginRun(c, s, u, st, key, dropOk, xs);
    }
  }

  /** The open transaction goes through. */
  lemma TransactRun(c: Config, s: State, u: nat) returns (steps: seq<Step>, t: State)
    requires u in s.uploads && s.uploads[u].phase.Opened? && Alone(s, u) && Roomy(s, u)
    requires ConsumeEnabled(s, s.uploads[u].claims, s.uploads[u].phase.started)
    ensures Runs(c, ANY, s, steps, t) && OwnSteps(steps, u)
    ensures var p := s.uploads[u].phase; Landed(s, t, u, s.uploads[u].claims, p.st, p.key, p.started)
  {
    var p := s.uploads[u].phase;
    var s1 := WithPhase(s, u, Phase.Consumed(p.st, p.key, p.wroteNew, p.started));
    ConsumeIs(c, s, u, s1);
    OneRun(c, s, Up(u, Consume), s1);
    var ys;
    ys, t := CommitRun(c, s1, u);
    RunsJoin(c, ANY, s, [Up(u, Consume)], s1, ys, t);
    steps := [Up(u, Consume)] + ys;
    assert s1.uploads - {u} == s.uploads - {u};
  }

  /** The grant is the tenant's, unused, and unexpired now. */
  ghost predicate Usable(s: State, claims: Claims) {
    && claims.nonce in s.grants && s.grants[claims.nonce].tenant == claims.tenant
    && s.grants[claims.nonce].consumed.None? && s.grants[claims.nonce].expires > s.now
  }

  lemma BeganIsAlone(s: State, u: nat, st: Staged, key: Key, dropped: bool)
    requires u in s.uploads && s.uploads[u].phase.Streamed? && s.uploads[u].phase.st == st && Alone(s, u)
    ensures var b := Began(s, u, st, key, dropped);
            && Alone(b, u) && b.uploads - {u} == s.uploads - {u} && (Roomy(b, u) <==> Roomy(s, u))
            && (ConsumeEnabled(b, b.uploads[u].claims, b.uploads[u].phase.started) <==> Usable(s, s.uploads[u].claims))
  {
  }

  /** Commit or refuse, after the transaction was opened. */
  lemma FinishRun(c: Config, s: State, u: nat, st: Staged, key: Key, dropped: bool, xs: seq<Step>, cleanOk: bool)
    returns (steps: seq<Step>, t: State)
    requires u in s.uploads && s.uploads[u].phase.Streamed? && s.uploads[u].phase.st == st && Alone(s, u)
    requires Runs(c, ANY, s, xs, Began(s, u, st, key, dropped)) && OwnSteps(xs, u)
    ensures Runs(c, ANY, s, steps, t) && OwnSteps(steps, u)
    ensures var b, x := Began(s, u, st, key, dropped), s.uploads[u];
            if Usable(s, x.claims) && Roomy(s, u) then Landed(b, t, u, x.claims, st, key, s.now)
            else
              t == b.(uploads := s.uploads - {u},
                      blobs := if key == st.key && cleanOk then b.blobs - {key} else b.blobs)
  {
    var b := Began(s, u, st, key, dropped);
    var ys;
    BeganIsAlone(s, u, st, key, dropped);
    if Usable(s, s.uploads[u].claims) && Roomy(s, u) {
      ys, t := TransactRun(c, b, u);
    } else {
      ys, t := RefuseRun(c, b, u, cleanOk);
    }
    RunsJoin(c, ANY, s, xs, b, ys, t);
    steps := xs + ys;
  }

  /** What a commit leaves, field by field. */
  lemma LandedIs(s: State, t: State, u: nat, st: Staged, key: Key, dropped: bool)
    requires u in s.uploads && s.uploads[u].phase.Streamed? && s.uploads[u].phase.st == st
    requires s.uploads[u].claims.nonce in s.grants && s.uploads[u].claims.tenant in s.counters
    requires Landed(Began(s, u, st, key, dropped), t, u, s.uploads[u].claims, st, key, s.now)
    ensures var claims := s.uploads[u].claims;
            var n, tenant, kept := claims.nonce, claims.tenant, s.counters[claims.tenant];
            && t.files == s.files[st.id := FileRow(tenant, claims.policy, claims.category, key, st.contentType,
                                                   st.size, st.checksum, claims.visibility, None)]
            && t.grants == s.grants[n := s.grants[n].(consumed := Some(s.now))]
            && t.counters == s.counters[tenant := Counter(kept.used + st.size, kept.objects + 1)]
            && t.events == s.events + [Event(tenant, Upload, st.size)]
            && t.blobs == (if dropped then s.blobs - {st.key} else s.blobs) && t.uploads == s.uploads - {u}
  {
    var b := Began(s, u, st, key, dropped);
    assert b.uploads - {u} == s.uploads - {u};
  }

  /** What either end of an upload leaves. */
  ghost predicate Outcome(s: State, t: State, u: nat, st: Staged, key: Key, dropped: bool, cleaned: bool)
    requires u in s.uploads && s.uploads[u].phase.Streamed?
  {
    var b, x := Began(s, u, st, key, dropped), s.uploads[u];
    if Usable(s, x.claims) && Roomy(s, u) then Landed(b, t, u, x.claims, st, key, s.now)
    else t == b.(uploads := s.uploads - {u}, blobs := if cleaned then b.blobs - {key} else b.blobs)
  }

  ghost predicate Twin(r: FileRow, claims: Claims, st: Staged) {
    r.tenant == claims.tenant && r.checksum == st.checksum && r.deletedAt.None?
  }

  ghost predicate Finds(s: State, claims: Claims, st: Staged, hit: Option<IdHex>) {
    if hit.Some? then hit.value in s.files && Twin(s.files[hit.value], claims, st)
    else forall f | f in s.files :: !Twin(s.files[f], claims, st)
  }

  /** The lookup finds a live row of the tenant with the same checksum, or that there is none. */
  lemma LookupIff(s: State, claims: Claims, st: Staged, hit: Option<IdHex>)
    ensures LookupEnabled(s, claims, st, hit) <==> Finds(s, claims, st, hit)
  {
  }

  lemma UploadRun(c: Config, s: State, u: nat, hit: Option<IdHex>, key: Key, dropOk: bool, cleanOk: bool)
    returns (steps: seq<Step>, t: State)
    requires u in s.uploads && s.uploads[u].phase.Streamed? && Alone(s, u)
    requires NoRow(s.files, s.uploads[u].phase.st.key)
    requires Finds(s, s.uploads[u].claims, s.uploads[u].phase.st, hit)
    requires key == if hit.Some? then s.files[hit.value].key else s.uploads[u].phase.st.key
    ensures Runs(c, ANY, s, steps, t) && OwnSteps(steps, u)
    ensures Outcome(s, t, u, s.uploads[u].phase.st, key, hit.Some? && dropOk, hit.None? && cleanOk)
  {
    LookupIff(s, s.uploads[u].claims, s.uploads[u].phase.st, hit);
    var xs, k := ToTransaction(c, s, u, hit, dropOk);
    steps, t := FinishRun(c, s, u, s.uploads[u].phase.st, key, hit.Some? && dropOk, xs, cleanOk);
  }

  lemma OutcomeIs(s: State, t: State, u: nat, st: Staged, key: Key, dropped: bool, cleaned: bool)
    requires u in s.uploads && s.uploads[u].phase.Streamed? && s.uploads[u].phase.st == st
    requires s.uploads[u].claims.tenant in s.quotas && s.uploads[u].claims.tenant in s.counters
    requires Outcome(s, t, u, st, key, dropped, cleaned) && (cleaned ==> key == st.key && !dropped)
    ensures t.uploads == s.uploads - {u}
    ensures var claims := s.uploads[u].claims;
            var n, tenant, kept := claims.nonce, claims.tenant, s.counters[claims.tenant];
            if n in s.grants && s.grants[n].tenant == tenant && s.grants[n].consumed.None? &&
               s.grants[n].expires > s.now && (s.quotas[tenant] <= 0 || kept.used + st.size <= s.quotas[tenant])
            then
              && t.files == s.files[st.id := FileRow(tenant, claims.policy, claims.category, key, st.contentType,
                                                     st.size, st.checksum, claims.visibility, None)]
              && t.grants == s.grants[n := s.grants[n].(consumed := Some(s.now))]
              && t.counters == s.counters[tenant := Counter(kept.used + st.size, kept.objects + 1)]
              && t.events == s.events + [Event(tenant, Upload, st.size)]
              && t.blobs == if dropped then s.blobs - {st.key} else s.blobs
            else
              && t.files == s.files && t.grants == s.grants && t.counters == s.counters && t.events == s.events
              && t.blobs == if dropped || cleaned then s.blobs - {st.key} else s.blobs
  {
    AdmittedIff(s, u);
    if Usable(s, s.uploads[u].claims) && Roomy(s, u) {
      LandedIs(s, t, u, st, key, dropped);
    }
  }

  lemma AdmittedIff(s: State, u: nat)
    requires u in s.uploads && s.uploads[u].phase.Streamed?
    requires s.uploads[u].claims.tenant in s.quotas && s.uploads[u].claims.tenant in s.counters
    ensures var n, tenant, size := s.uploads[u].claims.nonce, s.uploads[u].claims.tenant, s.uploads[u].phase.st.size;
            Usable(s, s.uploads[u].claims) && Roomy(s, u) <==>
              && n in s.grants && s.grants[n].tenant == tenant && s.grants[n].consumed.None?
              && s.grants[n].expires > s.now
              && (s.quotas[tenant] <= 0 || s.counters[tenant].used + size <= s.quotas[tenant])
  {
  }

  /**
   * An upload whose body is stored, under a key that is still nobody else's, can be finished by its own
   * steps: with no other transaction in its way it commits if its grant is unused and unexpired and the quota
   * has room, on the key of the live duplicate `hit`, if any, and is refused otherwise; and it leaves
   * what the handler leaves.
   */
  lemma UninterruptedUpload(c: Config, s: State, u: nat, hit: Option<IdHex>, key: Key, dropOk: bool, cleanOk: bool)
    returns (steps: seq<Step>, t: State)
    requires u in s.uploads && s.uploads[u].phase.Streamed? && NoRow(s.files, s.uploads[u].phase.st.key)
    requires !s.lock.Restoring?
    requires forall v | v in s.uploads && v != u :: !s.uploads[v].phase.Consumed? && !s.uploads[v].phase.Checked?
    requires s.uploads[u].claims.tenant in s.quotas && s.uploads[u].claims.tenant in s.counters
    requires Finds(s, s.uploads[u].claims, s.uploads[u].phase.st, hit)
    requires key == if hit.Some? then s.files[hit.value].key else s.uploads[u].phase.st.key
    ensures Runs(c, ANY, s, steps, t)
    ensures forall i | 0 <= i < |steps| :: steps[i].Up? && steps[i].u == u && !steps[i].up.Crash?
    ensures t.uploads == s.uploads - {u}
    ensures var claims, st := s.uploads[u].claims, s.uploads[u].phase.st;
            var n, tenant, kept := claims.nonce, claims.tenant, s.counters[claims.tenant];
            if n in s.grants && s.grants[n].tenant == tenant && s.grants[n].consumed.None? &&
               s.grants[n].expires > s.now && (s.quotas[tenant] <= 0 || kept.used + st.size <= s.quotas[tenant])
            then
              && t.files == s.files[st.id := FileRow(tenant, claims.policy, claims.category, key, st.contentType,
                                                     st.size, st.checksum, claims.visibility, None)]
              && t.grants == s.grants[n := s.grants[n].(consumed := Some(s.now))]
              && t.counters == s.counters[tenant := Counter(kept.used + st.size, kept.objects + 1)]
              && t.events == s.events + [Event(tenant, Upload, st.size)]
              && t.blobs == if hit.Some? && dropOk then s.blobs - {st.key} else s.blobs
            else
              && t.files == s.files && t.grants == s.grants && t.counters == s.counters && t.events == s.events
              && t.blobs == if (hit.Some? && dropOk) || (hit.None? && cleanOk) then s.blobs - {st.key} else s.blobs
  {
    steps, t := UploadRun(c, s, u, hit, key, dropOk, cleanOk);
    OutcomeIs(s, t, u, s.uploads[u].phase.st, key, hit.Some? && dropOk, hit.None? && cleanOk);
  }

  // ---------------------------------------------------------------- a restore, step by step

  ghost predicate RowSteps(steps: seq<Step>) {
    forall i | 0 <= i < |steps| :: steps[i].Row? && !steps[i].row.DeleteFile?
  }

  /** A restore of `f` holds the lock. */
  ghost function Held(s: State, f: IdHex, p: RestorePhase): State {
    s.(lock := Restoring(f, p))
  }

  lemma AbortIs(c: Config, s: State, f: IdHex, p: RestorePhase)
    requires s.lock.Free?
    ensures Leads(c, Held(s, f, p), Row(RestoreAbort), s)
  {
  }

  lemma MarkIs(c: Config, s: State, f: IdHex)
    requires s.lock.Free? && f in s.files && !Live(s.files[f])
    ensures Leads(c, s, Row(RestoreLock(f)), Held(s, f, Waiting))
    ensures Leads(c, Held(s, f, Waiting), Row(RestoreMark), Held(s, f, Marked))
  {
  }

  lemma StatIs(c: Config, s: State, f: IdHex)
    requires f in s.files && s.files[f].key in s.blobs
    ensures Leads(c, Held(s, f, Marked), Row(RestoreStat), Held(s, f, Verified))
  {
  }

  ghost function Restored(s: State, f: IdHex): State
    requires f in s.files
  {
    var r := s.files[f];
    s.(files := s.files[f := r.(deletedAt := None)], counters := CreditUsage(s.counters, r.tenant, r.size),
       events := s.events + [Event(r.tenant, Restore, r.size)])
  }

  /** The metering of a restore, under the counter's row lock. */
  lemma QuotaIs(c: Config, s: State, f: IdHex)
    requires f in s.files && Quota(s, s.files[f].tenant) > 0
    requires forall v | v in s.uploads :: !s.uploads[v].phase.Checked?
    requires Used(s, s.files[f].tenant) + s.files[f].size <= Quota(s, s.files[f].tenant)
    ensures Leads(c, Held(s, f, Verified), Row(RestoreQuota), Held(s, f, Metered(Used(s, s.files[f].tenant))))
  {
  }

  lemma RestoreCommitIs(c: Config, s: State, f: IdHex, p: RestorePhase)
    requires s.lock.Free? && f in s.files
    requires p.Metered? || (p.Verified? && Quota(s, s.files[f].tenant) <= 0 &&
                            forall v | v in s.uploads :: !s.uploads[v].phase.Checked?)
    ensures Leads(c, Held(s, f, p), Row(RestoreCommit), Restored(s, f))
  {
  }

  /** From the verified blob to the end: over quota or not. */
  lemma FinishRestore(c: Config, s: State, f: IdHex) returns (steps: seq<Step>, t: State)
    requires s.lock.Free? && f in s.files && forall v | v in s.uploads :: !s.uploads[v].phase.Checked?
    ensures Runs(c, ANY, Held(s, f, Verified), steps, t) && RowSteps(steps)
    ensures var q, r := Quota(s, s.files[f].tenant), s.files[f];
            t == if q <= 0 || Used(s, r.tenant) + r.size <= q then Restored(s, f) else s
  {
    var q, r := Quota(s, s.files[f].tenant), s.files[f];
    if q <= 0 {
      steps, t := [Row(RestoreCommit)], Restored(s, f);
      RestoreCommitIs(c, s, f, Verified);
      OneRun(c, Held(s, f, Verified), Row(RestoreCommit), t);
    } else if Used(s, r.tenant) + r.size <= q {
      steps, t := [Row(RestoreQuota), Row(RestoreCommit)], Restored(s, f);
      var s1 := Held(s, f, Metered(Used(s, r.tenant)));
      QuotaIs(c, s, f);
      RestoreCommitIs(c, s, f, s1.lock.phase);
      TwoRun(c, Held(s, f, Verified), Row(RestoreQuota), s1, Row(RestoreCommit), t);
    } else {
      steps, t := [Row(RestoreAbort)], s;
      AbortIs(c, s, f, Verified);
      OneRun(c, Held(s, f, Verified), Row(RestoreAbort), s);
    }
  }

  /** From the tombstone to the end: the blob is there or not. */
  lemma VerifyRestore(c: Config, s: State, f: IdHex) returns (steps: seq<Step>, t: State)
    requires s.lock.Free? && f in s.files && forall v | v in s.uploads :: !s.uploads[v].phase.Checked?
    ensures Runs(c, ANY, Held(s, f, Marked), steps, t) && RowSteps(steps)
    ensures var q, r := Quota(s, s.files[f].tenant), s.files[f];
            t == if r.key in s.blobs && (q <= 0 || Used(s, r.tenant) + r.size <= q) then Restored(s, f) else s
  {
    if s.files[f].key in s.blobs {
      StatIs(c, s, f);
      OneRun(c, Held(s, f, Marked), Row(RestoreStat), Held(s, f, Verified));
      var ys;
      ys, t := FinishRestore(c, s, f);
      RunsJoin(c, ANY, Held(s, f, Marked), [Row(RestoreStat)], Held(s, f, Verified), ys, t);
      steps := [Row(RestoreStat)] + ys;
    } else {
      steps, t := [Row(RestoreAbort)], s;
      AbortIs(c, s, f, Marked);
      OneRun(c, Held(s, f, Marked), Row(RestoreAbort), s);
    }
  }

  lemma RestoreRun(c: Config, s: State, f: IdHex) returns (steps: seq<Step>, t: State)
    requires s.lock.Free? && forall v | v in s.uploads :: !s.uploads[v].phase.Checked?
    ensures Runs(c, ANY, s, steps, t) && RowSteps(steps)
    ensures t == if f in s.files && !Live(s.files[f]) && s.files[f].key in s.blobs &&
                    (Quota(s, s.files[f].tenant) <= 0 ||
                     Used(s, s.files[f].tenant) + s.files[f].size <= Quota(s, s.files[f].tenant))
                 then Restored(s, f) else s
  {
    if f in s.files && !Live(s.files[f]) {
      MarkIs(c, s, f);
      TwoRun(c, s, Row(RestoreLock(f)), Held(s, f, Waiting), Row(RestoreMark), Held(s, f, Marked));
      var ys;
      ys, t := VerifyRestore(c, s, f);
      RunsJoin(c, ANY, s, [Row(RestoreLock(f)), Row(RestoreMark)], Held(s, f, Marked), ys, t);
      steps := [Row(RestoreLock(f)), Row(RestoreMark)] + ys;
    } else {
      steps, t := [Row(RestoreLock(f)), Row(RestoreAbort)], s;
      AbortIs(c, s, f, Waiting);
      assert Leads(c, s, Row(RestoreLock(f)), Held(s, f, Waiting));
      TwoRun(c, s, Row(RestoreLock(f)), Held(s, f, Waiting), Row(RestoreAbort), s);
    }
  }

  /**
   * A restore that finds the locks free restores the row if and only if it is in the trash, its bytes
   * are there and the quota has room; it then meters it, and otherwise leaves everything as it was.
   */
  lemma UninterruptedRestore(c: Config, s: State, f: IdHex) returns (steps: seq<Step>, t: State)
    requires s.lock.Free? && forall v | v in s.uploads :: !s.uploads[v].phase.Checked?
    requires f in s.files ==> s.files[f].tenant in s.quotas && s.files[f].tenant in s.counters
    ensures Runs(c, ANY, s, steps, t)
    ensures forall i | 0 <= i < |steps| :: steps[i].Row? && !steps[i].row.DeleteFile?
    ensures if f in s.files && s.files[f].deletedAt.Some? && s.files[f].key in s.blobs &&
               (s.quotas[s.files[f].tenant] <= 0 ||
                s.counters[s.files[f].tenant].used + s.files[f].size <= s.quotas[s.files[f].tenant])
            then
              var r, kept := s.files[f], s.counters[s.files[f].tenant];
              t == s.(files := s.files[f := r.(deletedAt := None)],
                      counters := s.counters[r.tenant := Counter(kept.used + r.size, kept.objects + 1)],
                      events := s.events + [Event(r.tenant, Restore, r.size)])
            else t == s
  {
    steps, t := RestoreRun(c, s, f);
  }
}
