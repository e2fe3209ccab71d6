/**
 * The file operations one at a time, as the request handlers carry them out: exactly when each
 * succeeds, with which error it refuses, and what it leaves. Between operations every live file is
 * readable and the books balance.
 */
module FileOps {
  import opened Basics
  import opened Keys
  import opened Lifecycle
  import opened LifecycleAccounts
  import opened Tally

  datatype Refusal = Unauthorized | QuotaExceeded | NotFound | Gone | UnknownPolicy

  datatype Outcome = Done | Refused(why: Refusal)

  type Files = map<IdHex, FileRow>

  type Blobs = map<Key, Blob>

  type Counters = map<Uuid, Counter>

  /** A stored blob is what the row says. */
  predicate Stores(blobs: Blobs, r: FileRow) {
    r.key in blobs && |blobs[r.key].bytes| == r.size && Sha256(blobs[r.key].bytes) == r.checksum
  }

  /** Every live row has its bytes, and rows that share a key describe the same bytes. */
  ghost predicate Readable(files: Files, blobs: Blobs) {
    && (forall f | f in files && Live(files[f]) :: Stores(blobs, files[f]))
    && (forall f | f in files && files[f].key in blobs :: Stores(blobs, files[f]))
  }

  /** The nonce can still be consumed by this tenant. */
  predicate Usable(grants: map<Nonce, GrantRow>, claims: Claims, now: int) {
    && claims.nonce in grants && grants[claims.nonce].tenant == claims.tenant
    && grants[claims.nonce].consumed.None? && grants[claims.nonce].expires > now
  }

  predicate Fits(counters: Counters, t: Uuid, quota: int, size: nat) {
    quota <= 0 || UsedBy(counters, t) + size <= quota
  }

  /** Live rows with the bytes just uploaded. */
  function Duplicates(files: Files, tenant: Uuid, checksum: Digest): set<IdHex> {
    set f | f in files && Duplicate(files[f], tenant, checksum)
  }

  function UsedBy(counters: Counters, t: Uuid): int {
    if t in counters then counters[t].used else 0
  }

  ghost predicate Sound(files: Files, blobs: Blobs, counters: Counters, events: seq<Event>) {
    && Readable(files, blobs)
    && BooksOk(counters, files, events)
    && (forall f | f in files :: files[f].tenant in counters)
  }

  class Service {
    var files: Files
    var blobs: Blobs
    var grants: map<Nonce, GrantRow>
    var counters: Counters
    var events: seq<Event>

    ghost predicate Valid()
      reads this
    {
      Sound(files, blobs, counters, events)
    }

    constructor ()
      ensures Valid() && files == map[] && blobs == map[] && grants == map[] && counters == map[] && events == []
    {
      files, blobs, grants, counters, events := map[], map[], map[], map[], [];
    }

    // ---------------------------------------------------------------- metering

    method RecordUpload(t: Uuid, bytes: nat)
      modifies this`events, this`counters
      ensures events == old(events) + [Event(t, Upload, bytes)] && counters == AddUsage(old(counters), t, bytes)
    {
      events := events + [Event(t, Upload, bytes)];
      if t in counters {
        counters := counters[t := Counter(counters[t].used + bytes, counters[t].objects + 1)];
      } else {
        counters := counters[t := Counter(bytes, 1)];
      }
    }

    method RecordRestore(t: Uuid, bytes: nat)
      modifies this`events, this`counters
      ensures events == old(events) + [Event(t, Restore, bytes)] && counters == CreditUsage(old(counters), t, bytes)
    {
      events := events + [Event(t, Restore, bytes)];
      if t in counters {
        counters := counters[t := Counter(counters[t].used + bytes, counters[t].objects + 1)];
      }
    }

    method RecordDelete(t: Uuid, bytes: nat)
      modifies this`events, this`counters
      ensures events == old(events) + [Event(t, Delete, bytes)] && counters == DropUsage(old(counters), t, bytes)
    {
      events := events + [Event(t, Delete, bytes)];
      if t in counters {
        counters := counters[t := Counter(Max(0, counters[t].used - bytes), Max(0, counters[t].objects - 1))];
      }
    }

    // ---------------------------------------------------------------- grants

    /** The nonce row and the signed claims agree on tenant and expiry. */
    method MintGrant(t: Uuid, policy: Option<Policy>, requested: Option<int>, configured: int, nonce: Nonce, now: int)
      returns (r: Outcome, claims: Option<Claims>)
      requires nonce !in grants
      modifies this`grants
      ensures r == if policy.None? then Refused(UnknownPolicy) else Done
      ensures policy.None? ==> claims.None? && grants == old(grants)
      ensures policy.Some? ==>
                && claims.Some? && claims.value.nonce == nonce && claims.value.tenant == t
                && (var asked := if requested.Some? then requested.value else configured;
                    && (30 <= asked <= 3600 ==> claims.value.exp == now + asked)
                    && (asked < 30 ==> claims.value.exp == now + 30)
                    && (asked > 3600 ==> claims.value.exp == now + 3600))
                && grants == old(grants)[nonce := GrantRow(t, claims.value.exp, None)]
                && claims.value.policy == policy.value.key && claims.value.category == policy.value.category
                && claims.value.max == policy.value.maxSize && claims.value.types == policy.value.types
                && claims.value.visibility == policy.value.visibility
    {
      if policy.None? {
        return Refused(UnknownPolicy), None;
      }
      var p := policy.value;
      var expires := now + GrantTtl(if requested.Some? then requested.value else configured);
      grants := grants[nonce := GrantRow(t, expires, None)];
      claims := Some(Claims(t, p.key, p.category, p.maxSize, p.types, nonce, expires, p.visibility));
      r := Done;
    }

    // ---------------------------------------------------------------- upload

    /** Adopt the key of a live duplicate and drop the blob just written, or keep that blob. */
    method Dedupe(tenant: Uuid, st: Staged, dropOk: bool) returns (key: Key, wroteNew: bool)
      requires st.key in blobs && NoRow(files, st.key)
      modifies this`blobs
      ensures wroteNew <==> key == st.key
      ensures wroteNew <==> Duplicates(files, tenant, st.checksum) == {}
      ensures !wroteNew ==> exists f :: f in Duplicates(files, tenant, st.checksum) && files[f].key == key
      ensures blobs == if !wroteNew && dropOk then old(blobs) - {st.key} else old(blobs)
    {
      var hits := Duplicates(files, tenant, st.checksum);
      if hits == {} {
        return st.key, true;
      }
      var f :| f in hits;
      key, wroteNew := files[f].key, false;
      if dropOk {
        blobs := blobs - {st.key};
      }
    }

    /**
     * Everything after the body was streamed to `st.key`. The upload succeeds if and only if its grant
     * is unused and unexpired and the quota has room. It takes the key of a live row of the tenant with
     * the same checksum, if there is one; then, or when it is refused, its own blob is dropped.
     */
    method FinishUpload(claims: Claims, st: Staged, quota: int, now: int, dropOk: bool, cleanOk: bool)
      returns (r: Outcome, key: Key)
      requires Valid() && st.id !in files && claims.tenant in counters
      requires NoRow(files, st.key) && Stores(blobs, RowFor(claims, st, st.key))
      modifies this
      ensures Valid()
      ensures var g, t := old(grants), claims.tenant;
              var usable := claims.nonce in g && g[claims.nonce].tenant == t && g[claims.nonce].consumed.None? &&
                            g[claims.nonce].expires > now;
              r == if !usable then Refused(Unauthorized)
                   else if quota > 0 && old(counters)[t].used + st.size > quota then Refused(QuotaExceeded) else Done
      ensures key != st.key <==>
                exists f :: f in old(files) && old(files)[f].tenant == claims.tenant &&
                            old(files)[f].checksum == st.checksum && old(files)[f].deletedAt.None?
      ensures key != st.key ==>
                exists f :: f in old(files) && old(files)[f].tenant == claims.tenant &&
                            old(files)[f].checksum == st.checksum && old(files)[f].deletedAt.None? &&
                            old(files)[f].key == key
      ensures blobs == if (if key != st.key then dropOk else r.Refused? && cleanOk) then old(blobs) - {st.key}
                       else old(blobs)
      ensures r.Refused? ==>
                files == old(files) && grants == old(grants) && counters == old(counters) && events == old(events)
      ensures r.Done? ==>
                var t := claims.tenant;
                && files == old(files)[st.id := FileRow(t, claims.policy, claims.category, key, st.contentType, st.size,
                                                        st.checksum, claims.visibility, None)]
                && key in blobs && |blobs[key].bytes| == st.size && Sha256(blobs[key].bytes) == st.checksum
                && grants == old(grants)[claims.nonce := old(grants)[claims.nonce].(consumed := Some(now))]
                && counters.Keys == old(counters).Keys
                && counters[t] == Counter(old(counters)[t].used + st.size, old(counters)[t].objects + 1)
                && (forall x | x in counters && x != t :: counters[x] == old(counters)[x])
                && events == old(events) + [Event(t, Upload, st.size)]
                && (quota > 0 ==> counters[t].used <= quota)
    {
      ghost var files0 := files;
      var wroteNew;
      r, key, wroteNew := DedupeAndCommit(claims, st, quota, now, dropOk, cleanOk);
      TwinIs(files0, claims.tenant, st.checksum, key);
    }

    method DedupeAndCommit(claims: Claims, st: Staged, quota: int, now: int, dropOk: bool, cleanOk: bool)
      returns (r: Outcome, key: Key, wroteNew: bool)
      requires Valid() && st.id !in files && claims.tenant in counters
      requires NoRow(files, st.key) && Stores(blobs, RowFor(claims, st, st.key))
      modifies this
      ensures Valid()
      ensures wroteNew <==> key == st.key
      ensures wroteNew <==> Duplicates(old(files), claims.tenant, st.checksum) == {}
      ensures !wroteNew ==>
                exists f :: f in Duplicates(old(files), claims.tenant, st.checksum) && old(files)[f].key == key
      ensures blobs == if (if wroteNew then r.Refused? && cleanOk else dropOk) then old(blobs) - {st.key}
                       else old(blobs)
      ensures r == if !Usable(old(grants), claims, now) then Refused(Unauthorized)
                   else if !Fits(old(counters), claims.tenant, quota, st.size) then Refused(QuotaExceeded) else Done
      ensures r.Refused? ==>
                files == old(files) && grants == old(grants) && counters == old(counters) && events == old(events)
      ensures r.Done? ==>
                && files == old(files)[st.id := RowFor(claims, st, key)] && Stores(blobs, RowFor(claims, st, key))
                && grants == old(grants)[claims.nonce := old(grants)[claims.nonce].(consumed := Some(now))]
                && counters == AddUsage(old(counters), claims.tenant, st.size)
                && events == old(events) + [Event(claims.tenant, Upload, st.size)]
    {
      ghost var files0, blobs0 := files, blobs;
      key, wroteNew := Dedupe(claims.tenant, st, dropOk);
      LosingOwnBlob(files0, blobs0, st.key);
      StoredUnder(files0, blobs0, blobs, claims, st, key);
      r := Transact(claims, st, key, quota, now);
      if r.Refused? && wroteNew && cleanOk {
        blobs := blobs - {key};
      }
    }

    /** The transaction of an upload: all of it, or nothing. */
    method Transact(claims: Claims, st: Staged, key: Key, quota: int, now: int) returns (r: Outcome)
      requires Valid() && st.id !in files && claims.tenant in counters
      requires Stores(blobs, RowFor(claims, st, key))
      modifies this`files, this`grants, this`counters, this`events
      ensures Valid()
      ensures r == if !Usable(old(grants), claims, now) then Refused(Unauthorized)
                   else if !Fits(old(counters), claims.tenant, quota, st.size) then Refused(QuotaExceeded) else Done
      ensures r.Refused? ==>
                files == old(files) && grants == old(grants) && counters == old(counters) && events == old(events)
      ensures r.Done? ==>
                && files == old(files)[st.id := RowFor(claims, st, key)]
                && grants == old(grants)[claims.nonce := old(grants)[claims.nonce].(consumed := Some(now))]
                && counters == AddUsage(old(counters), claims.tenant, st.size)
                && events == old(events) + [Event(claims.tenant, Upload, st.size)]
    {
      if !Usable(grants, claims, now) {
        return Refused(Unauthorized);
      }
      if quota > 0 {
        var used := UsedBy(counters, claims.tenant);
        if used + st.size > quota {
          return Refused(QuotaExceeded);
        }
      }
      var row := RowFor(claims, st, key);
      BooksAfterCommit(counters, files, events, st.id, row);
      ReadableWithRow(files, blobs, st.id, row);
      grants := grants[claims.nonce := grants[claims.nonce].(consumed := Some(now))];
      files := files[st.id := row];
      RecordUpload(claims.tenant, st.size);
      r := Done;
    }

    // ---------------------------------------------------------------- delete and restore

    method DeleteFile(t: Uuid, f: IdHex, now: int) returns (r: Outcome)
      requires Valid()
      modifies this`files, this`counters, this`events
      ensures Valid()
      ensures r == if f in old(files) && old(files)[f].tenant == t && old(files)[f].deletedAt.None? then Done
                   else Refused(NotFound)
      ensures r.Refused? ==> files == old(files) && counters == old(counters) && events == old(events)
      ensures r.Done? ==>
                && files == old(files)[f := old(files)[f].(deletedAt := Some(now))]
                && t in old(counters)
                && counters == old(counters)[t := Counter(old(counters)[t].used - old(files)[f].size,
                                                          old(counters)[t].objects - 1)]
                && counters[t].used >= 0 && counters[t].objects >= 0
                && events == old(events) + [Event(t, Delete, old(files)[f].size)]
    {
      if f !in files || files[f].tenant != t || !Live(files[f]) {
        return Refused(NotFound);
      }
      var size := files[f].size;
      DeleteIsCovered(counters, files, events, f);
      Debited(counters, t, size);
      BooksAfterDelete(counters, files, events, f, now);
      LosingLiveRow(files, blobs, f, now);
      files := files[f := files[f].(deletedAt := Some(now))];
      RecordDelete(t, size);
      r := Done;
    }

    /** Refuses what is not in the trash, what has lost its bytes, and what no longer fits, in that order. */
    method RestoreFile(t: Uuid, f: IdHex, quota: int) returns (r: Outcome)
      requires Valid()
      modifies this`files, this`counters, this`events
      ensures Valid()
      ensures r == if f !in old(files) || old(files)[f].tenant != t || old(files)[f].deletedAt.None?
                   then Refused(NotFound)
                   else if old(files)[f].key !in blobs then Refused(Gone)
                   else if quota > 0 && old(counters)[t].used + old(files)[f].size > quota then Refused(QuotaExceeded)
                   else Done
      ensures r.Refused? ==> files == old(files) && counters == old(counters) && events == old(events)
      ensures r.Done? ==>
                && files == old(files)[f := old(files)[f].(deletedAt := None)]
                && |blobs[files[f].key].bytes| == files[f].size
                && Sha256(blobs[files[f].key].bytes) == files[f].checksum
                && t in old(counters) && counters.Keys == old(counters).Keys
                && counters[t] == Counter(old(counters)[t].used + old(files)[f].size, old(counters)[t].objects + 1)
                && (forall x | x in counters && x != t :: counters[x] == old(counters)[x])
                && events == old(events) + [Event(t, Restore, old(files)[f].size)]
                && (quota > 0 ==> counters[t].used <= quota)
    {
      if f !in files || files[f].tenant != t || Live(files[f]) {
        return Refused(NotFound);
      }
      var size := files[f].size;
      if files[f].key !in blobs {
        return Refused(Gone);
      }
      if quota > 0 {
        var used := UsedBy(counters, t);
        if used + size > quota {
          return Refused(QuotaExceeded);
        }
      }
      Revive(f);
      r := Done;
    }

    /** A row leaves the trash, metered. */
    method Revive(f: IdHex)
      requires Valid() && f in files && !Live(files[f]) && files[f].key in blobs
      modifies this`files, this`counters, this`events
      ensures Valid() && f in files && Stores(blobs, files[f])
      ensures files == old(files)[f := old(files)[f].(deletedAt := None)]
      ensures counters == CreditUsage(old(counters), old(files)[f].tenant, old(files)[f].size)
      ensures events == old(events) + [Event(old(files)[f].tenant, Restore, old(files)[f].size)]
    {
      var row := files[f].(deletedAt := None);
      BooksAfterRestore(counters, files, events, f);
      ReadableWithRow(files, blobs, f, row);
      files := files[f := row];
      RecordRestore(row.tenant, row.size);
    }
  }

  // ---------------------------------------------------------------- what the operations rely on

  lemma TwinIs(files: Files, t: Uuid, checksum: Digest, key: Key)
    ensures Duplicates(files, t, checksum) != {} <==>
              exists f :: f in files && files[f].tenant == t && files[f].checksum == checksum &&
                          files[f].deletedAt.None?
    ensures (exists f :: f in Duplicates(files, t, checksum) && files[f].key == key) <==>
              exists f :: f in files && files[f].tenant == t && files[f].checksum == checksum &&
                          files[f].deletedAt.None? && files[f].key == key
  {
    if f :| f in files && Duplicate(files[f], t, checksum) {
      assert f in Duplicates(files, t, checksum);
    }
    if f :| f in files && Duplicate(files[f], t, checksum) && files[f].key == key {
      assert f in Duplicates(files, t, checksum);
    }
  }

  /** A delete that is covered takes them off. */
  lemma Debited(counters: Counters, t: Uuid, bytes: nat)
    requires t in counters && counters[t].used >= bytes && counters[t].objects >= 1
    ensures DropUsage(counters, t, bytes) ==
            counters[t := Counter(counters[t].used - bytes, counters[t].objects - 1)]
  {
  }

  lemma LosingLiveRow(files: Files, blobs: Blobs, f: IdHex, now: int)
    requires Readable(files, blobs) && f in files && Live(files[f])
    ensures Readable(files[f := files[f].(deletedAt := Some(now))], blobs)
  {
  }

  lemma ReadableWithRow(files: Files, blobs: Blobs, f: IdHex, row: FileRow)
    requires Readable(files, blobs) && Stores(blobs, row)
    ensures Readable(files[f := row], blobs)
  {
  }

  lemma LosingOwnBlob(files: Files, blobs: Blobs, k: Key)
    requires Readable(files, blobs) && NoRow(files, k)
    ensures Readable(files, blobs - {k})
  {
  }

  /** A duplicate has the checksum, hence the very bytes, of the upload that adopts its key. */
  lemma StoredUnder(files: Files, before: Blobs, after: Blobs, claims: Claims, st: Staged, key: Key)
    requires Readable(files, before) && NoRow(files, st.key) && Stores(before, RowFor(claims, st, st.key))
    requires key == st.key ==> after == before
    requires key != st.key ==> exists f :: f in Duplicates(files, claims.tenant, st.checksum) && files[f].key == key
    requires after == before || after == before - {st.key}
    ensures Stores(after, RowFor(claims, st, key))
  {
    if key != st.key {
      var f :| f in Duplicates(files, claims.tenant, st.checksum) && files[f].key == key;
      assert Stores(before, files[f]);
      assert Sha256(before[key].bytes) == Sha256(before[st.key].bytes);
    }
  }

  // ---------------------------------------------------------------- what one call undoes

  /**
   * Restoring what was just deleted undoes it: rows and counters are as before, the ledger nets to
   * zero, and a quota that was respected leaves room.
   */
  lemma RestoreUndoesDelete(files: Files, counters: Counters, events: seq<Event>, f: IdHex, now: int, quota: int)
    requires BooksOk(counters, files, events) && f in files && Live(files[f]) && files[f].tenant in counters
    requires quota > 0 ==> counters[files[f].tenant].used <= quota
    ensures var r := files[f];
            var dropped := DropUsage(counters, r.tenant, r.size);
            && files[f := r.(deletedAt := Some(now))][f := r.(deletedAt := None)] == files
            && CreditUsage(dropped, r.tenant, r.size) == counters
            && (quota > 0 ==> r.tenant in dropped && dropped[r.tenant].used + r.size <= quota)
            && (forall t :: Ledger(events + Undone(r), t) == Ledger(events, t))
  {
    DeleteIsCovered(counters, files, events, f);
    forall t
      ensures Ledger(events + Undone(files[f]), t) == Ledger(events, t)
    {
      UndoneNetsToZero(events, files[f], t);
    }
  }

  lemma UndoneNetsToZero(events: seq<Event>, r: FileRow, t: Uuid)
    ensures Ledger(events + Undone(r), t) == Ledger(events, t)
  {
    var deleted, restored := Event(r.tenant, Delete, r.size), Event(r.tenant, Restore, r.size);
    LedgerAppend(events, t, deleted);
    LedgerAppend(events + [deleted], t, restored);
    assert events + Undone(r) == events + [deleted] + [restored];
  }

  /** What a delete and its restore leave in the ledger. */
  function Undone(r: FileRow): seq<Event> {
    [Event(r.tenant, Delete, r.size), Event(r.tenant, Restore, r.size)]
  }
}
