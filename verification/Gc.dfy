/**
 * Garbage collection run on its own: one sweep in one transaction. The result is exact and does
 * not depend on the order in which the sweep visits its candidates.
 */
module Gc {
  import opened Basics
  import opened Keys
  import opened Lifecycle

  datatype VariantRow = VariantRow(file: IdHex, key: Key)

  datatype Report = Report(blobsDeleted: nat, rowsPurged: nat)

  type Rows = map<IdHex, FileRow>

  type VariantRows = map<nat, VariantRow>

  // ---------------------------------------------------------------- what a sweep should do

  /** Rows a sweep over the keys `ks` purges. */
  ghost function Doomed(files: Rows, ks: set<Key>, cutoff: int): set<IdHex> {
    set f | f in files && files[f].key in ks && Expired(files[f], cutoff)
  }

  /** Variant rows that go with them (the foreign key cascades). */
  function Cascade(variants: VariantRows, gone: set<IdHex>): set<nat> {
    set v | v in variants && variants[v].file in gone
  }

  ghost function Unreferenced(files: Rows, ks: set<Key>): set<Key> {
    set k | k in ks && NoLive(files, k)
  }

  predicate NoVariant(variants: VariantRows, k: Key) {
    forall v | v in variants :: variants[v].key != k
  }

  function VariantKeys(variants: VariantRows, vs: set<nat>): set<Key> {
    set v | v in vs && v in variants :: variants[v].key
  }

  ghost function Unused(variants: VariantRows, ks: set<Key>): set<Key> {
    set k | k in ks && NoVariant(variants, k)
  }

  /** Variant blobs whose last referring row goes. */
  ghost function Orphaned(variants: VariantRows, gone: set<IdHex>): set<Key> {
    set v | v in Cascade(variants, gone) && NoVariant(variants - Cascade(variants, gone), variants[v].key) ::
      variants[v].key
  }

  ghost function Reclaimed(files: Rows, variants: VariantRows, ks: set<Key>, cutoff: int): set<Key> {
    Unreferenced(files, ks) + Orphaned(variants, Doomed(files, ks, cutoff))
  }

  /** Upload keys and variant keys are different keys, and variants belong to files. */
  ghost predicate WellKeyed(files: Rows, variants: VariantRows) {
    && (forall f | f in files :: files[f].key.Original?)
    && (forall v | v in variants :: variants[v].key.Variant?)
  }

  // ---------------------------------------------------------------- one more key

  lemma DoomedStep(files: Rows, ks: set<Key>, k: Key, cutoff: int)
    requires k !in ks
    ensures Doomed(files, ks + {k}, cutoff) == Doomed(files, ks, cutoff) + PurgeSet(files, k, cutoff)
    ensures Doomed(files, ks, cutoff) !! PurgeSet(files, k, cutoff)
    ensures PurgeSet(files - Doomed(files, ks, cutoff), k, cutoff) == PurgeSet(files, k, cutoff)
  {
  }

  lemma LiveSeenThroughPurge(files: Rows, ks: set<Key>, k: Key, cutoff: int)
    ensures NoLive(files - Doomed(files, ks, cutoff), k) <==> NoLive(files, k)
  {
    var rest := files - Doomed(files, ks, cutoff);
    forall f | f in files && Live(files[f])
      ensures f in rest && rest[f] == files[f]
    {
    }
  }

  lemma UnreferencedStep(files: Rows, ks: set<Key>, k: Key)
    ensures Unreferenced(files, ks + {k}) == Unreferenced(files, ks) + (if NoLive(files, k) then {k} else {})
  {
  }

  lemma CascadeStep(variants: VariantRows, a: set<IdHex>, b: set<IdHex>)
    ensures variants - Cascade(variants, a) - Cascade(variants - Cascade(variants, a), b) ==
            variants - Cascade(variants, a + b)
  {
  }

  /** Variant blobs orphaned by a further purge: those of its rows that nothing refers to after it. */
  lemma OrphanedStep(variants: VariantRows, a: set<IdHex>, b: set<IdHex>)
    ensures var rest := variants - Cascade(variants, a);
            Orphaned(variants, a + b) == Orphaned(variants, a) + Orphaned(rest, b)
            && Orphaned(variants, a) !! Orphaned(rest, b)
  {
    var rest := variants - Cascade(variants, a);
    CascadeStep(variants, a, b);
    forall k | k in Orphaned(variants, a + b)
      ensures k in Orphaned(variants, a) || k in Orphaned(rest, b)
    {
      var v :| v in Cascade(variants, a + b) && variants[v].key == k &&
               NoVariant(variants - Cascade(variants, a + b), k);
      if k !in Orphaned(variants, a) {
        if v in Cascade(variants, a) {
          var w :| w in rest && rest[w].key == k;
          assert w !in variants - Cascade(variants, a + b);
          assert w in Cascade(rest, b);
        } else {
          assert v in Cascade(rest, b);
        }
      }
    }
    forall k | k in Orphaned(variants, a)
      ensures k in Orphaned(variants, a + b) && k !in Orphaned(rest, b)
    {
      var v :| v in Cascade(variants, a) && variants[v].key == k;
      assert v in Cascade(variants, a + b);
      assert NoVariant(rest, k);
      assert NoVariant(variants - Cascade(variants, a + b), k);
    }
    forall k | k in Orphaned(rest, b)
      ensures k in Orphaned(variants, a + b)
    {
      var v :| v in Cascade(rest, b) && rest[v].key == k;
      assert v in Cascade(variants, a + b) && variants[v].key == k;
    }
  }

  lemma ReclaimedStep(files: Rows, variants: VariantRows, ks: set<Key>, k: Key, cutoff: int)
    requires WellKeyed(files, variants) && k !in ks && k.Original? && forall x | x in ks :: x.Original?
    ensures var gone := Doomed(files, ks, cutoff);
            var more := (if NoLive(files, k) then {k} else {}) +
                        Orphaned(variants - Cascade(variants, gone), PurgeSet(files, k, cutoff));
            Reclaimed(files, variants, ks + {k}, cutoff) == Reclaimed(files, variants, ks, cutoff) + more
            && Reclaimed(files, variants, ks, cutoff) !! more
  {
    var gone, b := Doomed(files, ks, cutoff), PurgeSet(files, k, cutoff);
    DoomedStep(files, ks, k, cutoff);
    UnreferencedStep(files, ks, k);
    OrphanedStep(variants, gone, b);
    assert forall x | x in Orphaned(variants, gone) :: x.Variant?;
    assert forall x | x in Orphaned(variants - Cascade(variants, gone), b) :: x.Variant?;
  }

  lemma DisjointSize<T>(a: set<T>, b: set<T>)
    requires a !! b
    ensures |a + b| == |a| + |b|
  {
  }

  /** Overlap with the undeletable keys, of a union from its parts. */
  lemma Overlap<T>(a: set<T>, b: set<T>, broken: set<T>)
    ensures (a + b) !! broken <==> a !! broken && b !! broken
  {
  }

  lemma MoveOne<T>(all: set<T>, todo: set<T>, x: T)
    requires todo <= all && x in todo
    ensures all - (todo - {x}) == (all - todo) + {x}
  {
  }

  lemma MinusTwice<K, V>(m: map<K, V>, a: set<K>, b: set<K>)
    ensures m - a - b == m - (a + b)
  {
  }

  // ---------------------------------------------------------------- the sweep

  /** The rows of the database and the store beside it. */
  class Hangar {
    var files: Rows
    var variants: VariantRows
    var blobs: map<Key, Blob>

    constructor (files: Rows, variants: VariantRows, blobs: map<Key, Blob>)
      ensures this.files == files && this.variants == variants && this.blobs == blobs
    {
      this.files, this.variants, this.blobs := files, variants, blobs;
    }

    /** Delete the variant blobs in `candidates` that no row of `rest` refers to. */
    method ReclaimVariants(rest: VariantRows, candidates: set<Key>, broken: set<Key>)
      returns (ok: bool, n: nat, ghost lost: set<Key>)
      modifies this`blobs
      ensures ok <==> Unused(rest, candidates) !! broken
      ensures ok ==> lost == Unused(rest, candidates)
      ensures lost <= Unused(rest, candidates) && n == |lost|
      ensures blobs == old(blobs) - lost
    {
      var todo := candidates;
      lost := {};
      n := 0;
      while todo != {}
        invariant todo <= candidates
        invariant lost == Unused(rest, candidates - todo)
        invariant lost !! broken && n == |lost|
        invariant blobs == old(blobs) - lost
        decreases todo
      {
        var k :| k in todo;
        todo := todo - {k};
        if NoVariant(rest, k) {
          if k in broken {
            assert k in Unused(rest, candidates);
            ok := false;
            return;
          }
          MinusTwice(old(blobs), lost, {k});
          blobs := blobs - {k};
          n := n + 1;
          lost := lost + {k};
        }
      }
      ok := true;
    }

    /** Reclaim and purge one candidate key, as the sweep's transaction sees the rows. */
    method SweepKey(rows: Rows, vrows: VariantRows, key: Key, cutoff: int, broken: set<Key>)
      returns (ok: bool, rows': Rows, vrows': VariantRows, n: nat, purged: nat, ghost lost: set<Key>)
      requires WellKeyed(rows, vrows) && key.Original?
      modifies this`blobs
      ensures var gone := PurgeSet(rows, key, cutoff);
              var due := (if NoLive(rows, key) then {key} else {}) + Orphaned(vrows, gone);
              && (ok <==> due !! broken)
              && lost <= due
              && (ok ==>
                    && lost == due && n == |due| && purged == |gone|
                    && rows' == rows - gone && vrows' == vrows - Cascade(vrows, gone))
      ensures blobs == old(blobs) - lost
    {
      rows', vrows', n, purged := rows, vrows, 0, 0;
      ok, lost := ReclaimOriginal(rows, key, broken);
      var gone := PurgeSet(rows, key, cutoff);
      Overlap(if NoLive(rows, key) then {key} else {}, Orphaned(vrows, gone), broken);
      if !ok {
        return;
      }
      var candidates := VariantKeys(vrows, Cascade(vrows, gone));
      rows', purged := rows - gone, |gone|;
      vrows' := vrows - Cascade(vrows, gone);
      OrphanedIsUnreferenced(vrows, gone);
      var m: nat;
      ghost var more: set<Key>;
      ok, m, more := ReclaimVariants(vrows', candidates, broken);
      OrphansAreVariants(rows, vrows, gone);
      DisjointSize(lost, more);
      MinusTwice(old(blobs), lost, more);
      n, lost := (if NoLive(rows, key) then 1 else 0) + m, lost + more;
    }

    /** Delete the blob under `key` if no live row holds it. */
    method ReclaimOriginal(rows: Rows, key: Key, broken: set<Key>) returns (ok: bool, ghost lost: set<Key>)
      modifies this`blobs
      ensures var due := if NoLive(rows, key) then {key} else {};
              && (ok <==> due !! broken)
              && lost == (if ok then due else {})
              && |lost| == if ok && NoLive(rows, key) then 1 else 0
      ensures blobs == old(blobs) - lost
    {
      ok, lost := true, {};
      if NoLive(rows, key) {
        if key in broken {
          Caught({key}, key, broken);
          ok := false;
          return;
        }
        blobs := blobs - {key};
        lost := {key};
      }
    }

    /** Sweep one more key; `before` was lost already. */
    method SweepNext(ghost files: Rows, ghost variants: VariantRows, ghost done: set<Key>, ghost ks: set<Key>, key: Key,
                     ghost tenant: Option<Uuid>, cutoff: int,
                     broken: set<Key>, rows: Rows, vrows: VariantRows, nb: nat, np: nat,
                     ghost start: map<Key, Blob>, ghost before: set<Key>)
      returns (ok: bool, rows': Rows, vrows': VariantRows, nb': nat, np': nat, ghost lost: set<Key>)
      requires WellKeyed(files, variants) && ks == Candidates(files, tenant, cutoff)
      requires key in ks && key !in done && done <= ks
      requires Progress(files, variants, done, cutoff, rows, vrows, nb, np, before) && before !! broken
      requires blobs == start - before
      modifies this`blobs
      ensures blobs == start - lost && lost <= Reclaimed(files, variants, ks, cutoff)
      ensures ok ==> Progress(files, variants, done + {key}, cutoff, rows', vrows', nb', np', lost) && lost !! broken
      ensures !ok ==> !(Reclaimed(files, variants, ks, cutoff) !! broken)
    {
      SweepStep(files, variants, done, key, ks, tenant, cutoff);
      var n, purged;
      ghost var more;
      ok, rows', vrows', n, purged, more := SweepKey(rows, vrows, key, cutoff, broken);
      lost := before + more;
      MinusTwice(start, before, more);
      nb', np' := nb + n, np + purged;
      if ok {
        Overlap(before, more, broken);
        ProgressStep(files, variants, done, key, ks, tenant, cutoff, rows, vrows, nb, np, before, n, purged, more);
      } else {
        BrokenStep(files, variants, done, key, ks, tenant, cutoff, broken);
      }
    }

    /** All the keys of `ks`, in any order, until one cannot be deleted. */
    method SweepKeys(files: Rows, variants: VariantRows, ks: set<Key>, ghost tenant: Option<Uuid>, cutoff: int,
                     broken: set<Key>)
      returns (ok: bool, rows: Rows, vrows: VariantRows, nb: nat, np: nat, ghost lost: set<Key>)
      requires WellKeyed(files, variants) && ks == Candidates(files, tenant, cutoff)
      modifies this`blobs
      ensures ok ==> Progress(files, variants, ks, cutoff, rows, vrows, nb, np, lost) && lost !! broken
      ensures !ok ==> !(Reclaimed(files, variants, ks, cutoff) !! broken)
      ensures lost <= Reclaimed(files, variants, ks, cutoff) && blobs == old(blobs) - lost
    {
      var todo := ks;
      ghost var start := blobs;
      ok, rows, vrows, nb, np, lost := true, files, variants, 0, 0, {};
      NothingDone(files, variants, cutoff);
      assert ks - todo == {};
      while todo != {}
        invariant todo <= ks
        invariant Progress(files, variants, ks - todo, cutoff, rows, vrows, nb, np, lost) && lost !! broken
        invariant lost <= Reclaimed(files, variants, ks, cutoff) && blobs == start - lost
        decreases todo
      {
        var key :| key in todo;
        ok, rows, vrows, nb, np, lost :=
          SweepNext(files, variants, ks - todo, ks, key, tenant, cutoff, broken, rows, vrows, nb, np, start, lost);
        if !ok {
          return;
        }
        MoveOne(ks, todo, key);
        todo := todo - {key};
      }
      assert ks - todo == ks;
    }

    /**
     * One sweep over `tenant` (or all tenants), as its own transaction: the row purges take effect
     * only if every blob could be deleted, blob deletes take effect at once.
     */
    method RunGc(tenant: Option<Uuid>, cutoff: int, broken: set<Key>) returns (r: Option<Report>, ghost lost: set<Key>)
      requires WellKeyed(files, variants)
      modifies this
      ensures Swept(old(files), old(variants), tenant, cutoff, broken, files, variants, r, lost)
      ensures blobs == old(blobs) - lost
      ensures r.None? ==> files == old(files) && variants == old(variants)
      ensures r.Some? ==>
                && (forall k | k in broken :: k !in lost)
                && r.value.blobsDeleted == |lost| && r.value.rowsPurged == |old(files)| - |files|
      // With tenant-scoped keys exactly the tombstones past the cutoff go, those of the tenant if one is given.
      ensures r.Some? &&
              (tenant.None? ||
               forall f, g | f in old(files) && g in old(files) && old(files)[f].key == old(files)[g].key ::
                 old(files)[f].tenant == old(files)[g].tenant) ==>
                forall f ::
                  f in files <==>
                    f in old(files) &&
                    !(old(files)[f].deletedAt.Some? && old(files)[f].deletedAt.value < cutoff &&
                      (tenant.None? || old(files)[f].tenant == tenant.value))
    {
      var ks := Candidates(files, tenant, cutoff);
      ghost var files0, variants0 := files, variants;
      var ok, rows, vrows, nb, np;
      ok, rows, vrows, nb, np, lost := SweepKeys(files, variants, ks, tenant, cutoff, broken);
      if !ok {
        return None, lost;
      }
      files, variants := rows, vrows;
      r := Some(Report(nb, np));
      SweptCounts(files0, variants0, tenant, cutoff, broken, rows, vrows, r, lost);
      if tenant.None? || forall f, g | f in files0 && g in files0 && files0[f].key == files0[g].key ::
                           files0[f].tenant == files0[g].tenant {
        SweptOwnRows(files0, variants0, tenant, cutoff, broken, rows, vrows, r, lost);
      }
    }

    /** Look at one listed entry: in the snapshot, young or of unknown age, referred to on re-check, or an orphan. */
    method ReconcileEntry(entry: Entry, files: Rows, variants: VariantRows, referenced: set<Key>, now: int, grace: int,
                          dryRun: bool, broken: set<Key>)
      returns (ok: bool, found: nat, deleted: nat)
      requires referenced == AllReferenced(files, variants)
      modifies this`blobs
      ensures var orphan := IsOrphan(entry, files, variants, now, grace);
              && (ok <==> dryRun || !orphan || entry.key !in broken)
              && (ok ==> found == (if orphan then 1 else 0) && deleted == (if orphan && !dryRun then 1 else 0))
              && blobs == (if orphan && ok && !dryRun then old(blobs) - {entry.key} else old(blobs))
    {
      ok, found, deleted := true, 0, 0;
      if entry.key in referenced {
        return;
      }
      if entry.modified.None? || now < entry.modified.value || now - entry.modified.value < grace {
        return;
      }
      if !(NoRow(files, entry.key) && NoVariant(variants, entry.key)) {
        return;
      }
      found := 1;
      if !dryRun {
        if entry.key in broken {
          ok := false;
          return;
        }
        blobs := blobs - {entry.key};
        deleted := 1;
      }
    }

    /**
     * One reconciliation on its own, over a listing taken earlier: deletes the listed blobs that
     * no row refers to and that are known to be at least `grace` seconds old.
     */
    method RunReconcile(entries: seq<Entry>, now: int, grace: int, dryRun: bool, broken: set<Key>)
      returns (r: Option<ReconcileReport>, ghost lost: set<Key>)
      requires Distinct(entries)
      modifies this`blobs
      ensures blobs == old(blobs) - lost
      ensures Reconciled(Orphans(entries, files, variants, now, grace), dryRun, broken, r, lost)
      // Exactly the listed blobs known to be old enough that nothing refers to go, and they are what is counted.
      ensures r.Some? ==> r.value.dryRun == dryRun && r.value.blobsDeleted == if dryRun then 0 else r.value.orphansFound
      ensures r.Some? ==> r.value.orphansFound == |Orphans(entries, files, variants, now, grace)|
      ensures dryRun ==> r.Some? && blobs == old(blobs)
      ensures r.Some? && !dryRun ==>
                && (forall k | k in lost :: k !in broken)
                && forall k ::
                     k in lost <==>
                       && (forall f | f in files :: files[f].key != k)
                       && (forall v | v in variants :: variants[v].key != k)
                       && exists e ::
                            && e in entries && e.key == k
                            && e.modified.Some? && e.modified.value <= now && now - e.modified.value >= grace
      ensures r.None? ==> !dryRun && exists e :: e in entries && e.key in broken
      // Whatever the outcome, nothing else is lost.
      ensures forall k | k in lost ::
                && (forall f | f in files :: files[f].key != k) && (forall v | v in variants :: variants[v].key != k)
                && exists e :: e in entries && e.key == k && e.modified.Some? && now - e.modified.value >= grace
    {
      OrphansAre(entries, files, variants, now, grace);
      r, lost := ReconcileAll(entries, files, variants, now, grace, dryRun, broken);
    }

    method ReconcileAll(entries: seq<Entry>, files: Rows, variants: VariantRows, now: int, grace: int, dryRun: bool,
                        broken: set<Key>)
      returns (r: Option<ReconcileReport>, ghost lost: set<Key>)
      requires Distinct(entries)
      modifies this`blobs
      ensures blobs == old(blobs) - lost
      ensures Reconciled(Orphans(entries, files, variants, now, grace), dryRun, broken, r, lost)
    {
      var referenced := AllReferenced(files, variants);
      var found, deleted := 0, 0;
      ghost var start := blobs;
      lost := {};
      for i := 0 to |entries|
        invariant blobs == start - lost
        invariant Partway(Orphans(entries[..i], files, variants, now, grace), dryRun, broken, lost, found, deleted)
      {
        var ok;
        ok, found, deleted, lost :=
          ReconcileNext(entries, i, files, variants, referenced, now, grace, dryRun, broken, found, deleted, start,
              lost);
        if !ok {
          return None, lost;
        }
      }
      assert entries[..|entries|] == entries;
      r := Some(ReconcileReport(found, deleted, dryRun));
    }

    /** One more entry of a reconciliation that lost the blobs `lost` so far. */
    method ReconcileNext(entries: seq<Entry>, i: nat, files: Rows, variants: VariantRows, referenced: set<Key>,
                         now: int,
                         grace: int, dryRun: bool, broken: set<Key>, found: nat, deleted: nat,
                         ghost start: map<Key, Blob>, ghost lost: set<Key>)
      returns (ok: bool, found': nat, deleted': nat, ghost lost': set<Key>)
      requires i < |entries| && Distinct(entries) && referenced == AllReferenced(files, variants)
      requires Partway(Orphans(entries[..i], files, variants, now, grace), dryRun, broken, lost, found, deleted)
      requires blobs == start - lost
      modifies this`blobs
      ensures blobs == start - lost'
      ensures ok ==>
                Partway(Orphans(entries[..i + 1], files, variants, now, grace), dryRun, broken, lost', found', deleted')
      ensures !ok ==> Reconciled(Orphans(entries, files, variants, now, grace), dryRun, broken, None, lost')
    {
      Advance(entries, i, files, variants, now, grace, dryRun, broken, lost, found, deleted, start);
      var n, m;
      ok, n, m := ReconcileEntry(entries[i], files, variants, referenced, now, grace, dryRun, broken);
      found', deleted', lost' := found + n, deleted + m, lost;
      if ok && !dryRun && IsOrphan(entries[i], files, variants, now, grace) {
        lost' := lost + {entries[i].key};
      }
    }
  }

  datatype Entry = Entry(key: Key, modified: Option<int>)

  datatype ReconcileReport = ReconcileReport(orphansFound: nat, blobsDeleted: nat, dryRun: bool)

  function AllReferenced(files: Rows, variants: VariantRows): set<Key> {
    (set f | f in files :: files[f].key) + (set v | v in variants :: variants[v].key)
  }

  /** Listed, old enough, and referred to by no row. */
  predicate IsOrphan(e: Entry, files: Rows, variants: VariantRows, now: int, grace: int) {
    && e.modified.Some? && e.modified.value <= now && now - e.modified.value >= grace
    && NoRow(files, e.key) && NoVariant(variants, e.key)
  }

  ghost function Orphans(entries: seq<Entry>, files: Rows, variants: VariantRows, now: int, grace: int): set<Key> {
    set i | 0 <= i < |entries| && IsOrphan(entries[i], files, variants, now, grace) :: entries[i].key
  }

  ghost predicate Distinct(entries: seq<Entry>) {
    forall i, j | 0 <= i < j < |entries| :: entries[i].key != entries[j].key
  }

  /** A reconciliation deletes and counts every orphan once, or stops at one it cannot delete. */
  ghost predicate Reconciled(orphans: set<Key>, dryRun: bool, broken: set<Key>, r: Option<ReconcileReport>,
                             lost: set<Key>) {
    && lost <= orphans
    && (r.Some? <==> dryRun || orphans !! broken)
    && (r.Some? ==>
          && lost == (if dryRun then {} else orphans)
          && r.value == ReconcileReport(|orphans|, |lost|, dryRun))
  }

  /** Bookkeeping of a reconciliation that met the orphans `sofar`. */
  ghost predicate Partway(sofar: set<Key>, dryRun: bool, broken: set<Key>, lost: set<Key>, found: nat, deleted: nat) {
    lost == (if dryRun then {} else sofar) && lost !! broken && found == |sofar| && deleted == |lost|
  }

  lemma PartwayStep(met: set<Key>, dryRun: bool, broken: set<Key>, lost: set<Key>, found: nat, deleted: nat, k: Key)
    requires Partway(met, dryRun, broken, lost, found, deleted) && k !in met && (dryRun || k !in broken)
    ensures Partway(met + {k}, dryRun, broken, if dryRun then lost else lost + {k}, found + 1,
                    if dryRun then deleted else deleted + 1)
  {
  }

  lemma Caught(all: set<Key>, k: Key, broken: set<Key>)
    requires k in all && k in broken
    ensures !(all !! broken)
  {
  }

  /** One more entry: an orphan is met and, unless the run is dry, lost. */
  lemma Advance(entries: seq<Entry>, i: nat, files: Rows, variants: VariantRows, now: int, grace: int, dryRun: bool,
                broken: set<Key>, lost: set<Key>, found: nat, deleted: nat, start: map<Key, Blob>)
    requires i < |entries| && Distinct(entries)
    requires Partway(Orphans(entries[..i], files, variants, now, grace), dryRun, broken, lost, found, deleted)
    ensures var all, k := Orphans(entries, files, variants, now, grace), entries[i].key;
            var orphan := IsOrphan(entries[i], files, variants, now, grace);
            var takes := orphan && !dryRun;
            && lost <= all
            && (takes && k in broken ==> !(all !! broken))
            && (takes ==> start - lost - {k} == start - (lost + {k}))
            && (!(takes && k in broken) ==>
                Partway(Orphans(entries[..i + 1], files, variants, now, grace), dryRun, broken,
                        if takes then lost + {k} else lost, found + (if orphan then 1 else 0),
                        deleted + (if takes then 1 else 0)))
  {
    var k, met := entries[i].key, Orphans(entries[..i], files, variants, now, grace);
    OrphansNext(entries, i, files, variants, now, grace);
    if IsOrphan(entries[i], files, variants, now, grace) {
      MinusTwice(start, lost, {k});
      if !dryRun && k in broken {
        Caught(Orphans(entries, files, variants, now, grace), k, broken);
      } else {
        PartwayStep(met, dryRun, broken, lost, found, deleted, k);
      }
    }
  }

  lemma OrphansNext(entries: seq<Entry>, i: nat, files: Rows, variants: VariantRows, now: int, grace: int)
    requires i < |entries| && Distinct(entries)
    ensures var before := Orphans(entries[..i], files, variants, now, grace);
            && Orphans(entries[..i + 1], files, variants, now, grace) ==
               before + (if IsOrphan(entries[i], files, variants, now, grace) then {entries[i].key} else {})
            && entries[i].key !in before
            && Orphans(entries[..i + 1], files, variants, now, grace) <= Orphans(entries, files, variants, now, grace)
  {
  }

  lemma OrphansAre(entries: seq<Entry>, files: Rows, variants: VariantRows, now: int, grace: int)
    ensures forall k ::
              k in Orphans(entries, files, variants, now, grace) <==>
                && (forall f | f in files :: files[f].key != k) && (forall v | v in variants :: variants[v].key != k)
                && exists e ::
                     && e in entries && e.key == k
                     && e.modified.Some? && e.modified.value <= now && now - e.modified.value >= grace
  {
    forall e | e in entries && IsOrphan(e, files, variants, now, grace)
      ensures e.key in Orphans(entries, files, variants, now, grace)
    {
      var i :| 0 <= i < |entries| && entries[i] == e;
      assert IsOrphan(entries[i], files, variants, now, grace);
    }
    forall k | k in Orphans(entries, files, variants, now, grace)
      ensures exists e :: e in entries && e.key == k && IsOrphan(e, files, variants, now, grace)
    {
      var i :| 0 <= i < |entries| && IsOrphan(entries[i], files, variants, now, grace) && entries[i].key == k;
      assert entries[i] in entries;
    }
  }

  /**
   * A full listing leaves nothing behind: a blob of the listing survives if and only if a row
   * refers to it or its age is unknown or inside the grace window.
   */
  lemma ReconcileIsExact(entries: seq<Entry>, files: Rows, variants: VariantRows, blobs: map<Key, Blob>, now: int,
                         grace: int,
                         e: Entry)
    requires e in entries && e.key in blobs && Distinct(entries)
    ensures e.key in blobs - Orphans(entries, files, variants, now, grace) <==>
              || (exists f :: f in files && files[f].key == e.key)
              || (exists v :: v in variants && variants[v].key == e.key)
              || e.modified.None? || e.modified.value > now || now - e.modified.value < grace
  {
    var i :| 0 <= i < |entries| && entries[i] == e;
    if e.key in Orphans(entries, files, variants, now, grace) {
      var j :| 0 <= j < |entries| && IsOrphan(entries[j], files, variants, now, grace) && entries[j].key == e.key;
      assert i == j;
    }
  }

  lemma ProgressStep(files: Rows, variants: VariantRows, done: set<Key>, key: Key, ks: set<Key>, tenant: Option<Uuid>,
                     cutoff: int, rows: Rows, vrows: VariantRows, nb: nat, np: nat, before: set<Key>,
                     n: nat, purged: nat, more: set<Key>)
    requires WellKeyed(files, variants) && ks == Candidates(files, tenant, cutoff)
    requires key in ks && key !in done && done <= ks
    requires Progress(files, variants, done, cutoff, rows, vrows, nb, np, before)
    requires more == (if NoLive(rows, key) then {key} else {}) + Orphaned(vrows, PurgeSet(rows, key, cutoff))
    requires n == |more| && purged == |PurgeSet(rows, key, cutoff)|
    ensures Progress(files, variants, done + {key}, cutoff, rows - PurgeSet(rows, key, cutoff),
                     vrows - Cascade(vrows, PurgeSet(rows, key, cutoff)), nb + n, np + purged, before + more)
  {
    SweepStep(files, variants, done, key, ks, tenant, cutoff);
    DisjointSize(before, more);
    DisjointSize(Doomed(files, done, cutoff), PurgeSet(files, key, cutoff));
  }

  lemma BrokenStep(files: Rows, variants: VariantRows, done: set<Key>, key: Key, ks: set<Key>, tenant: Option<Uuid>,
                   cutoff: int, broken: set<Key>)
    requires WellKeyed(files, variants) && ks == Candidates(files, tenant, cutoff)
    requires key in ks && key !in done && done <= ks
    requires var rows := files - Doomed(files, done, cutoff);
             var vrows := variants - Cascade(variants, Doomed(files, done, cutoff));
             !((if NoLive(rows, key) then {key} else {}) + Orphaned(vrows, PurgeSet(rows, key, cutoff)) !! broken)
    ensures !(Reclaimed(files, variants, ks, cutoff) !! broken)
  {
    SweepStep(files, variants, done, key, ks, tenant, cutoff);
    var part, due := Reclaimed(files, variants, done + {key}, cutoff), Reclaimed(files, variants, ks, cutoff);
    var rows := files - Doomed(files, done, cutoff);
    var vrows := variants - Cascade(variants, Doomed(files, done, cutoff));
    Overlap(Reclaimed(files, variants, done, cutoff),
            (if NoLive(rows, key) then {key} else {}) + Orphaned(vrows, PurgeSet(rows, key, cutoff)), broken);
    Overlap(part, due, broken);
    assert part + due == due;
  }

  /** Where a sweep stands after the keys `done`. */
  ghost predicate Progress(files: Rows, variants: VariantRows, done: set<Key>, cutoff: int,
                           rows: Rows, vrows: VariantRows, nb: nat, np: nat, lost: set<Key>) {
    var gone := Doomed(files, done, cutoff);
    && rows == files - gone && vrows == variants - Cascade(variants, gone) && np == |gone|
    && lost == Reclaimed(files, variants, done, cutoff) && nb == |lost|
  }

  /**
   * What a sweep leaves, exactly: it succeeds if and only if every due blob could be deleted, it
   * then purges the due rows and counts each due blob and row once, and otherwise changes no row.
   */
  ghost predicate Swept(files: Rows, variants: VariantRows, tenant: Option<Uuid>, cutoff: int, broken: set<Key>,
                        files': Rows, variants': VariantRows, r: Option<Report>, lost: set<Key>) {
    var ks := Candidates(files, tenant, cutoff);
    var gone, due := Doomed(files, ks, cutoff), Reclaimed(files, variants, ks, cutoff);
    && lost <= due
    && (r.Some? <==> due !! broken)
    && (r.Some? ==>
          && files' == files - gone && variants' == variants - Cascade(variants, gone)
          && lost == due && r.value == Report(|due|, |gone|))
    && (r.None? ==> files' == files && variants' == variants)
  }

  lemma OrphansAreVariants(rows: Rows, variants: VariantRows, gone: set<IdHex>)
    requires WellKeyed(rows, variants)
    ensures forall k | k in Orphaned(variants, gone) :: k.Variant?
  {
  }

  lemma OrphanedIsUnreferenced(variants: VariantRows, gone: set<IdHex>)
    ensures Unused(variants - Cascade(variants, gone), VariantKeys(variants, Cascade(variants, gone))) ==
            Orphaned(variants, gone)
  {
  }

  lemma NothingDone(files: Rows, variants: VariantRows, cutoff: int)
    ensures Doomed(files, {}, cutoff) == {} && Reclaimed(files, variants, {}, cutoff) == {}
    ensures files - {} == files && variants - Cascade(variants, {}) == variants
  {
  }

  /** What one more key adds, in terms of the rows as the transaction sees them. */
  lemma SweepStep(files: Rows, variants: VariantRows, done: set<Key>, key: Key, ks: set<Key>, tenant: Option<Uuid>,
                  cutoff: int)
    requires WellKeyed(files, variants) && ks == Candidates(files, tenant, cutoff)
    requires key in ks && key !in done && done <= ks
    ensures key.Original?
    ensures var gone := Doomed(files, done, cutoff);
            var rows, vrows := files - gone, variants - Cascade(variants, gone);
            var b := PurgeSet(rows, key, cutoff);
            var more := (if NoLive(rows, key) then {key} else {}) + Orphaned(vrows, b);
            && WellKeyed(rows, vrows)
            && b == PurgeSet(files, key, cutoff) && b !! gone
            && Doomed(files, done + {key}, cutoff) == gone + b
            && rows - b == files - (gone + b)
            && vrows - Cascade(vrows, b) == variants - Cascade(variants, gone + b)
            && Reclaimed(files, variants, done + {key}, cutoff) == Reclaimed(files, variants, done, cutoff) + more
            && Reclaimed(files, variants, done, cutoff) !! more
            && Reclaimed(files, variants, done + {key}, cutoff) <= Reclaimed(files, variants, ks, cutoff)
  {
    assert forall x | x in ks :: x.Original?;
    ReclaimedStep(files, variants, done, key, cutoff);
    ReclaimedGrows(files, variants, done + {key}, ks, cutoff);
    DoomedStep(files, done, key, cutoff);
    LiveSeenThroughPurge(files, done, key, cutoff);
    CascadeStep(variants, Doomed(files, done, cutoff), PurgeSet(files, key, cutoff));
  }

  lemma ReclaimedGrows(files: Rows, variants: VariantRows, a: set<Key>, b: set<Key>, cutoff: int)
    requires a <= b
    ensures Reclaimed(files, variants, a, cutoff) <= Reclaimed(files, variants, b, cutoff)
  {
    assert Doomed(files, a, cutoff) + Doomed(files, b, cutoff) == Doomed(files, b, cutoff);
    OrphanedStep(variants, Doomed(files, a, cutoff), Doomed(files, b, cutoff));
  }

  // ---------------------------------------------------------------- what the exact result means

  /** A key is taken up if and only if a tombstone past the cutoff, of the tenant if one is given, holds it. */
  lemma CandidateIff(files: Rows, tenant: Option<Uuid>, cutoff: int, k: Key)
    ensures k in Candidates(files, tenant, cutoff) <==>
              exists g ::
                && g in files && files[g].key == k && files[g].deletedAt.Some? && files[g].deletedAt.value < cutoff
                && (tenant.None? || files[g].tenant == tenant.value)
  {
  }

  /** Which rows a successful sweep purges: tombstones past the cutoff on its candidate keys. */
  lemma SweptRows(files: Rows, variants: VariantRows, tenant: Option<Uuid>, cutoff: int, broken: set<Key>,
                  files': Rows, variants': VariantRows, r: Option<Report>, lost: set<Key>, f: IdHex)
    requires Swept(files, variants, tenant, cutoff, broken, files', variants', r, lost) && r.Some? && f in files
    ensures f in files' ==> files'[f] == files[f]
    ensures f !in files' <==>
              && files[f].deletedAt.Some? && files[f].deletedAt.value < cutoff
              && exists g ::
                   && g in files && files[g].key == files[f].key
                   && files[g].deletedAt.Some? && files[g].deletedAt.value < cutoff
                   && (tenant.None? || files[g].tenant == tenant.value)
  {
    CandidateIff(files, tenant, cutoff, files[f].key);
  }

  /** With tenant-scoped keys those are the tenant's own. */
  lemma SweptOwnRows(files: Rows, variants: VariantRows, tenant: Option<Uuid>, cutoff: int, broken: set<Key>,
                     files': Rows, variants': VariantRows, r: Option<Report>, lost: set<Key>)
    requires Swept(files, variants, tenant, cutoff, broken, files', variants', r, lost) && r.Some?
    requires tenant.None? || forall f, g | f in files && g in files && files[f].key == files[g].key ::
                               files[f].tenant == files[g].tenant
    ensures forall f ::
              f in files' <==>
                f in files &&
                !(files[f].deletedAt.Some? && files[f].deletedAt.value < cutoff &&
                  (tenant.None? || files[f].tenant == tenant.value))
  {
    forall f | f in files
      ensures f !in files' <==> files[f].deletedAt.Some? && files[f].deletedAt.value < cutoff &&
                                (tenant.None? || files[f].tenant == tenant.value)
    {
      SweptRows(files, variants, tenant, cutoff, broken, files', variants', r, lost, f);
    }
  }

  lemma SweptCounts(files: Rows, variants: VariantRows, tenant: Option<Uuid>, cutoff: int, broken: set<Key>,
                    files': Rows, variants': VariantRows, r: Option<Report>, lost: set<Key>)
    requires Swept(files, variants, tenant, cutoff, broken, files', variants', r, lost) && r.Some?
    ensures r.value.rowsPurged == |files| - |files'| && r.value.blobsDeleted == |lost|
    ensures forall k | k in broken :: k !in lost
  {
    MinusSize(files, Doomed(files, Candidates(files, tenant, cutoff), cutoff));
  }

  lemma MinusSize(files: Rows, gone: set<IdHex>)
    requires gone <= files.Keys
    ensures |files - gone| == |files| - |gone|
  {
    assert (files - gone).Keys == files.Keys - gone;
    DisjointSize((files - gone).Keys, gone);
    assert (files - gone).Keys + gone == files.Keys;
  }

  /** Which upload blobs it deletes: those of its candidates that no live row holds. */
  lemma SweptBlobs(files: Rows, variants: VariantRows, tenant: Option<Uuid>, cutoff: int, broken: set<Key>,
                   files': Rows, variants': VariantRows, r: Option<Report>, lost: set<Key>)
    requires WellKeyed(files, variants)
    requires Swept(files, variants, tenant, cutoff, broken, files', variants', r, lost) && r.Some?
    ensures forall k: Key | k.Original? ::
              k in lost <==>
                && (forall f | f in files && files[f].key == k :: files[f].deletedAt.Some?)
                && exists g ::
                     && g in files && files[g].key == k
                     && files[g].deletedAt.Some? && files[g].deletedAt.value < cutoff
                     && (tenant.None? || files[g].tenant == tenant.value)
  {
    var ks := Candidates(files, tenant, cutoff);
    OrphansAreVariants(files, variants, Doomed(files, ks, cutoff));
    forall k: Key | k.Original?
      ensures k in lost <==> k in ks && NoLive(files, k)
      ensures k in ks <==>
                exists g ::
                  && g in files && files[g].key == k
                  && files[g].deletedAt.Some? && files[g].deletedAt.value < cutoff
                  && (tenant.None? || files[g].tenant == tenant.value)
    {
      CandidateIff(files, tenant, cutoff, k);
    }
  }

  /** Which variants go: rows with their file, blobs with the last row that refers to them. */
  lemma SweptVariants(files: Rows, variants: VariantRows, tenant: Option<Uuid>, cutoff: int, broken: set<Key>,
                      files': Rows, variants': VariantRows, r: Option<Report>, lost: set<Key>)
    requires WellKeyed(files, variants)
    requires Swept(files, variants, tenant, cutoff, broken, files', variants', r, lost) && r.Some?
    ensures forall v | v in variants' :: v in variants && variants'[v] == variants[v]
    ensures forall v | v in variants ::
              v !in variants' <==> variants[v].file in files && variants[v].file !in files'
    ensures forall k: Key | k.Variant? ::
              k in lost <==>
                && (exists v :: v in variants && v !in variants' && variants[v].key == k)
                && forall v | v in variants' :: variants'[v].key != k
  {
    var gone := Doomed(files, Candidates(files, tenant, cutoff), cutoff);
    forall k: Key | k.Variant?
      ensures k in lost <==> k in Orphaned(variants, gone)
    {
      assert k !in Unreferenced(files, Candidates(files, tenant, cutoff));
    }
  }

  /** A sweep over all tenants keeps exactly the rows that are live or still inside the window. */
  lemma GlobalSweepPurgesExpired(files: Rows, variants: VariantRows, cutoff: int, broken: set<Key>,
                                 files': Rows, variants': VariantRows, r: Option<Report>, lost: set<Key>)
    requires Swept(files, variants, None, cutoff, broken, files', variants', r, lost) && r.Some?
    ensures forall f ::
              f in files' <==> f in files && (files[f].deletedAt.None? || files[f].deletedAt.value >= cutoff)
    ensures forall f | f in files' :: files'[f] == files[f]
  {
    SweptOwnRows(files, variants, None, cutoff, broken, files', variants', r, lost);
  }

  /**
   * Which surviving rows lose their bytes: none that is live, and a row in the trash only when a
   * sibling on its key was due and no live row holds the key. No surviving variant does.
   */
  lemma WhoLosesTheBlob(files: Rows, variants: VariantRows, tenant: Option<Uuid>, cutoff: int, broken: set<Key>,
                        files': Rows, variants': VariantRows, r: Option<Report>, lost: set<Key>)
    requires WellKeyed(files, variants)
    requires Swept(files, variants, tenant, cutoff, broken, files', variants', r, lost) && r.Some?
    ensures forall f | f in files' ::
              files'[f].key in lost <==>
                && (forall g | g in files && files[g].key == files[f].key :: files[g].deletedAt.Some?)
                && exists g ::
                     && g in files && files[g].key == files[f].key
                     && files[g].deletedAt.Some? && files[g].deletedAt.value < cutoff
                     && (tenant.None? || files[g].tenant == tenant.value)
    ensures forall f | f in files' && files'[f].deletedAt.None? :: files'[f].key !in lost
    ensures forall v | v in variants' :: variants'[v].key !in lost
  {
    SweptBlobs(files, variants, tenant, cutoff, broken, files', variants', r, lost);
    SweptVariants(files, variants, tenant, cutoff, broken, files', variants', r, lost);
    forall f | f in files'
      ensures f in files && files'[f] == files[f] && files[f].key.Original?
    {
    }
  }

  /** Retrying after a failed sweep ends where one undisturbed sweep would have. */
  lemma RetryCompletes(files: Rows, variants: VariantRows, blobs: map<Key, Blob>, tenant: Option<Uuid>, cutoff: int,
                       broken: set<Key>, f1: Rows, v1: VariantRows, lost1: set<Key>,
                       f2: Rows, v2: VariantRows, r2: Option<Report>, lost2: set<Key>)
    requires Swept(files, variants, tenant, cutoff, broken, f1, v1, None, lost1)
    requires Swept(f1, v1, tenant, cutoff, {}, f2, v2, r2, lost2)
    ensures Swept(files, variants, tenant, cutoff, {}, f2, v2, r2, lost2) && r2.Some?
    ensures blobs - lost1 - lost2 == blobs - lost2
  {
    MinusTwice(blobs, lost1, lost2);
    assert lost1 + lost2 == lost2;
  }

  /** Sweeping a set of keys after another is sweeping both at once. */
  lemma SweepTwice(files: Rows, variants: VariantRows, a: set<Key>, b: set<Key>, cutoff: int)
    requires WellKeyed(files, variants) && a !! b && forall k | k in a + b :: k.Original?
    ensures var gone := Doomed(files, a, cutoff);
            var rest, vrest := files - gone, variants - Cascade(variants, gone);
            && Doomed(rest, b, cutoff) == Doomed(files, b, cutoff)
            && Doomed(files, a + b, cutoff) == gone + Doomed(rest, b, cutoff)
            && rest - Doomed(rest, b, cutoff) == files - Doomed(files, a + b, cutoff)
            && vrest - Cascade(vrest, Doomed(rest, b, cutoff)) ==
               variants - Cascade(variants, Doomed(files, a + b, cutoff))
            && Reclaimed(files, variants, a + b, cutoff) ==
               Reclaimed(files, variants, a, cutoff) + Reclaimed(rest, vrest, b, cutoff)
  {
    var gone := Doomed(files, a, cutoff);
    var rest := files - gone;
    assert Doomed(rest, b, cutoff) == Doomed(files, b, cutoff);
    assert Doomed(files, a + b, cutoff) == gone + Doomed(rest, b, cutoff);
    CascadeStep(variants, gone, Doomed(rest, b, cutoff));
    OrphanedStep(variants, gone, Doomed(rest, b, cutoff));
    forall k
      ensures NoLive(rest, k) <==> NoLive(files, k)
    {
      LiveSeenThroughPurge(files, a, k, cutoff);
    }
    assert Unreferenced(files, a + b) == Unreferenced(files, a) + Unreferenced(rest, b);
  }

  /** After a sweep its tenant has nothing left that is due: a second sweep does nothing. */
  lemma SecondSweepIsIdle(files: Rows, variants: VariantRows, tenant: Option<Uuid>, cutoff: int)
    requires WellKeyed(files, variants)
    ensures var gone := Doomed(files, Candidates(files, tenant, cutoff), cutoff);
            var rest, vrest := files - gone, variants - Cascade(variants, gone);
            && Candidates(rest, tenant, cutoff) == {}
            && (forall f | f in rest && (tenant.None? || rest[f].tenant == tenant.value) ::
                  rest[f].deletedAt.None? || rest[f].deletedAt.value >= cutoff)
            && Doomed(rest, Candidates(rest, tenant, cutoff), cutoff) == {}
            && Reclaimed(rest, vrest, Candidates(rest, tenant, cutoff), cutoff) == {}
  {
    var ks := Candidates(files, tenant, cutoff);
    var rest := files - Doomed(files, ks, cutoff);
    forall f | f in rest
      ensures !(Expired(rest[f], cutoff) && (tenant.None? || rest[f].tenant == tenant.value))
    {
      assert files[f].key !in ks || !Expired(files[f], cutoff);
    }
    assert Candidates(rest, tenant, cutoff) == {};
    NothingDone(rest, variants - Cascade(variants, Doomed(files, ks, cutoff)), cutoff);
  }

  // ---------------------------------------------------------------- tenant by tenant

  function Members(tenants: seq<Uuid>): set<Uuid> {
    set t | t in tenants
  }

  /** Keys the sweeps of `tenants` cover. */
  ghost function CandidatesOf(files: Rows, tenants: set<Uuid>, cutoff: int): set<Key> {
    set f | f in files && Expired(files[f], cutoff) && files[f].tenant in tenants :: files[f].key
  }

  /** Rows, variants and reclaimed keys after sweeping the tenants one after the other. */
  ghost function SweepEach(files: Rows, variants: VariantRows, tenants: seq<Uuid>, cutoff: int)
    : (Rows, VariantRows, set<Key>)
    decreases |tenants|
  {
    if tenants == [] then (files, variants, {})
    else
      var ks := Candidates(files, Some(tenants[0]), cutoff);
      var gone := Doomed(files, ks, cutoff);
      var rest := SweepEach(files - gone, variants - Cascade(variants, gone), tenants[1..], cutoff);
      (rest.0, rest.1, Reclaimed(files, variants, ks, cutoff) + rest.2)
  }

  /** What one tenant's sweep leaves for the others. */
  lemma CandidatesAfter(files: Rows, t: Uuid, others: set<Uuid>, cutoff: int)
    ensures var ks := Candidates(files, Some(t), cutoff);
            var left := CandidatesOf(files - Doomed(files, ks, cutoff), others, cutoff);
            left !! ks && ks + left == CandidatesOf(files, {t} + others, cutoff)
  {
    var ks := Candidates(files, Some(t), cutoff);
    var rest := files - Doomed(files, ks, cutoff);
    var left := CandidatesOf(rest, others, cutoff);
    forall k | k in CandidatesOf(files, {t} + others, cutoff)
      ensures k in ks + left
    {
      var f :| f in files && Expired(files[f], cutoff) && files[f].tenant in {t} + others && files[f].key == k;
      if k !in ks {
        assert f in rest && rest[f].key == k;
      }
    }
    forall k | k in left
      ensures k !in ks && k in CandidatesOf(files, {t} + others, cutoff)
    {
      var f :| f in rest && Expired(rest[f], cutoff) && rest[f].tenant in others && rest[f].key == k;
      assert f in files && files[f] == rest[f];
    }
  }

  lemma {:induction false} SweepEachIsOneSweep(files: Rows, variants: VariantRows, tenants: seq<Uuid>, cutoff: int)
    requires WellKeyed(files, variants)
    ensures var ks := CandidatesOf(files, Members(tenants), cutoff);
            var gone := Doomed(files, ks, cutoff);
            SweepEach(files, variants, tenants, cutoff) ==
            (files - gone, variants - Cascade(variants, gone), Reclaimed(files, variants, ks, cutoff))
    decreases |tenants|
  {
    if tenants == [] {
      assert CandidatesOf(files, Members(tenants), cutoff) == {};
      NothingDone(files, variants, cutoff);
    } else {
      var ks := Candidates(files, Some(tenants[0]), cutoff);
      var gone := Doomed(files, ks, cutoff);
      var rest, vrest := files - gone, variants - Cascade(variants, gone);
      var others := Members(tenants[1..]);
      assert Members(tenants) == {tenants[0]} + others;
      SweepEachIsOneSweep(rest, vrest, tenants[1..], cutoff);
      CandidatesAfter(files, tenants[0], others, cutoff);
      SweepTwice(files, variants, ks, CandidatesOf(rest, others, cutoff), cutoff);
    }
  }

  /** In whatever order the tenants are swept, the end is that of one sweep over all of them. */
  lemma TenantOrderIsIrrelevant(files: Rows, variants: VariantRows, tenants: seq<Uuid>, cutoff: int)
    requires WellKeyed(files, variants) && forall f | f in files :: files[f].tenant in tenants
    ensures var ks := Candidates(files, None, cutoff);
            var gone := Doomed(files, ks, cutoff);
            SweepEach(files, variants, tenants, cutoff) ==
            (files - gone, variants - Cascade(variants, gone), Reclaimed(files, variants, ks, cutoff))
  {
    SweepEachIsOneSweep(files, variants, tenants, cutoff);
    assert CandidatesOf(files, Members(tenants), cutoff) == Candidates(files, None, cutoff);
  }

  /** Rows that share a key share a tenant, and variants that share a key belong to files that share one. */
  ghost predicate TenantScoped(files: Rows, variants: VariantRows) {
    && (forall f, g | f in files && g in files && files[f].key == files[g].key :: files[f].tenant == files[g].tenant)
    && (forall v | v in variants :: variants[v].file in files)
    && (forall v, w | v in variants && w in variants && variants[v].key == variants[w].key ::
          files[variants[v].file].key == files[variants[w].file].key)
  }

  /** No query of a tenant's sweep names the tenant again, and none needs to. */
  lemma TenantSweepStaysInside(files: Rows, variants: VariantRows, t: Uuid, cutoff: int)
    requires TenantScoped(files, variants)
    ensures var ks := Candidates(files, Some(t), cutoff);
            var gone := Doomed(files, ks, cutoff);
            && (forall f ::
                  f in gone <==>
                    && f in files && files[f].tenant == t
                    && files[f].deletedAt.Some? && files[f].deletedAt.value < cutoff)
            && (forall v | v in Cascade(variants, gone) :: files[variants[v].file].tenant == t)
            && (forall f | f in files && files[f].tenant != t :: files[f].key !in Unreferenced(files, ks))
            && (forall v | v in variants && files[variants[v].file].tenant != t ::
                  variants[v].key !in Orphaned(variants, gone))
  {
    var ks := Candidates(files, Some(t), cutoff);
    forall f | f in files && files[f].key in ks
      ensures files[f].tenant == t
    {
      var g :| g in files && files[g].tenant == t && files[g].key == files[f].key;
    }
    forall f | f in files && files[f].tenant == t && Expired(files[f], cutoff)
      ensures files[f].key in ks
    {
    }
    var gone := Doomed(files, ks, cutoff);
    forall v | v in variants && variants[v].key in Orphaned(variants, gone)
      ensures files[variants[v].file].tenant == t
    {
      var w :| w in Cascade(variants, gone) && variants[w].key == variants[v].key;
      assert files[variants[w].file].key == files[variants[v].file].key;
    }
  }
}
