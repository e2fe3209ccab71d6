/** Sums over file rows and over the event ledger. */
module Tally {
  import opened Keys
  import opened Lifecycle

  datatype Unit = InBytes | InObjects

  /** What row `r` adds to tenant `t`: only live rows count. */
  function Weight(r: FileRow, t: Uuid, unit: Unit): nat {
    if r.tenant == t && Live(r) then (if unit == InBytes then r.size else 1) else 0
  }

  ghost function Total(files: map<IdHex, FileRow>, t: Uuid, unit: Unit): nat
    decreases |files|
  {
    if files == map[] then 0
    else
      var f :| f in files;
      Weight(files[f], t, unit) + Total(files - {f}, t, unit)
  }

  lemma {:induction false} TotalSplit(files: map<IdHex, FileRow>, t: Uuid, unit: Unit, f: IdHex)
    requires f in files
    ensures Total(files, t, unit) == Weight(files[f], t, unit) + Total(files - {f}, t, unit)
    decreases |files|
  {
    var g :| g in files && Total(files, t, unit) == Weight(files[g], t, unit) + Total(files - {g}, t, unit);
    if g != f {
      assert |(files - {f}).Keys| < |files.Keys| && |(files - {g}).Keys| < |files.Keys| by {
        assert (files - {f}).Keys == files.Keys - {f} && (files - {g}).Keys == files.Keys - {g};
      }
      TotalSplit(files - {g}, t, unit, f);
      TotalSplit(files - {f}, t, unit, g);
      assert files - {g} - {f} == files - {f} - {g};
    }
  }

  lemma TotalInsert(files: map<IdHex, FileRow>, t: Uuid, unit: Unit, f: IdHex, r: FileRow)
    requires f !in files
    ensures Total(files[f := r], t, unit) == Total(files, t, unit) + Weight(r, t, unit)
  {
    TotalSplit(files[f := r], t, unit, f);
    assert files[f := r] - {f} == files;
  }

  lemma TotalUpdate(files: map<IdHex, FileRow>, t: Uuid, unit: Unit, f: IdHex, r: FileRow)
    requires f in files
    ensures Total(files[f := r], t, unit) == Total(files, t, unit) - Weight(files[f], t, unit) + Weight(r, t, unit)
  {
    TotalSplit(files, t, unit, f);
    TotalSplit(files[f := r], t, unit, f);
    assert files[f := r] - {f} == files - {f};
  }

  /** Purging tombstones moves no total. */
  lemma {:induction false} TotalPurge(files: map<IdHex, FileRow>, t: Uuid, unit: Unit, dead: set<IdHex>)
    requires forall f | f in dead :: f in files && !Live(files[f])
    ensures Total(files - dead, t, unit) == Total(files, t, unit)
  {
    if dead == {} {
      assert files - dead == files;
    } else {
      var f :| f in dead;
      TotalSplit(files, t, unit, f);
      TotalPurge(files - {f}, t, unit, dead - {f});
      assert files - {f} - (dead - {f}) == files - dead;
    }
  }

  lemma {:induction false} TotalOfStranger(files: map<IdHex, FileRow>, t: Uuid, unit: Unit)
    requires forall f | f in files :: files[f].tenant != t
    ensures Total(files, t, unit) == 0
    decreases |files|
  {
    if files != map[] {
      var f :| f in files;
      TotalSplit(files, t, unit, f);
      assert (files - {f}).Keys == files.Keys - {f};
      assert Weight(files[f], t, unit) == 0;
      TotalOfStranger(files - {f}, t, unit);
    }
  }

  function Effect(e: Event, t: Uuid): int {
    if e.tenant != t || e.op == Egress then 0
    else if e.op == Delete then 0 - e.bytes
    else e.bytes
  }

  /** Bytes a tenant is billed for: uploads and restores less deletes. */
  function Ledger(events: seq<Event>, t: Uuid): int {
    if events == [] then 0
    else Ledger(events[..|events| - 1], t) + Effect(events[|events| - 1], t)
  }

  lemma LedgerAppend(events: seq<Event>, t: Uuid, e: Event)
    ensures Ledger(events + [e], t) == Ledger(events, t) + Effect(e, t)
  {
  }

  lemma {:induction false} LedgerOfStranger(events: seq<Event>, t: Uuid)
    requires forall e | e in events :: e.tenant != t
    ensures Ledger(events, t) == 0
  {
    if events == [] {
    } else {
      LedgerOfStranger(events[..|events| - 1], t);
    }
  }
}
