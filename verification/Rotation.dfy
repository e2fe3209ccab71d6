/**
 * Key rotation over all tenants, one short transaction each, while other requests create, change and
 * delete tenants in between.
 */
module Rotation {
  import opened Basics
  import opened Keys
  import opened Secrets

  datatype Tenant = Tenant(signing: Stored, webhook: Option<Stored>)

  type Tenants = map<Uuid, Tenant>

  /** The secrets a tenant means to have. */
  datatype Plain = Plain(signing: string, webhook: Option<string>)

  /** Writes of other requests, each one statement. */
  datatype Change =
    | CreateTenant(id: Uuid, token: string)
    | SetWebhook(id: Uuid, secret: Option<string>)
    | DeleteTenant(id: Uuid)

  function ReadOption(x: Secrets, w: Option<Stored>): Option<string> {
    if w.Some? then Some(Decrypt(x, w.value)) else None
  }

  /** What a tenant's stored secrets read as. */
  function Read(x: Secrets, t: Tenant): Plain {
    Plain(Decrypt(x, t.signing), ReadOption(x, t.webhook))
  }

  function ReadAll(x: Secrets, ts: Tenants): map<Uuid, Plain> {
    map id | id in ts :: Read(x, ts[id])
  }

  predicate Rotated(x: Secrets, t: Tenant) {
    UnderCurrent(x, t.signing) && (t.webhook.Some? ==> UnderCurrent(x, t.webhook.value))
  }

  /** Does one of the tenant's envelopes read as empty? */
  predicate Stuck(x: Secrets, t: Tenant) {
    || (t.signing.Sealed? && Decrypt(x, t.signing) == "")
    || (t.webhook.Some? && t.webhook.value.Sealed? && Decrypt(x, t.webhook.value) == "")
  }

  // ---------------------------------------------------------------- other requests

  function Changed(x: Secrets, ts: Tenants, c: Change): Tenants {
    match c
    case CreateTenant(id, token) => if id in ts then ts else ts[id := Tenant(Encrypt(x, token), None)]
    case SetWebhook(id, secret) =>
      if id !in ts then ts
      else ts[id := ts[id].(webhook := if secret.Some? then Some(Encrypt(x, secret.value)) else None)]
    case DeleteTenant(id) => ts - {id}
  }

  /** The same writes on the secrets meant. */
  function Meant(ps: map<Uuid, Plain>, c: Change): map<Uuid, Plain> {
    match c
    case CreateTenant(id, token) => if id in ps then ps else ps[id := Plain(token, None)]
    case SetWebhook(id, secret) => if id !in ps then ps else ps[id := ps[id].(webhook := secret)]
    case DeleteTenant(id) => ps - {id}
  }

  function ChangedAll(x: Secrets, ts: Tenants, cs: seq<Change>): Tenants
    decreases |cs|
  {
    if cs == [] then ts else ChangedAll(x, Changed(x, ts, cs[0]), cs[1..])
  }

  function MeantAll(ps: map<Uuid, Plain>, cs: seq<Change>): map<Uuid, Plain>
    decreases |cs|
  {
    if cs == [] then ps else MeantAll(Meant(ps, cs[0]), cs[1..])
  }

  lemma ChangeIsRead(x: Secrets, ts: Tenants, c: Change)
    requires Enabled(x)
    ensures ReadAll(x, Changed(x, ts, c)) == Meant(ReadAll(x, ts), c)
  {
  }

  /** With a key configured, every write reads back as what it meant to store. */
  lemma {:induction false} ChangesAreRead(x: Secrets, ts: Tenants, cs: seq<Change>)
    requires Enabled(x)
    ensures ReadAll(x, ChangedAll(x, ts, cs)) == MeantAll(ReadAll(x, ts), cs)
    decreases |cs|
  {
    if cs == [] {
    } else {
      ChangeIsRead(x, ts, cs[0]);
      ChangesAreRead(x, Changed(x, ts, cs[0]), cs[1..]);
    }
  }

  /** Every tenant is rotated, or still on the list `todo`. */
  ghost predicate Covered(x: Secrets, ts: Tenants, todo: seq<Uuid>) {
    forall id | id in ts :: Rotated(x, ts[id]) || id in todo
  }

  lemma {:induction false} ChangesStayCovered(x: Secrets, ts: Tenants, cs: seq<Change>, todo: seq<Uuid>)
    requires Enabled(x) && Covered(x, ts, todo)
    ensures Covered(x, ChangedAll(x, ts, cs), todo)
    decreases |cs|
  {
    if cs == [] {
    } else {
      ChangesStayCovered(x, Changed(x, ts, cs[0]), cs[1..], todo);
    }
  }

  // ---------------------------------------------------------------- rotation

  datatype Outcome = Disabled | DatabaseError | Incomplete(rotated: nat, failed: nat) | Success(rotated: nat)

  function RotatedTenant(x: Secrets, t: Tenant): Option<Tenant> {
    var signing := Reencrypt(x, t.signing);
    var webhook := if t.webhook.Some? then Reencrypt(x, t.webhook.value) else None;
    if signing.Some? && (t.webhook.Some? ==> webhook.Some?) then Some(Tenant(signing.value, webhook)) else None
  }

  /** One tenant is rotated without changing what it means, or left alone, and that exactly when it is stuck. */
  lemma RotatingOneTenant(x: Secrets, t: Tenant)
    requires Enabled(x)
    ensures RotatedTenant(x, t).None? <==> Stuck(x, t)
    ensures RotatedTenant(x, t).Some? ==>
              Rotated(x, RotatedTenant(x, t).value) && Read(x, RotatedTenant(x, t).value) == Read(x, t)
  {
  }

  /** Rotated tenants read the same with the previous key dropped. */
  lemma RotatedReadsUnderCurrent(x: Secrets, ts: Tenants)
    requires Enabled(x) && forall id | id in ts :: Rotated(x, ts[id])
    ensures ReadAll(CurrentOnly(x), ts) == ReadAll(x, ts)
  {
  }

  ghost function AllChanges(schedule: seq<seq<Change>>): seq<Change> {
    if schedule == [] then [] else AllChanges(schedule[..|schedule| - 1]) + schedule[|schedule| - 1]
  }

  lemma {:induction false} MeantInTurn(ps: map<Uuid, Plain>, cs: seq<Change>, ds: seq<Change>)
    ensures MeantAll(ps, cs + ds) == MeantAll(MeantAll(ps, cs), ds)
    decreases |cs|
  {
    if cs == [] {
      assert cs + ds == ds;
    } else {
      assert (cs + ds)[1..] == cs[1..] + ds;
      MeantInTurn(Meant(ps, cs[0]), cs[1..], ds);
    }
  }

  /** Nothing happens between the transactions. */
  ghost predicate Undisturbed(schedule: seq<seq<Change>>) {
    forall i | 0 <= i < |schedule| :: schedule[i] == []
  }

  ghost predicate AsBefore(ts: Tenants, start: Tenants, todo: seq<Uuid>) {
    forall id | id in todo :: id in ts && id in start && ts[id] == start[id]
  }

  /** The stuck tenants among `ids`. */
  ghost function StuckOnes(x: Secrets, ts: Tenants, ids: seq<Uuid>): set<Uuid> {
    set id | id in ids && id in ts && Stuck(x, ts[id])
  }

  lemma StuckOnesGrow(x: Secrets, ts: Tenants, ids: seq<Uuid>, i: nat)
    requires i < |ids| && forall j, k | 0 <= j < k < |ids| :: ids[j] != ids[k]
    ensures |StuckOnes(x, ts, ids[..i + 1])| ==
            |StuckOnes(x, ts, ids[..i])| + if ids[i] in ts && Stuck(x, ts[ids[i]]) then 1 else 0
  {
    assert ids[..i + 1] == ids[..i] + [ids[i]];
    assert ids[i] !in ids[..i];
    if ids[i] in ts && Stuck(x, ts[ids[i]]) {
      assert StuckOnes(x, ts, ids[..i + 1]) == StuckOnes(x, ts, ids[..i]) + {ids[i]};
    } else {
      assert StuckOnes(x, ts, ids[..i + 1]) == StuckOnes(x, ts, ids[..i]);
    }
  }

  /** Where a rotation that has seen `n` lists of changes and `i` transactions stands. */
  ghost predicate Standing(x: Secrets, start: Tenants, ids: seq<Uuid>, schedule: seq<seq<Change>>, n: nat, i: nat,
                           ts: Tenants, rotated: nat, failed: nat)
    requires i <= |ids| && n <= |schedule|
  {
    && ReadAll(x, ts) == MeantAll(ReadAll(x, start), AllChanges(schedule[..n]))
    && (failed == 0 ==> Covered(x, ts, ids[i..]))
    && (Undisturbed(schedule) ==>
          AsBefore(ts, start, ids[i..]) && rotated + failed == i && failed == |StuckOnes(x, start, ids[..i])|)
  }

  lemma OthersAct(x: Secrets, start: Tenants, ids: seq<Uuid>, schedule: seq<seq<Change>>, i: nat, ts: Tenants,
                  rotated: nat, failed: nat)
    requires Enabled(x) && i < |ids| && i < |schedule| && Standing(x, start, ids, schedule, i, i, ts, rotated, failed)
    ensures Standing(x, start, ids, schedule, i + 1, i, ChangedAll(x, ts, schedule[i]), rotated, failed)
  {
    assert schedule[..i + 1][..i] == schedule[..i];
    MeantInTurn(ReadAll(x, start), AllChanges(schedule[..i]), schedule[i]);
    ChangesAreRead(x, ts, schedule[i]);
    if failed == 0 {
      ChangesStayCovered(x, ts, schedule[i], ids[i..]);
    }
  }

  lemma OneDone(x: Secrets, start: Tenants, ids: seq<Uuid>, schedule: seq<seq<Change>>, i: nat, ts: Tenants,
                rotated: nat, failed: nat, ts': Tenants, good: bool, bad: bool)
    requires Enabled(x) && i < |ids| && i < |schedule|
    requires Standing(x, start, ids, schedule, i + 1, i, ts, rotated, failed)
    requires forall j, k | 0 <= j < k < |ids| :: ids[j] != ids[k]
    requires bad <==> ids[i] in ts && Stuck(x, ts[ids[i]])
    requires good <==> ids[i] in ts && !Stuck(x, ts[ids[i]])
    requires ts'.Keys == ts.Keys && (ids[i] in ts' && !bad ==> Rotated(x, ts'[ids[i]]))
    requires forall other | other in ts' && other != ids[i] :: ts'[other] == ts[other]
    requires ReadAll(x, ts') == ReadAll(x, ts)
    ensures Standing(x, start, ids, schedule, i + 1, i + 1, ts', if good then rotated + 1 else rotated,
                     if bad then failed + 1 else failed)
  {
    StuckOnesGrow(x, start, ids, i);
    assert ids[i] in ids[i..];
  }

  lemma Begun(x: Secrets, ids: seq<Uuid>, schedule: seq<seq<Change>>, ts: Tenants)
    requires forall id :: id in ids <==> id in ts
    ensures Standing(x, ts, ids, schedule, 0, 0, ts, 0, 0)
  {
  }

  class Database {
    var tenants: Tenants

    constructor (tenants: Tenants)
      ensures this.tenants == tenants
    {
      this.tenants := tenants;
    }

    /** One tenant's transaction, under its row lock. */
    method RotateOne(x: Secrets, id: Uuid) returns (rotated: bool, failed: bool)
      requires Enabled(x)
      modifies this
      ensures failed <==> id in old(tenants) && Stuck(x, old(tenants)[id])
      ensures rotated <==> id in old(tenants) && !failed
      ensures !rotated ==> tenants == old(tenants)
      ensures rotated ==>
                && tenants.Keys == old(tenants).Keys && Rotated(x, tenants[id])
                && (forall other | other in tenants && other != id :: tenants[other] == old(tenants)[other])
      ensures ReadAll(x, tenants) == ReadAll(x, old(tenants))
    {
      rotated, failed := false, false;
      if id !in tenants {
        return;
      }
      RotatingOneTenant(x, tenants[id]);
      var t := RotatedTenant(x, tenants[id]);
      if t.None? {
        failed := true;
      } else {
        tenants := tenants[id := t.value];
        rotated := true;
      }
    }

    /**
     * Rotate the tenants listed at the start, in that order, with the changes `schedule[i]` made by
     * others before the i-th transaction; `broken` is the transaction at which the database gives
     * up, if any. Whatever the outcome, every secret still reads as what was last meant; after a
     * success it does so with the current key alone.
     */
    method RotateSecrets(x: Secrets, ids: seq<Uuid>, schedule: seq<seq<Change>>, broken: Option<nat>)
      returns (r: Outcome, ghost done: nat)
      requires forall id :: id in ids <==> id in tenants
      requires |schedule| == |ids| && forall i, j | 0 <= i < j < |ids| :: ids[i] != ids[j]
      modifies this
      ensures r.Disabled? <==> !Enabled(x)
      ensures r.Disabled? ==> tenants == old(tenants)
      ensures Enabled(x) ==>
                && done <= |schedule|
                && ReadAll(x, tenants) == MeantAll(old(ReadAll(x, tenants)), AllChanges(schedule[..done]))
      ensures r.Success? || r.Incomplete? ==> done == |schedule| && (broken.None? || broken.value >= |ids|)
      ensures r.Success? ==>
                && (forall id | id in tenants ::
                      && tenants[id].signing.Sealed? && tenants[id].signing.envelope.Some?
                      && tenants[id].signing.envelope.value.key == x.current
                      && (tenants[id].webhook.Some? ==>
                            var w := tenants[id].webhook.value;
                            w.Sealed? && w.envelope.Some? && w.envelope.value.key == x.current))
                && ReadAll(CurrentOnly(x), tenants) == MeantAll(old(ReadAll(x, tenants)), AllChanges(schedule))
      ensures Enabled(x) && broken.None? && (forall i | 0 <= i < |schedule| :: schedule[i] == []) ==>
                var stuck := |set id | id in old(tenants) && Stuck(x, old(tenants)[id])|;
                && (stuck == 0 ==> r == Success(|ids|))
                && (stuck > 0 ==> r.Incomplete? && r.failed == stuck && r.rotated + r.failed == |ids|)
    {
      done := 0;
      if !Enabled(x) {
        return Disabled, 0;
      }
      var rotated, failed := 0, 0;
      ghost var start := tenants;
      Begun(x, ids, schedule, start);
      for i := 0 to |ids|
        invariant done == i && (broken.None? || broken.value >= i)
        invariant Standing(x, start, ids, schedule, i, i, tenants, rotated, failed)
      {
        OthersAct(x, start, ids, schedule, i, tenants, rotated, failed);
        tenants := ChangedAll(x, tenants, schedule[i]);
        done := i + 1;
        if broken == Some(i) {
          return DatabaseError, done;
        }
        ghost var before := tenants;
        var ok, bad := RotateOne(x, ids[i]);
        OneDone(x, start, ids, schedule, i, before, rotated, failed, tenants, ok, bad);
        if bad {
          failed := failed + 1;
        } else if ok {
          rotated := rotated + 1;
        }
      }
      Ended(x, start, ids, schedule, tenants, rotated, failed);
      if failed > 0 {
        return Incomplete(rotated, failed), done;
      }
      RotatedReadsUnderCurrent(x, tenants);
      r := Success(rotated);
    }
  }

  lemma Ended(x: Secrets, start: Tenants, ids: seq<Uuid>, schedule: seq<seq<Change>>, ts: Tenants, rotated: nat,
              failed: nat)
    requires |ids| == |schedule| && Standing(x, start, ids, schedule, |ids|, |ids|, ts, rotated, failed)
    requires forall id :: id in ids <==> id in start
    ensures ReadAll(x, ts) == MeantAll(ReadAll(x, start), AllChanges(schedule))
    ensures failed == 0 ==> forall id | id in ts :: Rotated(x, ts[id])
    ensures Undisturbed(schedule) ==>
              && failed == |set id | id in start && Stuck(x, start[id])| && rotated == |ids| - failed
  {
    assert schedule[..|ids|] == schedule && ids[..|ids|] == ids;
    assert StuckOnes(x, start, ids) == set id | id in start && Stuck(x, start[id]);
  }
}
