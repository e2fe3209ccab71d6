/** Versions of a tenant's catalog: registering one at a time, and registrations that race. */
module Registry {
  import opened Basics
  import opened Ordering
  import opened Catalog
  import opened Canonical

  /** A row of the policies table; rows are keyed by policy key. */
  datatype Row = Row(category: string, maxSize: int, types: seq<string>, visibility: string, transforms: seq<Named>)

  type Table = map<string, Row>

  type Versions = map<nat, string>

  function RowOf(p: Policy): Row {
    Row(p.category, p.maxSize, p.types, Visibility(p), p.transforms)
  }

  /** `table` holds the policies `ps`, all of them and nothing else. */
  ghost predicate Holds(table: Table, ps: seq<Policy>) {
    && (forall k | k in table :: exists i :: 0 <= i < |ps| && ps[i].key == k)
    && (forall i | 0 <= i < |ps| :: ps[i].key in table && table[ps[i].key] == RowOf(ps[i]))
  }

  /** The row that `ORDER BY version DESC LIMIT 1` returns. */
  ghost predicate IsLatest(versions: Versions, latest: Option<nat>) {
    if latest.None? then versions == map[]
    else latest.value in versions && forall v | v in versions :: v <= latest.value
  }

  ghost predicate Numbered(versions: Versions) {
    forall v :: v in versions <==> 1 <= v <= |versions|
  }

  /** The table is what the newest version hashes. */
  ghost predicate Matches(table: Table, hash: string, newest: seq<Policy>) {
    hash == Lines(newest) && Holds(table, newest) && Strict(newest)
  }

  /** Versions run 1..n, and the table matches version n. */
  ghost predicate Consistent(table: Table, versions: Versions, newest: seq<Policy>) {
    && Numbered(versions)
    && (if |versions| in versions then Matches(table, versions[|versions|], newest) else table == map[])
  }

  function NextVersion(latest: Option<nat>): nat {
    if latest.Some? then latest.value + 1 else 1
  }

  lemma LatestIsCount(versions: Versions, latest: Option<nat>)
    requires Numbered(versions) && IsLatest(versions, latest)
    ensures if |versions| == 0 then latest.None? else latest == Some(|versions|)
  {
    if |versions| > 0 {
      assert |versions| in versions;
    }
  }

  lemma NewVersionKeeps(table: Table, versions: Versions, newest: seq<Policy>, table': Table, ps: seq<Policy>)
    requires Consistent(table, versions, newest) && Holds(table', ps) && Strict(ps)
    ensures |versions[|versions| + 1 := Lines(ps)]| == |versions| + 1
    ensures Consistent(table', versions[|versions| + 1 := Lines(ps)], ps)
  {
  }

  /** A strictly sorted catalog is sorted already. */
  lemma SortedAlready(ps: seq<Policy>)
    requires Strict(ps)
    ensures Sorted(ps) == ps
  {
    SortKeeps(KeyOf, ps);
    SortedUnique(KeyOf, ps, Sorted(ps));
  }

  // ---------------------------------------------------------------- one registration at a time

  datatype Response = Response(version: nat, changed: bool, count: nat)

  datatype Result = Ok(response: Response) | Err(error: Error)

  /** Is the catalog `req` the newest version already? */
  ghost predicate Unchanged(versions: Versions, req: seq<Policy>) {
    |versions| in versions && versions[|versions|] == Lines(Sorted(req))
  }

  class Store {
    var table: Table
    var versions: Versions
    ghost var newest: seq<Policy>

    ghost predicate Valid()
      reads this
    {
      Consistent(table, versions, newest)
    }

    constructor ()
      ensures Valid() && table == map[] && versions == map[]
    {
      table, versions, newest := map[], map[], [];
    }

    method FindTwins(ps: seq<Policy>) returns (found: bool)
      ensures found == HasTwins(ps)
    {
      var i := 0;
      while i + 1 < |ps|
        invariant 0 <= i && forall j | 0 <= j < i && j < |ps| - 1 :: ps[j].key != ps[j + 1].key
      {
        if ps[i].key == ps[i + 1].key {
          return true;
        }
        i := i + 1;
      }
      found := false;
    }

    /** Insert a row for each policy into an emptied table. */
    method Rows(ps: seq<Policy>) returns (rows: Table)
      requires Strict(ps)
      ensures Holds(rows, ps)
    {
      rows := map[];
      for i := 0 to |ps|
        invariant forall k | k in rows :: exists j :: 0 <= j < i && ps[j].key == k
        invariant forall j | 0 <= j < i :: ps[j].key in rows && rows[ps[j].key] == RowOf(ps[j])
      {
        rows := rows[ps[i].key := RowOf(ps[i])];
      }
    }

    /**
     * Refuse, or answer that nothing changed, or replace the table and add the next version. The
     * answer tells which, and a refused or unchanged request leaves everything as it was.
     */
    method Register(req: seq<Policy>, maxUpload: nat) returns (r: Result)
      requires Valid()
      modifies this
      ensures Valid()
      ensures r.Err? <==> Problem(req, maxUpload).Some?
      ensures r.Err? ==> r.error == Problem(req, maxUpload).value
      ensures r.Ok? ==>
                var n := |old(versions)|;
                var same := n > 0 && old(versions)[n] == Lines(Sorted(req));
                r.response == if same then Response(n, false, |req|) else Response(n + 1, true, |req|)
      ensures r.Err? || !r.response.changed ==>
                table == old(table) && versions == old(versions) && newest == old(newest)
      ensures r.Ok? && r.response.changed ==>
                && versions == old(versions)[|old(versions)| + 1 := Lines(Sorted(req))]
                && newest == Sorted(req)
                && (forall k :: k in table <==> exists p :: p in req && p.key == k)
                && forall p | p in req ::
                     table[p.key] == Row(p.category, p.maxSize, p.types,
                                         if p.visibility.Some? then p.visibility.value else "private", p.transforms)
    {
      if req == [] {
        return Err(NoPolicies);
      }
      if PoliciesProblem(req, maxUpload).Some? {
        return Err(PoliciesProblem(req, maxUpload).value);
      }
      var policies := Sorted(req);
      var twins := FindTwins(policies);
      if twins {
        return Err(DuplicateKey);
      }
      ProblemNone(req, maxUpload);
      SameLength(req, policies);
      var hash := CatalogHash(policies);
      var n := |versions|;
      if n in versions && versions[n] == hash {
        return Ok(Response(n, false, |policies|));
      }
      var rows := Rows(policies);
      NewVersionKeeps(table, versions, newest, rows, policies);
      RowsAre(rows, policies, req);
      table := rows;
      versions := versions[n + 1 := hash];
      newest := policies;
      r := Ok(Response(n + 1, true, |policies|));
    }
  }

  lemma SameMembers(s: seq<Policy>, t: seq<Policy>, p: Policy)
    requires multiset(s) == multiset(t)
    ensures p in s <==> p in t
  {
    assert p in s <==> p in multiset(s);
    assert p in t <==> p in multiset(t);
  }

  /** A table that holds `ps`, in terms of the same policies in any order. */
  lemma RowsAre(table: Table, ps: seq<Policy>, qs: seq<Policy>)
    requires Holds(table, ps) && multiset(ps) == multiset(qs)
    ensures forall k :: k in table <==> exists q :: q in qs && q.key == k
    ensures forall q | q in qs ::
              table[q.key] == Row(q.category, q.maxSize, q.types,
                                  if q.visibility.Some? then q.visibility.value else "private", q.transforms)
  {
    forall p | p in ps || p in qs
      ensures p in ps && p in qs
    {
      SameMembers(ps, qs, p);
    }
    forall k | k in table
      ensures exists q :: q in qs && q.key == k
    {
      var i :| 0 <= i < |ps| && ps[i].key == k;
      assert ps[i] in qs;
    }
  }

  lemma SameLength(s: seq<Policy>, t: seq<Policy>)
    requires multiset(s) == multiset(t)
    ensures |s| == |t|
  {
    assert |multiset(s)| == |s| && |multiset(t)| == |t|;
  }

  // ---------------------------------------------------------------- registrations that race

  /** A registration between its look at the newest version and its transaction. */
  datatype Pending = Pending(policies: seq<Policy>, next: nat)

  datatype State = State(table: Table, versions: Versions, newest: seq<Policy>, pending: map<nat, Pending>)

  datatype Step =
    | Begin(u: nat, req: seq<Policy>, latest: Option<nat>)
    | Commit(u: nat, table: Table)
    | Fail(u: nat)

  /** The primary key on (tenant, version) lets a commit through only if its version is still free. */
  ghost predicate Enabled(maxUpload: nat, s: State, a: Step) {
    match a
    case Begin(u, req, latest) => u !in s.pending && Problem(req, maxUpload).None? && IsLatest(s.versions, latest)
    case Commit(u, table) =>
      u in s.pending && s.pending[u].next !in s.versions && Holds(table, s.pending[u].policies)
    case Fail(u) => u in s.pending
  }

  ghost function Apply(maxUpload: nat, s: State, a: Step): State
    requires Enabled(maxUpload, s, a)
  {
    match a
    case Begin(u, req, latest) =>
      if latest.Some? && s.versions[latest.value] == Lines(Sorted(req)) then s
      else s.(pending := s.pending[u := Pending(Sorted(req), NextVersion(latest))])
    case Commit(u, table) =>
      var p := s.pending[u];
      State(table, s.versions[p.next := Lines(p.policies)], p.policies, s.pending - {u})
    case Fail(u) => s.(pending := s.pending - {u})
  }

  ghost predicate Inv(s: State) {
    && Consistent(s.table, s.versions, s.newest)
    && (forall u | u in s.pending :: 1 <= s.pending[u].next <= |s.versions| + 1 && Strict(s.pending[u].policies))
  }

  lemma BeginKeeps(maxUpload: nat, s: State, a: Step)
    requires Inv(s) && Enabled(maxUpload, s, a) && a.Begin?
    ensures Inv(Apply(maxUpload, s, a)) && Apply(maxUpload, s, a).versions == s.versions
  {
    ProblemNone(a.req, maxUpload);
    LatestIsCount(s.versions, a.latest);
  }

  lemma CommitKeeps(maxUpload: nat, s: State, a: Step)
    requires Inv(s) && Enabled(maxUpload, s, a) && a.Commit?
    ensures Inv(Apply(maxUpload, s, a)) && |Apply(maxUpload, s, a).versions| == |s.versions| + 1
    ensures s.pending[a.u].next == |s.versions| + 1
  {
    var p := s.pending[a.u];
    assert p.next == |s.versions| + 1;
    NewVersionKeeps(s.table, s.versions, s.newest, a.table, p.policies);
  }

  lemma InvStep(maxUpload: nat, s: State, a: Step)
    requires Inv(s) && Enabled(maxUpload, s, a)
    ensures Inv(Apply(maxUpload, s, a))
    ensures |s.versions| <= |Apply(maxUpload, s, a).versions|
  {
    if a.Begin? {
      BeginKeeps(maxUpload, s, a);
    } else if a.Commit? {
      CommitKeeps(maxUpload, s, a);
    }
  }

  ghost predicate Runs(maxUpload: nat, s: State, steps: seq<Step>, t: State)
    decreases |steps|
  {
    if steps == [] then s == t
    else Enabled(maxUpload, s, steps[0]) && Runs(maxUpload, Apply(maxUpload, s, steps[0]), steps[1..], t)
  }

  lemma {:induction false} RunKeepsInv(maxUpload: nat, s: State, steps: seq<Step>, t: State)
    requires Inv(s) && Runs(maxUpload, s, steps, t)
    ensures Inv(t) && |s.versions| <= |t.versions|
    decreases |steps|
  {
    if steps == [] {
    } else {
      InvStep(maxUpload, s, steps[0]);
      RunKeepsInv(maxUpload, Apply(maxUpload, s, steps[0]), steps[1..], t);
    }
  }

  ghost function Fresh(): State {
    State(map[], map[], [], map[])
  }

  /** However registrations race, versions run 1..n and the table is what version n hashes. */
  lemma TableMatchesNewestVersion(maxUpload: nat, steps: seq<Step>, t: State)
    requires Runs(maxUpload, Fresh(), steps, t)
    ensures forall v :: v in t.versions <==> 1 <= v <= |t.versions|
    ensures |t.versions| in t.versions ==>
              && t.versions[|t.versions|] == Lines(t.newest)
              && (forall k :: k in t.table <==> exists p :: p in t.newest && p.key == k)
              && forall p | p in t.newest ::
                   t.table[p.key] == Row(p.category, p.maxSize, p.types,
                                         if p.visibility.Some? then p.visibility.value else "private", p.transforms)
    ensures |t.versions| !in t.versions ==> t.table == map[]
  {
    RunKeepsInv(maxUpload, Fresh(), steps, t);
    if |t.versions| in t.versions {
      RowsAre(t.table, t.newest, t.newest);
    }
  }

  function TableOf(ps: seq<Policy>): Table {
    if ps == [] then map[] else TableOf(ps[..|ps| - 1])[ps[|ps| - 1].key := RowOf(ps[|ps| - 1])]
  }

  lemma OneMoreRow(table: Table, ps: seq<Policy>, p: Policy)
    requires Holds(table, ps) && forall i | 0 <= i < |ps| :: ps[i].key != p.key
    ensures Holds(table[p.key := RowOf(p)], ps + [p])
  {
    assert (ps + [p])[|ps|] == p;
    forall k | k in table
      ensures exists i :: 0 <= i < |ps + [p]| && (ps + [p])[i].key == k
    {
      var i :| 0 <= i < |ps| && ps[i].key == k;
      assert (ps + [p])[i].key == k;
    }
  }

  lemma {:induction false} TableHolds(ps: seq<Policy>)
    requires forall i, j | 0 <= i < j < |ps| :: ps[i].key != ps[j].key
    ensures Holds(TableOf(ps), ps)
  {
    if ps != [] {
      var rest, last := ps[..|ps| - 1], ps[|ps| - 1];
      TableHolds(rest);
      OneMoreRow(TableOf(rest), rest, last);
      assert ps == rest + [last];
    }
  }

  /** Looking at the newest version settles which version comes next, unless it has the text already. */
  lemma BeginIs(maxUpload: nat, s: State, u: nat, req: seq<Policy>, latest: Option<nat>)
    requires Inv(s) && u !in s.pending && Problem(req, maxUpload).None?
    requires latest == if |s.versions| > 0 then Some(|s.versions|) else None
    ensures Enabled(maxUpload, s, Begin(u, req, latest))
    ensures Apply(maxUpload, s, Begin(u, req, latest)) ==
            if |s.versions| in s.versions && s.versions[|s.versions|] == Lines(Sorted(req)) then s
            else s.(pending := s.pending[u := Pending(Sorted(req), |s.versions| + 1)])
  {
  }

  lemma CommitIs(maxUpload: nat, s: State, u: nat, ps: seq<Policy>, table: Table)
    requires Numbered(s.versions) && u !in s.pending && Holds(table, ps)
    ensures var s1 := s.(pending := s.pending[u := Pending(ps, |s.versions| + 1)]);
            && Enabled(maxUpload, s1, Commit(u, table))
            && Apply(maxUpload, s1, Commit(u, table)) ==
               State(table, s.versions[|s.versions| + 1 := Lines(ps)], ps, s.pending)
  {
    var p := Pending(ps, |s.versions| + 1);
    assert s.pending[u := p] - {u} == s.pending;
  }

  lemma OneRun(maxUpload: nat, s: State, a: Step)
    requires Enabled(maxUpload, s, a)
    ensures Runs(maxUpload, s, [a], Apply(maxUpload, s, a))
  {
    assert [a][1..] == [];
  }

  lemma TwoRun(maxUpload: nat, s: State, a: Step, b: Step)
    requires Enabled(maxUpload, s, a) && Enabled(maxUpload, Apply(maxUpload, s, a), b)
    ensures Runs(maxUpload, s, [a, b], Apply(maxUpload, Apply(maxUpload, s, a), b))
  {
    assert [a, b][1..] == [b];
    OneRun(maxUpload, Apply(maxUpload, s, a), b);
  }

  lemma RegistrationRun(maxUpload: nat, s: State, u: nat, req: seq<Policy>, latest: Option<nat>)
    returns (steps: seq<Step>, t: State)
    requires Inv(s) && u !in s.pending && Problem(req, maxUpload).None?
    requires latest == if |s.versions| > 0 then Some(|s.versions|) else None
    ensures Runs(maxUpload, s, steps, t) && forall a | a in steps :: a.u == u && !a.Fail?
    ensures t == if |s.versions| in s.versions && s.versions[|s.versions|] == Lines(Sorted(req)) then s
                 else State(TableOf(Sorted(req)), s.versions[|s.versions| + 1 := Lines(Sorted(req))], Sorted(req),
                            s.pending)
  {
    var begin := Begin(u, req, latest);
    BeginIs(maxUpload, s, u, req, latest);
    if |s.versions| in s.versions && s.versions[|s.versions|] == Lines(Sorted(req)) {
      steps, t := [begin], s;
      OneRun(maxUpload, s, begin);
    } else {
      ProblemNone(req, maxUpload);
      TableHolds(Sorted(req));
      CommitIs(maxUpload, s, u, Sorted(req), TableOf(Sorted(req)));
      steps := [begin, Commit(u, TableOf(Sorted(req)))];
      t := State(TableOf(Sorted(req)), s.versions[|s.versions| + 1 := Lines(Sorted(req))], Sorted(req), s.pending);
      TwoRun(maxUpload, s, begin, Commit(u, TableOf(Sorted(req))));
    }
  }

  /**
   * A registration that nothing interrupts adds the next version and the rows of its policies, in any
   * state that racing registrations can reach, unless the newest version has its text already: then it
   * changes nothing.
   */
  lemma UninterruptedRegistration(maxUpload: nat, before: seq<Step>, s: State, u: nat, req: seq<Policy>)
    returns (steps: seq<Step>, t: State)
    requires Runs(maxUpload, Fresh(), before, s) && u !in s.pending && Problem(req, maxUpload).None?
    ensures Runs(maxUpload, s, steps, t) && forall a | a in steps :: a.u == u && !a.Fail?
    ensures t.pending == s.pending
    ensures var n := |s.versions|;
            if n in s.versions && s.versions[n] == Lines(Sorted(req)) then t == s
            else
              && t.versions == s.versions[n + 1 := Lines(Sorted(req))]
              && (forall k :: k in t.table <==> exists p :: p in req && p.key == k)
              && forall p | p in req ::
                   t.table[p.key] == Row(p.category, p.maxSize, p.types,
                                         if p.visibility.Some? then p.visibility.value else "private", p.transforms)
  {
    RunKeepsInv(maxUpload, Fresh(), before, s);
    ProblemNone(req, maxUpload);
    steps, t := RegistrationRun(maxUpload, s, u, req, if |s.versions| > 0 then Some(|s.versions|) else None);
    TableHolds(Sorted(req));
    RowsAre(TableOf(Sorted(req)), Sorted(req), req);
  }

  /** Of two registrations that saw the same newest version, one at most ever commits. */
  lemma RacingCommitsExclude(maxUpload: nat, before: seq<Step>, s: State, u: nat, table: Table, v: nat,
                             later: seq<Step>, t: State)
    requires Runs(maxUpload, Fresh(), before, s) && Enabled(maxUpload, s, Commit(u, table))
    requires v in s.pending && v != u && s.pending[v].next == s.pending[u].next
    requires Runs(maxUpload, Apply(maxUpload, s, Commit(u, table)), later, t)
    requires v in t.pending && t.pending[v] == s.pending[v]
    ensures forall rows :: !Enabled(maxUpload, t, Commit(v, rows))
  {
    RunKeepsInv(maxUpload, Fresh(), before, s);
    InvStep(maxUpload, s, Commit(u, table));
    RunKeepsInv(maxUpload, Apply(maxUpload, s, Commit(u, table)), later, t);
    CommitKeeps(maxUpload, s, Commit(u, table));
  }

  /**
   * Registering a catalog is a no-op if and only if it reorders the newest one, when both are over a
   * clear alphabet; that a reordering is one needs no such condition.
   */
  lemma UnchangedIffReordering(maxUpload: nat, steps: seq<Step>, t: State, req: seq<Policy>, a: Alphabet)
    requires Runs(maxUpload, Fresh(), steps, t) && |t.versions| > 0 && Problem(req, maxUpload).None?
    ensures Reordering(req, t.newest) ==> Unchanged(t.versions, req)
    ensures Clear(a) && Clean(a, req) && Clean(a, t.newest) ==>
              (Unchanged(t.versions, req) <==> Reordering(req, t.newest))
  {
    RunKeepsInv(maxUpload, Fresh(), steps, t);
    ProblemNone(req, maxUpload);
    SortedAlready(t.newest);
    if Reordering(req, t.newest) {
      ReorderingHashesAlike(req, t.newest);
    }
    if Clear(a) && Clean(a, req) && Clean(a, t.newest) {
      HashIsCanonical(a, req, t.newest);
    }
  }
}
