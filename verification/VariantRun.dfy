/**
 * A variant request that nothing interrupts: its own steps, in the machine where every request
 * interleaves with others, lead to the answer that serving one request at a time gives.
 */
module VariantRun {
  import opened Basics
  import opened Keys
  import opened Transform
  import opened Variants
  import VariantCache

  /** Steps of request `u` itself, other than giving up. */
  ghost predicate AllOwn(steps: seq<Step>, u: nat) {
    forall i | 0 <= i < |steps| ::
      steps[i] in {Look(u), Render(u), ReadPrior(u), Write(u), Upsert(u), Count(u), Reclaim(u, true), Open(u)}
  }

  /** The original is there and can be rendered. */
  ghost predicate Here(c: Config, s: State, r: Request) {
    Direct(c, s.originals, r.file.path, r.preset).Some?
  }

  ghost predicate Hit(s: State, r: Request) {
    RowName(r) in s.rows && s.rows[RowName(r)].key == KeyFor(r)
  }

  ghost predicate Named(c: Config, s: State, r: Request) {
    var d := Direct(c, s.ever, r.file.path, r.preset);
    d.Some? && Matches(r.inm, Sha256(d.value.bytes))
  }

  /** In this state request `r` can be answered without anybody's help. */
  ghost predicate Ready(c: Config, s: State, r: Request) {
    var stored := KeyFor(r) in s.blobs;
    match r.phase
    case Looking => (Hit(s, r) && (stored || Named(c, s, r))) || Here(c, s, r)
    case Rendering(heal) => Here(c, s, r) && Unnamed(c, s, r, heal)
    case Rendered(heal, _) => Unnamed(c, s, r, heal)
    case Writing(heal, _, _) => Unnamed(c, s, r, heal)
    case Upserting(heal, _, _) => stored && Unnamed(c, s, r, heal)
    case Counting(heal, _, k) => stored && k != KeyFor(r) && Unnamed(c, s, r, heal)
    case Reclaiming(heal, _, k) => stored && k != KeyFor(r) && Unnamed(c, s, r, heal)
    case Opening(_) => stored || Here(c, s, r) || Named(c, s, r)
    case Reopening(_) => stored && !Named(c, s, r)
    case Done(_) => false
  }

  /** A request that heals a lost blob was not answered by the checksum. */
  ghost predicate Unnamed(c: Config, s: State, r: Request, heal: Option<Meta>) {
    heal.Some? ==> !Named(c, s, r)
  }

  /** What the request does next. */
  function Next(r: Request, u: nat): Step {
    match r.phase
    case Looking => Look(u)
    case Rendering(_) => Render(u)
    case Rendered(_, _) => ReadPrior(u)
    case Writing(_, _, _) => Write(u)
    case Upserting(_, _, _) => Upsert(u)
    case Counting(_, _, _) => Count(u)
    case Reclaiming(_, _, _) => Reclaim(u, true)
    case _ => Open(u)
  }

  /** How many steps are left, at most. */
  function Rank(p: Phase): nat {
    match p
    case Looking => 16
    case Rendering(heal) => 7 + Turn(heal)
    case Rendered(heal, _) => 6 + Turn(heal)
    case Writing(heal, _, _) => 5 + Turn(heal)
    case Upserting(heal, _, _) => 4 + Turn(heal)
    case Counting(heal, _, _) => 3 + Turn(heal)
    case Reclaiming(heal, _, _) => 2 + Turn(heal)
    case Opening(_) => 8
    case Reopening(_) => 1
    case Done(_) => 0
  }

  function Turn(heal: Option<Meta>): nat {
    if heal.Some? then 0 else 8
  }

  ghost function AnswerFor(c: Config, s: State, r: Request): Answer {
    var d := Direct(c, s.ever, r.file.path, r.preset);
    if d.None? then Refused
    else if Matches(r.inm, Sha256(d.value.bytes)) then NotModified(Sha256(d.value.bytes))
    else Served(MetaOf(d.value), d.value.bytes)
  }

  /** After one own step of `u` in state `s`, now `t`. */
  ghost predicate Advanced(c: Config, s: State, t: State, u: nat)
    requires u in s.requests
  {
    && u in t.requests && t.requests[u] == s.requests[u].(phase := t.requests[u].phase)
    && t.ever == s.ever && t.originals == s.originals
    && if t.requests[u].phase.Done? then Answered(c, s, t, u)
       else Ready(c, t, t.requests[u]) && Rank(t.requests[u].phase) < Rank(s.requests[u].phase)
  }

  ghost predicate Answered(c: Config, s: State, t: State, u: nat)
    requires u in s.requests && u in t.requests
  {
    var r := s.requests[u];
    t.requests[u].phase == Done(AnswerFor(c, s, r))
  }

  lemma NextIsEnabled(c: Config, s: State, u: nat)
    requires Inv(c, s) && u in s.requests && Ready(c, s, s.requests[u])
    ensures Enabled(c, s, Next(s.requests[u], u))
  {
    assert RequestOk(c, s, s.requests[u]);
  }

  lemma LookAdvances(c: Config, s: State, u: nat)
    requires Inv(c, s) && u in s.requests && Ready(c, s, s.requests[u]) && s.requests[u].phase.Looking?
    ensures Enabled(c, s, Look(u)) && Advanced(c, s, Apply(c, s, Look(u)), u)
  {
  }

  lemma RenderAdvances(c: Config, s: State, u: nat)
    requires Inv(c, s) && u in s.requests && Ready(c, s, s.requests[u])
    requires var p := s.requests[u].phase; p.Rendering? || p.Rendered? || p.Writing?
    ensures var a := Next(s.requests[u], u); Enabled(c, s, a) && Advanced(c, s, Apply(c, s, a), u)
  {
    NextIsEnabled(c, s, u);
  }

  lemma UpsertAdvances(c: Config, s: State, u: nat)
    requires Inv(c, s) && u in s.requests && Ready(c, s, s.requests[u]) && s.requests[u].phase.Upserting?
    ensures Enabled(c, s, Upsert(u)) && Advanced(c, s, Apply(c, s, Upsert(u)), u)
  {
    NextIsEnabled(c, s, u);
  }

  lemma CountAdvances(c: Config, s: State, u: nat)
    requires u in s.requests && Ready(c, s, s.requests[u]) && s.requests[u].phase.Counting?
    ensures Enabled(c, s, Count(u)) && Advanced(c, s, Apply(c, s, Count(u)), u)
  {
  }

  lemma ReclaimAdvances(c: Config, s: State, u: nat)
    requires u in s.requests && Ready(c, s, s.requests[u]) && s.requests[u].phase.Reclaiming?
    ensures Enabled(c, s, Reclaim(u, true)) && Advanced(c, s, Apply(c, s, Reclaim(u, true)), u)
  {
  }

  lemma OpenAdvances(c: Config, s: State, u: nat)
    requires Inv(c, s) && u in s.requests && Ready(c, s, s.requests[u])
    requires var p := s.requests[u].phase; p.Opening? || p.Reopening?
    ensures Enabled(c, s, Open(u)) && Advanced(c, s, Apply(c, s, Open(u)), u)
  {
    var r := s.requests[u];
    assert RequestOk(c, s, r);
    assert KeyFor(r) == KeyOf(r.file.path, r.preset);
  }

  lemma NextAdvances(c: Config, s: State, u: nat)
    requires Inv(c, s) && u in s.requests && Ready(c, s, s.requests[u])
    ensures var a := Next(s.requests[u], u); Enabled(c, s, a) && Advanced(c, s, Apply(c, s, a), u)
  {
    match s.requests[u].phase
    case Looking => LookAdvances(c, s, u);
    case Opening(_) => OpenAdvances(c, s, u);
    case Reopening(_) => OpenAdvances(c, s, u);
    case Upserting(_, _, _) => UpsertAdvances(c, s, u);
    case Counting(_, _, _) => CountAdvances(c, s, u);
    case Reclaiming(_, _, _) => ReclaimAdvances(c, s, u);
    case _ => RenderAdvances(c, s, u);
  }

  // ---------------------------------------------------------------- what it leaves in the cache

  /** The rendering stored, the row pointing to it, and the blob it supersedes dropped. */
  ghost predicate Stored(s0: State, s: State, r: Request, image: Image) {
    && s.rows == s0.rows[RowName(r) := Cached(KeyFor(r), MetaOf(image))]
    && s.blobs == s0.blobs[KeyFor(r) := image.bytes] - VariantCache.Superseded(s0.rows, RowName(r), KeyFor(r))
  }

  ghost predicate Untouched(s0: State, s: State) {
    s.rows == s0.rows && s.blobs == s0.blobs
  }

  /** A request that renders had no current row, or a current row whose blob was gone. */
  ghost predicate Misses(s0: State, r: Request, heal: Option<Meta>) {
    if heal.Some? then Hit(s0, r) && KeyFor(r) !in s0.blobs else !Hit(s0, r)
  }

  /** What an answered request leaves. */
  ghost predicate Left(c: Config, s0: State, s: State, r: Request) {
    var d := Direct(c, s.ever, r.file.path, r.preset);
    if Hit(s0, r) && (KeyFor(r) in s0.blobs || Named(c, s, r)) then Untouched(s0, s)
    else d.Some? && Stored(s0, s, r, d.value)
  }

  ghost predicate Replaced(s0: State, s: State, r: Request, image: Image, k: Key) {
    && RowName(r) in s0.rows && s0.rows[RowName(r)].key == k != KeyFor(r)
    && s.rows == s0.rows[RowName(r) := Cached(KeyFor(r), MetaOf(image))]
    && s.blobs == s0.blobs[KeyFor(r) := image.bytes]
  }

  /** How far the request, which began in `s0`, has come in `s`. */
  ghost predicate Stands(c: Config, s0: State, s: State, r: Request) {
    match r.phase
    case Looking => Untouched(s0, s)
    case Rendering(heal) => Untouched(s0, s) && Misses(s0, r, heal)
    case Rendered(heal, _) => Untouched(s0, s) && Misses(s0, r, heal)
    case Writing(heal, _, prior) => Untouched(s0, s) && Misses(s0, r, heal) && prior == PriorKey(s0, r)
    case Upserting(heal, image, prior) =>
      && s.rows == s0.rows && s.blobs == s0.blobs[KeyFor(r) := image.bytes]
      && Misses(s0, r, heal) && prior == PriorKey(s0, r)
    case Counting(heal, image, k) => Replaced(s0, s, r, image, k) && Misses(s0, r, heal)
    case Reclaiming(heal, image, k) =>
      Replaced(s0, s, r, image, k) && Misses(s0, r, heal) && !Referenced(s.rows, k)
    case Opening(_) => if Hit(s0, r) then Untouched(s0, s) else Left(c, s0, s, r)
    case Reopening(_) => Left(c, s0, s, r)
    case Done(_) => Left(c, s0, s, r)
  }

  /** What the request's next step leads to. */
  ghost predicate StandsNext(c: Config, s0: State, s: State, u: nat)
    requires u in s.requests && Enabled(c, s, Next(s.requests[u], u))
  {
    var t := Apply(c, s, Next(s.requests[u], u));
    u in t.requests && Stands(c, s0, t, t.requests[u])
  }

  lemma LookStands(c: Config, s0: State, s: State, u: nat)
    requires u in s.requests && s.requests[u].phase.Looking? && Stands(c, s0, s, s.requests[u])
    requires Enabled(c, s, Next(s.requests[u], u))
    ensures StandsNext(c, s0, s, u)
  {
  }

  lemma RenderStands(c: Config, s0: State, s: State, u: nat)
    requires u in s.requests && Stands(c, s0, s, s.requests[u]) && Enabled(c, s, Next(s.requests[u], u))
    requires var p := s.requests[u].phase; p.Rendering? || p.Rendered? || p.Writing?
    ensures StandsNext(c, s0, s, u)
  {
  }

  lemma UpsertStands(c: Config, s0: State, s: State, u: nat)
    requires Inv(c, s) && u in s.requests && s.requests[u].phase.Upserting? && Ready(c, s, s.requests[u])
    requires Stands(c, s0, s, s.requests[u]) && Enabled(c, s, Next(s.requests[u], u))
    ensures StandsNext(c, s0, s, u)
  {
    var r := s.requests[u];
    assert RequestOk(c, s, r);
    if PriorKey(s0, r).None? || PriorKey(s0, r).value == KeyFor(r) {
      var w := s.(rows := s.rows[RowName(r) := Cached(KeyFor(r), MetaOf(r.phase.image))]);
      StoredLeaves(c, s0, s, r);
      LeftStays(c, s0, w, u, Resume(r.phase.heal, r.phase.image));
    } else {
      assert Replaced(s0, Apply(c, s, Upsert(u)), r, r.phase.image, r.phase.prior.value);
    }
  }

  lemma StoredLeaves(c: Config, s0: State, s: State, r: Request)
    requires RequestOk(c, s, r) && r.phase.Upserting? && Ready(c, s, r) && Stands(c, s0, s, r)
    requires PriorKey(s0, r).None? || PriorKey(s0, r).value == KeyFor(r)
    ensures Left(c, s0, s.(rows := s.rows[RowName(r) := Cached(KeyFor(r), MetaOf(r.phase.image))]), r)
  {
    NothingSuperseded(s0, s, r);
  }

  /** Without an old key, or with the same one, the stored blob is all there is to it. */
  lemma NothingSuperseded(s0: State, s: State, r: Request)
    requires PriorKey(s0, r).None? || PriorKey(s0, r).value == KeyFor(r)
    ensures s.blobs - VariantCache.Superseded(s0.rows, RowName(r), KeyFor(r)) == s.blobs
  {
  }

  lemma CountStands(c: Config, s0: State, s: State, u: nat)
    requires Inv(c, s) && u in s.requests && s.requests[u].phase.Counting? && Ready(c, s, s.requests[u])
    requires Stands(c, s0, s, s.requests[u]) && Enabled(c, s, Next(s.requests[u], u))
    ensures StandsNext(c, s0, s, u)
  {
    var r := s.requests[u];
    assert RequestOk(c, s, r);
    VariantCache.ReclaimEffect(s0.rows, s.blobs, RowName(r), Cached(KeyFor(r), MetaOf(r.phase.image)));
  }

  lemma ReclaimStands(c: Config, s0: State, s: State, u: nat)
    requires Inv(c, s) && u in s.requests && s.requests[u].phase.Reclaiming? && Ready(c, s, s.requests[u])
    requires Stands(c, s0, s, s.requests[u]) && Enabled(c, s, Next(s.requests[u], u))
    ensures StandsNext(c, s0, s, u)
  {
    var r := s.requests[u];
    assert RequestOk(c, s, r);
    VariantCache.ReclaimEffect(s0.rows, s.blobs, RowName(r), Cached(KeyFor(r), MetaOf(r.phase.image)));
  }

  /** Moving on changes nothing of what is left. */
  lemma LeftStays(c: Config, s0: State, s: State, u: nat, p: Phase)
    requires u in s.requests
    ensures Left(c, s0, Goto(s, u, p), s.requests[u].(phase := p)) <==> Left(c, s0, s, s.requests[u])
  {
  }

  lemma OpenStands(c: Config, s0: State, s: State, u: nat)
    requires Inv(c, s) && u in s.requests && s.requests[u].phase.Opening?
    requires Ready(c, s, s.requests[u]) && Stands(c, s0, s, s.requests[u]) && Enabled(c, s, Next(s.requests[u], u))
    ensures StandsNext(c, s0, s, u)
  {
    var r := s.requests[u];
    assert RequestOk(c, s, r);
    LeftStays(c, s0, s, u, OpenPhase(s, r));
    if OpenPhase(s, r).Done? {
      OpenedLeaves(c, s0, s, r);
    } else {
      assert Hit(s0, r) && KeyFor(r) !in s0.blobs;
    }
  }

  lemma OpenedLeaves(c: Config, s0: State, s: State, r: Request)
    requires RequestOk(c, s, r) && r.phase.Opening? && Stands(c, s0, s, r) && OpenPhase(s, r).Done?
    ensures Left(c, s0, s, r)
  {
  }

  lemma ReopenStands(c: Config, s0: State, s: State, u: nat)
    requires u in s.requests && s.requests[u].phase.Reopening?
    requires Stands(c, s0, s, s.requests[u]) && Enabled(c, s, Next(s.requests[u], u))
    ensures StandsNext(c, s0, s, u)
  {
    LeftStays(c, s0, s, u, OpenPhase(s, s.requests[u]));
  }

  lemma NextStands(c: Config, s0: State, s: State, u: nat)
    requires Inv(c, s) && u in s.requests && Ready(c, s, s.requests[u]) && Stands(c, s0, s, s.requests[u])
    requires Enabled(c, s, Next(s.requests[u], u))
    ensures StandsNext(c, s0, s, u)
  {
    match s.requests[u].phase
    case Looking => LookStands(c, s0, s, u);
    case Opening(_) => OpenStands(c, s0, s, u);
    case Reopening(_) => ReopenStands(c, s0, s, u);
    case Upserting(_, _, _) => UpsertStands(c, s0, s, u);
    case Counting(_, _, _) => CountStands(c, s0, s, u);
    case Reclaiming(_, _, _) => ReclaimStands(c, s0, s, u);
    case _ => RenderStands(c, s0, s, u);
  }

  // ---------------------------------------------------------------- to the answer

  /** `steps` of its own lead request `u` from `s` to its answer in `t`. */
  ghost predicate Finishes(c: Config, s0: State, s: State, steps: seq<Step>, t: State, u: nat)
    requires u in s.requests
  {
    && Runs(c, s, steps, t) && AllOwn(steps, u) && |steps| <= Rank(s.requests[u].phase)
    && u in t.requests && Answered(c, s, t, u) && Stands(c, s0, t, t.requests[u])
    && SameRequest(s, t, u)
  }

  ghost predicate SameRequest(s: State, t: State, u: nat)
    requires u in s.requests && u in t.requests
  {
    t.requests[u] == s.requests[u].(phase := t.requests[u].phase) && t.ever == s.ever
  }

  lemma {:induction false} Finish(c: Config, s0: State, s: State, u: nat) returns (steps: seq<Step>, t: State)
    requires Inv(c, s) && u in s.requests && Ready(c, s, s.requests[u]) && Stands(c, s0, s, s.requests[u])
    ensures Finishes(c, s0, s, steps, t, u)
    decreases Rank(s.requests[u].phase)
  {
    var a := Next(s.requests[u], u);
    NextAdvances(c, s, u);
    NextStands(c, s0, s, u);
    var s1 := Apply(c, s, a);
    if s1.requests[u].phase.Done? {
      steps, t := [a], s1;
      FinishLast(c, s0, s, u);
    } else {
      InvStep(c, s, a);
      var rest, end := Finish(c, s0, s1, u);
      FinishFirst(c, s0, s, rest, end, u);
      steps, t := [a] + rest, end;
    }
  }

  lemma NextIsOwn(s: State, u: nat)
    requires u in s.requests
    ensures AllOwn([Next(s.requests[u], u)], u)
  {
  }

  lemma FinishLast(c: Config, s0: State, s: State, u: nat)
    requires u in s.requests && Enabled(c, s, Next(s.requests[u], u)) && StandsNext(c, s0, s, u)
    requires var t := Apply(c, s, Next(s.requests[u], u));
             Advanced(c, s, t, u) && t.requests[u].phase.Done? && !s.requests[u].phase.Done?
    ensures var a := Next(s.requests[u], u); Finishes(c, s0, s, [a], Apply(c, s, a), u)
  {
    NextIsOwn(s, u);
    assert [Next(s.requests[u], u)][1..] == [];
  }

  lemma FinishFirst(c: Config, s0: State, s: State, rest: seq<Step>, t: State, u: nat)
    requires u in s.requests && Enabled(c, s, Next(s.requests[u], u))
    requires var s1 := Apply(c, s, Next(s.requests[u], u));
             Advanced(c, s, s1, u) && !s1.requests[u].phase.Done? && Finishes(c, s0, s1, rest, t, u)
    ensures Finishes(c, s0, s, [Next(s.requests[u], u)] + rest, t, u)
  {
    NextIsOwn(s, u);
    PrependOwn(c, s, Next(s.requests[u], u), rest, t, u);
    AnsweredLater(c, s, Apply(c, s, Next(s.requests[u], u)), t, u);
  }

  lemma AnsweredLater(c: Config, s: State, s1: State, t: State, u: nat)
    requires u in s.requests && Advanced(c, s, s1, u) && u in t.requests && Answered(c, s1, t, u)
    ensures Answered(c, s, t, u)
  {
  }

  lemma PrependOwn(c: Config, s: State, a: Step, rest: seq<Step>, t: State, u: nat)
    requires Enabled(c, s, a) && Runs(c, Apply(c, s, a), rest, t) && AllOwn([a], u) && AllOwn(rest, u)
    ensures Runs(c, s, [a] + rest, t) && AllOwn([a] + rest, u)
  {
    assert ([a] + rest)[1..] == rest;
    assert [a][0] == a;
  }

  /** A client may ask for a variant of an image, by the name of a preset registered on its policy. */
  lemma ArriveIff(c: Config, s: State, a: Step)
    requires a.Arrive? && a.u !in s.requests && a.file.id in s.paths && s.paths[a.file.id] == a.file.path
    ensures Enabled(c, s, a) <==> a.file.image && PresetName(a.file.tenant, a.file.policy, a.variant) in s.presets
  {
  }

  lemma StartsReady(c: Config, s: State, a: Step, p: Preset)
    requires Inv(c, s) && a.Arrive? && Enabled(c, s, a)
    requires p == s.presets[PresetName(a.file.tenant, a.file.policy, a.variant)]
    requires var n, k := Name(a.file.id, a.variant), VariantKey(a.file.path, CacheSignature(p));
             var d := if a.file.path in s.ever then c.render(s.ever[a.file.path], p) else None;
             || (n in s.rows && s.rows[n].key == k &&
                 (k in s.blobs || a.inm.Any? || (d.Some? && a.inm.Tags? && Sha256(d.value.bytes) in a.inm.tags)))
             || (a.file.path in s.originals && |s.originals[a.file.path]| <= c.cap &&
                 c.render(s.originals[a.file.path], p).Some?)
    ensures var s1 := Apply(c, s, a); Ready(c, s1, s1.requests[a.u])
  {
    var r := Apply(c, s, a).requests[a.u];
    if Hit(s, r) {
      HitDescribes(c, s.ever, s.paths, RowName(r), s.rows[RowName(r)], r.file.path, r.preset);
    }
  }

  /** What an answer is and leaves, written out. */
  lemma AnswerIs(c: Config, s: State, t: State, u: nat)
    requires u in s.requests && u in t.requests && Answered(c, s, t, u) && Left(c, s, t, s.requests[u])
    requires t.ever == s.ever && Direct(c, s.ever, s.requests[u].file.path, s.requests[u].preset).Some?
    ensures var r := s.requests[u];
            var n, k := Name(r.file.id, r.variant), VariantKey(r.file.path, CacheSignature(r.preset));
            var d := c.render(s.ever[r.file.path], r.preset).value;
            var meta, named := Meta(d.contentType, |d.bytes|, Sha256(d.bytes)),
                               r.inm.Any? || (r.inm.Tags? && Sha256(d.bytes) in r.inm.tags);
            && t.requests[u].phase == Done(if named then NotModified(Sha256(d.bytes)) else Served(meta, d.bytes))
            && if n in s.rows && s.rows[n].key == k && (k in s.blobs || named)
               then t.rows == s.rows && t.blobs == s.blobs
               else
                 && t.rows == s.rows[n := Cached(k, meta)]
                 && t.blobs == s.blobs[k := d.bytes] -
                    (if n in s.rows && s.rows[n].key != k &&
                        (forall m | m in s.rows && m != n :: s.rows[m].key != s.rows[n].key)
                     then {s.rows[n].key} else {})
  {
  }

  /** The request can start, be answered, and leaves what `Left` says. */
  lemma AnswerRun(c: Config, s: State, a: Step) returns (steps: seq<Step>, t: State)
    requires Inv(c, s) && a.Arrive? && Enabled(c, s, a)
    requires var s1 := Apply(c, s, a); Ready(c, s1, s1.requests[a.u])
    ensures var s1 := Apply(c, s, a);
            && Runs(c, s1, steps, t) && AllOwn(steps, a.u) && |steps| <= 16
            && a.u in t.requests && Answered(c, s1, t, a.u) && Left(c, s1, t, s1.requests[a.u]) && t.ever == s1.ever
            && Direct(c, s.ever, a.file.path, s1.requests[a.u].preset).Some?
  {
    var s1 := Apply(c, s, a);
    var r := s1.requests[a.u];
    InvStep(c, s, a);
    assert RequestOk(c, s1, r);
    if Hit(s1, r) {
      HitDescribes(c, s1.ever, s1.paths, RowName(r), s1.rows[RowName(r)], r.file.path, r.preset);
    }
    steps, t := Finish(c, s1, s1, a.u);
  }

  /**
   * In any state a run can reach, a request that arrives can be answered by at most 16 steps of its own
   * when its row is current and its blob is there or its checksum named, or its original can be
   * rendered: with "not modified" if the client named the rendering's checksum, or else the rendering.
   * It leaves the cache alone if that sufficed, and otherwise the rendering stored, the row pointing to
   * it, and the blob the row pointed to gone if no other row does.
   */
  lemma UninterruptedRequest(c: Config, s0: State, before: seq<Step>, s: State, a: Step)
    returns (steps: seq<Step>, t: State)
    requires Init(s0) && Runs(c, s0, before, s) && a.Arrive? && Enabled(c, s, a)
    requires var p := s.presets[PresetName(a.file.tenant, a.file.policy, a.variant)];
             var n, k := Name(a.file.id, a.variant), VariantKey(a.file.path, CacheSignature(p));
             var d := if a.file.path in s.ever then c.render(s.ever[a.file.path], p) else None;
             || (n in s.rows && s.rows[n].key == k &&
                 (k in s.blobs || a.inm.Any? || (d.Some? && a.inm.Tags? && Sha256(d.value.bytes) in a.inm.tags)))
             || (a.file.path in s.originals && |s.originals[a.file.path]| <= c.cap &&
                 c.render(s.originals[a.file.path], p).Some?)
    ensures Runs(c, Apply(c, s, a), steps, t) && |steps| <= 16 && a.u in t.requests
    ensures forall x | x in steps ::
              x in {Look(a.u), Render(a.u), ReadPrior(a.u), Write(a.u), Upsert(a.u), Count(a.u), Reclaim(a.u, true),
                    Open(a.u)}
    ensures var p := s.presets[PresetName(a.file.tenant, a.file.policy, a.variant)];
            var n, k := Name(a.file.id, a.variant), VariantKey(a.file.path, CacheSignature(p));
            a.file.path in s.ever && c.render(s.ever[a.file.path], p).Some? &&
            var d := c.render(s.ever[a.file.path], p).value;
            var meta, named := Meta(d.contentType, |d.bytes|, Sha256(d.bytes)),
                               a.inm.Any? || (a.inm.Tags? && Sha256(d.bytes) in a.inm.tags);
            && t.requests[a.u].phase == Done(if named then NotModified(Sha256(d.bytes)) else Served(meta, d.bytes))
            && if n in s.rows && s.rows[n].key == k && (k in s.blobs || named)
               then t.rows == s.rows && t.blobs == s.blobs
               else
                 && t.rows == s.rows[n := Cached(k, meta)]
                 && t.blobs == s.blobs[k := d.bytes] -
                    (if n in s.rows && s.rows[n].key != k &&
                        (forall m | m in s.rows && m != n :: s.rows[m].key != s.rows[n].key)
                     then {s.rows[n].key} else {})
  {
    RunKeepsInv(c, s0, before, s);
    StartsReady(c, s, a, s.presets[PresetName(a.file.tenant, a.file.policy, a.variant)]);
    steps, t := AnswerRun(c, s, a);
    AnswerIs(c, Apply(c, s, a), t, a.u);
  }
}
