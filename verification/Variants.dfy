/**
 * The cache of rendered images: every step of every request, interleaved with other requests, with
 * redefined presets and with a collector that may take any blob or row at any moment.
 */
module Variants {
  import opened Basics
  import opened Keys
  import opened Transform

  /** A decoded, resized and encoded image; rendering is a function of the bytes and the preset. */
  datatype Image = Image(bytes: Bytes, contentType: string)

  datatype Config = Config(render: (Bytes, Preset) -> Option<Image>, cap: nat)

  datatype Meta = Meta(contentType: string, size: nat, checksum: Digest)

  /** A row of `file_variants`. */
  datatype Cached = Cached(key: Key, meta: Meta)

  datatype Name = Name(file: IdHex, variant: string)

  /** A preset is registered on a tenant's policy under a name. */
  datatype PresetName = PresetName(tenant: Uuid, policy: string, variant: string)

  datatype FileRef = FileRef(id: IdHex, tenant: Uuid, policy: string, path: string, image: bool)

  datatype IfNoneMatch = Absent | Any | Tags(tags: set<Digest>)

  datatype Answer = Served(meta: Meta, bytes: Bytes) | NotModified(etag: Digest) | Refused

  /** Where a request stands; `heal` holds what an earlier look-up promised when its blob was gone. */
  datatype Phase =
    | Looking
    | Rendering(heal: Option<Meta>)
    | Rendered(heal: Option<Meta>, image: Image)
    | Writing(heal: Option<Meta>, image: Image, prior: Option<Key>)
    | Upserting(heal: Option<Meta>, image: Image, prior: Option<Key>)
    | Counting(heal: Option<Meta>, image: Image, superseded: Key)
    | Reclaiming(heal: Option<Meta>, image: Image, superseded: Key)
    | Opening(meta: Meta)
    | Reopening(meta: Meta)
    | Done(answer: Answer)

  datatype Request = Request(file: FileRef, variant: string, preset: Preset, inm: IfNoneMatch, phase: Phase)

  /**
   * `originals` are the uploaded blobs still present and `ever` all there ever were; `paths` tells
   * under which key each file's bytes were stored.
   */
  datatype State = State(originals: map<string, Bytes>, ever: map<string, Bytes>, paths: map<IdHex, string>,
                         blobs: map<Key, Bytes>, rows: map<Name, Cached>, presets: map<PresetName, Preset>,
                         requests: map<nat, Request>)

  function KeyOf(path: string, p: Preset): Key {
    VariantKey(path, CacheSignature(p))
  }

  function MetaOf(i: Image): Meta {
    Meta(i.contentType, |i.bytes|, Sha256(i.bytes))
  }

  /** What rendering the original right away gives. */
  function Direct(c: Config, ever: map<string, Bytes>, path: string, p: Preset): Option<Image> {
    if path in ever && |ever[path]| <= c.cap then c.render(ever[path], p) else None
  }

  predicate Matches(inm: IfNoneMatch, etag: Digest) {
    inm.Any? || (inm.Tags? && etag in inm.tags)
  }

  /** Once rendered and cached, back to where the request needs the blob. */
  function Resume(heal: Option<Meta>, image: Image): Phase {
    if heal.Some? then Reopening(heal.value) else Opening(MetaOf(image))
  }

  predicate Referenced(rows: map<Name, Cached>, k: Key) {
    exists n | n in rows :: rows[n].key == k
  }

  // ---------------------------------------------------------------- steps

  datatype Step =
    | Arrive(u: nat, file: FileRef, variant: string, inm: IfNoneMatch)
    | Look(u: nat)
    | Render(u: nat)
    | ReadPrior(u: nat)
    | Write(u: nat)
    | Upsert(u: nat)
    | Count(u: nat)
    | Reclaim(u: nat, ok: bool)
    | Open(u: nat)
    | Fail(u: nat)
    | PutOriginal(id: IdHex, path: string, bytes: Bytes)
    | LinkOriginal(id: IdHex, path: string)
    | LoseOriginal(path: string)
    | LoseBlob(key: Key)
    | LoseRow(name: Name)
    | SetPreset(spec: PresetName, preset: Option<Preset>)

  function PresetFor(f: FileRef, variant: string): PresetName {
    PresetName(f.tenant, f.policy, variant)
  }

  function RowName(r: Request): Name {
    Name(r.file.id, r.variant)
  }

  function KeyFor(r: Request): Key {
    KeyOf(r.file.path, r.preset)
  }

  ghost predicate RequestEnabled(c: Config, s: State, r: Request, a: Step) {
    match a
    case Look(_) => r.phase.Looking?
    case Render(_) =>
      r.phase.Rendering? && r.file.path in s.originals && Direct(c, s.originals, r.file.path, r.preset).Some?
    case ReadPrior(_) => r.phase.Rendered?
    case Write(_) => r.phase.Writing?
    case Upsert(_) => r.phase.Upserting? && r.file.id in s.paths
    case Count(_) => r.phase.Counting?
    case Reclaim(_, _) => r.phase.Reclaiming?
    case Open(_) => r.phase.Opening? || r.phase.Reopening?
    case Fail(_) => !r.phase.Done?
    case _ => false
  }

  ghost predicate Enabled(c: Config, s: State, a: Step) {
    match a
    case Arrive(u, f, variant, _) =>
      u !in s.requests && f.id in s.paths && s.paths[f.id] == f.path && f.image && PresetFor(f, variant) in s.presets
    case PutOriginal(id, path, _) => id !in s.paths && path !in s.ever
    case LinkOriginal(id, path) => id !in s.paths && path in s.ever
    case LoseOriginal(_) => true
    case LoseBlob(_) => true
    case LoseRow(_) => true
    case SetPreset(_, _) => true
    case _ => a.u in s.requests && RequestEnabled(c, s, s.requests[a.u], a)
  }

  function Goto(s: State, u: nat, p: Phase): State
    requires u in s.requests
  {
    s.(requests := s.requests[u := s.requests[u].(phase := p)])
  }

  function LookPhase(s: State, r: Request): Phase {
    if RowName(r) in s.rows && s.rows[RowName(r)].key == KeyFor(r) then Opening(s.rows[RowName(r)].meta)
    else Rendering(None)
  }

  function PriorKey(s: State, r: Request): Option<Key> {
    if RowName(r) in s.rows then Some(s.rows[RowName(r)].key) else None
  }

  function OpenPhase(s: State, r: Request): Phase
    requires r.phase.Opening? || r.phase.Reopening?
  {
    if r.phase.Opening? && Matches(r.inm, r.phase.meta.checksum) then Done(NotModified(r.phase.meta.checksum))
    else if KeyFor(r) in s.blobs then Done(Served(r.phase.meta, s.blobs[KeyFor(r)]))
    else if r.phase.Opening? then Rendering(Some(r.phase.meta))
    else Done(Refused)
  }

  ghost function RequestApply(c: Config, s: State, a: Step): State
    requires Enabled(c, s, a)
    requires !a.Arrive? && !a.PutOriginal? && !a.LinkOriginal? && !a.LoseOriginal? && !a.LoseBlob? && !a.LoseRow? &&
               !a.SetPreset?
  {
    var u := a.u;
    var r := s.requests[u];
    var p := r.phase;
    match a
    case Look(_) => Goto(s, u, LookPhase(s, r))
    case Render(_) => Goto(s, u, Rendered(p.heal, Direct(c, s.originals, r.file.path, r.preset).value))
    case ReadPrior(_) => Goto(s, u, Writing(p.heal, p.image, PriorKey(s, r)))
    case Write(_) => Goto(s, u, Upserting(p.heal, p.image, p.prior)).(blobs := s.blobs[KeyFor(r) := p.image.bytes])
    case Upsert(_) =>
      Goto(s, u, if p.prior.Some? && p.prior.value != KeyFor(r) then Counting(p.heal, p.image, p.prior.value)
                 else Resume(p.heal, p.image)).(rows := s.rows[RowName(r) := Cached(KeyFor(r), MetaOf(p.image))])
    case Count(_) =>
      Goto(s, u, if Referenced(s.rows, p.superseded) then Resume(p.heal, p.image)
          else Reclaiming(p.heal, p.image, p.superseded))
    case Reclaim(_, ok) =>
      Goto(s, u, Resume(p.heal, p.image)).(blobs := if ok then s.blobs - {p.superseded} else s.blobs)
    case Open(_) => Goto(s, u, OpenPhase(s, r))
    case _ => Goto(s, u, Done(Refused))
  }

  ghost function Apply(c: Config, s: State, a: Step): State
    requires Enabled(c, s, a)
  {
    match a
    case Arrive(u, f, variant, inm) =>
      s.(requests := s.requests[u := Request(f, variant, s.presets[PresetFor(f, variant)], inm, Looking)])
    case PutOriginal(id, path, bytes) =>
      s.(originals := s.originals[path := bytes], ever := s.ever[path := bytes], paths := s.paths[id := path])
    case LinkOriginal(id, path) => s.(paths := s.paths[id := path])
    case LoseOriginal(path) => s.(originals := s.originals - {path})
    case LoseBlob(k) => s.(blobs := s.blobs - {k})
    case LoseRow(n) => s.(rows := s.rows - {n})
    case SetPreset(n, p) => s.(presets := if p.Some? then s.presets[n := p.value] else s.presets - {n})
    case _ => RequestApply(c, s, a)
  }

  // ---------------------------------------------------------------- what every step keeps

  /** Whatever is stored under a variant key is the direct rendering that the key stands for. */
  ghost predicate BlobsOk(c: Config, ever: map<string, Bytes>, blobs: map<Key, Bytes>) {
    forall path, p | KeyOf(path, p) in blobs ::
      Direct(c, ever, path, p).Some? && Direct(c, ever, path, p).value.bytes == blobs[KeyOf(path, p)]
  }

  ghost predicate Describes(c: Config, ever: map<string, Bytes>, path: string, p: Preset, m: Meta) {
    Direct(c, ever, path, p).Some? && MetaOf(Direct(c, ever, path, p).value) == m
  }

  ghost predicate RowOk(c: Config, ever: map<string, Bytes>, paths: map<IdHex, string>, n: Name, row: Cached) {
    n.file in paths && exists p :: row.key == KeyOf(paths[n.file], p) && Describes(c, ever, paths[n.file], p, row.meta)
  }

  ghost predicate RowsOk(c: Config, ever: map<string, Bytes>, paths: map<IdHex, string>, rows: map<Name, Cached>) {
    forall n | n in rows :: RowOk(c, ever, paths, n, rows[n])
  }

  ghost predicate HealOk(c: Config, ever: map<string, Bytes>, r: Request, heal: Option<Meta>) {
    heal.Some? ==> Describes(c, ever, r.file.path, r.preset, heal.value)
  }

  ghost predicate AnswerOk(c: Config, ever: map<string, Bytes>, r: Request, x: Answer) {
    match x
    case Served(m, bytes) =>
      var d := Direct(c, ever, r.file.path, r.preset);
      d.Some? && d.value.bytes == bytes && m == MetaOf(d.value)
    case NotModified(etag) =>
      var d := Direct(c, ever, r.file.path, r.preset);
      d.Some? && etag == Sha256(d.value.bytes) && Matches(r.inm, etag)
    case Refused => true
  }

  ghost predicate PhaseOk(c: Config, ever: map<string, Bytes>, r: Request) {
    var p := r.phase;
    && (p.Rendering? ==> HealOk(c, ever, r, p.heal))
    && (p.Rendered? || p.Writing? || p.Upserting? || p.Counting? || p.Reclaiming? ==>
          HealOk(c, ever, r, p.heal) && Direct(c, ever, r.file.path, r.preset) == Some(p.image))
    && (p.Opening? || p.Reopening? ==> Describes(c, ever, r.file.path, r.preset, p.meta))
    && (p.Done? ==> AnswerOk(c, ever, r, p.answer))
  }

  ghost predicate RequestOk(c: Config, s: State, r: Request) {
    && r.file.id in s.paths && s.paths[r.file.id] == r.file.path
    && PhaseOk(c, s.ever, r)
  }

  ghost predicate Inv(c: Config, s: State) {
    && (forall path | path in s.originals :: path in s.ever && s.originals[path] == s.ever[path])
    && BlobsOk(c, s.ever, s.blobs)
    && RowsOk(c, s.ever, s.paths, s.rows)
    && (forall u | u in s.requests :: RequestOk(c, s, s.requests[u]))
  }

  /** One key, one original and one preset. */
  lemma KeyOfInjective(path: string, p: Preset, path': string, p': Preset)
    requires KeyOf(path, p) == KeyOf(path', p')
    ensures path == path' && p == p'
  {
    SignatureHasNoSeparator(p);
    SignatureHasNoSeparator(p');
    VariantKeyInjective(path, CacheSignature(p), path', CacheSignature(p'));
    CacheSignatureInjective(p, p');
  }

  lemma WriteKeepsBlobs(c: Config, ever: map<string, Bytes>, blobs: map<Key, Bytes>, path: string, p: Preset,
                        image: Image)
    requires BlobsOk(c, ever, blobs) && Direct(c, ever, path, p) == Some(image)
    ensures BlobsOk(c, ever, blobs[KeyOf(path, p) := image.bytes])
  {
    forall path', p' | KeyOf(path', p') == KeyOf(path, p)
      ensures path' == path && p' == p
    {
      KeyOfInjective(path, p, path', p');
    }
  }

  /** A row whose key is the one asked for describes the rendering asked for. */
  lemma HitDescribes(c: Config, ever: map<string, Bytes>, paths: map<IdHex, string>, n: Name, row: Cached,
                     path: string, p: Preset)
    requires RowOk(c, ever, paths, n, row) && row.key == KeyOf(path, p)
    ensures Describes(c, ever, path, p, row.meta)
  {
    var q :| row.key == KeyOf(paths[n.file], q) && Describes(c, ever, paths[n.file], q, row.meta);
    KeyOfInjective(path, p, paths[n.file], q);
  }

  lemma GotoKeeps(c: Config, s: State, u: nat, p: Phase)
    requires Inv(c, s) && u in s.requests && PhaseOk(c, s.ever, s.requests[u].(phase := p))
    ensures Inv(c, Goto(s, u, p))
  {
  }

  lemma LookKeeps(c: Config, s: State, a: Step)
    requires Inv(c, s) && Enabled(c, s, a) && a.Look?
    ensures Inv(c, Apply(c, s, a))
  {
    var r := s.requests[a.u];
    assert RequestOk(c, s, r);
    if RowName(r) in s.rows && s.rows[RowName(r)].key == KeyFor(r) {
      HitDescribes(c, s.ever, s.paths, RowName(r), s.rows[RowName(r)], r.file.path, r.preset);
    }
    GotoKeeps(c, s, a.u, LookPhase(s, r));
  }

  lemma RenderKeeps(c: Config, s: State, a: Step)
    requires Inv(c, s) && Enabled(c, s, a) && (a.Render? || a.ReadPrior?)
    ensures Inv(c, Apply(c, s, a))
  {
  }

  lemma WriteKeeps(c: Config, s: State, a: Step)
    requires Inv(c, s) && Enabled(c, s, a) && a.Write?
    ensures Inv(c, Apply(c, s, a))
  {
    var r := s.requests[a.u];
    assert RequestOk(c, s, r);
    WriteKeepsBlobs(c, s.ever, s.blobs, r.file.path, r.preset, r.phase.image);
    StoreKeeps(c, s, s.blobs[KeyFor(r) := r.phase.image.bytes], s.rows);
    GotoKeeps(c, s.(blobs := s.blobs[KeyFor(r) := r.phase.image.bytes]), a.u,
              Upserting(r.phase.heal, r.phase.image, r.phase.prior));
  }

  lemma StoreKeeps(c: Config, s: State, blobs: map<Key, Bytes>, rows: map<Name, Cached>)
    requires Inv(c, s) && BlobsOk(c, s.ever, blobs) && RowsOk(c, s.ever, s.paths, rows)
    ensures Inv(c, s.(blobs := blobs, rows := rows))
  {
  }

  lemma TrueRow(c: Config, s: State, r: Request)
    requires RowsOk(c, s.ever, s.paths, s.rows) && r.file.id in s.paths && s.paths[r.file.id] == r.file.path
    requires r.phase.Upserting? && Direct(c, s.ever, r.file.path, r.preset) == Some(r.phase.image)
    ensures RowsOk(c, s.ever, s.paths, s.rows[RowName(r) := Cached(KeyFor(r), MetaOf(r.phase.image))])
  {
    assert RowOk(c, s.ever, s.paths, RowName(r), Cached(KeyFor(r), MetaOf(r.phase.image)));
  }

  lemma UpsertKeeps(c: Config, s: State, a: Step)
    requires Inv(c, s) && Enabled(c, s, a) && a.Upsert?
    ensures Inv(c, Apply(c, s, a))
  {
    var r := s.requests[a.u];
    assert RequestOk(c, s, r);
    var rows := s.rows[RowName(r) := Cached(KeyFor(r), MetaOf(r.phase.image))];
    TrueRow(c, s, r);
    StoreKeeps(c, s, s.blobs, rows);
    var p := if r.phase.prior.Some? && r.phase.prior.value != KeyFor(r)
             then Counting(r.phase.heal, r.phase.image, r.phase.prior.value) else Resume(r.phase.heal, r.phase.image);
    GotoKeeps(c, s.(blobs := s.blobs, rows := rows), a.u, p);
  }

  lemma CountKeeps(c: Config, s: State, a: Step)
    requires Inv(c, s) && Enabled(c, s, a) && a.Count?
    ensures Inv(c, Apply(c, s, a))
  {
    var r := s.requests[a.u];
    assert RequestOk(c, s, r);
    GotoKeeps(c, s, a.u, if Referenced(s.rows, r.phase.superseded) then Resume(r.phase.heal, r.phase.image)
                         else Reclaiming(r.phase.heal, r.phase.image, r.phase.superseded));
  }

  lemma ReclaimKeeps(c: Config, s: State, a: Step)
    requires Inv(c, s) && Enabled(c, s, a) && a.Reclaim?
    ensures Inv(c, Apply(c, s, a))
  {
    var r := s.requests[a.u];
    assert RequestOk(c, s, r);
    var blobs := if a.ok then s.blobs - {r.phase.superseded} else s.blobs;
    StoreKeeps(c, s, blobs, s.rows);
    GotoKeeps(c, s.(blobs := blobs, rows := s.rows), a.u, Resume(r.phase.heal, r.phase.image));
  }

  lemma OpenKeeps(c: Config, s: State, a: Step)
    requires Inv(c, s) && Enabled(c, s, a) && (a.Open? || a.Fail?)
    ensures Inv(c, Apply(c, s, a))
  {
    var r := s.requests[a.u];
    assert RequestOk(c, s, r);
    GotoKeeps(c, s, a.u, if a.Open? then OpenPhase(s, r) else Done(Refused));
  }

  lemma ArriveKeeps(c: Config, s: State, a: Step)
    requires Inv(c, s) && Enabled(c, s, a) && a.Arrive?
    ensures Inv(c, Apply(c, s, a))
  {
  }

  /** More originals change no rendering that there was. */
  lemma DirectGrows(c: Config, ever: map<string, Bytes>, path: string, bytes: Bytes)
    requires path !in ever
    ensures forall q, p | Direct(c, ever, q, p).Some? :: Direct(c, ever[path := bytes], q, p) == Direct(c, ever, q, p)
  {
  }

  lemma OriginalKeepsRow(c: Config, s: State, t: State, n: Name)
    requires RowsOk(c, s.ever, s.paths, s.rows) && n in s.rows && t.rows == s.rows
    requires forall id | id in s.paths :: id in t.paths && t.paths[id] == s.paths[id]
    requires forall q, p | Direct(c, s.ever, q, p).Some? :: Direct(c, t.ever, q, p) == Direct(c, s.ever, q, p)
    ensures RowOk(c, t.ever, t.paths, n, t.rows[n])
  {
  }

  lemma OriginalKeeps(c: Config, s: State, a: Step)
    requires Inv(c, s) && Enabled(c, s, a) && (a.PutOriginal? || a.LinkOriginal? || a.LoseOriginal?)
    ensures Inv(c, Apply(c, s, a))
  {
    if a.PutOriginal? {
      DirectGrows(c, s.ever, a.path, a.bytes);
    }
    InvGrows(c, s, Apply(c, s, a));
  }

  /** More originals and more files, while the cache and the requests stay as they are. */
  lemma InvGrows(c: Config, s: State, t: State)
    requires Inv(c, s) && t.blobs == s.blobs && t.rows == s.rows && t.requests == s.requests
    requires forall path | path in t.originals :: path in t.ever && t.originals[path] == t.ever[path]
    requires forall id | id in s.paths :: id in t.paths && t.paths[id] == s.paths[id]
    requires forall q, p | Direct(c, s.ever, q, p).Some? :: Direct(c, t.ever, q, p) == Direct(c, s.ever, q, p)
    ensures Inv(c, t)
  {
    forall u | u in t.requests
      ensures RequestOk(c, t, t.requests[u])
    {
      assert RequestOk(c, s, s.requests[u]);
      PhaseGrows(c, s.ever, t.ever, s.requests[u]);
    }
    forall n | n in t.rows
      ensures RowOk(c, t.ever, t.paths, n, t.rows[n])
    {
      OriginalKeepsRow(c, s, t, n);
    }
    assert BlobsOk(c, t.ever, t.blobs);
  }

  lemma PhaseGrows(c: Config, ever: map<string, Bytes>, ever': map<string, Bytes>, r: Request)
    requires PhaseOk(c, ever, r)
    requires forall q, p | Direct(c, ever, q, p).Some? :: Direct(c, ever', q, p) == Direct(c, ever, q, p)
    ensures PhaseOk(c, ever', r)
  {
  }

  lemma LossKeeps(c: Config, s: State, a: Step)
    requires Inv(c, s) && Enabled(c, s, a) && (a.LoseBlob? || a.LoseRow? || a.SetPreset?)
    ensures Inv(c, Apply(c, s, a))
  {
  }

  lemma InvStep(c: Config, s: State, a: Step)
    requires Inv(c, s) && Enabled(c, s, a)
    ensures Inv(c, Apply(c, s, a))
  {
    match a
    case Arrive(_, _, _, _) => ArriveKeeps(c, s, a);
    case Look(_) => LookKeeps(c, s, a);
    case Render(_) => RenderKeeps(c, s, a);
    case ReadPrior(_) => RenderKeeps(c, s, a);
    case Write(_) => WriteKeeps(c, s, a);
    case Upsert(_) => UpsertKeeps(c, s, a);
    case Count(_) => CountKeeps(c, s, a);
    case Reclaim(_, _) => ReclaimKeeps(c, s, a);
    case Open(_) => OpenKeeps(c, s, a);
    case Fail(_) => OpenKeeps(c, s, a);
    case PutOriginal(_, _, _) => OriginalKeeps(c, s, a);
    case LinkOriginal(_, _) => OriginalKeeps(c, s, a);
    case LoseOriginal(_) => OriginalKeeps(c, s, a);
    case LoseBlob(_) => LossKeeps(c, s, a);
    case LoseRow(_) => LossKeeps(c, s, a);
    case SetPreset(_, _) => LossKeeps(c, s, a);
  }

  // ---------------------------------------------------------------- over whole runs

  ghost predicate Init(s: State) {
    s.originals == map[] && s.blobs == map[] && s.rows == map[] && s.requests == map[]
  }

  ghost predicate Runs(c: Config, s: State, steps: seq<Step>, t: State)
    decreases |steps|
  {
    if steps == [] then s == t
    else Enabled(c, s, steps[0]) && Runs(c, Apply(c, s, steps[0]), steps[1..], t)
  }

  lemma {:induction false} RunKeepsInv(c: Config, s: State, steps: seq<Step>, t: State)
    requires Inv(c, s) && Runs(c, s, steps, t)
    ensures Inv(c, t)
    decreases |steps|
  {
    if steps == [] {
    } else {
      InvStep(c, s, steps[0]);
      RunKeepsInv(c, Apply(c, s, steps[0]), steps[1..], t);
    }
  }

  /** A request keeps the preset it read, and an original its bytes. */
  ghost predicate Remembers(s: State, t: State, u: nat) {
    && u in s.requests && u in t.requests && t.requests[u] == s.requests[u].(phase := t.requests[u].phase)
    && (forall path | path in s.ever :: path in t.ever && t.ever[path] == s.ever[path])
  }

  lemma StepRemembers(c: Config, s: State, a: Step, u: nat)
    requires Enabled(c, s, a) && u in s.requests
    ensures Remembers(s, Apply(c, s, a), u)
  {
  }

  lemma {:induction false} RunRemembers(c: Config, s: State, steps: seq<Step>, t: State, u: nat)
    requires Runs(c, s, steps, t) && u in s.requests
    ensures Remembers(s, t, u)
    decreases |steps|
  {
    if steps == [] {
    } else {
      StepRemembers(c, s, steps[0], u);
      RunRemembers(c, Apply(c, s, steps[0]), steps[1..], t, u);
    }
  }

  /**
   * The cache refines rendering on demand: whatever a request that read preset `p` streams, many
   * steps later and in whatever company, is the rendering of its file's original bytes under `p`,
   * with that rendering's content type, length and checksum; and it answers "not modified" only
   * to a client that named the checksum of exactly those bytes.
   */
  lemma ServedIsDirect(c: Config, s0: State, before: seq<Step>, s: State, a: Step, after: seq<Step>, t: State)
    requires Init(s0) && Runs(c, s0, before, s)
    requires a.Arrive? && Enabled(c, s, a) && Runs(c, Apply(c, s, a), after, t)
    requires a.u in t.requests && t.requests[a.u].phase.Done?
    ensures var path, p := a.file.path, s.presets[PresetName(a.file.tenant, a.file.policy, a.variant)];
            var d := if path in t.ever && |t.ever[path]| <= c.cap then c.render(t.ever[path], p) else None;
            match t.requests[a.u].phase.answer
            case Served(m, bytes) =>
              d.Some? && bytes == d.value.bytes && m == Meta(d.value.contentType, |bytes|, Sha256(bytes))
            case NotModified(etag) =>
              d.Some? && etag == Sha256(d.value.bytes) && (a.inm.Any? || (a.inm.Tags? && etag in a.inm.tags))
            case Refused => true
  {
    RunKeepsInv(c, s0, before, s);
    AnswerIsDirect(c, s, a, after, t);
  }

  lemma AnswerIsDirect(c: Config, s: State, a: Step, after: seq<Step>, t: State)
    requires Inv(c, s) && a.Arrive? && Enabled(c, s, a) && Runs(c, Apply(c, s, a), after, t)
    requires a.u in t.requests && t.requests[a.u].phase.Done?
    ensures var path, p := a.file.path, s.presets[PresetName(a.file.tenant, a.file.policy, a.variant)];
            var d := if path in t.ever && |t.ever[path]| <= c.cap then c.render(t.ever[path], p) else None;
            match t.requests[a.u].phase.answer
            case Served(m, bytes) =>
              d.Some? && bytes == d.value.bytes && m == Meta(d.value.contentType, |bytes|, Sha256(bytes))
            case NotModified(etag) =>
              d.Some? && etag == Sha256(d.value.bytes) && (a.inm.Any? || (a.inm.Tags? && etag in a.inm.tags))
            case Refused => true
  {
    InvStep(c, s, a);
    RunKeepsInv(c, Apply(c, s, a), after, t);
    RunRemembers(c, Apply(c, s, a), after, t, a.u);
    assert RequestOk(c, t, t.requests[a.u]);
  }

  lemma EverKept(c: Config, s: State, a: Step, path: string)
    requires Enabled(c, s, a) && path in s.ever
    ensures path in Apply(c, s, a).ever && Apply(c, s, a).ever[path] == s.ever[path]
  {
  }

  lemma {:induction false} EverStays(c: Config, s: State, steps: seq<Step>, t: State, path: string)
    requires Runs(c, s, steps, t) && path in s.ever
    ensures path in t.ever && t.ever[path] == s.ever[path]
    decreases |steps|
  {
    if steps == [] {
    } else {
      EverKept(c, s, steps[0], path);
      EverStays(c, Apply(c, s, steps[0]), steps[1..], t, path);
    }
  }

  /** In a run in which `bytes` were uploaded under the path of the file, what is streamed is their rendering. */
  lemma ServedRendersUpload(c: Config, s0: State, upload: seq<Step>, s1: State, put: Step, between: seq<Step>,
                            s2: State, a: Step, after: seq<Step>, t: State)
    requires Init(s0) && Runs(c, s0, upload, s1)
    requires put.PutOriginal? && Enabled(c, s1, put) && Runs(c, Apply(c, s1, put), between, s2)
    requires a.Arrive? && Enabled(c, s2, a) && Runs(c, Apply(c, s2, a), after, t) && a.file.path == put.path
    requires a.u in t.requests && t.requests[a.u].phase.Done? && t.requests[a.u].phase.answer.Served?
    ensures var p := s2.presets[PresetName(a.file.tenant, a.file.policy, a.variant)];
            var image, answer := c.render(put.bytes, p), t.requests[a.u].phase.answer;
            && |put.bytes| <= c.cap && image.Some? && answer.bytes == image.value.bytes
            && answer.meta == Meta(image.value.contentType, |answer.bytes|, Sha256(answer.bytes))
  {
    RunKeepsInv(c, s0, upload, s1);
    InvStep(c, s1, put);
    RunKeepsInv(c, Apply(c, s1, put), between, s2);
    EverStays(c, Apply(c, s1, put), between, s2, put.path);
    EverStays(c, Apply(c, s2, a), after, t, put.path);
    AnswerIsDirect(c, s2, a, after, t);
  }

  /** Rows that share a variant blob belong to files that share an original, and to one preset. */
  lemma SharedVariantsShareOriginals(c: Config, s0: State, steps: seq<Step>, s: State, m: Name, n: Name)
    requires Init(s0) && Runs(c, s0, steps, s)
    requires m in s.rows && n in s.rows && s.rows[m].key == s.rows[n].key
    ensures m.file in s.paths && n.file in s.paths && s.paths[m.file] == s.paths[n.file]
    ensures s.rows[m].meta == s.rows[n].meta
  {
    RunKeepsInv(c, s0, steps, s);
    assert RowOk(c, s.ever, s.paths, m, s.rows[m]) && RowOk(c, s.ever, s.paths, n, s.rows[n]);
    var p :| s.rows[m].key == KeyOf(s.paths[m.file], p) && Describes(c, s.ever, s.paths[m.file], p, s.rows[m].meta);
    HitDescribes(c, s.ever, s.paths, n, s.rows[n], s.paths[m.file], p);
    var q :| s.rows[n].key == KeyOf(s.paths[n.file], q) && Describes(c, s.ever, s.paths[n.file], q, s.rows[n].meta);
    KeyOfInjective(s.paths[m.file], p, s.paths[n.file], q);
  }
}
