/** Registering a tenant's policy catalog: validation, the canonical hash, and versions. */
module Catalog {
  import opened Basics
  import opened Text
  import opened Ordering
  import opened Transform

  datatype Named = Named(name: string, preset: Preset)

  /** One policy as registered; `transforms` in the order its map happens to iterate. */
  datatype Policy = Policy(key: string, category: string, maxSize: int, types: seq<string>, visibility: Option<string>,
                           transforms: seq<Named>)

  datatype Error =
    | NoPolicies
    | BlankKey
    | BadCategory
    | BadSize
    | BadVisibility
    | BadName
    | BadPreset(why: PresetError)
    | DuplicateKey

  // ---------------------------------------------------------------- validation

  /** The Unicode property White_Space. */
  predicate IsSpace(c: char) {
    || '\U{9}' <= c <= '\U{D}' || c == ' ' || c == '\U{85}' || c == '\U{A0}' || c == '\U{1680}'
    || '\U{2000}' <= c <= '\U{200A}' || '\U{2028}' <= c <= '\U{2029}'
    || c == '\U{202F}' || c == '\U{205F}' || c == '\U{3000}'
  }

  predicate Blank(s: string) {
    forall c | c in s :: IsSpace(c)
  }

  predicate IsValidCategory(s: string) {
    0 < |s| <= 64 && forall c | c in s :: 'a' <= c <= 'z' || '0' <= c <= '9' || c == '-'
  }

  predicate IsValidVariantKey(s: string) {
    0 < |s| <= 64 && forall c | c in s :: 'a' <= c <= 'z' || 'A' <= c <= 'Z' || '0' <= c <= '9' || c == '-' || c == '_'
  }

  function NamedProblem(t: Named): Option<Error> {
    if !IsValidVariantKey(t.name) then Some(BadName)
    else if Validate(t.preset).Some? then Some(BadPreset(Validate(t.preset).value))
    else None
  }

  function TransformsProblem(ts: seq<Named>): Option<Error> {
    if ts == [] then None
    else if NamedProblem(ts[0]).Some? then NamedProblem(ts[0])
    else TransformsProblem(ts[1..])
  }

  function PolicyProblem(p: Policy, maxUpload: nat): Option<Error> {
    if Blank(p.key) then Some(BlankKey)
    else if !IsValidCategory(p.category) then Some(BadCategory)
    else if p.maxSize <= 0 || p.maxSize > maxUpload then Some(BadSize)
    else if p.visibility.Some? && p.visibility.value != "public" &&
        p.visibility.value != "private" then Some(BadVisibility)
    else TransformsProblem(p.transforms)
  }

  function PoliciesProblem(ps: seq<Policy>, maxUpload: nat): Option<Error> {
    if ps == [] then None
    else if PolicyProblem(ps[0], maxUpload).Some? then PolicyProblem(ps[0], maxUpload)
    else PoliciesProblem(ps[1..], maxUpload)
  }

  function KeyOf(p: Policy): string {
    p.key
  }

  function Sorted(ps: seq<Policy>): seq<Policy> {
    SortBy(KeyOf, ps)
  }

  /** Adjacent equal keys, in a sorted list. */
  predicate HasTwins(ps: seq<Policy>) {
    exists i | 0 <= i < |ps| - 1 :: ps[i].key == ps[i + 1].key
  }

  /** Why a request is refused. */
  function Problem(ps: seq<Policy>, maxUpload: nat): Option<Error> {
    if ps == [] then Some(NoPolicies)
    else if PoliciesProblem(ps, maxUpload).Some? then PoliciesProblem(ps, maxUpload)
    else if HasTwins(Sorted(ps)) then Some(DuplicateKey)
    else None
  }

  /** A policy that passed validation. */
  ghost predicate Admissible(p: Policy) {
    && IsValidCategory(p.category) && p.maxSize > 0
    && (p.visibility.Some? ==> p.visibility.value == "public" || p.visibility.value == "private")
    && (forall t | t in p.transforms :: IsValidVariantKey(t.name))
  }

  lemma {:induction false} TransformsProblemNone(ts: seq<Named>)
    ensures TransformsProblem(ts).None? <==> forall t | t in ts :: NamedProblem(t).None?
  {
    if ts == [] {
    } else {
      assert ts[0] in ts;
      TransformsProblemNone(ts[1..]);
      assert ts == [ts[0]] + ts[1..];
    }
  }

  lemma {:induction false} PoliciesProblemNone(ps: seq<Policy>, maxUpload: nat)
    ensures PoliciesProblem(ps, maxUpload).None? <==> forall p | p in ps :: PolicyProblem(p, maxUpload).None?
  {
    if ps == [] {
    } else {
      assert ps[0] in ps;
      PoliciesProblemNone(ps[1..], maxUpload);
      assert ps == [ps[0]] + ps[1..];
    }
  }

  /** Keys strictly increase. */
  ghost predicate Strict(ps: seq<Policy>) {
    SortedBy(KeyOf, ps) && forall i, j | 0 <= i < j < |ps| :: ps[i].key != ps[j].key
  }

  lemma SortedIsStrictIff(ps: seq<Policy>)
    ensures multiset(Sorted(ps)) == multiset(ps)
    ensures !HasTwins(Sorted(ps)) <==> Strict(Sorted(ps))
  {
    SortKeeps(KeyOf, ps);
    var s := Sorted(ps);
    if !HasTwins(s) {
      forall i, j | 0 <= i < j < |s|
        ensures s[i].key != s[j].key
      {
        if s[i].key == s[j].key {
          assert Leq(KeyOf(s[i]), KeyOf(s[i + 1]));
          if i + 1 < j {
            assert Leq(KeyOf(s[i + 1]), KeyOf(s[j]));
          }
          LeqAntisymmetric(s[i].key, s[i + 1].key);
        }
      }
    }
  }

  lemma ProblemNone(ps: seq<Policy>, maxUpload: nat)
    requires Problem(ps, maxUpload).None?
    ensures ps != [] && Strict(Sorted(ps)) && multiset(Sorted(ps)) == multiset(ps)
    ensures forall p | p in ps :: Admissible(p)
  {
    SortedIsStrictIff(ps);
    PoliciesProblemNone(ps, maxUpload);
    forall p | p in ps
      ensures Admissible(p)
    {
      assert PolicyProblem(p, maxUpload).None?;
      TransformsProblemNone(p.transforms);
    }
  }

  ghost predicate ProperTransform(t: Named) {
    && 0 < |t.name| <= 64
    && (forall c | c in t.name :: 'a' <= c <= 'z' || 'A' <= c <= 'Z' || '0' <= c <= '9' || c in "-_")
    && (t.preset.w.Some? || t.preset.h.Some?)
    && (t.preset.w.Some? ==> 1 <= t.preset.w.value <= 4096)
    && (t.preset.h.Some? ==> 1 <= t.preset.h.value <= 4096)
    && (t.preset.fit == Fill ==> t.preset.w.Some? && t.preset.h.Some?)
    && (t.preset.q.Some? ==> 1 <= t.preset.q.value <= 100)
  }

  ghost predicate Proper(p: Policy, maxUpload: nat) {
    && (exists c :: c in p.key && !IsSpace(c))
    && 0 < |p.category| <= 64
    && (forall c | c in p.category :: 'a' <= c <= 'z' || '0' <= c <= '9' || c == '-')
    && 1 <= p.maxSize <= maxUpload
    && (p.visibility.Some? ==> p.visibility.value in ["public", "private"])
    && forall t | t in p.transforms :: ProperTransform(t)
  }

  lemma ProperIff(p: Policy, maxUpload: nat)
    ensures PolicyProblem(p, maxUpload).None? <==> Proper(p, maxUpload)
  {
    TransformsProblemNone(p.transforms);
    forall t | t in p.transforms
      ensures NamedProblem(t).None? <==> ProperTransform(t)
    {
    }
  }

  ghost predicate KeysDiffer(ps: seq<Policy>) {
    forall i, j | 0 <= i < j < |ps| :: ps[i].key != ps[j].key
  }

  ghost predicate Distinct(ss: seq<string>) {
    forall i, j | 0 <= i < j < |ss| :: ss[i] != ss[j]
  }

  lemma {:induction false} DistinctIff(ss: seq<string>)
    ensures Distinct(ss) <==> forall k :: multiset(ss)[k] <= 1
  {
    if ss != [] {
      var head, tail := ss[0], ss[1..];
      DistinctIff(tail);
      assert ss == [head] + tail;
      assert multiset(ss) == multiset{head} + multiset(tail);
      DistinctHead(head, tail);
      if head in tail {
        assert multiset(ss)[head] > 1;
      } else if Distinct(tail) {
        forall k
          ensures multiset(ss)[k] <= 1
        {
          assert k == head ==> multiset(tail)[k] == 0;
        }
      } else {
        var k :| multiset(tail)[k] > 1;
        assert multiset(ss)[k] > 1;
      }
    }
  }

  lemma DistinctHead(head: string, tail: seq<string>)
    ensures Distinct([head] + tail) <==> head !in tail && Distinct(tail)
  {
    var ss := [head] + tail;
    assert forall i | 0 <= i < |tail| :: ss[i + 1] == tail[i];
    if Distinct(ss) {
      forall i, j | 0 <= i < j < |tail|
        ensures tail[i] != tail[j]
      {
        assert ss[i + 1] != ss[j + 1];
      }
      forall j | 0 <= j < |tail|
        ensures tail[j] != head
      {
        assert ss[0] != ss[j + 1];
      }
    } else {
      var i, j :| 0 <= i < j < |ss| && ss[i] == ss[j];
      assert ss[j] == tail[j - 1] && (i > 0 ==> ss[i] == tail[i - 1]);
    }
  }

  lemma DistinctKeys(ps: seq<Policy>)
    ensures Distinct(MapSeq(KeyOf, ps)) <==> KeysDiffer(ps)
  {
    var keys := MapSeq(KeyOf, ps);
    if Distinct(keys) {
      forall i, j | 0 <= i < j < |ps|
        ensures ps[i].key != ps[j].key
      {
        assert keys[i] != keys[j];
      }
    }
  }

  lemma DistinctWhateverTheOrder(ps: seq<Policy>)
    ensures Strict(Sorted(ps)) <==> KeysDiffer(ps)
  {
    SortKeeps(KeyOf, ps);
    MapKeepsContents(KeyOf, Sorted(ps), ps);
    DistinctIff(MapSeq(KeyOf, ps));
    DistinctIff(MapSeq(KeyOf, Sorted(ps)));
    DistinctKeys(ps);
    DistinctKeys(Sorted(ps));
  }

  /**
   * A catalog is accepted if and only if it has a policy, no two share a key, and in every one the key
   * is not blank, the category is 1 to 64 characters of a-z, 0-9 and '-', the size limit is positive
   * and within the server's, the visibility, if given, is public or private, and every transform has a
   * name of 1 to 64 characters fit for URLs and a preset within bounds.
   */
  lemma AcceptedIff(ps: seq<Policy>, maxUpload: nat)
    ensures Problem(ps, maxUpload).None? <==>
              && ps != []
              && (forall i, j | 0 <= i < j < |ps| :: ps[i].key != ps[j].key)
              && forall p | p in ps ::
                   && (exists c :: c in p.key && !IsSpace(c))
                   && 0 < |p.category| <= 64
                   && (forall c | c in p.category :: 'a' <= c <= 'z' || '0' <= c <= '9' || c == '-')
                   && 1 <= p.maxSize <= maxUpload
                   && (p.visibility.Some? ==> p.visibility.value in ["public", "private"])
                   && forall t | t in p.transforms ::
                        && 0 < |t.name| <= 64
                        && (forall c | c in t.name ::
                              'a' <= c <= 'z' || 'A' <= c <= 'Z' || '0' <= c <= '9' || c in "-_")
                        && (t.preset.w.Some? || t.preset.h.Some?)
                        && (t.preset.w.Some? ==> 1 <= t.preset.w.value <= 4096)
                        && (t.preset.h.Some? ==> 1 <= t.preset.h.value <= 4096)
                        && (t.preset.fit == Fill ==> t.preset.w.Some? && t.preset.h.Some?)
                        && (t.preset.q.Some? ==> 1 <= t.preset.q.value <= 100)
  {
    PoliciesProblemNone(ps, maxUpload);
    SortedIsStrictIff(ps);
    DistinctWhateverTheOrder(ps);
    forall p | p in ps
      ensures PolicyProblem(p, maxUpload).None? <==> Proper(p, maxUpload)
    {
      ProperIff(p, maxUpload);
    }
    assert Problem(ps, maxUpload).None? <==>
        ps != [] && KeysDiffer(ps) && forall p | p in ps :: Proper(p, maxUpload);
  }

  /**
   * A refusal names an empty catalog, else what is wrong with the first policy that may not be
   * registered, else a repeated key.
   */
  lemma RefusalIs(ps: seq<Policy>, maxUpload: nat)
    ensures Problem(ps, maxUpload) == Some(NoPolicies) <==> ps == []
    ensures Problem(ps, maxUpload) == Some(DuplicateKey) <==>
              && (forall p | p in ps :: PolicyProblem(p, maxUpload).None?)
              && exists i, j :: 0 <= i < j < |ps| && ps[i].key == ps[j].key
    ensures forall i | 0 <= i < |ps| && PolicyProblem(ps[i], maxUpload).Some? &&
                       (forall k | 0 <= k < i :: PolicyProblem(ps[k], maxUpload).None?) ::
              Problem(ps, maxUpload) == PolicyProblem(ps[i], maxUpload)
  {
    PoliciesProblemNone(ps, maxUpload);
    SortedIsStrictIff(ps);
    DistinctWhateverTheOrder(ps);
    OwnProblems(ps, maxUpload);
    forall i | 0 <= i < |ps| && PolicyProblem(ps[i], maxUpload).Some? &&
               forall k | 0 <= k < i :: PolicyProblem(ps[k], maxUpload).None?
      ensures PoliciesProblem(ps, maxUpload) == PolicyProblem(ps[i], maxUpload)
    {
      FirstProblem(ps, maxUpload, i);
    }
  }

  lemma {:induction false} FirstProblem(ps: seq<Policy>, maxUpload: nat, i: nat)
    requires i < |ps| && PolicyProblem(ps[i], maxUpload).Some?
    requires forall k | 0 <= k < i :: PolicyProblem(ps[k], maxUpload).None?
    ensures PoliciesProblem(ps, maxUpload) == PolicyProblem(ps[i], maxUpload)
  {
    if i > 0 {
      assert PolicyProblem(ps[0], maxUpload).None?;
      forall k | 0 <= k < i - 1
        ensures PolicyProblem(ps[1..][k], maxUpload).None?
      {
        assert ps[1..][k] == ps[k + 1];
      }
      FirstProblem(ps[1..], maxUpload, i - 1);
    }
  }

  /** A policy on its own is never said to be missing or repeated. */
  lemma {:induction false} OwnProblems(ps: seq<Policy>, maxUpload: nat)
    ensures PoliciesProblem(ps, maxUpload) !in {Some(NoPolicies), Some(DuplicateKey)}
  {
    if ps != [] {
      OwnTransformProblems(ps[0].transforms);
      OwnProblems(ps[1..], maxUpload);
    }
  }

  lemma {:induction false} OwnTransformProblems(ts: seq<Named>)
    ensures TransformsProblem(ts).Some? ==>
              TransformsProblem(ts).value.BadName? || TransformsProblem(ts).value.BadPreset?
  {
    if ts != [] {
      OwnTransformProblems(ts[1..]);
    }
  }

  /** Which rule a policy is said to break, in this order. */
  lemma PolicyRefusalIs(p: Policy, maxUpload: nat)
    ensures var e, blank := PolicyProblem(p, maxUpload), forall c | c in p.key :: IsSpace(c);
            var category := 0 < |p.category| <= 64 &&
                            forall c | c in p.category :: 'a' <= c <= 'z' || '0' <= c <= '9' || c == '-';
            var size, visible := 1 <= p.maxSize <= maxUpload,
                                 p.visibility.None? || p.visibility.value in ["public", "private"];
            && (e == Some(BlankKey) <==> blank)
            && (e == Some(BadCategory) <==> !blank && !category)
            && (e == Some(BadSize) <==> !blank && category && !size)
            && (e == Some(BadVisibility) <==> !blank && category && size && !visible)
            && (!blank && category && size && visible ==> e == TransformsProblem(p.transforms))
  {
    OwnTransformProblems(p.transforms);
  }

  // ---------------------------------------------------------------- the canonical text

  function Visibility(p: Policy): string {
    if p.visibility.Some? then p.visibility.value else "private"
  }

  function TransformText(t: Named): string {
    t.name + ['='] + CacheSignature(t.preset)
  }

  function Identity(s: string): string {
    s
  }

  function Strings(ss: seq<string>): seq<string> {
    SortBy(Identity, ss)
  }

  function Size(p: Policy): string {
    Decimal(if p.maxSize >= 0 then p.maxSize else 0)
  }

  /** One line of the hashed text, without its line feed. */
  function Line(p: Policy): string {
    p.key + ['|'] + (p.category + ['|'] + (Size(p) + ['|'] + (Joined(Strings(p.types), ',') + ['|'] +
    (Visibility(p) + ['|'] + Joined(Strings(MapSeq(TransformText, p.transforms)), ',')))))
  }

  function Lines(ps: seq<Policy>): string {
    if ps == [] then [] else Line(ps[0]) + ['\n'] + Lines(ps[1..])
  }

  /** What is hashed, one policy after the other; the text stands for its digest. */
  method CatalogHash(ps: seq<Policy>) returns (hash: string)
    ensures hash == Lines(ps)
  {
    hash := [];
    for i := 0 to |ps|
      invariant hash + Lines(ps[i..]) == Lines(ps)
    {
      assert ps[i..][1..] == ps[i + 1..];
      assert hash + (Line(ps[i]) + ['\n'] + Lines(ps[i + 1..])) == (hash + (Line(ps[i]) + ['\n'])) + Lines(ps[i + 1..]);
      hash := hash + (Line(ps[i]) + ['\n']);
    }
  }

  // ---------------------------------------------------------------- what a policy means

  /** A policy up to the order of its types and transforms. */
  datatype Meaning = Meaning(key: string, category: string, maxSize: int, types: multiset<string>, visibility: string,
                             transforms: multiset<Named>)

  function MeaningOf(p: Policy): Meaning {
    Meaning(p.key, p.category, p.maxSize, multiset(p.types), Visibility(p), multiset(p.transforms))
  }

  /** The same catalog, up to the order of policies, content types and transforms. */
  ghost predicate Reordering(ps: seq<Policy>, qs: seq<Policy>) {
    multiset(MapSeq(MeaningOf, ps)) == multiset(MapSeq(MeaningOf, qs))
  }

  lemma StringsUnique(ss: seq<string>, ts: seq<string>)
    requires multiset(ss) == multiset(ts)
    ensures Strings(ss) == Strings(ts)
  {
    SortKeeps(Identity, ss);
    SortKeeps(Identity, ts);
    SortedUnique(Identity, Strings(ss), Strings(ts));
  }

  /** The line of a policy depends on its meaning only. */
  lemma LineOfMeaning(p: Policy, q: Policy)
    requires MeaningOf(p) == MeaningOf(q)
    ensures Line(p) == Line(q)
  {
    StringsUnique(p.types, q.types);
    MapKeepsContents(TransformText, p.transforms, q.transforms);
    StringsUnique(MapSeq(TransformText, p.transforms), MapSeq(TransformText, q.transforms));
  }

  function MeaningKey(m: Meaning): string {
    m.key
  }

  lemma MeaningsSorted(ps: seq<Policy>)
    requires Strict(ps)
    ensures SortedBy(MeaningKey, MapSeq(MeaningOf, ps))
    ensures forall x, y | x in MapSeq(MeaningOf, ps) && y in MapSeq(MeaningOf, ps) &&
              MeaningKey(x) == MeaningKey(y) :: x == y
  {
    var ms := MapSeq(MeaningOf, ps);
    forall i, j | 0 <= i < j < |ms|
      ensures Leq(MeaningKey(ms[i]), MeaningKey(ms[j])) && MeaningKey(ms[i]) != MeaningKey(ms[j])
    {
      assert Leq(KeyOf(ps[i]), KeyOf(ps[j]));
    }
  }

  lemma {:induction false} LinesOfMeanings(ps: seq<Policy>, qs: seq<Policy>)
    requires MapSeq(MeaningOf, ps) == MapSeq(MeaningOf, qs)
    ensures Lines(ps) == Lines(qs)
  {
    assert |MapSeq(MeaningOf, ps)| == |ps| && |MapSeq(MeaningOf, qs)| == |qs|;
    if ps == [] {
    } else {
      assert MapSeq(MeaningOf, ps)[0] == MeaningOf(ps[0]) && MapSeq(MeaningOf, qs)[0] == MeaningOf(qs[0]);
      LineOfMeaning(ps[0], qs[0]);
      assert MapSeq(MeaningOf, ps[1..]) == MapSeq(MeaningOf, ps)[1..];
      assert MapSeq(MeaningOf, qs[1..]) == MapSeq(MeaningOf, qs)[1..];
      LinesOfMeanings(ps[1..], qs[1..]);
    }
  }

  /** Any reordering of a catalog hashes alike, whatever its strings are. */
  lemma ReorderingHashesAlike(ps: seq<Policy>, qs: seq<Policy>)
    requires Strict(Sorted(ps)) && Strict(Sorted(qs)) && Reordering(ps, qs)
    ensures Lines(Sorted(ps)) == Lines(Sorted(qs))
  {
    SortKeeps(KeyOf, ps);
    SortKeeps(KeyOf, qs);
    MapKeepsContents(MeaningOf, Sorted(ps), ps);
    MapKeepsContents(MeaningOf, Sorted(qs), qs);
    MeaningsSorted(Sorted(ps));
    MeaningsSorted(Sorted(qs));
    SortedUnique(MeaningKey, MapSeq(MeaningOf, Sorted(ps)), MapSeq(MeaningOf, Sorted(qs)));
    LinesOfMeanings(Sorted(ps), Sorted(qs));
  }
}
