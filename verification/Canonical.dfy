/**
 * When the catalog's hash is canonical: which characters keys and content types may hold for the hashed
 * text to be readable back, with one collision for each that makes it ambiguous.
 */
module Canonical {
  import opened Basics
  import opened Text
  import opened Ordering
  import opened Transform
  import opened Catalog

  // ---------------------------------------------------------------- which strings may occur

  /** Whether keys may hold bars and line feeds, and types bars, line feeds, commas, or nothing at all. */
  datatype Alphabet = Alphabet(keyBar: bool, keyLine: bool, typeBar: bool, typeLine: bool, typeComma: bool,
                               typeEmpty: bool)

  ghost predicate KeyOver(a: Alphabet, k: string) {
    ('|' in k ==> a.keyBar) && ('\n' in k ==> a.keyLine)
  }

  ghost predicate TypeOver(a: Alphabet, t: string) {
    && ('|' in t ==> a.typeBar) && ('\n' in t ==> a.typeLine)
    && (',' in t ==> a.typeComma) && (t == [] ==> a.typeEmpty)
  }

  ghost predicate Over(a: Alphabet, p: Policy) {
    KeyOver(a, p.key) && forall t | t in p.types :: TypeOver(a, t)
  }

  /** Admissible policies with such keys and types. */
  ghost predicate Clean(a: Alphabet, ps: seq<Policy>) {
    forall p | p in ps :: Admissible(p) && Over(a, p)
  }

  /**
   * No commas and nothing empty among the types; bars in keys only without line feeds in keys or bars in
   * types, and bars in types only without line feeds there.
   */
  predicate Clear(a: Alphabet) {
    && !a.typeComma && !a.typeEmpty
    && !(a.keyBar && (a.keyLine || a.typeBar)) && !(a.typeBar && a.typeLine)
  }

  // ---------------------------------------------------------------- what the fields of a line hold

  lemma NamePlain(s: string)
    requires IsValidVariantKey(s)
    ensures Plain(s) && '=' !in s
  {
  }

  lemma CategoryPlain(s: string)
    requires IsValidCategory(s)
    ensures Plain(s)
  {
  }

  lemma SizePlain(p: Policy)
    ensures Plain(Size(p))
  {
  }

  lemma TransformTextPlain(t: Named)
    requires IsValidVariantKey(t.name)
    ensures Plain(TransformText(t)) && TransformText(t) != []
  {
    NamePlain(t.name);
    SignatureHasNoSeparator(t.preset);
  }

  lemma TransformTextInjective(s: Named, t: Named)
    requires IsValidVariantKey(s.name) && IsValidVariantKey(t.name) && TransformText(s) == TransformText(t)
    ensures s == t
  {
    NamePlain(s.name);
    NamePlain(t.name);
    SplitFirstUnique(s.name, CacheSignature(s.preset), t.name, CacheSignature(t.preset), '=');
    CacheSignatureInjective(s.preset, t.preset);
  }

  lemma StringsOf(ss: seq<string>)
    ensures multiset(Strings(ss)) == multiset(ss) && forall s | s in Strings(ss) :: s in ss
  {
    SortKeeps(Identity, ss);
    forall s | s in Strings(ss)
      ensures s in ss
    {
      assert s in multiset(Strings(ss));
    }
  }

  function TypesText(p: Policy): string {
    Joined(Strings(p.types), ',')
  }

  function TransformsText(p: Policy): string {
    Joined(Strings(MapSeq(TransformText, p.transforms)), ',')
  }

  lemma TypesJoinable(a: Alphabet, p: Policy)
    requires Over(a, p) && !a.typeComma && !a.typeEmpty
    ensures Joinable(Strings(p.types), ',')
    ensures !a.typeBar ==> '|' !in TypesText(p)
    ensures !a.typeLine ==> '\n' !in TypesText(p)
  {
    StringsOf(p.types);
    if !a.typeBar {
      JoinedFreeOf(Strings(p.types), ',', '|');
    }
    if !a.typeLine {
      JoinedFreeOf(Strings(p.types), ',', '\n');
    }
  }

  lemma TransformsTextPlain(p: Policy)
    requires Admissible(p)
    ensures Joinable(Strings(MapSeq(TransformText, p.transforms)), ',')
    ensures '|' !in TransformsText(p) && '\n' !in TransformsText(p)
  {
    var texts := MapSeq(TransformText, p.transforms);
    forall s | s in texts
      ensures Plain(s) && s != []
    {
      var i :| 0 <= i < |texts| && texts[i] == s;
      assert p.transforms[i] in p.transforms;
      TransformTextPlain(p.transforms[i]);
    }
    StringsOf(texts);
    JoinedFreeOf(Strings(texts), ',', '|');
    JoinedFreeOf(Strings(texts), ',', '\n');
  }

  lemma TypesReadBack(a: Alphabet, p: Policy, q: Policy)
    requires Over(a, p) && Over(a, q) && !a.typeComma && !a.typeEmpty && TypesText(p) == TypesText(q)
    ensures multiset(p.types) == multiset(q.types)
  {
    TypesJoinable(a, p);
    TypesJoinable(a, q);
    JoinedInjective(Strings(p.types), Strings(q.types), ',');
    StringsOf(p.types);
    StringsOf(q.types);
  }

  lemma TransformsReadBack(p: Policy, q: Policy)
    requires Admissible(p) && Admissible(q) && TransformsText(p) == TransformsText(q)
    ensures multiset(p.transforms) == multiset(q.transforms)
  {
    TransformsTextPlain(p);
    TransformsTextPlain(q);
    JoinedInjective(Strings(MapSeq(TransformText, p.transforms)), Strings(MapSeq(TransformText, q.transforms)), ',');
    StringsOf(MapSeq(TransformText, p.transforms));
    StringsOf(MapSeq(TransformText, q.transforms));
    forall s, t | s in p.transforms && t in q.transforms && TransformText(s) == TransformText(t)
      ensures s == t
    {
      TransformTextInjective(s, t);
    }
    MapReflectsContents(TransformText, p.transforms, q.transforms);
  }

  lemma VisibilityPlain(p: Policy)
    requires Admissible(p)
    ensures Plain(Visibility(p))
  {
  }

  /** The fields of a line between its key and its types hold no separator, nor do those after them. */
  lemma FieldsPlain(p: Policy)
    requires Admissible(p)
    ensures Plain(p.category) && Plain(Size(p)) && Plain(Visibility(p))
    ensures '|' !in TransformsText(p) && '\n' !in TransformsText(p)
  {
    CategoryPlain(p.category);
    SizePlain(p);
    VisibilityPlain(p);
    TransformsTextPlain(p);
  }

  lemma FieldsAreMeaning(a: Alphabet, p: Policy, q: Policy)
    requires Admissible(p) && Admissible(q) && Over(a, p) && Over(a, q) && !a.typeComma && !a.typeEmpty
    requires p.key == q.key && p.category == q.category && Size(p) == Size(q) && TypesText(p) == TypesText(q)
    requires Visibility(p) == Visibility(q) && TransformsText(p) == TransformsText(q)
    ensures MeaningOf(p) == MeaningOf(q)
  {
    DecimalInjective(p.maxSize, q.maxSize);
    TypesReadBack(a, p, q);
    TransformsReadBack(p, q);
  }

  // ---------------------------------------------------------------- reading from the left

  /** A line after its size: types, visibility and transforms. */
  function Tail(p: Policy): string {
    TypesText(p) + ['|'] + (Visibility(p) + ['|'] + TransformsText(p))
  }

  lemma LineParts(p: Policy, rest: string)
    ensures Line(p) + rest == p.key + ['|'] + (p.category + ['|'] + (Size(p) + ['|'] + (Tail(p) + rest)))
  {
  }

  /** With no bar in its key the head of a line is found by its first three bars. */
  lemma HeadReadsBack(p: Policy, q: Policy, rest: string, rest': string)
    requires Admissible(p) && Admissible(q) && '|' !in p.key && '|' !in q.key
    requires Line(p) + rest == Line(q) + rest'
    ensures p.key == q.key && p.category == q.category && Size(p) == Size(q) && Tail(p) + rest == Tail(q) + rest'
  {
    FieldsPlain(p);
    FieldsPlain(q);
    LineParts(p, rest);
    LineParts(q, rest');
    var p2, q2 := Size(p) + ['|'] + (Tail(p) + rest), Size(q) + ['|'] + (Tail(q) + rest');
    SplitFirstUnique(p.key, p.category + ['|'] + p2, q.key, q.category + ['|'] + q2, '|');
    SplitFirstUnique(p.category, p2, q.category, q2, '|');
    SplitFirstUnique(Size(p), Tail(p) + rest, Size(q), Tail(q) + rest', '|');
  }

  lemma TailThen(p: Policy, more: string)
    ensures Tail(p) + (['\n'] + more) ==
            TypesText(p) + ['|'] + (Visibility(p) + ['|'] + (TransformsText(p) + ['\n'] + more))
  {
  }

  /** Types without bars end at the next bar, and the line at the line feed after its transforms. */
  lemma TailWithoutBars(p: Policy, q: Policy, more: string, more': string)
    requires Admissible(p) && Admissible(q) && '|' !in TypesText(p) && '|' !in TypesText(q)
    requires Tail(p) + (['\n'] + more) == Tail(q) + (['\n'] + more')
    ensures TypesText(p) == TypesText(q) && Visibility(p) == Visibility(q) && TransformsText(p) == TransformsText(q)
    ensures more == more'
  {
    FieldsPlain(p);
    FieldsPlain(q);
    TailThen(p, more);
    TailThen(q, more');
    var p2, q2 := TransformsText(p) + ['\n'] + more, TransformsText(q) + ['\n'] + more';
    SplitFirstUnique(TypesText(p), Visibility(p) + ['|'] + p2, TypesText(q), Visibility(q) + ['|'] + q2, '|');
    SplitFirstUnique(Visibility(p), p2, Visibility(q), q2, '|');
    SplitFirstUnique(TransformsText(p), more, TransformsText(q), more', '\n');
  }

  /** Types without line feeds end at the last but one bar before the line feed. */
  lemma TailWithoutLines(p: Policy, q: Policy, more: string, more': string)
    requires Admissible(p) && Admissible(q) && '\n' !in TypesText(p) && '\n' !in TypesText(q)
    requires Tail(p) + (['\n'] + more) == Tail(q) + (['\n'] + more')
    ensures TypesText(p) == TypesText(q) && Visibility(p) == Visibility(q) && TransformsText(p) == TransformsText(q)
    ensures more == more'
  {
    FieldsPlain(p);
    FieldsPlain(q);
    assert '\n' !in Tail(p) && '\n' !in Tail(q);
    assert Tail(p) + ['\n'] + more == Tail(p) + (['\n'] + more);
    assert Tail(q) + ['\n'] + more' == Tail(q) + (['\n'] + more');
    SplitFirstUnique(Tail(p), more, Tail(q), more', '\n');
    assert [] + Tail(p) == Tail(p) && [] + Tail(q) == Tail(q);
    LastTwoFields(p, q, [], []);
    assert [] + TypesText(p) == TypesText(p) && [] + TypesText(q) == TypesText(q);
  }

  lemma TailParts(p: Policy, before: string)
    ensures before + Tail(p) == (before + TypesText(p) + ['|'] + Visibility(p)) + ['|'] + TransformsText(p)
  {
  }

  /** Visibility and transforms are what follows the last two bars. */
  lemma LastTwoFields(p: Policy, q: Policy, before: string, before': string)
    requires Admissible(p) && Admissible(q) && before + Tail(p) == before' + Tail(q)
    ensures before + TypesText(p) == before' + TypesText(q)
    ensures Visibility(p) == Visibility(q) && TransformsText(p) == TransformsText(q)
  {
    FieldsPlain(p);
    FieldsPlain(q);
    var p1, q1 := before + TypesText(p), before' + TypesText(q);
    TailParts(p, before);
    TailParts(q, before');
    SplitLastUnique(p1 + ['|'] + Visibility(p), TransformsText(p), q1 + ['|'] + Visibility(q), TransformsText(q), '|');
    SplitLastUnique(p1, Visibility(p), q1, Visibility(q), '|');
  }

  lemma TailReadsBack(a: Alphabet, p: Policy, q: Policy, more: string, more': string)
    requires Clear(a) && Admissible(p) && Admissible(q) && Over(a, p) && Over(a, q)
    requires Tail(p) + (['\n'] + more) == Tail(q) + (['\n'] + more')
    ensures TypesText(p) == TypesText(q) && Visibility(p) == Visibility(q) && TransformsText(p) == TransformsText(q)
    ensures more == more'
  {
    TypesJoinable(a, p);
    TypesJoinable(a, q);
    if a.typeBar {
      TailWithoutLines(p, q, more, more');
    } else {
      TailWithoutBars(p, q, more, more');
    }
  }

  lemma OneLineReadsBack(a: Alphabet, p: Policy, q: Policy, more: string, more': string)
    requires Clear(a) && !a.keyBar && Admissible(p) && Admissible(q) && Over(a, p) && Over(a, q)
    requires Line(p) + (['\n'] + more) == Line(q) + (['\n'] + more')
    ensures MeaningOf(p) == MeaningOf(q) && more == more'
  {
    HeadReadsBack(p, q, ['\n'] + more, ['\n'] + more');
    TailReadsBack(a, p, q, more, more');
    FieldsAreMeaning(a, p, q);
  }

  lemma LinesOfFirst(ps: seq<Policy>)
    requires ps != []
    ensures Lines(ps) == Line(ps[0]) + (['\n'] + Lines(ps[1..]))
  {
  }

  lemma FirstLine(a: Alphabet, ps: seq<Policy>, qs: seq<Policy>)
    requires Clear(a) && !a.keyBar && Clean(a, ps) && Clean(a, qs) && ps != [] && qs != [] && Lines(ps) == Lines(qs)
    ensures MeaningOf(ps[0]) == MeaningOf(qs[0]) && Lines(ps[1..]) == Lines(qs[1..])
  {
    assert ps[0] in ps && qs[0] in qs;
    LinesOfFirst(ps);
    LinesOfFirst(qs);
    OneLineReadsBack(a, ps[0], qs[0], Lines(ps[1..]), Lines(qs[1..]));
  }

  lemma MeaningsFirst(ps: seq<Policy>)
    requires ps != []
    ensures MapSeq(MeaningOf, ps) == [MeaningOf(ps[0])] + MapSeq(MeaningOf, ps[1..])
  {
  }

  lemma LinesEmptyIff(ps: seq<Policy>)
    ensures Lines(ps) == [] <==> ps == []
  {
  }

  lemma CleanParts(a: Alphabet, ps: seq<Policy>)
    requires Clean(a, ps) && ps != []
    ensures Clean(a, ps[1..]) && Clean(a, ps[..|ps| - 1])
    ensures Admissible(ps[|ps| - 1]) && Over(a, ps[|ps| - 1])
  {
    assert ps[|ps| - 1] in ps;
  }

  lemma {:induction false} FromTheLeft(a: Alphabet, ps: seq<Policy>, qs: seq<Policy>)
    requires Clear(a) && !a.keyBar && Clean(a, ps) && Clean(a, qs) && Lines(ps) == Lines(qs)
    ensures MapSeq(MeaningOf, ps) == MapSeq(MeaningOf, qs)
    decreases |ps|
  {
    LinesEmptyIff(ps);
    LinesEmptyIff(qs);
    if ps == [] {
      assert ps == qs;
    } else {
      FirstLine(a, ps, qs);
      CleanParts(a, ps);
      CleanParts(a, qs);
      FromTheLeft(a, ps[1..], qs[1..]);
      MeaningsFirst(ps);
      MeaningsFirst(qs);
    }
  }

  // ---------------------------------------------------------------- reading from the right

  lemma Associate(x: string, y: string, z: string, w: string)
    ensures x + (y + z + w) == x + y + z + w
  {
  }

  lemma {:induction false} LinesOfLast(ps: seq<Policy>, p: Policy)
    ensures Lines(ps + [p]) == Lines(ps) + Line(p) + ['\n']
    decreases |ps|
  {
    if ps == [] {
      assert ps + [p] == [p] && [p][1..] == [];
      assert Lines([p][1..]) == [];
    } else {
      assert (ps + [p])[1..] == ps[1..] + [p];
      LinesOfLast(ps[1..], p);
      Associate(Line(ps[0]) + ['\n'], Lines(ps[1..]), Line(p), ['\n']);
    }
  }

  lemma LinesEndIn(ps: seq<Policy>) returns (before: string)
    requires ps != []
    ensures Lines(ps) == before + ['\n']
  {
    var n := |ps| - 1;
    assert ps == ps[..n] + [ps[n]];
    LinesOfLast(ps[..n], ps[n]);
    before := Lines(ps[..n]) + Line(ps[n]);
  }

  lemma HeadParts(p: Policy, before: string)
    ensures before + Line(p) == (before + p.key + ['|'] + p.category + ['|'] + Size(p) + ['|']) + Tail(p)
  {
    LineParts(p, []);
    assert Line(p) + [] == Line(p) && Tail(p) + [] == Tail(p);
  }

  lemma ThreeFields(p: Policy, q: Policy, x: string, y: string, t: string, t': string)
    requires Plain(p.category) && Plain(q.category) && Plain(Size(p)) && Plain(Size(q)) && '|' !in t && '|' !in t'
    requires x + ['|'] + p.category + ['|'] + Size(p) + ['|'] + t ==
               y + ['|'] + q.category + ['|'] + Size(q) + ['|'] + t'
    ensures x == y && p.category == q.category && Size(p) == Size(q) && t == t'
  {
    var p2, q2 := x + ['|'] + p.category, y + ['|'] + q.category;
    SplitLastUnique(p2 + ['|'] + Size(p), t, q2 + ['|'] + Size(q), t', '|');
    SplitLastUnique(p2, Size(p), q2, Size(q), '|');
    SplitLastUnique(x, p.category, y, q.category, '|');
  }

  /** With no bar in its types a line can be taken apart by its last five bars. */
  lemma HeadFromTheRight(p: Policy, q: Policy, before: string, before': string)
    requires Admissible(p) && Admissible(q) && '|' !in TypesText(p) && '|' !in TypesText(q)
    requires before + Line(p) == before' + Line(q)
    ensures before + p.key == before' + q.key && p.category == q.category && Size(p) == Size(q)
    ensures TypesText(p) == TypesText(q) && Visibility(p) == Visibility(q) && TransformsText(p) == TransformsText(q)
  {
    FieldsPlain(p);
    FieldsPlain(q);
    HeadParts(p, before);
    HeadParts(q, before');
    var x, y := before + p.key, before' + q.key;
    LastTwoFields(p, q, x + ['|'] + p.category + ['|'] + Size(p) + ['|'],
        y + ['|'] + q.category + ['|'] + Size(q) + ['|']);
    ThreeFields(p, q, x, y, TypesText(p), TypesText(q));
  }

  /** A key without line feeds starts after the last one. */
  lemma KeyFromTheRight(ps: seq<Policy>, qs: seq<Policy>, k: string, k': string)
    requires '\n' !in k && '\n' !in k' && Lines(ps) + k == Lines(qs) + k'
    ensures Lines(ps) == Lines(qs) && k == k'
  {
    LinesEmptyIff(ps);
    LinesEmptyIff(qs);
    var x, y := [], [];
    if ps != [] {
      x := LinesEndIn(ps);
    }
    if qs != [] {
      y := LinesEndIn(qs);
    }
    OneEnd(ps == [], x, k, qs == [], y, k', Lines(ps), Lines(qs));
  }

  lemma HoldsLineFeed(e: bool, x: string, k: string, xs: string)
    requires xs == (if e then [] else x + ['\n']) && '\n' !in k
    ensures '\n' in xs + k <==> !e
  {
    assert !e ==> xs[|x|] == '\n' && xs[|x|] in xs;
    assert e ==> xs + k == k;
  }

  lemma OneEnd(e: bool, x: string, k: string, e': bool, y: string, k': string, xs: string, ys: string)
    requires xs == (if e then [] else x + ['\n']) && ys == (if e' then [] else y + ['\n'])
    requires '\n' !in k && '\n' !in k' && xs + k == ys + k'
    ensures xs == ys && k == k'
  {
    HoldsLineFeed(e, x, k, xs);
    HoldsLineFeed(e', y, k', ys);
    if e {
      assert xs + k == k && ys + k' == k';
    } else {
      SplitLastUnique(x, k, y, k', '\n');
    }
  }

  lemma DropLineFeed(x: string, y: string)
    requires x + ['\n'] == y + ['\n']
    ensures x == y
  {
    assert (x + ['\n'])[..|x|] == x && (y + ['\n'])[..|y|] == y;
  }

  lemma LastLineReadsBack(a: Alphabet, ps: seq<Policy>, qs: seq<Policy>, p: Policy, q: Policy)
    requires Clear(a) && a.keyBar && Admissible(p) && Admissible(q) && Over(a, p) && Over(a, q)
    requires Lines(ps) + Line(p) == Lines(qs) + Line(q)
    ensures MeaningOf(p) == MeaningOf(q) && Lines(ps) == Lines(qs)
  {
    TypesJoinable(a, p);
    TypesJoinable(a, q);
    HeadFromTheRight(p, q, Lines(ps), Lines(qs));
    KeyFromTheRight(ps, qs, p.key, q.key);
    FieldsAreMeaning(a, p, q);
  }

  lemma LastLine(a: Alphabet, ps: seq<Policy>, qs: seq<Policy>, p: Policy, q: Policy)
    requires Clear(a) && a.keyBar && Admissible(p) && Admissible(q) && Over(a, p) && Over(a, q)
    requires Lines(ps + [p]) == Lines(qs + [q])
    ensures MeaningOf(p) == MeaningOf(q) && Lines(ps) == Lines(qs)
  {
    LinesOfLast(ps, p);
    LinesOfLast(qs, q);
    DropLineFeed(Lines(ps) + Line(p), Lines(qs) + Line(q));
    LastLineReadsBack(a, ps, qs, p, q);
  }

  lemma MeaningsLast(ps: seq<Policy>)
    requires ps != []
    ensures ps == ps[..|ps| - 1] + [ps[|ps| - 1]]
    ensures MapSeq(MeaningOf, ps) == MapSeq(MeaningOf, ps[..|ps| - 1]) + [MeaningOf(ps[|ps| - 1])]
  {
  }

  lemma {:induction false} FromTheRight(a: Alphabet, ps: seq<Policy>, qs: seq<Policy>)
    requires Clear(a) && a.keyBar && Clean(a, ps) && Clean(a, qs) && Lines(ps) == Lines(qs)
    ensures MapSeq(MeaningOf, ps) == MapSeq(MeaningOf, qs)
    decreases |ps|
  {
    LinesEmptyIff(ps);
    LinesEmptyIff(qs);
    if ps == [] {
      assert ps == qs;
    } else {
      var m, n := |ps| - 1, |qs| - 1;
      CleanParts(a, ps);
      CleanParts(a, qs);
      MeaningsLast(ps);
      MeaningsLast(qs);
      LastLine(a, ps[..m], qs[..n], ps[m], qs[n]);
      FromTheRight(a, ps[..m], qs[..n]);
    }
  }

  // ---------------------------------------------------------------- the hash is canonical

  lemma SortedIsClean(a: Alphabet, ps: seq<Policy>)
    requires Clean(a, ps)
    ensures Clean(a, Sorted(ps))
  {
    SortKeeps(KeyOf, ps);
    forall p | p in Sorted(ps)
      ensures p in ps
    {
      assert p in multiset(Sorted(ps));
    }
  }

  /** Over a clear alphabet catalogs hash alike if and only if they are reorderings of each other. */
  lemma HashIsCanonical(a: Alphabet, ps: seq<Policy>, qs: seq<Policy>)
    requires Strict(Sorted(ps)) && Strict(Sorted(qs)) && Clear(a) && Clean(a, ps) && Clean(a, qs)
    ensures Lines(Sorted(ps)) == Lines(Sorted(qs)) <==> Reordering(ps, qs)
  {
    if Reordering(ps, qs) {
      ReorderingHashesAlike(ps, qs);
    }
    if Lines(Sorted(ps)) == Lines(Sorted(qs)) {
      SortKeeps(KeyOf, ps);
      SortKeeps(KeyOf, qs);
      SortedIsClean(a, ps);
      SortedIsClean(a, qs);
      if a.keyBar {
        FromTheRight(a, Sorted(ps), Sorted(qs));
      } else {
        FromTheLeft(a, Sorted(ps), Sorted(qs));
      }
      MapKeepsContents(MeaningOf, Sorted(ps), ps);
      MapKeepsContents(MeaningOf, Sorted(qs), qs);
    }
  }

  // ---------------------------------------------------------------- and ambiguous otherwise

  /** Two catalogs that registration accepts and hashes alike although they differ. */
  ghost predicate Collide(a: Alphabet, ps: seq<Policy>, qs: seq<Policy>) {
    && Problem(ps, 1).None? && Problem(qs, 1).None? && Clean(a, ps) && Clean(a, qs)
    && Lines(Sorted(ps)) == Lines(Sorted(qs)) && !Reordering(ps, qs)
  }

  function Plainly(key: string, types: seq<string>): Policy {
    Policy(key, "images", 1, types, None, [])
  }

  lemma SortOne(p: Policy)
    ensures Sorted([p]) == [p]
  {
    assert [p][1..] == [];
    assert SortBy(KeyOf, [p][1..]) == [];
  }

  lemma SortPair(p: Policy, q: Policy)
    requires Leq(p.key, q.key)
    ensures Sorted([p, q]) == [p, q]
  {
    assert [p, q][1..] == [q];
    SortOne(q);
  }

  lemma OneIsValid(key: string, types: seq<string>)
    requires 'a' in key
    ensures Problem([Plainly(key, types)], 1).None? && Admissible(Plainly(key, types))
  {
    var p := Plainly(key, types);
    assert PoliciesProblem([p][1..], 1).None?;
    SortOne(p);
  }

  /** The end of a line after its types, and its beginning after the key. */
  const AFTER := ['|'] + "private" + ['|']
  const BEFORE := ['|'] + "images" + ['|'] + "1" + ['|']

  lemma Flatten(key: string, c: string, size: string, t: string, v: string)
    ensures key + ['|'] + (c + ['|'] + (size + ['|'] + (t + ['|'] + (v + ['|'] + [])))) ==
            key + (['|'] + c + ['|'] + size + ['|']) + t + (['|'] + v + ['|'])
  {
  }

  lemma PlainLine(key: string, types: seq<string>)
    ensures Line(Plainly(key, types)) == key + BEFORE + TypesText(Plainly(key, types)) + AFTER
  {
    var p := Plainly(key, types);
    assert Strings(MapSeq(TransformText, p.transforms)) == [];
    assert TransformsText(p) == [];
    assert Size(p) == "1";
    Flatten(key, "images", "1", TypesText(p), "private");
  }

  lemma OneType(key: string, t: string)
    ensures TypesText(Plainly(key, [t])) == t
  {
    assert [t][1..] == [];
    assert Strings([t][1..]) == [];
    assert Strings([t]) == [t];
  }

  lemma MeaningsDiffer(ps: seq<Policy>, qs: seq<Policy>, p: Policy)
    requires p in ps && forall q | q in qs :: MeaningOf(q) != MeaningOf(p)
    ensures !Reordering(ps, qs)
  {
    var i :| 0 <= i < |ps| && ps[i] == p;
    assert MapSeq(MeaningOf, ps)[i] == MeaningOf(p);
    assert MeaningOf(p) in multiset(MapSeq(MeaningOf, ps));
    forall j | 0 <= j < |qs|
      ensures MapSeq(MeaningOf, qs)[j] != MeaningOf(p)
    {
      assert qs[j] in qs;
    }
    assert MeaningOf(p) !in multiset(MapSeq(MeaningOf, qs));
  }

  lemma LinesOfOne(p: Policy)
    ensures Lines([p]) == Line(p) + ['\n']
  {
    assert [p][1..] == [] && Lines([p][1..]) == [];
  }

  lemma LinesOfTwo(p: Policy, q: Policy)
    ensures Lines([p, q]) == Line(p) + ['\n'] + (Line(q) + ['\n'])
  {
    assert [p, q][1..] == [q];
    LinesOfOne(q);
  }

  /** Two catalogs of one policy each. */
  lemma SinglesCollide(a: Alphabet, k: string, ts: seq<string>, k': string, ts': seq<string>)
    requires 'a' in k && 'a' in k' && Over(a, Plainly(k, ts)) && Over(a, Plainly(k', ts'))
    requires Line(Plainly(k, ts)) == Line(Plainly(k', ts')) && (k != k' || multiset(ts) != multiset(ts'))
    ensures Collide(a, [Plainly(k, ts)], [Plainly(k', ts')])
  {
    var p, q := Plainly(k, ts), Plainly(k', ts');
    OneIsValid(k, ts);
    OneIsValid(k', ts');
    SortOne(p);
    SortOne(q);
    LinesOfOne(p);
    LinesOfOne(q);
    MeaningsDiffer([p], [q], p);
  }

  /** A comma in a type reads as two types. */
  lemma CommaCollides(a: Alphabet)
    requires a.typeComma
    ensures Collide(a, [Plainly("a", ["a,b"])], [Plainly("a", ["a", "b"])])
  {
    OneType("a", "a,b");
    assert ["a", "b"][1..] == ["b"] && ["b"][1..] == [];
    assert Strings([]) == [] && Strings(["b"]) == ["b"] && Leq("a", "b");
    assert Strings(["a", "b"]) == ["a", "b"];
    assert Joined(["b"], ',') == "b" && Joined(["a", "b"], ',') == "a,b";
    PlainLine("a", ["a,b"]);
    PlainLine("a", ["a", "b"]);
    assert multiset(["a,b"])["a"] == 0 && multiset(["a", "b"])["a"] == 1;
    SinglesCollide(a, "a", ["a,b"], "a", ["a", "b"]);
  }

  /** An empty type reads as none. */
  lemma EmptyCollides(a: Alphabet)
    requires a.typeEmpty
    ensures Collide(a, [Plainly("a", [""])], [Plainly("a", [])])
  {
    OneType("a", "");
    assert Strings([]) == [] && TypesText(Plainly("a", [])) == "";
    PlainLine("a", [""]);
    PlainLine("a", []);
    assert multiset([""])[""] == 1;
    SinglesCollide(a, "a", [""], "a", []);
  }

  /** What `BEFORE` holds without its last bar. */
  const FIELDS := ['|'] + "images" + ['|'] + "1"

  /** Bars in keys and in types: fields move from the type to the key. */
  lemma BarsCollide(a: Alphabet)
    requires a.keyBar && a.typeBar
    ensures exists ps, qs :: Collide(a, ps, qs)
  {
    var x, k := FIELDS[1..] + ['|'] + "c", "a" + FIELDS;
    OneType("a", x);
    OneType(k, "c");
    PlainLine("a", [x]);
    PlainLine(k, ["c"]);
    FieldsRegroup(x, k);
    assert k[0] == 'a' && k[0] in k;
    SinglesCollide(a, "a", [x], k, ["c"]);
  }

  lemma FieldsRegroup(x: string, k: string)
    requires x == FIELDS[1..] + ['|'] + "c" && k == "a" + FIELDS
    ensures "a" + BEFORE + x + AFTER == k + BEFORE + "c" + AFTER
    ensures '\n' !in k && ',' !in x && '\n' !in x
  {
    assert "a" + BEFORE + x == k + BEFORE + "c";
  }

  /** A policy and another whose lines are those of a single one. */
  lemma PairCollides(a: Alphabet, k: string, ts: seq<string>, ts1: seq<string>, ts2: seq<string>)
    requires 'a' in k && k != "ba" && Over(a, Plainly(k, ts)) && Over(a, Plainly("a", ts1)) &&
               Over(a, Plainly("ba", ts2))
    requires Line(Plainly(k, ts)) == Line(Plainly("a", ts1)) + ['\n'] + Line(Plainly("ba", ts2))
    ensures Collide(a, [Plainly("a", ts1), Plainly("ba", ts2)], [Plainly(k, ts)])
  {
    var p, q1, q2 := Plainly(k, ts), Plainly("a", ts1), Plainly("ba", ts2);
    OneIsValid(k, ts);
    TwoAreValid(ts1, ts2);
    SortOne(p);
    LinesOfOne(p);
    LinesOfTwo(q1, q2);
    MeaningsDiffer([q1, q2], [p], q2);
  }

  lemma TwoAreValid(ts1: seq<string>, ts2: seq<string>)
    ensures var qs := [Plainly("a", ts1), Plainly("ba", ts2)];
            Problem(qs, 1).None? && Sorted(qs) == qs && forall q | q in qs :: Admissible(q)
  {
    OneIsValid("a", ts1);
    OneIsValid("ba", ts2);
    assert Leq("a", "ba");
    SortPair(Plainly("a", ts1), Plainly("ba", ts2));
    PairIsValid(Plainly("a", ts1), Plainly("ba", ts2));
  }

  lemma PairIsValid(p: Policy, q: Policy)
    requires p.key != q.key && Leq(p.key, q.key) && Problem([p], 1).None? && Problem([q], 1).None?
    ensures Problem([p, q], 1).None?
  {
    SortOne(p);
    SortOne(q);
    SortPair(p, q);
    assert [p, q][1..] == [q] && [p][1..] == [] && [q][1..] == [];
  }

  /** A line ends, and the next begins, where the parts say so. */
  lemma Spell(k: string, b: string, t: string, e: string, k': string, t': string)
    ensures k + b + (t + e + ['\n'] + k' + b + t') + e == (k + b + t + e) + ['\n'] + (k' + b + t' + e)
    ensures (k + b + t + e + ['\n'] + k') + b + t' + e == (k + b + t + e) + ['\n'] + (k' + b + t' + e)
  {
  }

  /** Bars and line feeds in keys: a key can spell a whole line and the next key. */
  lemma KeysCollide(a: Alphabet)
    requires a.keyBar && a.keyLine
    ensures exists ps, qs :: Collide(a, ps, qs)
  {
    var none: seq<string> := [];
    NoTypes("a");
    NoTypes("ba");
    var k := "a" + BEFORE + [] + AFTER + ['\n'] + "ba";
    NoTypes(k);
    PlainLine(k, none);
    PlainLine("a", none);
    PlainLine("ba", none);
    Spell("a", BEFORE, [], AFTER, "ba", []);
    KeyIsNew(k);
    PairCollides(a, k, none, none, none);
  }

  lemma KeyIsNew(k: string)
    requires k == "a" + BEFORE + [] + AFTER + ['\n'] + "ba"
    ensures 'a' in k && k != "ba"
  {
    assert k[0] == 'a' && |k| > 2;
  }

  lemma NoTypes(key: string)
    ensures TypesText(Plainly(key, [])) == []
  {
    assert Strings([]) == [];
  }

  /** Bars and line feeds in types: a type can spell the end of its line and the next one up to its types. */
  lemma TypesCollide(a: Alphabet)
    requires a.typeBar && a.typeLine
    ensures exists ps, qs :: Collide(a, ps, qs)
  {
    var x := "x" + AFTER + ['\n'] + "ba" + BEFORE + "y";
    OneType("a", x);
    OneType("a", "x");
    OneType("ba", "y");
    PlainLine("a", [x]);
    PlainLine("a", ["x"]);
    PlainLine("ba", ["y"]);
    Spell("a", BEFORE, "x", AFTER, "ba", "y");
    SpelledType(x);
    PairCollides(a, "a", [x], ["x"], ["y"]);
  }

  lemma SpelledType(x: string)
    requires x == "x" + AFTER + ['\n'] + "ba" + BEFORE + "y"
    ensures ',' !in x && x != []
  {
  }

  /** Over this alphabet the hash tells any two valid catalogs apart, up to reordering. */
  ghost predicate CanonicalOver(a: Alphabet) {
    forall ps, qs, max | Problem(ps, max).None? && Problem(qs, max).None? && Clean(a, ps) && Clean(a, qs) ::
      Lines(Sorted(ps)) == Lines(Sorted(qs)) <==> Reordering(ps, qs)
  }

  lemma SomeCollide(a: Alphabet)
    requires !Clear(a)
    ensures exists ps, qs :: Collide(a, ps, qs)
  {
    if a.typeComma {
      CommaCollides(a);
    } else if a.typeEmpty {
      EmptyCollides(a);
    } else if a.keyBar && a.keyLine {
      KeysCollide(a);
    } else if a.keyBar {
      BarsCollide(a);
    } else {
      TypesCollide(a);
    }
  }

  /**
   * The hash is canonical for the valid catalogs over an alphabet if and only if the alphabet is clear:
   * what breaks it is a comma or nothing in a type, bars in keys together with line feeds in keys or
   * bars in types, and bars together with line feeds in types. Commas in keys, and any one of the other
   * characters alone, do no harm.
   */
  lemma CanonicalIff(a: Alphabet)
    ensures CanonicalOver(a) <==>
              && !a.typeComma && !a.typeEmpty
              && !(a.keyBar && a.keyLine) && !(a.keyBar && a.typeBar) && !(a.typeBar && a.typeLine)
  {
    if Clear(a) {
      forall ps, qs, max | Problem(ps, max).None? && Problem(qs, max).None? && Clean(a, ps) && Clean(a, qs)
        ensures Lines(Sorted(ps)) == Lines(Sorted(qs)) <==> Reordering(ps, qs)
      {
        ProblemNone(ps, max);
        ProblemNone(qs, max);
        HashIsCanonical(a, ps, qs);
      }
    } else {
      SomeCollide(a);
      var ps, qs :| Collide(a, ps, qs);
      assert Problem(ps, 1).None? && Problem(qs, 1).None?;
    }
  }
}
