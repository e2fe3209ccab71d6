/** Sorting, reorderings, and joining strings with a separator. */
module Ordering {
  import opened Text

  // ---------------------------------------------------------------- string order

  predicate Leq(a: string, b: string) {
    a == [] || (b != [] && (a[0] < b[0] || (a[0] == b[0] && Leq(a[1..], b[1..]))))
  }

  lemma {:induction false} LeqTotal(a: string, b: string)
    ensures Leq(a, b) || Leq(b, a)
  {
    if a != [] && b != [] && a[0] == b[0] {
      LeqTotal(a[1..], b[1..]);
    }
  }

  lemma {:induction false} LeqAntisymmetric(a: string, b: string)
    requires Leq(a, b) && Leq(b, a)
    ensures a == b
  {
    if a != [] && b != [] {
      LeqAntisymmetric(a[1..], b[1..]);
      assert a == [a[0]] + a[1..] && b == [b[0]] + b[1..];
    }
  }

  lemma {:induction false} LeqTransitive(a: string, b: string, c: string)
    requires Leq(a, b) && Leq(b, c)
    ensures Leq(a, c)
  {
    if a != [] && b != [] && c != [] && a[0] == b[0] && b[0] == c[0] {
      LeqTransitive(a[1..], b[1..], c[1..]);
    }
  }

  // ---------------------------------------------------------------- sorting

  /** A sort of `s` by the strings that `key` gives. */
  function SortBy<T>(key: T -> string, s: seq<T>): seq<T> {
    if s == [] then [] else InsertBy(key, s[0], SortBy(key, s[1..]))
  }

  function InsertBy<T>(key: T -> string, x: T, s: seq<T>): seq<T> {
    if s == [] then [x] else if Leq(key(x), key(s[0])) then [x] + s else [s[0]] + InsertBy(key, x, s[1..])
  }

  ghost predicate SortedBy<T>(key: T -> string, s: seq<T>) {
    forall i, j | 0 <= i < j < |s| :: Leq(key(s[i]), key(s[j]))
  }

  lemma {:induction false} InsertKeeps<T>(key: T -> string, x: T, s: seq<T>)
    requires SortedBy(key, s)
    ensures SortedBy(key, InsertBy(key, x, s)) && multiset(InsertBy(key, x, s)) == multiset(s) + multiset{x}
  {
    if s == [] {
    } else {
      LeqTotal(key(x), key(s[0]));
      assert s == [s[0]] + s[1..];
      if Leq(key(x), key(s[0])) {
        forall j | 0 <= j < |s|
          ensures Leq(key(x), key(s[j]))
        {
          if j > 0 {
            LeqTransitive(key(x), key(s[0]), key(s[j]));
          }
        }
      } else {
        InsertKeeps(key, x, s[1..]);
        var rest := InsertBy(key, x, s[1..]);
        assert multiset(rest) == multiset(s[1..]) + multiset{x};
        forall j | 0 <= j < |rest|
          ensures Leq(key(s[0]), key(rest[j]))
        {
          assert rest[j] in multiset(rest);
        }
      }
    }
  }

  lemma {:induction false} SortKeeps<T>(key: T -> string, s: seq<T>)
    ensures SortedBy(key, SortBy(key, s)) && multiset(SortBy(key, s)) == multiset(s)
  {
    if s == [] {
    } else {
      SortKeeps(key, s[1..]);
      InsertKeeps(key, s[0], SortBy(key, s[1..]));
      assert s == [s[0]] + s[1..];
    }
  }

  lemma LeastIsFirst<T>(key: T -> string, s: seq<T>, x: T)
    requires SortedBy(key, s) && x in multiset(s)
    ensures s != [] && Leq(key(s[0]), key(x))
  {
    var i :| 0 <= i < |s| && s[i] == x;
    LeqTotal(key(x), key(x));
  }

  lemma Tail<T>(s: seq<T>)
    requires s != []
    ensures multiset(s[1..]) == multiset(s) - multiset{s[0]} && s[0] in multiset(s)
    ensures forall x | x in s[1..] :: x in s
  {
    assert s == [s[0]] + s[1..];
  }

  lemma SameHead<T>(key: T -> string, s: seq<T>, t: seq<T>)
    requires SortedBy(key, s) && SortedBy(key, t) && multiset(s) == multiset(t) && s != []
    requires forall x, y | x in s && y in s && key(x) == key(y) :: x == y
    ensures t != [] && s[0] == t[0] && multiset(s[1..]) == multiset(t[1..])
  {
    Tail(s);
    LeastIsFirst(key, t, s[0]);
    Tail(t);
    LeastIsFirst(key, s, t[0]);
    LeqAntisymmetric(key(s[0]), key(t[0]));
    assert t[0] in multiset(s);
  }

  lemma TailSorted<T>(key: T -> string, s: seq<T>)
    requires SortedBy(key, s) && s != []
    ensures SortedBy(key, s[1..]) && s == [s[0]] + s[1..]
  {
  }

  /** When equal keys mean equal elements, a sorted sequence is determined by what it contains. */
  lemma {:induction false} SortedUnique<T>(key: T -> string, s: seq<T>, t: seq<T>)
    requires SortedBy(key, s) && SortedBy(key, t) && multiset(s) == multiset(t)
    requires forall x, y | x in s && y in s && key(x) == key(y) :: x == y
    ensures s == t
  {
    if s == [] {
      assert |multiset(t)| == |t|;
    } else {
      SameHead(key, s, t);
      TailSorted(key, s);
      TailSorted(key, t);
      Tail(s);
      SortedUnique(key, s[1..], t[1..]);
    }
  }

  // ---------------------------------------------------------------- mapping and reordering

  function MapSeq<A, B>(f: A -> B, xs: seq<A>): seq<B> {
    seq(|xs|, i requires 0 <= i < |xs| => f(xs[i]))
  }

  function Without<A>(xs: seq<A>, j: nat): seq<A>
    requires j < |xs|
  {
    xs[..j] + xs[j + 1..]
  }

  lemma WithoutOne<A, B>(f: A -> B, xs: seq<A>, j: nat)
    requires j < |xs|
    ensures multiset(xs) == multiset(Without(xs, j)) + multiset{xs[j]}
    ensures multiset(MapSeq(f, xs)) == multiset(MapSeq(f, Without(xs, j))) + multiset{f(xs[j])}
  {
    assert xs == xs[..j] + [xs[j]] + xs[j + 1..];
    assert MapSeq(f, xs) == MapSeq(f, xs[..j]) + [f(xs[j])] + MapSeq(f, xs[j + 1..]);
    assert MapSeq(f, Without(xs, j)) == MapSeq(f, xs[..j]) + MapSeq(f, xs[j + 1..]);
  }

  lemma {:induction false} MapKeepsContents<A, B>(f: A -> B, xs: seq<A>, ys: seq<A>)
    requires multiset(xs) == multiset(ys)
    ensures multiset(MapSeq(f, xs)) == multiset(MapSeq(f, ys))
    decreases |xs|
  {
    if xs == [] {
      assert |multiset(ys)| == |ys|;
    } else {
      assert xs[0] in multiset(ys);
      var j :| 0 <= j < |ys| && ys[j] == xs[0];
      WithoutOne(f, xs, 0);
      WithoutOne(f, ys, j);
      assert multiset(Without(xs, 0)) == multiset(xs) - multiset{xs[0]};
      MapKeepsContents(f, Without(xs, 0), Without(ys, j));
    }
  }

  lemma {:induction false} MapReflectsContents<A, B>(f: A -> B, xs: seq<A>, ys: seq<A>)
    requires multiset(MapSeq(f, xs)) == multiset(MapSeq(f, ys))
    requires forall x, y | x in xs && y in ys && f(x) == f(y) :: x == y
    ensures multiset(xs) == multiset(ys)
    decreases |xs|
  {
    if xs == [] {
      assert |multiset(MapSeq(f, ys))| == |ys|;
    } else {
      assert f(xs[0]) == MapSeq(f, xs)[0] && f(xs[0]) in multiset(MapSeq(f, ys));
      var j :| 0 <= j < |ys| && MapSeq(f, ys)[j] == f(xs[0]);
      WithoutOne(f, xs, 0);
      WithoutOne(f, ys, j);
      assert multiset(MapSeq(f, Without(xs, 0))) == multiset(MapSeq(f, xs)) - multiset{f(xs[0])};
      assert multiset(MapSeq(f, Without(ys, j))) == multiset(MapSeq(f, ys)) - multiset{f(xs[0])};
      assert forall x | x in Without(xs, 0) :: x in xs;
      assert forall y | y in Without(ys, j) :: y in ys;
      MapReflectsContents(f, Without(xs, 0), Without(ys, j));
    }
  }

  // ---------------------------------------------------------------- joining

  function Joined(xs: seq<string>, sep: char): string {
    if xs == [] then [] else if |xs| == 1 then xs[0] else xs[0] + [sep] + Joined(xs[1..], sep)
  }

  ghost predicate Joinable(xs: seq<string>, sep: char) {
    forall x | x in xs :: x != [] && sep !in x
  }

  lemma JoinedShape(xs: seq<string>, sep: char)
    requires Joinable(xs, sep)
    ensures Joined(xs, sep) == [] <==> xs == []
    ensures sep in Joined(xs, sep) <==> |xs| > 1
  {
    if xs != [] {
      assert xs[0] in xs;
      assert |xs| > 1 ==> Joined(xs, sep)[|xs[0]|] == sep;
    }
  }

  /** Joining can be undone when no piece is empty or holds the separator. */
  lemma {:induction false} JoinedInjective(xs: seq<string>, ys: seq<string>, sep: char)
    requires Joinable(xs, sep) && Joinable(ys, sep) && Joined(xs, sep) == Joined(ys, sep)
    ensures xs == ys
  {
    JoinedShape(xs, sep);
    JoinedShape(ys, sep);
    if |xs| > 1 {
      assert xs[0] in xs && ys[0] in ys;
      assert xs == [xs[0]] + xs[1..] && ys == [ys[0]] + ys[1..];
      assert forall x | x in xs[1..] :: x in xs;
      assert forall y | y in ys[1..] :: y in ys;
      SplitFirstUnique(xs[0], Joined(xs[1..], sep), ys[0], Joined(ys[1..], sep), sep);
      JoinedInjective(xs[1..], ys[1..], sep);
    }
  }

  lemma {:induction false} JoinedFreeOf(xs: seq<string>, sep: char, c: char)
    requires c != sep && forall x | x in xs :: c !in x
    ensures c !in Joined(xs, sep)
  {
    if |xs| > 1 {
      JoinedFreeOf(xs[1..], sep, c);
    }
  }
}
