/** Streaming an upload's body to a backend: sniff a head, check its type, then write, count and hash. */
module Streaming {
  import opened Basics
  import opened BlobStore
  import opened ContentTypes

  const SNIFF_LEN := 8192

  /** What the request body yields, in order. */
  datatype Event = Chunk(bytes: Bytes) | Broken

  datatype Error = BadRequest | Forbidden | PayloadTooLarge | Internal

  datatype Staged = Staged(contentType: string, size: nat, checksum: Digest)

  datatype Result = Ok(staged: Staged) | Err(error: Error)

  datatype Backend = Local | S3

  /** Limits of the grant and the server, the client's declared type, and the type sniffer. */
  datatype Rules = Rules(max: nat, allowed: seq<string>, types: seq<string>, declared: Option<string>,
                         sniff: Bytes -> Option<string>)

  // ---------------------------------------------------------------- what should happen

  /** The chunks, concatenated. */
  function Body(events: seq<Event>): Bytes {
    if events == [] then []
    else
      var last := events[|events| - 1];
      Body(events[..|events| - 1]) + if last.Chunk? then last.bytes else []
  }

  /** The first reason not to go on reading. */
  function ReadProblem(events: seq<Event>, max: nat): Option<Error> {
    if events == [] then None
    else
      var rest, last := events[..|events| - 1], events[|events| - 1];
      if ReadProblem(rest, max).Some? then ReadProblem(rest, max)
      else if last.Broken? then Some(BadRequest)
      else if |Body(rest)| + |last.bytes| > max then Some(PayloadTooLarge)
      else None
  }

  /** How many events the head takes: enough for the sniffer, or all. */
  function HeadEnd(events: seq<Event>, i: nat): (n: nat)
    requires i <= |events|
    ensures i <= n <= |events|
    decreases |events| - i
  {
    if i == |events| || |Body(events[..i])| >= SNIFF_LEN then i else HeadEnd(events, i + 1)
  }

  function Resolved(rules: Rules, head: Bytes): string {
    var sniffed := rules.sniff(head);
    if sniffed.Some? then sniffed.value
    else if rules.declared.Some? then rules.declared.value
    else "application/octet-stream"
  }

  function TypeProblem(rules: Rules, head: Bytes): Option<Error> {
    var sniffed := rules.sniff(head);
    if (sniffed.Some? && IsDenylisted(sniffed.value)) || (rules.declared.Some? && IsDenylisted(rules.declared.value))
    then Some(Forbidden)
    else if !MasterAllowed(rules.allowed, Resolved(rules, head)) then Some(Forbidden)
    else if !PolicyAllowed(rules.types, Resolved(rules, head)) then Some(BadRequest)
    else None
  }

  function Head(events: seq<Event>): seq<Event> {
    events[..HeadEnd(events, 0)]
  }

  /** Why an upload is refused, when no call to the store fails. */
  function Problem(rules: Rules, events: seq<Event>): Option<Error> {
    var head := Head(events);
    if ReadProblem(head, rules.max).Some? then ReadProblem(head, rules.max)
    else if Body(head) == [] then Some(BadRequest)
    else if TypeProblem(rules, Body(head)).Some? then TypeProblem(rules, Body(head))
    else ReadProblem(events, rules.max)
  }

  lemma BodyStep(events: seq<Event>, i: nat)
    requires i < |events|
    ensures Body(events[..i + 1]) == Body(events[..i]) + if events[i].Chunk? then events[i].bytes else []
  {
    assert events[..i + 1][..i] == events[..i];
  }

  lemma ReadStep(events: seq<Event>, i: nat, max: nat)
    requires i < |events| && ReadProblem(events[..i], max).None?
    ensures ReadProblem(events[..i + 1], max) ==
            if events[i].Broken? then Some(BadRequest)
            else if |Body(events[..i])| + |events[i].bytes| > max then Some(PayloadTooLarge) else None
  {
    assert events[..i + 1][..i] == events[..i];
  }

  /** The first problem stays the first. */
  lemma {:induction false} ProblemStays(events: seq<Event>, i: nat, j: nat, max: nat)
    requires i <= j <= |events| && ReadProblem(events[..i], max).Some?
    ensures ReadProblem(events[..j], max) == ReadProblem(events[..i], max)
    decreases j
  {
    if i < j {
      ProblemStays(events, i, j - 1, max);
      assert events[..j][..j - 1] == events[..j - 1];
    }
  }

  ghost predicate Whole(events: seq<Event>) {
    forall i | 0 <= i < |events| :: events[i].Chunk?
  }

  lemma WholeStep(rest: seq<Event>, last: Event)
    ensures Whole(rest + [last]) <==> Whole(rest) && last.Chunk?
  {
    var events := rest + [last];
    assert events[|rest|] == last;
    assert forall i | 0 <= i < |rest| :: events[i] == rest[i];
  }

  lemma {:induction false} ReadsThroughIff(events: seq<Event>, max: nat)
    ensures ReadProblem(events, max).None? <==> Whole(events) && |Body(events)| <= max
  {
    if events == [] {
    } else {
      var rest, last := events[..|events| - 1], events[|events| - 1];
      ReadsThroughIff(rest, max);
      assert events == rest + [last];
      WholeStep(rest, last);
    }
  }

  lemma {:induction false} ShortHeadIsAll(events: seq<Event>, i: nat)
    requires i <= |events|
    ensures |Body(events[..HeadEnd(events, i)])| < SNIFF_LEN ==> HeadEnd(events, i) == |events|
    decreases |events| - i
  {
    if i < |events| && |Body(events[..i])| < SNIFF_LEN {
      ShortHeadIsAll(events, i + 1);
    }
  }

  lemma {:induction false} PrefixIsShorter(events: seq<Event>, i: nat)
    requires i <= |events|
    ensures |Body(events[..i])| <= |Body(events)|
    decreases |events| - i
  {
    if i < |events| {
      BodyStep(events, i);
      PrefixIsShorter(events, i + 1);
    } else {
      assert events[..i] == events;
    }
  }

  /** The head is the shortest prefix of the events that carries 8192 bytes, or all of them. */
  lemma HeadIs(events: seq<Event>, n: nat)
    ensures n == HeadEnd(events, 0) <==>
              && n <= |events|
              && (forall k | 0 <= k < n :: |Body(events[..k])| < 8192)
              && (n == |events| || |Body(events[..n])| >= 8192)
  {
    HeadFrom(events, 0, n);
  }

  lemma {:induction false} HeadFrom(events: seq<Event>, i: nat, n: nat)
    requires i <= |events| && forall k | 0 <= k < i :: |Body(events[..k])| < SNIFF_LEN
    ensures n == HeadEnd(events, i) <==>
              && n <= |events|
              && (forall k | 0 <= k < n :: |Body(events[..k])| < SNIFF_LEN)
              && (n == |events| || |Body(events[..n])| >= SNIFF_LEN)
    decreases |events| - i
  {
    if i < |events| && |Body(events[..i])| < SNIFF_LEN {
      HeadFrom(events, i + 1, n);
    }
  }

  /**
   * An upload with a head of `n` events is acceptable if and only if its body arrives whole and is
   * neither empty nor larger than allowed, neither the sniffed nor the declared type is denylisted, and
   * the type kept is on the server's and on the policy's list, unless those are empty.
   */
  lemma AcceptableIff(rules: Rules, events: seq<Event>, n: nat)
    requires n <= |events| && (forall k | 0 <= k < n :: |Body(events[..k])| < 8192)
    requires n == |events| || |Body(events[..n])| >= 8192
    ensures var sniffed, declared := rules.sniff(Body(events[..n])), rules.declared;
            var kept := if sniffed.Some? then sniffed.value
                        else if declared.Some? then declared.value else "application/octet-stream";
            Problem(rules, events).None? <==>
              && (forall i | 0 <= i < |events| :: events[i].Chunk?)
              && 0 < |Body(events)| <= rules.max
              && (sniffed.Some? ==> sniffed.value !in DENYLIST) && (declared.Some? ==> declared.value !in DENYLIST)
              && kept !in DENYLIST
              && (rules.allowed == [] || kept in rules.allowed) && (rules.types == [] || kept in rules.types)
  {
    HeadIs(events, n);
    TypeProblemNone(rules, Body(events[..n]));
    ReadableIff(rules, events, n);
  }

  lemma TypeProblemNone(rules: Rules, head: Bytes)
    ensures var sniffed, declared := rules.sniff(head), rules.declared;
            var kept := if sniffed.Some? then sniffed.value
                        else if declared.Some? then declared.value else "application/octet-stream";
            TypeProblem(rules, head).None? <==>
              && (sniffed.Some? ==> sniffed.value !in DENYLIST) && (declared.Some? ==> declared.value !in DENYLIST)
              && kept !in DENYLIST
              && (rules.allowed == [] || kept in rules.allowed) && (rules.types == [] || kept in rules.types)
  {
  }

  lemma ReadableIff(rules: Rules, events: seq<Event>, n: nat)
    requires n == HeadEnd(events, 0)
    ensures Problem(rules, events).None? <==>
              Whole(events) && 0 < |Body(events)| <= rules.max && TypeProblem(rules, Body(events[..n])).None?
  {
    ReadsThroughIff(events, rules.max);
    ShortHeadIsAll(events, 0);
    PrefixIsShorter(events, n);
    assert events[..|events|] == events;
    if ReadProblem(events[..n], rules.max).Some? {
      ProblemStays(events, n, |events|, rules.max);
    }
  }

  /** The first `i` events arrive whole and stay under the cap. */
  ghost predicate GoodUpto(events: seq<Event>, i: nat, max: nat) {
    i <= |events| && Whole(events[..i]) && |Body(events[..i])| <= max
  }

  /** Event `i` breaks the body off or takes it over the cap, and none before it does. */
  ghost predicate FirstBad(events: seq<Event>, i: nat, max: nat) {
    && i < |events| && GoodUpto(events, i, max)
    && (events[i].Chunk? ==> |Body(events[..i + 1])| > max)
  }

  lemma GoodReads(events: seq<Event>, i: nat, j: nat, max: nat)
    requires GoodUpto(events, i, max) && j <= i
    ensures ReadProblem(events[..j], max).None?
  {
    assert events[..i][..j] == events[..j];
    PrefixIsShorter(events[..i], j);
    ReadsThroughIff(events[..j], max);
  }

  /** The first event that cannot be taken decides why reading stops. */
  lemma FirstBadDecides(events: seq<Event>, i: nat, j: nat, max: nat)
    requires FirstBad(events, i, max) && i < j <= |events|
    ensures ReadProblem(events[..j], max) == if events[i].Broken? then Some(BadRequest) else Some(PayloadTooLarge)
  {
    GoodReads(events, i, i, max);
    BodyStep(events, i);
    ReadStep(events, i, max);
    ProblemStays(events, i + 1, j, max);
  }

  /** Reading the first `j` events when event `bad` is the first that cannot be taken, if there is one. */
  lemma ReadingIs(events: seq<Event>, bad: nat, j: nat, max: nat)
    requires GoodUpto(events, bad, max) && (bad == |events| || FirstBad(events, bad, max)) && j <= |events|
    ensures ReadProblem(events[..j], max) ==
            if j <= bad then None else if events[bad].Broken? then Some(BadRequest) else Some(PayloadTooLarge)
  {
    if j <= bad {
      GoodReads(events, bad, j, max);
    } else {
      FirstBadDecides(events, bad, j, max);
    }
  }

  /**
   * Why an upload with a head of `n` events is refused, in order: an event of the head that breaks off
   * or exceeds the cap, an empty body, a denylisted type or one not on the server's list (forbidden), a
   * type not on the policy's list (bad request), a later event that breaks off or exceeds the cap.
   */
  lemma RefusalIs(rules: Rules, events: seq<Event>, n: nat, bad: nat)
    requires n <= |events| && (forall k | 0 <= k < n :: |Body(events[..k])| < 8192)
    requires n == |events| || |Body(events[..n])| >= 8192
    requires bad <= |events| && (forall k | 0 <= k < bad :: events[k].Chunk?) && |Body(events[..bad])| <= rules.max
    requires bad < |events| && events[bad].Chunk? ==> |Body(events[..bad + 1])| > rules.max
    ensures var sniffed, declared := rules.sniff(Body(events[..n])), rules.declared;
            var kept := if sniffed.Some? then sniffed.value
                        else if declared.Some? then declared.value else "application/octet-stream";
            var unread := if bad == |events| then None
                          else if events[bad].Broken? then Some(BadRequest) else Some(PayloadTooLarge);
            Problem(rules, events) ==
            if bad < n then unread
            else if |Body(events[..n])| == 0 then Some(BadRequest)
            else if (sniffed.Some? && sniffed.value in DENYLIST) || (declared.Some? && declared.value in DENYLIST)
            then Some(Forbidden)
            else if kept in DENYLIST || (rules.allowed != [] && kept !in rules.allowed) then Some(Forbidden)
            else if rules.types != [] && kept !in rules.types then Some(BadRequest)
            else unread
  {
    HeadIs(events, n);
    assert events[..|events|] == events;
    ReadingIs(events, bad, n, rules.max);
    ReadingIs(events, bad, |events|, rules.max);
  }

  // ---------------------------------------------------------------- either backend

  datatype Writer = LocalFile(file: LocalWriter) | Multipart(s3: S3Writer)

  function Target(w: Writer): Store {
    if w.LocalFile? then w.file.store else w.s3.store
  }

  function Handle(w: Writer): object {
    if w.LocalFile? then w.file else w.s3
  }

  function KeyOf(w: Writer): string {
    if w.LocalFile? then w.file.path else w.s3.key
  }

  ghost predicate Open(w: Writer)
    reads Handle(w), Target(w)
  {
    if w.LocalFile? then w.file.Valid() else w.s3.Valid()
  }

  ghost function Written(w: Writer): Bytes
    requires Open(w)
    reads Handle(w), Target(w)
  {
    if w.LocalFile? then w.file.Written() else w.s3.Written()
  }

  method OpenWriter(store: Store, backend: Backend, key: string) returns (w: Option<Writer>)
    requires store.Valid()
    modifies store
    ensures store.Valid() && store.blobs == old(store.blobs)
    ensures old(store.ops) <= store.ops && (w.Some? <==> AllOk(store.io, old(store.ops), store.ops))
    ensures w.Some? ==>
              && fresh(Handle(w.value)) && Target(w.value) == store && KeyOf(w.value) == key
              && Open(w.value) && Written(w.value) == [] && (w.value.Multipart? <==> backend.S3?)
  {
    var ok := store.Attempt();
    if !ok {
      return None;
    }
    var name := store.names;
    store.names := name + 1;
    if backend.S3? {
      store.uploads := store.uploads[name := map[]];
      var s3 := new S3Writer(store, key, name);
      w := Some(Multipart(s3));
    } else {
      store.temps := store.temps[name := []];
      var file := new LocalWriter(store, key, name);
      w := Some(LocalFile(file));
    }
  }

  method Write(w: Writer, chunk: Bytes) returns (ok: bool)
    requires Open(w)
    modifies Handle(w), Target(w)
    ensures Target(w).Valid() && Target(w).blobs == old(Target(w).blobs)
    ensures old(Target(w).ops) <= Target(w).ops && (ok <==> AllOk(Target(w).io, old(Target(w).ops), Target(w).ops))
    ensures ok ==> Open(w) && Written(w) == old(Written(w)) + chunk
  {
    if w.LocalFile? {
      ok := w.file.Write(chunk);
    } else {
      ok := w.s3.Write(chunk);
    }
  }

  method Commit(w: Writer) returns (ok: bool)
    requires Open(w)
    modifies Handle(w), Target(w)
    ensures Target(w).Valid()
    ensures old(Target(w).ops) <= Target(w).ops && (ok <==> AllOk(Target(w).io, old(Target(w).ops), Target(w).ops))
    ensures !ok ==> Target(w).blobs == old(Target(w).blobs)
    ensures ok ==> Target(w).blobs == old(Target(w).blobs)[KeyOf(w) := old(Written(w))]
    ensures ok && w.Multipart? ==>
              && KeyOf(w) in Target(w).assembled && WellParted(Target(w).assembled[KeyOf(w)])
              && Join(Target(w).assembled[KeyOf(w)]) == old(Written(w))
  {
    if w.LocalFile? {
      ok := w.file.Commit();
    } else {
      ok := w.s3.Commit();
    }
  }

  method Abort(w: Writer)
    requires Target(w).Valid()
    modifies Handle(w), Target(w)
    ensures Target(w).Valid() && Target(w).blobs == old(Target(w).blobs) && Target(w).ops == old(Target(w).ops)
  {
    if w.LocalFile? {
      w.file.Abort();
    } else {
      w.s3.Abort();
    }
  }

  // ---------------------------------------------------------------- streaming

  lemma AllOkSplit(io: nat -> bool, a: nat, b: nat, c: nat)
    requires a <= b <= c
    ensures AllOk(io, a, c) <==> AllOk(io, a, b) && AllOk(io, b, c)
  {
  }

  /** Read events until the head is long enough. */
  method ReadHead(events: seq<Event>, max: nat) returns (r: Option<Error>, head: Bytes, n: nat)
    ensures n <= |events|
    ensures r == ReadProblem(Head(events), max)
    ensures r.None? ==> n == HeadEnd(events, 0) && head == Body(events[..n]) && ReadProblem(events[..n], max).None?
  {
    head, n := [], 0;
    while n < |events| && |head| < SNIFF_LEN
      invariant n <= |events| && head == Body(events[..n])
      invariant HeadEnd(events, n) == HeadEnd(events, 0) && ReadProblem(events[..n], max).None?
    {
      BodyStep(events, n);
      ReadStep(events, n, max);
      if events[n].Broken? || |head| + |events[n].bytes| > max {
        r := if events[n].Broken? then Some(BadRequest) else Some(PayloadTooLarge);
        ProblemInHead(events, n, max);
        return;
      }
      head := head + events[n].bytes;
      n := n + 1;
    }
    r := None;
  }

  lemma ProblemInHead(events: seq<Event>, n: nat, max: nat)
    requires n < HeadEnd(events, 0) && ReadProblem(events[..n + 1], max).Some?
    ensures ReadProblem(Head(events), max) == ReadProblem(events[..n + 1], max)
  {
    var h := HeadEnd(events, 0);
    ProblemStays(events, n + 1, h, max);
  }

  /** Take event `i`: refuse it, fail to write it, or write it. */
  method WriteNext(w: Writer, events: seq<Event>, i: nat, max: nat, count: nat, hashed: Bytes)
    returns (r: Option<Error>, count': nat, hashed': Bytes)
    requires Open(w) && i < |events| && Written(w) == hashed == Body(events[..i]) && count == |hashed|
    requires ReadProblem(events[..i], max).None?
    modifies Handle(w), Target(w)
    ensures Target(w).Valid() && Target(w).blobs == old(Target(w).blobs) && old(Target(w).ops) <= Target(w).ops
    ensures r == if AllOk(Target(w).io, old(Target(w).ops), Target(w).ops) then ReadProblem(events[..i + 1], max)
                 else Some(Internal)
    ensures r.None? ==> Open(w) && Written(w) == hashed' == Body(events[..i + 1]) && count' == |hashed'|
  {
    BodyStep(events, i);
    ReadStep(events, i, max);
    r, count', hashed' := None, count, hashed;
    if events[i].Broken? {
      r := Some(BadRequest);
      return;
    }
    count' := count + |events[i].bytes|;
    if count' > max {
      r := Some(PayloadTooLarge);
      return;
    }
    hashed' := hashed + events[i].bytes;
    var ok := Write(w, events[i].bytes);
    if !ok {
      r := Some(Internal);
    }
  }

  /** Write the remaining events after `n`; stops at the first problem, or the first failing call. */
  method WriteRest(w: Writer, events: seq<Event>, n: nat, max: nat, head: Bytes)
    returns (r: Option<Error>, count: nat, hashed: Bytes)
    requires Open(w) && n <= |events| && Written(w) == head == Body(events[..n]) && ReadProblem(events[..n], max).None?
    modifies Handle(w), Target(w)
    ensures Target(w).Valid() && Target(w).blobs == old(Target(w).blobs) && old(Target(w).ops) <= Target(w).ops
    ensures r == if AllOk(Target(w).io, old(Target(w).ops), Target(w).ops) then ReadProblem(events, max)
              else Some(Internal)
    ensures r.None? ==> Open(w) && Written(w) == hashed == Body(events) && count == |hashed|
  {
    ghost var io, from := Target(w).io, Target(w).ops;
    r, count, hashed := None, |head|, head;
    var i := n;
    while i < |events|
      invariant n <= i <= |events| && Open(w) && Target(w).blobs == old(Target(w).blobs)
      invariant Written(w) == hashed == Body(events[..i]) && count == |hashed|
      invariant ReadProblem(events[..i], max).None? && from <= Target(w).ops && AllOk(io, from, Target(w).ops)
    {
      ghost var mid := Target(w).ops;
      r, count, hashed := WriteNext(w, events, i, max, count, hashed);
      AllOkSplit(io, from, mid, Target(w).ops);
      if r.Some? {
        RefusedForGood(events, i, max, r, AllOk(io, mid, Target(w).ops));
        return;
      }
      i := i + 1;
    }
    assert events[..|events|] == events;
    r := None;
  }

  lemma RefusedForGood(events: seq<Event>, i: nat, max: nat, r: Option<Error>, ok: bool)
    requires i < |events| && r.Some? && r == if ok then ReadProblem(events[..i + 1], max) else Some(Internal)
    ensures r == if ok then ReadProblem(events, max) else Some(Internal)
  {
    if ok {
      ProblemStays(events, i + 1, |events|, max);
      assert events[..|events|] == events;
    }
  }

  /**
   * Stream a body, whose head is its first `n` events, to `key`. Unless a call to the store failed it
   * is accepted if and only if it may be; a success stores exactly the concatenated chunks, reports
   * their size, checksum and the type kept, and on S3 leaves parts 1..n of full size but the last; a
   * failure stores nothing.
   */
  method StreamField(store: Store, backend: Backend, key: string, rules: Rules, events: seq<Event>)
    returns (r: Result, ghost n: nat)
    requires store.Valid()
    modifies store
    ensures store.Valid() && old(store.ops) <= store.ops
    ensures !(forall i | old(store.ops) <= i < store.ops :: store.io(i)) ==> r == Err(Internal)
    ensures (forall i | old(store.ops) <= i < store.ops :: store.io(i)) && Problem(rules, events).Some? ==>
              r == Err(Problem(rules, events).value)
    ensures n <= |events| && (forall k | 0 <= k < n :: |Body(events[..k])| < 8192)
    ensures n == |events| || |Body(events[..n])| >= 8192
    ensures var sniffed, declared := rules.sniff(Body(events[..n])), rules.declared;
            var kept := if sniffed.Some? then sniffed.value
                        else if declared.Some? then declared.value else "application/octet-stream";
            && (r.Ok? ==> r == Ok(Staged(kept, |Body(events)|, Sha256(Body(events)))))
            && (r.Ok? <==>
                  && (forall i | old(store.ops) <= i < store.ops :: store.io(i))
                  && (forall i | 0 <= i < |events| :: events[i].Chunk?) && 0 < |Body(events)| <= rules.max
                  && (sniffed.Some? ==> sniffed.value !in DENYLIST)
                  && (declared.Some? ==> declared.value !in DENYLIST) && kept !in DENYLIST
                  && (rules.allowed == [] || kept in rules.allowed) && (rules.types == [] || kept in rules.types))
    ensures r.Err? ==> store.blobs == old(store.blobs)
    ensures r.Ok? ==> store.blobs == old(store.blobs)[key := Body(events)]
    ensures r.Ok? && backend.S3? ==>
              && key in store.assembled && Join(store.assembled[key]) == Body(events)
              && store.assembled[key] != []
              && (forall i | 0 <= i < |store.assembled[key]| :: store.assembled[key][i].number == i + 1)
              && (forall i | 0 <= i < |store.assembled[key]| - 1 :: |store.assembled[key][i].bytes| >= 5_242_880)
  {
    n := HeadEnd(events, 0);
    HeadIs(events, n);
    AcceptableIff(rules, events, n);
    var problem, head, taken := ReadHead(events, rules.max);
    if problem.Some? {
      r := Err(problem.value);
      return;
    }
    if head == [] {
      r := Err(BadRequest);
      return;
    }
    if TypeProblem(rules, head).Some? {
      r := Err(TypeProblem(rules, head).value);
      return;
    }
    r := StreamChecked(store, backend, key, rules, events, head, taken);
  }

  method StreamChecked(store: Store, backend: Backend, key: string, rules: Rules, events: seq<Event>, head: Bytes,
                       n: nat)
    returns (r: Result)
    requires store.Valid() && n == HeadEnd(events, 0) && head == Body(events[..n])
    requires ReadProblem(events[..n], rules.max).None?
    modifies store
    ensures store.Valid() && old(store.ops) <= store.ops
    ensures r == if !AllOk(store.io, old(store.ops), store.ops) then Err(Internal)
                 else if ReadProblem(events, rules.max).Some? then Err(ReadProblem(events, rules.max).value)
                 else Ok(Staged(Resolved(rules, head), |Body(events)|, Sha256(Body(events))))
    ensures r.Err? ==> store.blobs == old(store.blobs)
    ensures r.Ok? ==> store.blobs == old(store.blobs)[key := Body(events)]
    ensures r.Ok? && backend.S3? ==>
              && key in store.assembled && WellParted(store.assembled[key])
              && Join(store.assembled[key]) == Body(events)
  {
    ghost var a := store.ops;
    var created := OpenWriter(store, backend, key);
    if created.None? {
      return Err(Internal);
    }
    var w := created.value;
    ghost var b := store.ops;
    var ok := Write(w, head);
    AllOkSplit(store.io, a, b, store.ops);
    if !ok {
      Abort(w);
      return Err(Internal);
    }
    ghost var c := store.ops;
    var problem, count, hashed := WriteRest(w, events, n, rules.max, head);
    AllOkSplit(store.io, a, c, store.ops);
    if problem.Some? {
      Abort(w);
      return Err(problem.value);
    }
    ghost var d := store.ops;
    ok := Commit(w);
    AllOkSplit(store.io, a, d, store.ops);
    if !ok {
      Abort(w);
      return Err(Internal);
    }
    r := Ok(Staged(Resolved(rules, head), count, Sha256(hashed)));
  }
}
