/**
 * Incremental writers over the two storage backends. Every call to the outside succeeds or fails as
 * the store's `io` says, counting calls.
 */
module BlobStore {
  import opened Basics

  const S3_PART_SIZE: nat := 5 * 1024 * 1024

  datatype Part = Part(number: nat, bytes: Bytes)

  /** Bytes of an object assembled from parts. */
  function Join(parts: seq<Part>): Bytes {
    if parts == [] then [] else Join(parts[..|parts| - 1]) + parts[|parts| - 1].bytes
  }

  function Numbers(n: nat): seq<nat> {
    seq(n, i requires i >= 0 => i + 1)
  }

  /** The parts a multipart upload holds under `numbers`, in that order. */
  function Assemble(parts: map<nat, Bytes>, numbers: seq<nat>): seq<Part>
    requires forall n | n in numbers :: n in parts
  {
    seq(|numbers|, i requires 0 <= i < |numbers| => Part(numbers[i], parts[numbers[i]]))
  }

  /** What the service asks of a completed part list. */
  predicate Acceptable(parts: map<nat, Bytes>, numbers: seq<nat>) {
    && numbers != []
    && (forall n | n in numbers :: n in parts)
    && (forall i, j | 0 <= i < j < |numbers| :: numbers[i] < numbers[j])
    && (forall i | 0 <= i < |numbers| - 1 :: |parts[numbers[i]]| >= S3_PART_SIZE)
  }

  /** Parts as a committed upload must have them: 1..n, n at least 1, all but the last of full size. */
  ghost predicate WellParted(ps: seq<Part>) {
    && ps != []
    && (forall i | 0 <= i < |ps| :: ps[i].number == i + 1)
    && (forall i | 0 <= i < |ps| - 1 :: |ps[i].bytes| >= S3_PART_SIZE)
  }

  class Store {
    const io: nat -> bool
    var ops: nat
    var blobs: map<string, Bytes>
    var temps: map<nat, Bytes>
    var uploads: map<nat, map<nat, Bytes>>
    var names: nat
    ghost var assembled: map<string, seq<Part>>

    /** Temporary names handed out so far are below `names`. */
    ghost predicate Valid()
      reads this
    {
      (forall t | t in temps :: t < names) && (forall u | u in uploads :: u < names)
    }

    constructor (io: nat -> bool)
      ensures Valid() && this.io == io && ops == 0 && blobs == map[] && temps == map[] && uploads == map[]
    {
      this.io, ops, blobs, temps, uploads, names, assembled := io, 0, map[], map[], map[], 0, map[];
    }

    method Attempt() returns (ok: bool)
      modifies this`ops
      ensures ok == io(old(ops)) && ops == old(ops) + 1
    {
      ok := io(ops);
      ops := ops + 1;
    }
  }

  /** Did every outside call from number `a` up to `b` succeed? */
  ghost predicate AllOk(io: nat -> bool, a: nat, b: nat) {
    forall i | a <= i < b :: io(i)
  }

  // ---------------------------------------------------------------- S3

  /** What a multipart writer has sent: parts 1..n, each of full size. */
  ghost predicate Sent(parts: map<nat, Bytes>, numbers: seq<nat>) {
    && numbers == Numbers(|numbers|)
    && (forall n | n in numbers :: n in parts && |parts[n]| >= S3_PART_SIZE)
  }

  lemma SendOne(parts: map<nat, Bytes>, numbers: seq<nat>, body: Bytes)
    requires Sent(parts, numbers)
    ensures var n := |numbers| + 1;
            && n !in numbers && numbers + [n] == Numbers(n)
            && Assemble(parts[n := body], numbers + [n]) == Assemble(parts, numbers) + [Part(n, body)]
            && Join(Assemble(parts[n := body], numbers + [n])) == Join(Assemble(parts, numbers)) + body
            && Acceptable(parts[n := body], numbers + [n]) && WellParted(Assemble(parts[n := body], numbers + [n]))
            && (|body| >= S3_PART_SIZE ==> Sent(parts[n := body], numbers + [n]))
  {
    var n := |numbers| + 1;
    assert forall x | x in numbers :: x <= |numbers|;
    var ps := Assemble(parts[n := body], numbers + [n]);
    assert ps == Assemble(parts, numbers) + [Part(n, body)];
    assert ps[..|ps| - 1] == Assemble(parts, numbers);
  }

  lemma SentIsAcceptable(parts: map<nat, Bytes>, numbers: seq<nat>)
    requires Sent(parts, numbers) && numbers != []
    ensures Acceptable(parts, numbers) && WellParted(Assemble(parts, numbers))
  {
  }

  class S3Writer {
    const store: Store
    const key: string
    const upload: nat
    var buf: Bytes
    var parts: seq<nat>
    var nextPart: nat

    ghost predicate Sending()
      reads this, store
    {
      && store.Valid() && upload in store.uploads
      && Sent(store.uploads[upload], parts) && nextPart == |parts| + 1
    }

    ghost predicate Valid()
      reads this, store
    {
      Sending() && |buf| < S3_PART_SIZE
    }

    /** Everything written so far: parts sent, then the buffer. */
    ghost function Written(): Bytes
      requires Sending()
      reads this, store
    {
      Join(Assemble(store.uploads[upload], parts)) + buf
    }

    constructor (store: Store, key: string, upload: nat)
      requires store.Valid() && upload in store.uploads && store.uploads[upload] == map[]
      ensures this.store == store && this.key == key && this.upload == upload
      ensures Valid() && Written() == []
    {
      this.store, this.key, this.upload, this.buf, this.parts, this.nextPart := store, key, upload, [], [], 1;
    }

    /** Send the buffer as the next part. */
    method FlushPart() returns (ok: bool)
      requires Sending()
      modifies this`buf, this`parts, this`nextPart, store`ops, store`uploads
      ensures old(store.ops) <= store.ops && (ok <==> AllOk(store.io, old(store.ops), store.ops))
      ensures store.Valid()
      ensures ok ==>
                && upload in store.uploads && buf == []
                && parts == old(parts) + [old(nextPart)] && nextPart == old(nextPart) + 1
                && store.uploads[upload] == old(store.uploads[upload])[old(nextPart) := old(buf)]
    {
      var body := buf;
      buf := [];
      ok := store.Attempt();
      if ok {
        var sent: map<nat, Bytes> := store.uploads[upload][nextPart := body];
        store.uploads := store.uploads[upload := sent];
        parts := parts + [nextPart];
        nextPart := nextPart + 1;
      }
    }

    method Write(chunk: Bytes) returns (ok: bool)
      requires Valid()
      modifies this`buf, this`parts, this`nextPart, store`ops, store`uploads
      ensures old(store.ops) <= store.ops && (ok <==> AllOk(store.io, old(store.ops), store.ops))
      ensures store.Valid()
      ensures ok ==> Valid() && Written() == old(Written()) + chunk
    {
      ok := true;
      ghost var sent, numbers, whole := Join(Assemble(store.uploads[upload], parts)), parts, buf + chunk;
      assert sent + buf + chunk == sent + whole;
      buf := buf + chunk;
      if |buf| >= S3_PART_SIZE {
        SendOne(store.uploads[upload], parts, buf);
        ok := FlushPart();
        assert ok ==> Sent(store.uploads[upload], parts) && |parts| == |numbers| + 1;
        assert ok ==> Join(Assemble(store.uploads[upload], parts)) + [] == sent + whole;
      }
    }

    /**
     * All or nothing: the object is the bytes written, in well-formed parts, or nothing changes. The
     * service never has a reason to refuse the part list.
     */
    method Commit() returns (ok: bool)
      requires Valid()
      modifies this`buf, this`parts, this`nextPart, store`ops, store`uploads, store`blobs, store`assembled
      ensures old(store.ops) <= store.ops && (ok <==> AllOk(store.io, old(store.ops), store.ops))
      ensures store.Valid()
      ensures !ok ==> store.blobs == old(store.blobs) && store.assembled == old(store.assembled)
      ensures ok ==>
                && store.blobs == old(store.blobs)[key := old(Written())]
                && key in store.assembled && WellParted(store.assembled[key])
                && Join(store.assembled[key]) == store.blobs[key]
    {
      ghost var from := store.ops;
      ok := FlushTail();
      if ok {
        ghost var mid := store.ops;
        ok := Complete();
        assert AllOk(store.io, from, store.ops) <==> AllOk(store.io, from, mid) && store.io(mid);
      }
    }

    /** Send the trailing bytes, or an empty part if there is no other. */
    method FlushTail() returns (ok: bool)
      requires Valid()
      modifies this`buf, this`parts, this`nextPart, store`ops, store`uploads
      ensures old(store.ops) <= store.ops && (ok <==> AllOk(store.io, old(store.ops), store.ops))
      ensures store.Valid()
      ensures ok ==>
                && upload in store.uploads && Acceptable(store.uploads[upload], parts)
                && WellParted(Assemble(store.uploads[upload], parts))
                && Join(Assemble(store.uploads[upload], parts)) == old(Written())
    {
      ok := true;
      if buf != [] || parts == [] {
        SendOne(store.uploads[upload], parts, buf);
        ok := FlushPart();
      } else {
        SentIsAcceptable(store.uploads[upload], parts);
      }
    }

    /** The service assembles the parts under the names given, unless it refuses the list. */
    method Complete() returns (ok: bool)
      requires store.Valid() && upload in store.uploads
      requires Acceptable(store.uploads[upload], parts) && WellParted(Assemble(store.uploads[upload], parts))
      modifies store`ops, store`uploads, store`blobs, store`assembled
      ensures store.ops == old(store.ops) + 1 && ok == store.io(old(store.ops))
      ensures store.Valid()
      ensures !ok ==> store.blobs == old(store.blobs) && store.assembled == old(store.assembled)
      ensures ok ==>
                var ps := old(Assemble(store.uploads[upload], parts));
                && store.assembled == old(store.assembled)[key := ps] && WellParted(ps)
                && store.blobs == old(store.blobs)[key := Join(ps)]
    {
      ok := store.Attempt();
      if ok && Acceptable(store.uploads[upload], parts) {
        var ps := Assemble(store.uploads[upload], parts);
        store.assembled := store.assembled[key := ps];
        store.blobs := store.blobs[key := Join(ps)];
        store.uploads := store.uploads - {upload};
      } else {
        ok := false;
      }
    }

    method Abort()
      requires store.Valid()
      modifies store`uploads
      ensures store.Valid() && store.uploads == old(store.uploads) - {upload}
    {
      store.uploads := store.uploads - {upload};
    }
  }

  // ---------------------------------------------------------------- local disk

  class LocalWriter {
    const store: Store
    const path: string
    const temp: nat
    var open: bool

    ghost predicate Valid()
      reads this, store
    {
      store.Valid() && open && temp in store.temps
    }

    ghost function Written(): Bytes
      requires Valid()
      reads this, store
    {
      store.temps[temp]
    }

    constructor (store: Store, path: string, temp: nat)
      requires store.Valid() && temp in store.temps && store.temps[temp] == []
      ensures this.store == store && this.path == path && this.temp == temp
      ensures Valid() && Written() == []
    {
      this.store, this.path, this.temp, this.open := store, path, temp, true;
    }

    method Write(chunk: Bytes) returns (ok: bool)
      requires Valid()
      modifies store`ops, store`temps
      ensures old(store.ops) <= store.ops && (ok <==> AllOk(store.io, old(store.ops), store.ops))
      ensures Valid() && (ok ==> Written() == old(Written()) + chunk)
    {
      ok := true;
      if open {
        ok := store.Attempt();
        if ok {
          store.temps := store.temps[temp := store.temps[temp] + chunk];
        }
      }
    }

    method Commit() returns (ok: bool)
      requires Valid()
      modifies this`open, store`ops, store`temps, store`blobs
      ensures old(store.ops) <= store.ops && (ok <==> AllOk(store.io, old(store.ops), store.ops))
      ensures store.Valid()
      ensures !ok ==> store.blobs == old(store.blobs)
      ensures ok ==> store.blobs == old(store.blobs)[path := old(Written())]
    {
      if open {
        open := false;
        ok := store.Attempt();
        if !ok {
          return;
        }
      }
      ok := store.Attempt();
      if ok {
        store.blobs := store.blobs[path := store.temps[temp]];
        store.temps := store.temps - {temp};
      }
    }

    method Abort()
      requires store.Valid()
      modifies this`open, store`temps
      ensures store.Valid() && store.temps == old(store.temps) - {temp}
    {
      open := false;
      store.temps := store.temps - {temp};
    }
  }
}
