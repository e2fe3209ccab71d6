/** Serving one variant request at a time: the exact answer, and the exact change to the cache. */
module VariantCache {
  import opened Basics
  import opened Keys
  import opened Transform
  import opened Variants

  /** Is the row for `n` the cached rendering under key `k`? */
  predicate Hit(rows: map<Name, Cached>, n: Name, k: Key) {
    n in rows && rows[n].key == k
  }

  /** The blob that giving row `n` the key `k` leaves without a reference. */
  function Superseded(rows: map<Name, Cached>, n: Name, k: Key): set<Key> {
    if n in rows && rows[n].key != k && (forall m | m in rows && m != n :: rows[m].key != rows[n].key)
    then {rows[n].key} else {}
  }

  /** No variant blob without a row to find it by. */
  ghost predicate NoLeak(rows: map<Name, Cached>, blobs: map<Key, Bytes>) {
    forall k | k in blobs :: Referenced(rows, k)
  }

  /** Storing a rendering and dropping the blob it supersedes leaves no variant blob without a row. */
  lemma RenderLeaksNothing(rows: map<Name, Cached>, blobs: map<Key, Bytes>, n: Name, row: Cached, bytes: Bytes)
    requires forall k | k in blobs :: exists m | m in rows :: rows[m].key == k
    ensures var rows', blobs' := rows[n := row], blobs[row.key := bytes] - Superseded(rows, n, row.key);
            NoLeak(rows', blobs') && forall k | k in blobs' :: exists m | m in rows' :: rows'[m].key == k
  {
    var rows' := rows[n := row];
    assert rows'[n].key == row.key;
    forall k | k in blobs && k != row.key && k !in Superseded(rows, n, row.key)
      ensures Referenced(rows', k)
    {
      var m :| m in rows && rows[m].key == k;
      if m == n {
        var other :| other in rows && other != n && rows[other].key == k;
        assert rows'[other].key == k;
      } else {
        assert rows'[m].key == k;
      }
    }
  }

  /** Only row `n` and the blobs under `k` and under the row's old key may differ. */
  ghost predicate OnlyTouched(rows: map<Name, Cached>, blobs: map<Key, Bytes>,
                              rows': map<Name, Cached>, blobs': map<Key, Bytes>, n: Name, k: Key)
  {
    && n in rows' && rows' == rows[n := rows'[n]] && blobs'.Keys <= blobs.Keys + {k}
    && forall j | j in blobs && j != k && !(n in rows && rows[n].key == j) :: j in blobs' && blobs'[j] == blobs[j]
  }

  lemma StoreTouchesLittle(rows: map<Name, Cached>, blobs: map<Key, Bytes>, n: Name, row: Cached, bytes: Bytes)
    ensures OnlyTouched(rows, blobs, rows[n := row], blobs[row.key := bytes] - Superseded(rows, n, row.key), n, row.key)
  {
  }

  /** The count of references, taken after the upsert, tells whether the old blob is superseded. */
  lemma ReclaimEffect(rows: map<Name, Cached>, blobs: map<Key, Bytes>, n: Name, row: Cached)
    ensures blobs - Superseded(rows, n, row.key) ==
            if n in rows && rows[n].key != row.key && !Referenced(rows[n := row], rows[n].key)
                then blobs - {rows[n].key}
            else blobs
  {
    if n in rows && rows[n].key != row.key {
      var rows' := rows[n := row];
      forall m | m in rows && m != n && rows[m].key == rows[n].key
        ensures Referenced(rows', rows[n].key)
      {
        assert rows'[m].key == rows[n].key;
      }
    }
  }

  lemma StoreStaysValid(c: Config, ever: map<string, Bytes>, paths: map<IdHex, string>, blobs: map<Key, Bytes>,
                        rows: map<Name, Cached>, n: Name, path: string, p: Preset, image: Image)
    requires BlobsOk(c, ever, blobs) && RowsOk(c, ever, paths, rows)
    requires n.file in paths && paths[n.file] == path && Direct(c, ever, path, p) == Some(image)
    ensures BlobsOk(c, ever, blobs[KeyOf(path, p) := image.bytes] - Superseded(rows, n, KeyOf(path, p)))
    ensures RowsOk(c, ever, paths, rows[n := Cached(KeyOf(path, p), MetaOf(image))])
  {
    WriteKeepsBlobs(c, ever, blobs, path, p, image);
    assert RowOk(c, ever, paths, n, Cached(KeyOf(path, p), MetaOf(image)));
  }

  class Server {
    const c: Config
    var originals: map<string, Bytes>
    var blobs: map<Key, Bytes>
    var rows: map<Name, Cached>
    ghost const ever: map<string, Bytes>
    ghost const paths: map<IdHex, string>

    ghost predicate Valid()
      reads this
    {
      && (forall path | path in originals :: path in ever && originals[path] == ever[path])
      && BlobsOk(c, ever, blobs)
      && RowsOk(c, ever, paths, rows)
    }

    constructor (c: Config, originals: map<string, Bytes>, ghost paths: map<IdHex, string>)
      ensures Valid() && this.c == c && this.originals == originals && ever == originals && this.paths == paths
      ensures blobs == map[] && rows == map[]
    {
      this.c, this.originals, this.blobs, this.rows := c, originals, map[], map[];
      this.ever, this.paths := originals, paths;
    }

    /** Render, store, upsert the row, and drop the blob the row pointed to if that was its last reference. */
    method RenderAndCache(f: FileRef, variant: string, p: Preset) returns (r: Option<Meta>)
      requires Valid() && f.id in paths && paths[f.id] == f.path
      modifies this`blobs, this`rows
      ensures Valid()
      ensures r.Some? <==>
              f.path in originals && |originals[f.path]| <= c.cap && c.render(originals[f.path], p).Some?
      ensures r.None? ==> blobs == old(blobs) && rows == old(rows)
      ensures r.Some? ==>
                var image, n := c.render(originals[f.path], p).value, Name(f.id, variant);
                var k := VariantKey(f.path, CacheSignature(p));
                && r.value == Meta(image.contentType, |image.bytes|, Sha256(image.bytes))
                && rows == old(rows)[n := Cached(k, r.value)]
                && blobs == old(blobs)[k := image.bytes] - Superseded(old(rows), n, k)
    {
      if f.path !in originals || |originals[f.path]| > c.cap {
        return None;
      }
      var rendered := c.render(originals[f.path], p);
      if rendered.None? {
        return None;
      }
      var image, n, k := rendered.value, Name(f.id, variant), KeyOf(f.path, p);
      var row := Cached(k, MetaOf(image));
      StoreStaysValid(c, ever, paths, blobs, rows, n, f.path, p, image);
      ReclaimEffect(rows, blobs[k := image.bytes], n, row);
      var prior := if n in rows then Some(rows[n].key) else None;
      blobs := blobs[k := image.bytes];
      rows := rows[n := row];
      if prior.Some? && prior.value != k && !Referenced(rows, prior.value) {
        blobs := blobs - {prior.value};
      }
      r := Some(row.meta);
    }

    /**
     * The answer is that of rendering on demand, given by the cache when it can. When the row is current
     * or the original can be rendered, a client gets "not modified" if and only if it named the checksum
     * of the rendering, and otherwise the rendering, unless cached bytes and original are both gone.
     */
    method ServeVariant(f: FileRef, variant: string, preset: Option<Preset>, inm: IfNoneMatch) returns (a: Answer)
      requires Valid() && f.id in paths && paths[f.id] == f.path
      modifies this`blobs, this`rows
      ensures Valid()
      ensures preset.None? || !f.image ==> a == Refused && blobs == old(blobs) && rows == old(rows)
      ensures preset.Some? && f.image ==>
                var n, k := Name(f.id, variant), VariantKey(f.path, CacheSignature(preset.value));
                var hit := n in old(rows) && old(rows)[n].key == k;
                var here := f.path in originals && |originals[f.path]| <= c.cap &&
                            c.render(originals[f.path], preset.value).Some?;
                && (!hit && !here ==> a == Refused)
                && (hit || here ==> f.path in ever && c.render(ever[f.path], preset.value).Some?)
                && (hit || here ==>
                      var d := c.render(ever[f.path], preset.value).value;
                      var named := inm.Any? || (inm.Tags? && Sha256(d.bytes) in inm.tags);
                      && (a == NotModified(Sha256(d.bytes)) <==> named)
                      && (!named && ((hit && k in old(blobs)) || here) ==>
                            a == Served(Meta(d.contentType, |d.bytes|, Sha256(d.bytes)), d.bytes))
                      && (!named && !(hit && k in old(blobs)) && !here ==> a == Refused))
                && (a.Served? ==> n in rows && rows[n].key == k && k in blobs)
                && (hit && k in old(blobs) ==> blobs == old(blobs) && rows == old(rows))
                && (rows == old(rows) || (here && n in rows && rows == old(rows)[n := rows[n]]))
                && blobs.Keys <= old(blobs).Keys + {k}
                && forall j | j in old(blobs) && j != k && !(n in old(rows) && old(rows)[n].key == j) ::
                     j in blobs && blobs[j] == old(blobs)[j]
      ensures old(forall k | k in blobs :: exists n | n in rows :: rows[n].key == k) ==>
                forall k | k in blobs :: exists n | n in rows :: rows[n].key == k
    {
      if preset.None? || !f.image {
        return Refused;
      }
      var p := preset.value;
      var n, k := Name(f.id, variant), KeyOf(f.path, p);
      var meta: Meta;
      if Hit(rows, n, k) {
        meta := rows[n].meta;
        HitDescribes(c, ever, paths, n, rows[n], f.path, p);
      } else {
        var r := RenderChecked(f, variant, p);
        if r.None? {
          return Refused;
        }
        meta := r.value;
      }
      if Matches(inm, meta.checksum) {
        return NotModified(meta.checksum);
      }
      if k !in blobs {
        var again := RenderChecked(f, variant, p);
        if again.None? || k !in blobs {
          return Refused;
        }
      }
      a := Served(meta, blobs[k]);
    }

    /** `RenderAndCache`, in the terms `ServeVariant` needs. */
    method RenderChecked(f: FileRef, variant: string, p: Preset) returns (r: Option<Meta>)
      requires Valid() && f.id in paths && paths[f.id] == f.path
      modifies this`blobs, this`rows
      ensures Valid()
      ensures r.Some? <==> Direct(c, originals, f.path, p).Some?
      ensures r.None? ==> blobs == old(blobs) && rows == old(rows)
      ensures r.Some? ==> Hit(rows, Name(f.id, variant), KeyOf(f.path, p)) && KeyOf(f.path, p) in blobs
      ensures r.Some? ==> Describes(c, ever, f.path, p, r.value)
      ensures r.Some? ==>
                OnlyTouched(old(rows), old(blobs), rows, blobs, Name(f.id, variant), KeyOf(f.path, p))
      ensures old(NoLeak(rows, blobs)) ==> NoLeak(rows, blobs)
    {
      ghost var rows0, blobs0 := rows, blobs;
      r := RenderAndCache(f, variant, p);
      if r.Some? {
        ghost var image := Direct(c, originals, f.path, p).value;
        StoreTouchesLittle(rows0, blobs0, Name(f.id, variant), Cached(KeyOf(f.path, p), r.value), image.bytes);
        assert Direct(c, ever, f.path, p) == Some(image);
        if NoLeak(rows0, blobs0) {
          RenderLeaksNothing(rows0, blobs0, Name(f.id, variant), Cached(KeyOf(f.path, p), r.value), image.bytes);
        }
      }
    }
  }
}
