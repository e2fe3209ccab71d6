/** Store keys: how the server names the bytes of an upload and of a rendered variant. */
module Keys {
  import opened Text

  const HEX := "0123456789abcdef"

  /** A tenant id as printed in keys: 36 characters, hexadecimal digits and hyphens. */
  predicate IsUuid(s: string) {
    |s| == 36 && forall c | c in s :: c in HEX || c == '-'
  }

  /** A file id in its hyphen-free form: 32 hexadecimal digits. */
  predicate IsIdHex(s: string) {
    |s| == 32 && forall c | c in s :: c in HEX
  }

  type Uuid = s: string | IsUuid(s) witness seq(36, _ => '0')

  type IdHex = s: string | IsIdHex(s) witness seq(32, _ => '0')

  /**
   * A key of the blob store. `Original` is the path of an uploaded file; `Variant` stands for
   * `variants/<hex digest>`. A path starts with a tenant id, so the two families never meet.
   */
  datatype Key = Original(path: string) | Variant(digest: string)

  /** `{tenant}/{category}/{year}/{month:02}/{first two of id}/{id}.{ext}` */
  function StoredPath(tenant: Uuid, category: string, year: nat, month: nat, id: IdHex, ext: string): string {
    tenant + ['/'] + (category + ['/'] + (Decimal(year) + ['/'] + (Pad2(month) + ['/'] +
    (id[..2] + ['/'] + (id + "." + ext)))))
  }

  function TenantOf(path: string): string {
    if |path| < 36 then [] else path[..36]
  }

  function IdOf(path: string): string {
    var s := AfterFirst(AfterFirst(AfterFirst(AfterFirst(AfterFirst(path, '/'), '/'), '/'), '/'), '/');
    if |s| < 32 then [] else s[..32]
  }

  /** Every upload key names its tenant and its file id, whatever the extension is. */
  lemma StoredPathReadsBack(tenant: Uuid, category: string, year: nat, month: nat, id: IdHex, ext: string)
    requires '/' !in category
    ensures TenantOf(StoredPath(tenant, category, year, month, id, ext)) == tenant
    ensures IdOf(StoredPath(tenant, category, year, month, id, ext)) == id
  {
    var s5 := id + "." + ext;
    var s4 := id[..2] + ['/'] + s5;
    var s3 := Pad2(month) + ['/'] + s4;
    var s2 := Decimal(year) + ['/'] + s3;
    var s1 := category + ['/'] + s2;
    AfterFirstSplits(tenant, '/', s1);
    AfterFirstSplits(category, '/', s2);
    AfterFirstSplits(Decimal(year), '/', s3);
    AfterFirstSplits(Pad2(month), '/', s4);
    assert forall c | c in id[..2] :: c in id;
    AfterFirstSplits(id[..2], '/', s5);
    assert (tenant + ['/'] + s1)[..36] == tenant;
    assert s5[..32] == id;
  }

  /** No two uploads have one path: tenant, category, year, month, file id and extension are all in it. */
  lemma StoredPathInjective(t: Uuid, category: string, year: nat, month: nat, id: IdHex, ext: string,
                            t': Uuid, category': string, year': nat, month': nat, id': IdHex, ext': string)
    requires '/' !in category && '/' !in category'
    requires StoredPath(t, category, year, month, id, ext) == StoredPath(t', category', year', month', id', ext')
    ensures t == t' && category == category' && year == year' && month == month' && id == id' && ext == ext'
  {
    var s4, s4' := id[..2] + ['/'] + (id + "." + ext), id'[..2] + ['/'] + (id' + "." + ext');
    var s3, s3' := Pad2(month) + ['/'] + s4, Pad2(month') + ['/'] + s4';
    var s2, s2' := Decimal(year) + ['/'] + s3, Decimal(year') + ['/'] + s3';
    SplitFirstUnique(t, category + ['/'] + s2, t', category' + ['/'] + s2', '/');
    SplitFirstUnique(category, s2, category', s2', '/');
    SplitFirstUnique(Decimal(year), s3, Decimal(year'), s3', '/');
    SplitFirstUnique(Pad2(month), s4, Pad2(month'), s4', '/');
    NameInjective(id, ext, id', ext');
    DecimalInjective(year, year');
    Pad2Injective(month, month');
  }

  lemma NameInjective(id: IdHex, ext: string, id': IdHex, ext': string)
    requires id[..2] + ['/'] + (id + "." + ext) == id'[..2] + ['/'] + (id' + "." + ext')
    ensures id == id' && ext == ext'
  {
    var s, s' := id[..2] + ['/'] + (id + "." + ext), id'[..2] + ['/'] + (id' + "." + ext');
    assert s[3..35] == id && s'[3..35] == id';
    assert s[36..] == ext && s'[36..] == ext';
  }

  /** `variants/sha256({stored_key}|{signature})`, with the hashed text standing for its digest. */
  function VariantKey(path: string, signature: string): Key {
    Variant(path + ['|'] + signature)
  }

  /** Content addressing is exact: one variant key, one original and one signature. */
  lemma VariantKeyInjective(path: string, signature: string, path': string, signature': string)
    requires '|' !in signature && '|' !in signature'
    requires VariantKey(path, signature) == VariantKey(path', signature')
    ensures path == path' && signature == signature'
  {
    SplitLastUnique(path, signature, path', signature', '|');
  }
}
