/** Image presets: validation, the cache signature, and the integer crop of a `cover` fit. */
module Transform {
  import opened Basics
  import opened Text

  const MAX_OUTPUT_DIM := 4096

  datatype Fit = Cover | Inside | Fill

  datatype OutFormat = Jpeg | Png | Webp

  datatype Preset = Preset(w: Option<nat>, h: Option<nat>, fit: Fit, fmt: OutFormat, q: Option<nat>)

  datatype PresetError = NoDimension | DimensionOutOfRange | FillNeedsBoth | QualityOutOfRange

  function Validate(p: Preset): (r: Option<PresetError>) {
    if p.w.None? && p.h.None? then Some(NoDimension)
    else if p.w.Some? && (p.w.value == 0 || p.w.value > MAX_OUTPUT_DIM) then Some(DimensionOutOfRange)
    else if p.h.Some? && (p.h.value == 0 || p.h.value > MAX_OUTPUT_DIM) then Some(DimensionOutOfRange)
    else if p.fit == Fill && (p.w.None? || p.h.None?) then Some(FillNeedsBoth)
    else if p.q.Some? && (p.q.value == 0 || p.q.value > 100) then Some(QualityOutOfRange)
    else None
  }

  // Debug formatting, as the signature prints each field.

  function ShowOption(o: Option<nat>): string {
    if o.None? then "None" else "Some(" + Decimal(o.value) + ")"
  }

  function ShowFit(f: Fit): string {
    match f case Cover => "Cover" case Inside => "Inside" case Fill => "Fill"
  }

  function ShowFormat(f: OutFormat): string {
    match f case Jpeg => "Jpeg" case Png => "Png" case Webp => "Webp"
  }

  // `w={:?};h={:?};fit={:?};fmt={:?};q={:?}`, field by field.

  function FormatAndQuality(p: Preset): string {
    ("fmt=" + ShowFormat(p.fmt)) + [';'] + ("q=" + ShowOption(p.q))
  }

  function FitOnwards(p: Preset): string {
    ("fit=" + ShowFit(p.fit)) + [';'] + FormatAndQuality(p)
  }

  function HeightOnwards(p: Preset): string {
    ("h=" + ShowOption(p.h)) + [';'] + FitOnwards(p)
  }

  function CacheSignature(p: Preset): string {
    ("w=" + ShowOption(p.w)) + [';'] + HeightOnwards(p)
  }

  /** None of the characters that separate signatures from what surrounds them. */
  predicate Plain(s: string) {
    '|' !in s && ',' !in s && '\n' !in s
  }

  lemma ShowOptionChars(o: Option<nat>)
    ensures Plain(ShowOption(o)) && ';' !in ShowOption(o)
  {
  }

  lemma ShowOptionInjective(a: Option<nat>, b: Option<nat>)
    requires ShowOption(a) == ShowOption(b)
    ensures a == b
  {
    assert ShowOption(a)[0] == (if a.Some? then 'S' else 'N');
    assert ShowOption(b)[0] == (if b.Some? then 'S' else 'N');
    if a.Some? && b.Some? {
      var s, t := ShowOption(a), ShowOption(b);
      assert s[5..|s| - 1] == Decimal(a.value);
      assert t[5..|t| - 1] == Decimal(b.value);
      DecimalInjective(a.value, b.value);
    }
  }

  lemma FitOnwardsPlain(p: Preset)
    ensures Plain(FitOnwards(p))
  {
    ShowOptionChars(p.q);
    PlainConcat("fmt=" + ShowFormat(p.fmt), "q=" + ShowOption(p.q));
    PlainConcat("fit=" + ShowFit(p.fit), FormatAndQuality(p));
  }

  /** The signature never contains a separator used by variant keys or by the catalog hash. */
  lemma SignatureHasNoSeparator(p: Preset)
    ensures Plain(CacheSignature(p))
  {
    ShowOptionChars(p.w);
    ShowOptionChars(p.h);
    FitOnwardsPlain(p);
    PlainConcat("h=" + ShowOption(p.h), FitOnwards(p));
    PlainConcat("w=" + ShowOption(p.w), HeightOnwards(p));
  }

  lemma PlainConcat(a: string, b: string)
    requires Plain(a) && Plain(b)
    ensures Plain(a + [';'] + b)
  {
  }

  lemma StripPrefix(prefix: string, s: string, t: string)
    requires prefix + s == prefix + t
    ensures s == t
  {
    assert (prefix + s)[|prefix|..] == s && (prefix + t)[|prefix|..] == t;
  }

  lemma OptionField(prefix: string, x: Option<nat>, rest: string, y: Option<nat>, rest': string)
    requires ';' !in prefix && (prefix + ShowOption(x)) + [';'] + rest == (prefix + ShowOption(y)) + [';'] + rest'
    ensures x == y && rest == rest'
  {
    ShowOptionChars(x);
    ShowOptionChars(y);
    SplitFirstUnique(prefix + ShowOption(x), rest, prefix + ShowOption(y), rest', ';');
    StripPrefix(prefix, ShowOption(x), ShowOption(y));
    ShowOptionInjective(x, y);
  }

  lemma FitField(a: Preset, b: Preset)
    requires FitOnwards(a) == FitOnwards(b)
    ensures a.fit == b.fit && FormatAndQuality(a) == FormatAndQuality(b)
  {
    FitPlain(a.fit);
    FitPlain(b.fit);
    SplitFirstUnique("fit=" + ShowFit(a.fit), FormatAndQuality(a), "fit=" + ShowFit(b.fit), FormatAndQuality(b), ';');
    StripPrefix("fit=", ShowFit(a.fit), ShowFit(b.fit));
    FitName(a.fit, b.fit);
  }

  lemma FitName(a: Fit, b: Fit)
    requires ShowFit(a) == ShowFit(b)
    ensures a == b
  {
    assert ShowFit(a)[0] == ShowFit(b)[0] && |ShowFit(a)| == |ShowFit(b)|;
  }

  lemma FitPlain(f: Fit)
    ensures ';' !in "fit=" + ShowFit(f)
  {
  }

  lemma FormatAndQualityFields(a: Preset, b: Preset)
    requires FormatAndQuality(a) == FormatAndQuality(b)
    ensures a.fmt == b.fmt && a.q == b.q
  {
    SplitFirstUnique("fmt=" + ShowFormat(a.fmt), "q=" + ShowOption(a.q), "fmt=" + ShowFormat(b.fmt),
        "q=" + ShowOption(b.q), ';');
    StripPrefix("fmt=", ShowFormat(a.fmt), ShowFormat(b.fmt));
    assert ShowFormat(a.fmt)[0] == ShowFormat(b.fmt)[0];
    StripPrefix("q=", ShowOption(a.q), ShowOption(b.q));
    ShowOptionInjective(a.q, b.q);
  }

  /** Changing any field of a preset changes its signature. */
  lemma CacheSignatureInjective(a: Preset, b: Preset)
    requires CacheSignature(a) == CacheSignature(b)
    ensures a == b
  {
    OptionField("w=", a.w, HeightOnwards(a), b.w, HeightOnwards(b));
    OptionField("h=", a.h, FitOnwards(a), b.h, FitOnwards(b));
    FitField(a, b);
    FormatAndQualityFields(a, b);
  }

  // ---------------------------------------------------------------- cover: crop, then scale

  const U32: nat := 0x1_0000_0000
  const U64: nat := 0x1_0000_0000_0000_0000

  datatype Rect = Rect(x: nat, y: nat, w: nat, h: nat)

  function Clamp(v: nat, lo: nat, hi: nat): nat {
    if v < lo then lo else if v > hi then hi else v
  }

  /** Is the source at least as wide as the target, comparing ratios? */
  predicate Wide(iw: nat, ih: nat, nw: nat, nh: nat) {
    iw * nh >= ih * nw
  }

  /** The centred part of an `iw` x `ih` source that is scaled to `nw` x `nh`. */
  function CoverCrop(iw: nat, ih: nat, nw: nat, nh: nat): Rect
    requires iw > 0 && ih > 0 && nw > 0 && nh > 0
  {
    var w := if Wide(iw, ih, nw, nh) then Clamp(ih * nw / nh, 1, iw) else iw;
    var h := if Wide(iw, ih, nw, nh) then ih else Clamp(iw * nh / nw, 1, ih);
    Rect(if w <= iw then (iw - w) / 2 else 0, if h <= ih then (ih - h) / 2 else 0, w, h)
  }

  /** `a / b` is the largest whole number whose product with `b` stays within `a`. */
  lemma QuotientIsLargest(a: nat, b: nat, k: nat)
    requires b > 0
    ensures a / b * b <= a && (k * b <= a ==> k <= a / b) && (k * b >= a ==> a / b <= k)
  {
    if k > a / b {
      ScaleUp(a / b + 1, k, b);
    } else if k < a / b {
      ScaleUp(k + 1, a / b, b);
    }
  }

  lemma ScaleUp(j: nat, k: nat, b: nat)
    requires j <= k
    ensures j * b <= k * b
  {
  }

  /**
   * The crop lies in the source, spans one whole axis, sits in the middle to within a pixel, and the
   * upper clamp is never what decides. On the other axis it is the largest whole number of pixels
   * that keeps the target ratio from being exceeded, or one pixel when not even that fits.
   */
  lemma CoverCropFits(iw: nat, ih: nat, nw: nat, nh: nat)
    requires iw > 0 && ih > 0 && nw > 0 && nh > 0
    ensures var c := CoverCrop(iw, ih, nw, nh);
            && c.x + c.w <= iw && c.y + c.h <= ih && c.w > 0 && c.h > 0
            && (if Wide(iw, ih, nw, nh) then c.h == ih && c.y == 0 && ih * nw / nh <= iw
                else c.w == iw && c.x == 0 && iw * nh / nw <= ih)
            && 0 <= (iw - c.w - c.x) - c.x <= 1 && 0 <= (ih - c.h - c.y) - c.y <= 1
  {
    if Wide(iw, ih, nw, nh) {
      QuotientIsLargest(ih * nw, nh, iw);
    } else {
      QuotientIsLargest(iw * nh, nw, ih);
    }
  }

  lemma CoverCropIsLargest(iw: nat, ih: nat, nw: nat, nh: nat, k: nat)
    requires iw > 0 && ih > 0 && nw > 0 && nh > 0 && k > 0
    ensures var c := CoverCrop(iw, ih, nw, nh);
            && (Wide(iw, ih, nw, nh) && k <= iw ==> (k <= c.w <==> k * nh <= ih * nw || k == 1))
            && (!Wide(iw, ih, nw, nh) && k <= ih ==> (k <= c.h <==> k * nw <= iw * nh || k == 1))
  {
    if Wide(iw, ih, nw, nh) {
      QuotientIsLargest(ih * nw, nh, iw);
      QuotientIsLargest(ih * nw, nh, k);
      if k <= ih * nw / nh {
        ScaleUp(k, ih * nw / nh, nh);
      }
    } else {
      QuotientIsLargest(iw * nh, nw, ih);
      QuotientIsLargest(iw * nh, nw, k);
      if k <= iw * nh / nw {
        ScaleUp(k, iw * nh / nw, nw);
      }
    }
  }

  /** Every rectangle of exactly the target ratio that fits in the source fits in the crop. */
  lemma CoverCropHoldsExactRatios(iw: nat, ih: nat, nw: nat, nh: nat, w: nat, h: nat)
    requires iw > 0 && ih > 0 && nw > 0 && nh > 0 && 0 < w <= iw && 0 < h <= ih && w * nh == h * nw
    ensures w <= CoverCrop(iw, ih, nw, nh).w && h <= CoverCrop(iw, ih, nw, nh).h
  {
    CoverCropFits(iw, ih, nw, nh);
    CoverCropIsLargest(iw, ih, nw, nh, w);
    CoverCropIsLargest(iw, ih, nw, nh, h);
    ScaleUp(h, ih, nw);
    ScaleUp(w, iw, nh);
  }

  /** With 32-bit dimensions no product or quotient overflows the 64-bit intermediates. */
  lemma CoverCropDoesNotOverflow(iw: nat, ih: nat, nw: nat, nh: nat)
    requires 0 < iw < U32 && 0 < ih < U32 && 0 < nw < U32 && 0 < nh < U32
    ensures iw * nh < U64 && ih * nw < U64
    ensures CoverCrop(iw, ih, nw, nh).w < U32 && CoverCrop(iw, ih, nw, nh).h < U32
  {
    CoverCropFits(iw, ih, nw, nh);
    ScaleUp(iw, U32, nh);
    ScaleUp(nh, U32, U32);
    ScaleUp(ih, U32, nw);
    ScaleUp(nw, U32, U32);
  }
}
