/** The pure part of context preparation: the per-format table, the slice
    clamps and the compressed-buffer size formulas, each evaluated in the
    order the C expressions evaluate. */
module DxvPrepare {
  import opened DxvTypes

  /** The codec and the two ratios one parameter block receives. */
  datatype Ratios = Ratios(codec: BlockCodec, texRatio: int, rawRatio: int)

  /** What preparation fills in for a format: the luma block, the chroma
      block when the format has one, and the bytes per pixel of the luma plane. */
  datatype Layout = Layout(luma: Ratios, chroma: Option<Ratios>, bytesPerPixel: int)

  /** Size in bytes of one RGTC1 single-channel block code. */
  const RGTC1_CODE_BYTES: int := 8

  function FormatLayout(f: TexFmt): (l: Layout)
    ensures l.chroma.Some? <==> IsSplitChroma(f)
    ensures l.bytesPerPixel == (if IsSplitChroma(f) then 1 else 4)
    ensures l.luma.texRatio > 0 && l.luma.rawRatio > 0
    ensures l.chroma.Some? ==> l.chroma.value.texRatio > 0 && l.chroma.value.rawRatio > 0
    // both split-chroma formats code luma and chroma with the single-channel codec
    ensures IsSplitChroma(f) <==> l.luma.codec == Rgtc1uGrayBlock
    ensures l.chroma.Some? ==> l.chroma.value.codec == Rgtc1uGrayBlock
    // the two chroma channels are two codes side by side in one 16-byte slot
    ensures l.chroma.Some? ==> l.chroma.value.texRatio == 2 * RGTC1_CODE_BYTES
  {
    match f
    case DXT1 => Layout(Ratios(Dxt1Block, 8, 16), None, 4)
    case DXT5 => Layout(Ratios(Dxt5Block, 16, 16), None, 4)
    case YCG6 => Layout(Ratios(Rgtc1uGrayBlock, 8, 4), Some(Ratios(Rgtc1uGrayBlock, 16, 4)), 1)
    case YG10 => Layout(Ratios(Rgtc1uGrayBlock, 16, 4), Some(Ratios(Rgtc1uGrayBlock, 16, 4)), 1)
  }

  /** Bytes of compressed data per 4x4 block of the luma (or RGBA) plane:
      one 8-byte code, or two for DXT5 (alpha and colour) and YG10 (Y and alpha). */
  function LumaBlockBytes(f: TexFmt): int
  {
    match f
    case DXT1 => 8
    case DXT5 => 16
    case YCG6 => RGTC1_CODE_BYTES
    case YG10 => 2 * RGTC1_CODE_BYTES
  }

  /** av_clip: below the lower bound gives the lower bound, otherwise above
      the upper bound gives the upper bound, otherwise the value itself. */
  function Clip(a: int, amin: int, amax: int): (r: int)
    ensures amin <= amax ==> amin <= r <= amax
    ensures amin <= a <= amax ==> r == a
    ensures r == a || r == amin || r == amax
    // the lower bound is tested first, so it wins when the bounds cross
    ensures a < amin ==> r == amin
    ensures a >= amin && a > amax ==> r == amax
  {
    if a < amin then amin
    else if a > amax then amax
    else a
  }

  /** Largest useful luma slice count: one slice per row of blocks. */
  function LumaMaxSlices(h: int): int { h / TEXTURE_BLOCK_H }

  /** Largest useful chroma slice count, on the half-height chroma planes. */
  function ChromaMaxSlices(h: int): int { h / 2 / TEXTURE_BLOCK_H }

  /** The luma slice count: the thread count, raised to 1 and capped at one
      slice per row of blocks. */
  function LumaSlices(threads: int, h: int): (n: int)
    ensures h >= TEXTURE_BLOCK_H ==> 1 <= n <= LumaMaxSlices(h)
    ensures h >= TEXTURE_BLOCK_H ==> (n == threads <==> 1 <= threads <= LumaMaxSlices(h))
    ensures threads >= 1 && threads > LumaMaxSlices(h) ==> n == LumaMaxSlices(h)
  {
    Clip(threads, 1, LumaMaxSlices(h))
  }

  /** The chroma slice count, capped at one slice per row of blocks of the
      half-height chroma planes. */
  function ChromaSlices(threads: int, h: int): (n: int)
    ensures h >= 2 * TEXTURE_BLOCK_H ==> 1 <= n <= ChromaMaxSlices(h)
    ensures h >= 2 * TEXTURE_BLOCK_H ==> (n == threads <==> 1 <= threads <= ChromaMaxSlices(h))
    ensures threads >= 1 && threads > ChromaMaxSlices(h) ==> n == ChromaMaxSlices(h)
  {
    Clip(threads, 1, ChromaMaxSlices(h))
  }

  /** With at least two chroma block rows, both counts lie in [1, bound],
      the chroma bound is the luma bound halved (rounded down), and chroma
      never gets more slices than luma. */
  lemma SliceCountBounds(threads: int, h: int)
    requires h >= 8
    ensures 1 <= LumaSlices(threads, h) <= LumaMaxSlices(h)
    ensures 1 <= ChromaSlices(threads, h) <= ChromaMaxSlices(h)
    ensures ChromaMaxSlices(h) == LumaMaxSlices(h) / 2
    ensures ChromaSlices(threads, h) <= LumaSlices(threads, h)
    ensures 1 <= threads <= ChromaMaxSlices(h) ==> ChromaSlices(threads, h) == threads == LumaSlices(threads, h)
    ensures threads > LumaMaxSlices(h) ==> LumaSlices(threads, h) == LumaMaxSlices(h)
    ensures threads > ChromaMaxSlices(h) ==> ChromaSlices(threads, h) == ChromaMaxSlices(h)
    ensures threads < 1 ==> LumaSlices(threads, h) == 1 == ChromaSlices(threads, h)
  {
  }

  /** Below one row of blocks the clamp bounds cross, and any positive
      thread count yields zero slices. */
  lemma SliceCountDegenerate(threads: int, h: int)
    requires threads >= 1
    ensures 0 <= h < 4 ==> LumaSlices(threads, h) == 0
    ensures 0 <= h < 8 ==> ChromaSlices(threads, h) == 0
  {
  }

  /** The C precondition on the coded dimensions: both are non-negative
      `int`s and none of the size products may overflow an `int`. */
  predicate DimsFitInt(w: int, h: int)
  {
    0 <= w <= INT_MAX && 0 <= h <= INT_MAX && w * h <= INT_MAX
  }

  /** tex_size = coded_width / raw * coded_height / 4 * tex * bpp, left to right. */
  function TexSize(w: int, h: int, r: Ratios, bpp: int): (s: int)
    requires 0 <= w && 0 <= h && r.rawRatio > 0 && r.texRatio >= 0 && bpp >= 0
    ensures s >= 0
  {
    w / r.rawRatio * h / TEXTURE_BLOCK_H * r.texRatio * bpp
  }

  /** ctex_size = coded_width / 2 / raw * coded_height / 2 / 4 * tex, left to right. */
  function CtexSize(w: int, h: int, r: Ratios): (s: int)
    requires 0 <= w && 0 <= h && r.rawRatio > 0 && r.texRatio >= 0
    ensures s >= 0
  {
    w / 2 / r.rawRatio * h / 2 / TEXTURE_BLOCK_H * r.texRatio
  }

  /** The luma buffer size preparation computes for a format; it is a whole
      number of the format's block codes. */
  function LumaTexSize(f: TexFmt, w: int, h: int): (s: int)
    requires 0 <= w && 0 <= h
    ensures s >= 0 && s % LumaBlockBytes(f) == 0
  {
    var l := FormatLayout(f);
    TexSize(w, h, l.luma, l.bytesPerPixel)
  }

  /** The chroma buffer size of a split-chroma format; it is a whole number
      of Co/Cg code pairs. */
  function ChromaTexSize(f: TexFmt, w: int, h: int): (s: int)
    requires 0 <= w && 0 <= h && IsSplitChroma(f)
    ensures s >= 0 && s % (2 * RGTC1_CODE_BYTES) == 0
  {
    CtexSize(w, h, FormatLayout(f).chroma.value)
  }

  lemma MulMonotone(a: int, b: int, c: int)
    requires 0 <= a <= b && 0 <= c
    ensures 0 <= a * c <= b * c
  {
  }

  lemma QuotientNonneg(x: int, d: int)
    requires 0 <= x && d > 0
    ensures 0 <= x / d && x / d * d <= x
  {
  }

  lemma QuotientBounds(x: int, d: int)
    requires 0 <= x && d > 0
    ensures 0 <= x / d <= x && x / d * d <= x
  {
    QuotientNonneg(x, d);
    MulMonotone(1, d, x / d);
  }

  lemma Regroup(a: int, b: int, c: int)
    ensures (a * b) * c == (a * c) * b
  {
  }

  /** The shape shared by both size expressions: w / raw * h / 4 * k stays
      between 0 and w * h whenever k is at most raw * 4. */
  lemma {:induction false} ScaledBlockCountBound(w: int, h: int, raw: int, k: int)
    requires 0 <= w && 0 <= h && raw > 0 && 0 <= k <= raw * TEXTURE_BLOCK_H
    ensures 0 <= w / raw * h <= w * h
    ensures 0 <= w / raw * h / TEXTURE_BLOCK_H * k <= w * h
  {
    var q := w / raw;
    QuotientBounds(w, raw);
    MulMonotone(q, w, h);
    var p := q * h;
    var b := p / TEXTURE_BLOCK_H;
    QuotientBounds(p, TEXTURE_BLOCK_H);
    var rawBlock := raw * TEXTURE_BLOCK_H;
    MulMonotone(k, rawBlock, b);
    // (raw * 4) * b == (b * 4) * raw
    Regroup(b, TEXTURE_BLOCK_H, raw);
    assert rawBlock * b == (b * TEXTURE_BLOCK_H) * raw;
    MulMonotone(b * TEXTURE_BLOCK_H, p, raw);
    // (q * h) * raw == (q * raw) * h
    Regroup(q, h, raw);
    MulMonotone(q * raw, w, h);
    assert b * k == k * b;
  }

  /** Every intermediate of the luma size expression is a non-negative value
      no larger than w * h, so the C `int` arithmetic never overflows. */
  lemma {:induction false} LumaSizeFitsInt(f: TexFmt, w: int, h: int)
    requires DimsFitInt(w, h)
    ensures var r := FormatLayout(f).luma;
      0 <= w / r.rawRatio * h <= INT_MAX &&
      0 <= w / r.rawRatio * h / TEXTURE_BLOCK_H * r.texRatio <= INT_MAX &&
      0 <= LumaTexSize(f, w, h) <= w * h
  {
    var l := FormatLayout(f);
    var r := l.luma;
    ScaledBlockCountBound(w, h, r.rawRatio, r.texRatio);
    ScaledBlockCountBound(w, h, r.rawRatio, r.texRatio * l.bytesPerPixel);
    var b := w / r.rawRatio * h / TEXTURE_BLOCK_H;
    assert b * r.texRatio * l.bytesPerPixel == b * (r.texRatio * l.bytesPerPixel);
  }

  /** Every intermediate of the chroma size expression is a non-negative
      value no larger than w * h. */
  lemma {:induction false} ChromaSizeFitsInt(f: TexFmt, w: int, h: int)
    requires DimsFitInt(w, h) && IsSplitChroma(f)
    ensures var r := FormatLayout(f).chroma.value;
      0 <= w / 2 / r.rawRatio * h <= INT_MAX &&
      0 <= ChromaTexSize(f, w, h) <= w * h
  {
    var r := FormatLayout(f).chroma.value;
    var q := w / 2 / r.rawRatio;
    assert q <= w;
    MulMonotone(q, w, h);
    var p := q * h;
    var b := p / 2 / TEXTURE_BLOCK_H;
    assert b * 8 <= p;
    assert b * r.texRatio == b * 8 * 2;
    assert q * 8 <= w;
    MulMonotone(q * 8, w, h);
    assert p * 8 == q * 8 * h;
  }

  lemma ProductOfNonnegZero(a: int, b: int, c: int)
    requires 0 <= a && 0 <= b && c > 0
    ensures 0 <= a * b * c
    ensures a * b * c == 0 <==> a == 0 || b == 0
  {
    if a > 0 && b > 0 {
      MulMonotone(1, a, b);
      MulMonotone(1, a * b, c);
    }
  }

  lemma SplitProduct(x: int, y: int, b: int, c: int)
    ensures (x + y) * b * c == x * b * c + y * b * c
  {
  }

  /** Multiplying by a whole number of block rows and then dividing by the
      block height gives back the row count times the factor. */
  lemma WholeRows(q: int, hb: int)
    requires 0 <= q && 0 <= hb
    ensures q * (TEXTURE_BLOCK_H * hb) / TEXTURE_BLOCK_H == q * hb
  {
    assert q * (TEXTURE_BLOCK_H * hb) == (q * hb) * TEXTURE_BLOCK_H;
  }

  /** Dividing the width by 16 and multiplying by 4 again loses the blocks
      of the last remainder-of-16 columns, and loses none exactly when that
      remainder is below 4 (or there are no block rows). */
  lemma {:induction false} WidthBy16(w: int, hb: int, code: int)
    requires 0 <= w && 0 <= hb && code > 0
    ensures w / 16 * hb * code * 4 <= (w / 4) * hb * code
    ensures w / 16 * hb * code * 4 == (w / 4) * hb * code <==> w % 16 < 4 || hb == 0
  {
    var a, r := w / 16, w % 16;
    assert w / 4 == 4 * a + r / 4;
    assert a * hb * code * 4 == (4 * a) * hb * code;
    SplitProduct(4 * a, r / 4, hb, code);
    ProductOfNonnegZero(r / 4, hb, code);
  }

  /** With the coded height a multiple of 4, the luma buffer never holds more
      than one block code per 4x4 block, and holds exactly that many if and
      only if the format divides the width by 4 (YCG6, YG10), or the width
      leaves a remainder below 4 modulo 16 (DXT1, DXT5, which divide it by
      16), or the height is 0. */
  lemma {:induction false} LumaSizeCountsBlocks(f: TexFmt, w: int, h: int)
    requires 0 <= w && 0 <= h && h % TEXTURE_BLOCK_H == 0
    ensures LumaTexSize(f, w, h) <= (w / 4) * (h / 4) * LumaBlockBytes(f)
    ensures LumaTexSize(f, w, h) == (w / 4) * (h / 4) * LumaBlockBytes(f)
      <==> IsSplitChroma(f) || w % 16 < 4 || h == 0
  {
    var hb := h / TEXTURE_BLOCK_H;
    assert h == TEXTURE_BLOCK_H * hb;
    var q := w / FormatLayout(f).luma.rawRatio;
    QuotientNonneg(w, FormatLayout(f).luma.rawRatio);
    WholeRows(q, hb);
    assert LumaTexSize(f, w, h) == q * hb * FormatLayout(f).luma.texRatio * FormatLayout(f).bytesPerPixel;
    match f
    case DXT1 => WidthBy16(w, hb, 8);
    case DXT5 => WidthBy16(w, hb, 16);
    case YCG6 =>
    case YG10 =>
  }

  /** With the coded width and height multiples of 8, the chroma buffer holds
      exactly two 8-byte codes (Co and Cg) per 4x4 block of the half-size planes. */
  lemma {:induction false} ChromaSizeCountsBlocks(f: TexFmt, w: int, h: int)
    requires 0 <= w && 0 <= h && w % 8 == 0 && h % 8 == 0 && IsSplitChroma(f)
    ensures ChromaTexSize(f, w, h) == (w / 2 / 4) * (h / 2 / 4) * (2 * RGTC1_CODE_BYTES)
  {
    var a, b := w / 8, h / 8;
    assert w == 8 * a && h == 8 * b;
    assert w / 2 / 4 == a && h / 2 / 4 == b;
    assert w / 2 / 4 * h == a * 8 * b;
    assert (a * 8 * b) / 2 / 4 == a * b;
  }

  /** Flooring the height before multiplying never gives more than flooring
      the product, and the same when the height is a multiple of 4. */
  lemma {:induction false} FloorProductBound(q: int, h: int)
    requires 0 <= q && 0 <= h
    ensures q * (h / TEXTURE_BLOCK_H) <= q * h / TEXTURE_BLOCK_H
    ensures h % TEXTURE_BLOCK_H == 0 ==> q * (h / TEXTURE_BLOCK_H) == q * h / TEXTURE_BLOCK_H
  {
    var hb, rem := h / TEXTURE_BLOCK_H, h % TEXTURE_BLOCK_H;
    assert h == TEXTURE_BLOCK_H * hb + rem;
    assert q * h == TEXTURE_BLOCK_H * (q * hb) + q * rem;
    MulMonotone(0, q, rem);
  }

  /** Dividing left to right never gives less than dividing each dimension on
      its own, (w / raw) * (h / 4) * tex * bpp, and gives the same when the
      height is a multiple of 4. */
  lemma {:induction false} LumaSizeVersusPerDimension(f: TexFmt, w: int, h: int)
    requires 0 <= w && 0 <= h
    ensures var l := FormatLayout(f);
      var perDim := (w / l.luma.rawRatio) * (h / TEXTURE_BLOCK_H) * l.luma.texRatio * l.bytesPerPixel;
      LumaTexSize(f, w, h) >= perDim && (h % 4 == 0 ==> LumaTexSize(f, w, h) == perDim)
  {
    var l := FormatLayout(f);
    var q := w / l.luma.rawRatio;
    QuotientNonneg(w, l.luma.rawRatio);
    FloorProductBound(q, h);
    var lo, hi := q * (h / TEXTURE_BLOCK_H), q * h / TEXTURE_BLOCK_H;
    MulMonotone(lo, hi, l.luma.texRatio);
    MulMonotone(lo * l.luma.texRatio, hi * l.luma.texRatio, l.bytesPerPixel);
  }

  /** The left-to-right order matters: DXT5 at 32x6 gets 192 bytes, where
      dividing each dimension on its own would give 128. */
  lemma LumaSizeOrderExample()
    ensures LumaTexSize(DXT5, 32, 6) == 192
    ensures (32 / 16) * (6 / TEXTURE_BLOCK_H) * 16 * 4 == 128
  {
  }

  /** Worked example: YCG6 at 64x32 with eight or more threads. */
  lemma Ycg6Example(threads: int)
    requires threads >= 8
    ensures LumaTexSize(YCG6, 64, 32) == 1024
    ensures ChromaTexSize(YCG6, 64, 32) == 512
    ensures LumaSlices(threads, 32) == 8 && ChromaSlices(threads, 32) == 4
  {
  }

  /** For DXT formats the width is divided by 16 before being multiplied by
      4 bytes per pixel, so a width that leaves 4 or more modulo 16 loses
      blocks: DXT1 at 20x400 has 500 blocks (4000 bytes of codes) but gets a
      3200-byte buffer. */
  lemma DxtSizeUnalignedWidthExample()
    ensures LumaTexSize(DXT1, 20, 400) == 3200
    ensures (20 / 4) * (400 / 4) * LumaBlockBytes(DXT1) == 4000
  {
  }
}
