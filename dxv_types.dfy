/** Declarations of the DXV common header: the four texture-format tags, the
    parameter block handed to the texture slice workers, and the named
    constants of the headers this code includes. */
module DxvTypes {

  datatype Option<+T> = None | Some(value: T)

  // ----- Named constants from headers outside this model -----

  /** Height in pixels of one compressed texture block. */
  const TEXTURE_BLOCK_H: int := 4

  /** Trailing bytes every compressed buffer carries so that a block codec may
      read or write a whole block past the last one; only its positivity is used. */
  const AV_INPUT_BUFFER_PADDING_SIZE: int := 64

  /** Number of data pointers and line sizes in a frame. */
  const AV_NUM_DATA_POINTERS: int := 8

  /** Largest value of a C `int`. */
  const INT_MAX: int := 0x7fff_ffff

  /** AVERROR(ENOMEM): the status an allocation failure reports. */
  const AVERROR_ENOMEM: int := -12

  // ----- Four-character codes -----

  /** A character usable as one byte of a four-character code. */
  predicate IsByte(c: char) { c as int < 256 }

  /** Big-endian packing of four bytes: the first character is the most
      significant byte of the tag. */
  function MkBeTag(a: char, b: char, c: char, d: char): (t: int)
    requires IsByte(a) && IsByte(b) && IsByte(c) && IsByte(d)
    ensures 0 <= t < 0x1_0000_0000
  {
    ((a as int * 256 + b as int) * 256 + c as int) * 256 + d as int
  }

  /** Little-endian packing of four bytes, as used by error tags. */
  function MkTag(a: char, b: char, c: char, d: char): (t: int)
    requires IsByte(a) && IsByte(b) && IsByte(c) && IsByte(d)
    ensures 0 <= t < 0x1_0000_0000
  {
    ((d as int * 256 + c as int) * 256 + b as int) * 256 + a as int
  }

  /** AVERROR_INVALIDDATA: the negated little-endian tag "INDA". */
  const AVERROR_INVALIDDATA: int := -MkTag('I', 'N', 'D', 'A')

  /** Both error statuses are negative and different from each other, so a
      caller tells success (0) from either failure by sign and the two
      failures apart by value. */
  lemma ErrorStatusesNegative()
    ensures AVERROR_INVALIDDATA < 0 && AVERROR_ENOMEM < 0
    ensures AVERROR_INVALIDDATA != AVERROR_ENOMEM
    ensures AVERROR_INVALIDDATA == -0x41444E49
  {
  }

  /** The four bytes of a 32-bit tag, most significant first. */
  function FourCC(t: int): (s: seq<char>)
    requires 0 <= t < 0x1_0000_0000
    ensures |s| == 4 && forall i :: 0 <= i < 4 ==> IsByte(s[i])
  {
    [(t / 0x100_0000) as char, (t / 0x1_0000 % 256) as char,
     (t / 256 % 256) as char, (t % 256) as char]
  }

  lemma DivModByte(hi: int, lo: int)
    requires 0 <= lo < 256
    ensures (hi * 256 + lo) / 256 == hi && (hi * 256 + lo) % 256 == lo
  {
  }

  /** Reading a big-endian tag back gives the four characters it was made of. */
  lemma FourCCOfMkBeTag(a: char, b: char, c: char, d: char)
    requires IsByte(a) && IsByte(b) && IsByte(c) && IsByte(d)
    ensures FourCC(MkBeTag(a, b, c, d)) == [a, b, c, d]
  {
    var t := MkBeTag(a, b, c, d);
    var ab := a as int * 256 + b as int;
    var abc := ab * 256 + c as int;
    DivModByte(abc, d as int);
    DivModByte(ab, c as int);
    DivModByte(a as int, b as int);
    assert t / 256 == abc;
    assert t / 0x1_0000 == (t / 256) / 256;
    assert t / 0x100_0000 == ((t / 256) / 256) / 256;
  }

  // ----- Texture formats -----

  /** The texture layouts a DXV stream can carry. */
  datatype TexFmt = DXT1 | DXT5 | YCG6 | YG10

  /** The four-character name each format is tagged with. */
  function Name(f: TexFmt): (s: seq<char>)
    ensures |s| == 4 && forall i :: 0 <= i < 4 ==> IsByte(s[i])
  {
    match f
    case DXT1 => "DXT1"
    case DXT5 => "DXT5"
    case YCG6 => "YCG6"
    case YG10 => "YG10"
  }

  // MKBETAG('D', 'X', 'T', '1') and so on; TagIsBigEndianName proves each
  // value is the big-endian code of its name.
  const DXV_FMT_DXT1: int := 0x44585431
  const DXV_FMT_DXT5: int := 0x44585435
  const DXV_FMT_YCG6: int := 0x59434736
  const DXV_FMT_YG10: int := 0x59473130

  /** The enumerator value of a format. */
  function Tag(f: TexFmt): (t: int)
    ensures 0 <= t < 0x1_0000_0000
  {
    match f
    case DXT1 => DXV_FMT_DXT1
    case DXT5 => DXV_FMT_DXT5
    case YCG6 => DXV_FMT_YCG6
    case YG10 => DXV_FMT_YG10
  }

  /** Each enumerator is the big-endian code of its format's name. */
  lemma {:induction false} TagIsBigEndianName(f: TexFmt)
    ensures Tag(f) == MkBeTag(Name(f)[0], Name(f)[1], Name(f)[2], Name(f)[3])
    ensures FourCC(Tag(f)) == Name(f)
  {
    match f
    case DXT1 => FourCCOfMkBeTag('D', 'X', 'T', '1');
    case DXT5 => FourCCOfMkBeTag('D', 'X', 'T', '5');
    case YCG6 => FourCCOfMkBeTag('Y', 'C', 'G', '6');
    case YG10 => FourCCOfMkBeTag('Y', 'G', '1', '0');
  }

  /** No two formats share a tag, so a switch on the tag picks one branch. */
  lemma TagsDistinct(f: TexFmt, g: TexFmt)
    ensures Tag(f) == Tag(g) <==> f == g
  {
    if Tag(f) == Tag(g) {
      TagIsBigEndianName(f);
      TagIsBigEndianName(g);
      assert Name(f) == Name(g);
    }
  }

  /** The format a raw tag value stands for, if it stands for one. */
  function FromTag(t: int): (r: Option<TexFmt>)
    ensures r.Some? ==> Tag(r.value) == t
    ensures r.None? <==> forall f: TexFmt :: Tag(f) != t
  {
    if t == DXV_FMT_DXT1 then Some(DXT1)
    else if t == DXV_FMT_DXT5 then Some(DXT5)
    else if t == DXV_FMT_YCG6 then Some(YCG6)
    else if t == DXV_FMT_YG10 then Some(YG10)
    else None
  }

  /** Recognising a format's own tag gives that format back. */
  lemma FromTagOfTag(f: TexFmt)
    ensures FromTag(Tag(f)) == Some(f)
  {
    var r := FromTag(Tag(f));
    assert r.Some?;
    TagsDistinct(r.value, f);
  }

  /** The two formats whose chroma is stored apart from luma. */
  predicate IsSplitChroma(f: TexFmt) { f == YCG6 || f == YG10 }

  // ----- Parameter blocks -----

  /** The per-block codecs of the texture DSP table, as opaque identities;
      NoCodec stands for a function pointer that was never set. */
  datatype BlockCodec = NoCodec | Dxt1Block | Dxt5Block | Rgtc1uGrayBlock

  /** The two slice workers the dispatch can run. */
  datatype Worker = CompressThread | DecompressThread

  /** The two compressed buffers a context owns. */
  datatype BufferId = TexData | CtexData

  /** A pointer into a compressed buffer: which buffer and how many bytes in. */
  datatype Region = NoRegion | Region(buffer: BufferId, offset: int)

  /** A pointer to one plane of a frame, by its plane index. */
  datatype PlaneRef = NoPlane | Plane(index: int)

  /** The slice-worker parameter block: codec, the two ratios, the slice
      count, and the buffer pointer, frame pointer and stride that the
      dispatch aims before each run. */
  datatype ThreadParams = ThreadParams(
    texFunct: BlockCodec,
    texRatio: int,
    rawRatio: int,
    sliceCount: int,
    texData: Region,
    frameData: PlaneRef,
    stride: int)

  /** A parameter block as it is in a freshly zeroed context. */
  const ZeroParams: ThreadParams := ThreadParams(NoCodec, 0, 0, 0, NoRegion, NoPlane, 0)

  /** The state of an owned buffer pointer: null, or a block of a given length. */
  datatype Alloc = Null | Block(length: int)

  /** C division on `int`: the quotient is truncated toward zero. */
  function CDiv(a: int, b: int): (q: int)
    requires b != 0
    ensures a >= 0 && b > 0 ==> q == a / b
    ensures a <= 0 && b > 0 ==> q == -((-a) / b)
  {
    if (a >= 0) == (b > 0) then
      (if a >= 0 then a / b else (-a) / (-b))
    else
      -((if a >= 0 then a else -a) / (if b > 0 then b else -b))
  }
}
