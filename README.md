# DXV common code: context preparation and plane dispatch

A Dafny model of the shared scaffolding of FFmpeg's Resolume DXV texture
codec (`libavcodec/dxv.c`, `libavcodec/dxv.h`). It has two parts:

- **Context preparation** (`ff_dxv_prepare_ctx`). The model maps the texture-format tag of a
  `DXVContext` to its plane layout. It fills in the luma parameter block and,
  for the split-chroma formats YCG6 and YG10, the chroma parameter block.
  Each block gets a block codec, `tex_ratio` and `raw_ratio`. It clamps the
  host's thread count into a luma slice count and a chroma slice count. It
  computes the compressed buffer sizes with C integer arithmetic, evaluated
  left to right, and reallocates the buffers.
- **Plane dispatch** (`INTERMEDIATE_TEX_FUNC`, instantiated as
  `ff_dxv_compress_inner_tex` and `ff_dxv_decompress_inner_tex`). The model
  points the parameter blocks at a buffer region, a frame plane and that
  plane's stride. It then calls the host's `execute2` once per plane: alpha,
  Co, Cg, then the primary plane, as the format requires.

Files:

- `dxv_types.dfy` (module `DxvTypes`, the header): the four big-endian FourCC
  tags, the parameter block `ThreadParams`, buffer and plane references,
  named constants, and C truncating division.
- `dxv_prepare.dfy` (module `DxvPrepare`): the format table, `av_clip`, the
  slice bounds and the two size formulas. Its lemmas cover the slice bounds,
  the absence of `int` overflow, exact block counts and the effect of the
  evaluation order.
- `dxv_dispatch.dfy` (module `DxvDispatch`): the dispatch plan as data. Each
  format maps to an ordered list of `Step` records. The lemmas cover the
  plane order, strides, blocks, buffer regions and direction independence.
- `dxv_context.dfy` (module `DxvContext`): two classes. `AVCodecContext` is
  the host; its `Execute2` appends a `Step` to the `executed` trace.
  `DXVContext` holds the fields the code mutates. Its methods `Prepare`,
  `Free`, `InnerTex`, `CompressInnerTex` and `DecompressInnerTex` are proved
  against the functions above.

Inputs that the code gets from outside:

- The allocator's answer to each reallocation request is a boolean parameter
  of `Prepare`.
- A frame is given by its eight line sizes. Its data pointers are modelled by
  their plane index.
- The texture DSP function table is modelled by the opaque `BlockCodec`
  identities.

Behaviour of the code that the model keeps as written:

- The sizes are computed left to right as `w / raw * h / 4 * tex * bpp`, not as
  `(w / raw) * (h / 4) * ...`. The two differ when the coded height is not a
  multiple of 4 (`LumaSizeVersusPerDimension`, `LumaSizeOrderExample`).
- For YCG6 at 64x32 the luma size is 1024 bytes and the chroma size 512
  bytes, because YCG6 luma uses raw ratio 4, not 8 (`Ycg6Example`).
- For DXT1 and DXT5 the chroma buffer and its size are left as they were, so
  a buffer allocated by an earlier YCG6 or YG10 preparation survives. The
  chroma slice count is still recomputed.
- A failed reallocation does not leave the old buffer usable. `av_reallocp`
  frees it and nulls the pointer.
- With a coded height below 4 (or below 8 for chroma), `av_clip(t, 1, 0)`
  returns 0 for any positive thread count (`SliceCountDegenerate`).
- The DXT formats divide the width by 16 before multiplying by 4 bytes per
  pixel. With the height a multiple of 4 and at least 4, the luma size
  counts every 4x4 block exactly when the coded width leaves a remainder
  below 4 modulo 16; among widths that are multiples of 4, that means
  multiples of 16. Otherwise it falls short (`LumaSizeCountsBlocks`,
  `DxtSizeUnalignedWidthExample`). YCG6 and YG10 divide the width by 4 and
  count every block for any width. The callers that align the coded size
  are not part of this model.

`Prepare` requires `coded_width` and `coded_height` to lie in
`[0, INT_MAX]` and `coded_width * coded_height <= INT_MAX`. This is weaker than libavcodec's
own image-size check. `LumaSizeFitsInt` and `ChromaSizeFitsInt` prove that
under it every intermediate of the size expressions fits in a C `int`.

## Model

| member | source | states |
|---|---|---|
| DxvTypes.MkBeTag | libavcodec/dxv.h:31-34 | a FourCC tag is the four bytes packed most significant first, a 32-bit unsigned value |
| DxvTypes.FourCCOfMkBeTag | libavcodec/dxv.h:31-34 | unpacking a big-endian tag gives back its four characters in order |
| DxvTypes.TagIsBigEndianName | libavcodec/dxv.h:30-35 | each of the four enumerator values is MkBeTag of the four characters of its own name DXT1, DXT5, YCG6, YG10, and reads back as that name |
| DxvTypes.TagsDistinct | libavcodec/dxv.h:31-34 | two formats have the same tag exactly when they are the same format, so the switches select one branch |
| DxvTypes.Tag | libavcodec/dxv.h:30-35 | each enumerator value is a 32-bit unsigned tag (`TagIsBigEndianName` ties each to its name) |
| DxvTypes.FromTag | libavcodec/dxv.c:32-66 | a recognised tag is the tag of the returned format; no format is returned exactly when no format has that tag |
| DxvTypes.FromTagOfTag | libavcodec/dxv.h:30-35 | recognising a format's own tag returns that format |
| DxvTypes.ErrorStatusesNegative | libavcodec/dxv.h:53-58 | the two error statuses returned by prepare, compress and decompress are negative and distinct, so they are told apart from success (0) |
| DxvTypes.CDiv | libavcodec/dxv.c:118-119 | C division truncates toward zero and agrees with floor division on non-negative operands |
| DxvPrepare.FormatLayout | libavcodec/dxv.c:32-62 | the chroma block is filled exactly for YCG6/YG10; bytes per pixel is 1 for them and 4 otherwise; ratios are positive; split-chroma formats use the single-channel codec for luma and chroma; the chroma slot holds two 8-byte codes |
| DxvPrepare.Clip | libavcodec/dxv.c:68-71 | with ordered bounds the result lies in them and equals the input when it is in range; it is always the input or a bound; an input below the lower bound gives the lower bound, and otherwise an input above the upper bound gives the upper bound, so with crossed bounds the upper bound wins for inputs at or above the lower one |
| DxvPrepare.LumaSlices | libavcodec/dxv.c:68-69 | with at least one block row the luma slice count lies in [1, rows] and equals the thread count exactly when that is in range; a thread count above the row count gives the row count |
| DxvPrepare.ChromaSlices | libavcodec/dxv.c:70-71 | the same for the half-height chroma planes, with at least 8 rows of pixels |
| DxvPrepare.SliceCountBounds | libavcodec/dxv.c:68-71 | with coded height at least 8 both slice counts lie in [1, bound], the chroma bound is the luma bound halved, chroma gets no more slices than luma, an in-range thread count is used as is, a thread count above a bound gives that bound, and a thread count below 1 gives 1 |
| DxvPrepare.SliceCountDegenerate | libavcodec/dxv.c:68-71 | with fewer than one block row (4, or 8 for chroma) a positive thread count yields zero slices |
| DxvPrepare.TexSize | libavcodec/dxv.c:73-76 | the luma size expression on non-negative dimensions is non-negative |
| DxvPrepare.CtexSize | libavcodec/dxv.c:82-84 | the chroma size expression on non-negative dimensions is non-negative |
| DxvPrepare.LumaTexSize | libavcodec/dxv.c:73-76 | the luma buffer size preparation computes for a format is non-negative and a whole number of that format's block codes (8 bytes for DXT1/YCG6, 16 for DXT5/YG10) |
| DxvPrepare.ChromaTexSize | libavcodec/dxv.c:82-84 | the chroma buffer size of YCG6/YG10 is non-negative and a whole number of 16-byte Co/Cg code pairs |
| DxvPrepare.ScaledBlockCountBound | libavcodec/dxv.c:73-76 | w / raw * h and w / raw * h / 4 * k stay in [0, w*h] when k is at most raw * 4 |
| DxvPrepare.LumaSizeFitsInt | libavcodec/dxv.c:73-76 | when w, h and w*h fit in an int, the two intermediate products of the luma size expression lie in [0, INT_MAX] and the size itself in [0, w*h] |
| DxvPrepare.ChromaSizeFitsInt | libavcodec/dxv.c:82-84 | when w, h and w*h fit in an int, the first product of the chroma size expression lies in [0, INT_MAX] and the size itself in [0, w*h] |
| DxvPrepare.LumaSizeCountsBlocks | libavcodec/dxv.c:73-76 | for height a multiple of 4 the luma size is at most the number of 4x4 blocks times the format's block-code bytes, and equals it exactly when the format is YCG6/YG10, or the width leaves less than 4 modulo 16, or the height is 0 |
| DxvPrepare.ChromaSizeCountsBlocks | libavcodec/dxv.c:82-84 | for width and height multiples of 8 the chroma size is exactly two 8-byte codes per 4x4 block of the half-size planes |
| DxvPrepare.LumaSizeVersusPerDimension | libavcodec/dxv.c:73-76 | dividing left to right never gives less than dividing each dimension separately, and the same when the height is a multiple of 4 |
| DxvPrepare.LumaSizeOrderExample | libavcodec/dxv.c:73-76 | DXT5 at 32x6 gets 192 bytes where per-dimension division would give 128 |
| DxvPrepare.Ycg6Example | libavcodec/dxv.c:45-84 | YCG6 at 64x32: luma size 1024, chroma size 512, 8 luma and 4 chroma slices with eight or more threads |
| DxvPrepare.DxtSizeUnalignedWidthExample | libavcodec/dxv.c:73-76 | DXT1 at 20x400 gets 3200 bytes for 500 blocks needing 4000 |
| DxvDispatch.HalfDims | libavcodec/dxv.c:118-119 | the chroma context's coded size is the coded size halved, rounded down for non-negative sizes |
| DxvDispatch.Aimed | libavcodec/dxv.c:143-145 | aiming a block sets its buffer region, frame plane and that plane's stride and keeps codec, ratios and slice count |
| DxvDispatch.Plan | libavcodec/dxv.c:104-151 | the fallthrough switch as a list of runs: one run for DXT1/DXT5, more for YCG6/YG10, at most four, and the last run is always the luma block aimed at the start of the luma buffer and plane 0 with its slice count as job count |
| DxvDispatch.PlanPlanes | libavcodec/dxv.c:104-151 | the plan visits planes [3,2,1,0] for YG10, [2,1,0] for YCG6 and [0] for DXT1/DXT5, and buffer regions [luma+tex/2, chroma+0, chroma+ctex/2, luma+0], [chroma+0, chroma+ctex/2, luma+0] and [luma+0] respectively; each run's stride is its own plane's line size and its job count its block's slice count |
| DxvDispatch.PlanPlanesDecreasing | libavcodec/dxv.c:104-151 | planes are visited in strictly decreasing order, hence at most once each, and the last run is plane 0 |
| DxvDispatch.PlanBlocks | libavcodec/dxv.c:104-151 | luma-buffer runs use the luma block at full size; chroma-buffer runs use the chroma block at half size; only region, plane and stride differ from the prepared block |
| DxvDispatch.PlanBuffers | libavcodec/dxv.c:104-151 | chroma runs occur exactly for YCG6/YG10 and the alpha plane is used exactly for YG10 |
| DxvDispatch.PlanRegionsDisjoint | libavcodec/dxv.c:104-151 | when each block slot is wide enough for its codes (two codes for the YG10 luma slot and the chroma slot), each run's code bytes lie inside its block's slot and two runs on the same buffer cover disjoint bytes |
| DxvDispatch.PlanDirectionIndependent | libavcodec/dxv.c:162-167 | compression and decompression issue the same runs, differing only in the worker |
| DxvContext.AVCodecContext.Execute2 | libavcodec/dxv.c:111-115 | a parallel-execute call appends one step with its worker, context size, parameter block and job count to the trace |
| DxvContext.DXVContext.constructor | libavcodec/dxv.h:37-51 | a zeroed context: both pointers null, both sizes 0, both parameter blocks unset |
| DxvContext.DXVContext.Prepare | libavcodec/dxv.c:27-92 | an unknown tag returns AVERROR_INVALIDDATA with nothing changed; otherwise the luma block gets the table entry and luma slice count; the chroma block gets the table entry only for split chroma and the chroma slice count always; tex_size is the left-to-right formula; the luma buffer becomes size plus padding or, on failure, null with AVERROR(ENOMEM) returned and chroma untouched; for split chroma ctex_size and its buffer follow likewise; otherwise chroma is untouched and 0 returned; sizes stay non-negative and allocated buffers hold size plus padding |
| DxvContext.DXVContext.ApplyFormatTable | libavcodec/dxv.c:32-66 | the switch recognises exactly the four tags, writes the table entry into the luma block and, for split chroma, the chroma block, reports bytes per pixel, and changes nothing for an unknown tag |
| DxvContext.DXVContext.Free | libavcodec/dxv.c:94-97 | both buffer pointers are null afterwards, whatever they were, so a second call is harmless |
| DxvContext.DXVContext.InnerTex | libavcodec/dxv.c:99-160 | an unknown tag returns AVERROR_INVALIDDATA with no execute call and no block changed; otherwise returns 0 after appending exactly the format's plan to the trace, leaving the luma block aimed at plane 0 and the chroma block at Cg for split chroma |
| DxvContext.DXVContext.RunAlpha | libavcodec/dxv.c:105-116 | the alpha run: luma block at tex_ratio/2 into the luma buffer, plane 3, full size |
| DxvContext.DXVContext.RunChroma | libavcodec/dxv.c:117-139 | the Co run at chroma offset 0 from plane 2, then the Cg run at chroma tex_ratio/2 from plane 1, both on the half-size context |
| DxvContext.DXVContext.RunPrimary | libavcodec/dxv.c:140-151 | the primary run: luma block at offset 0, plane 0, full size |
| DxvContext.DXVContext.CompressInnerTex | libavcodec/dxv.c:162-164 | the format's plan with the compress worker, leaving the luma block aimed at plane 0 and the chroma block at Cg for split chroma; or AVERROR_INVALIDDATA with no call and no block changed |
| DxvContext.DXVContext.DecompressInnerTex | libavcodec/dxv.c:165-167 | the format's plan with the decompress worker, leaving the luma block aimed at plane 0 and the chroma block at Cg for split chroma; or AVERROR_INVALIDDATA with no call and no block changed |
| DxvContext.PreparedPlanSlicesFit | libavcodec/dxv.c:68-71 | after preparation with coded height at least 8, every run gets between 1 and its plane's number of block rows jobs |
| DxvContext.PreparedPlanRegionsDisjoint | libavcodec/dxv.c:104-151 | with the ratios preparation sets, every run's code lies inside its block slot and runs on the same buffer never share a byte: alpha and Y split the 16-byte YG10 luma slot, Co and Cg the 16-byte chroma slot |
| DxvContext.PrepareIdempotent | libavcodec/dxv.c:27-92 | preparing twice with the same inputs and allocator answers gives the same status, sizes, buffers and parameter blocks as preparing once |

## Left out

- The block codecs (`dxt1_block`, `dxt5_block`, `rgtc1u_gray_block`) and the slice workers `ff_texturedsp_compress_thread` and `ff_texturedsp_decompress_thread` are only opaque identities. texturedsp is not part of this model, so the round trip through compression and decompression is not stated.
- The parallel execution inside `execute2` belongs to the host. Each call is one entry in a sequential trace, and how a call splits block rows among slices is not modelled.
- The allocator's semantics are not modelled: contents preservation and the allocation itself. A reallocation succeeds or fails as the caller-supplied answer says. On failure the pointer is freed and nulled, as `av_reallocp` documents; `libavutil/mem.c` is not part of this model.
- `av_log` diagnostics (dxv.c:64, dxv.c:153-156) produce no output in the model.
- `MKBETAG`, `TEXTURE_BLOCK_H`, `AV_INPUT_BUFFER_PADDING_SIZE`, `AVERROR_INVALIDDATA` and `AVERROR(ENOMEM)` come from headers that are not part of this model. They are named constants: big-endian packing as the macro's name says, 4, 64 (only its positivity matters), the negated tag "INDA", and -12.
- `av_clip` is modelled by its branch order. The abort that debug builds perform when the bounds cross is left out.
- The fields of the stack context `avctx_cocg` other than its coded width and height are not modelled.
- The `process_outer_tex` hook (dxv.h:50) and the outer DXV bitstream parsing are not part of this model.
- The `in`/`out` union members through which the two directions store the same pointers are not distinguished. Only the worker differs between the directions.
