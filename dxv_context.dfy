/** The DXV context and the operations that mutate it: preparation, freeing,
    and the compress/decompress plane dispatch, which issues its runs on a
    host codec context that records every parallel-execute call. */
module DxvContext {
  import opened DxvTypes
  import opened DxvPrepare
  import opened DxvDispatch

  /** The host codec context: the coded size and thread count it offers, and
      the log of the parallel-execute calls made on it. */
  class AVCodecContext {
    var codedWidth: int
    var codedHeight: int
    var threadCount: int
    var executed: seq<Step>

    constructor (width: int, height: int, threads: int)
      ensures codedWidth == width && codedHeight == height && threadCount == threads
      ensures executed == []
    {
      codedWidth, codedHeight, threadCount := width, height, threads;
      executed := [];
    }

    function Dims(): Dims
      reads this
    {
      DxvDispatch.Dims(codedWidth, codedHeight)
    }

    /** Runs `worker` over `count` slices with `arg`, on a context of size
        `on`, and returns once all slices are done; only the call is recorded. */
    method Execute2(on: Dims, worker: Worker, arg: ThreadParams, count: int)
      modifies this`executed
      ensures executed == old(executed) + [Step(worker, on, arg, count)]
    {
      executed := executed + [Step(worker, on, arg, count)];
    }
  }

  class DXVContext {
    var texFmt: int
    var texData: Alloc
    var texSize: int
    var ctexData: Alloc
    var ctexSize: int
    var texDsp: ThreadParams
    var ctexDsp: ThreadParams

    /** Sizes are never negative, and an allocated buffer holds its size
        field's worth of bytes plus the padding. */
    ghost predicate Valid()
      reads this
    {
      texSize >= 0 && ctexSize >= 0 &&
      (texData.Block? ==> texData.length == texSize + AV_INPUT_BUFFER_PADDING_SIZE) &&
      (ctexData.Block? ==> ctexData.length == ctexSize + AV_INPUT_BUFFER_PADDING_SIZE)
    }

    /** A zero-filled context whose format tag the caller has read from the stream. */
    constructor (fmt: int)
      ensures Valid() && texFmt == fmt
      ensures texData == Null && ctexData == Null && texSize == 0 && ctexSize == 0
      ensures texDsp == ZeroParams && ctexDsp == ZeroParams
    {
      texFmt := fmt;
      texData, texSize := Null, 0;
      ctexData, ctexSize := Null, 0;
      texDsp, ctexDsp := ZeroParams, ZeroParams;
    }

    /** Fills in the parameter blocks for the context's format and sizes and
        (re)allocates the compressed buffers; the allocator's answer for the
        luma and chroma requests is given by `texAllocOk` and `ctexAllocOk`. */
    method Prepare(avctx: AVCodecContext, texAllocOk: bool, ctexAllocOk: bool) returns (ret: int)
      requires Valid()
      requires DimsFitInt(avctx.codedWidth, avctx.codedHeight)
      modifies this
      ensures Valid() && texFmt == old(texFmt)
      ensures ret == 0 || ret == AVERROR_INVALIDDATA || ret == AVERROR_ENOMEM
      // an unknown tag is rejected before anything is touched
      ensures FromTag(texFmt).None? ==>
        ret == AVERROR_INVALIDDATA &&
        texData == old(texData) && texSize == old(texSize) && ctexData == old(ctexData) &&
        ctexSize == old(ctexSize) && texDsp == old(texDsp) && ctexDsp == old(ctexDsp)
      ensures FromTag(texFmt).Some? ==>
        var f := FromTag(texFmt).value;
        var l := FormatLayout(f);
        var w, h, t := avctx.codedWidth, avctx.codedHeight, avctx.threadCount;
        // luma block: table entry and slice count
        texDsp == old(texDsp).(texFunct := l.luma.codec, texRatio := l.luma.texRatio,
                               rawRatio := l.luma.rawRatio, sliceCount := LumaSlices(t, h)) &&
        // chroma block: table entry only for split chroma, slice count always
        ctexDsp == (if l.chroma.Some? then
                      old(ctexDsp).(texFunct := l.chroma.value.codec, texRatio := l.chroma.value.texRatio,
                                    rawRatio := l.chroma.value.rawRatio, sliceCount := ChromaSlices(t, h))
                    else old(ctexDsp).(sliceCount := ChromaSlices(t, h))) &&
        texSize == LumaTexSize(f, w, h) && texSize <= INT_MAX &&
        texData == (if texAllocOk then Block(texSize + AV_INPUT_BUFFER_PADDING_SIZE) else Null) &&
        // a failed luma allocation skips the chroma buffer
        (!texAllocOk ==> ret == AVERROR_ENOMEM && ctexSize == old(ctexSize) && ctexData == old(ctexData)) &&
        // the chroma buffer is touched only for split chroma
        (texAllocOk && !IsSplitChroma(f) ==>
          ret == 0 && ctexSize == old(ctexSize) && ctexData == old(ctexData)) &&
        (texAllocOk && IsSplitChroma(f) ==>
          ctexSize == ChromaTexSize(f, w, h) && ctexSize <= INT_MAX &&
          ctexData == (if ctexAllocOk then Block(ctexSize + AV_INPUT_BUFFER_PADDING_SIZE) else Null) &&
          ret == (if ctexAllocOk then 0 else AVERROR_ENOMEM))
    {
      var known, bytesPerPixel := ApplyFormatTable();
      if !known {
        return AVERROR_INVALIDDATA;
      }
      ghost var f := FromTag(texFmt).value;
      var w, h := avctx.codedWidth, avctx.codedHeight;

      texDsp := texDsp.(sliceCount := Clip(avctx.threadCount, 1, h / TEXTURE_BLOCK_H));
      ctexDsp := ctexDsp.(sliceCount := Clip(avctx.threadCount, 1, h / 2 / TEXTURE_BLOCK_H));

      LumaSizeFitsInt(f, w, h);
      texSize := TexSize(w, h, Ratios(texDsp.texFunct, texDsp.texRatio, texDsp.rawRatio), bytesPerPixel);
      if !texAllocOk {
        texData := Null;
        return AVERROR_ENOMEM;
      }
      texData := Block(texSize + AV_INPUT_BUFFER_PADDING_SIZE);

      if bytesPerPixel == 1 {
        ChromaSizeFitsInt(f, w, h);
        ctexSize := CtexSize(w, h, Ratios(ctexDsp.texFunct, ctexDsp.texRatio, ctexDsp.rawRatio));
        if !ctexAllocOk {
          ctexData := Null;
          return AVERROR_ENOMEM;
        }
        ctexData := Block(ctexSize + AV_INPUT_BUFFER_PADDING_SIZE);
      }
      return 0;
    }

    /** The format switch: fills in the codec and ratios of the luma block,
        and of the chroma block for split-chroma formats, and reports the
        bytes per pixel; an unknown tag changes nothing. */
    method ApplyFormatTable() returns (known: bool, bytesPerPixel: int)
      modifies this`texDsp, this`ctexDsp
      ensures known <==> FromTag(texFmt).Some?
      ensures !known ==> texDsp == old(texDsp) && ctexDsp == old(ctexDsp)
      ensures known ==>
        var l := FormatLayout(FromTag(texFmt).value);
        bytesPerPixel == l.bytesPerPixel &&
        texDsp == old(texDsp).(texFunct := l.luma.codec, texRatio := l.luma.texRatio, rawRatio := l.luma.rawRatio) &&
        ctexDsp == if l.chroma.Some? then
          old(ctexDsp).(texFunct := l.chroma.value.codec, texRatio := l.chroma.value.texRatio,
                        rawRatio := l.chroma.value.rawRatio)
        else old(ctexDsp)
    {
      known := true;
      if texFmt == DXV_FMT_DXT1 {
        texDsp := texDsp.(texFunct := Dxt1Block, texRatio := 8, rawRatio := 16);
        bytesPerPixel := 4;
      } else if texFmt == DXV_FMT_DXT5 {
        texDsp := texDsp.(texFunct := Dxt5Block, texRatio := 16, rawRatio := 16);
        bytesPerPixel := 4;
      } else if texFmt == DXV_FMT_YCG6 {
        texDsp := texDsp.(texFunct := Rgtc1uGrayBlock, texRatio := 8, rawRatio := 4);
        ctexDsp := ctexDsp.(texFunct := Rgtc1uGrayBlock, texRatio := 16, rawRatio := 4);
        bytesPerPixel := 1;
      } else if texFmt == DXV_FMT_YG10 {
        texDsp := texDsp.(texFunct := Rgtc1uGrayBlock, texRatio := 16, rawRatio := 4);
        ctexDsp := ctexDsp.(texFunct := Rgtc1uGrayBlock, texRatio := 16, rawRatio := 4);
        bytesPerPixel := 1;
      } else {
        known, bytesPerPixel := false, 0;
      }
    }

    /** Releases both buffers and nulls both pointers; freeing a null pointer
        does nothing, so a second call is harmless. */
    method Free()
      modifies this`texData, this`ctexData
      ensures texData == Null && ctexData == Null
    {
      texData := Null;
      ctexData := Null;
    }

    /** The dispatch skeleton shared by both directions: one parallel run
        per plane of the context's format, in the order the format needs. */
    method InnerTex(avctx: AVCodecContext, linesize: seq<int>, worker: Worker) returns (ret: int)
      requires |linesize| == AV_NUM_DATA_POINTERS
      modifies this`texDsp, this`ctexDsp, avctx`executed
      ensures FromTag(texFmt).None? ==>
        ret == AVERROR_INVALIDDATA &&
        avctx.executed == old(avctx.executed) && texDsp == old(texDsp) && ctexDsp == old(ctexDsp)
      ensures FromTag(texFmt).Some? ==>
        var f := FromTag(texFmt).value;
        ret == 0 &&
        avctx.executed == old(avctx.executed) + Plan(f, worker, avctx.Dims(), old(texDsp), old(ctexDsp), linesize) &&
        // each block is left aimed at the last plane it was used for
        texDsp == Aimed(old(texDsp), Region(TexData, 0), 0, linesize) &&
        ctexDsp == (if IsSplitChroma(f) then
                      Aimed(old(ctexDsp), Region(CtexData, CDiv(old(ctexDsp).texRatio, 2)), 1, linesize)
                    else old(ctexDsp))
    {
      if texFmt == DXV_FMT_YG10 {
        RunAlpha(avctx, linesize, worker);
      }
      if texFmt == DXV_FMT_YG10 || texFmt == DXV_FMT_YCG6 {
        RunChroma(avctx, linesize, worker);
      }
      if texFmt == DXV_FMT_YG10 || texFmt == DXV_FMT_YCG6 || texFmt == DXV_FMT_DXT1 || texFmt == DXV_FMT_DXT5 {
        RunPrimary(avctx, linesize, worker);
        return 0;
      }
      return AVERROR_INVALIDDATA;
    }

    /** Alpha: the luma block pointed half a code into the luma buffer and at plane 3. */
    method RunAlpha(avctx: AVCodecContext, linesize: seq<int>, worker: Worker)
      requires |linesize| == AV_NUM_DATA_POINTERS
      modifies this`texDsp, avctx`executed
      ensures texDsp == Aimed(old(texDsp), Region(TexData, CDiv(old(texDsp).texRatio, 2)), 3, linesize)
      ensures avctx.executed == old(avctx.executed) + AlphaRun(worker, avctx.Dims(), old(texDsp), linesize)
    {
      texDsp := texDsp.(texData := Region(TexData, CDiv(texDsp.texRatio, 2)));
      texDsp := texDsp.(frameData := Plane(3));
      texDsp := texDsp.(stride := linesize[3]);
      avctx.Execute2(avctx.Dims(), worker, texDsp, texDsp.sliceCount);
    }

    /** Co then Cg: the chroma block at offsets 0 and half a code, planes 2
        and 1, issued on a context of half the coded size. */
    method RunChroma(avctx: AVCodecContext, linesize: seq<int>, worker: Worker)
      requires |linesize| == AV_NUM_DATA_POINTERS
      modifies this`ctexDsp, avctx`executed
      ensures ctexDsp == Aimed(old(ctexDsp), Region(CtexData, CDiv(old(ctexDsp).texRatio, 2)), 1, linesize)
      ensures avctx.executed == old(avctx.executed) + ChromaRuns(worker, avctx.Dims(), old(ctexDsp), linesize)
    {
      var cocg := DxvDispatch.Dims(CDiv(avctx.codedWidth, 2), CDiv(avctx.codedHeight, 2));
      ctexDsp := ctexDsp.(texData := Region(CtexData, 0));
      ctexDsp := ctexDsp.(frameData := Plane(2));
      ctexDsp := ctexDsp.(stride := linesize[2]);
      avctx.Execute2(cocg, worker, ctexDsp, ctexDsp.sliceCount);
      ctexDsp := ctexDsp.(texData := Region(CtexData, CDiv(ctexDsp.texRatio, 2)));
      ctexDsp := ctexDsp.(frameData := Plane(1));
      ctexDsp := ctexDsp.(stride := linesize[1]);
      avctx.Execute2(cocg, worker, ctexDsp, ctexDsp.sliceCount);
    }

    /** RGBA or Y: the luma block at the start of the luma buffer and at plane 0. */
    method RunPrimary(avctx: AVCodecContext, linesize: seq<int>, worker: Worker)
      requires |linesize| == AV_NUM_DATA_POINTERS
      modifies this`texDsp, avctx`executed
      ensures texDsp == Aimed(old(texDsp), Region(TexData, 0), 0, linesize)
      ensures avctx.executed == old(avctx.executed) + PrimaryRun(worker, avctx.Dims(), old(texDsp), linesize)
    {
      texDsp := texDsp.(texData := Region(TexData, 0));
      texDsp := texDsp.(frameData := Plane(0));
      texDsp := texDsp.(stride := linesize[0]);
      avctx.Execute2(avctx.Dims(), worker, texDsp, texDsp.sliceCount);
    }

    /** Compression direction: the compress slice worker on every plane run. */
    method CompressInnerTex(avctx: AVCodecContext, linesize: seq<int>) returns (ret: int)
      requires |linesize| == AV_NUM_DATA_POINTERS
      modifies this`texDsp, this`ctexDsp, avctx`executed
      ensures FromTag(texFmt).None? ==>
        ret == AVERROR_INVALIDDATA &&
        avctx.executed == old(avctx.executed) && texDsp == old(texDsp) && ctexDsp == old(ctexDsp)
      ensures FromTag(texFmt).Some? ==>
        var f := FromTag(texFmt).value;
        ret == 0 &&
        avctx.executed == old(avctx.executed) + Plan(f, CompressThread, avctx.Dims(), old(texDsp), old(ctexDsp), linesize) &&
        texDsp == Aimed(old(texDsp), Region(TexData, 0), 0, linesize) &&
        ctexDsp == (if IsSplitChroma(f) then
                      Aimed(old(ctexDsp), Region(CtexData, CDiv(old(ctexDsp).texRatio, 2)), 1, linesize)
                    else old(ctexDsp))
    {
      ret := InnerTex(avctx, linesize, CompressThread);
    }

    /** Decompression direction: the decompress slice worker on every plane run. */
    method DecompressInnerTex(avctx: AVCodecContext, linesize: seq<int>) returns (ret: int)
      requires |linesize| == AV_NUM_DATA_POINTERS
      modifies this`texDsp, this`ctexDsp, avctx`executed
      ensures FromTag(texFmt).None? ==>
        ret == AVERROR_INVALIDDATA &&
        avctx.executed == old(avctx.executed) && texDsp == old(texDsp) && ctexDsp == old(ctexDsp)
      ensures FromTag(texFmt).Some? ==>
        var f := FromTag(texFmt).value;
        ret == 0 &&
        avctx.executed == old(avctx.executed) + Plan(f, DecompressThread, avctx.Dims(), old(texDsp), old(ctexDsp), linesize) &&
        texDsp == Aimed(old(texDsp), Region(TexData, 0), 0, linesize) &&
        ctexDsp == (if IsSplitChroma(f) then
                      Aimed(old(ctexDsp), Region(CtexData, CDiv(old(ctexDsp).texRatio, 2)), 1, linesize)
                    else old(ctexDsp))
    {
      ret := InnerTex(avctx, linesize, DecompressThread);
    }
  }

  /** After preparation with at least two chroma block rows and a positive
      thread count, every run of the plan gets at least one job and no more
      jobs than its plane has rows of blocks. */
  lemma {:induction false} PreparedPlanSlicesFit(f: TexFmt, worker: Worker, w: int, h: int, threads: int,
                                                 luma: ThreadParams, chroma: ThreadParams, linesize: seq<int>)
    requires |linesize| == AV_NUM_DATA_POINTERS
    requires 0 <= w && h >= 8
    requires luma.sliceCount == LumaSlices(threads, h) && chroma.sliceCount == ChromaSlices(threads, h)
    ensures var p := Plan(f, worker, DxvDispatch.Dims(w, h), luma, chroma, linesize);
      forall i :: 0 <= i < |p| ==> 1 <= p[i].jobs <= p[i].dims.height / TEXTURE_BLOCK_H
  {
    SliceCountBounds(threads, h);
    var p := Plan(f, worker, DxvDispatch.Dims(w, h), luma, chroma, linesize);
    PlanBlocks(f, worker, DxvDispatch.Dims(w, h), luma, chroma, linesize);
    PlanPlanes(f, worker, DxvDispatch.Dims(w, h), luma, chroma, linesize);
    forall i | 0 <= i < |p|
      ensures 1 <= p[i].jobs <= p[i].dims.height / TEXTURE_BLOCK_H
    {
      if p[i].block.texData.buffer == CtexData {
        assert p[i].dims.height == h / 2;
      }
    }
  }

  /** After preparation the ratios are those of the table, so every run's
      code lies inside its block slot and no two runs on the same buffer
      share a byte: alpha and Y split the 16-byte YG10 luma slot, Co and Cg
      the 16-byte chroma slot. */
  lemma {:induction false} PreparedPlanRegionsDisjoint(f: TexFmt, worker: Worker, full: DxvDispatch.Dims,
                                                       luma: ThreadParams, chroma: ThreadParams, linesize: seq<int>)
    requires |linesize| == AV_NUM_DATA_POINTERS
    requires luma.texRatio == FormatLayout(f).luma.texRatio
    requires IsSplitChroma(f) ==> chroma.texRatio == FormatLayout(f).chroma.value.texRatio
    ensures var p := Plan(f, worker, full, luma, chroma, linesize);
      var n := RunCodeBytes(f);
      (forall i :: 0 <= i < |p| ==>
        p[i].block.texData.Region? && 0 <= p[i].block.texData.offset &&
        p[i].block.texData.offset + n <= p[i].block.texRatio) &&
      (forall i, j ::
        (0 <= i < j < |p| && p[i].block.texData.Region? && p[j].block.texData.Region? &&
         p[i].block.texData.buffer == p[j].block.texData.buffer)
        ==>
        p[i].block.texData.offset + n <= p[j].block.texData.offset ||
        p[j].block.texData.offset + n <= p[i].block.texData.offset)
  {
    PlanRegionsDisjoint(f, worker, full, luma, chroma, linesize);
  }

  /** The part of a context that preparation writes. */
  datatype PreparedState = PreparedState(texSize: int, texData: Alloc, ctexSize: int, ctexData: Alloc,
                                         texDsp: ThreadParams, ctexDsp: ThreadParams)

  /** Preparing twice with the same host context and allocator answers
      leaves the same status, sizes, buffers and parameter blocks as
      preparing once. */
  method PrepareIdempotent(ctx: DXVContext, avctx: AVCodecContext, texAllocOk: bool, ctexAllocOk: bool)
    returns (r1: int, r2: int, once: PreparedState, twice: PreparedState)
    requires ctx.Valid() && DimsFitInt(avctx.codedWidth, avctx.codedHeight)
    modifies ctx
    ensures r1 == r2 && once == twice
    ensures twice == PreparedState(ctx.texSize, ctx.texData, ctx.ctexSize, ctx.ctexData, ctx.texDsp, ctx.ctexDsp)
  {
    r1 := ctx.Prepare(avctx, texAllocOk, ctexAllocOk);
    once := PreparedState(ctx.texSize, ctx.texData, ctx.ctexSize, ctx.ctexData, ctx.texDsp, ctx.ctexDsp);
    r2 := ctx.Prepare(avctx, texAllocOk, ctexAllocOk);
    twice := PreparedState(ctx.texSize, ctx.texData, ctx.ctexSize, ctx.ctexData, ctx.texDsp, ctx.ctexDsp);
  }
}
