/** The plane dispatch as data: for each texture format, the ordered list of
    "process one plane" runs that the compress and decompress entry points
    hand to the host's parallel executor. */
module DxvDispatch {
  import opened DxvTypes
  import opened DxvPrepare

  /** The coded dimensions of the codec context a run is issued on. */
  datatype Dims = Dims(width: int, height: int)

  /** One call of the host's parallel executor: the worker, the coded size of
      the context it was issued on, the parameter block it was given and the
      number of jobs. */
  datatype Step = Step(worker: Worker, dims: Dims, block: ThreadParams, jobs: int)

  /** The context the chroma runs are issued on: coded size halved with C
      division. */
  function HalfDims(full: Dims): (d: Dims)
    ensures full.width >= 0 && full.height >= 0 ==>
      2 * d.width <= full.width < 2 * d.width + 2 && 2 * d.height <= full.height < 2 * d.height + 2
  {
    Dims(CDiv(full.width, 2), CDiv(full.height, 2))
  }

  /** A parameter block pointed at a buffer region and a frame plane, with
      that plane's line size as stride; its codec, ratios and slice count are
      left as they were. */
  function Aimed(b: ThreadParams, region: Region, plane: int, linesize: seq<int>): (r: ThreadParams)
    requires 0 <= plane < |linesize|
    ensures r.texFunct == b.texFunct && r.texRatio == b.texRatio && r.rawRatio == b.rawRatio
    ensures r.sliceCount == b.sliceCount
    ensures r.frameData == Plane(plane) && r.stride == linesize[plane] && r.texData == region
  {
    b.(texData := region, frameData := Plane(plane), stride := linesize[plane])
  }

  /** One run: the block aimed at a region and a plane, with its own slice count as job count. */
  function PlaneStep(worker: Worker, dims: Dims, b: ThreadParams, region: Region, plane: int,
                     linesize: seq<int>): Step
    requires 0 <= plane < |linesize|
  {
    Step(worker, dims, Aimed(b, region, plane, linesize), b.sliceCount)
  }

  /** The primary plane: luma buffer at offset 0, frame plane 0, full size. */
  function PrimaryRun(worker: Worker, full: Dims, luma: ThreadParams, linesize: seq<int>): seq<Step>
    requires |linesize| == AV_NUM_DATA_POINTERS
  {
    [PlaneStep(worker, full, luma, Region(TexData, 0), 0, linesize)]
  }

  /** The two chroma channels: Co at the start of the chroma buffer from plane
      2, then Cg half a block code further from plane 1, both at half size. */
  function ChromaRuns(worker: Worker, full: Dims, chroma: ThreadParams, linesize: seq<int>): seq<Step>
    requires |linesize| == AV_NUM_DATA_POINTERS
  {
    [PlaneStep(worker, HalfDims(full), chroma, Region(CtexData, 0), 2, linesize),
     PlaneStep(worker, HalfDims(full), chroma, Region(CtexData, CDiv(chroma.texRatio, 2)), 1, linesize)]
  }

  /** The alpha plane: luma buffer half a block code in, frame plane 3, full size. */
  function AlphaRun(worker: Worker, full: Dims, luma: ThreadParams, linesize: seq<int>): seq<Step>
    requires |linesize| == AV_NUM_DATA_POINTERS
  {
    [PlaneStep(worker, full, luma, Region(TexData, CDiv(luma.texRatio, 2)), 3, linesize)]
  }

  /** The runs a format needs, in order: YG10 adds alpha in front of YCG6,
      YCG6 adds the chroma pair in front of the primary plane. */
  function Plan(f: TexFmt, worker: Worker, full: Dims, luma: ThreadParams, chroma: ThreadParams,
                linesize: seq<int>): (p: seq<Step>)
    requires |linesize| == AV_NUM_DATA_POINTERS
    ensures 1 <= |p| <= 4 && (|p| == 1 <==> !IsSplitChroma(f))
    // every format ends with the primary plane, read from the start of the luma buffer
    ensures p[|p| - 1] == Step(worker, full, Aimed(luma, Region(TexData, 0), 0, linesize), luma.sliceCount)
  {
    match f
    case DXT1 | DXT5 => PrimaryRun(worker, full, luma, linesize)
    case YCG6 => ChromaRuns(worker, full, chroma, linesize) + PrimaryRun(worker, full, luma, linesize)
    case YG10 => AlphaRun(worker, full, luma, linesize) + ChromaRuns(worker, full, chroma, linesize)
                 + PrimaryRun(worker, full, luma, linesize)
  }

  /** The frame planes a format's runs visit, in order. */
  function PlaneOrder(f: TexFmt): seq<int>
  {
    match f
    case DXT1 | DXT5 => [0]
    case YCG6 => [2, 1, 0]
    case YG10 => [3, 2, 1, 0]
  }

  /** The buffer regions a format's runs read or write, in order: alpha half
      a luma slot in, Co at the start and Cg half a chroma slot into the
      chroma buffer, and the primary plane at the start of the luma buffer. */
  function RegionOrder(f: TexFmt, lumaRatio: int, chromaRatio: int): seq<Region>
  {
    var alpha := Region(TexData, CDiv(lumaRatio, 2));
    var co, cg := Region(CtexData, 0), Region(CtexData, CDiv(chromaRatio, 2));
    var primary := Region(TexData, 0);
    match f
    case DXT1 | DXT5 => [primary]
    case YCG6 => [co, cg, primary]
    case YG10 => [alpha, co, cg, primary]
  }

  /** Bytes one run covers in each block slot: the whole DXT1 or DXT5 block,
      or one single-channel code for the split-chroma formats. */
  function RunCodeBytes(f: TexFmt): int
  {
    if IsSplitChroma(f) then RGTC1_CODE_BYTES else LumaBlockBytes(f)
  }

  function PlaneOf(s: Step): int
  {
    if s.block.frameData.Plane? then s.block.frameData.index else -1
  }

  /** The plan visits exactly the planes of PlaneOrder, each run reads its
      stride from its own plane, and its job count is its block's slice count. */
  lemma {:induction false} PlanPlanes(f: TexFmt, worker: Worker, full: Dims, luma: ThreadParams,
                                      chroma: ThreadParams, linesize: seq<int>)
    requires |linesize| == AV_NUM_DATA_POINTERS
    ensures var p := Plan(f, worker, full, luma, chroma, linesize);
      |p| == |PlaneOrder(f)| &&
      (forall i :: 0 <= i < |p| ==> p[i].block.frameData == Plane(PlaneOrder(f)[i])) &&
      (forall i :: 0 <= i < |p| ==> p[i].block.stride == linesize[PlaneOrder(f)[i]]) &&
      (forall i :: 0 <= i < |p| ==> p[i].block.texData == RegionOrder(f, luma.texRatio, chroma.texRatio)[i]) &&
      (forall i :: 0 <= i < |p| ==> p[i].jobs == p[i].block.sliceCount && p[i].worker == worker)
  {
  }

  /** Planes are visited in strictly decreasing order, hence each at most
      once, and the last run is always the primary plane 0. */
  lemma {:induction false} PlanPlanesDecreasing(f: TexFmt, worker: Worker, full: Dims, luma: ThreadParams,
                                                chroma: ThreadParams, linesize: seq<int>)
    requires |linesize| == AV_NUM_DATA_POINTERS
    ensures var p := Plan(f, worker, full, luma, chroma, linesize);
      |p| >= 1 && PlaneOf(p[|p| - 1]) == 0 &&
      (forall i, j :: 0 <= i < j < |p| ==> PlaneOf(p[i]) > PlaneOf(p[j]))
  {
    var p := Plan(f, worker, full, luma, chroma, linesize);
    PlanPlanes(f, worker, full, luma, chroma, linesize);
    assert forall i :: 0 <= i < |p| ==> PlaneOf(p[i]) == PlaneOrder(f)[i];
  }

  /** Runs on the luma buffer use the luma block at full size; runs on the
      chroma buffer use the chroma block at half size. Only the region,
      plane and stride of a block are changed for a run. */
  lemma {:induction false} PlanBlocks(f: TexFmt, worker: Worker, full: Dims, luma: ThreadParams,
                                      chroma: ThreadParams, linesize: seq<int>)
    requires |linesize| == AV_NUM_DATA_POINTERS
    ensures var p := Plan(f, worker, full, luma, chroma, linesize);
      forall i :: 0 <= i < |p| ==>
        p[i].block.texData.Region? &&
        (p[i].block.texData.buffer == TexData ==>
          p[i].dims == full && p[i].block == Aimed(luma, p[i].block.texData, PlaneOf(p[i]), linesize)) &&
        (p[i].block.texData.buffer == CtexData ==>
          p[i].dims == HalfDims(full) && p[i].block == Aimed(chroma, p[i].block.texData, PlaneOf(p[i]), linesize))
  {
  }

  /** Chroma runs happen exactly for the split-chroma formats, the alpha run
      exactly for YG10. */
  lemma {:induction false} PlanBuffers(f: TexFmt, worker: Worker, full: Dims, luma: ThreadParams,
                                       chroma: ThreadParams, linesize: seq<int>)
    requires |linesize| == AV_NUM_DATA_POINTERS
    ensures var p := Plan(f, worker, full, luma, chroma, linesize);
      (IsSplitChroma(f) <==> exists i :: 0 <= i < |p| && p[i].block.texData.buffer == CtexData) &&
      (f == YG10 <==> exists i :: 0 <= i < |p| && PlaneOf(p[i]) == 3)
  {
    var p := Plan(f, worker, full, luma, chroma, linesize);
    PlanPlanes(f, worker, full, luma, chroma, linesize);
    if IsSplitChroma(f) {
      assert p[|p| - 3].block.texData.buffer == CtexData;
    }
    if f == YG10 {
      assert PlaneOf(p[0]) == 3;
    }
  }

  /** With block slots wide enough for the codes they hold (two codes where
      a buffer is shared by two runs), each run's code lies inside its
      block's slot, and two runs on the same buffer cover disjoint bytes of
      it: alpha and Y, Co and Cg never overwrite each other. */
  lemma {:induction false} PlanRegionsDisjoint(f: TexFmt, worker: Worker, full: Dims, luma: ThreadParams,
                                               chroma: ThreadParams, linesize: seq<int>)
    requires |linesize| == AV_NUM_DATA_POINTERS
    requires luma.texRatio >= (if f == YG10 then 2 else 1) * RunCodeBytes(f)
    requires IsSplitChroma(f) ==> chroma.texRatio >= 2 * RunCodeBytes(f)
    ensures var p := Plan(f, worker, full, luma, chroma, linesize);
      var n := RunCodeBytes(f);
      (forall i :: 0 <= i < |p| ==>
        p[i].block.texData.Region? && 0 <= p[i].block.texData.offset &&
        p[i].block.texData.offset + n <= p[i].block.texRatio) &&
      (forall i, j ::
        (0 <= i < j < |p| && p[i].block.texData.Region? && p[j].block.texData.Region? &&
         p[i].block.texData.buffer == p[j].block.texData.buffer)
        ==>
        p[i].block.texData.offset + n <= p[j].block.texData.offset ||
        p[j].block.texData.offset + n <= p[i].block.texData.offset)
  {
    PlanPlanes(f, worker, full, luma, chroma, linesize);
    PlanBlocks(f, worker, full, luma, chroma, linesize);
  }

  /** Compression and decompression issue the same runs, differing only in the worker. */
  lemma {:induction false} PlanDirectionIndependent(f: TexFmt, full: Dims, luma: ThreadParams,
                                                    chroma: ThreadParams, linesize: seq<int>)
    requires |linesize| == AV_NUM_DATA_POINTERS
    ensures var c := Plan(f, CompressThread, full, luma, chroma, linesize);
      var d := Plan(f, DecompressThread, full, luma, chroma, linesize);
      |c| == |d| && forall i :: 0 <= i < |c| ==> c[i] == d[i].(worker := CompressThread)
  {
  }
}
