/**
 * The WebGL driver (class WebGLSimulation) without the GPU: which textures
 * each pass samples and which one its framebuffer writes, the ping-pong
 * selection of current and next textures, the step counter, the readback
 * scan of getStats and the sun-mode lookup. What a shader computes is not
 * modelled, only which buffers it reads and writes.
 */
module WebGLEngine {
  import opened Wrappers
  import opened SimulationTypes
  import GeneUtils
  import GridIndex

  datatype Texture =
    | CellTexture1A | CellTexture1B | CellTexture2A | CellTexture2B | IntentionTexture | GeneTexture

  /** A framebuffer, identified by the texture it is attached to. */
  datatype Framebuffer = Framebuffer(attachment: Texture)

  datatype Program = InitPass | Init2Pass | SunlightPass | IntentionPass | ResolvePass | Resolve2Pass | RenderPass | StatsReadback

  /** One draw or readback: the textures it samples and the textures its target framebuffer holds. */
  datatype Access = Access(program: Program, sampled: set<Texture>, written: set<Texture>)

  const AllTextures: set<Texture> :=
    {CellTexture1A, CellTexture1B, CellTexture2A, CellTexture2B, IntentionTexture, GeneTexture}

  /** Every texture except the gene texture gets a framebuffer. */
  const RenderTargets: set<Texture> := AllTextures - {GeneTexture}

  // ---------------------------------------------------------------------
  // Ping-pong selection
  // ---------------------------------------------------------------------

  function CurrentCell1(pingPong: bool): Texture
  {
    if pingPong then CellTexture1B else CellTexture1A
  }

  function CurrentCell2(pingPong: bool): Texture
  {
    if pingPong then CellTexture2B else CellTexture2A
  }

  /** The next cell texture 1 differs from the current one and becomes current after the flip. */
  function NextCell1(pingPong: bool): (t: Texture)
    ensures t != CurrentCell1(pingPong) && t == CurrentCell1(!pingPong)
    ensures t in RenderTargets
  {
    if pingPong then CellTexture1A else CellTexture1B
  }

  function NextCell2(pingPong: bool): (t: Texture)
    ensures t != CurrentCell2(pingPong) && t == CurrentCell2(!pingPong)
    ensures t in RenderTargets
  {
    if pingPong then CellTexture2A else CellTexture2B
  }

  // ---------------------------------------------------------------------
  // The pass schedule
  // ---------------------------------------------------------------------

  /** runInitialization: init fills cell texture 1A, init2 reads it and fills 2A. */
  function InitPasses(): (s: seq<Access>)
    ensures forall i :: 0 <= i < |s| ==> s[i].sampled !! s[i].written
    ensures |s| == 2 && s[0].written == {CurrentCell1(false)} && s[1].written == {CurrentCell2(false)}
    ensures CurrentCell1(false) in s[1].sampled
  {
    [ Access(InitPass, {}, {CellTexture1A}),
      Access(Init2Pass, {CellTexture1A}, {CellTexture2A}) ]
  }

  /**
   * The four passes of one step, for a given pingPong: sunlight, intention,
   * resolve, resolve2. No pass writes a texture it samples.
   */
  function StepPasses(pingPong: bool): (s: seq<Access>)
    ensures |s| == 4
    ensures forall i :: 0 <= i < |s| ==> s[i].sampled !! s[i].written && |s[i].written| == 1
  {
    var p := pingPong;
    [ Access(SunlightPass, {CurrentCell2(p)}, {NextCell2(p)}),
      Access(IntentionPass, {CurrentCell1(p), NextCell2(p), GeneTexture}, {IntentionTexture}),
      Access(ResolvePass, {CurrentCell1(p), NextCell2(p), IntentionTexture, GeneTexture}, {NextCell1(p)}),
      Access(Resolve2Pass, {NextCell1(p), CurrentCell1(p), NextCell2(p), IntentionTexture, GeneTexture}, {CurrentCell2(p)}) ]
  }

  function RenderAccess(pingPong: bool): Access
  {
    Access(RenderPass, {CurrentCell1(pingPong), CurrentCell2(pingPong)}, {})
  }

  function StatsAccess(pingPong: bool): Access
  {
    Access(StatsReadback, {CurrentCell1(pingPong)}, {})
  }

  /** A texture is written before anything in `s` samples it. */
  predicate OverwrittenBeforeRead(t: Texture, s: seq<Access>)
  {
    if s == [] then false
    else if t in s[0].sampled then false
    else if t in s[0].written then true
    else OverwrittenBeforeRead(t, s[1..])
  }

  /** An access that may happen between two steps: drawing or reading the statistics. */
  predicate IsObserver(a: Access, pingPong: bool)
  {
    a == RenderAccess(pingPong) || a == StatsAccess(pingPong)
  }

  /**
   * After a step, render and getStats read the cell texture 1 the step's
   * resolve pass wrote, and the next step's intention and resolve passes
   * take it as their current cell texture 1.
   */
  lemma ResolveOutputObserved(p: bool)
    ensures StepPasses(p)[2].written == {CurrentCell1(!p)}
    ensures CurrentCell1(!p) in RenderAccess(!p).sampled
    ensures StatsAccess(!p).sampled == StepPasses(p)[2].written
    ensures CurrentCell1(!p) in StepPasses(!p)[1].sampled && CurrentCell1(!p) in StepPasses(!p)[2].sampled
  {
  }

  /**
   * The texture resolve2 writes is the next step's sunlight target, and no
   * render, no getStats and no pass samples it before sunlight overwrites
   * it: resolve2's output is never read.
   */
  lemma {:induction false} Resolve2OutputOverwritten(p: bool, observers: seq<Access>)
    requires forall i :: 0 <= i < |observers| ==> IsObserver(observers[i], !p)
    ensures StepPasses(p)[3].written == StepPasses(!p)[0].written
    ensures OverwrittenBeforeRead(CurrentCell2(p), observers + StepPasses(!p))
  {
    if observers == [] {
      assert observers + StepPasses(!p) == StepPasses(!p);
    } else {
      assert (observers + StepPasses(!p))[1..] == observers[1..] + StepPasses(!p);
      Resolve2OutputOverwritten(p, observers[1..]);
    }
  }

  // ---------------------------------------------------------------------
  // getStats scan
  // ---------------------------------------------------------------------

  /** Channels per pixel of the readback buffer. */
  const PixelSize: nat := 4

  predicate IsOccupied(pixels: seq<real>, p: nat)
    requires PixelSize * p < |pixels|
  {
    pixels[PixelSize * p] > 0.0
  }

  /** The number of pixels among the first n whose channel 0 (originalId) is positive. */
  function OccupiedCount(pixels: seq<real>, n: nat): (c: nat)
    requires PixelSize * n <= |pixels|
    ensures c <= n
  {
    if n == 0 then 0
    else OccupiedCount(pixels, n - 1) + (if IsOccupied(pixels, n - 1) then 1 else 0)
  }

  /** The sum of channel 1 (energy) over the occupied pixels among the first n. */
  function OccupiedEnergy(pixels: seq<real>, n: nat): real
    requires PixelSize * n <= |pixels|
  {
    if n == 0 then 0.0
    else OccupiedEnergy(pixels, n - 1) + (if IsOccupied(pixels, n - 1) then pixels[PixelSize * (n - 1) + 1] else 0.0)
  }

  function OccupiedPixels(pixels: seq<real>, n: nat): set<nat>
    requires PixelSize * n <= |pixels|
  {
    set p: nat | p < n && IsOccupied(pixels, p)
  }

  /** The count is the number of occupied pixels. */
  lemma {:induction false} OccupiedCountIsCardinality(pixels: seq<real>, n: nat)
    requires PixelSize * n <= |pixels|
    ensures OccupiedCount(pixels, n) == |OccupiedPixels(pixels, n)|
  {
    if n > 0 {
      OccupiedCountIsCardinality(pixels, n - 1);
      var prev := OccupiedPixels(pixels, n - 1);
      if IsOccupied(pixels, n - 1) {
        assert OccupiedPixels(pixels, n) == prev + {n - 1};
      } else {
        assert OccupiedPixels(pixels, n) == prev;
      }
    }
  }

  /** The energy of an empty pixel does not enter the total, nor the count. */
  lemma {:induction false} StatsIgnoreEmptyPixels(pixels: seq<real>, other: seq<real>, n: nat)
    requires PixelSize * n <= |pixels| && PixelSize * n <= |other|
    requires forall p :: 0 <= p < n ==> pixels[PixelSize * p] == other[PixelSize * p]
    requires forall p :: 0 <= p < n && IsOccupied(pixels, p) ==> pixels[PixelSize * p + 1] == other[PixelSize * p + 1]
    ensures OccupiedCount(pixels, n) == OccupiedCount(other, n)
    ensures OccupiedEnergy(pixels, n) == OccupiedEnergy(other, n)
  {
    if n > 0 {
      StatsIgnoreEmptyPixels(pixels, other, n - 1);
    }
  }

  // ---------------------------------------------------------------------
  // getSunModeIndex
  // ---------------------------------------------------------------------

  const SunModeNames: seq<string> :=
    ["constant_full", "clipping_full", "constant_islands", "clipping_islands", "dynamic_sun"]

  /** Array.prototype.indexOf: the first position of `s`, or -1. */
  function IndexOf(list: seq<string>, s: string): (i: int)
    ensures -1 <= i < |list|
    ensures i == -1 <==> s !in list
    ensures i >= 0 ==> list[i] == s && forall j :: 0 <= j < i ==> list[j] != s
  {
    if list == [] then -1
    else if list[0] == s then 0
    else
      var rest := IndexOf(list[1..], s);
      if rest == -1 then -1 else rest + 1
  }

  function SunModeIndex(mode: string): int
  {
    IndexOf(SunModeNames, mode)
  }

  /** The five mode names map to 0..4 in declaration order. */
  lemma SunModeIndexOrder(m: SunMode)
    ensures SunModeIndex(SunModeName(m)) == SunModeOrdinal(m)
  {
    match m
    case ConstantFull =>
    case ClippingFull =>
    case ConstantIslands =>
    case ClippingIslands =>
    case DynamicSun =>
  }

  /** Exactly the strings that name no mode map to -1. */
  lemma UnknownSunModeIndex(s: string)
    ensures SunModeIndex(s) == -1 <==> SunModeFromName(s).None?
  {
    assert SunModeFromName(s).Some? ==> s in SunModeNames;
  }

  // ---------------------------------------------------------------------
  // The driver object
  // ---------------------------------------------------------------------

  /** Uniforms the sunlight pass of one step receives. */
  datatype SunlightUniforms = SunlightUniforms(time: int, sunMode: int, maxSolarEnergy: real, dayCycleDuration: real)

  class Engine {
    var width: nat
    var height: nat
    var time: int
    var pingPong: bool
    var textures: set<Texture>
    var framebuffers: map<Texture, Framebuffer>
    var geneData: seq<GeneUtils.Channel>

    /** Every framebuffer is attached to the texture it is named after. */
    ghost predicate Valid()
      reads this
    {
      forall t :: t in framebuffers ==> t in RenderTargets && framebuffers[t].attachment == t
    }

    /** After a successful initialize: all six textures and five framebuffers exist. */
    ghost predicate Ready()
      reads this
    {
      Valid() && textures == AllTextures && framebuffers.Keys == RenderTargets
    }

    constructor ()
      ensures Valid() && width == 0 && height == 0 && time == 0 && !pingPong
      ensures textures == {} && framebuffers == map[] && geneData == []
    {
      width, height, time, pingPong := 0, 0, 0, false;
      textures, framebuffers, geneData := {}, map[], [];
    }

    /**
     * initialize: records the size, creates the textures and their
     * framebuffers, runs the two initialization passes and resets time and
     * pingPong. Packing an empty gene matrix throws after the size is
     * recorded; nothing else changes then.
     */
    method Initialize(params: SimulationParams, geneMatrix: seq<seq<int>>) returns (ok: bool, passes: seq<Access>)
      requires Valid()
      requires params.width >= 0 && params.height >= 0
      modifies this
      ensures Valid()
      ensures width == params.width && height == params.height
      ensures ok <==> |geneMatrix| > 0
      ensures !ok ==> (passes == [] && textures == old(textures) && framebuffers == old(framebuffers)
                       && geneData == old(geneData) && time == old(time) && pingPong == old(pingPong))
      ensures ok ==> (Ready() && passes == InitPasses() && time == 0 && !pingPong
                      && GeneUtils.IsGeneTexture(geneMatrix, geneData))
    {
      width, height := params.width, params.height;
      var packed := GeneUtils.PackGeneMatrix(geneMatrix);
      if packed.None? {
        return false, [];
      }
      textures := AllTextures;
      geneData := packed.value;
      framebuffers := framebuffers + map t | t in RenderTargets :: Framebuffer(t);
      passes := InitPasses();
      time, pingPong := 0, false;
      ok := true;
    }

    /**
     * step: the four passes, with current and next textures and framebuffers
     * chosen by pingPong alone; then time advances by one and pingPong flips.
     */
    method Step(params: SimulationParams) returns (passes: seq<Access>, sun: SunlightUniforms)
      requires Ready()
      modifies this
      ensures Ready()
      ensures passes == StepPasses(old(pingPong))
      ensures sun == SunlightUniforms(old(time), SunModeIndex(params.sunMode), params.maxSolarEnergy, params.dayCycleDuration)
      ensures time == old(time) + 1 && pingPong == !old(pingPong)
      ensures width == old(width) && height == old(height) && textures == old(textures)
        && framebuffers == old(framebuffers) && geneData == old(geneData)
    {
      var current1, current2 := CurrentCell1(pingPong), CurrentCell2(pingPong);
      var next1, next2 := NextCell1(pingPong), NextCell2(pingPong);
      var currentFb2 := framebuffers[current2];
      var nextFb1, nextFb2 := framebuffers[next1], framebuffers[next2];
      sun := SunlightUniforms(time, SunModeIndex(params.sunMode), params.maxSolarEnergy, params.dayCycleDuration);
      passes := [
        Access(SunlightPass, {current2}, {nextFb2.attachment}),
        Access(IntentionPass, {current1, next2, GeneTexture}, {framebuffers[IntentionTexture].attachment}),
        Access(ResolvePass, {current1, next2, IntentionTexture, GeneTexture}, {nextFb1.attachment}),
        Access(Resolve2Pass, {next1, current1, next2, IntentionTexture, GeneTexture}, {currentFb2.attachment})];
      time := time + 1;
      pingPong := !pingPong;
    }

    /** render: samples the current cell textures and draws to the canvas. */
    method Render() returns (access: Access)
      requires Ready()
      ensures access == RenderAccess(pingPong)
    {
      access := Access(RenderPass, {CurrentCell1(pingPong), CurrentCell2(pingPong)}, {});
    }

    /**
     * getStats: scans the pixels read back from the current cell texture 1,
     * row by row, counting pixels whose channel 0 is positive and summing
     * their channel 1.
     */
    method GetStats(pixels: seq<real>) returns (source: Texture, cellCount: nat, totalEnergy: real)
      requires Ready()
      requires |pixels| == width * height * PixelSize
      ensures source == CurrentCell1(pingPong) && framebuffers[source].attachment == source
      ensures cellCount == OccupiedCount(pixels, width * height) && cellCount <= width * height
      ensures totalEnergy == OccupiedEnergy(pixels, width * height)
    {
      source := framebuffers[if pingPong then CellTexture1B else CellTexture1A].attachment;
      cellCount, totalEnergy := 0, 0.0;
      for row := 0 to height
        invariant row * width <= width * height
        invariant cellCount == OccupiedCount(pixels, row * width)
        invariant totalEnergy == OccupiedEnergy(pixels, row * width)
      {
        PixelRow(width, height, row);
        cellCount, totalEnergy := AddRowStats(pixels, row * width * PixelSize, row * width, width, cellCount, totalEnergy);
      }
      assert height * width == width * height;
    }
  }

  /** One row of getStats: the pixels first .. first + width - 1 added to the counts of those before them. */
  method AddRowStats(pixels: seq<real>, rowOffset: nat, first: nat, width: nat, count0: nat, energy0: real)
    returns (cellCount: nat, totalEnergy: real)
    requires rowOffset == PixelSize * first && PixelSize * (first + width) <= |pixels|
    requires count0 == OccupiedCount(pixels, first) && energy0 == OccupiedEnergy(pixels, first)
    ensures cellCount == OccupiedCount(pixels, first + width)
    ensures totalEnergy == OccupiedEnergy(pixels, first + width)
  {
    cellCount, totalEnergy := count0, energy0;
    for col := 0 to width
      invariant cellCount == OccupiedCount(pixels, first + col)
      invariant totalEnergy == OccupiedEnergy(pixels, first + col)
    {
      var idx := rowOffset + col * PixelSize;
      assert idx == PixelSize * (first + col);
      if pixels[idx] > 0.0 {
        cellCount := cellCount + 1;
        totalEnergy := totalEnergy + pixels[idx + 1];
      }
    }
  }

  /** Row `row` of a width by height readback starts at pixel row * width and fits in the grid. */
  lemma PixelRow(width: nat, height: nat, row: nat)
    requires row < height
    ensures row * width * PixelSize == PixelSize * (row * width)
    ensures (row + 1) * width == row * width + width <= width * height
  {
    GridIndex.MulMonotone(row + 1, height, width);
  }

  /**
   * Two steps from a ready engine: the first runs the passes of the old
   * pingPong and the second those of the flipped one; afterwards pingPong
   * and so every buffer's role are as before, time has advanced by 2, and
   * the textures and framebuffers are the same objects.
   */
  method TwoStepsRestoreBuffers(e: Engine, params: SimulationParams) returns (first: seq<Access>, second: seq<Access>)
    requires e.Ready()
    modifies e
    ensures e.Ready() && e.pingPong == old(e.pingPong) && e.time == old(e.time) + 2
    ensures first == StepPasses(old(e.pingPong)) && second == StepPasses(!old(e.pingPong))
    ensures e.textures == old(e.textures) && e.framebuffers == old(e.framebuffers)
  {
    var sun1, sun2;
    first, sun1 := e.Step(params);
    second, sun2 := e.Step(params);
  }
}
