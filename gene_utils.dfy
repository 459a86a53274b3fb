/**
 * Gene utilities of the WebGL driver: random gene matrices, packing a gene
 * matrix into the four-channel texture buffer, and the default parameters.
 */
module GeneUtils {
  import opened Wrappers
  import opened SimulationTypes
  import GridIndex

  /** The number of loop iterations `for (i = 0; i < n; i++)` makes. */
  function Iterations(n: int): nat
  {
    if n < 0 then 0 else n
  }

  /** One gene from one draw of the random source: floor(r * 18). */
  function GeneOfDraw(r: real): (g: int)
    requires 0.0 <= r < 1.0
    ensures 0 <= g < OpcodeCount
    ensures Decode(g).Some?
    ensures g as real <= r * 18.0 < g as real + 1.0
  {
    (r * 18.0).Floor
  }

  /** A draw table for a `width` by `height` matrix: one draw in [0, 1) per gene. */
  ghost predicate DrawsFor(draws: seq<seq<real>>, width: int, height: int)
  {
    && |draws| == Iterations(height)
    && (forall i :: 0 <= i < |draws| ==> |draws[i]| == Iterations(width))
    && (forall i, j :: 0 <= i < |draws| && 0 <= j < |draws[i]| ==> 0.0 <= draws[i][j] < 1.0)
  }

  /**
   * generateRandomGeneMatrix: `height` rows of `width` genes, row by row; the
   * random draws are taken as input, in the order the loops consume them.
   */
  method GenerateRandomGeneMatrix(width: int, height: int, draws: seq<seq<real>>) returns (matrix: seq<seq<int>>)
    requires DrawsFor(draws, width, height)
    ensures |matrix| == Iterations(height)
    ensures forall i :: 0 <= i < |matrix| ==> |matrix[i]| == Iterations(width)
    ensures forall i, j :: 0 <= i < |matrix| && 0 <= j < |matrix[i]| ==>
      matrix[i][j] == GeneOfDraw(draws[i][j]) && 0 <= matrix[i][j] < OpcodeCount
  {
    matrix := [];
    var i := 0;
    while i < height
      invariant 0 <= i <= Iterations(height)
      invariant |matrix| == i
      invariant forall a :: 0 <= a < i ==> |matrix[a]| == Iterations(width)
      invariant forall a, b :: 0 <= a < i && 0 <= b < |matrix[a]| ==> matrix[a][b] == GeneOfDraw(draws[a][b])
    {
      var row: seq<int> := [];
      var j := 0;
      while j < width
        invariant 0 <= j <= Iterations(width)
        invariant |row| == j
        invariant forall b :: 0 <= b < j ==> row[b] == GeneOfDraw(draws[i][b])
      {
        row := row + [GeneOfDraw(draws[i][j])];
        j := j + 1;
      }
      matrix := matrix + [row];
      i := i + 1;
    }
  }

  // ---------------------------------------------------------------------
  // createGeneTexture: packing into RGBA floats
  // ---------------------------------------------------------------------

  /** A Float32Array element: a number, or NaN where an undefined was stored. */
  datatype Channel = Num(n: int) | NaN

  /** Channels per texel. */
  const TexelSize: nat := 4

  /** Gene (row, col) of the matrix as the texture stores it; NaN past the end of a short row. */
  function GeneChannel(m: seq<seq<int>>, row: nat, col: nat): Channel
    requires row < |m|
  {
    if col < |m[row]| then Num(m[row][col]) else NaN
  }

  /**
   * The filled buffer of createGeneTexture: width is the length of row 0,
   * and texel (x, y) holds [gene, 0, 0, 1] at (y * width + x) * 4.
   */
  ghost predicate IsGeneTexture(m: seq<seq<int>>, data: seq<Channel>)
    requires |m| > 0
  {
    var width, height := |m[0]|, |m|;
    && |data| == width * height * TexelSize
    && forall y, x | 0 <= y < height && 0 <= x < width ::
         var s := GridIndex.RecordStart(width, height, TexelSize, y, x);
         && data[s] == GeneChannel(m, y, x)
         && data[s + 1] == Num(0)
         && data[s + 2] == Num(0)
         && data[s + 3] == Num(1)
  }

  /**
   * The array-filling part of createGeneTexture. An empty matrix has no row
   * 0, so reading its width fails: None.
   */
  method PackGeneMatrix(m: seq<seq<int>>) returns (r: Option<seq<Channel>>)
    ensures r.None? <==> |m| == 0
    ensures r.Some? ==> IsGeneTexture(m, r.value)
  {
    if |m| == 0 {
      return None;
    }
    var width, height := |m[0]|, |m|;
    var data := new Channel[width * height * TexelSize](_ => Num(0));
    for y := 0 to height
      invariant forall yy, xx | 0 <= yy < y && 0 <= xx < width ::
        var s := GridIndex.RecordStart(width, height, TexelSize, yy, xx);
        data[s] == GeneChannel(m, yy, xx) && data[s + 1] == Num(0) && data[s + 2] == Num(0) && data[s + 3] == Num(1)
    {
      for x := 0 to width
        invariant forall yy, xx | 0 <= yy < height && 0 <= xx < width && (yy < y || (yy == y && xx < x)) ::
          var s := GridIndex.RecordStart(width, height, TexelSize, yy, xx);
          data[s] == GeneChannel(m, yy, xx) && data[s + 1] == Num(0) && data[s + 2] == Num(0) && data[s + 3] == Num(1)
      {
        var idx := GridIndex.RecordStart(width, height, TexelSize, y, x);
        forall yy, xx | 0 <= yy < height && 0 <= xx < width && (yy < y || (yy == y && xx < x))
          ensures GridIndex.RecordStart(width, height, TexelSize, yy, xx) + TexelSize <= idx
        {
          GridIndex.RecordOrder(width, height, TexelSize, yy, xx, y, x);
        }
        data[idx] := GeneChannel(m, y, x);
        data[idx + 1] := Num(0);
        data[idx + 2] := Num(0);
        data[idx + 3] := Num(1);
      }
    }
    r := Some(data[..]);
  }

  /**
   * Reading a packed texture back: every slot of the buffer belongs to
   * exactly one texel, so the buffer is determined slot by slot.
   */
  lemma GeneTextureSlot(m: seq<seq<int>>, data: seq<Channel>, i: nat)
    requires |m| > 0 && IsGeneTexture(m, data) && i < |data|
    ensures var p := i / TexelSize;
      data[i] == (if i % TexelSize == 0 then GeneChannel(m, p / |m[0]|, p % |m[0]|)
                  else if i % TexelSize == 3 then Num(1) else Num(0))
  {
    var width, height := |m[0]|, |m|;
    GridIndex.RecordsCover(width, height, TexelSize, i);
    var p := i / TexelSize;
    var s := GridIndex.RecordStart(width, height, TexelSize, p / width, p % width);
    assert s + i % TexelSize == i;
  }

  // ---------------------------------------------------------------------
  // getDefaultParams
  // ---------------------------------------------------------------------

  /** A configuration the engine can start from. */
  ghost predicate WellFormedParams(p: SimulationParams)
  {
    && p.willRange.lo <= p.willRange.hi
    && p.maxEnergyRange.lo <= p.maxEnergyRange.hi
    && p.maxEnergyToGetRange.lo <= p.maxEnergyToGetRange.hi
    && 0.0 <= p.mutationProbability <= 1.0
    && p.width > 0 && p.height > 0
    && p.geneMatrixWidth > 0 && p.geneMatrixHeight > 0
    && p.initialCellCount >= 0
    && p.dayCycleDuration > 0.0
    && SunModeFromName(p.sunMode).Some?
  }

  function DefaultParams(): (p: SimulationParams)
    ensures WellFormedParams(p)
    ensures p.sunMode == SunModeName(ConstantFull)
    ensures p.initialCellCount <= p.width * p.height
  {
    SimulationParams(
      initialCellCount := 1000,
      geneMatrixWidth := 30,
      geneMatrixHeight := 15,
      initialEnergyMultiplier := 5.0,
      mutationProbability := 0.01,
      willRange := Range(1.0, 10.0),
      maxEnergyRange := Range(100.0, 1000.0),
      maxEnergyToGetRange := Range(5.0, 20.0),
      maxSolarEnergy := 2.0,
      dayCycleDuration := 1000.0,
      sunMode := "constant_full",
      showAccumulatedEnergy := true,
      showSunEnergy := true,
      showCells := true,
      showCellEnergy := true,
      width := 512,
      height := 512)
  }
}
