/**
 * The WebGPU driver (component App): the CPU-side setup of the state and
 * gene buffers, the parameter uniforms, the A/B buffer swap of each frame,
 * the start/pause/continue/stop flags and pasting a copied cell. Buffers
 * are sequences of 32-bit words; the compute and render shaders are not
 * modelled, only which buffers they are bound to.
 */
module WebGpuApp {
  import opened Wrappers
  import opened SimulationTypes
  import opened JsNumber
  import GridIndex
  import GeneUtils
  import WebGLEngine

  const CanvasWidth: nat := 600
  const CanvasHeight: nat := 600
  /** CanvasWidth * CanvasHeight: one cell per pixel. */
  const TotalCells: nat := 360000

  /** Bytes per 32-bit word of a GPU buffer. */
  const WordBytes: nat := 4

  /** The id a pasted (foreign) cell receives. */
  const PastedId: int := 9999

  /** The code the founder loop plants once in every founder genome. */
  const MarkerGene: int := 11

  /** The codes the founder loop draws the rest of a genome from. */
  const FounderActions: seq<int> := [0, 1, 2, 3, 4, 5, 6, 7, 14]

  /** Traits of a cell that the driver sets from the inputs. */
  datatype CellParams = CellParams(maxEnergy: int, will: int, maxEnergyToGet: int, energyFromSun: int)

  function TraitsOf(c: CellRecord): CellParams
  {
    CellParams(c.maxEnergy, c.will, c.maxEnergyToGet, c.energyFromSun)
  }

  /** createCell: a record with the given id, energy and gene pointer, the traits, and no field energy. */
  function CreateCell(id: int, params: CellParams, energy: int, activeGen: int): (c: CellRecord)
    ensures TraitsOf(c) == params
    ensures c.originalId == id && c.energy == energy && c.activeGen == activeGen && c.energyInFieldCell == 0
  {
    CellRecord(id, energy, params.maxEnergy, params.will, params.maxEnergyToGet, 0, params.energyFromSun, activeGen)
  }

  /** The eight words a record occupies in a Uint32 state buffer. */
  function StoredSlots(c: CellRecord): (s: seq<int>)
    ensures |s| == RecordSize
    ensures forall k :: s[SlotIndex(k)] == ToUint32(Field(c, k))
  {
    var slots := ToSlots(c);
    seq(RecordSize, i requires 0 <= i < RecordSize => ToUint32(slots[i]))
  }

  // ---------------------------------------------------------------------
  // Inputs
  // ---------------------------------------------------------------------

  /** The inputs of the control panel. */
  datatype Settings = Settings(
    initialCount: int,
    geneCount: int,
    energyMultiplier: real,
    mutationProb: real,
    maxEnergyRange: string,
    willRange: string,
    maxEnergyToGetRange: string,
    energyFromSunRange: string,
    sunMode: string,
    sunEnergy: real,
    sunCycle: real,
    showCells: bool,
    showEnergy: bool,
    showSun: bool,
    showCellEnergy: bool)

  function DefaultSettings(): Settings
  {
    Settings(10, 16, 1.0, 0.05, "100", "50", "20", "10", "Constant Full", 5.0, 200.0, true, true, true, true)
  }

  /**
   * The base traits: each range text read as TraitValue, falling back to
   * 100, 50, 20 and 10; none of them is ever 0.
   */
  function BaseParams(s: Settings): (p: CellParams)
    ensures p.maxEnergy != 0 && p.will != 0 && p.maxEnergyToGet != 0 && p.energyFromSun != 0
  {
    CellParams(
      TraitValue(s.maxEnergyRange, 100),
      TraitValue(s.willRange, 50),
      TraitValue(s.maxEnergyToGetRange, 20),
      TraitValue(s.energyFromSunRange, 10))
  }

  /**
   * Each range text contributes its low end ("n" or "n-hi" with n > 0);
   * "0", "0-hi" and text without digits give the fallbacks 100, 50, 20, 10.
   */
  lemma BaseParamsOfRanges(s: Settings, maxE: nat, wil: nat, maxGet: nat, eSun: nat)
    ensures IsDecimalLow(s.maxEnergyRange, maxE) ==> BaseParams(s).maxEnergy == if maxE > 0 then maxE else 100
    ensures IsDecimalLow(s.willRange, wil) ==> BaseParams(s).will == if wil > 0 then wil else 50
    ensures IsDecimalLow(s.maxEnergyToGetRange, maxGet) ==> BaseParams(s).maxEnergyToGet == if maxGet > 0 then maxGet else 20
    ensures IsDecimalLow(s.energyFromSunRange, eSun) ==> BaseParams(s).energyFromSun == if eSun > 0 then eSun else 10
    ensures NoDigits(s.maxEnergyRange) ==> BaseParams(s).maxEnergy == 100
    ensures NoDigits(s.willRange) ==> BaseParams(s).will == 50
    ensures NoDigits(s.maxEnergyToGetRange) ==> BaseParams(s).maxEnergyToGet == 20
    ensures NoDigits(s.energyFromSunRange) ==> BaseParams(s).energyFromSun == 10
  {
    TraitOfText(s.maxEnergyRange, 100, maxE);
    TraitOfText(s.willRange, 50, wil);
    TraitOfText(s.maxEnergyToGetRange, 20, maxGet);
    TraitOfText(s.energyFromSunRange, 10, eSun);
  }

  // ---------------------------------------------------------------------
  // Flat buffer writes
  // ---------------------------------------------------------------------

  /** The buffer `a` with `s` stored from index `at` on; stores outside `a` are dropped. */
  function Overwrite(a: seq<int>, at: int, s: seq<int>): (r: seq<int>)
    ensures |r| == |a|
    ensures forall j :: 0 <= j < |a| ==> r[j] == if at <= j < at + |s| then s[j - at] else a[j]
  {
    seq(|a|, j requires 0 <= j < |a| => if at <= j < at + |s| then s[j - at] else a[j])
  }

  /**
   * queue.writeBuffer(buffer, byteOffset, data): the words are stored when
   * the offset is a non-negative multiple of 4 and the data fits; otherwise
   * the call is a validation error and the buffer is unchanged.
   */
  function WriteBufferWords(words: seq<int>, byteOffset: int, data: seq<int>): (r: seq<int>)
    ensures |r| == |words|
    ensures WriteAccepted(words, byteOffset, data) ==>
      var at := byteOffset / WordBytes;
      r == words[..at] + data + words[at + |data|..]
    ensures !WriteAccepted(words, byteOffset, data) ==> r == words
  {
    if WriteAccepted(words, byteOffset, data) then
      OverwriteSlice(words, byteOffset / WordBytes, data);
      Overwrite(words, byteOffset / WordBytes, data)
    else words
  }

  /** writeBuffer's validation: a non-negative, word-aligned offset and data that fits. */
  predicate WriteAccepted(words: seq<int>, byteOffset: int, data: seq<int>)
  {
    byteOffset >= 0 && byteOffset % WordBytes == 0 && byteOffset / WordBytes + |data| <= |words|
  }

  /** A store that fits replaces exactly the words at..at + |s| - 1. */
  lemma OverwriteSlice(a: seq<int>, at: nat, s: seq<int>)
    requires at + |s| <= |a|
    ensures Overwrite(a, at, s) == a[..at] + s + a[at + |s|..]
  {
    var r := Overwrite(a, at, s);
    var t := a[..at] + s + a[at + |s|..];
    assert |r| == |t|;
    forall j | 0 <= j < |a|
      ensures r[j] == t[j]
    {
      if j < at {
      } else if j < at + |s| {
        assert t[j] == s[j - at];
      } else {
        assert t[j] == a[at + |s|..][j - at - |s|];
      }
    }
  }

  /** Writing a whole buffer's worth of data at offset 0 replaces its contents. */
  lemma WholeBufferWrite(words: seq<int>, data: seq<int>)
    requires |data| == |words|
    ensures WriteBufferWords(words, 0, data) == data
  {
  }

  function Zeros(n: nat): (s: seq<int>)
    ensures |s| == n && forall i :: 0 <= i < n ==> s[i] == 0
  {
    seq(n, _ => 0)
  }

  // ---------------------------------------------------------------------
  // setupSimulation: the initial state and gene arrays
  // ---------------------------------------------------------------------

  /** The random draws one founder consumes, in order: its cell, its genes, the marker position. */
  datatype FounderDraws = FounderDraws(spot: real, genes: seq<real>, markerDraw: real)

  ghost predicate ValidDraws(f: FounderDraws, geneCount: int)
  {
    && 0.0 <= f.spot < 1.0
    && 0.0 <= f.markerDraw < 1.0
    && |f.genes| == GeneUtils.Iterations(geneCount - 2)
    && forall g :: 0 <= g < |f.genes| ==> 0.0 <= f.genes[g] < 1.0
  }

  ghost predicate ValidFounders(founders: seq<FounderDraws>, geneCount: int)
  {
    forall c :: 0 <= c < |founders| ==> ValidDraws(founders[c], geneCount)
  }

  lemma ScaledDrawBelow(r: real, n: real)
    requires 0.0 <= r < 1.0 && n > 0.0
    ensures 0.0 <= r * n < n
  {
    assert (1.0 - r) * n > 0.0;
  }

  /** floor(r * n): the entry of an n-entry list (or the cell of n cells) a draw in [0, 1) picks. */
  function Pick(r: real, n: nat): (i: nat)
    requires 0.0 <= r < 1.0 && n > 0
    ensures i < n
  {
    var x := r * n as real;
    assert x < n as real by { ScaledDrawBelow(r, n as real); }
    assert x.Floor as real <= x;
    x.Floor
  }

  /** floor(r * (geneCount - 2)): where the marker goes, relative to the genome start. */
  function MarkerSlot(geneCount: int, r: real): int
  {
    (r * (geneCount - 2) as real).Floor
  }

  /** The code the founder loop stores at gene `g`. */
  function FounderGene(geneCount: nat, draws: seq<real>, g: nat): (code: int)
    requires |draws| == GeneUtils.Iterations(geneCount - 2) && g < geneCount
    requires forall i :: 0 <= i < |draws| ==> 0.0 <= draws[i] < 1.0
    ensures g < geneCount - 2 ==> code in FounderActions
    ensures g >= geneCount - 2 ==> code == 0
  {
    if g < geneCount - 2 then FounderActions[Pick(draws[g], |FounderActions|)] else 0
  }

  /** The genome the founder loop writes before planting the marker. */
  function FounderGenome(geneCount: nat, draws: seq<real>): (genome: seq<int>)
    requires |draws| == GeneUtils.Iterations(geneCount - 2)
    requires forall i :: 0 <= i < |draws| ==> 0.0 <= draws[i] < 1.0
    ensures |genome| == geneCount
    ensures forall g :: 0 <= g < geneCount ==> genome[g] == FounderGene(geneCount, draws, g)
  {
    seq(geneCount, g requires 0 <= g < geneCount => FounderGene(geneCount, draws, g))
  }

  /** The records of the default fill: no organism, zero energy, the base traits. */
  function EmptyRecord(base: CellParams): (c: CellRecord)
    ensures c.originalId == 0 && c.energy == 0 && c.energyInFieldCell == 0 && c.activeGen == 0
    ensures TraitsOf(c) == base
  {
    CreateCell(0, base, 0, 0)
  }

  /** Founder c: id c + 1, half of maxEnergy (rounded down), the base traits. */
  function FounderRecord(c: nat, base: CellParams): (r: CellRecord)
    ensures r.originalId == c + 1 && r.energyInFieldCell == 0 && r.activeGen == 0 && TraitsOf(r) == base
    ensures r.energy == (base.maxEnergy as real / 2.0).Floor
    ensures base.maxEnergy >= 0 ==> 0 <= r.energy <= r.maxEnergy
  {
    CreateCell(c + 1, base, base.maxEnergy / 2, 0)
  }

  function DefaultState(base: CellParams, total: nat): (s: seq<int>)
    ensures |s| == total * RecordSize
  {
    var empty := StoredSlots(EmptyRecord(base));
    seq(total * RecordSize, j requires 0 <= j < total * RecordSize => empty[j % RecordSize])
  }

  /** The state array after the default fill and the given founders. */
  function SeededState(base: CellParams, total: nat, founders: seq<FounderDraws>): (s: seq<int>)
    requires total > 0 && forall c :: 0 <= c < |founders| ==> 0.0 <= founders[c].spot < 1.0
    ensures |s| == total * RecordSize
  {
    if founders == [] then DefaultState(base, total)
    else
      var k := |founders| - 1;
      Overwrite(SeededState(base, total, founders[..k]), Pick(founders[k].spot, total) * RecordSize,
                StoredSlots(FounderRecord(k, base)))
  }

  /** One founder's genome written at `start`, then the marker planted. */
  function PlaceFounderGenome(genes: seq<int>, start: int, geneCount: nat, f: FounderDraws): (r: seq<int>)
    requires ValidDraws(f, geneCount)
    ensures |r| == |genes|
  {
    Overwrite(Overwrite(genes, start, FounderGenome(geneCount, f.genes)),
              start + MarkerSlot(geneCount, f.markerDraw), [MarkerGene])
  }

  /** The gene array after the given founders. */
  function SeededGenes(total: nat, geneCount: nat, founders: seq<FounderDraws>): (s: seq<int>)
    requires total > 0 && ValidFounders(founders, geneCount)
    ensures |s| == total * geneCount
  {
    if founders == [] then Zeros(total * geneCount)
    else
      var k := |founders| - 1;
      PlaceFounderGenome(SeededGenes(total, geneCount, founders[..k]),
                         Pick(founders[k].spot, total) * geneCount, geneCount, founders[k])
  }

  /** Seeding founder c extends the arrays seeded by founders 0 .. c-1. */
  lemma SeedingStep(base: CellParams, total: nat, geneCount: nat, founders: seq<FounderDraws>, c: nat)
    requires total > 0 && ValidFounders(founders, geneCount) && c < |founders|
    ensures SeededState(base, total, founders[..c + 1])
         == Overwrite(SeededState(base, total, founders[..c]), Pick(founders[c].spot, total) * RecordSize,
                      StoredSlots(FounderRecord(c, base)))
    ensures SeededGenes(total, geneCount, founders[..c + 1])
         == PlaceFounderGenome(SeededGenes(total, geneCount, founders[..c]),
                               Pick(founders[c].spot, total) * geneCount, geneCount, founders[c])
  {
    assert founders[..c + 1][..c] == founders[..c];
  }

  /** The default fill: record i holds the base traits, id 0 and no energy. */
  method FillDefault(st: array<int>, base: CellParams, total: nat)
    requires st.Length == total * RecordSize
    modifies st
    ensures st[..] == DefaultState(base, total)
  {
    ghost var empty := StoredSlots(EmptyRecord(base));
    var o := 0;
    for i := 0 to total
      invariant o == i * RecordSize
      invariant forall j :: 0 <= j < o ==> st[j] == empty[j % RecordSize]
    {
      GridIndex.SliceInBounds(i, total, RecordSize, RecordSize - 1);
      st[o + 0] := ToUint32(0);
      st[o + 1] := ToUint32(0);
      st[o + 2] := ToUint32(base.maxEnergy);
      st[o + 3] := ToUint32(base.will);
      st[o + 4] := ToUint32(base.maxEnergyToGet);
      st[o + 5] := ToUint32(0);
      st[o + 6] := ToUint32(base.energyFromSun);
      st[o + 7] := ToUint32(0);
      RecordSlotsRepeat(o);
      o := o + RecordSize;
    }
  }

  lemma RecordSlotsRepeat(o: nat)
    requires o % RecordSize == 0
    ensures forall j :: o <= j < o + RecordSize ==> j % RecordSize == j - o
  {
  }

  /** Founder c's record stored at word offset o. */
  method WriteFounderRecord(st: array<int>, o: nat, c: nat, base: CellParams)
    requires o + RecordSize <= st.Length
    modifies st
    ensures st[..] == Overwrite(old(st[..]), o, StoredSlots(FounderRecord(c, base)))
  {
    var origId := c + 1;
    var initialEnergy := base.maxEnergy / 2;
    st[o] := ToUint32(origId);
    st[o + 1] := ToUint32(initialEnergy);
    st[o + 2] := ToUint32(base.maxEnergy);
    st[o + 3] := ToUint32(base.will);
    st[o + 4] := ToUint32(base.maxEnergyToGet);
    st[o + 5] := ToUint32(0);
    st[o + 6] := ToUint32(base.energyFromSun);
    st[o + 7] := ToUint32(0);
  }

  /** A founder's genome stored from `start`, then the marker where it lands inside the array. */
  method WriteFounderGenome(gn: array<int>, start: nat, geneCount: nat, f: FounderDraws)
    requires ValidDraws(f, geneCount)
    requires start + geneCount <= gn.Length
    modifies gn
    ensures gn[..] == PlaceFounderGenome(old(gn[..]), start, geneCount, f)
  {
    ghost var genome := FounderGenome(geneCount, f.genes);
    for g := 0 to geneCount
      invariant gn[..] == Overwrite(old(gn[..]), start, genome[..g])
    {
      var geneCode;
      if g < geneCount - 2 {
        geneCode := FounderActions[Pick(f.genes[g], |FounderActions|)];
      } else {
        geneCode := 0;
      }
      gn[start + g] := geneCode;
      assert genome[..g + 1] == genome[..g] + [geneCode];
    }
    assert genome[..geneCount] == genome;
    var marker := start + MarkerSlot(geneCount, f.markerDraw);
    ghost var written := gn[..];
    if 0 <= marker < gn.Length {
      gn[marker] := MarkerGene;
    }
    assert gn[..] == Overwrite(written, marker, [MarkerGene]);
  }

  /** One iteration of the founder loop: founder c's record, genome and marker. */
  method SeedFounder(st: array<int>, gn: array<int>, base: CellParams, total: nat, geneCount: nat,
                     founders: seq<FounderDraws>, c: nat)
    requires st != gn && total > 0 && ValidFounders(founders, geneCount) && c < |founders|
    requires st[..] == SeededState(base, total, founders[..c])
    requires gn[..] == SeededGenes(total, geneCount, founders[..c])
    modifies st, gn
    ensures st[..] == SeededState(base, total, founders[..c + 1])
    ensures gn[..] == SeededGenes(total, geneCount, founders[..c + 1])
  {
    var idx := Pick(founders[c].spot, total);
    GridIndex.SliceInBounds(idx, total, RecordSize, RecordSize - 1);
    WriteFounderRecord(st, idx * RecordSize, c, base);
    GridIndex.MulMonotone(idx + 1, total, geneCount);
    WriteFounderGenome(gn, idx * geneCount, geneCount, founders[c]);
    SeedingStep(base, total, geneCount, founders, c);
  }

  /**
   * The array work of setupSimulation: every record default-filled, then
   * for each founder its record at idx * 8 and its genome at
   * idx * geneCount, with one marker gene planted.
   */
  method BuildInitialArrays(base: CellParams, total: nat, geneCount: nat, initialCount: int, founders: seq<FounderDraws>)
    returns (stateArray: seq<int>, geneArray: seq<int>)
    requires total > 0
    requires |founders| == GeneUtils.Iterations(initialCount) && ValidFounders(founders, geneCount)
    ensures stateArray == SeededState(base, total, founders)
    ensures geneArray == SeededGenes(total, geneCount, founders)
  {
    var st := new int[total * RecordSize](_ => 0);
    var gn := new int[total * geneCount](_ => 0);
    FillDefault(st, base, total);
    assert gn[..] == Zeros(total * geneCount);
    var c := 0;
    while c < initialCount
      invariant 0 <= c <= |founders|
      invariant st[..] == SeededState(base, total, founders[..c])
      invariant gn[..] == SeededGenes(total, geneCount, founders[..c])
    {
      SeedFounder(st, gn, base, total, geneCount, founders, c);
      c := c + 1;
    }
    assert founders[..c] == founders;
    stateArray, geneArray := st[..], gn[..];
  }

  // ---------------------------------------------------------------------
  // What seeding leaves in the arrays
  // ---------------------------------------------------------------------

  ghost predicate SpotsValid(founders: seq<FounderDraws>)
  {
    forall c :: 0 <= c < |founders| ==> 0.0 <= founders[c].spot < 1.0
  }

  /** Block i of an array of `total` blocks of `stride` words: a record or a genome. */
  function Block(s: seq<int>, total: nat, stride: nat, i: nat): (b: seq<int>)
    requires |s| == total * stride && i < total
    ensures |b| == stride
  {
    GridIndex.MulMonotone(i + 1, total, stride);
    s[i * stride .. i * stride + stride]
  }

  /** The id slot of record i. */
  function IdAt(state: seq<int>, total: nat, i: nat): int
    requires |state| == total * RecordSize && i < total
  {
    Block(state, total, RecordSize, i)[0]
  }

  /** The cells whose record carries an organism (a nonzero id). */
  ghost function OccupiedCells(state: seq<int>, total: nat): set<nat>
    requires |state| == total * RecordSize
  {
    set i: nat | i < total && IdAt(state, total, i) != 0
  }

  /** Founder c's draw picked cell i and no later founder's did: founder c is the one left there. */
  ghost predicate LastPick(founders: seq<FounderDraws>, total: nat, c: nat, i: nat)
    requires total > 0 && SpotsValid(founders)
  {
    && c < |founders| && Pick(founders[c].spot, total) == i
    && forall d :: c < d < |founders| ==> Pick(founders[d].spot, total) != i
  }

  ghost predicate Unpicked(founders: seq<FounderDraws>, total: nat, i: nat)
    requires total > 0 && SpotsValid(founders)
  {
    forall c :: 0 <= c < |founders| ==> Pick(founders[c].spot, total) != i
  }

  /** Storing a whole block changes that block and no other. */
  lemma OverwriteBlock(s: seq<int>, total: nat, stride: nat, at: nat, i: nat, data: seq<int>)
    requires |s| == total * stride && at < total && i < total && |data| == stride
    ensures Block(Overwrite(s, at * stride, data), total, stride, i) == if i == at then data else Block(s, total, stride, i)
  {
    var o := Overwrite(s, at * stride, data);
    var lo := at * stride;
    var p := i * stride;
    GridIndex.MulMonotone(i + 1, total, stride);
    assert (i + 1) * stride == p + stride;
    if i < at {
      GridIndex.MulMonotone(i + 1, at, stride);
      assert p + stride <= lo;
    } else if at < i {
      GridIndex.MulMonotone(at + 1, i, stride);
      assert (at + 1) * stride == lo + stride;
      assert lo + stride <= p;
    }
    var b := Block(o, total, stride, i);
    forall j | 0 <= j < stride
      ensures b[j] == if i == at then data[j] else s[p + j]
    {
      assert b[j] == o[p + j];
    }
  }

  /** The default fill gives every record the empty record's words. */
  lemma DefaultRecord(base: CellParams, total: nat, i: nat)
    requires i < total
    ensures Block(DefaultState(base, total), total, RecordSize, i) == StoredSlots(EmptyRecord(base))
    ensures IdAt(DefaultState(base, total), total, i) == 0
  {
    var b := Block(DefaultState(base, total), total, RecordSize, i);
    forall k | 0 <= k < RecordSize
      ensures b[k] == StoredSlots(EmptyRecord(base))[k]
    {
      GridIndex.SliceInBounds(i, total, RecordSize, k);
      assert (i * RecordSize + k) % RecordSize == k;
    }
  }

  /**
   * Every record of the seeded state array is the empty record, or the
   * record of the last founder whose draw picked that cell.
   */
  lemma {:induction false} SeededRecords(base: CellParams, total: nat, founders: seq<FounderDraws>, i: nat)
    requires total > 0 && SpotsValid(founders) && i < total
    ensures Unpicked(founders, total, i) ==>
      Block(SeededState(base, total, founders), total, RecordSize, i) == StoredSlots(EmptyRecord(base))
    ensures forall c: nat :: LastPick(founders, total, c, i) ==>
      Block(SeededState(base, total, founders), total, RecordSize, i) == StoredSlots(FounderRecord(c, base))
    decreases |founders|
  {
    if founders == [] {
      DefaultRecord(base, total, i);
    } else {
      var k := |founders| - 1;
      var prev := founders[..k];
      var at := Pick(founders[k].spot, total);
      var data := StoredSlots(FounderRecord(k, base));
      SeededRecords(base, total, prev, i);
      assert SeededState(base, total, founders) == Overwrite(SeededState(base, total, prev), at * RecordSize, data);
      OverwriteBlock(SeededState(base, total, prev), total, RecordSize, at, i, data);
      if at == i {
        forall c: nat | LastPick(founders, total, c, i)
          ensures c == k
        {
        }
      } else {
        forall c: nat | LastPick(founders, total, c, i)
          ensures LastPick(prev, total, c, i)
        {
          assert c < k && prev[c] == founders[c];
          forall d | c < d < k
            ensures Pick(prev[d].spot, total) != i
          {
            assert prev[d] == founders[d];
          }
        }
        if Unpicked(founders, total, i) {
          forall c | 0 <= c < k
            ensures Pick(prev[c].spot, total) != i
          {
            assert prev[c] == founders[c];
          }
        }
      }
    }
  }

  /** The genome a founder ends up with: its drawn genome with the marker planted. */
  function PlacedGenome(geneCount: nat, f: FounderDraws): (genome: seq<int>)
    requires geneCount >= 2 && ValidDraws(f, geneCount)
    ensures |genome| == geneCount
  {
    MarkerInGenome(geneCount, f.markerDraw);
    FounderGenome(geneCount, f.genes)[MarkerSlot(geneCount, f.markerDraw) := MarkerGene]
  }

  /** With at least two genes the marker lands in the genome, and before its last two genes when there are more. */
  lemma MarkerInGenome(geneCount: nat, r: real)
    requires geneCount >= 2 && 0.0 <= r < 1.0
    ensures 0 <= MarkerSlot(geneCount, r) < geneCount
    ensures geneCount >= 3 ==> MarkerSlot(geneCount, r) == Pick(r, geneCount - 2) < geneCount - 2
  {
    if geneCount == 2 {
      assert r * (geneCount - 2) as real == 0.0;
    } else {
      assert MarkerSlot(geneCount, r) == Pick(r, geneCount - 2);
    }
  }

  /** Storing one word inside block `at` is storing block `at` with that word replaced. */
  lemma OverwriteInBlock(s: seq<int>, total: nat, stride: nat, at: nat, m: nat, v: int)
    requires |s| == total * stride && at < total && m < stride
    ensures Overwrite(s, at * stride + m, [v]) == Overwrite(s, at * stride, Block(s, total, stride, at)[m := v])
  {
    var lo := at * stride;
    GridIndex.MulMonotone(at + 1, total, stride);
    assert (at + 1) * stride == lo + stride;
    var b := Block(s, total, stride, at)[m := v];
    var x := Overwrite(s, lo + m, [v]);
    var y := Overwrite(s, lo, b);
    forall j | 0 <= j < |s|
      ensures x[j] == y[j]
    {
      if lo <= j < lo + stride {
        assert y[j] == b[j - lo];
      }
    }
  }

  lemma ZerosBlock(total: nat, stride: nat, i: nat)
    requires i < total
    ensures Block(Zeros(total * stride), total, stride, i) == Zeros(stride)
  {
    var z := Zeros(total * stride);
    var b := Block(z, total, stride, i);
    var o := i * stride;
    GridIndex.MulMonotone(i + 1, total, stride);
    assert o + stride <= |z|;
    assert b == z[o .. o + stride];
    forall j | 0 <= j < stride
      ensures b[j] == 0
    {
      assert b[j] == z[o + j];
    }
  }

  /** Placing a founder's genome at block `at` writes that block and no other. */
  lemma PlaceGenomeBlock(genes: seq<int>, total: nat, geneCount: nat, at: nat, i: nat, f: FounderDraws)
    requires geneCount >= 2 && ValidDraws(f, geneCount)
    requires |genes| == total * geneCount && at < total && i < total
    ensures Block(PlaceFounderGenome(genes, at * geneCount, geneCount, f), total, geneCount, i)
         == if i == at then PlacedGenome(geneCount, f) else Block(genes, total, geneCount, i)
  {
    var genome := FounderGenome(geneCount, f.genes);
    var written := Overwrite(genes, at * geneCount, genome);
    OverwriteBlock(genes, total, geneCount, at, i, genome);
    OverwriteBlock(genes, total, geneCount, at, at, genome);
    MarkerInGenome(geneCount, f.markerDraw);
    var m := MarkerSlot(geneCount, f.markerDraw);
    OverwriteInBlock(written, total, geneCount, at, m, MarkerGene);
    OverwriteBlock(written, total, geneCount, at, i, genome[m := MarkerGene]);
  }

  /**
   * With at least two genes per cell, every genome of the seeded gene
   * array is all zeros, or the placed genome of the last founder whose
   * draw picked that cell.
   */
  lemma {:induction false} SeededGenomes(total: nat, geneCount: nat, founders: seq<FounderDraws>, i: nat)
    requires total > 0 && geneCount >= 2 && ValidFounders(founders, geneCount) && i < total
    ensures Unpicked(founders, total, i) ==>
      Block(SeededGenes(total, geneCount, founders), total, geneCount, i) == Zeros(geneCount)
    ensures forall c: nat :: LastPick(founders, total, c, i) ==>
      Block(SeededGenes(total, geneCount, founders), total, geneCount, i) == PlacedGenome(geneCount, founders[c])
    decreases |founders|
  {
    var after := SeededGenes(total, geneCount, founders);
    if founders == [] {
      assert after == Zeros(total * geneCount);
      ZerosBlock(total, geneCount, i);
    } else {
      var k := |founders| - 1;
      var prev := founders[..k];
      assert ValidFounders(prev, geneCount);
      SeededGenomes(total, geneCount, prev, i);
      var at := Pick(founders[k].spot, total);
      var before := SeededGenes(total, geneCount, prev);
      assert after == PlaceFounderGenome(before, at * geneCount, geneCount, founders[k]);
      PlaceGenomeBlock(before, total, geneCount, at, i, founders[k]);
      if at == i {
        assert !Unpicked(founders, total, i);
        forall c: nat | LastPick(founders, total, c, i)
          ensures c == k
        {
        }
      } else {
        assert Block(after, total, geneCount, i) == Block(before, total, geneCount, i);
        if Unpicked(founders, total, i) {
          assert forall c :: 0 <= c < k ==> prev[c] == founders[c];
          assert Unpicked(prev, total, i);
        }
        forall c: nat | LastPick(founders, total, c, i)
          ensures LastPick(prev, total, c, i) && prev[c] == founders[c]
        {
        }
      }
    }
  }

  /** The shape every founder genome has: a marker before the last two genes, the other genes drawn actions, a zero tail. */
  ghost predicate IsFounderGenome(genome: seq<int>)
  {
    && |genome| >= 3
    && genome[|genome| - 2] == 0 && genome[|genome| - 1] == 0
    && exists p :: 0 <= p < |genome| - 2 && genome[p] == MarkerGene
         && forall g :: 0 <= g < |genome| && g != p ==> genome[g] in FounderActions
  }

  /** With three or more genes, a placed genome has the founder shape and exactly one marker. */
  lemma PlacedGenomeShape(geneCount: nat, f: FounderDraws)
    requires geneCount >= 3 && ValidDraws(f, geneCount)
    ensures IsFounderGenome(PlacedGenome(geneCount, f))
    ensures forall g :: 0 <= g < geneCount ==>
      (PlacedGenome(geneCount, f)[g] == MarkerGene <==> g == MarkerSlot(geneCount, f.markerDraw))
  {
    var genome := PlacedGenome(geneCount, f);
    var m := MarkerSlot(geneCount, f.markerDraw);
    MarkerInGenome(geneCount, f.markerDraw);
    assert MarkerGene !in FounderActions;
    assert genome[m] == MarkerGene;
  }

  /** When some founder picked cell i, one of them was the last to. */
  lemma {:induction false} LastPickExists(founders: seq<FounderDraws>, total: nat, c0: nat, i: nat)
    requires total > 0 && SpotsValid(founders) && c0 < |founders| && Pick(founders[c0].spot, total) == i
    ensures exists c: nat :: LastPick(founders, total, c, i)
    decreases |founders| - c0
  {
    if forall d :: c0 < d < |founders| ==> Pick(founders[d].spot, total) != i {
      assert LastPick(founders, total, c0, i);
    } else {
      var d :| c0 < d < |founders| && Pick(founders[d].spot, total) == i;
      LastPickExists(founders, total, d, i);
    }
  }

  /**
   * After seeding (at least three genes per cell, fewer than 2^32 founders),
   * record i is occupied exactly when some founder picked cell i; an
   * occupied record has an id in 1 .. initialCount and a founder-shaped
   * genome, an unoccupied one is the empty record with an all-zero genome.
   */
  lemma SeededCell(base: CellParams, total: nat, geneCount: nat, founders: seq<FounderDraws>, i: nat)
    requires total > 0 && geneCount >= 3 && ValidFounders(founders, geneCount) && i < total
    requires |founders| < Two32
    ensures IdAt(SeededState(base, total, founders), total, i) != 0 <==> !Unpicked(founders, total, i)
    ensures IdAt(SeededState(base, total, founders), total, i) != 0 ==>
      && 1 <= IdAt(SeededState(base, total, founders), total, i) <= |founders|
      && IsFounderGenome(Block(SeededGenes(total, geneCount, founders), total, geneCount, i))
    ensures IdAt(SeededState(base, total, founders), total, i) == 0 ==>
      && Block(SeededState(base, total, founders), total, RecordSize, i) == StoredSlots(EmptyRecord(base))
      && Block(SeededGenes(total, geneCount, founders), total, geneCount, i) == Zeros(geneCount)
  {
    SeededRecords(base, total, founders, i);
    SeededGenomes(total, geneCount, founders, i);
    var state := SeededState(base, total, founders);
    var record := Block(state, total, RecordSize, i);
    if Unpicked(founders, total, i) {
      assert record[SlotIndex(OriginalId)] == ToUint32(0);
    } else {
      var c := LastFounderAt(founders, total, i);
      assert record == StoredSlots(FounderRecord(c, base));
      assert record[SlotIndex(OriginalId)] == ToUint32(c + 1);
      PlacedGenomeShape(geneCount, founders[c]);
    }
  }

  /** The founder left at a picked cell. */
  lemma LastFounderAt(founders: seq<FounderDraws>, total: nat, i: nat) returns (c: nat)
    requires total > 0 && SpotsValid(founders) && !Unpicked(founders, total, i)
    ensures LastPick(founders, total, c, i)
  {
    var c0 :| 0 <= c0 < |founders| && Pick(founders[c0].spot, total) == i;
    LastPickExists(founders, total, c0, i);
    c :| LastPick(founders, total, c, i);
  }

  /** Seeding never changes the traits or the field energy of a record: all carry the base traits. */
  lemma SeededTraits(base: CellParams, total: nat, founders: seq<FounderDraws>, i: nat)
    requires total > 0 && SpotsValid(founders) && i < total
    ensures
      var record := Block(SeededState(base, total, founders), total, RecordSize, i);
      && record[SlotIndex(MaxEnergy)] == ToUint32(base.maxEnergy)
      && record[SlotIndex(Will)] == ToUint32(base.will)
      && record[SlotIndex(MaxEnergyToGet)] == ToUint32(base.maxEnergyToGet)
      && record[SlotIndex(EnergyFromSun)] == ToUint32(base.energyFromSun)
      && record[SlotIndex(EnergyInFieldCell)] == 0
  {
    SeededRecords(base, total, founders, i);
    var record := Block(SeededState(base, total, founders), total, RecordSize, i);
    var r: CellRecord;
    if Unpicked(founders, total, i) {
      r := EmptyRecord(base);
    } else {
      var c := LastFounderAt(founders, total, i);
      r := FounderRecord(c, base);
    }
    assert record == StoredSlots(r);
    StoredTraits(r, base);
  }

  lemma StoredTraits(r: CellRecord, base: CellParams)
    requires TraitsOf(r) == base && r.energyInFieldCell == 0
    ensures
      var s := StoredSlots(r);
      && s[SlotIndex(MaxEnergy)] == ToUint32(base.maxEnergy)
      && s[SlotIndex(Will)] == ToUint32(base.will)
      && s[SlotIndex(MaxEnergyToGet)] == ToUint32(base.maxEnergyToGet)
      && s[SlotIndex(EnergyFromSun)] == ToUint32(base.energyFromSun)
      && s[SlotIndex(EnergyInFieldCell)] == 0
  {
    var s := StoredSlots(r);
    assert s[SlotIndex(MaxEnergy)] == ToUint32(Field(r, MaxEnergy));
    assert s[SlotIndex(Will)] == ToUint32(Field(r, Will));
    assert s[SlotIndex(MaxEnergyToGet)] == ToUint32(Field(r, MaxEnergyToGet));
    assert s[SlotIndex(EnergyFromSun)] == ToUint32(Field(r, EnergyFromSun));
    assert s[SlotIndex(EnergyInFieldCell)] == ToUint32(Field(r, EnergyInFieldCell));
  }

  /** Seeding founder c leaves every record but the one it picked as it was. */
  lemma SeedingKeepsOtherRecords(base: CellParams, total: nat, founders: seq<FounderDraws>, c: nat, i: nat)
    requires total > 0 && SpotsValid(founders) && c < |founders| && i < total
    requires Pick(founders[c].spot, total) != i
    ensures Block(SeededState(base, total, founders[..c + 1]), total, RecordSize, i)
         == Block(SeededState(base, total, founders[..c]), total, RecordSize, i)
  {
    assert founders[..c + 1][..c] == founders[..c];
    OverwriteBlock(SeededState(base, total, founders[..c]), total, RecordSize, Pick(founders[c].spot, total), i,
                   StoredSlots(FounderRecord(c, base)));
  }

  /** At most initialCount cells are occupied after seeding: cells picked twice hold one organism. */
  lemma {:induction false} OccupiedAtMostFounders(base: CellParams, total: nat, founders: seq<FounderDraws>)
    requires total > 0 && SpotsValid(founders)
    ensures |OccupiedCells(SeededState(base, total, founders), total)| <= |founders|
    decreases |founders|
  {
    var state := SeededState(base, total, founders);
    if founders == [] {
      forall i: nat | i < total
        ensures IdAt(state, total, i) == 0
      {
        DefaultRecord(base, total, i);
      }
      assert OccupiedCells(state, total) == {};
    } else {
      var k := |founders| - 1;
      var prev := founders[..k];
      assert founders[..k + 1] == founders;
      OccupiedAtMostFounders(base, total, prev);
      var at := Pick(founders[k].spot, total);
      var before := SeededState(base, total, prev);
      forall i: nat | i in OccupiedCells(state, total)
        ensures i in OccupiedCells(before, total) + {at}
      {
        if i != at {
          SeedingKeepsOtherRecords(base, total, founders, k, i);
        }
      }
      assert OccupiedCells(state, total) <= OccupiedCells(before, total) + {at};
      SubsetCardinality(OccupiedCells(state, total), OccupiedCells(before, total) + {at});
    }
  }

  lemma SubsetCardinality<T>(a: set<T>, b: set<T>)
    requires a <= b
    ensures |a| <= |b|
  {
    assert b == a + (b - a);
  }

  // ---------------------------------------------------------------------
  // updateParamUniforms
  // ---------------------------------------------------------------------

  /** The labels of the sun-mode selector, at the index the compute shader receives for each. */
  const SunModeLabels: seq<string> :=
    ["Constant Full", "Clipping Full", "Constant 4 Islands", "Clipping 4 Islands", "Dynamic Sun"]

  /** Floats in the parameter uniform; in the frame uniform, 32-bit words. */
  const ParamWords: nat := 16
  const FrameWords: nat := 4

  /** The switch on the selected label; an unknown label selects index 0. */
  function SunModeLabelIndex(selected: string): (i: nat)
    ensures i < |SunModeLabels|
    ensures selected in SunModeLabels ==> SunModeLabels[i] == selected
    ensures selected !in SunModeLabels ==> i == 0
  {
    if selected == "Constant Full" then 0
    else if selected == "Clipping Full" then 1
    else if selected == "Constant 4 Islands" then 2
    else if selected == "Clipping 4 Islands" then 3
    else if selected == "Dynamic Sun" then 4
    else 0
  }

  /**
   * The WebGPU labels and the WebGL names number the five modes alike;
   * they differ on anything else, which WebGPU treats as mode 0 and WebGL
   * as -1.
   */
  lemma SunModeEncodingsAgree(m: SunMode, s: string)
    ensures SunModeLabelIndex(SunModeLabels[SunModeOrdinal(m)]) == SunModeOrdinal(m)
    ensures WebGLEngine.SunModeIndex(SunModeName(m)) == SunModeOrdinal(m)
    ensures s !in SunModeLabels && SunModeFromName(s).None? ==>
      SunModeLabelIndex(s) == 0 && WebGLEngine.SunModeIndex(s) == -1
  {
    SunModeLabelOrder(m);
    WebGLEngine.SunModeIndexOrder(m);
    WebGLEngine.UnknownSunModeIndex(s);
  }

  /** The switch numbers the five labels 0..4 in the order of the drop-down. */
  lemma SunModeLabelOrder(m: SunMode)
    ensures SunModeLabelIndex(SunModeLabels[SunModeOrdinal(m)]) == SunModeOrdinal(m)
  {
    match m
    case ConstantFull =>
    case ClippingFull =>
    case ConstantIslands =>
    case ClippingIslands =>
    case DynamicSun =>
  }

  function Flag(b: bool): (f: real)
    ensures f == 0.0 || f == 1.0
    ensures b <==> f == 1.0
  {
    if b then 1.0 else 0.0
  }

  /** The 16 floats updateParamUniforms uploads: sun, mode, multiplier, the four toggles, then zeros. */
  function ParamUniforms(s: Settings): (data: seq<real>)
    ensures |data| == ParamWords
  {
    [s.sunEnergy, s.sunCycle, SunModeLabelIndex(s.sunMode) as real, s.energyMultiplier,
     Flag(s.showCells), Flag(s.showEnergy), Flag(s.showSun), Flag(s.showCellEnergy)]
    + seq(8, _ => 0.0)
  }

  /** What the shader can read back from the parameter uniform: the settings it encodes and nothing else. */
  lemma ParamUniformsDecode(s: Settings)
    ensures var data := ParamUniforms(s);
      && data[0] == s.sunEnergy && data[1] == s.sunCycle && data[3] == s.energyMultiplier
      && 0 <= data[2].Floor < |SunModeLabels| && data[2] == data[2].Floor as real
      && (s.sunMode in SunModeLabels ==> SunModeLabels[data[2].Floor] == s.sunMode)
      && (data[4] == 1.0 <==> s.showCells) && (data[5] == 1.0 <==> s.showEnergy)
      && (data[6] == 1.0 <==> s.showSun) && (data[7] == 1.0 <==> s.showCellEnergy)
      && forall k :: 8 <= k < ParamWords ==> data[k] == 0.0
  {
    var data := ParamUniforms(s);
    assert data[2] == SunModeLabelIndex(s.sunMode) as real;
  }

  // ---------------------------------------------------------------------
  // pasteCell
  // ---------------------------------------------------------------------

  /**
   * maxEnergy / 2 as the Uint32 store sees it: the store truncates the
   * (possibly fractional) quotient toward zero before wrapping.
   */
  function HalfTowardZero(m: int): (h: int)
    ensures m >= 0 ==> 0 <= 2 * h <= m
    ensures m < 0 ==> m <= 2 * h <= 0
    ensures h * 2 == m || h * 2 == m - 1 || h * 2 == m + 1
  {
    if m >= 0 then m / 2 else -((-m) / 2)
  }

  /** The record pasteCell stores: the copied traits, half their energy, gene pointer 0, id 9999. */
  function PastedRecord(p: CellParams): (c: CellRecord)
    ensures c.originalId == PastedId && TraitsOf(c) == p
    ensures c.activeGen == 0 && c.energyInFieldCell == 0
    ensures c.energy == HalfTowardZero(p.maxEnergy)
    ensures p.maxEnergy >= 0 ==> 0 <= c.energy <= c.maxEnergy
  {
    CreateCell(p.will, p, HalfTowardZero(p.maxEnergy), 0).(originalId := PastedId)
  }

  /**
   * A write of one block's worth of words at byte offset idx * stride * 4
   * replaces block idx and leaves every other block as it was.
   */
  lemma WriteBlockAtByteOffset(words: seq<int>, total: nat, stride: nat, idx: nat, i: nat, data: seq<int>)
    requires |words| == total * stride && idx < total && i < total && |data| == stride
    ensures Block(WriteBufferWords(words, idx * stride * WordBytes, data), total, stride, i)
         == if i == idx then data else Block(words, total, stride, i)
  {
    var off := idx * stride;
    GridIndex.MulMonotone(idx + 1, total, stride);
    assert (idx + 1) * stride == off + stride;
    var bytes := idx * stride * WordBytes;
    assert bytes == off * 4;
    assert bytes / 4 == off && bytes % 4 == 0;
    assert WriteBufferWords(words, bytes, data) == Overwrite(words, off, data);
    OverwriteBlock(words, total, stride, idx, i, data);
  }

  // ---------------------------------------------------------------------
  // GPU buffers and the App component
  // ---------------------------------------------------------------------

  /** A GPU storage buffer, as the words it holds. */
  class GpuBuffer {
    var words: seq<int>

    /** device.createBuffer: a zero-initialised buffer of `size` words. */
    constructor (size: nat)
      ensures words == Zeros(size)
    {
      words := Zeros(size);
    }

    /** device.queue.writeBuffer(this, byteOffset, data). */
    method Write(byteOffset: int, data: seq<int>)
      modifies this
      ensures words == WriteBufferWords(old(words), byteOffset, data)
    {
      words := WriteBufferWords(words, byteOffset, data);
    }
  }

  /**
   * The App component's simulation state: its settings, the lifecycle
   * flags, the frame counter, the ping-pong state buffers A and B, the
   * gene buffer, the buffers the bind groups refer to, the two uniforms and
   * the copy-paste slots.
   */
  class App {
    var settings: Settings
    var running: bool
    var paused: bool
    var frameCount: int
    var stateA: GpuBuffer?
    var stateB: GpuBuffer?
    var geneBuffer: GpuBuffer?
    /** The compute bind group's input (binding 0) and output (binding 1) state buffers. */
    var computeInput: GpuBuffer?
    var computeOutput: GpuBuffer?
    /** The render bind group's state buffer (binding 0). */
    var renderSource: GpuBuffer?
    var paramUniform: seq<real>
    var frameUniform: seq<int>
    var copiedGene: Option<seq<int>>
    var copiedParams: Option<CellParams>

    /**
     * The buffers exist together or not at all, are three distinct
     * buffers, and the compute pass reads A, writes B, and the render pass
     * draws A.
     */
    ghost predicate Valid()
      reads this
    {
      && |paramUniform| == ParamWords && |frameUniform| == FrameWords
      && (stateA == null <==> stateB == null) && (stateA == null <==> geneBuffer == null)
      && (stateA != null ==> stateA != stateB && stateA != geneBuffer && stateB != geneBuffer)
      && computeInput == stateA && computeOutput == stateB && renderSource == stateA
    }

    /** The component on mount: default settings, nothing running, uniforms allocated, no state buffers. */
    constructor ()
      ensures Valid() && settings == DefaultSettings()
      ensures !running && !paused && frameCount == 0 && stateA == null
      ensures paramUniform == seq(ParamWords, _ => 0.0) && frameUniform == Zeros(FrameWords)
      ensures copiedGene.None? && copiedParams.None?
    {
      settings := DefaultSettings();
      running := false;
      paused := false;
      frameCount := 0;
      stateA := null;
      stateB := null;
      geneBuffer := null;
      computeInput := null;
      computeOutput := null;
      renderSource := null;
      paramUniform := seq(ParamWords, _ => 0.0);
      frameUniform := Zeros(FrameWords);
      copiedGene := None;
      copiedParams := None;
    }

    /**
     * setupSimulation: fresh buffers A, B and genes; A and B both hold the
     * seeded state, the gene buffer the seeded genes; A is bound as the
     * current state.
     */
    method SetupSimulation(founders: seq<FounderDraws>)
      requires Valid() && settings.geneCount >= 0
      requires |founders| == GeneUtils.Iterations(settings.initialCount) && ValidFounders(founders, settings.geneCount)
      modifies this`frameCount, this`stateA, this`stateB, this`geneBuffer
      modifies this`computeInput, this`computeOutput, this`renderSource
      ensures Valid() && stateA != null && fresh(stateA) && fresh(stateB) && fresh(geneBuffer)
      ensures stateA.words == SeededState(BaseParams(settings), TotalCells, founders)
      ensures stateB.words == stateA.words
      ensures geneBuffer.words == SeededGenes(TotalCells, settings.geneCount, founders)
      ensures frameCount == 0
    {
      var a, b, g := SeededBuffers(settings, founders);
      Bind(a, b, g);
    }

    /**
     * The new buffers become A, B and the gene buffer, the compute bind
     * group reads A and writes B, the render bind group reads A, and the
     * frame counter restarts.
     */
    method Bind(a: GpuBuffer, b: GpuBuffer, g: GpuBuffer)
      requires Valid() && a != b && a != g && b != g
      modifies this`frameCount, this`stateA, this`stateB, this`geneBuffer
      modifies this`computeInput, this`computeOutput, this`renderSource
      ensures Valid() && stateA == a && stateB == b && geneBuffer == g && frameCount == 0
    {
      frameCount := 0;
      stateA, stateB, geneBuffer := a, b, g;
      computeInput, computeOutput := a, b;
      renderSource := a;
    }

    /** updateParamUniforms: the parameter uniform holds the current settings; nothing else changes. */
    method UpdateParamUniforms()
      requires Valid()
      modifies this`paramUniform
      ensures Valid() && paramUniform == ParamUniforms(settings)
    {
      paramUniform := ParamUniforms(settings);
    }

    /**
     * runFrame: bump the counter and upload it, refresh the parameters,
     * let the compute pass write `computed` into B, then swap A and B and
     * rebind, so the render pass draws what was just computed. The gene
     * buffer is untouched.
     */
    method RunFrame(computed: seq<int>) returns (rendered: GpuBuffer)
      requires Valid() && stateA != null && |computed| == |stateB.words|
      modifies this, stateB
      ensures Valid() && stateA == old(stateB) && stateB == old(stateA) && geneBuffer == old(geneBuffer)
      ensures stateA.words == computed && stateB.words == old(stateA.words)
      ensures geneBuffer.words == old(geneBuffer.words)
      ensures rendered == stateA
      ensures frameCount == old(frameCount) + 1
      ensures frameUniform == WriteBufferWords(old(frameUniform), 0, [ToUint32(old(frameCount) + 1)])
      ensures paramUniform == ParamUniforms(settings)
      ensures settings == old(settings) && running == old(running) && paused == old(paused)
      ensures copiedGene == old(copiedGene) && copiedParams == old(copiedParams)
    {
      AdvanceFrame();
      UpdateParamUniforms();
      computeOutput.words := computed;
      SwapStateBuffers();
      rendered := renderSource;
    }

    /** frameCountRef.current += 1, then the new count is written to the frame uniform. */
    method AdvanceFrame()
      requires Valid()
      modifies this`frameCount, this`frameUniform
      ensures Valid() && frameCount == old(frameCount) + 1
      ensures frameUniform == WriteBufferWords(old(frameUniform), 0, [ToUint32(frameCount)])
    {
      frameCount := frameCount + 1;
      frameUniform := WriteBufferWords(frameUniform, 0, [ToUint32(frameCount)]);
    }

    /**
     * The ping-pong swap: A and B trade places, the compute bind group now
     * reads the new A and writes the new B, and the render bind group draws
     * the new A. No buffer's contents change.
     */
    method SwapStateBuffers()
      requires Valid()
      modifies this`stateA, this`stateB, this`computeInput, this`computeOutput, this`renderSource
      ensures Valid() && stateA == old(stateB) && stateB == old(stateA)
    {
      stateA, stateB := stateB, stateA;
      computeInput, computeOutput := stateA, stateB;
      renderSource := stateA;
    }

    /** startSimulation: stop if running, set up afresh, then run unpaused from frame 0. */
    method StartSimulation(founders: seq<FounderDraws>)
      requires Valid() && settings.geneCount >= 0
      requires |founders| == GeneUtils.Iterations(settings.initialCount) && ValidFounders(founders, settings.geneCount)
      modifies this
      ensures settings == old(settings) && paramUniform == old(paramUniform) && frameUniform == old(frameUniform)
      ensures Valid() && running && !paused && frameCount == 0
      ensures stateA != null && fresh(stateA) && fresh(stateB) && fresh(geneBuffer)
      ensures stateA.words == SeededState(BaseParams(settings), TotalCells, founders) && stateB.words == stateA.words
      ensures geneBuffer.words == SeededGenes(TotalCells, settings.geneCount, founders)
      ensures copiedGene == old(copiedGene) && copiedParams == old(copiedParams)
    {
      if running {
        StopSimulation();
      }
      SetupSimulation(founders);
      MarkRunning();
    }

    /** setSimRunning(true), setPaused(false) and the counter reset that end startSimulation. */
    method MarkRunning()
      modifies this`running, this`paused, this`frameCount
      ensures running && !paused && frameCount == 0
    {
      running, paused, frameCount := true, false, 0;
    }

    /** pauseSimulation: sets the paused flag, whether or not a run is in progress. */
    method PauseSimulation()
      requires Valid()
      modifies this
      ensures Valid() && paused && running == old(running) && frameCount == old(frameCount)
      ensures stateA == old(stateA) && stateB == old(stateB) && geneBuffer == old(geneBuffer)
      ensures settings == old(settings) && paramUniform == old(paramUniform) && frameUniform == old(frameUniform)
      ensures copiedGene == old(copiedGene) && copiedParams == old(copiedParams)
    {
      paused := true;
    }

    /** continueSimulation: unpauses only a run that is both running and paused. */
    method ContinueSimulation()
      requires Valid()
      modifies this
      ensures Valid() && running == old(running) && frameCount == old(frameCount)
      ensures paused == (old(paused) && !old(running))
      ensures stateA == old(stateA) && stateB == old(stateB) && geneBuffer == old(geneBuffer)
      ensures settings == old(settings) && paramUniform == old(paramUniform) && frameUniform == old(frameUniform)
      ensures copiedGene == old(copiedGene) && copiedParams == old(copiedParams)
    {
      if running && paused {
        paused := false;
      }
    }

    /** stopSimulation: clears both flags and keeps the buffers (the last frame stays). */
    method StopSimulation()
      requires Valid()
      modifies this
      ensures Valid() && !running && !paused && frameCount == old(frameCount)
      ensures stateA == old(stateA) && stateB == old(stateB) && geneBuffer == old(geneBuffer)
      ensures settings == old(settings) && paramUniform == old(paramUniform) && frameUniform == old(frameUniform)
      ensures copiedGene == old(copiedGene) && copiedParams == old(copiedParams)
    {
      running := false;
      paused := false;
    }

    /**
     * pasteCell: with a copied genome and traits, store the pasted record
     * at the cell the draw picks in A (the current state) and the copied
     * genome at that cell's gene offset; without them, do nothing.
     */
    method PasteCell(spot: real) returns (pastedAt: Option<nat>)
      requires Valid() && 0.0 <= spot < 1.0
      modifies stateA, geneBuffer
      ensures Valid()
      ensures pastedAt.Some? <==> copiedGene.Some? && copiedParams.Some? && stateA != null
      ensures pastedAt.Some? ==>
        && pastedAt.value == Pick(spot, TotalCells)
        && stateA.words == WriteBufferWords(old(stateA.words), pastedAt.value * RecordSize * WordBytes,
                                            StoredSlots(PastedRecord(copiedParams.value)))
        && geneBuffer.words == WriteBufferWords(old(geneBuffer.words), pastedAt.value * settings.geneCount * WordBytes,
                                                copiedGene.value)
      ensures pastedAt.None? && stateA != null ==>
        stateA.words == old(stateA.words) && geneBuffer.words == old(geneBuffer.words)
    {
      if copiedGene.None? || copiedParams.None? || stateA == null {
        return None;
      }
      var idx := Pick(spot, TotalCells);
      var offset := idx * RecordSize * WordBytes;
      var geneOffset := idx * settings.geneCount * WordBytes;
      var cell := PastedRecord(copiedParams.value);
      stateA.Write(offset, StoredSlots(cell));
      geneBuffer.Write(geneOffset, copiedGene.value);
      pastedAt := Some(idx);
    }
  }

  /** setupSimulation's CPU-side arrays for the given settings: base traits, then BuildInitialArrays. */
  method InitialArrays(s: Settings, founders: seq<FounderDraws>) returns (stateArray: seq<int>, geneArray: seq<int>)
    requires s.geneCount >= 0
    requires |founders| == GeneUtils.Iterations(s.initialCount) && ValidFounders(founders, s.geneCount)
    ensures stateArray == SeededState(BaseParams(s), TotalCells, founders)
    ensures geneArray == SeededGenes(TotalCells, s.geneCount, founders)
  {
    var base := BaseParams(s);
    stateArray, geneArray := BuildInitialArrays(base, TotalCells, s.geneCount, s.initialCount, founders);
  }

  /** The three buffers setupSimulation creates: A and B with the seeded state, one with the seeded genes. */
  method SeededBuffers(s: Settings, founders: seq<FounderDraws>) returns (a: GpuBuffer, b: GpuBuffer, g: GpuBuffer)
    requires s.geneCount >= 0
    requires |founders| == GeneUtils.Iterations(s.initialCount) && ValidFounders(founders, s.geneCount)
    ensures fresh(a) && fresh(b) && fresh(g) && a != b && a != g && b != g
    ensures a.words == SeededState(BaseParams(s), TotalCells, founders) && b.words == a.words
    ensures g.words == SeededGenes(TotalCells, s.geneCount, founders)
  {
    var stateArray, geneArray := InitialArrays(s, founders);
    a := UploadedBuffer(stateArray);
    b := UploadedBuffer(stateArray);
    g := UploadedBuffer(geneArray);
  }

  /** createBuffer of the data's size, then writeBuffer of the data at offset 0. */
  method UploadedBuffer(data: seq<int>) returns (b: GpuBuffer)
    ensures fresh(b) && b.words == data
  {
    b := new GpuBuffer(|data|);
    b.Write(0, data);
    WholeBufferWrite(Zeros(|data|), data);
  }

  /** Two frames put A and B back in their roles; A then holds the second frame's result. */
  method TwoFrames(app: App, first: seq<int>, second: seq<int>)
    requires app.Valid() && app.stateA != null
    requires |first| == |app.stateB.words| && |second| == |app.stateA.words|
    modifies app, app.stateA, app.stateB
    ensures app.Valid() && app.stateA == old(app.stateA) && app.stateB == old(app.stateB)
    ensures app.stateA.words == second && app.stateB.words == first
    ensures app.frameCount == old(app.frameCount) + 2
  {
    var r1 := app.RunFrame(first);
    var r2 := app.RunFrame(second);
  }

  /** Pausing and then continuing a running simulation leaves it running and unpaused. */
  method PauseThenContinue(app: App)
    requires app.Valid() && app.running
    modifies app
    ensures app.Valid() && app.running && !app.paused
    ensures app.stateA == old(app.stateA) && app.frameCount == old(app.frameCount)
  {
    app.PauseSimulation();
    app.ContinueSimulation();
  }
}
