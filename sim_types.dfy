/**
 * The data model shared by both simulation drivers: the eight-slot cell
 * record, the eighteen gene opcodes and the five sunlight modes, with total
 * encodings to and from the numbers and names the GPU programs see.
 */
module SimulationTypes {
  import opened Wrappers

  // ---------------------------------------------------------------------
  // Cell record layout (enum CellChar)
  // ---------------------------------------------------------------------

  /** The characteristics of a cell, one per slot of its record. */
  datatype CellChar =
    | OriginalId | Energy | MaxEnergy | Will
    | MaxEnergyToGet | EnergyInFieldCell | EnergyFromSun | ActiveGen

  /** Number of slots in one cell record. */
  const RecordSize: nat := 8

  /** The slot a characteristic occupies in the record. */
  function SlotIndex(c: CellChar): (i: nat)
    ensures i < RecordSize
  {
    match c
    case OriginalId => 0
    case Energy => 1
    case MaxEnergy => 2
    case Will => 3
    case MaxEnergyToGet => 4
    case EnergyInFieldCell => 5
    case EnergyFromSun => 6
    case ActiveGen => 7
  }

  /** The characteristic stored at slot `i`; None outside the record. */
  function SlotChar(i: int): (r: Option<CellChar>)
    ensures r.Some? <==> 0 <= i < RecordSize
    ensures r.Some? ==> SlotIndex(r.value) == i
  {
    if i == 0 then Some(OriginalId)
    else if i == 1 then Some(Energy)
    else if i == 2 then Some(MaxEnergy)
    else if i == 3 then Some(Will)
    else if i == 4 then Some(MaxEnergyToGet)
    else if i == 5 then Some(EnergyInFieldCell)
    else if i == 6 then Some(EnergyFromSun)
    else if i == 7 then Some(ActiveGen)
    else None
  }

  /** Distinct characteristics occupy distinct slots, and every slot is named. */
  lemma SlotIndexBijective(a: CellChar, b: CellChar, i: nat)
    ensures SlotIndex(a) == SlotIndex(b) ==> a == b
    ensures SlotChar(SlotIndex(a)) == Some(a)
    ensures i < RecordSize ==> exists c :: SlotIndex(c) == i
  {
    if i < RecordSize {
      assert SlotIndex(SlotChar(i).value) == i;
    }
  }

  // ---------------------------------------------------------------------
  // Gene opcodes (enum GeneAction)
  // ---------------------------------------------------------------------

  /** Neighbour directions, in the order the directional opcodes list them. */
  datatype Direction = Up | Right | Down | Left

  function DirectionIndex(d: Direction): (i: nat)
    ensures i < 4
  {
    match d
    case Up => 0
    case Right => 1
    case Down => 2
    case Left => 3
  }

  function DirectionOf(i: int): (r: Option<Direction>)
    ensures r.Some? <==> 0 <= i < 4
    ensures r.Some? ==> DirectionIndex(r.value) == i
  {
    if i == 0 then Some(Up)
    else if i == 1 then Some(Right)
    else if i == 2 then Some(Down)
    else if i == 3 then Some(Left)
    else None
  }

  /**
   * The eighteen gene actions. The three directional families
   * (DIVIDE_*, TRANSFER_*, SUICIDE_TRANSFER_*) carry their direction.
   */
  datatype GeneAction =
    | Idle
    | Divide(dir: Direction)
    | ExtractEnergy
    | GetSolarEnergy
    | Transfer(dir: Direction)
    | SuicideResetZero
    | SuicideResetMax
    | SuicideAddEnergy
    | SuicideTransfer(dir: Direction)

  const OpcodeCount: nat := 18

  /** Code of the first member (UP) of each directional family. */
  const DivideBase: nat := 1
  const TransferBase: nat := 7
  const SuicideTransferBase: nat := 14

  /** The numeric opcode of an action. */
  function Encode(a: GeneAction): (code: nat)
    ensures code < OpcodeCount
  {
    match a
    case Idle => 0
    case Divide(d) => DivideBase + DirectionIndex(d)
    case ExtractEnergy => 5
    case GetSolarEnergy => 6
    case Transfer(d) => TransferBase + DirectionIndex(d)
    case SuicideResetZero => 11
    case SuicideResetMax => 12
    case SuicideAddEnergy => 13
    case SuicideTransfer(d) => SuicideTransferBase + DirectionIndex(d)
  }

  /** The action of a numeric opcode; None for anything outside 0..17. */
  function Decode(code: int): (r: Option<GeneAction>)
    ensures r.Some? <==> 0 <= code < OpcodeCount
    ensures r.Some? ==> Encode(r.value) == code
  {
    if code == 0 then Some(Idle)
    else if DivideBase <= code < DivideBase + 4 then Some(Divide(DirectionOf(code - DivideBase).value))
    else if code == 5 then Some(ExtractEnergy)
    else if code == 6 then Some(GetSolarEnergy)
    else if TransferBase <= code < TransferBase + 4 then Some(Transfer(DirectionOf(code - TransferBase).value))
    else if code == 11 then Some(SuicideResetZero)
    else if code == 12 then Some(SuicideResetMax)
    else if code == 13 then Some(SuicideAddEnergy)
    else if SuicideTransferBase <= code < SuicideTransferBase + 4 then
      Some(SuicideTransfer(DirectionOf(code - SuicideTransferBase).value))
    else None
  }

  /** Encoding then decoding returns the action: the eighteen codes are distinct. */
  lemma DecodeEncode(a: GeneAction)
    ensures Decode(Encode(a)) == Some(a)
  {
    match a
    case Divide(d) => assert DirectionOf(DirectionIndex(d)) == Some(d);
    case Transfer(d) => assert DirectionOf(DirectionIndex(d)) == Some(d);
    case SuicideTransfer(d) => assert DirectionOf(DirectionIndex(d)) == Some(d);
    case _ =>
  }

  /** Distinct actions have distinct codes. */
  lemma EncodeInjective(a: GeneAction, b: GeneAction)
    ensures Encode(a) == Encode(b) ==> a == b
  {
    DecodeEncode(a);
    DecodeEncode(b);
  }

  /**
   * Inside each directional family the code minus the family's base is the
   * direction index, UP, RIGHT, DOWN, LEFT in that order.
   */
  lemma DirectionalFamilies(code: int, d: Direction)
    ensures Decode(code) == Some(Divide(d)) <==> code == DivideBase + DirectionIndex(d)
    ensures Decode(code) == Some(Transfer(d)) <==> code == TransferBase + DirectionIndex(d)
    ensures Decode(code) == Some(SuicideTransfer(d)) <==> code == SuicideTransferBase + DirectionIndex(d)
  {
    DecodeEncode(Divide(d));
    DecodeEncode(Transfer(d));
    DecodeEncode(SuicideTransfer(d));
  }

  // ---------------------------------------------------------------------
  // Sunlight modes (enum SunMode)
  // ---------------------------------------------------------------------

  datatype SunMode = ConstantFull | ClippingFull | ConstantIslands | ClippingIslands | DynamicSun

  /** The modes in declaration order. */
  const AllSunModes: seq<SunMode> := [ConstantFull, ClippingFull, ConstantIslands, ClippingIslands, DynamicSun]

  /** The string value of a mode. */
  function SunModeName(m: SunMode): string
  {
    match m
    case ConstantFull => "constant_full"
    case ClippingFull => "clipping_full"
    case ConstantIslands => "constant_islands"
    case ClippingIslands => "clipping_islands"
    case DynamicSun => "dynamic_sun"
  }

  /** Position of a mode in declaration order. */
  function SunModeOrdinal(m: SunMode): (i: nat)
    ensures i < |AllSunModes| && AllSunModes[i] == m
  {
    match m
    case ConstantFull => 0
    case ClippingFull => 1
    case ConstantIslands => 2
    case ClippingIslands => 3
    case DynamicSun => 4
  }

  /** The mode a string names, if any. */
  function SunModeFromName(s: string): (r: Option<SunMode>)
    ensures r.Some? ==> SunModeName(r.value) == s
    ensures r.None? ==> forall m: SunMode :: SunModeName(m) != s
  {
    if s == "constant_full" then Some(ConstantFull)
    else if s == "clipping_full" then Some(ClippingFull)
    else if s == "constant_islands" then Some(ConstantIslands)
    else if s == "clipping_islands" then Some(ClippingIslands)
    else if s == "dynamic_sun" then Some(DynamicSun)
    else None
  }

  /** There are exactly five modes, with five distinct names. */
  lemma SunModesDistinct(m1: SunMode, m2: SunMode)
    ensures |AllSunModes| == 5
    ensures forall i, j :: 0 <= i < j < |AllSunModes| ==> AllSunModes[i] != AllSunModes[j]
    ensures m1 in AllSunModes
    ensures SunModeName(m1) == SunModeName(m2) ==> m1 == m2
    ensures SunModeFromName(SunModeName(m1)) == Some(m1)
  {
  }

  // ---------------------------------------------------------------------
  // Shapes (CellData, SimulationParams, SimulationState)
  // ---------------------------------------------------------------------

  /** The eight numeric characteristics of a cell (CellData without its genes). */
  datatype CellRecord = CellRecord(
    originalId: int,
    energy: int,
    maxEnergy: int,
    will: int,
    maxEnergyToGet: int,
    energyInFieldCell: int,
    energyFromSun: int,
    activeGen: int)

  /** A copied cell: its record and its gene matrix. */
  datatype CellData = CellData(record: CellRecord, genes: seq<seq<int>>)

  /** The value of one characteristic of a record. */
  function Field(r: CellRecord, c: CellChar): int
  {
    match c
    case OriginalId => r.originalId
    case Energy => r.energy
    case MaxEnergy => r.maxEnergy
    case Will => r.will
    case MaxEnergyToGet => r.maxEnergyToGet
    case EnergyInFieldCell => r.energyInFieldCell
    case EnergyFromSun => r.energyFromSun
    case ActiveGen => r.activeGen
  }

  /** The record laid out in its eight slots. */
  function ToSlots(r: CellRecord): (s: seq<int>)
    ensures |s| == RecordSize
    ensures forall c :: s[SlotIndex(c)] == Field(r, c)
  {
    [r.originalId, r.energy, r.maxEnergy, r.will, r.maxEnergyToGet, r.energyInFieldCell, r.energyFromSun, r.activeGen]
  }

  /** The record read back from eight slots. */
  function FromSlots(s: seq<int>): (r: CellRecord)
    requires |s| == RecordSize
    ensures forall c :: Field(r, c) == s[SlotIndex(c)]
  {
    CellRecord(s[0], s[1], s[2], s[3], s[4], s[5], s[6], s[7])
  }

  /** The eight fields and the eight slots correspond one to one. */
  lemma SlotsRoundTrip(r: CellRecord, s: seq<int>)
    ensures FromSlots(ToSlots(r)) == r
    ensures |s| == RecordSize ==> ToSlots(FromSlots(s)) == s
  {
  }

  /** Engine configuration of the WebGL driver. */
  datatype Range = Range(lo: real, hi: real)

  datatype SimulationParams = SimulationParams(
    initialCellCount: int,
    geneMatrixWidth: int,
    geneMatrixHeight: int,
    initialEnergyMultiplier: real,
    mutationProbability: real,
    willRange: Range,
    maxEnergyRange: Range,
    maxEnergyToGetRange: Range,
    maxSolarEnergy: real,
    dayCycleDuration: real,
    // the run-time value of the SunMode enum, i.e. its string
    sunMode: string,
    showAccumulatedEnergy: bool,
    showSunEnergy: bool,
    showCells: bool,
    showCellEnergy: bool,
    width: int,
    height: int)

  /** Counters the driver reports to its observers. */
  datatype SimulationState = SimulationState(
    running: bool,
    paused: bool,
    frameCount: nat,
    cellCount: nat,
    totalEnergy: real)
}
