# gen-sim-webgpu: the CPU-side core in Dafny

gen-sim-webgpu is a cellular genetic-algorithm simulation. It runs on two
GPU drivers:

- a WebGL driver, the class `WebGLSimulation`;
- a WebGPU driver, the React component `App`.

The rules of each tick live in shader programs. Both drivers only import
those programs, so the rules are not modelled here. What the TypeScript does
itself is modelled:

- **the data model**: the 8-slot cell record (`CellChar`), the 18 gene
  opcodes (`GeneAction`) and their three directional families, and the five
  sun modes;
- **the gene utilities**: random gene matrices, packing a gene matrix into
  the RGBA texture buffer, the default parameters, and the clipboard rule;
- **the WebGL driver**:
  - the `pingPong`/`time` state machine that picks the current and next
    textures of each pass;
  - the schedule of the four passes as "samples these textures, writes that
    one";
  - the `getStats` readback scan;
  - the sun-mode index lookup;
- **the WebGPU driver**:
  - `setupSimulation`: it default-fills the state array, seeds the founders
    into the state and gene arrays, and uploads both;
  - traits read from the range inputs, with their fallbacks;
  - the parameter uniform;
  - the A/B buffer swap and the frame counter of `runFrame`;
  - the start, pause, continue and stop flags;
  - `pasteCell`.

Files, one module each:

| file | module | models |
|---|---|---|
| `wrappers.dfy` | `Wrappers` | `Option` |
| `grid_index.dfy` | `GridIndex` | row-major record arithmetic shared by every flat buffer |
| `sim_types.dfy` | `SimulationTypes` | `src/types/simulation.ts` |
| `gene_utils.dfy` | `GeneUtils` | `src/utils/simulation.ts`, except the clipboard |
| `clipboard.dfy` | `Clipboard` | `parseClipboardCell`, `cellToClipboard` |
| `js_number.dfy` | `JsNumber` | `Number(text)`, `split('-')[0]`, the `Uint32Array` store conversion |
| `webgl_engine.dfy` | `WebGLEngine` | `src/utils/WebGLSimulation.ts` |
| `webgpu_app.dfy` | `WebGpuApp` | the CPU side of `src/App.tsx` |

Conventions the model follows:

- **Random draws.** Every `Math.random()` value is an input: a `real` in
  [0, 1), taken in the order the loops consume them. `Math.floor(r * n)` is
  `Pick(r, n)`.
- **`Uint32Array` stores.** A store keeps its value modulo 2^32
  (`JsNumber.ToUint32`). A store past the end of the array is dropped.
- **`writeBuffer`.** When the byte offset is a multiple of 4 and the data
  fits, the data replaces the words at that offset. Otherwise the call
  changes nothing.
- **GPU buffers** are `GpuBuffer` objects holding a `seq<int>` of words.
- **Stateful objects.** The WebGL driver is the class `WebGLEngine.Engine`.
  The WebGPU component's refs and state are the fields of the class
  `WebGpuApp.App`.
- **Loops.** The source's fill loops are methods over `array`s. Each one is
  proved equal to a specification function: `DefaultState`, `SeededState`,
  `SeededGenes`, `OccupiedCount`, `OccupiedEnergy` or `IsGeneTexture`. The
  lemmas are proved about those functions.

Facts about the code that the model keeps:

- `parseClipboardCell` accepts any parsed value whose `originalId` and
  `genes` are truthy. It does not check the types or contents of any
  property.
- Where the source's comments and its code disagree, the model follows the
  code. The founder loop's comment calls code 11 "a divide", but in the
  opcode table 11 is `SUICIDE_RESET_ZERO`. The model stores 11, as the code
  does.

## Model

| member | source | states |
|---|---|---|
| `GridIndex.RecordStart` | src/utils/simulation.ts:20-22 | the record at (row, col) starts at (row·width + col)·stride and ends inside the width·height·stride buffer |
| `GridIndex.FlatIndexBound` | src/utils/WebGLSimulation.ts:296-299 | the pixel number row·width + col of a grid cell is below width·height |
| `GridIndex.FlatIndexInjective` | src/utils/WebGLSimulation.ts:296-299 | distinct (row, col) in a width-wide grid have distinct pixel numbers |
| `GridIndex.FlatIndexOnto` | src/utils/WebGLSimulation.ts:296-299 | every pixel number below width·height is reached by the cell (p / width, p % width) |
| `GridIndex.RecordsDisjoint` | src/utils/simulation.ts:20-27 | slots of two cells' records coincide only for the same cell and the same slot |
| `GridIndex.RecordsCover` | src/utils/simulation.ts:18-27 | every slot of the buffer is slot i % stride of the record of cell i / stride |
| `GridIndex.RecordOrder` | src/utils/simulation.ts:20-22 | a record earlier in row-major order ends before a later one starts |
| `GridIndex.SliceInBounds` | src/App.tsx:212-221 | slot k of record i of n records is inside the n·stride array |
| `SimulationTypes.SlotIndex` | src/types/simulation.ts:2-11 | every characteristic has a slot below 8 |
| `SimulationTypes.SlotChar` | src/types/simulation.ts:2-11 | a slot names a characteristic exactly when it is in 0..7, and SlotIndex maps that characteristic back to the slot |
| `SimulationTypes.SlotIndexBijective` | src/types/simulation.ts:2-11 | slot indices are distinct and every index 0..7 is used |
| `SimulationTypes.DirectionIndex` | src/types/simulation.ts:16-19 | the four directions number below 4 |
| `SimulationTypes.DirectionOf` | src/types/simulation.ts:16-19 | 0..3 and nothing else name a direction, inverse to DirectionIndex |
| `SimulationTypes.Encode` | src/types/simulation.ts:14-33 | every action has a code in 0..17 |
| `SimulationTypes.Decode` | src/types/simulation.ts:14-33 | a number decodes exactly when it is in 0..17, and encodes back to itself |
| `SimulationTypes.DecodeEncode` | src/types/simulation.ts:14-33 | decoding an action's code gives the action |
| `SimulationTypes.EncodeInjective` | src/types/simulation.ts:14-33 | distinct actions have distinct codes |
| `SimulationTypes.DirectionalFamilies` | src/types/simulation.ts:16-32 | DIVIDE, TRANSFER and SUICIDE_TRANSFER codes are base 1, 7, 14 plus the direction index UP, RIGHT, DOWN, LEFT, in both directions |
| `SimulationTypes.SunModeOrdinal` | src/types/simulation.ts:35-41 | each mode sits at its declaration position in the list of the five |
| `SimulationTypes.SunModeFromName` | src/types/simulation.ts:35-41 | a string names a mode exactly when it is that mode's string value |
| `SimulationTypes.SunModesDistinct` | src/types/simulation.ts:35-41 | five distinct modes with five distinct names, each read back from its name |
| `SimulationTypes.ToSlots` | src/types/simulation.ts:71-80 | the record's eight fields laid out at their CellChar slots |
| `SimulationTypes.FromSlots` | src/types/simulation.ts:71-80 | each field read back from its CellChar slot |
| `SimulationTypes.SlotsRoundTrip` | src/types/simulation.ts:71-80 | fields and slots correspond one to one, both ways |
| `GeneUtils.GeneOfDraw` | src/utils/simulation.ts:8 | floor(r·18) for r in [0, 1) is a valid opcode in 0..17 |
| `GeneUtils.GenerateRandomGeneMatrix` | src/utils/simulation.ts:3-13 | height rows of width genes each; gene (i, j) is floor(18·draw (i, j)) |
| `GeneUtils.PackGeneMatrix` | src/utils/simulation.ts:15-28 | an empty matrix fails; otherwise a width·height·4 buffer where texel (x, y) is [gene, 0, 0, 1] |
| `GeneUtils.GeneTextureSlot` | src/utils/simulation.ts:18-28 | every slot of a packed buffer is determined: the gene in channel 0, 1 in channel 3, 0 elsewhere |
| `GeneUtils.DefaultParams` | src/utils/simulation.ts:43-67 | ranges ordered, mutation probability in [0, 1], positive sizes and cycle, a known sun mode (constant_full) |
| `Clipboard.Member` | src/utils/simulation.ts:72 | a property read is defined exactly on objects that have the key |
| `Clipboard.ParseClipboardCell` | src/utils/simulation.ts:69-79 | a value comes back exactly when parsing succeeds and originalId and genes are both truthy, and it is the parsed value |
| `Clipboard.RowRoundTrip` | src/utils/simulation.ts:81-83 | a stringified gene row reads back as that row |
| `Clipboard.GenesRoundTrip` | src/utils/simulation.ts:81-83 | a stringified gene matrix reads back as that matrix |
| `Clipboard.CellRoundTrip` | src/utils/simulation.ts:81-83 | the JSON object of a cell reads back as that cell |
| `Clipboard.ClipboardRoundTrip` | src/utils/simulation.ts:69-83 | with parse inverse to stringify, pasting a copied cell succeeds exactly when its originalId is not 0, and gives back the cell |
| `Clipboard.RejectsEmptyOrGeneless` | src/utils/simulation.ts:69-79 | an object with originalId 0 or without genes is refused |
| `JsNumber.ToUint32` | src/App.tsx:208-221 | the stored word is in [0, 2^32), congruent to the value, and the value itself when that is in range |
| `JsNumber.BeforeFirstIsHead` | src/App.tsx:173-176 | split('-')[0] is the prefix before the first '-', or the whole text |
| `JsNumber.BeforeFirstSeparator` | src/App.tsx:173-176 | a head without '-' followed by '-' and anything splits back to that head |
| `JsNumber.NumberOfDecimal` | src/App.tsx:173-176 | Number() reads a decimal numeral, and a '-' followed by one, as its value |
| `JsNumber.NumberNeedsDigit` | src/App.tsx:173-176 | text without digits reads as 0 or NaN |
| `JsNumber.TraitValue` | src/App.tsx:173-182 | a trait is its fallback or non-zero |
| `JsNumber.TraitOfDecimal` | src/App.tsx:173-182 | "n" and "n-hi" give n, and "-n" gives -n because its head is empty; for n = 0 each gives the fallback |
| `JsNumber.TraitOfText` | src/App.tsx:173-182 | a text that reads "n" or "n-…" gives n when n > 0 and the fallback when n = 0; a text without digits gives the fallback |
| `JsNumber.NonNumericFallsBack` | src/App.tsx:173-182 | text without digits gives the fallback |
| `WebGLEngine.NextCell1` | src/utils/WebGLSimulation.ts:134-149 | the next cell texture 1 differs from the current one, has a framebuffer, and is current after the flip |
| `WebGLEngine.NextCell2` | src/utils/WebGLSimulation.ts:134-149 | the same for cell texture 2 |
| `WebGLEngine.InitPasses` | src/utils/WebGLSimulation.ts:100-129 | init writes 1A, init2 samples 1A and writes 2A, and neither writes what it samples |
| `WebGLEngine.StepPasses` | src/utils/WebGLSimulation.ts:151-206 | four passes, each writing one texture it does not sample |
| `WebGLEngine.ResolveOutputObserved` | src/utils/WebGLSimulation.ts:177-222 | the texture resolve writes is the one render, getStats and the next step's intention and resolve read as current |
| `WebGLEngine.Resolve2OutputOverwritten` | src/utils/WebGLSimulation.ts:192-209 | resolve2's target is the next sunlight target, and any renders and getStats calls in between followed by the next step never read it before it is overwritten |
| `WebGLEngine.OccupiedCount` | src/utils/WebGLSimulation.ts:293-305 | the count of occupied pixels among n is at most n |
| `WebGLEngine.OccupiedCountIsCardinality` | src/utils/WebGLSimulation.ts:296-305 | the count is the size of the set of pixels whose channel 0 is positive |
| `WebGLEngine.StatsIgnoreEmptyPixels` | src/utils/WebGLSimulation.ts:301-305 | the count and the total depend only on channel 0, and on channel 1 of occupied pixels |
| `WebGLEngine.IndexOf` | src/utils/WebGLSimulation.ts:270 | -1 exactly when absent; otherwise the first position holding the string |
| `WebGLEngine.SunModeIndexOrder` | src/utils/WebGLSimulation.ts:268-271 | the five mode names map to 0..4 in declaration order |
| `WebGLEngine.UnknownSunModeIndex` | src/utils/WebGLSimulation.ts:268-271 | exactly the strings naming no mode map to -1 |
| `WebGLEngine.Engine.constructor` | src/utils/WebGLSimulation.ts:14-23 | size 0, time 0, pingPong false, no textures or framebuffers |
| `WebGLEngine.Engine.Initialize` | src/utils/WebGLSimulation.ts:71-98 | the size is recorded; an empty gene matrix fails with nothing else changed; otherwise six textures, five framebuffers, the two init passes, the packed gene texture, time 0, pingPong false |
| `WebGLEngine.Engine.Step` | src/utils/WebGLSimulation.ts:131-210 | the passes are StepPasses of the old pingPong, sunlight gets the old time and the mode index, time + 1, pingPong flipped, nothing else changes |
| `WebGLEngine.Engine.Render` | src/utils/WebGLSimulation.ts:212-231 | render samples the current cell textures 1 and 2 |
| `WebGLEngine.Engine.GetStats` | src/utils/WebGLSimulation.ts:273-310 | reads the current cell texture 1; cellCount is OccupiedCount, at most width·height, and totalEnergy is OccupiedEnergy over the whole grid |
| `WebGLEngine.AddRowStats` | src/utils/WebGLSimulation.ts:297-306 | one row's column loop extends the counts from pixel first to first + width |
| `WebGLEngine.PixelRow` | src/utils/WebGLSimulation.ts:296-299 | row·width·4 is the row's first channel, and the row fits in the grid |
| `WebGLEngine.TwoStepsRestoreBuffers` | src/utils/WebGLSimulation.ts:151-209 | the first step runs the passes of the old pingPong and the second those of the flipped one; afterwards pingPong is restored, time is 2 later, and textures and framebuffers are unchanged |
| `WebGpuApp.CreateCell` | src/App.tsx:18-29 | the record carries the id, energy, gene pointer and traits given, and field energy 0 |
| `WebGpuApp.StoredSlots` | src/App.tsx:214-221 | the eight words are the fields at their CellChar slots, converted by ToUint32 |
| `WebGpuApp.BaseParams` | src/App.tsx:173-182 | the four base traits are never 0 |
| `WebGpuApp.BaseParamsOfRanges` | src/App.tsx:173-182 | for each of the four range texts: "n" or "n-hi" with n > 0 gives n; "0", "0-hi" and text without digits give 100, 50, 20 and 10 |
| `WebGpuApp.Overwrite` | src/App.tsx:264 | stores inside the array land at their index, stores past its end are dropped, and its length is kept |
| `WebGpuApp.WriteBufferWords` | src/App.tsx:274-277 | an aligned write that fits replaces exactly the words from offset / 4 with the data and keeps the words before and after; any other write leaves the buffer unchanged |
| `WebGpuApp.OverwriteSlice` | src/App.tsx:264 | stores that fit replace exactly the words from `at` on, as many as the data holds, and keep the words before and after them |
| `WebGpuApp.WholeBufferWrite` | src/App.tsx:274-277 | a write at 0 of a whole buffer's worth replaces its contents |
| `WebGpuApp.Zeros` | src/App.tsx:208-209 | a new typed array is n zeros |
| `WebGpuApp.Pick` | src/App.tsx:227 | floor(r·n) for r in [0, 1) is below n |
| `WebGpuApp.FounderGene` | src/App.tsx:254-263 | before the last two genes a code from {0..7, 14}, and 0 in the last two |
| `WebGpuApp.FounderGenome` | src/App.tsx:254-265 | geneCount genes, each FounderGene |
| `WebGpuApp.EmptyRecord` | src/App.tsx:211-221 | id 0, energy 0, field energy 0, gene pointer 0, the base traits |
| `WebGpuApp.FounderRecord` | src/App.tsx:229-250 | id c + 1, energy floor(maxEnergy / 2) and at most maxEnergy, field energy 0, gene pointer 0, the base traits |
| `WebGpuApp.DefaultState` | src/App.tsx:208-223 | total·8 words |
| `WebGpuApp.SeededState` | src/App.tsx:225-271 | total·8 words after the default fill and every founder |
| `WebGpuApp.PlaceFounderGenome` | src/App.tsx:254-268 | the gene array keeps its length |
| `WebGpuApp.SeededGenes` | src/App.tsx:225-271 | total·geneCount words after every founder |
| `WebGpuApp.SeedingStep` | src/App.tsx:226-271 | founder c's loop iteration extends the arrays seeded by founders 0..c-1 |
| `WebGpuApp.FillDefault` | src/App.tsx:211-223 | the filled array is DefaultState |
| `WebGpuApp.WriteFounderRecord` | src/App.tsx:241-250 | founder c's record stored at word offset o, and nothing else changed |
| `WebGpuApp.WriteFounderGenome` | src/App.tsx:252-268 | the genome stored from idx·geneCount, then the marker 11 stored if it lands in the array |
| `WebGpuApp.SeedFounder` | src/App.tsx:226-270 | one iteration takes the arrays of founders 0..c-1 to those of 0..c |
| `WebGpuApp.BuildInitialArrays` | src/App.tsx:207-271 | the arrays are SeededState and SeededGenes of all founders |
| `WebGpuApp.OverwriteBlock` | src/App.tsx:241-250 | storing one block changes that block and no other |
| `WebGpuApp.DefaultRecord` | src/App.tsx:211-221 | after the default fill every record is the empty record with id 0 |
| `WebGpuApp.SeededRecords` | src/App.tsx:225-271 | every record is the empty record when no founder picked its cell, or else the record of the last founder that did |
| `WebGpuApp.PlacedGenome` | src/App.tsx:254-268 | a founder's final genome has geneCount genes |
| `WebGpuApp.MarkerInGenome` | src/App.tsx:268 | with at least 2 genes the marker is inside the genome, and with 3 or more it is before the last two |
| `WebGpuApp.PlaceGenomeBlock` | src/App.tsx:254-268 | placing a genome at cell at writes that cell's genome and no other |
| `WebGpuApp.SeededGenomes` | src/App.tsx:225-271 | every genome is all zeros when no founder picked its cell, or else the last such founder's placed genome |
| `WebGpuApp.PlacedGenomeShape` | src/App.tsx:254-268 | with 3 or more genes: the last two are 0, exactly one gene is 11, it is before the last two, and the others are in {0..7, 14} |
| `WebGpuApp.SeededCell` | src/App.tsx:225-271 | a record is occupied exactly when a founder picked it; its id is then in 1..initialCount and its genome has the founder shape; otherwise it is the empty record with a zero genome |
| `WebGpuApp.SeededTraits` | src/App.tsx:211-250 | every record holds the base traits and field energy 0 |
| `WebGpuApp.SeedingKeepsOtherRecords` | src/App.tsx:241-250 | founder c changes only the record at the cell it picked |
| `WebGpuApp.OccupiedAtMostFounders` | src/App.tsx:226-250 | at most initialCount records are occupied after seeding |
| `WebGpuApp.SunModeLabelIndex` | src/App.tsx:313-320 | a known label maps to its own index in 0..4; an unknown label maps to 0 |
| `WebGpuApp.SunModeLabelOrder` | src/App.tsx:313-320 | the five labels map to 0..4 in the order of the drop-down |
| `WebGpuApp.SunModeEncodingsAgree` | src/App.tsx:313-320 | both drivers number the five modes alike; a string naming no mode is 0 for WebGPU and -1 for WebGL |
| `WebGpuApp.Flag` | src/App.tsx:324-327 | a toggle is 1 when set and 0 when clear |
| `WebGpuApp.ParamUniforms` | src/App.tsx:304-331 | the parameter data is 16 floats |
| `WebGpuApp.ParamUniformsDecode` | src/App.tsx:308-327 | the 16 floats hold sun energy, cycle, an integral mode index 0..4 naming the selected label, the multiplier, the four toggles as 0 or 1, then zeros |
| `WebGpuApp.HalfTowardZero` | src/App.tsx:465 | maxEnergy / 2 stored to a Uint32 word: truncated toward zero (twice the result lies between 0 and maxEnergy) and within one half of the exact quotient |
| `WebGpuApp.PastedRecord` | src/App.tsx:465-478 | id 9999, the copied traits, energy maxEnergy / 2 truncated, field energy 0, gene pointer 0 |
| `WebGpuApp.WriteBlockAtByteOffset` | src/App.tsx:463-480 | a write of one block at byte offset idx·stride·4 replaces block idx and leaves every other block |
| `WebGpuApp.GpuBuffer.constructor` | src/App.tsx:194-205 | createBuffer gives a zero-filled buffer of the given size |
| `WebGpuApp.GpuBuffer.Write` | src/App.tsx:274-277 | writeBuffer updates the words as WriteBufferWords says |
| `WebGpuApp.App.constructor` | src/App.tsx:35-100 | default settings, nothing running, frame 0, no state buffers, zeroed uniforms, nothing copied |
| `WebGpuApp.App.SetupSimulation` | src/App.tsx:166-301 | fresh A, B and gene buffers; A and B hold SeededState, the gene buffer holds SeededGenes; A is bound as current; frame 0 |
| `WebGpuApp.App.Bind` | src/App.tsx:279-300 | the compute bind group reads A and writes B, the render bind group reads A |
| `WebGpuApp.App.UpdateParamUniforms` | src/App.tsx:304-331 | the parameter uniform holds ParamUniforms of the settings; nothing else changes |
| `WebGpuApp.App.RunFrame` | src/App.tsx:334-407 | frame count + 1 and uploaded; parameters refreshed; A and B swapped so the computed buffer is rendered; the gene buffer, settings and flags are unchanged |
| `WebGpuApp.App.AdvanceFrame` | src/App.tsx:340-342 | the frame counter rises by one and its Uint32 value is written to the frame uniform |
| `WebGpuApp.App.SwapStateBuffers` | src/App.tsx:359-381 | A and B trade places and both bind groups follow; no buffer's contents change |
| `WebGpuApp.App.StartSimulation` | src/App.tsx:409-421 | afterwards running, not paused, frame 0, with freshly seeded buffers |
| `WebGpuApp.App.MarkRunning` | src/App.tsx:416-418 | running, not paused, frame 0 |
| `WebGpuApp.App.PauseSimulation` | src/App.tsx:423-429 | paused is set whether or not running; nothing else changes |
| `WebGpuApp.App.ContinueSimulation` | src/App.tsx:431-436 | paused is cleared exactly when the simulation was running and paused; nothing else changes |
| `WebGpuApp.App.StopSimulation` | src/App.tsx:438-445 | both flags cleared; buffers and frame count kept |
| `WebGpuApp.App.PasteCell` | src/App.tsx:455-482 | without a copied genome and traits, nothing changes; otherwise the pasted record is written at byte offset idx·32 of A and the genome at idx·geneCount·4 of the gene buffer |
| `WebGpuApp.InitialArrays` | src/App.tsx:172-271 | the CPU arrays for the settings are SeededState and SeededGenes of the base traits |
| `WebGpuApp.SeededBuffers` | src/App.tsx:189-277 | three fresh distinct buffers: A and B with the seeded state, and one with the seeded genes |
| `WebGpuApp.UploadedBuffer` | src/App.tsx:194-277 | createBuffer of the data's size, then a write at offset 0, holds the data |
| `WebGpuApp.TwoFrames` | src/App.tsx:334-381 | two frames put A and B back in their roles, with frame count + 2 |
| `WebGpuApp.PauseThenContinue` | src/App.tsx:423-436 | pausing then continuing a running simulation leaves it running and unpaused |

## Left out

- Shader programs (src/utils/WebGLSimulation.ts:5-12, src/App.tsx:4-5): they are only imported. Sunlight, intentions, conflict resolution and opcode effects are not modelled. Each pass appears only as the textures it samples and writes. The output of the WebGPU compute pass is an input of `RunFrame`.
- GL and WebGPU plumbing: src/utils/webgl.ts, src/webgpuUtil.ts, `createPipelines`, shader module creation, `setupVertexAttributes`, the uniform setters, `readPixels`, command encoding and `dispose`. Textures and framebuffers are names. Buffers are sequences of words. `getStats` takes the read-back pixels as its input.
- `evalExpr` placeholder substitution in `createPipelines` (src/App.tsx:116-129): it evaluates code dynamically.
- Early returns when no GPU device or canvas context exists: the model always has one. WebGL2 being unsupported, and a texture that cannot be created, are not modelled either.
- React: the JSX, the inputs' `onChange` handlers, and `useEffect` device acquisition. The settings are a field of `App` that no modelled operation changes.
- Scheduling: `requestAnimationFrame` and `cancelAnimationFrame`. Each `runFrame` reschedules itself only when the `simRunning` and `paused` it captured say running and unpaused (src/App.tsx:404). The `runFrame` scheduled by a first `startSimulation` captured `simRunning` false, and the one scheduled by `continueSimulation` captured `paused` true, so each draws one frame and stops; only a Start pressed while already running keeps looping. Which frames run is not modelled.
- `copyCell` (src/App.tsx:448-454) only logs. Nothing in the source sets the copied genome or traits, so `pasteCell` returns without effect there. `WebGpuApp.App.PasteCell` models both the no-op and the write.
- `WebGpuApp.App.PasteCell`: when no state buffers exist yet, the source's non-null assertion passes null to writeBuffer, which throws. The model returns None instead.
- Randomness: `Math.random()` is not a generator here. Each draw is an input.
- Float32 precision: `getStats` sums, the parameter uniform and the gene texture are exact reals or integers. `WebGLEngine.Engine.GetStats` therefore does not model Float32 rounding in `totalEnergy`.
- Non-integer trait values: `Number()` of a fraction, and `maxEnergy / 2` of an odd value, truncate when stored into a `Uint32Array`. Traits are modelled as integers only. `WebGpuApp.HalfTowardZero` gives the pasted energy as the store truncates it.
- `WebGpuApp.App.SetupSimulation`: `geneCount` and `initialCount` are integers. A negative `geneCount` makes `new Uint32Array` throw, so `SetupSimulation` and `StartSimulation` require `geneCount >= 0`.
- `JsNumber.NumberOf` reads white space, an optional sign, decimal digits, then white space; a blank text is 0. Exponents, fractions, hexadecimal, binary and octal prefixes and `Infinity` give NaN in the model, although `Number()` accepts them.
- JSON text: `JSON.parse` and `JSON.stringify` are parameters, assumed inverse in `Clipboard.ClipboardRoundTrip`. Their text format is not modelled.
- `WebGpuApp.SeededCell` requires fewer than 2^32 founders, so ids c + 1 do not wrap to 0 in the Uint32 store. It also requires three or more genes. With 1 gene or fewer, the marker store at floor(r·(geneCount - 2)) can land outside the founder's own genome: in the previous cell's genome, or dropped at cell 0. With exactly 2 genes it overwrites slot 0, so the marker is not before the last two genes. `WriteFounderGenome` keeps that behaviour.
- `WebGLEngine.Engine.Initialize`: requires a width and height of at least 0, and framebuffer creation failures (`createFramebuffer` in src/utils/webgl.ts) are not modelled. A negative size makes `texImage2D` fail and the incomplete framebuffer then throws; a size of 0 is modelled as success, although its framebuffers would be incomplete and throw. src/utils/webgl.ts is not part of this model.
- TraitValue: its own contract says only that a trait is its fallback or non-zero. What each form of text reads as is stated by `JsNumber.TraitOfText` and `JsNumber.TraitOfDecimal`.
- BaseParams: its own contract says only that no base trait is 0. The value of each trait for each form of range text is stated by `WebGpuApp.BaseParamsOfRanges`.
- The `SimulationState` shape appears only as a datatype. No modelled operation returns it.
