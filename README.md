# Charamask bit rain, modelled in Dafny

The library draws "bit rain": columns of glyphs that fall (or rise) behind a
web page. It has three modelled parts.

- **The charamask engine** (`CharamaskEngine`) owns a grid of cells over a canvas.
  - Each cell holds a glyph from `0-9A-Za-z`, an opacity and a "lit this frame" flag.
  - Each column holds a streak: a head row, a tail length and an active flag.
  - Every animation frame runs `step(dt)`, which has two passes:
    - the decay pass fades unlit cells and gives a fully faded cell a new glyph;
    - the streak pass activates idle columns at random, moves active heads, lights each tail with a gradient and recycles streaks that have left the grid.
  - `draw()` then paints every cell whose opacity is positive.
- **`<matrixx-canvas>`** reads its `limit`, `direction`, `bits-color` and `density` attributes. From them it builds a list of randomised `<bit-rain-column>` descriptions.
- **`<bit-rain-canvas>`** is the older element. It does the same with `density` and `limit` only.

The engine is a Dafny class (`Charamask.CharamaskEngine`).
- Its fields are the source's state fields, with three differences:
  - `canvas` and `ctx` are dropped, since every canvas call is left out;
  - `canvasW` and `canvasH` stand for `canvas.width` and `canvas.height`, which `resize` both writes and compares;
  - `pow` is added for `Math.pow(x, 0.9)`.
- Its per-cell and per-column buffers are arrays, and its methods update them in place with loops.
- Each method is proved against the specification functions of `Streaks`, `Geometry`, `Sampling` and `Scheduler`.
- The engine invariant `Valid()` is kept by every method:
  - every buffer length matches the grid;
  - every opacity lies in [0, 1];
  - every glyph comes from the 62-symbol alphabet.
- One tick is related to the state before it by `StepRel`, which gives the result cell by cell and column by column.
- `draw` returns the sequence of `fillText` calls it makes. `Sampling` proves that sequence sound and complete.

The two elements are pure functions from their attributes to the configuration they render.

Inputs that come from the browser are parameters:
- the canvas's CSS size and `devicePixelRatio` (`Geometry.Surface`);
- frame timestamps and animation-frame handles;
- every `Math.random()` draw (`Common.Rng` and `Common.Draws`, each draw in [0, 1));
- `Math.pow(x, 0.9)`: a function that is monotone on [0, 1] and fixes 0 and 1 (`Activation.PowLike`);
- `parseFloat`: a function from strings to a number or NaN.

The source and its documentation disagree in three places.
- The warnings of matrixx-canvas.ts say a bad density falls back to "default 2", but the code assigns 4. The model follows the code.
- The header of MatrixxCanvas.ts documents `limit` as defaulting to true, but the code enables limiting only for "false" and "0". This is logged under Findings.
  - `BitRainCanvas.ConnectAsWritten` follows the code.
  - `BitRainCanvas.Connect` follows the documentation.
- The tick's clamp `Math.min(80, t - last)` has no lower bound, so a timestamp before `last` steps backwards and can lift an opacity above 1. This is logged under Findings.
  - `Scheduler.ClampDtAsWritten` follows the code.
  - `Scheduler.ClampDt` adds the lower bound 0. The engine's `Tick` and `Frame` use it.

## Model

| member | source | states |
|---|---|---|
| Glyphs.GlyphOf | src/charamask-engine.ts:241-246 | index n of [0, 62) is a digit exactly when n < 10, an upper-case letter exactly when 10 <= n < 36, a lower-case letter exactly when n >= 36; always in the alphabet |
| Glyphs.GlyphIndex | src/charamask-engine.ts:241-246 | every alphabet glyph has an index in [0, 62) that maps back to it |
| Glyphs.GlyphBijection | src/charamask-engine.ts:241-246 | the index-to-glyph map is a bijection between [0, 62) and the 62-symbol alphabet |
| Glyphs.Rand | src/charamask-engine.ts:240 | `rand(min, max)` lies in [min, max), and is min when the bounds meet |
| Glyphs.DrawIndex | src/charamask-engine.ts:242 | `floor(random * 62)` lies in [0, 62) |
| Glyphs.RandChar | src/charamask-engine.ts:241-246 | `randChar` always returns a glyph of the alphabet |
| Glyphs.RandCharPreimage | src/charamask-engine.ts:241-246 | each glyph comes from exactly one draw interval [n/62, (n+1)/62), so every glyph is equally likely |
| Geometry.CellPx | src/charamask-engine.ts:128 | the cell size is the option or 8, whichever is larger |
| Geometry.Cells | src/charamask-engine.ts:129-130 | the column and row counts are at least 1 |
| Geometry.CellsFit | src/charamask-engine.ts:128-130 | the count is `floor(css / s)` when that is positive, and that many cells fit in the CSS size |
| Geometry.ExampleGrid | src/charamask-engine.ts:128-130 | 360 x 180 CSS pixels at cell size 18 give a 20 x 10 grid |
| Geometry.DprOf | src/charamask-engine.ts:118 | the pixel ratio used is `max(1, floor(devicePixelRatio))`: at least 1, and the integer part of a ratio >= 1 |
| Geometry.BackingPx | src/charamask-engine.ts:122-123 | the backing store is at least one device pixel along each axis |
| Geometry.ResizeSkipped | src/charamask-engine.ts:119 | a hard resize never returns early; an early return with a stored size of at least one pixel per axis leaves exactly the dpr and backing size a resize would compute |
| Geometry.SecondResizeSkipped | src/charamask-engine.ts:119-123 | after a resize, a non-hard resize for the same surface returns early exactly when both axes measure at least one device pixel |
| Geometry.CellIndex | src/charamask-engine.ts:199 | `r * cols + c` indexes the cell buffers of a cols x rows grid |
| Geometry.CellIndexInjective | src/charamask-engine.ts:199 | distinct cells have distinct indices, so lighting column c touches only column c |
| Geometry.CellIndexOnto | src/charamask-engine.ts:228 | every buffer index is the index of the cell (i / cols, i % cols) |
| Activation.ClampDensity | src/charamask-engine.ts:158 | the density is clamped into [0, 10] and left unchanged when already there |
| Activation.ActivationProb | src/charamask-engine.ts:155-160 | the probability lies in [0.06, 0.14]; it is 0.06 for density <= 0 and 0.14 for density >= 10 |
| Activation.ActivationMonotone | src/charamask-engine.ts:155-160 | the probability never decreases as the density grows |
| Streaks.Decay | src/charamask-engine.ts:169-170 | a lit or dark cell keeps its opacity; an unlit visible one drops by 1.2 dt, or to exactly 0 when that would go below 0; it never rises for dt >= 0 |
| Streaks.DecayGlyph | src/charamask-engine.ts:171 | a cell gets a new glyph exactly when the decay pass turns it off, and keeps its glyph otherwise; glyphs stay in the alphabet |
| Streaks.TailLen | src/charamask-engine.ts:150 | `floor(rand(tailMin, tailMax + 1))` lies in [tailMin, tailMax] |
| Streaks.TailLenPreimage | src/charamask-engine.ts:183 | every tail length in [tailMin, tailMax] comes from exactly one draw interval, of width one over the number of lengths |
| Streaks.SeedHead | src/charamask-engine.ts:149 | a seeded head starts in (-rows, 0] going down and in [rows, 2 rows) going up |
| Streaks.Activate | src/charamask-engine.ts:179-185 | an active column is untouched; an idle one activates exactly when its draw is below the pass's chance, then at the entry row, and otherwise is untouched; tail lengths in [tailMin, tailMax] stay there |
| Streaks.Move | src/charamask-engine.ts:189 | the head moves by exactly `delta` in the direction of travel; tail and flag are kept |
| Streaks.Exited | src/charamask-engine.ts:207-211 | a recycled streak's tail covers no row of the grid |
| Streaks.NextStreak | src/charamask-engine.ts:179-211 | an idle column that misses its draw is unchanged; tail lengths in [tailMin, tailMax] stay there; a column that took part in the pass stays active exactly when its tail has not exited |
| Streaks.MissLeavesColumn | src/charamask-engine.ts:179-185 | an idle column that fails its activation draw keeps its streak and lights nothing |
| Streaks.ActivationPlacesHead | src/charamask-engine.ts:181-189 | a newly activated column starts at row -1 (down) or rows + 1 (up), moves in the same pass, and gets a tail length in [tailMin, tailMax] |
| Streaks.LitColumnAdvances | src/charamask-engine.ts:189-211 | an active head moves by exactly one step in its direction and keeps its tail length; the column turns idle exactly when its tail has left the grid |
| Streaks.LitRows | src/charamask-engine.ts:192-198 | the lit rows are the `len` rows ending at the head row, on the side the head came from |
| Streaks.FarBelowRecycles | src/charamask-engine.ts:207-208 | a downward head already a full tail plus one row below the grid is recycled |
| Streaks.Intensity | src/charamask-engine.ts:200-201 | the gradient `1 - (k/len)^2` lies in (0, 1] and is 1 exactly at the head |
| Streaks.IntensityFades | src/charamask-engine.ts:200-201 | the gradient never brightens away from the head |
| Streaks.LitAlpha | src/charamask-engine.ts:196-203 | lighting never dims a cell and keeps an opacity in [0, 1]; an unlit row keeps its opacity; a lit row takes the larger of its opacity and the gradient |
| Sampling.Sample | src/charamask-engine.ts:226-233 | definition: the draw calls of the visible cells, rows outside and columns inside; its meaning is stated by `SampleSound` and `SampleComplete` |
| Sampling.SampleSound | src/charamask-engine.ts:226-233 | every draw call paints a grid cell with positive opacity, with that cell's glyph and opacity, at (c * s, r * s) |
| Sampling.SampleComplete | src/charamask-engine.ts:226-233 | every cell with positive opacity is painted |
| Scheduler.ClampDtAsWritten | src/charamask-engine.ts:98 | the step as written is at most 0.08 s, is the elapsed time when that is at most 80 ms, and is negative when the timestamp goes backwards |
| Scheduler.NegativeStepBrightens | src/charamask-engine.ts:98 | a timestamp 10 ms before `last` gives a step of -0.01 s, and the decay pass then lifts opacity 0.99 above 1 |
| Scheduler.ClampDt | src/charamask-engine.ts:98 | the corrected step lies in [0, 0.08] s, equals the written step when time does not go backwards, and is 0 when it does |
| Scheduler.ClampedDecayStaysInUnit | src/charamask-engine.ts:98-99 | with the corrected step, decay keeps an opacity in [0, 1] and never raises it |
| Scheduler.LongGapMovesHeadBoundedly | src/charamask-engine.ts:164-165 | however long the gap between frames, one tick moves a head by at most 80 ms worth of `max(1, speed)` |
| Charamask.StepRel | src/charamask-engine.ts:162-213 | definition: each column's new streak is its `NextStreak`; each cell's new opacity is its decayed opacity lit by `LitAlpha`, its lit flag is `LightsRow` and its glyph is `DecayGlyph` |
| Charamask.StepKeepsUnit | src/charamask-engine.ts:162-213 | a step with dt >= 0 keeps every opacity in [0, 1] |
| Charamask.CharamaskEngine.constructor | src/charamask-engine.ts:68-72 | the engine keeps the options, has no pending frame, is not paused, has `last` 0, and is laid out (all cells dark and unlit, fresh glyphs) and seeded for the surface |
| Charamask.CharamaskEngine.Attach | src/charamask-engine.ts:76-82 | attaching resizes hard: new buffers laid out for the surface, streaks seeded again |
| Charamask.CharamaskEngine.Resize | src/charamask-engine.ts:115-140 | a non-hard resize with an unchanged backing store and dpr changes nothing; otherwise dpr, backing size, cols and rows are recomputed, the cell buffers are new (opacity 0, unlit, fresh glyphs) and the streaks are seeded again |
| Charamask.CharamaskEngine.Reallocate | src/charamask-engine.ts:121-139 | the part of `resize` past its early return, with all buffers new and `Valid()` restored |
| Charamask.CharamaskEngine.NewCells | src/charamask-engine.ts:133-138 | three new cell buffers of length cols * rows: opacity 0, unlit, glyph i from draw i |
| Charamask.CharamaskEngine.SeedStreaks | src/charamask-engine.ts:142-153 | new streak buffers of length cols, column c seeded from its draws |
| Charamask.CharamaskEngine.SeedBuffers | src/charamask-engine.ts:143-152 | column c gets the seeded head, a tail `floor(rand(tailMin, tailMax + 1))` and activation exactly when its draw is below `activationProb()` |
| Charamask.CharamaskEngine.SetOptions | src/charamask-engine.ts:84-91 | the options are replaced; the grid is reallocated exactly when `cellSize` changed, fresh streaks appear exactly when `direction` or `cellSize` changed, and otherwise the buffers are untouched |
| Charamask.CharamaskEngine.Start | src/charamask-engine.ts:93-104 | with a frame pending nothing changes; otherwise `last` is the current time and a frame is requested |
| Charamask.CharamaskEngine.Pause | src/charamask-engine.ts:110 | the engine is paused |
| Charamask.CharamaskEngine.Resume | src/charamask-engine.ts:111 | the engine is not paused |
| Charamask.CharamaskEngine.Stop | src/charamask-engine.ts:112 | no frame is pending |
| Charamask.CharamaskEngine.Tick | src/charamask-engine.ts:96-103 | `last` becomes t and a new frame is requested; paused, the grid and the streaks are unchanged and nothing is drawn; running, the buffers are stepped by the clamped time and the frame paints exactly what `draw` samples |
| Charamask.CharamaskEngine.Frame | src/charamask-engine.ts:98-102 | step by the clamped elapsed time, draw, then record t and request the next frame |
| Charamask.CharamaskEngine.Step | src/charamask-engine.ts:162-213 | the new buffers are related to the old by `StepRel` (decay, then activation, move, lighting and recycling per column), and the invariant holds |
| Charamask.CharamaskEngine.DecayPass | src/charamask-engine.ts:168-174 | each cell's opacity and glyph are those of `Decay` and `DecayGlyph`, and every lit flag is cleared |
| Charamask.CharamaskEngine.StreakPass | src/charamask-engine.ts:176-212 | each column's streak is its `NextStreak`; each cell's opacity and lit flag are what its own column's lighting gives |
| Charamask.CharamaskEngine.AdvanceColumn | src/charamask-engine.ts:179-211 | column c's streak is its `NextStreak` and its cells are lit by `LitAlpha`; no other column's streak or cells change |
| Charamask.CharamaskEngine.LightTail | src/charamask-engine.ts:195-204 | exactly the rows the tail covers inside the grid are raised to the gradient and marked lit, in column c only |
| Charamask.CharamaskEngine.Draw | src/charamask-engine.ts:215-236 | the draw calls are the row-major sampling of the visible cells |
| Charamask.CharamaskEngine.PaintRow | src/charamask-engine.ts:227-233 | the draw calls of one row, left to right |
| RainColumns.MakeColumn | src/matrixx-canvas.ts:53-59 | an entry has `left` in [0, 100) vw, duration in [5, 10), delay in [0, 10), font size in [10, 28) and blur in [0, 2) |
| RainColumns.ListLength | src/matrixx-canvas.ts:53 | `{ length: count }` gives no entries for NaN or a count <= 0; otherwise its integer part n, with n <= count < n + 1 |
| RainColumns.MakeColumns | src/matrixx-canvas.ts:53-59 | the list has exactly count entries, all in range, entry i built from draws 5i to 5i + 4 |
| RainColumns.EntriesIndependent | src/MatrixxCanvas.ts:38-44 | changing one entry's draws changes no other entry |
| MatrixxCanvas.IsBooleanTrue | src/matrixx-canvas.ts:15-18 | definition: missing, "true" or "1"; its cases are stated by `IsBooleanTrueCases` |
| MatrixxCanvas.IsBooleanTrueCases | src/matrixx-canvas.ts:15-18 | a missing attribute is true; a present one is true exactly when it is "true" or "1"; so "false", "0" and "" are false |
| MatrixxCanvas.DirectionOf | src/matrixx-canvas.ts:31-32 | the direction is down exactly when the attribute is "down" |
| MatrixxCanvas.SkipSpacesUp | src/matrixx-canvas.ts:36 | the scan stops at the first character that is not white space |
| MatrixxCanvas.SkipSpacesDown | src/matrixx-canvas.ts:36 | the scan stops after the last character that is not white space |
| MatrixxCanvas.Trim | src/matrixx-canvas.ts:36 | `trim()` never lengthens the text, leaves no white space at either end, and leaves text without white space at its ends unchanged |
| MatrixxCanvas.TrimSpec | src/matrixx-canvas.ts:36 | `trim()` keeps a contiguous middle part, strips only white space, and leaves none at either end |
| MatrixxCanvas.TrimIdempotent | src/matrixx-canvas.ts:36 | trimming twice is trimming once |
| MatrixxCanvas.NormalizeDensity | src/matrixx-canvas.ts:36-47 | NaN becomes 4; with the limit on, the density ends in [0, 10] and a value outside it becomes 4; otherwise a finite value passes unchanged; each warning is issued exactly when its fallback fires |
| MatrixxCanvas.ColumnCountMonotone | src/matrixx-canvas.ts:49 | the column count never decreases as the density grows |
| MatrixxCanvas.ColumnCount | src/matrixx-canvas.ts:49 | the count n is the integer with n <= 1 + 20 d < n + 1 |
| MatrixxCanvas.LimitedCount | src/matrixx-canvas.ts:49 | a density in [0, 10] gives between 1 and 201 columns |
| MatrixxCanvas.Connect | src/matrixx-canvas.ts:29-61 | direction is down exactly for "down"; the colour is the attribute or `#00ff00`; a NaN or rejected density gives 81 columns, an accepted one max(0, floor(1 + 20 d)); each entry is in range and built from its own five draws; the warnings are exactly: invalid density iff NaN, out of range iff rejected, too many iff more than 320 columns |
| MatrixxCanvas.DefaultDensityColumns | src/matrixx-canvas.ts:35-49 | a missing density reads as "4": 81 columns |
| MatrixxCanvas.LimitedConnect | src/matrixx-canvas.ts:44-52 | with the limit on there are 1 to 201 columns and never the too-many warning |
| MatrixxCanvas.UnlimitedConnect | src/matrixx-canvas.ts:44-52 | with the limit off, a density >= 16 passes unchanged, gives more than 320 columns and the warning |
| BitRainCanvas.IsBooleanFalse | src/MatrixxCanvas.ts:14-16 | definition: present and "false" or "0"; related to `isBooleanTrue` by `NotFalseMatchesIsBooleanTrue` and `FalseExcludesTrue` |
| BitRainCanvas.NotFalseMatchesIsBooleanTrue | src/MatrixxCanvas.ts:14-16 | on the documented spellings, "not `isBooleanFalse`" agrees with the newer element's `isBooleanTrue` |
| BitRainCanvas.FalseExcludesTrue | src/MatrixxCanvas.ts:14-16 | "false" and "0" are never true; a missing attribute is not false |
| BitRainCanvas.NormalizeDensity | src/MatrixxCanvas.ts:30-35 | when limiting applies, NaN or a density outside [0, 1] becomes 0.5 and anything else is kept; without limiting the parsed value is kept, NaN included |
| BitRainCanvas.ColumnCount | src/MatrixxCanvas.ts:37 | the count is NaN exactly for a NaN density; otherwise it is the integer c with c <= 1 + 25 d < c + 1 |
| BitRainCanvas.LimitedCount | src/MatrixxCanvas.ts:37 | a density in [0, 1] gives between 1 and 26 columns |
| BitRainCanvas.ConnectWith | src/MatrixxCanvas.ts:26-46 | for a given limit flag: each entry is in range and built from its own five draws; the element warns, with the attribute text, exactly when limiting applies and the density is NaN or outside [0, 1]; under limiting there are 1 to 26 columns, 13 after the fallback and floor(1 + 25 d) otherwise; without limiting the parsed density is used as it is |
| BitRainCanvas.ConnectAsWritten | src/MatrixxCanvas.ts:26-46 | as written: limiting applies exactly for "false" and "0", giving 1 to 26 columns; otherwise the parsed density is used as it is and nothing is warned |
| BitRainCanvas.Connect | src/MatrixxCanvas.ts:26-46 | corrected: limiting applies unless `limit` is "false" or "0", giving 1 to 26 columns; for "false" and "0" the parsed density is used as it is and nothing is warned |
| BitRainCanvas.AsWrittenIgnoresDefaultLimit | src/MatrixxCanvas.ts:29 | as written, density "5" with no `limit` gives 126 columns, where the documented default limit gives 13 |
| BitRainCanvas.AsWrittenLimitsOnFalse | src/MatrixxCanvas.ts:29-35 | as written, `limit="false"` is what turns limiting on |
| BitRainCanvas.AsWrittenNaNRendersNothing | src/MatrixxCanvas.ts:30-38 | as written, without limiting, a density that does not parse renders no columns and no warning |
| BitRainCanvas.DefaultDensityColumns | src/MatrixxCanvas.ts:27-37 | a missing density reads as "0.5": 13 columns in both versions |

## Left out

- Canvas and DOM calls (`getContext`, `clientWidth`, `getBoundingClientRect`, `setTransform`, `scale`, `clearRect`, `fillStyle`, `font`, `textBaseline`, `globalAlpha`) are not modelled. Their inputs are the `Surface` parameter, and `draw` is modelled by the draw calls it makes.
- `requestAnimationFrame`, `cancelAnimationFrame`, `performance.now` and the window `resize` listener: timestamps and frame handles are parameters. There is no event loop and no concurrency.
- The single `Math.random()` stream: each draw is an indexed parameter in [0, 1). The interleaving order of the draws within one call is not modelled.
- `Math.pow(x, 0.9)` is a parameter with the properties `activationProb` relies on (monotone on [0, 1], fixes 0 and 1).
- Numbers are reals. Not modelled: Float32Array rounding of `alpha`, IEEE rounding, and NaN or Infinity in engine options.
- `parseFloat` is a parameter returning a finite number or NaN. Infinity is not modelled.
- The `Array.from` RangeError for a length above 2^32 - 1 is not modelled, and neither is the `vw` string formatting of `left`.
- Shadow-DOM `render`/`innerHTML`, the CSS, `customElements.define` and the `console.warn` texts are not modelled. The warnings are modelled only as which ones fire.
- src/bit-rain-column.ts and src/BitRainColumn.ts (the column element's CSS animation and bit-flipping timer) are not part of this model. Nor are src/index.ts, src/auto.ts and the example apps, which are registration glue and markup.
- The `color` option only styles `draw` through `fillStyle`, so it is not modelled.
- `setOptions` does not re-bound existing tails after `tailMin`/`tailMax` change, and neither does the model. Tail bounds are therefore stated for fresh draws (`TailLen`), not as an engine invariant.
- Charamask.CharamaskEngine.constructor: calls no instance method. It performs `attach` → `resize(true)` inline, with the same results.
- Charamask.CharamaskEngine.SeedBuffers: `activationProb()` is evaluated once per call rather than once per column. The options do not change inside the loop, so the value is the same.
- Charamask.CharamaskEngine.Tick: requires a pending frame. The closure only runs as the callback of a frame request, and `stop` cancels that request.
- Charamask.CharamaskEngine.Tick: uses the corrected clamp `Scheduler.ClampDt`, not the clamp as written (see Findings). For t < last it steps by 0, where the source steps by a negative time.
- Charamask.CharamaskEngine.Frame: steps by the corrected clamp `Scheduler.ClampDt(t, last)`, not the clamp as written. For t < last it steps by 0, where line 98 steps by a negative time (see Findings).
- Charamask.CharamaskEngine.Step: requires dt >= 0. The as-written tick can pass a negative dt, and that case is stated only by `Scheduler.NegativeStepBrightens`.
- BitRainCanvas.Connect: is the corrected element, and `BitRainCanvas.ConnectAsWritten` is the one as written (see Findings). Both are stated through `ConnectWith`.
- `tailMin` and `tailMax` are JavaScript numbers in the source but integers in the model. A fractional bound shifts the range `Math.floor(rand(tailMin, tailMax + 1))` can produce, and that is not modelled.

## Findings

| source | as written | input that shows it | evidently intended | confidence | as-written member | corrected member |
|---|---|---|---|---|---|---|
| src/charamask-engine.ts:98 | `Math.min(80, t - last) / 1000` bounds the step above only | `start()` records `last = performance.now() = 1000`, then the first frame's timestamp is 990 (a frame timestamp may precede the `performance.now()` read): dt = -0.01, an unlit cell at 0.99 decays to 1.002 | a step in [0, 0.08] s, so opacity stays in [0, 1] | not executed | Scheduler.NegativeStepBrightens | Scheduler.ClampDt |
| src/MatrixxCanvas.ts:29 | `limit = isBooleanFalse(limitAttr)` turns limiting on only for "false"/"0" | `<bit-rain-canvas density="5">` with no `limit`: 126 columns instead of the documented default-limited 13 | limiting by default, switched off by "false"/"0" (`!isBooleanFalse`, as the newer element does with `isBooleanTrue`) | not executed | BitRainCanvas.AsWrittenIgnoresDefaultLimit | BitRainCanvas.Connect |
