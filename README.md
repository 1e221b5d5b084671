# Fractal builders, modelled in Dafny

This project models the seven fractal *builders* of a browser demo of
fractal constructions. Each builder keeps a history of generation states and
a cursor into it:

- `nextIteration` computes a new state only when the cursor is on the last
  entry (otherwise it replays);
- `prevIteration` moves the cursor back without deleting anything.

The seven builders are:

- **L-systems** (`LSystems`): a string is rewritten character by character
  through a rule table. A turtle with a bracket stack interprets a state,
  each character first mapped through the drawing rules.
- **Koch snowflake** (`Koch`): each refinement replaces every point of the
  closed outline by four points. The three new points are tagged with the
  iteration, and going back filters the points by tag.
- **Deterministic IFS over figures** (`DeterministicIfs`): every figure is
  mapped by every row of an affine table. A counter records the images that
  drop below one pixel.
- **Deterministic IFS over pixels** (`DeterministicIfsPixels`): every set
  pixel (alpha 255) of the previous image is copied by every row into a new
  transparent image. The order is columns from the right, pixels from the
  bottom, rows from the last.
- **Chaos game** (`ChaosGame`): a point jumps a fixed fraction of the way
  toward a chosen vertex and is floored; each landing is plotted black.
- **Randomized IFS** (`RandomizedIfs`): a draw selects the first row whose
  running weight sum reaches it. The point is mapped and plotted in one of
  three colour modes. When no running sum reaches the draw, the step does
  nothing at all: the point does not move and nothing is plotted, exactly as
  the loop in the code behaves.
- **Fractal flame** (`FractalFlame`): a draw scaled by the total weight walks
  the table. Each applied entry does the following:
  - applies its affine map;
  - sums the weighted variations;
  - applies the final transform;
  - averages the colour.
  A plot raises its pixel's alpha by one, so alpha counts hits. The walk stops
  after the first applied entry whose weight is not 1. The variation loop
  reuses the selection variable `k` as its counter and leaves it at -1. So
  once an entry has been applied, every later entry passes the `sum >= k`
  test. The model keeps this behaviour (see "## Findings").

Shared modules:

- `Cursor` holds the history and cursor logic.
- `Raster` holds the RGBA byte buffers: clamped byte stores, `setPixel`,
  `getPixel` and the "set pixel" test.
- `IfsTable` holds the rows of an affine table with their weights.
- `Wrappers` holds `Option`.

Each builder is a class with the source's fields. Its loops are methods proved
against specification functions over sequences. The buffer under
construction is an `array` written in place, and the history holds immutable
images. Randomness is passed in as parameters. Trigonometry and square roots
are abstract functions. Every builder is modelled as its code behaves.

## Model

| member | source | states |
|---|---|---|
| Cursor.Start | builders/lsystems.js:5-8 | the history starts with exactly the initial state, cursor on it |
| Cursor.Next | builders/lsystems.js:37-63 | the cursor moves forward by one; a state is appended only at the last entry, and it then becomes current; old entries are never changed |
| Cursor.Prev | builders/lsystems.js:65-71 | the states are unchanged; the cursor moves back by one unless it is at 0, in which case nothing changes |
| Cursor.RedoAfterUndo | builders/lsystems.js:37-71 | going back and then forward returns the same history, whatever state the forward move would compute: a replay, not a recomputation |
| Cursor.DriveAppendOnly | builders/chaosgame.js:78-123 | over any sequence of forward and back calls the history stays valid, only grows at the end, by one entry per computing call, and at most one per forward call |
| Cursor.AdvancesFromLast | builders/randomized-ifs.js:57-122 | n forward calls from the last entry compute n new states and leave the cursor on the last one |
| Cursor.AdvancesFromStart | builders/determenistic-ifs.js:52-111 | n forward calls from the initial history leave n + 1 states, cursor at n |
| Raster.Clamp | builders/randomized-ifs.js:101-103 | a stored integer becomes the nearest byte: unchanged in 0..255, else the closest bound |
| Raster.RoundHalfEven | builders/randomized-ifs.js:106-108 | the nearest integer, ties to the even one |
| Raster.ToByte | builders/randomized-ifs.js:106-108 | a stored real becomes 0 at or below 0, 255 at or above 255, and within 0.5 of it in between |
| Raster.ToByteOfInt | builders/randomized-ifs.js:101-108 | for an integral real, storing it is the same as clamping the integer |
| Raster.Blank | builders/chaosgame.js:64 | a new image of the given size is all zero bytes, four per pixel |
| Raster.Store | builders/chaosgame.js:72-75 | a byte write changes only the byte at an index inside the array; one outside is dropped |
| Raster.SetPixel | builders/chaosgame.js:70-76 | the four bytes at the floored offset get r, g, b, a; all other bytes are kept |
| Raster.GetPixel | builders/fractalflame.js:83-91 | a pixel can be read exactly when its four bytes lie inside the buffer |
| Raster.GetAfterSet | builders/fractalflame.js:74-91 | reading a pixel just written gives the written colour |
| Raster.GetAfterSetOther | builders/fractalflame.js:74-91 | a write does not change the reading at any other offset |
| Raster.WholePixelOrNothing | builders/chaosgame.js:70-76 | in a buffer of whole pixels a write lands entirely inside it or changes nothing |
| Raster.SetPixelKeepsSet | builders/chaosgame.js:101 | a set alpha byte stays 255 under a write whose alpha is 255 |
| Raster.SetPixelAlpha | builders/chaosgame.js:70-76 | the written alpha lands on an alpha byte (offset + 3, which is 3 mod 4) |
| Raster.SetPixelElsewhere | builders/chaosgame.js:70-76 | bytes of other pixels are unchanged by a write |
| Raster.IsSet | builders/determenistic-ifs-pixels.js:71-74 | a pixel is set exactly when it can be read and its alpha is 255 |
| Raster.PutPixel | builders/randomized-ifs.js:38-44 | the in-place write leaves the array equal to SetPixel of its old contents |
| Raster.NewPixels | builders/determenistic-ifs-pixels.js:81 | a fresh array equal to a blank image |
| Raster.CopyBytes | builders/chaosgame.js:84 | a fresh array equal to the copied bytes |
| LSystems.RewriteConcat | builders/lsystems.js:43-54 | rewriting distributes over concatenation |
| LSystems.RewriteLength | builders/lsystems.js:43-54 | the new state's length is the sum of replacement lengths, 1 for a character without a (truthy) rule |
| LSystems.RewriteIdentity | builders/lsystems.js:45-54 | with no applicable rule (absent or empty string) the state is unchanged |
| LSystems.RewriteSingle | builders/lsystems.js:47-53 | a character contributes its rule when present and non-empty, otherwise itself |
| LSystems.RunConcat | builders/lsystems.js:105-137 | interpreting a concatenation is interpreting the parts in turn, stopping at a failure |
| LSystems.RunCompletes | builders/lsystems.js:124-132 | a drawing completes exactly when no `]` meets an empty stack |
| LSystems.ClosesPops | builders/lsystems.js:119-132 | a string that closes the pushed part of the stack pops exactly that part |
| LSystems.BracketRestores | builders/lsystems.js:119-132 | a balanced `[ ... ]` leaves the turtle and the stack as they were before it |
| LSystems.UnknownSymbolsInert | builders/lsystems.js:133-135 | symbols other than F + - [ ] neither move the turtle nor draw |
| LSystems.TurnsCancel | builders/lsystems.js:74-76 | `+` turns by the angle, `-` turns back, and `+-` changes nothing |
| LSystems.LSystem.constructor | builders/lsystems.js:2-30 | one state (the axiom), cursor 0, not dirty; heading offset[2] or pi/2; step length from the length function or 10 |
| LSystems.LSystem.NextIteration | builders/lsystems.js:37-63 | the history advances with the rewrite of the current state |
| LSystems.LSystem.PrevIteration | builders/lsystems.js:65-71 | the cursor moves back; dirty only if it moved |
| LSystems.LSystem.Rotate | builders/lsystems.js:74-76 | counter-clockwise adds the angle, clockwise subtracts it |
| LSystems.LSystem.LineDraw | builders/lsystems.js:79-93 | the turtle moves by (sin, cos) of its heading times the length; the segment drawn joins old and new position |
| LSystems.LSystem.DrawState | builders/lsystems.js:96-138 | from the offset and default heading, the turtle, the segments and the completion flag are those of the interpretation Run |
| LSystems.LSystem.DrawSymbol | builders/lsystems.js:107-135 | one symbol is one step of Run; a `]` on an empty stack stops with nothing changed |
| Koch.RefineLayout | builders/koch.js:54-136 | four points per point: the point itself, the points at one and two thirds toward the next point, and the apex; the new three carry the iteration tag |
| Koch.RefineLength | builders/koch.js:54-136 | a refinement has four times as many points |
| Koch.KeepAll | builders/koch.js:149-153 | when no tag exceeds the level, filtering keeps every point in order |
| Koch.KeepSound | builders/koch.js:148-154 | filtering keeps exactly the points untagged or tagged at most the level |
| Koch.KeepQuad | builders/koch.js:149-153 | of the four points replacing a point, only the point itself survives filtering at the previous level |
| Koch.UndoRefine | builders/koch.js:142-156 | filtering a refinement at the level below its tag gives the outline back |
| Koch.RefineTags | builders/koch.js:53-136 | a refinement introduces no tag above its own |
| Koch.KeepKeepsUntagged | builders/koch.js:150 | filtering never removes a point of the initial polygon |
| Koch.RefineKeepsUntagged | builders/koch.js:72 | refining keeps the initial polygon's points, in order, and adds none |
| Koch.RefineFacts | builders/koch.js:48-136 | a whole refinement has 4n points and the same untagged points |
| Koch.KochSnowflake.constructor | builders/koch.js:2-22 | the outline is the triangle refined three times: 192 points, iteration 3, the polygon's points untagged |
| Koch.KochSnowflake.InitializeLines | builders/koch.js:25-40 | the three polygon vertices, untagged, in order |
| Koch.KochSnowflake.NextIteration | builders/koch.js:43-139 | above iteration 7 nothing changes; otherwise the iteration goes up and the outline is refined with it as tag |
| Koch.KochSnowflake.QuadAt | builders/koch.js:56-135 | the four points replacing point i |
| Koch.KochSnowflake.PrevIteration | builders/koch.js:142-156 | at 0 nothing changes; otherwise the iteration goes down and exactly the points tagged above it are dropped, in order |
| Koch.NextThenPrev | builders/koch.js:43-156 | going back right after refining restores the outline |
| DeterministicIfs.ImagesLayout | builders/determenistic-ifs.js:77-98 | the images of a figure are in row order, one per row |
| DeterministicIfs.ExpandLength | builders/determenistic-ifs.js:73-99 | the new state has figures times rows entries |
| DeterministicIfs.ExpandLayout | builders/determenistic-ifs.js:73-99 | the image of figure i under row j is at index i * rows + j, offsets scaled by the canvas and the extent by a and d only |
| DeterministicIfs.CountBound | builders/determenistic-ifs.js:92-95 | the counter is at most figures times rows |
| DeterministicIfs.CountSubpixelState | builders/determenistic-ifs.js:92-95 | a state of sub-pixel figures adds nothing to the counter |
| DeterministicIfs.Visible | builders/determenistic-ifs.js:131-137 | the drawn figures are exactly those at least one pixel in both dimensions |
| DeterministicIfs.DeterministicIfs.constructor | builders/determenistic-ifs.js:29-58 | one state holding a figure covering the canvas; counter undefined |
| DeterministicIfs.DeterministicIfs.NextIteration | builders/determenistic-ifs.js:60-111 | the history advances with the expansion of the current state; at the last entry the counter is replaced, on a replay it is kept |
| DeterministicIfs.DeterministicIfs.ExpandState | builders/determenistic-ifs.js:72-99 | the figure loop computes the whole expansion and its count |
| DeterministicIfs.DeterministicIfs.MapFigure | builders/determenistic-ifs.js:77-98 | the row loop computes a figure's images and their count |
| DeterministicIfs.DeterministicIfs.PrevIteration | builders/determenistic-ifs.js:113-119 | the cursor moves back; dirty only if it moved |
| DeterministicIfsPixels.Paint | builders/determenistic-ifs-pixels.js:100-118 | alpha 255; the source colour by default; channel i mod 3 at 255 in demo mode; red raised by 10 (clamped) in heatmap mode |
| DeterministicIfsPixels.NextImage | builders/determenistic-ifs-pixels.js:76-134 | the new image has the previous image's size |
| DeterministicIfsPixels.NextImageClean | builders/determenistic-ifs-pixels.js:86-129 | every pixel of a new image is set or transparent black |
| DeterministicIfsPixels.SetPixelsReachImages | builders/determenistic-ifs-pixels.js:86-129 | every row sends every set pixel to a set pixel of the new image when the target is inside it |
| DeterministicIfsPixels.OnlyImagesWritten | builders/determenistic-ifs-pixels.js:81-129 | a byte that no row sends any set pixel to stays 0 |
| DeterministicIfsPixels.RowZeroWritesLast | builders/determenistic-ifs-pixels.js:91-126 | for one source pixel, row 0 writes last, so its target holds row 0's colour |
| DeterministicIfsPixels.NothingSetGivesBlank | builders/determenistic-ifs-pixels.js:81-129 | an image with no set pixel is followed by a blank image |
| DeterministicIfsPixels.DeterministicIfsPixel.constructor | builders/determenistic-ifs-pixels.js:2-48 | the first state is the initial canvas image; no heatmap |
| DeterministicIfsPixels.DeterministicIfsPixel.NextIteration | builders/determenistic-ifs-pixels.js:76-138 | the history advances with NextImage of the current image |
| DeterministicIfsPixels.DeterministicIfsPixel.ApplyColumns | builders/determenistic-ifs-pixels.js:86-129 | the column loop writes Pass over all columns from the right |
| DeterministicIfsPixels.DeterministicIfsPixel.ApplyColumn | builders/determenistic-ifs-pixels.js:87-128 | the pixel loop of a column, from the bottom |
| DeterministicIfsPixels.DeterministicIfsPixel.ApplyTable | builders/determenistic-ifs-pixels.js:91-126 | the row loop, from the last row, for one set pixel |
| DeterministicIfsPixels.DeterministicIfsPixel.PrevIteration | builders/determenistic-ifs-pixels.js:140-146 | the cursor moves back; dirty only if it moved |
| ChaosGame.DefaultRule | builders/chaosgame.js:35-38 | a draw in [0, 1) picks an index in 0 .. n-1 |
| ChaosGame.MoveStaysInside | builders/chaosgame.js:92-97 | a floored jump toward a vertex inside [0, bound) stays inside it |
| ChaosGame.BurnInPlotsNothing | builders/chaosgame.js:99-102 | on iteration 0 the first 21 jumps leave the image unchanged |
| ChaosGame.LandingIsBlack | builders/chaosgame.js:101 | after a plotted jump the pixel under the point is opaque black |
| ChaosGame.RunStaysInside | builders/chaosgame.js:86-103 | with vertices inside the canvas and a fraction in [0, 1] the point stays inside |
| ChaosGame.RunKeepsSet | builders/chaosgame.js:86-103 | a set pixel stays set |
| ChaosGame.ChaosGame.constructor | builders/chaosgame.js:2-67 | the given vertices, a start point from the two draws (inside the canvas for draws in [0, 1)), one blank image |
| ChaosGame.ChaosGame.NextIteration | builders/chaosgame.js:78-115 | at the last entry, the history advances with the image after 10000 jumps and the point moves to the end; a replay keeps the point |
| ChaosGame.ChaosGame.PlotJumps | builders/chaosgame.js:86-103 | the jump loop ends at Run of all jumps |
| ChaosGame.ChaosGame.JumpOnce | builders/chaosgame.js:88-102 | one iteration of the loop is one Jump |
| ChaosGame.ChaosGame.PrevIteration | builders/chaosgame.js:117-123 | the cursor moves back; dirty only if it moved |
| RandomizedIfs.SelectIn | builders/randomized-ifs.js:74-111 | the selected row is the first whose running sum reaches the draw; none exactly when no running sum does |
| RandomizedIfs.Select | builders/randomized-ifs.js:73-112 | a selected row exists in the table |
| RandomizedIfs.SelectInStable | builders/randomized-ifs.js:75-111 | rows after a selected one do not change the selection |
| RandomizedIfs.WeightsCoverDraws | builders/randomized-ifs.js:73-77 | with weights summing to at least 1 every draw below 1 selects a row |
| RandomizedIfs.ChoiceRed | builders/randomized-ifs.js:106 | the red of colour choice is within 0.5 of 255 / rows * j; row 0 gives 0 |
| RandomizedIfs.Colour | builders/randomized-ifs.js:93-108 | every plot is opaque; plain mode is black (0, 0, 0, 255); colour choice without heatmap is (ChoiceRed, 0, 0, 255) |
| RandomizedIfs.HeatmapReadsPrevious | builders/randomized-ifs.js:98-103 | the heatmap colour comes from the previous image: on a lit pixel red + 5, green + 5 when red is 255 and 0 otherwise, blue 255 - red; (0, 0, 255) otherwise |
| RandomizedIfs.UnselectedStepIsNoop | builders/randomized-ifs.js:75-112 | with non-negative weights, a draw above the total leaves point and image unchanged |
| RandomizedIfs.WeightSumMonotone | builders/randomized-ifs.js:76 | with non-negative weights the running sums never decrease |
| RandomizedIfs.BurnInPlotsNothing | builders/randomized-ifs.js:93 | on iteration 0 the first 11 steps leave the image unchanged |
| RandomizedIfs.WalkKeepsSet | builders/randomized-ifs.js:69-113 | a set pixel stays set |
| RandomizedIfs.LandingIsSet | builders/randomized-ifs.js:108 | after a plotted step the pixel under the shifted point is set |
| RandomizedIfs.RandomizedIfs.constructor | builders/randomized-ifs.js:2-35 | the point at the origin, the offset from the table or (0, 0), one blank image |
| RandomizedIfs.RandomizedIfs.NextIteration | builders/randomized-ifs.js:57-122 | at the last entry, the history advances with the image after 10000 steps and the point moves to the end; a replay keeps the point |
| RandomizedIfs.RandomizedIfs.PlotSteps | builders/randomized-ifs.js:69-113 | the step loop ends at Walk of all steps |
| RandomizedIfs.RandomizedIfs.ApplyDraw | builders/randomized-ifs.js:73-112 | one step is StepAt: selection, then a landing or nothing |
| RandomizedIfs.RandomizedIfs.PlotRow | builders/randomized-ifs.js:79-110 | the selected row's map and plot is Land |
| RandomizedIfs.RandomizedIfs.PrevIteration | builders/randomized-ifs.js:124-130 | the cursor moves back; dirty only if it moved |
| FractalFlame.GetColor | builders/fractalflame.js:65-71 | the red is round(c * 255), halves up, capped at 255 |
| FractalFlame.GetColorOfUnit | builders/fractalflame.js:65-71 | a colour in [0, 1] gives a red in 0..255 within 0.5 of c * 255 |
| FractalFlame.Coeffs | builders/fractalflame.js:112 | the weight rows of the table, in order |
| FractalFlame.VarSumOnlyWeighted | builders/fractalflame.js:137-143 | variations with weight 0 are not evaluated: only weighted ones matter |
| FractalFlame.VarSumSingle | builders/fractalflame.js:137-143 | with a single non-zero weight the sum is that variation times its weight |
| FractalFlame.VarSumNone | builders/fractalflame.js:137-143 | with all weights 0 the sum is (0, 0) |
| FractalFlame.HitAlpha | builders/fractalflame.js:161-162 | the new alpha is one more than the pixel's, capped at 255 |
| FractalFlame.KReuseCounterexample | builders/fractalflame.js:137 | as written, weights [1, 0.5, 0.5] and k = 1.8 apply entries 0 and 1; the intended walk applies 0 and 2 |
| FractalFlame.AppliedExactly | builders/fractalflame.js:109-122 | the intended walk, with k kept as drawn, applies an entry exactly when its weight is 1 or its running sum reaches k, and no earlier reached entry of weight other than 1 stopped it |
| FractalFlame.AppliedAfter | builders/fractalflame.js:109-122 | the intended walk's applied entries are in the table and strictly increasing |
| FractalFlame.PickAppliesSelected | builders/fractalflame.js:116-174 | a step applies, one after another, exactly the entries the walk as written selects (AppliedAsWritten, with k at -1 after an applied entry) |
| FractalFlame.AppliedAsWrittenAfter | builders/fractalflame.js:116-174 | the walk as written applies only entries of the table at or after its start |
| FractalFlame.AppliedAsWrittenExactly | builders/fractalflame.js:116-174 | with non-negative weights, the walk as written applies an entry exactly when it is the first of weight 1 or whose running sum reaches k, or when it follows an applied entry of weight 1 |
| FractalFlame.AppliedAfterReset | builders/fractalflame.js:120-137 | with k left at -1, the walk applies every entry up to and including the first whose weight is not 1 |
| FractalFlame.AfterWeightOneApplied | builders/fractalflame.js:120-137 | with non-negative weights, the entry after an applied entry of weight 1 is always applied, whatever the draw |
| FractalFlame.WeightSumNonNegative | builders/fractalflame.js:116-121 | non-negative weights give non-negative running sums |
| FractalFlame.BurnInPlotsNothing | builders/fractalflame.js:156 | on iteration 0 the first 11 steps leave the image unchanged |
| FractalFlame.ColourStaysInUnit | builders/fractalflame.js:145 | with colour weights and the start in [0, 1] the colour stays in [0, 1] |
| FractalFlame.PlottedRed | builders/fractalflame.js:145-165 | with colours in [0, 1] the plotted red is the colour midpoint scaled to 0..255 within 0.5 |
| FractalFlame.EdgesUntouched | builders/fractalflame.js:160 | pixels on row 0 and column 0 are never written |
| FractalFlame.InteriorPixel | builders/fractalflame.js:160 | a guarded pixel is neither on row 0 nor on column 0 |
| FractalFlame.PixelInside | builders/fractalflame.js:160-169 | a guarded pixel lies inside the image |
| FractalFlame.AlphaNeverDecreases | builders/fractalflame.js:161-169 | no step lowers any alpha: alpha counts hits |
| FractalFlame.HitRaisesAlpha | builders/fractalflame.js:161-169 | a plot raises an alpha by at most one and never lowers it |
| FractalFlame.HitIsRecorded | builders/fractalflame.js:157-169 | after a guarded plot the pixel holds the red of the colour, green and blue 0, and one more alpha capped at 255 |
| FractalFlame.FractalFlame.constructor | builders/fractalflame.js:25-63 | the point at the origin with the drawn colour, offsets half the canvas, the final transform given or (x, y, 0), one blank image |
| FractalFlame.FractalFlame.NextIteration | builders/fractalflame.js:93-187 | at the last entry, the history advances with the image after 1000000 steps and the point and colour move to the end; a replay keeps them |
| FractalFlame.FractalFlame.PlotSteps | builders/fractalflame.js:104-175 | the step loop ends at Run of all steps |
| FractalFlame.FractalFlame.PlotStep | builders/fractalflame.js:110-174 | one step is StepAt: the draw scaled by the total weight, then the walk as written, k taking the variation counter's final -1 after an applied entry |
| FractalFlame.FractalFlame.TotalWeight | builders/fractalflame.js:110-113 | the first loop sums every weight of the table |
| FractalFlame.FractalFlame.ApplyEntry | builders/fractalflame.js:124-171 | applying an entry is Apply: Move, then the guarded plot; the variation counter it returns is -1 |
| FractalFlame.FractalFlame.PlotPoint | builders/fractalflame.js:156-171 | the plot is Hit at the current point |
| FractalFlame.FractalFlame.Vary | builders/fractalflame.js:135-143 | the variation loop, from the last down, computes VarSum and leaves its counter at -1 |
| FractalFlame.FractalFlame.PrevIteration | builders/fractalflame.js:189-195 | the cursor moves back; dirty only if it moved |

## Left out

- The `draw` loops, `requestAnimationFrame`, canvas contexts and the drawn-state cache are rendering and host scheduling. So are `drawnCallback`, Path2D and `strokeStyle`. Only the draw-skip test of the figure builder is modelled, as `DeterministicIfs.Visible`.
- The `iterationTime` and `drawTime` timings (`performance.now`) are clock reads with no effect on the states.
- `Math.random` values are parameters: draws, vertex picks, start-point draws and the flame's initial colour.
- Trigonometry and square roots are abstract functions:
  - vertex placement on a circle (chaos game, Koch);
  - the Koch apex;
  - the turtle's sin and cos;
  - the flame variations and the final transform.
  Their numeric values are not modelled.
- Numbers are exact reals: IEEE-754 rounding, infinities and NaN are not modelled. The one exception is an unreadable pixel in the flame, whose NaN alpha is stored as 0 (`FractalFlame.HitAlpha`).
- The L-system length function is taken as the constant step length it returns.
- `LSystems.LSystem.DrawState`: only empty-string rules are treated as falsy. Other falsy rule values are not modelled.
- `LSystems.Expand`, `LSystems.Rewrite` and `LSystems.LSystem.NextIteration`: rules map characters to strings, so only an empty-string replacement counts as falsy. Other falsy values (`0`, `null`, `false`) are not modelled.
- The pixel IFS constructor's painting of the initial figure or square is left out; the initial canvas image is a parameter.
- The bodies of the figure `draw` methods (`Triangle`) are left out.
- `ChaosGame.ChaosGame.NextIteration`: requires every pick to index a vertex. A custom rule returning an index out of range makes the code throw, and that is not modelled.
- `FractalFlame.FractalFlame.NextIteration`: the colour weight `table[j][7]` is taken as an explicit field of each entry. In the code the entries are objects, so that lookup is likely undefined, which would make the colour NaN.
- `FractalFlame.FractalFlame.constructor`: the post-transform is never used, so it is not modelled.
- `FractalFlame.FractalFlame.constructor`: the unused hit-frequency array of the initial state is not modelled.
- `FractalFlame.FractalFlame.Vary`: the code's variation list has five entries, and a weight vector longer than that would call an undefined function. The model's variation is total.
- mandelbrot.js and grid.js are not part of this model.

## Findings

| source | as written | input that shows it | evidently intended | confidence | as-written member | corrected member |
|---|---|---|---|---|---|---|
| builders/fractalflame.js:137 | the variation loop reuses the selection variable `k` as its counter and leaves it at -1. After an applied entry of weight 1, the next entry passes `sum >= k` whatever its running sum, and is applied | entry weights [1, 0.5, 0.5] and draw 0.9, so k = 1.8: entries 0 and 1 are applied, although the running sum first reaches 1.8 at entry 2 | k keeps its drawn value for the whole walk, so entries 0 and 2 are applied | not executed; high (the reuse is visible in the code) | FractalFlame.KReuseCounterexample | FractalFlame.AppliedExactly |
