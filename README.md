# Handwriting synthesis: the stroke-to-page renderer

This project models the page and geometry logic of the handwriting-synthesis
renderer in Dafny and proves properties about it. The renderer takes the pen
offsets a recurrent network samples for each line of text and draws them as
paths on a page that may be ruled. The modelled parts are:

- **Page configuration** (`BackgroundConfig`, `PaperConfig`, `PageSizes`,
  `Args`). `Background` and `Paper` are classes whose fields the setters update
  in place. A setter that rejects its input returns the error and leaves every
  field unchanged. Python's `isinstance(x, int)` tests become the datatype
  `Args.Arg`. Exceptions become `Errors.Error`.
- **Unit conversion and the ruled sheet** (`Generator`). `mm_to_px` rounds
  ties to even, as Python 3's `round` does. `create_svg_with_ruled_lines` is a
  `while` loop that adds rules to a `Svg.Drawing`. That class is an abstract
  drawing that records its elements in order.
- **Line layout and path serialisation** (`Layout`, `Draw`, `DrawEnhanced`).
  The loops of `_draw` and of `_draw_enhanced.draw` become methods over the
  caller's list of offset arrays, an `array<seq<Point>>`. The offsets of each
  non-blank line are scaled in place. The line is flipped and translated to the
  running cursor, shifted for the alignment, and walked into `M`/`L` path
  commands. Coordinates are exact reals.
- **Request validation and sample cleanup** (`Hand`). This covers the
  validation of `write` and `strokes`, the inputs `_sample` prepares for the
  network, and the removal of all-zero rows from each sample.

Five collaborators are passed in as parameters. The network's `session.run` is
the function `network`. The composition of `offsets_to_coords`, `denoise` and
`align` is the function `normalize`. `encode_ascii` and the reading of each
style's two `.npy` files are the three functions of an `Encoder`. The drawing
that `generator.create_svg_with_lines` builds is the `canvas` argument. The
`randint(0, 6)` drawn for each left-aligned line is the sequence `jitter`.

Some behaviours of the code are easy to mistake for something simpler. The
model follows the code in each of them:

- `Background.__init__` accepts a `(width, height)` pair without checking
  that it is positive. An unknown size name there raises a `KeyError`, not a
  size error. Only `set_size` checks positivity.
- Every all-zero row of a sample is removed, wherever it occurs, not just the
  trailing padding. `DropZeroRowsAppend` states it row by row.
- A non-blank line whose coordinates come out empty is not skipped. numpy's
  `min` raises `ValueError`, the loop stops, and the drawing is never saved.
  The model returns `ValueError(EmptyReduction)` there.
- Alignment in `_draw_enhanced` is not a plain centring. It subtracts one
  scalar minimum, taken over both the x and the y column, and it centres
  against the paper width in raw millimetres. The line is exactly centred if
  and only if its smallest x is at most minus its largest y. Its top is exactly
  at the cursor on that same condition with the two sides swapped.
- `create_svg_with_ruled_lines` and `_draw_enhanced.draw` never read a ruling
  count (`horizontal_ruled_lines`, `vertical_ruled_lines`). The ruled sheet
  draws rules down to 15 mm above the bottom edge, however many that makes.
  `_draw` hands its whole background, counts included, to
  `generator.create_svg_with_lines`. That function is not defined in the
  generator.py shown, so what it does with the counts is not modelled; the
  model assumes the call returns a drawing, the `canvas` argument. `Paper` defaults to 34 horizontal rules, and a ruled
  `Background` has 32.
- `_sample` fills fixed-size arrays: 120 character codes and 1200 priming
  points per line. A longer row makes numpy raise `ValueError`, so a line
  that passes validation can still fail in sampling. The model returns
  `ValueError(BroadcastMismatch)` there, and `write` draws nothing.
- `biases` falls back to 0.5 per line only when it is `None`, so an empty list
  is passed on as given. Colours and widths fall back whenever they are falsy.

## Model

| member | source | states |
|---|---|---|
| PageSizes.Lookup | handwriting_synthesis/hand/_draw_enhanced.py:21-23 | A name gets a size exactly when it is one of the ten standard names. That size is the name's table entry. Any other name gets None, never an error. |
| PageSizes.StandardSizesPositive | handwriting_synthesis/drawing/background.py:2-13 | Every standard size has a strictly positive width and height. |
| Args.OffsetsCheck | handwriting_synthesis/drawing/background.py:45-49 | Passes exactly when both offsets are ints that are not negative. If either is not an int, the error is a TypeError, even when the other is negative. Otherwise a rejection is a ValueError. |
| Args.LineParametersCheck | handwriting_synthesis/drawing/background.py:53-57 | The same rule for the three ruling parameters: it passes exactly when all three are non-negative ints. The type test comes before the sign test. |
| BackgroundConfig.InitialSize | handwriting_synthesis/drawing/background.py:15-21 | A known name resolves to its table entry. An unknown name is a KeyError. Any pair is accepted as given, unchecked. Anything else is a ValueError. |
| BackgroundConfig.UpdatedSize | handwriting_synthesis/drawing/background.py:29-40 | Succeeds exactly for a known name or a pair with both sides positive. A successful result always has positive sides. Each of the three rejections is a ValueError with its own message: an unknown name, a non-positive side, or a malformed argument. |
| BackgroundConfig.Background.Init | handwriting_synthesis/drawing/background.py:23-27 | A ruled page gets 32 horizontal rules and 1 vertical rule; an unruled page gets 0 and 0. Offsets default to 34/33 and the line space to 8. |
| BackgroundConfig.Background.Create | handwriting_synthesis/drawing/background.py:15-27 | Construction fails exactly when the size argument is refused, with that error. Otherwise it returns a fresh valid background with the resolved size and the defaults. |
| BackgroundConfig.Background.SetSize | handwriting_synthesis/drawing/background.py:29-40 | Accepts exactly what UpdatedSize accepts and stores that size. On rejection it returns the error and keeps the old size, which get_size (background.py:42-43) then still returns. |
| BackgroundConfig.Background.SetOffsets | handwriting_synthesis/drawing/background.py:45-51 | Returns OffsetsCheck's verdict. On success only the two offsets change, to the given ints. On failure nothing changes. Offsets never become negative. |
| BackgroundConfig.Background.SetRuledLineParameters | handwriting_synthesis/drawing/background.py:53-60 | Returns LineParametersCheck's verdict. On success exactly the three ruling fields take the given values. On failure none changes. |
| PaperConfig.Paper.Init | handwriting_synthesis/drawing/paper.py:2-22 | Width and height are the table entry of the name, which becomes the fixed size name. Defaults: 34 horizontal rules, 1 vertical rule, offsets 34/33, line space 8. |
| PaperConfig.Paper.Create | handwriting_synthesis/drawing/paper.py:16-17 | Fails with KeyError exactly when the name is not in the table. Otherwise it returns a fresh paper initialised as Init states. |
| PaperConfig.Paper.GetSize | handwriting_synthesis/drawing/paper.py:24-25 | Returns the table lookup of the construction-time name, whatever width and height now hold. |
| PaperConfig.Paper.SetSize | handwriting_synthesis/drawing/paper.py:27-28 | Width and height take any given values, unvalidated. |
| PaperConfig.Paper.SetPaper | handwriting_synthesis/drawing/paper.py:30-35 | Succeeds exactly for a known name and sets width and height to its entry. An unknown name is ValueError with width and height unchanged. |
| PaperConfig.Paper.SetOffsets | handwriting_synthesis/drawing/paper.py:37-43 | The same type-then-sign check as Background. On success only the two offsets change. On failure nothing changes. |
| PaperConfig.Paper.SetRuledLineParameters | handwriting_synthesis/drawing/paper.py:45-46 | Any values, negatives included, overwrite the three ruling fields. |
| PaperConfig.ResizeKeepsReportedSize | handwriting_synthesis/drawing/paper.py:24-35 | set_size then set_paper change only width and height, and no other field. get_size reports the same construction-time entry before and after. |
| Svg.Drawing.constructor | handwriting_synthesis/drawing/generator.py:48 | A new drawing records its file name, physical size and unit. It has no viewbox, no elements, and is not saved. |
| Svg.Drawing.SetViewbox | handwriting_synthesis/drawing/generator.py:51 | Sets the viewbox and nothing else. |
| Svg.Drawing.Add | handwriting_synthesis/drawing/generator.py:63 | Appends the element after all earlier ones and changes nothing else. |
| Svg.Drawing.Save | handwriting_synthesis/hand/_draw.py:87 | Marks the drawing saved and changes nothing else. |
| Generator.RoundHalfEven | handwriting_synthesis/drawing/generator.py:17 | Python's round: the result is within one half of x, and an exact tie goes to the even integer. |
| Generator.MmToPx | handwriting_synthesis/drawing/generator.py:16-23 | Fails exactly for a unit other than mm, cm and in, with ValueError(InvalidUnit). |
| Generator.MmToPxRounds | handwriting_synthesis/drawing/generator.py:16-21 | For each supported unit the result is round(length * dpi / u). Here u is 25.4 for mm, 2.54 for cm and 1 for in. |
| Generator.MmToPxNearest | handwriting_synthesis/drawing/generator.py:16-21 | The result is the nearest whole pixel to the exact conversion, a tie going to the even one. |
| Generator.RoundHalfEvenMonotone | handwriting_synthesis/drawing/generator.py:17 | Rounding never reverses order: x <= y implies round(x) <= round(y). |
| Generator.MmToPxZero | handwriting_synthesis/drawing/generator.py:16-21 | Zero length converts to zero pixels at any dpi and supported unit. |
| Generator.MmToPxMonotone | handwriting_synthesis/drawing/generator.py:16-21 | For a fixed non-negative dpi and supported unit, a longer length never converts to fewer pixels. |
| Generator.MillimetresAndCentimetresAgree | handwriting_synthesis/drawing/generator.py:16-19 | Over exact reals, 10·L millimetres and L centimetres convert to the same pixel count. |
| Generator.DefaultConstants | handwriting_synthesis/hand/_draw.py:43 | At 96 dpi: 0 mm is 0 px, 5 mm of padding is 19 px, 8 mm is 30 px, and the 15 mm bottom margin is 57 px. |
| Generator.RuleLinesAt | handwriting_synthesis/drawing/generator.py:57-65 | Rule k lies at start + k·gap and on or above the bottom limit. The row one gap after the last rule is below the limit, so no rule is missing and none beyond the limit is drawn. |
| Generator.RuledSheetLayout | handwriting_synthesis/drawing/generator.py:54-71 | The sheet is a run of rules spanning x from 0 to the page width, starting at the vertical offset, one gap apart, none below height − 15 mm. Then comes exactly one vertical rule at the horizontal offset, from 0 to the page height. |
| Generator.CreateSvgWithRuledLines | handwriting_synthesis/drawing/generator.py:26-73 | Fails exactly for an unsupported unit. Otherwise it returns a fresh, unsaved drawing with the given name, size and unit, whose viewbox is the pixel width and height. Its elements are exactly the ruled sheet, in order. |
| Layout.Min | handwriting_synthesis/hand/_draw.py:58 | numpy min over a non-empty column: no entry is smaller. |
| Layout.Max | handwriting_synthesis/hand/_draw.py:66 | numpy max over a non-empty column: no entry is larger. |
| Layout.MinAttained | handwriting_synthesis/hand/_draw.py:58 | The minimum is one of the column's entries. |
| Layout.MaxAttained | handwriting_synthesis/hand/_draw.py:66 | The maximum is one of the column's entries. |
| Layout.TranslateXExtremes | handwriting_synthesis/hand/_draw.py:58-68 | A translation moves the smallest and largest x by exactly its x shift. |
| Layout.TranslateYExtremes | handwriting_synthesis/hand/_draw.py:58-70 | A translation moves the smallest and largest y by exactly its y shift. |
| Layout.FlipExtremes | handwriting_synthesis/hand/_draw.py:57 | The flip leaves x untouched. The new smallest y is minus the old largest, and the new largest is minus the old smallest. |
| Layout.WalkAt | handwriting_synthesis/hand/_draw.py:75-77 | The walk emits one command per point. Command k is decided by point k−1's eos, or by the initial state for the first point. |
| Layout.PathRule | handwriting_synthesis/hand/_draw.py:73-77 | The path is "M0,0" followed by one command per point, at that point's coordinates. A command is a move exactly when it is for the first point or the previous point's eos is 1.0, and a line otherwise. |
| Layout.SerializePath | handwriting_synthesis/hand/_draw_enhanced.py:111-115 | The loop with its running prev_eos produces exactly the command list the path rule describes. |
| Layout.CursorClosedForm | handwriting_synthesis/hand/_draw.py:42-49 | After k lines, blank ones included, the cursor is its start minus k line heights. |
| Layout.CursorDecreases | handwriting_synthesis/hand/_draw.py:84 | With a positive line height the cursor is strictly lower for every later line. |
| Layout.OrDefault | handwriting_synthesis/hand/_draw.py:18-19 | A non-empty list is kept as given. An empty or missing one becomes one default per line. |
| Layout.ZipLength | handwriting_synthesis/hand/_draw.py:46 | zip stops at the shortest input: the count is at most each length and equal to one of them. |
| Layout.FirstEmpty | handwriting_synthesis/hand/_draw.py:46-58 | The result is the first non-blank line whose coordinates are empty, where numpy's min raises, or the end if there is none. Every earlier line is blank or has points. |
| Layout.Rendered | handwriting_synthesis/hand/_draw.py:46-49 | The loop adds one element per non-blank line and none for a blank one. |
| Layout.RenderedLines | handwriting_synthesis/hand/_draw.py:46-49 | Non-blank line k's element sits at position NonBlank(k), the number of non-blank lines before it. The elements keep the order of their lines. |
| Layout.NonBlankMonotone | handwriting_synthesis/hand/_draw.py:47-49 | The count of non-blank lines never decreases along the document. |
| Layout.ScaledBeforeAt | handwriting_synthesis/hand/_draw_enhanced.py:96-101 | Once the loop is past line i, line k's offsets are scaled exactly when k is a non-blank line before i. Every other line's offsets are untouched. |
| Draw.AtCursorExtremes | handwriting_synthesis/hand/_draw.py:57-58 | After the cursor translation the smallest x is initial_x (0) and the smallest y is minus the cursor. |
| Draw.PlaceLineRigid | handwriting_synthesis/hand/_draw.py:57-70 | The placed line has the same points and eos flags. x differences between points are kept, and y differences are negated, so the vertical order is reversed: a rigid motion plus a mirror. |
| Draw.PlaceLineGeometry | handwriting_synthesis/hand/_draw.py:57-70 | The top is at the vertical offset below the cursor. Left alignment puts the smallest x at offset + jitter + padding. Right alignment puts the largest x at view width − padding. Any other value leaves equal left and right gaps. |
| Draw.LeftEdgeBounds | handwriting_synthesis/hand/_draw.py:60-63 | With jitter in 0..6 mm, a left-aligned line's left edge lies between offset + padding and offset + px(6) + padding. |
| Draw.DrawnLines | handwriting_synthesis/hand/_draw.py:46-82 | Up to the first raising line, non-blank line k contributes exactly one path, at position NonBlank(k), carrying line k's colour and width. |
| Draw.LineTop | handwriting_synthesis/hand/_draw.py:57-70 | The top of line k (blank lines counted) is line_height/4 + k·line_height + the vertical offset, whatever the line holds. |
| Draw.LineTopsIncrease | handwriting_synthesis/hand/_draw.py:84 | With a positive line height, a later line always starts strictly lower on the page than an earlier one. |
| Draw.DrawLine | handwriting_synthesis/hand/_draw.py:47-84 | A blank line changes nothing. Otherwise the line's offsets are scaled in place and no other line's. Its path is added exactly when its coordinates are not empty, and the result reports whether the loop goes on. |
| Draw.DrawRows | handwriting_synthesis/hand/_draw.py:46-84 | The loop stops at the first raising line, or runs to the end. The drawing gains exactly the rendered paths up to there. The offsets of exactly the non-blank lines reached are scaled in place. |
| Draw.DrawPage | handwriting_synthesis/hand/_draw.py:46-87 | A raising line gives ValueError and the drawing stays unsaved. Otherwise the drawing is saved. The elements and the offsets are as the loop leaves them. |
| Draw.DrawLines | handwriting_synthesis/hand/_draw.py:11-87 | _draw as a whole: page quantities in pixels from the background, defaults black and 2, the first zip-length lines placed and added, and the caller's offsets scaled in place line by line. The drawing is saved exactly when no line raised. |
| DrawEnhanced.DefaultPaper | handwriting_synthesis/hand/_draw_enhanced.py:32 | The default paper size, get_size("A4"), is 210 × 297. |
| DrawEnhanced.GlobalMinIs | handwriting_synthesis/hand/_draw_enhanced.py:107 | The minimum over both columns together is the smaller of the two column minima. |
| DrawEnhanced.FlipGlobalMin | handwriting_synthesis/hand/_draw_enhanced.py:106-107 | After the flip, the global minimum is the smaller of the line's smallest x and minus its largest y. |
| DrawEnhanced.AtCursorExtremes | handwriting_synthesis/hand/_draw_enhanced.py:106-107 | A single scalar m is subtracted from x, and m plus the cursor from y. The extremes move by exactly those amounts. |
| DrawEnhanced.PlaceLineRigid | handwriting_synthesis/hand/_draw_enhanced.py:106-109 | The placed line has the same points and eos flags. x differences are kept and y differences negated: a rigid motion plus a mirror. |
| DrawEnhanced.PlaceLineExtremes | handwriting_synthesis/hand/_draw_enhanced.py:106-109 | The placed line's extremes in terms of the line's own extremes, the global minimum, the centring shift and the raw vertical offset. |
| DrawEnhanced.PlaceLineGeometry | handwriting_synthesis/hand/_draw_enhanced.py:106-109 | The left gap exceeds the right gap by exactly (smallest x − global minimum) ≥ 0. The line is centred if and only if its smallest x ≤ −(largest y). Its top is never above offset − cursor, and is exactly there if and only if −(largest y) ≤ smallest x. |
| DrawEnhanced.LineTop | handwriting_synthesis/hand/_draw_enhanced.py:92-122 | The cursor for line k is −6 − 8k. The top of line k lies at least 6 + 8k below the vertical offset. |
| DrawEnhanced.DrawnLines | handwriting_synthesis/hand/_draw_enhanced.py:94-120 | Up to the first raising line, non-blank line k contributes exactly one path, at position NonBlank(k), carrying line k's colour and width. |
| DrawEnhanced.DrawLine | handwriting_synthesis/hand/_draw_enhanced.py:96-122 | A blank line changes nothing. Otherwise only its own offsets are scaled in place. Its path is added exactly when its coordinates are not empty. |
| DrawEnhanced.DrawRows | handwriting_synthesis/hand/_draw_enhanced.py:94-122 | The loop stops at the first raising line, or runs to the end. The sheet gains exactly the rendered paths up to there. The offsets of exactly the non-blank lines reached are scaled in place. |
| DrawEnhanced.DrawPage | handwriting_synthesis/hand/_draw_enhanced.py:94-125 | A raising line gives ValueError and the sheet stays unsaved. Otherwise it is saved. |
| DrawEnhanced.Draw | handwriting_synthesis/hand/_draw_enhanced.py:26-125 | A missing paper size fails to unpack with TypeError, before anything is drawn or scaled. Otherwise a fresh ruled sheet at the paper size, in mm with an 8 mm gap, is followed by the rendered paths. It is saved exactly when no line raised, and the caller's offsets are scaled as the loop reached them. |
| Hand.CharError | handwriting_synthesis/hand/Hand.py:84-91 | Passes exactly when every character of the line is in the alphabet. A failure is a ValueError. |
| Hand.CharErrorIs | handwriting_synthesis/hand/Hand.py:84-91 | The reported character is the first one outside the alphabet, with the line's number. |
| Hand.LineError | handwriting_synthesis/hand/Hand.py:76-91 | A line passes exactly when it is within the length limit and uses only the alphabet. An over-long line reports its length, before any character is looked at. |
| Hand.LinesError | handwriting_synthesis/hand/Hand.py:75-91 | Passes exactly when every line is valid. |
| Hand.LinesErrorIs | handwriting_synthesis/hand/Hand.py:75-91 | The reported error is that of the first invalid line, numbered as enumerate numbers it. Every earlier line is valid. |
| Hand.RequestError | handwriting_synthesis/hand/Hand.py:66-91 | An invalid alignment is reported before any line is checked. The request passes exactly when the alignment is valid and every line is valid. |
| Hand.RequestErrorNames | handwriting_synthesis/hand/Hand.py:74-91 | A rejection names the first invalid line. It gives that line's length if the line is too long, and otherwise the line's first character outside the alphabet. |
| Hand.ValidateRequest | handwriting_synthesis/hand/Hand.py:103-129 | The nested loops that return at the first fault compute exactly RequestError. strokes and write share it, so their validation is identical. |
| Hand.LongestLine | handwriting_synthesis/hand/Hand.py:149 | max over the line lengths is at least every line's length. |
| Hand.LongestLineAttained | handwriting_synthesis/hand/Hand.py:149 | max over the line lengths is the length of some line. |
| Hand.PrepareSample | handwriting_synthesis/hand/Hand.py:148-187 | No lines means max() raises ValueError. Otherwise it fails with ValueError exactly when some line's character row (its style's text, a space and the line, when styled) is longer than 120 codes, or its style's priming strokes are longer than 1200 points. Otherwise: one sample per line, each line's character and priming row as the fill writes it, time steps a multiple of 40 that covers 40 per character of every line, priming exactly when styles are given, and biases as given or 0.5 per line when None. |
| Hand.TstepsTight | handwriting_synthesis/hand/Hand.py:149 | The time-step budget is exactly 40 times the length of some line, so it is no larger than the longest line needs. |
| Hand.DropZeroRows | handwriting_synthesis/hand/Hand.py:190 | No all-zero row is left, and every other row keeps its multiplicity. |
| Hand.DropZeroRowsAppend | handwriting_synthesis/hand/Hand.py:190 | The filter works row by row over any split of the sample. Zero rows are removed wherever they occur, and the order of the rest is kept. |
| Hand.DropZeroRowsSingle | handwriting_synthesis/hand/Hand.py:190 | A single row is dropped exactly when it is all zero. |
| Hand.DropZeroRowsKeeps | handwriting_synthesis/hand/Hand.py:190 | A sample without zero rows comes back unchanged. |
| Hand.DropZeroRowsIdempotent | handwriting_synthesis/hand/Hand.py:190 | Filtering twice is filtering once. |
| Hand.OverlongRowRaises | handwriting_synthesis/hand/Hand.py:152-169 | One character row longer than 120 codes, or one style with more than 1200 priming points, makes the preparation fail with ValueError, whatever the other lines hold. |
| Hand.UnstyledRows | handwriting_synthesis/hand/Hand.py:171-175 | Without styles nothing is primed, so the rows fit exactly when every line's encoding has at most 120 codes. |
| Hand.Sample | handwriting_synthesis/hand/Hand.py:148-191 | Fails exactly when the preparation fails, with its error. Otherwise there is one cleaned sample per sample the network returns for the prepared request. |
| Hand.SampleRows | handwriting_synthesis/hand/Hand.py:177-191 | Whenever the preparation succeeds, sample k is the network's sample k with its zero rows removed: none remains, and every other row keeps its multiplicity. |
| Hand.Strokes | handwriting_synthesis/hand/Hand.py:100-134 | A rejected request returns its validation error and the network is never consulted. An accepted one returns exactly what Sample returns: its error, or the cleaned samples. |
| Hand.Write | handwriting_synthesis/hand/Hand.py:41-98 | A rejected request, or a sampling error (no lines, or a row too long for its array), returns its error and leaves the drawing untouched. Otherwise the samples are drawn, as _draw draws them, on the given background or on A4 unruled by default. |

## Left out

- The recurrent network: its construction, restore and `session.run` are foreign calls, so the model takes them as the function `network`.
- `encode_ascii` and the style `.npy` files are foreign code and file I/O, so they are the functions of an `Encoder`, taken as total. A missing file or a failed decode is not modelled. The zero padding of `x_prime` and `chars` is not modelled either: a row records only what the fill writes, and the model checks only that it fits.
- `offsets_to_coords`, `denoise` and `align` live in a drawing module that is not part of this model. They are the function `normalize`.
- The generator.py shown defines only `mm_to_px` and `create_svg_with_ruled_lines` and no `create_svg_with_lines`, so as written `_draw.py:29` would raise AttributeError. The model assumes that call returns a drawing, the `canvas` argument.
- svgwrite formats path strings and line attributes, and `save` writes a file. This is library code and file I/O. The drawing records the elements and a saved flag instead.
- Stroke coordinates and the quotient `length * dpi / 25.4` inside `mm_to_px` are float64 in the source and exact reals here, so the model ignores floating-point rounding. The model does not show that float64 rounding leaves the rounded pixel count unchanged.
- `normalize` (`offsets_to_coords`, `denoise`, `align`) is taken to be total: an exception raised inside it is not modelled.
- `randint(0, 6)` is random. Each line's jitter is an input with values in 0..6, which is why `Draw.DrawLines` and `Hand.Write` require that range.
- The caller's list of offset arrays is an `array<seq<Point>>`, one cell per array. Two list entries that are the same numpy array (aliasing) are not modelled.
- Python values other than ints appear only as `Args.NotInt` and `SizeSpec.Malformed`. Sizes are integer pairs.
- `view_height_px` in `_draw` is computed and never used.
- `strokes` builds a `Background()` and never uses it, so the model omits that assignment.
- The `filename` of `write` and `_draw` only names the drawing, which is the `canvas` argument here.
- The default arguments of `_draw_enhanced.draw` are ordinary parameters of `DrawEnhanced.Draw`: offsets 34 and 23, and A4 by way of `DrawEnhanced.DefaultPaper`.
- `hand_write/handwrite.py` only wraps text and holds a module-level `Hand()` singleton. It is not part of this model.
- Generator.CreateSvgWithRuledLines: its precondition excludes two inputs for which the source's `while` loop never ends. These are a pixel gap of 0 or less with the first rule already above the bottom limit. The model does not describe that non-terminating behaviour.
- Hand.PrepareSample: states the time-step budget as a multiple of 40 that covers every line. `Hand.TstepsTight` separately states that it equals 40 times some line's length. Together these pin it to 40 times the longest line.
