# Lighthouse globe — a Dafny model of its core

The lighthouse globe shows a turning Earth on a 14 x 28 pixel lighthouse
facade. This project models the parts of the program that do not touch the
network, the keyboard or floating-point geometry:

- **the texture map** (`lighthousemap.dfy`, module `TextureMap`). It reads a
  PNM file in version P3. The file has a header of version, dimensions and
  maximum colour value, with `#` comment lines in between, and a body of
  integers that fills a `dimY x dimX x 3` raster. The map then answers the
  colour at a latitude and longitude. The answer is the rounded mean over a
  square window of texels; rows beyond a pole fold back over it, and columns
  beyond the date line shift by 360.
- **the frame buffer** (`lighthouseimage.dfy`, module `Image`). It is a grid
  of RGB triples that is written one pixel at a time.
- **the double-buffered screen** (`lighthousescreen.dfy`, module `Screen`).
  It holds a front and a back frame, the camera and the supported size.
- **the shared state** (`lighthousestate.dfy`, module `State`). It holds the
  rotation rate and its limit, the frame rate, the pause and termination
  flags, and the view's Euler angles.
- **the input controller** (`lighthouseinputcontroller.dfy`, module
  `InputController`). It maps each key to its effect on the state.
- **the output controller** (`lighthouseoutputcontroller.dfy`, module
  `OutputController`). Per frame it advances the rotation, points the camera,
  colours every pixel of the back frame from the map and swaps the frames.

Supporting modules:

- `common.dfy` holds `Option`, `Result` and the RGB triple.
- `builtins.dfy` models the Python built-ins the core relies on:
  `str.strip`/`str.split`, `int()` on a string of ASCII digits, `round` (to nearest, ties to
  even), float `%` and negative list indexing.
- `geometry.dfy` holds the `EulerAngles` object and the point and
  latitude/longitude values.
- `lighthousecamera.dfy` holds the camera's centre and the angles object it
  shares.

Python floats are exact reals here, and Python exceptions are error values
(`Option`/`Result`).

Mutable objects are Dafny classes:

- the map's raster is an `array3<int>`;
- a frame's grid is an `array2<RGB>`;
- the angles object is shared by the state and the camera, and is updated in
  place.

The Python code works step by step in several places: the body loader, the
header loop, the sampler's window sums and the per-pixel ray loop. Each of
these is a method with loop invariants, proved equal to a specification
function. The properties the program relies on are lemmas about those
functions.

The model reproduces the code as written in three places:

- The size check on `lighthousemap.py:111` lets any width through when the
  height is outside 14..180. `DimensionRangeAsWritten` states the check
  exactly.
- The date-line wrap on lines 171-174 adds or subtracts 360 rather than the
  map width. On a map narrower than 360 columns, the column west of the map
  becomes 359 and raises IndexError (`DateLineWrapIndex`,
  `NarrowMapFailsAtDateLine`). The column east of the map becomes the
  negative `dimX - 360`. On a map narrower than 180 columns that raises
  IndexError too. From 180 columns on, numpy counts it from the end and
  silently reads column `2 * dimX - 360` instead (`WrappedEastEdgeReadsInside`).
  With 300 columns, that is column 240, about 72 degrees away.
- The pole fold on lines 164-169 rebinds the loop variable `i_y` inside the
  inner loop. It therefore acts on the first texel of an out-of-range row,
  and `PoleWrap` follows that.

The map's constructor is written as `__int__` in the source, so Python never
runs it. The model's constructor gives the fields the values that method
names.

## Model

| member | source | states |
|---|---|---|
| Builtins.RStripPrefix | lighthousemap.py:101 | `rstrip` removes exactly the trailing whitespace: the result is a prefix, everything cut is space, and the result does not end in space |
| Builtins.LStripSuffix | lighthousemap.py:71 | `lstrip` removes exactly the leading whitespace: the result is a suffix, everything cut is space, and the result does not start with space |
| Builtins.StripUntrimmed | lighthousemap.py:94 | a string with no surrounding whitespace is its own `strip` |
| Builtins.TakeWord | lighthousemap.py:45 | the first word of a string is its longest space-free prefix |
| Builtins.Split | lighthousemap.py:45 | `split()` yields non-empty words without whitespace which, joined, are exactly the non-whitespace characters of the string in order; there are none if and only if the string is all whitespace, and a string that is one word splits into itself |
| Builtins.ParseIntUnsigned | lighthousemap.py:106-107 | `int()` of a string of digit groups is the value of its digits |
| Builtins.ParseIntDecimal | lighthousemap.py:88 | `int()` reads back the decimal text of any natural number, with or without a minus sign |
| Builtins.DigitGroupsDecimal | lighthousemap.py:46 | the decimal text of `n` parses back to `n` |
| Builtins.RoundHalfEven | lighthousemap.py:154-155 | `round` gives an integer within 0.5 of its argument, and an even one on a tie |
| Builtins.RoundHalfEvenShift | lighthouseoutputcontroller.py:51 | shifting the argument by an even integer shifts `round`'s result by the same amount |
| Builtins.Mod360 | lighthousestate.py:81 | float `% 360` lands in [0, 360) and differs from its argument by a whole number of turns |
| Builtins.Mod360InPeriod | lighthousestate.py:81 | on the q-th period, `% 360` subtracts exactly q turns |
| Builtins.Mod360Idempotent | lighthousestate.py:81 | reducing an angle twice is reducing it once |
| Builtins.FloorMod | lighthousemap.py:165 | float `%` by a positive width lands in [0, width) and differs from its argument by whole widths |
| Builtins.PyIndex | lighthouseimage.py:18 | an index is valid exactly in [-n, n); a valid index lands in [0, n), on itself or counted from the end |
| Geometry.EulerAngles.constructor | geometry.py:9-12 | the object holds the three given angles |
| Camera.LighthouseCamera.constructor | lighthousecamera.py:16-19 | the camera sits at the given centre, looks along +z and has its own unrotated angles object |
| Camera.LighthouseCamera.SetRotationTaitBryanXyz | lighthousecamera.py:40-41 | the camera now shares the caller's angles object |
| Image.LighthouseImage.constructor | lighthouseimage.py:12-15 | a fresh grid of the given size, every pixel black |
| Image.LighthouseImage.SetColor | lighthouseimage.py:17-18 | the write succeeds exactly when both indices are valid Python indices; the pixel then reads back as `rgb` and every other pixel keeps its colour; an invalid index raises and writes nothing |
| Image.LighthouseImage.GetColor | lighthouseimage.py:20-21 | a pixel is returned exactly when both indices are valid Python indices |
| Image.LighthouseImage.Clear | lighthouseimage.py:23-24 | the grid is replaced by a fresh all-black grid of the same size |
| Image.LighthouseImage.Get | lighthouseimage.py:26-27 | the grid itself, not a copy, is handed out |
| Screen.SupportedDimensions | lighthousescreen.py:61-64 | the only supported size is 14 rows by 28 columns |
| Screen.ValidateDimensions | lighthousescreen.py:73-80 | a size is accepted if and only if it is 14 x 28 |
| Screen.LighthouseScreen.Front | lighthousescreen.py:45-46 | the front frame is frame A exactly while the flag says so |
| Screen.LighthouseScreen.Back | lighthousescreen.py:48-49 | the back frame is always the frame that is not in front |
| Screen.LighthouseScreen.constructor | lighthousescreen.py:23-37 | two fresh, distinct, black frames of the screen's size, frame A in front, and the camera centred on the pixel grid ten units back |
| Screen.LighthouseScreen.Create | lighthousescreen.py:23-37 | an unsupported size raises and no screen is made; otherwise a fresh 14 x 28 screen with the given resolutions, two fresh black frames with A in front, and the camera centred on the pixel grid ten units back |
| Screen.LighthouseScreen.SwapFrameBuffer | lighthousescreen.py:66-67 | front and back trade places |
| Screen.LighthouseScreen.SetColor | lighthousescreen.py:69-71 | writes into the back frame as the frame's `set_color` does: valid indices set that one pixel and keep every other back pixel, invalid ones raise and write nothing; the front frame is untouched |
| State.ChangeRate | lighthousestate.py:55-62 | a rate change is taken exactly when the new rate stays within the limit; otherwise nothing changes; the ZeroDivisionError arises exactly for a rejected change at rate 0; nothing but the rate changes, and the limit is kept |
| State.ChangeRateFailsOnlyFromRest | lighthousestate.py:57-61 | the division by zero happens if and only if the rate is 0 and the step alone exceeds the limit |
| State.Turn | lighthousestate.py:80-87 | a turned angle is reduced into [0, 360) and congruent to angle plus step |
| State.TurnUndone | lighthousestate.py:80-87 | turning a reduced angle by `deg` and back by `-deg` restores it exactly |
| State.LighthouseState.constructor | lighthousestate.py:25-33 | running, not terminating, given rate and limit, default view (270, 180, 0) in a fresh angles object |
| State.LighthouseState.RatePerFrame | lighthousestate.py:38-39 | the per-frame step times the frame rate is the rate per second |
| State.LighthouseState.SetRotationAngles | lighthousestate.py:44-45 | the state now holds the caller's angles object |
| State.LighthouseState.ResetRotationAnglesToDefault | lighthousestate.py:50-53 | the angles object is reset in place to (270, 180, 0), and nothing else changes |
| State.LighthouseState.ChangeRotationRate | lighthousestate.py:55-62 | the new state and error are those of `ChangeRate` |
| State.LighthouseState.TogglePause | lighthousestate.py:64-69 | only the pause flag changes, to its negation |
| State.LighthouseState.ScheduleTermination | lighthousestate.py:74-75 | only the termination flag changes, to true |
| State.LighthouseState.RotateAroundXAxis | lighthousestate.py:80-81 | only alpha changes, turned by `deg` modulo 360 |
| State.LighthouseState.RotateAroundYAxis | lighthousestate.py:83-84 | only beta changes, turned by `deg` modulo 360 |
| State.LighthouseState.RotateAroundZAxis | lighthousestate.py:86-87 | only gamma changes, turned by `deg` modulo 360 |
| InputController.CommandOf | lighthouseinputcontroller.py:22-54 | `esc`, `space`, `p` and `+`/`-` select termination, pause, polar view and rate change, each if and only if; unknown keys are ignored; rotation keys step by 2.5 degrees either way |
| InputController.Rotated | lighthouseinputcontroller.py:33-44 | turning about one axis keeps reduced angles reduced |
| InputController.RotatedUndone | lighthouseinputcontroller.py:33-44 | turning about an axis and back restores reduced angles |
| InputController.Apply | lighthouseinputcontroller.py:22-54 | each command's effect: termination is sticky, only toggling flips the pause, only the polar view flips its flag, the rate limit and reduced angles are kept, and the only error is a rate change at rate 0 |
| InputController.KeyEffect | lighthouseinputcontroller.py:20-54 | the same properties stated per key: unknown keys do nothing, `esc` terminates, `space` flips the pause, `p` flips the polar flag, and errors come only from `+`/`-` at rate 0 |
| InputController.PolarViewAlternates | lighthouseinputcontroller.py:45-51 | two presses of `p` show both poles in turn, north first when the flag is set, and restore the flag |
| InputController.OppositeKeysUndo | lighthouseinputcontroller.py:33-44 | `w`/`s`, `a`/`d` and `q`/`e` undo each other exactly on reduced angles |
| InputController.RateStepUndone | lighthouseinputcontroller.py:25-28 | `+` then `-` restores the state when `+` was taken |
| InputController.LighthouseInputController.constructor | lighthouseinputcontroller.py:15-17 | the next polar view is the north pole |
| InputController.LighthouseInputController.OnKeyPress | lighthouseinputcontroller.py:20-54 | the new state, polar flag and error are exactly `KeyEffect` of the old ones; `p` installs a fresh angles object, other keys keep the object |
| OutputController.RotatedLongitude | lighthouseoutputcontroller.py:51 | the rotated longitude lies in [-180, 180) and is congruent modulo 360 to the longitude plus the rounded rotation |
| OutputController.NoRotationKeepsLongitude | lighthouseoutputcontroller.py:51 | with no rotation yet, the map is sampled at the ray's own longitude |
| OutputController.RotationPeriodic | lighthouseoutputcontroller.py:51 | a further full turn of rotation samples the same longitude |
| OutputController.LighthouseOutputController.constructor | lighthouseoutputcontroller.py:24-35 | rotation 0, the renderer's default 14 x 28 screen with frame A in front, and the map's interpolation range set |
| OutputController.LighthouseOutputController.Create | lighthouseoutputcontroller.py:24-35 | the error is exactly the one `load_image` raises on the file, from the header or else from the body; a controller is made if and only if there is none, and its map holds the file as `LoadImage` leaves it, with the given interpolation range |
| OutputController.LighthouseOutputController.CastRays | lighthouseoutputcontroller.py:43-56 | succeeds if and only if every pixel has a colour; then the back frame holds every pixel's colour (black where the ray misses); on failure some pixel's sample fails, every pixel before it in row-major order is coloured, and it and every pixel after it keep their old colour |
| OutputController.LighthouseOutputController.CastRay | lighthouseoutputcontroller.py:47-56 | one pixel: on success it holds its colour and no other pixel changes; on failure nothing is written |
| OutputController.LighthouseOutputController.ColorOf | lighthouseoutputcontroller.py:47-53 | the colour computed is the pixel's specified colour |
| OutputController.LighthouseOutputController.UpdateNextFrame | lighthouseoutputcontroller.py:76-81 | the rotation advances by the per-frame rate unless paused; the camera shares the state's angles; on success the frames swap and the new front is fully rendered; on failure no swap, and the back frame is coloured up to the failing pixel and as before from it on; the old front is never touched |
| OutputController.LighthouseOutputController.DrawNextFrame | lighthouseoutputcontroller.py:71-74 | the frame handed out is the one just rendered, the former back frame, fully coloured |
| TextureMap.KindOfLStrip | lighthousemap.py:71 | a line is blank, a comment or content according to the first character of its `lstrip` |
| TextureMap.MaxColorValue | lighthousemap.py:86-91 | accepted if and only if the line parses to 15 or 255, with that value; a non-integer line raises |
| TextureMap.DimensionPatternIsRegex | lighthousemap.py:102 | the dimension pattern matches exactly a line that starts with digits, one space and a digit |
| TextureMap.SplitDimensionLine | lighthousemap.py:105 | on a matching line, `split()` yields the leading digits and then the next word, both starting with a digit |
| TextureMap.ParseDimensions | lighthousemap.py:100-112 | a line not matching the pattern is rejected; an accepted pair passes the range test as written |
| TextureMap.ParsedDimensionsNatural | lighthousemap.py:105-107 | parsing never raises IndexError, and accepted dimensions are never negative |
| TextureMap.DimensionRangeAsWritten | lighthousemap.py:111-112 | for `"x y"`, the line is rejected exactly when x is outside 28..360 and y is inside 14..180 |
| TextureMap.DigitPairLine | lighthousemap.py:101-107 | a line of two digit groups strips to itself, matches and splits into the two groups |
| TextureMap.NextContentLine | lighthousemap.py:68-73 | the next line after the skipped comments is content; running out raises IndexError |
| TextureMap.SkipComments | lighthousemap.py:71-73 | comment lines do not change which content line comes next |
| TextureMap.ContentLineFound | lighthousemap.py:71-73 | after only comments, the next content line is found |
| TextureMap.HeaderLayout | lighthousemap.py:63-84 | an accepted header has its version, dimension and maximum-value lines in that order, and only comments elsewhere |
| TextureMap.ReadWrittenHeader | lighthousemap.py:63-84 | the header `P3`, `x y`, maximum value, written without comments, is read back as those values |
| TextureMap.HeaderRunAccepted | lighthousemap.py:63-84 | an accepted header has set the version, non-negative dimensions with a non-zero height and the maximum value |
| TextureMap.HeaderRunIsStaged | lighthousemap.py:63-84 | the header loop's outcome is the staged reading: the version line, then the dimension line, then the maximum-value line, each the next content line |
| TextureMap.ProgressStep | lighthousemap.py:68-82 | one pass of the header loop keeps the loop's invariant |
| TextureMap.LighthouseMap.ProcessHeaderLine | lighthousemap.py:69-82 | one line of the header loop: comments are skipped; the version, dimension and maximum-value steps apply in order |
| TextureMap.LighthouseMap.ProcessAndRemoveHeader | lighthousemap.py:63-84 | the error and fields are those of the header loop's specification, and the remaining lines follow the consumed header |
| TextureMap.LighthouseMap.ValidateAndSetFileVersion | lighthousemap.py:93-98 | `P3` after stripping is accepted and stored; anything else raises and stores nothing |
| TextureMap.LighthouseMap.ValidateAndSetMaxColorValue | lighthousemap.py:86-91 | the error is that of `MaxColorValue`, and the value is stored only when accepted |
| TextureMap.LighthouseMap.ValidateAndSetDimensions | lighthousemap.py:100-119 | accepted dimensions set width, height, resolution 180/height, a fresh zero raster and the interpolation limit; a height of 0 raises after setting the sizes; a rejected line changes nothing |
| TextureMap.FlatOfToken | lighthousemap.py:46-52 | the n-th body value goes to raster cell (n/3 / width, n/3 % width, n % 3) |
| TextureMap.FlatNext | lighthousemap.py:48-52 | advancing the channel, column and row counters moves to the next flat cell |
| TextureMap.FlatInjective | lighthousemap.py:46-52 | distinct counter positions address distinct raster cells |
| TextureMap.StoredFromStops | lighthousemap.py:44-53 | loading stops at the first non-integer token or at the first token beyond the raster |
| TextureMap.BodyError | lighthousemap.py:44-53 | the body loads without error if and only if every token is stored |
| TextureMap.LineWordValues | lighthousemap.py:44-45 | the tokens of one line are the next ones in the body's token sequence |
| TextureMap.LighthouseMap.StoreToken | lighthousemap.py:46-52 | the value goes to the counter's cell and the counters move to the next cell; no other cell changes |
| TextureMap.LighthouseMap.LoadToken | lighthousemap.py:46-53 | a non-integer token raises ValueError and a token past the raster raises IndexError, writing nothing; otherwise it is stored |
| TextureMap.LighthouseMap.LoadWords | lighthousemap.py:45-53 | the words of one line are stored in order; on failure the error is that of the first failing token |
| TextureMap.LighthouseMap.LoadDataToMap | lighthousemap.py:39-61 | the error is the body's; every token before the first failure sits in its cell, and no other cell changes |
| TextureMap.LighthouseMap.LoadImage | lighthousemap.py:27-34 | the error is the header's or else the body's (`LoadError`); a failing header leaves the fields its loop set; otherwise the map is a fresh P3 raster of the header's size, with resolution 180/height and interpolation limit width, filled from the body up to its first failure and zero after |
| TextureMap.LighthouseMap.SetMaximumInterpolationRange | lighthousemap.py:36-37 | the interpolation limit becomes the given value |
| TextureMap.LighthouseMap.constructor | lighthousemap.py:20-25 | no raster, zero sizes and resolution, zero interpolation limit |
| TextureMap.LighthouseMap.Texel | lighthousemap.py:176 | a texel is read exactly when row and column are valid numpy indices; otherwise IndexError |
| TextureMap.LighthouseMap.RowSum | lighthousemap.py:162-179 | one row of the window sums, failing only with IndexError or ZeroDivisionError |
| TextureMap.LighthouseMap.Column | lighthousemap.py:163-176 | one column of the inner loop raises only ZeroDivisionError (pole rule on an empty map) or IndexError (texel read) |
| TextureMap.LighthouseMap.ColumnStep | lighthousemap.py:162-179 | a row sum added to an accumulator is the first column's exception, or that column's texel added to the accumulator before the remaining columns, starting from the rebound row index |
| TextureMap.LighthouseMap.WindowSum | lighthousemap.py:161-179 | the window sums, failing only with IndexError or ZeroDivisionError |
| TextureMap.LighthouseMap.Sample | lighthousemap.py:121-185 | a latitude outside [-90, 90] raises exactly then; otherwise a longitude outside [-180, 180] raises exactly then |
| TextureMap.LighthouseMap.WindowMean | lighthousemap.py:158-185 | the rounded window mean fails only with IndexError or ZeroDivisionError |
| TextureMap.LighthouseMap.SumRow | lighthousemap.py:162-179 | the inner loop's running sum equals the accumulator plus `RowSum`, or the first exception a column raises |
| TextureMap.LighthouseMap.SumWindow | lighthousemap.py:161-179 | the nested loops compute `WindowSum` |
| TextureMap.LighthouseMap.WindowStep | lighthousemap.py:161-179 | one row of the outer loop moves the accumulated sum from one row to the next |
| TextureMap.LighthouseMap.GetColorFromCoordinate | lighthousemap.py:121-185 | the method computes `Sample` |
| TextureMap.LighthouseMap.MeanOverWindow | lighthousemap.py:158-185 | the method computes `WindowMean` |
| TextureMap.Delta | lighthousemap.py:129-131 | the window radius is the smaller of the floor of (180/14)/res and the interpolation limit: never above either, and equal to the floor whenever it is below the limit |
| TextureMap.LoadedDelta | lighthousemap.py:116-131 | on a loaded map the radius is height div 14, capped by the limit |
| TextureMap.WindowCellsCount | lighthousemap.py:158-160 | a window of radius d has (2d+1)² cells, and none when d is negative |
| TextureMap.PoleWrap | lighthousemap.py:164-169 | folding over a pole can only raise ZeroDivisionError |
| TextureMap.PoleWrapRules | lighthousemap.py:164-169 | a row above the north pole is mirrored; a row below the south pole lands inside the map; both move the column by half a turn into the map; rows inside are kept |
| TextureMap.HalfTurnInRange | lighthousemap.py:165 | the half-turn column lands inside the map |
| TextureMap.DateLineWrapLands | lighthousemap.py:171-174 | the date-line wrap moves a column by -360, 0 or 360; on a 360-wide map it lands inside; on a narrower map the columns just outside land outside [0, width) |
| TextureMap.DateLineWrapIndex | lighthousemap.py:171-176 | on a map narrower than 360 columns, the wrapped west neighbour raises IndexError; the wrapped east neighbour raises below 180 columns and otherwise is read as column 2·width − 360 |
| TextureMap.WrappedEastEdgeReadsInside | lighthousemap.py:171-176 | on a map 180 to 359 columns wide, the texel read east of the map is the texel of column 2·width − 360 |
| TextureMap.NarrowMapFailsAtDateLine | lighthousemap.py:171-176 | on a 28 x 14 map the sample at latitude 0 on the date line raises IndexError |
| TextureMap.FullMapSamplesEverywhere | lighthousemap.py:121-185 | on a 360 x 180 map every coordinate in range samples without error |
| TextureMap.FullMapWindowMean | lighthousemap.py:158-185 | on a 360 x 180 map every window of radius at most 12 around a map pixel averages without error |
| TextureMap.SampleUniform | lighthousemap.py:176-185 | a map of a single colour samples that colour wherever sampling succeeds |
| TextureMap.AverageOfCopies | lighthousemap.py:181-183 | the rounded mean of n copies of a colour is that colour |

## Left out

- The network output is not modelled: the Pyghthouse connection, its frame callback, `reconnect`, `disconnect`, `start_frame_rendering` and `stop_frame_rendering`, and the login module. `DrawNextFrame` returns the frame instead of sending it.
- The keyboard hook is not modelled. Registering `on_press` in the input controller is left out, and `OnKeyPress` takes the key's name as a parameter.
- File I/O is not modelled. `LoadImage` takes the file's lines (`read().splitlines()`) as a parameter.
- Debug and info output (`print`) is not modelled.
- Concurrency is not modelled. The keyboard hook runs key handlers on its own thread, and `draw_next_frame` runs as the Pyghthouse image callback, not on the main loop of lighthouseglobe.py. The rotation keys and `r` change in place the angles object the camera shares, so in the source a key press can land in the middle of `__cast_rays`. The model treats every key press and every frame as one indivisible step.
- Only ASCII digits are read as numbers. Python's `int()` also accepts the decimal digits of other scripts, such as full-width or Arabic-Indic digits. A header or raster token written in them loads in the source, but `ParseInt` reads it as a ValueError.
- The ray-sphere geometry is not modelled. This covers `cast_parallel_ray_onto_sphere`, `get_pixel_based_ray`, the camera's rotated queries, `Sphere3d`, `Vector3d` and `SphericalCoordinates`. It is an abstract function `castRay` from the view angles and pixel to an optional latitude/longitude.
- lighthouserenderer.py is represented only by its screen and by `castRay`.
- lighthouseglobe.py is not part of this model. It is the main loop that wires the controllers together and polls for termination.
- `EulerAngles.set` is not modelled, because nothing in the core calls it.
- Python floats are exact reals. Rounding errors of IEEE arithmetic, NaN and infinities are not modelled.
- numpy's fixed-width integer overflow in the raster and in the sums is not modelled.
- The image's grid holds exact integer triples, while numpy stores floats.
- `Image.LighthouseImage.GetColor`: returns the colour as a value, whereas numpy returns a view of the row that later writes would change.
- `Image.LighthouseImage.constructor`: takes natural sizes; numpy would raise for a negative size.
- `State.LighthouseState.constructor`: requires a non-zero frame rate. The source raises ZeroDivisionError there, and every caller passes a positive rate.
- `Screen.LighthouseScreen.constructor`: requires a supported size. The raising path is `Screen.LighthouseScreen.Create`.
- The getters of the state and the screen (`get_rotation_rate`, `is_paused`, `get_dimensions`, `get_camera`, …) are read as fields.
- `TextureMap.LighthouseMap.Column`, `TextureMap.LighthouseMap.RowSum`, `TextureMap.LighthouseMap.WindowSum` and `TextureMap.LighthouseMap.WindowMean` state only which errors can occur. Their values are tied to the loops by `SumRow`, `SumWindow` and `MeanOverWindow`, and to the map's colours by `SampleUniform` and `AverageOfCopies`.
