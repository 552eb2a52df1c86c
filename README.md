# Rain-cloud panel — Dafny model

A model of the rain-radar panel of a weather dashboard
(`src/rain_cloud_panel.py`). The panel fetches the radar map twice from a
web map (now and +1 hour) through a browser. It recolours the radar palette
into a grey ramp and pastes the two frames side by side under one legend.
A supervisor retries the whole composition up to five times.

The browser, the image libraries and the clock are replaced by abstract
values:

- The driver (`Browser.Driver`) has a window size it can set and read.
  It has an oracle giving the size of the map element for each window size.
  Every action sent to the page is appended to an ordered trace.
- The decoded image is an array of full-range HSV pixels, with hue in 0..255.
- The current time, attempt durations and outcomes are parameters.

Modules, one per part of the source file:

| module | models |
|---|---|
| `Levels` | `RAINFALL_INTENSITY_LEVEL` as a table of (hue band, saturation bound, legend value), and the gamma ramp |
| `Retouch` | `retouch_cloud_image`: the in-place mask overwrites, the legend strip, the terrain brightening |
| `Browser` | the driver abstraction |
| `Calibration` | `change_window_size_impl` |
| `WindowCache` | `change_window_size` and its cache file |
| `Fetch` | `fetch_cloud_image`, `shape_cloud_display`, `change_setting`, `hide_label_and_icon` |
| `Compose` | `create_rain_cloud_img` and `create_rain_cloud_panel_impl` |
| `Legend` | the integer layout of `draw_legend` |
| `Supervisor` | `create_rain_cloud_panel` |

Behaviour of the code that the model keeps as written:

- The brightening step changes every pixel whose original saturation is below 30.
  This includes pixels already recoloured by a level: the white level requires s < 20.
  Those pixels keep hue 0 and saturation 80 but take the brightened value.
- The eight masks are pairwise disjoint. So the "later level overwrites"
  loop gives the same result as first-match classification.
- Cache freshness uses `timedelta.seconds`, which is the age modulo one day.
  So a file one day old counts as fresh.
- The cache file is rewritten only when the target width was not yet a key.
  A new height under a known width lives only in the local map, which is
  dropped when the call returns. The next call with that size calibrates again.
- The width correction sets the window height to the target height, not to
  the measured window height. The height correction that follows makes up for it.
- A wait timeout during calibration is not caught. Calibration runs outside
  the fetch's `try`, so such a failure reaches the supervisor without a
  Slack report.
- A failed fetch does not quit its browser session. Only the path where the screenshot arrived calls `quit`.
  On that path the session is closed before the screenshot is decoded. A screenshot that does not decode then raises with no Slack report.
- When all five attempts fail, the supervisor still returns a pair
  (error image, elapsed). Nothing marks the failure except the image itself.
  It also pauses 5 s after the fifth failure.

## Model

| member | source | states |
|---|---|---|
| `Levels.Ramp` | src/rain_cloud_panel.py:273-284 | the V of each level's colour is a byte, taken from the tabulated `int(255*((8-i)/8)**0.6)` |
| `Levels.LevelColor` | src/rain_cloud_panel.py:273-284 | each level's colour is (0, 80, Ramp(i)) and is a valid pixel |
| `Levels.RampStrictlyDecreasing` | src/rain_cloud_panel.py:273-284 | Ramp(0) = 255; the ramp strictly decreases with the level, so no two levels share a colour |
| `Levels.Matches` | src/rain_cloud_panel.py:34-51 | the mask of level i, read from `LevelTable`: the open hue band and the strict saturation bound of the i-th lambda; `LevelsDisjoint`, `ClassifyFrom` and `ClassifyExact` state what the table guarantees |
| `Levels.LevelsDisjoint` | src/rain_cloud_panel.py:34-51 | no (h, s) lies in the masks of two different levels |
| `Levels.ClassifyFrom` | src/rain_cloud_panel.py:34-51 | first-match search: the result matches and no earlier level does; None means no level from `from` on matches |
| `Levels.ClassifyExact` | src/rain_cloud_panel.py:34-51 | a pixel is in the mask of level i iff its classification is i (both directions) |
| `Retouch.Clamp` | src/rain_cloud_panel.py:289 | `np.clip(_, 0, 255)`: the result is a byte, equal to the input when the input is already a byte, saturating otherwise |
| `Retouch.LegendStrip` | src/rain_cloud_panel.py:268-286 | the strip has exactly one column per level, and column i holds level i's colour |
| `Retouch.Recolor` | src/rain_cloud_panel.py:272-285 | after the overwrites of levels 0..k−1, each mask taken from the original h and s, a pixel is either untouched or in the colour of a level < k whose mask holds it; `RecolorIsFirstMatch` pins down which level |
| `Retouch.RetouchPixel` | src/rain_cloud_panel.py:285-289 | the whole pass on one pixel: hue and saturation either stay or become (0, 80); `RetouchMatched`, `RetouchUnmatched` and `RetouchKeepsRange` give the full outcome |
| `Retouch.RetouchAll` | src/rain_cloud_panel.py:285-289 | the pass over the image keeps its length and acts pixel by pixel; `RetouchCloudImage` proves the in-place loops equal to it |
| `Retouch.RecolorIsFirstMatch` | src/rain_cloud_panel.py:272-286 | the in-order, last-wins overwrites from the original h, s equal first-match classification: only the classified level's colour survives, unmatched pixels are untouched |
| `Retouch.RetouchMatched` | src/rain_cloud_panel.py:272-289 | a pixel of level i ends with H=0, S=80 and V=Ramp(i), or V = clamp(brighten(original v)) when its original s < 30 |
| `Retouch.RetouchUnmatched` | src/rain_cloud_panel.py:285-289 | a pixel in no mask with original s ≥ 30 is unchanged; with s < 30 only its V changes, to the clamped brightening of its original V |
| `Retouch.RetouchKeepsRange` | src/rain_cloud_panel.py:272-289 | the pass keeps all three channels of a valid pixel in 0..255 |
| `Retouch.UniformLevelImage` | src/rain_cloud_panel.py:272-286 | an image whose pixels all belong to level i (and are not terrain) comes out uniformly in level i's colour |
| `Retouch.ApplyLevelMask` | src/rain_cloud_panel.py:285 | one loop step overwrites exactly the pixels in level i's mask, taken from the original split, and leaves the rest |
| `Retouch.BrightenTerrain` | src/rain_cloud_panel.py:289 | replaces V of every pixel whose original s < 30 by the clamped brightening of its original V, and changes nothing else |
| `Retouch.RetouchCloudImage` | src/rain_cloud_panel.py:259-290 | in place: the new image is the pixelwise pass over the old one, and a fresh strip equals the legend strip |
| `Calibration.OneAndAHalf` | src/rain_cloud_panel.py:121 | `int(h * 1.5)` truncates toward zero: 2r ≤ 3h < 2r + 2 for h ≥ 0, mirrored for h < 0 |
| `Calibration.InitialWindow` | src/rain_cloud_panel.py:121 | the oversized first window is 2h wide and `int(1.5h)` tall |
| `Calibration.WidthCorrected` | src/rain_cloud_panel.py:136-144 | after the width step the window width is the target width plus the chrome measured in the oversized window; the height is unchanged or the target height |
| `Calibration.CalibratedWindow` | src/rain_cloud_panel.py:160-171 | the returned window keeps the corrected width, and its height is the target height plus the chrome measured after the width step; `ConstantChromeCalibrates` shows it lands exactly under constant chrome |
| `Calibration.CalibrationTrace` | src/rain_cloud_panel.py:117-174 | the calibration's actions in order: opening, width step, height step; `CalibrationResizes` proves the resizes it contains |
| `Calibration.OpenOversized` | src/rain_cloud_panel.py:117-123 | load the page, then set the window to (2h, int(1.5h)) and reload |
| `Calibration.CorrectWidth` | src/rain_cloud_panel.py:125-147 | when the element width is off, the window width moves by the error and the height becomes the target height; then reload and pause |
| `Calibration.CorrectHeight` | src/rain_cloud_panel.py:149-174 | when the element height is off, the window height moves by the error and the width is kept; then reload and pause |
| `Calibration.ChangeWindowSizeImpl` | src/rain_cloud_panel.py:111-194 | the final window is the calibrated window and is returned; `matched` is the OK/unmatch verdict; the trace is opening + width step + height step |
| `Calibration.CalibrationResizes` | src/rain_cloud_panel.py:117-194 | the window is set one to three times: first the oversized window, last the returned window |
| `Calibration.ConstantChromeCalibrates` | src/rain_cloud_panel.py:136-192 | if element = window − fixed chrome, the result is target + chrome and the final measurement is exactly the target ("OK") |
| `Calibration.AlreadyFittingKeepsInitial` | src/rain_cloud_panel.py:136-171 | if the element already fits in the oversized window, neither correction changes it |
| `WindowCache.AgeSeconds` | src/rain_cloud_panel.py:202-205 | `timedelta.seconds` of the age is in 0..86399, also for a file stamped in the future |
| `WindowCache.Load` | src/rain_cloud_panel.py:199-212 | the load never fails: the map is the stored one iff the file is stored and fresh, else empty; the file is deleted iff it exists and is stale |
| `WindowCache.Lookup` | src/rain_cloud_panel.py:214 | a hit iff the width is a key and the height is a key under it, and then it gives that entry |
| `WindowCache.Fresh` | src/rain_cloud_panel.py:202-205 | a file under an hour old is fresh, one between an hour and a day old is stale; `FreshIsAgeWithinDay` gives the modulo-day rule |
| `WindowCache.Resolve` | src/rain_cloud_panel.py:214-233 | one call: the file changes only on a miss for a new width, and then holds the loaded map plus the new entry, stamped now; `HitIffCached`, `SecondCallHits` and `NewHeightNotPersisted` give the rest |
| `WindowCache.FreshIsAgeWithinDay` | src/rain_cloud_panel.py:202-205 | fresh iff the age minus its whole days is under an hour |
| `WindowCache.DayOldFileIsFresh` | src/rain_cloud_panel.py:202-205 | a file between 1 day and 1 day + 1 hour old counts as fresh |
| `WindowCache.HitIffCached` | src/rain_cloud_panel.py:214-226 | a call hits iff the loaded map has width then height; a hit sets the cached size and writes nothing; a miss ends at the calibrated size |
| `WindowCache.UnusableFileIsRewritten` | src/rain_cloud_panel.py:199-233 | a missing, unreadable or stale file is a miss, and the file becomes {width: {height: size}} stamped now |
| `WindowCache.SecondCallHits` | src/rain_cloud_panel.py:226-233 | after a miss on a new width, a call within the freshness window hits and returns the size calibrated before |
| `WindowCache.NewHeightNotPersisted` | src/rain_cloud_panel.py:228-229 | a new height under a cached width leaves the file unchanged, so the same call misses again |
| `WindowCache.WindowSizeCache.ChangeWindowSize` | src/rain_cloud_panel.py:197-233 | the new file, the browser window and the hit flag are those of `Resolve`; on a hit the only action is the resize, on a miss the full calibration trace |
| `Fetch.HideTrace` | src/rain_cloud_panel.py:62-86 | a wait for each of the four chrome parts, in order, before any of them is hidden, then a display "none" for each |
| `Fetch.SettingTrace` | src/rain_cloud_panel.py:89-96 | the settings are clicks only, none of them on the +1 hour tab |
| `Fetch.ShapeTrace` | src/rain_cloud_panel.py:99-108 | settings, optional +1 hour tab, hiding; `FutureTabIffFuture` proves the tab appears iff the frame is the future one |
| `Fetch.PrepareTrace` | src/rain_cloud_panel.py:239-249 | everything before the screenshot; `FetchCloudImage` proves the PNG is what the element shows after it |
| `Fetch.FetchTrace` | src/rain_cloud_panel.py:236-256 | the whole fetch; `CaptureComesLast` proves a single capture after all settings and hides, followed only by the reload |
| `Fetch.HideLabelAndIcon` | src/rain_cloud_panel.py:62-86 | waits for the four chrome parts in order, then sets each to display "none" |
| `Fetch.ChangeSetting` | src/rain_cloud_panel.py:89-96 | clicks colour depth → dark, then map style → no place names |
| `Fetch.ShapeCloudDisplay` | src/rain_cloud_panel.py:99-108 | settings, then the +1 hour tab only for the future frame, then hide the chrome |
| `Fetch.FetchCloudImage` | src/rain_cloud_panel.py:236-256 | appends the fetch trace; the PNG is what the element shows after the preparation |
| `Fetch.FutureTabIffFuture` | src/rain_cloud_panel.py:102-106 | the +1 hour tab is clicked iff the future frame is fetched |
| `Fetch.CaptureComesLast` | src/rain_cloud_panel.py:241-254 | exactly one capture, after all settings and all four hides, followed only by the reload |
| `Compose.Half` | src/rain_cloud_panel.py:394 | `int(W / 2)` truncates toward zero |
| `Compose.SubPanelConfigs` | src/rain_cloud_panel.py:516-523 | two sub-panels: current at offset 0, future at offset `int(W/2)` |
| `Compose.SubPanelTask` | src/rain_cloud_panel.py:380-430 | Slack is notified iff the fetch failed and Slack is configured; the session is quit iff the screenshot arrived; the task raises iff calibration or the fetch failed or the screenshot does not decode (then after `quit` and unreported), with that traceback; success gives the retouched frame and the legend strip |
| `Compose.SameLegendEitherFrame` | src/rain_cloud_panel.py:546-550 | both tasks yield the same strip, so the strip left from the last iteration is the same as either one |
| `Compose.CreateRainCloudPanelImpl` | src/rain_cloud_panel.py:512-552 | fails iff a task raised, with the first raised traceback in list order; on success it pastes current at (0,0) and future at (int(W/2),0) on a W×H canvas and passes the future frame's strip to the legend |
| `Compose.PastesTileCanvas` | src/rain_cloud_panel.py:394-403 | frames of int(W/2)×H paste inside the canvas without overlap, and together cover every column but the last when W is odd |
| `Legend.TextHeight` | src/rain_cloud_panel.py:457 | `int(digitHeight * 1.2)` is the floor of 1.2 × digitHeight |
| `Legend.DrawLegend` | src/rain_cloud_panel.py:433-507 | the legend size, the strip position, one cell outline and one label per level, and the placement at (OFFSET_X, OFFSET_Y − 100) |
| `Legend.CellBox` | src/rain_cloud_panel.py:446-455 | the outline of level i on the magnified strip; `CellsAbut` and `CellsOnStrip` prove how the outlines sit |
| `Legend.LabelFor` | src/rain_cloud_panel.py:477-489 | the label of level i: its value centred on the cell's right edge, or the unit text for the level without a value; `LabelsPlacement` proves the values and positions |
| `Legend.CellsAbut` | src/rain_cloud_panel.py:446-455 | cell outlines run along the strip without gaps, from column 0 to the last column |
| `Legend.CellsOnStrip` | src/rain_cloud_panel.py:446-455 | every cell outline lies on the magnified strip |
| `Legend.LabelsPlacement` | src/rain_cloud_panel.py:477-501 | the labels are 1, 5, 10, 20, 30, 50, 80, each centred where a cell meets the next; the unit label ends one padding from the right edge and sits on the digits' baseline |
| `Legend.StripInsideLegend` | src/rain_cloud_panel.py:461-476 | the strip keeps a padding margin inside the legend image |
| `Supervisor.CreateRainCloudPanel` | src/rain_cloud_panel.py:590-605 | 1–5 attempts; returns the first success after a pause per earlier failure; if all fail, returns the error panel with the last traceback after 5 pauses; elapsed = attempt time + 5 s per pause; the error panel is always W×H, and a rendered panel is W×H whenever the successful composites are, which `Compose.CreateRainCloudPanelImpl` ensures |
| `Supervisor.AttemptSeconds` | src/rain_cloud_panel.py:592-605 | the seconds spent inside the first n attempts; `CreateRainCloudPanel` proves elapsed is this plus 5 s per pause |

## Left out

- OpenCV decoding and the BGR↔HSV_FULL conversions are foreign code. The model starts and ends at HSV pixels.
- The float gamma is replaced by its truncated table, because `astype(np.uint8)` truncates.
- `pow(v, 1.35) * 0.3` is floating point. It is a parameter `brighten`; only the clamp and the truncation to a byte are modelled.
- `Retouch.RetouchCloudImage`: the image is a flat array of pixels rather than rows and columns. Every step of the pass is per pixel, so the layout does not matter.
- The browser is an abstraction. Element lookups that fail, wait timeouts and `set_window_size` giving a different size are not modelled. The model's waits always succeed and the window takes the requested size.
- `Calibration.ChangeWindowSizeImpl`: the log messages are left out; only the final OK/unmatch verdict is returned.
- `WindowCache.WindowSizeCache.ChangeWindowSize` reads the clock once, so the written file's mtime is the time of the call. It does not model a pickle that loads into some other shape, or errors while writing the file; those propagate in the code.
- `Compose.SubPanelTask` takes the browser's outcome as a value rather than calling the `Calibration`, `WindowCache` and `Fetch` members. The decode of the screenshot is part of that outcome. The circles and caption drawn on the frame are PIL rendering and are not modelled, so failures inside them are not modelled either.
- `ThreadPoolExecutor` parallelism and the 2-second stagger of the future task are left out. Task results come from a function, in list order.
- Slack delivery is external. Only whether a report is made is recorded.
- PIL rendering is left out: `draw_equidistant_circle`, `draw_caption`, `draw_text`, `alpha_paste`, the rounded rectangles, the NEAREST resize, and the drawing and text wrapping of `error_image`.
- `get_face_map` is left out because it only loads fonts. The legend's text sizes are `Legend.Metrics` parameters.
- `Supervisor.CreateRainCloudPanel` takes each attempt's result and duration (in whole seconds) as parameters instead of calling `Compose.CreateRainCloudPanelImpl` and reading `time.perf_counter`. So the W×H size of a rendered panel is stated under the premise that the composite is W×H. Logging is left out.
- `src/create_image.py` (a script composing finished panels) and `src/sensor_data.py` (a database client) are not part of this model.
