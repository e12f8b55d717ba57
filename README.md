# home-canvas in Dafny

home-canvas is a browser app that places a piece of jewelry into a photo. The
user uploads a jewelry image and a scene, then places the jewelry on the scene
with a click or a touch. The app maps the drop point to
percentages of the scene's image content. It pads both images into 1024 x 1024
squares, marks the drop point on the scene and samples the light around it. It
asks a remote image model for the composite and crops the answer back to the
scene's aspect ratio. Around this pipeline sit a session state machine with a
size control, a touch drag-and-drop hook, a simulated progress bar, rotating
loading messages, a step indicator and the image uploader.

The model has one module per source file, plus two helper modules:

- `Wrappers` holds `Option` and `Result`.
- `JsMath` holds JavaScript's `Math.round` and its `%` on numbers.

The other modules are:

- `Positioning` (`services/positioning.ts`): the aspect-fit point mapper.
- `ImageGeometry`, `Lighting`, `DataUrl` and `Composite` (`services/geminiService.ts`):
  - the padded-square content rectangle;
  - the marker;
  - the sampling window and pixel loop;
  - the lighting descriptor and its text, with `JsFormat` for `toString(radix)` and `padStart`;
  - the data-URL parse;
  - the pipeline's control flow.
- `Session` (`App.tsx`).
- `TouchDnD` (`hooks/useTouchDnD.ts`).
- `SimulatedProgress` (`hooks/useSimulatedProgress.ts`).
- `RotatingMessages` (`hooks/useRotatingMessages.ts`).
- `ProgressSteps` (`components/ProgressSteps.tsx`).
- `ImageUploader` (`components/ImageUploader.tsx`).

Pure computations are functions with lemmas. Code that updates state is
modelled by the following classes:

- `Session.App`, `TouchDnD.TouchDragAndDrop`, `SimulatedProgress.ProgressSimulator`,
  `RotatingMessages.MessageRotator` and `ImageUploader.Uploader`.
- Each method states its new state as a specification function of the old one.
  The lemmas are proved about those functions.

The nested pixel loop of the lighting analysis is a pair of methods with loop
invariants:

- `Lighting.SamplePatch` runs the outer loop.
- `Lighting.SampleRow` runs the inner loop and writes the previous-row luma buffer in place as an `array`.

The same goes for the item search of the uploader's file extraction.

Modelling choices:

- **Session state in four records.** The app component keeps 17 separate `useState` fields. `Session.App` groups them into four records:
  - `Inputs`: the product, jewelry file, scene and original scene;
  - `Generation`: the orb, debug image, prompt, download URL, scale and last drop;
  - `Status`: loading, error and debug modal;
  - the touch state.

  Each handler updates record fields in the order the source calls its setters.
- **Handlers run to completion.** An async handler is modelled as one step. The outcome of the pipeline call is a parameter: what `generateCompositeImage` returned, or the message it threw. So is `Date.now()`.
- **Browser and remote work as values.** Browser raster work and the two remote model calls are the values of a `Composite.Environment`:
  - decoding, drawing and JPEG encoding;
  - the pixels of the resized scene;
  - the responses of the two calls.
- **Geometry over reals.** All geometry and colour arithmetic is over `real`.

## Model

| member | source | states |
|---|---|---|
| JsMath.Round | services/geminiService.ts:310-312 | `Math.round` is the integer nearest to x, with halves rounded up: `x - 0.5 < n <= x + 0.5` |
| JsMath.Trunc | services/geminiService.ts:352 | truncation toward zero, which JavaScript's `%` is defined by, is the integer part of x with x's sign |
| JsMath.RoundMonotonic | hooks/useSimulatedProgress.ts:56 | `Math.round` never decreases as its argument grows |
| JsMath.RemainderOfSmall | services/geminiService.ts:352 | a dividend smaller in magnitude than the divisor is its own remainder under `%` |
| JsFormat.DigitChar | services/geminiService.ts:360 | digit d is written as '0'..'9' or 'a'..'f', and reads back as d |
| JsFormat.DigitValue | services/geminiService.ts:360 | a digit character's value is below 16 |
| JsFormat.ToString | services/geminiService.ts:360 | `n.toString(radix)` is a non-empty digit string with no leading zero (except "0") |
| JsFormat.ParseToString | services/geminiService.ts:360 | parsing the output of `toString(radix)` gives the number back |
| JsFormat.PadStartShape | services/geminiService.ts:360 | `padStart` adds fill characters on the left only, up to the length, and keeps the string as its suffix |
| JsFormat.ParsePadStart | services/geminiService.ts:360 | zero-padding does not change the parsed value |
| Positioning.AspectFit | services/positioning.ts:19-30 | the contain rectangle fits the container, touches it on one axis, and keeps the image's aspect ratio |
| Positioning.CentringOffsets | services/positioning.ts:32-33 | the offsets are non-negative and leave equal bars on both sides of each axis |
| Positioning.ComputeRelativePositionFromPoint | services/positioning.ts:6-52 | a zero natural or container dimension gives null; a result's position is the client point minus the container's left and top, and both percentages lie in [0, 100] |
| Positioning.PercentBounds | services/positioning.ts:45-46 | a coordinate inside [0, extent] is a percentage in [0, 100] |
| Positioning.RejectsExactlyOffContent | services/positioning.ts:38-43 | for a measurable image the result is non-null exactly when the image-local point lies in the closed box [0, w] x [0, h], so points are rejected rather than clamped |
| Positioning.PercentRoundTrip | services/positioning.ts:32-46 | offset + percent / 100 x rendered size gives back the container-local drop point on both axes |
| Positioning.PercentInverse | services/positioning.ts:45-46 | scaling to a percentage and back is the identity for a positive extent |
| Positioning.ContainIsCentred | services/positioning.ts:19-33 | the contain rectangle is centred and has the image's aspect ratio |
| ImageGeometry.ContentRect | services/geminiService.ts:102-117 | the content rectangle inside the padded square fits it, fills it along one side, keeps the original aspect ratio, and is centred |
| ImageGeometry.ContentRectIsSquareFit | services/geminiService.ts:102-113 | the `aspectRatio > 1` branch gives the same size as the mapper's contain rectangle for a square container |
| ImageGeometry.ContentRectMatchesMapper | services/geminiService.ts:102-117 | the content rectangle is the geometry mapper's contain rectangle and offsets in a target x target box |
| ImageGeometry.ResizeImage | services/geminiService.ts:85-120 | the normalised canvas is a target-sided square with a mid-grey background, and the image is drawn inside it |
| ImageGeometry.CropToOriginalAspectRatio | services/geminiService.ts:35-62 | the crop canvas has the truncated content size (within one pixel of it and no larger than the target) |
| ImageGeometry.CropInvertsResize | services/geminiService.ts:35-49 | the crop copies out exactly the region the resize drew into, which has the original aspect ratio and one side equal to the target |
| ImageGeometry.MarkImage | services/geminiService.ts:205-240 | the marker radius is max(5, 1.5% of the shorter canvas side), stated as at least both and equal to one of them; the outline width is 0.2 x radius; the centre is the drop percentage taken inside the padded content rectangle, and for percentages in [0, 100] it lies on that rectangle |
| ImageGeometry.MarkerAndAnalysisAgree | services/geminiService.ts:292-307 | the marker and the lighting analysis use the same canvas point for the same position and dimensions |
| ImageGeometry.PlacementOnContent | services/geminiService.ts:225-230 | for percentages in [0, 100] the marked point lies on the content rectangle, not on the padding |
| ImageGeometry.PercentWithin | services/geminiService.ts:225-226 | a percentage in [0, 100] of an extent lies within the extent |
| ImageGeometry.PixelWithin | services/geminiService.ts:225-230 | offset + percent / 100 x extent lies between the offset and offset + extent for a percentage in [0, 100] |
| ImageGeometry.PatchSide | services/geminiService.ts:309-310 | the sampled patch side is at least 16; above 16 it is within half a pixel of 7% of the canvas side, and it is exactly 16 while 7% of the side is below 15.5 |
| ImageGeometry.PatchOrigin | services/geminiService.ts:311-312 | with `centred = Math.round(c - patch / 2)`: the origin is `centred` when it lies in [0, target - patch], 0 when it is negative, and target - patch (or 0 when the patch does not fit) when it is beyond; it is always non-negative and at most target - patch when the patch fits |
| Lighting.PixelIndexInRange | services/geminiService.ts:325-328 | the RGBA index of pixel (px, py) and its next three bytes lie inside the patch buffer |
| Lighting.AddPixel | services/geminiService.ts:325-334 | one pixel's step extends each channel sum to that pixel and yields its luma |
| Lighting.HorizontalStep | services/geminiService.ts:336 | a pixel with a left neighbour adds the absolute luma difference to it |
| Lighting.VerticalStep | services/geminiService.ts:337 | a pixel in a later row adds the absolute luma difference to the pixel above |
| Lighting.AddDifferences | services/geminiService.ts:336-337 | a pixel adds its absolute luma difference to the left neighbour when `px > 0` and to the pixel above when `py > 0`, and one counted term for each |
| Lighting.RowStep | services/geminiService.ts:336-339 | each pixel extends its row's difference total by exactly the terms `AddDifferences` adds, given the luma it keeps of the left pixel and of the pixel above |
| Lighting.SampleRow | services/geminiService.ts:323-340 | the inner loop accounts for one more row of pixels, adds the row's horizontal and (after the first row) vertical differences, leaves the row's luma in the buffer, and adds `patch − 1` difference terms, plus `patch` more after the first row |
| Lighting.SamplePatch | services/geminiService.ts:316-341 | the nested loop visits patch² pixels; its sums are the channel sums and its sharpness total is the sum of all horizontal and vertical neighbour differences; a ghost counter beside each addition shows that it adds exactly `comparisons` terms |
| Lighting.RowOffsetInBuffer | services/geminiService.ts:322-325 | the start of every row lies inside the patch |
| Lighting.ChannelSumBounds | services/geminiService.ts:329-331 | a channel sum over n pixels lies in [0, 255n] |
| Lighting.LumaBounds | services/geminiService.ts:334 | a pixel's luma lies in [0, 255] |
| Lighting.HorizontalGradientsBounds | services/geminiService.ts:336 | the horizontal differences are at most 255 per left neighbour pair |
| Lighting.VerticalGradientsBounds | services/geminiService.ts:337 | the vertical differences are at most 255 per upper neighbour pair |
| Lighting.GradientTermsTotal | services/geminiService.ts:316-364 | the per-row term count that `SamplePatch` and `SampleRow` keep in their loop invariants totals `rows·(patch−1) + (rows−1)·patch`, which over a whole patch is `comparisons = patch·(patch−1)·2` |
| Lighting.SharpnessBounds | services/geminiService.ts:363-365 | accumulated differences of at most 255 per comparison give a sharpness in [0, 1] |
| Lighting.SharpnessInUnitRange | services/geminiService.ts:316-365 | the sharpness of any patch lies in [0, 1] |
| Lighting.Lightness | services/geminiService.ts:348 | the lightness of a colour with byte-range channels lies in [0, 1] |
| Lighting.Saturation | services/geminiService.ts:349 | the saturation lies in [0, 1] and is 0 exactly when the three channel means are equal |
| Lighting.Hue | services/geminiService.ts:350-356 | the hue lies in [0, 360) and is 0 for a grey, with JavaScript's sign-keeping `%` in the red branch |
| Lighting.LabelBands | services/geminiService.ts:366-373 | the sharpness labels split at 0.05 and 0.12, and the temperature label is the warm one exactly for warm light |
| Lighting.ChannelHex | services/geminiService.ts:360 | each channel is two hexadecimal digits whose value is the rounded mean |
| Lighting.ColourHex | services/geminiService.ts:359-361 | the colour is `#` plus six characters |
| Lighting.ColourHexRoundTrip | services/geminiService.ts:359-361 | each pair of hex digits reads back as the rounded mean of its channel |
| Lighting.MeanInByteRange | services/geminiService.ts:343-345 | a mean of byte values is in [0, 255] |
| Lighting.DescriptorOf | services/geminiService.ts:343-365 | the descriptor's average colour is in byte range; lightness and saturation lie in [0, 1], hue in [0, 360) |
| Lighting.PatchTotals | services/geminiService.ts:316-345 | a whole patch accounts for patch² pixels with sums in byte range |
| Lighting.HintEndsWithSharpness | services/geminiService.ts:376-378 | the hint ends with the sharpness sentence |
| Lighting.UniformPatchIsSoft | services/geminiService.ts:316-371 | a patch of one colour averages to that colour, has sharpness 0, and its sharpness is labelled "soft/blurred (shallow DOF)" |
| Lighting.CheckerGradients | services/geminiService.ts:316-341 | on a black and white checkerboard each difference term the pixel loop adds is 255 |
| Lighting.FullSharpness | services/geminiService.ts:364-365 | differences of 255 at every comparison give a sharpness of exactly 1 |
| Lighting.CheckerboardIsVerySharp | services/geminiService.ts:316-371 | a black and white checkerboard patch of side at least 2 has sharpness 1 and is labelled "very sharp" |
| Lighting.CellInRaster | services/geminiService.ts:313 | every pixel of a valid canvas has its four bytes in the buffer |
| Lighting.PixelBytes | services/geminiService.ts:313 | each canvas pixel is four bytes (transparent black off the canvas) |
| Lighting.RowData | services/geminiService.ts:313 | one row of the read rectangle is four bytes per pixel |
| Lighting.GetImageData | services/geminiService.ts:313 | `getImageData(x, y, w, h).data` is w·h·4 bytes, row by row |
| Lighting.SampleWindow | services/geminiService.ts:309-312 | the window side is `PatchSide` of the canvas width (at least 16, about 7%), its origin on each axis is `PatchOrigin` of the analysed point, it is non-negative, and it stays on a canvas at least as large as the window |
| Lighting.WindowCentredOnPlacement | services/geminiService.ts:309-312 | away from the canvas edges the window's middle is within half a pixel of the placement point on each axis |
| Lighting.AnalyzeLocalLighting | services/geminiService.ts:292-379 | the hint is the lighting text for the window around the placement point |
| DataUrl.FirstIndex | services/geminiService.ts:156 | the index found is the first occurrence of the character |
| DataUrl.Split | services/geminiService.ts:156 | `split(sep)` gives at least one piece; exactly one when sep is absent; no piece contains sep |
| DataUrl.JoinSplit | services/geminiService.ts:156 | joining the pieces with the separator gives the string back |
| DataUrl.SplitOnce | services/geminiService.ts:156 | a string with one separator splits into its two sides |
| DataUrl.LazyUntilSemicolon | services/geminiService.ts:158 | the lazy group `(.*?);` reads up to the first `;`, over characters that are not line terminators |
| DataUrl.MatchMimeIsLeftmost | services/geminiService.ts:158 | `match(/:(.*?);/)` takes the group at the leftmost `:` at which the group succeeds; with no match, none succeeds |
| DataUrl.FileToPart | services/geminiService.ts:156-163 | `fileToPart` fails with "Invalid data URL" without a comma, and with the MIME error when the match or its group is missing or empty; a success has a non-empty MIME type |
| DataUrl.LazyReadsRun | services/geminiService.ts:158 | the lazy group reads exactly the run before a `;` |
| DataUrl.FileToPartInvertsUrl | services/geminiService.ts:547 | `fileToPart` recovers (mimeType, data) from `data:${mimeType};base64,${data}` |
| DataUrl.UrlHeadReadsMime | services/geminiService.ts:156-158 | the part of such a URL before the `,` contains no `,`, and `match(/:(.*?);/)` reads the MIME type back from it |
| Composite.FindImagePart | services/geminiService.ts:540-542 | the part found carries inline data and is in the list; none is found exactly when no part carries inline data |
| Composite.FindImagePartIsFirst | services/geminiService.ts:540-542 | the part found is the first one with inline data |
| Composite.ImagePart | services/geminiService.ts:540-542 | a part found along the optional chain carries inline data |
| Composite.JpegIsPlain | services/geminiService.ts:127 | "image/jpeg" is a MIME type that survives the data-URL round trip |
| Composite.JpegPartsParse | services/geminiService.ts:480-481 | the resized and marked JPEG files read back as image/jpeg parts with their payloads |
| Composite.GenerateCompositeImage | services/geminiService.ts:398-562 | each failure (scene size, raster step, image call, missing image part, crop) is reported with its own message. A failing description call falls back to "at the specified location.". The prompt carries the lighting hint, the description and `Math.round(scale·100)`. The debug image carries the marker `markImage` draws at the drop point on the 1024 square, and its centre is the point whose light is analysed. The result is the crop of the returned image, planned from the original scene size |
| Session.InitialIsValid | App.tsx:33-53 | the initial session satisfies the session invariant |
| Session.GeneratedSceneFile | App.tsx:137 | the new scene file is rebuilt from the final image's data URL |
| Session.ResetGeneration | App.tsx:68-75 | the orb, debug image, prompt, download URL and last drop are cleared and the scale is 1; nothing else changes; the invariant is kept |
| Session.AfterProductUpload | App.tsx:77-96 | with an object URL the file and a new product are loaded, the error is cleared and the generation is reset; otherwise only the error is set; the scenes are untouched |
| Session.AfterSceneUpload | App.tsx:98-103 | the file becomes both the scene and the original scene, and the generation is reset |
| Session.DropRequest | App.tsx:115-133 | no request exactly when the jewelry file, the scene or the product is missing; otherwise the request uses the original scene when present (else the scene), the drop's percentages and the current scale |
| Session.AfterDrop | App.tsx:115-149 | a missing input only sets the error; otherwise the drop is recorded, loading ends and the orb is cleared; success shows the result, the debug image and the prompt and replaces the scene; failure sets the error and keeps the scene, the download URL, the debug image and the prompt; the debug modal is untouched; the scale and the original scene never change |
| Session.AfterReset | App.tsx:152-161 | everything returns to the initial session except the touch state and the debug modal |
| Session.AfterChangeProduct | App.tsx:163-168 | the jewelry is unloaded and the generation reset; the scenes are kept |
| Session.AfterChangeScene | App.tsx:170-174 | both scenes are unloaded and the generation reset; the jewelry is kept |
| Session.NextScale | App.tsx:178 | the next scale is scale + delta clamped to [0.5, 2] |
| Session.AdjustRequest | App.tsx:176-190 | no request exactly when the jewelry file, original scene, product or last drop is missing, or the clamped scale equals the current one; otherwise a request at the new scale on the original scene and the last drop |
| Session.AfterAdjust | App.tsx:176-204 | without a request nothing changes; otherwise loading ends; the scale changes only on success, which also shows the download URL, the debug image and the prompt and replaces the scene; failure sets the error and keeps the scene, the download URL, the debug image and the prompt; the inputs other than the scene, the orb, the last drop, the debug modal and the touch state are never changed |
| Session.InlineRenderedSize | App.tsx:249-259 | the touch-end handler's rendered size is the geometry mapper's contain rectangle |
| Session.ClosedBoxPlacement | App.tsx:267-274 | a point is rejected exactly when its image coordinates fall outside the closed rendered box, and is otherwise placed at the drop point |
| Session.InlineTouchMapping | App.tsx:243-275 | a placement from the inline mapping is at the container-local touch point |
| Session.InlineMatchesMapper | App.tsx:249-274 | for a measurable image and zone the inline mapping equals `computeRelativePositionFromPoint` |
| Session.AfterTouchEnd | App.tsx:236-282 | a touch end without a drag changes nothing; otherwise the four touch fields are reset whether or not a drop happened; the invariant is kept |
| Session.TouchDropMatchesHook | App.tsx:236-276 | the app's own touch end drops exactly where the touch hook's touch end would |
| Session.RenderContent | App.tsx:297-373 | the error view comes first; then the upload view, exactly when a file is missing; the workspace has both files and a product |
| Session.EnabledAdjustRegenerates | App.tsx:366-368 | when the controls enable adjusting, an adjustment regenerates exactly when the clamped scale differs from the current one |
| Session.RegenerationUsesUploadedScene | App.tsx:98-125 | after a scene upload and a drop, later drops and adjustments use the uploaded file, not the generated scene |
| Session.App.constructor | App.tsx:33-53 | the app starts in the initial session |
| Session.App.ResetGenerationState | App.tsx:68-75 | the six generation fields are cleared, with the scale back to 1 |
| Session.App.HandleProductImageUpload | App.tsx:77-96 | the new state is `AfterProductUpload` of the old one |
| Session.App.HandleProductFileInputChange | App.tsx:106-111 | the first chosen file is uploaded; with none nothing changes |
| Session.App.HandleSceneImageUpload | App.tsx:98-103 | the new state is `AfterSceneUpload` of the old one |
| Session.App.HandleProductDrop | App.tsx:115-149 | the request is `DropRequest` and the new state is `AfterDrop` of the old one |
| Session.App.ShowResult | App.tsx:134-138 | the results are shown and the scene becomes the generated image |
| Session.App.HandleReset | App.tsx:152-161 | the new state is `AfterReset` of the old one |
| Session.App.HandleChangeProduct | App.tsx:163-168 | the new state is `AfterChangeProduct` of the old one |
| Session.App.HandleChangeScene | App.tsx:170-174 | the new state is `AfterChangeScene` of the old one |
| Session.App.HandleAdjustScale | App.tsx:176-204 | the request is `AdjustRequest` and the new state is `AfterAdjust` of the old one |
| Session.App.HandleTouchStart | App.tsx:208-215 | a touch starts a drag, with the ghost at the touch, only when a product is selected |
| Session.App.HandleTouchMove | App.tsx:217-234 | only the touch state changes, as the touch hook's move does |
| Session.App.HandleTouchEnd | App.tsx:236-282 | the drop request is made only for an accepted point, and the new state is `AfterTouchEnd` |
| TouchDnD.Start | hooks/useTouchDnD.ts:38-44 | a disabled start changes nothing; otherwise dragging starts with the ghost at the touch; consistency is kept |
| TouchDnD.Move | hooks/useTouchDnD.ts:46-63 | only while dragging: the ghost follows the touch; hovering holds exactly over a zone; the orb is the touch minus the zone's left and top |
| TouchDnD.EndDrop | hooks/useTouchDnD.ts:65-75 | a drop happens only while dragging over a zone with an image; it is at the zone-local touch point with percentages in [0, 100] |
| TouchDnD.End | hooks/useTouchDnD.ts:77-80 | all four fields are reset after every touch end |
| TouchDnD.DropsExactlyOnContent | hooks/useTouchDnD.ts:70-75 | over a measurable image, a drag ending over the zone drops exactly when the point is on the image content |
| TouchDnD.TouchDragAndDrop.constructor | hooks/useTouchDnD.ts:33-36 | the hook starts idle |
| TouchDnD.TouchDragAndDrop.HandleTouchStart | hooks/useTouchDnD.ts:38-44 | the new state is `Start` of the old one |
| TouchDnD.TouchDragAndDrop.HandleTouchMove | hooks/useTouchDnD.ts:49-63 | the new state is `Move` of the old one |
| TouchDnD.TouchDragAndDrop.HandleTouchEnd | hooks/useTouchDnD.ts:65-81 | the drop reported is `EndDrop` and the new state is `End` of the old one |
| SimulatedProgress.Tick | hooks/useSimulatedProgress.ts:34-40 | a tick at or above the hold changes nothing; below it the progress strictly grows, by at least min(0.5, hold − p), and never passes the hold |
| SimulatedProgress.TicksStayBelowHold | hooks/useSimulatedProgress.ts:33-41 | any number of ticks from at most the hold never decreases the progress and never passes the hold |
| SimulatedProgress.TicksReachHold | hooks/useSimulatedProgress.ts:33-41 | after 2·(hold − p) ticks the progress is at the hold |
| SimulatedProgress.Resume | hooks/useSimulatedProgress.ts:32 | on activation a progress in (0, hold) is kept and any other restarts at 0 |
| SimulatedProgress.ResumeIdempotent | hooks/useSimulatedProgress.ts:32 | resuming twice is resuming once |
| SimulatedProgress.Eased | hooks/useSimulatedProgress.ts:55 | the cubic ease-out maps [0, 1] into [0, 1] and 1 to 1 |
| SimulatedProgress.EasedMonotonic | hooks/useSimulatedProgress.ts:55 | the ease-out grows with t |
| SimulatedProgress.Fraction | hooks/useSimulatedProgress.ts:54 | t lies in [0, 1] and is 1 exactly once 350 ms have passed |
| SimulatedProgress.FinishValue | hooks/useSimulatedProgress.ts:53-57 | a finishing frame shows a value between the rounded start and 100, and shows 100 once the animation's time is up |
| SimulatedProgress.FinishMonotonic | hooks/useSimulatedProgress.ts:53-57 | later frames of one animation never show less |
| SimulatedProgress.ActiveChanged | hooks/useSimulatedProgress.ts:22-66 | as written: activation resumes and starts ticking but leaves earlier finish animations running; deactivation starts a finish animation below 100 and schedules the reset |
| SimulatedProgress.Framed | hooks/useSimulatedProgress.ts:53-61 | a frame shows the finish value and ends its animation once t reaches 1 |
| SimulatedProgress.CancellingKeepsIntended | hooks/useSimulatedProgress.ts:8-12 | with finish animations cancelled on activation, every event keeps the hook's intent: while active the progress stays in [0, hold] and no finish animation runs |
| SimulatedProgress.StaleFramePassesHold | hooks/useSimulatedProgress.ts:46-65 | as written, a task restarted during the finish animation shows 100% while active, and ticks keep it there |
| SimulatedProgress.ProgressSimulator.constructor | hooks/useSimulatedProgress.ts:17-19 | the hold defaults to 90 and the tick to 120 ms; the progress starts at 0 |
| SimulatedProgress.ProgressSimulator.SetActive | hooks/useSimulatedProgress.ts:22-66 | the new state is the effect with finish animations cancelled on activation |
| SimulatedProgress.ProgressSimulator.IntervalTick | hooks/useSimulatedProgress.ts:33-41 | the new state is one tick of the old one |
| SimulatedProgress.ProgressSimulator.AnimationFrame | hooks/useSimulatedProgress.ts:53-61 | the new state is one frame of the old one |
| SimulatedProgress.ProgressSimulator.ResetTimeout | hooks/useSimulatedProgress.ts:64 | the delayed reset sets the progress back to 0 |
| RotatingMessages.Rotate | hooks/useRotatingMessages.ts:19 | the next index is below the length: one more, or 0 after the last |
| RotatingMessages.RotatedFromZero | hooks/useRotatingMessages.ts:17-19 | k steps after activation the index is k mod length |
| RotatingMessages.RotationPeriod | hooks/useRotatingMessages.ts:17-19 | the index comes back after `length` steps, so every message is shown in turn |
| RotatingMessages.MessageRotator.constructor | hooks/useRotatingMessages.ts:13 | the index starts at 0 |
| RotatingMessages.MessageRotator.SetActive | hooks/useRotatingMessages.ts:15-22 | inactive or without messages nothing rotates and the index is kept; otherwise the index restarts at 0 |
| RotatingMessages.MessageRotator.IntervalTick | hooks/useRotatingMessages.ts:18-20 | a step maps the index to `(prev + 1) % length`, staying in range |
| ProgressSteps.ClampedCurrent | components/ProgressSteps.tsx:21 | the current step is the rounded input clamped to [0, length − 1], and 0 for an empty list |
| ProgressSteps.RenderSteps | components/ProgressSteps.tsx:26-60 | one item per step, numbered from 1 with its title, and a separator after every step but the last |
| ProgressSteps.StatesSplitAtCurrent | components/ProgressSteps.tsx:27 | steps before the current one are complete, the current one is current, and later ones are upcoming |
| ProgressSteps.ExactlyOneCurrent | components/ProgressSteps.tsx:27 | a non-empty list has exactly one current step, the clamped one |
| ProgressSteps.DefaultStepsRender | components/ProgressSteps.tsx:12-18 | the default list renders its five steps in order, the last without a separator |
| ImageUploader.FirstYield | components/ImageUploader.tsx:76-81 | no file is found exactly when no item is an image file that yields one |
| ImageUploader.FirstYieldFound | components/ImageUploader.tsx:76-81 | a file found comes from a yielding item with none yielding before it |
| ImageUploader.FirstYieldIsFirst | components/ImageUploader.tsx:76-81 | the first yielding item is the one the search returns |
| ImageUploader.ExtractImageFile | components/ImageUploader.tsx:73-89 | an item's file comes first; failing that, the first listed file when it is an image; otherwise none |
| ImageUploader.ExtractImageFileFromDataTransfer | components/ImageUploader.tsx:73-89 | the search loop returns the file `ExtractImageFile` specifies |
| ImageUploader.TypeWarning | components/ImageUploader.tsx:60-65 | the warning is set exactly for types other than image/jpeg and image/png |
| ImageUploader.Placement | components/ImageUploader.tsx:129-135 | a placement is handed on exactly when there is an image, a callback and a non-null mapper result, at the container-local point |
| ImageUploader.Click | components/ImageUploader.tsx:137-164 | a click is ignored exactly when the uploader is not actionable; a drop zone with a callback places; any other click opens the file dialog |
| ImageUploader.Uploader.constructor | components/ImageUploader.tsx:33-34 | no warning and no drag-over at first |
| ImageUploader.Uploader.ImageUrlChanged | components/ImageUploader.tsx:40-44 | the warning is cleared when the image goes away |
| ImageUploader.Uploader.HandleFileChange | components/ImageUploader.tsx:57-68 | the first chosen file is passed on, and the warning follows its type; with no file nothing changes |
| ImageUploader.Uploader.HandleDragOver | components/ImageUploader.tsx:91-103 | only an uploader, not a drop zone, shows a file being dragged over it |
| ImageUploader.Uploader.HandleDragLeave | components/ImageUploader.tsx:105-110 | leaving the uploader itself, not moving onto a child, ends the drag-over |
| ImageUploader.Uploader.HandleDrop | components/ImageUploader.tsx:112-126 | a drop zone ignores dropped files; an uploader passes on the extracted file, and sets the warning by its type |

## Left out

- Mouse drag of the jewelry card: the card is `draggable` and the page invites dragging it (App.tsx:326-330, 384). But a scene that is a drop zone attaches no drag handlers (components/ImageUploader.tsx:71, 165-168), so a mouse drop on it does nothing. The model says the same: `ImageUploader.Uploader.HandleDragOver` and `ImageUploader.Uploader.HandleDrop` ignore a drop zone, and only `ImageUploader.Click` places. The browser's drag image is not modelled.
- Browser raster work:
  - `FileReader`, image decoding, canvas allocation and drawing (`fillRect`, `drawImage`, `arc`, `stroke`);
  - JPEG encoding with `toBlob` and `toDataURL` at quality 0.95.

  Their results are values of `Composite.Environment`, and the scene pixels are a `Lighting.Raster`.
- `getImageDimensions`: modelled as the scene size, or the error its promise rejects with.
- The two `generateContent` calls: their outcomes are values.
- The wording of the two prompt templates: only what the final prompt embeds is modelled.
- Console logging.
- Floating-point arithmetic: numbers are reals. `Math.round` is `floor(x + 0.5)`. JavaScript's `%` keeps the dividend's sign.
- Zero, NaN and infinite sizes, as JavaScript divides them. The mapper's own zero guard is modelled. The following members require positive sizes, because the source handles these cases only by producing NaN or Infinity coordinates:
  - ImageGeometry.ContentRect, ImageGeometry.ResizeImage, ImageGeometry.CropToOriginalAspectRatio, ImageGeometry.MarkImage and Lighting.SampleWindow require positive original sizes.
  - Session.InlineTouchMapping is stated only for measurable images and zones. The inline touch-end code has no zero guard, and for such elements JavaScript yields NaN percentages or no drop.
- `JsFormat.ToString`: handles radix 10 and 16 only, the two radices the source formats with.
- Timers, intervals and animation frames, React effect scheduling, listener registration, and `document.body.style`. Each callback is a method called in the order events arrive.
- Stale closures of React callbacks. Handlers read the current state.
- Interleavings of concurrent async handlers. The intermediate `isLoading = true` state of a running generation is not a separate step.
- Error messages of thrown non-`Error` values. The message is a parameter.
- services/fileUtils.ts is not part of this model. `dataURLtoFile` is modelled as a file built from the data URL (`Session.File.FromDataUrl`).
- `hooks/useObjectUrlCleanup.ts`: blob-URL revocation is browser resource management.
- `URL.createObjectURL`: its result or failure is a parameter of the upload handler.
- Presentation components:
  - `Button`, `SVGIcon`, `Header`, `ErrorState`, `ObjectCard`, `UploadView`, `WorkspaceView`;
  - `ControlsBar`, which only emits ±0.1 deltas;
  - `ProgressBar`;
  - `ProductSelector`;
  - the constants files;
  - CSS classes, `aria` attributes, and `key={label}` in the step list.
- In `ImageUploader`: the `openDialogRef` and `useImperativeHandle` plumbing. The file dialog opening is the `OpenFileDialog` click outcome.
- SimulatedProgress.ProgressSimulator.SetActive: implements the corrected effect, which cancels finish animations on activation, rather than the effect as written (see Findings). The effect as written is `SimulatedProgress.ActiveChanged`.

## Findings

| source | as written | input that shows it | evidently intended | confidence | as-written member | corrected member |
|---|---|---|---|---|---|---|
| hooks/useSimulatedProgress.ts:46-65 | the inactive branch starts a `requestAnimationFrame` loop, but its cleanup only clears the reset timeout, so an activation does not stop a running finish animation | progress 50 while active; deactivate at 0 ms; reactivate at 100 ms; a frame at 350 ms sets the progress to 100 while active, and later ticks keep it at 100 (above the 90% hold) | an activation cancels the finish animation, so the active progress stays in [0, hold] as the hook's description says | not executed | SimulatedProgress.StaleFramePassesHold | SimulatedProgress.CancellingKeepsIntended |
