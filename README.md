# Lasso inpainting editor — a Dafny model

This project models the core of a browser image editor. A user uploads a PNG or JPEG, draws a freehand lasso over it, and asks a hosted inpainting model to edit the selected region. The model covers the following parts of the program:

- **Session reducer** (`lib/editor-store.ts`): seven statuses, fourteen actions, and a `default` branch that returns the state unchanged. `Run` folds the reducer over a sequence of actions, so the traces that the components dispatch can be stated and proved.
- **Lasso pipeline** (`components/image-canvas.tsx`, `lib/mask.ts`):
  - the viewport fit, which scales the image down to fit (never up), centres it, and is invertible;
  - the on-screen widths, which stay constant at any zoom;
  - closing the drawn path;
  - `extractPathPoints`;
  - the mask raster. It is painted black, then the closed polygon through the points is filled white.
  - Pixel membership is the canvas default non-zero winding rule, applied at each pixel's centre.
- **Prompt box** (`components/chat-input.tsx`):
  - `canSubmit`, with the JavaScript `trim`;
  - the tag and what removing it dispatches;
  - the exact action sequence that `handleSubmit` dispatches on success, abort and failure;
  - `handleCancel`.
- **Upload front end** (`components/image-dropzone.tsx`):
  - `validateFile`;
  - the simulated progress, clamped at 90 and rounded as `Math.round` does;
  - the minimum display delay;
  - the window-wide drag-enter/leave counter behind the drop overlay.
- **Result reconciliation** (`lib/utils.ts`): `resizeImageToMatch`, over images reduced to their natural size.
- **Inpaint route** (`app/api/inpaint/route.ts`):
  - `dataUrlToBlob`. This is a comma split plus an unanchored regular expression that reads the media type of a `data:` URL (section 3 of RFC 2397).
  - The guarded early returns of `POST`, with the fal.ai calls made before each response.

Imperative code stays imperative:

- The mask canvas, the Fabric path object, the canvas session refs, the drawing canvas of the resize, the chat input's refs and the dropzone are classes with `modifies` clauses.
- `generateMaskFromPath`, `extractPathPoints` and the progress timer are loops with invariants.
- Each method is proved against a specification function. The properties are lemmas about that function.

Every external input becomes a parameter:

- the browser, the clock, `Math.random`, `crypto.randomUUID` and the network;
- how `FileReader`, image decoding, `submitInpaint`, the fal.ai storage and subscribe calls settle;
- the `FAL_KEY` environment value.

## Model

| member | source | states |
|---|---|---|
| Mask.ClosedEdges | lib/mask.ts:21-26 | The polygon has one edge per point: each point to the next, and the last back to `path[0]` |
| Mask.MaskSpec | lib/mask.ts:10-12 | The mask has exactly the given width and height and width × height pixels |
| Mask.Canvas.constructor | lib/mask.ts:10-12 | A new canvas has the requested size, is fully transparent and has an empty path |
| Mask.Canvas.FillRect | lib/mask.ts:16-17 | Every pixel takes the fill colour |
| Mask.Canvas.BeginPath | lib/mask.ts:21 | The current subpath is emptied and not closed |
| Mask.Canvas.MoveTo | lib/mask.ts:22 | The subpath starts at the given point |
| Mask.Canvas.LineTo | lib/mask.ts:24 | The point is appended to the subpath |
| Mask.Canvas.ClosePath | lib/mask.ts:26 | The subpath is marked closed |
| Mask.Canvas.Fill | lib/mask.ts:27-28 | Pixels whose centre the closed subpath covers take the colour; every other pixel is unchanged |
| Mask.GenerateMaskFromPath | lib/mask.ts:5-32 | The raster produced by fillRect, moveTo, the lineTo loop, closePath and fill equals the specification raster, which depends only on path, width and height |
| Mask.PixelWhiteIffInside | lib/mask.ts:15-28 | Pixel (x, y) is white iff its centre lies inside the closed polygon, and black otherwise; no third colour appears |
| Mask.EmptyPathAllBlack | lib/mask.ts:15-20 | An empty path leaves every pixel black |
| Mask.RepeatingFirstPointChangesNothing | lib/mask.ts:26 | The polygon is closed implicitly, so repeating `path[0]` at the end does not change which pixels are inside |
| Mask.ClosingEdgeCounts | lib/mask.ts:21-26 | Coverage is decided by the open chain path[0] → … → path[n-1] plus the closing edge back to path[0] |
| Mask.OpenSquareExample | lib/mask.ts:20-28 | An open square path that never returns to its start still selects pixel (5, 5) and not (15, 15) |
| EditorStore.EditorReducer | lib/editor-store.ts:76-190 | Every action keeps the old chat log as a prefix (unless it reinitialises) and adds at most one message; mask and lasso path stay present or absent together |
| EditorStore.UnrecognisedIsNoOp | lib/editor-store.ts:187-188 | Any action whose `type` is none of the fourteen tags the switch handles (`HandledTags`), `SELECT_VERSION` and `CANCEL_EDIT` included, returns the same state |
| EditorStore.ResetReinitialises | lib/editor-store.ts:166-185 | `RESET`, and removing the image tag, yield exactly the initial state, whose status is `empty` and whose chat log is empty |
| EditorStore.DiscardingSelectionClearsMask | lib/editor-store.ts:111-183 | `CLEAR_LASSO`, `REMOVE_TAG "selection"` and `EDIT_ANOTHER` land in `selection` with neither mask nor lasso path |
| EditorStore.SetLassoSelects | lib/editor-store.ts:103-109 | `SET_LASSO` yields `selected` with exactly the given mask and path, and no other field changes |
| EditorStore.AddChatMessageAppends | lib/editor-store.ts:169-173 | `ADD_CHAT_MESSAGE` appends exactly one message at the end and changes no other field |
| EditorStore.EditAnotherPromotesEdit | lib/editor-store.ts:153-164 | `EDIT_ANOTHER` makes the edited image the source when there is one, clears the edit, error and prompt, and returns to `selection`, keeping progress and chat |
| EditorStore.UploadActions | lib/editor-store.ts:81-101 | `START_UPLOAD` gives `uploading` at 0 with no error; `UPLOAD_COMPLETE` gives `selection` at 100 with the new image; `SET_UPLOAD_PROGRESS` changes only the progress |
| EditorStore.UploadCompleteKeepsMask | lib/editor-store.ts:95-101 | `UPLOAD_COMPLETE` lands in `selection` but keeps whatever mask was there |
| EditorStore.TransitionsUnguarded | lib/editor-store.ts:125-151 | `SUBMIT_EDIT` gives `editing` from every status, `editing` included; `RETRY` gives `selected` with no error and keeps the mask |
| EditorStore.EditCompleteEndsComplete | lib/editor-store.ts:132-137 | A successful edit ends in `complete`, not `selection`, holding the edited URL |
| EditorStore.RunKeepsSelectionPaired | lib/editor-store.ts:76-190 | No sequence of actions separates the mask from its lasso path |
| EditorStore.RunKeepsProgressInRange | lib/editor-store.ts:81-101 | Upload progress stays within 0..100 under any actions whose progress values are within 0..100 |
| EditorStore.ChatLogAppendOnly | lib/editor-store.ts:76-190 | Without a reset or image-tag removal, the chat log after a sequence is the old log followed by exactly the messages added, in order |
| ImageCanvas.FitScale | components/image-canvas.tsx:96 | For positive sizes the scale is in (0, 1]; the scaled image fits both dimensions; one side touches the container or the scale is 1 |
| ImageCanvas.OffsetsCentre | components/image-canvas.tsx:102-103 | 2·offsetX + imgW·scale = container width, likewise for y, and both offsets are ≥ 0 |
| ImageCanvas.FitTransformInvertible | components/image-canvas.tsx:104 | The transform [scale, 0, 0, scale, offsetX, offsetY] has a positive determinant |
| ImageCanvas.ViewportRoundTrip | components/image-canvas.tsx:104 | Image → viewport → image and viewport → image → viewport are both exactly the identity over the reals |
| ImageCanvas.ScreenWidthsConstant | components/image-canvas.tsx:110-144 | Brush 3/scale, stroke 2/scale and dash [8/scale, 4/scale], times scale, are 3, 2 and [8, 4] |
| ImageCanvas.EnsureClosedEffect | components/image-canvas.tsx:130-135 | A non-empty path not ending in `z`/`Z` gets exactly one `Z` appended; an empty or already-closed path is unchanged; a non-empty result ends closed |
| ImageCanvas.EnsureClosedIdempotent | components/image-canvas.tsx:130-135 | Closing twice is the same as closing once |
| ImageCanvas.PathPoints | components/image-canvas.tsx:359-375 | One point per `M`/`L`/`Q`/`C` command; every other command is skipped |
| ImageCanvas.PathPointsInCommandOrder | components/image-canvas.tsx:354-375 | The point of the j-th endpoint command sits at its rank among endpoint commands and is its endpoint (arguments 1–2, 3–4 or 5–6) translated by `toAbs` |
| ImageCanvas.ClosingKeepsPoints | components/image-canvas.tsx:130-135 | The appended `Z` adds no point: closing does not change the extracted points |
| ImageCanvas.FabricPath.constructor | components/image-canvas.tsx:118-119 | The path object handed to `path:created` carries the given command list, `left`, `top` and `pathOffset`, and a placeholder stroke (width 1, no dash pattern) that `path:created` always overwrites |
| ImageCanvas.FabricPath.Close | components/image-canvas.tsx:130-135 | The path's command list, when present, is replaced by its closed form in place |
| ImageCanvas.ExtractPathPoints | components/image-canvas.tsx:339-378 | The loop returns the specification points for the path data, placed with `pathOffset`, `left` and `top` (absent values read as 0); absent path data gives an empty list |
| ImageCanvas.CanvasSession.constructor | components/image-canvas.tsx:37-48 | Before the image loads: scale 1, natural size 0 × 0 and no current path; the session invariant (a positive scale) holds |
| ImageCanvas.CanvasSession.OnImageLoad | components/image-canvas.tsx:74-113 | Records the natural size, the fit scale, the centring viewport transform and brush width 3/scale |
| ImageCanvas.CanvasSession.OnPathCreated | components/image-canvas.tsx:118-168 | Closes and restyles the path and keeps it as the current path; of the path object only the command list, stroke width and dash pattern may change, so its placement stays as it was; returns `SET_LASSO` with the extracted points and the mask of those points at the image's natural size |
| ImageCanvas.PathCreatedSelects | components/image-canvas.tsx:155-168 | Dispatching that `SET_LASSO` selects with lasso = the extracted points (one per endpoint command) and a mask of the image's natural size |
| ImageUtils.DrawingCanvas.constructor | lib/utils.ts:49 | A new canvas element is 300 × 150 with nothing drawn on it |
| ImageUtils.DrawingCanvas.SetSize | lib/utils.ts:50-51 | The canvas takes the given width and height |
| ImageUtils.DrawingCanvas.DrawImage | lib/utils.ts:53 | The draw call is recorded after the earlier ones |
| ImageUtils.ResizeImageToMatch | lib/utils.ts:28-56 | The method settles as the specification outcome of the two probes and the reload |
| ImageUtils.MatchingSizeIsIdentity | lib/utils.ts:37-39 | Matching width and height return the source URL unchanged |
| ImageUtils.ResolvedHasReferenceSize | lib/utils.ts:49-53 | Whenever the call resolves, the result has exactly the reference size; a redraw draws the whole source once over the full extent from (0, 0) |
| ImageUtils.FailedLoadRejects | lib/utils.ts:32-47 | A failed dimension probe, or a failed reload, rejects the whole call |
| ChatInput.TrimStart | components/chat-input.tsx:76 | The result is the suffix of the input from its first non-whitespace character; everything dropped is whitespace |
| ChatInput.TrimEnd | components/chat-input.tsx:76 | The result is the prefix of the input up to its last non-whitespace character; everything dropped is whitespace |
| ChatInput.TrimNonEmptyIff | components/chat-input.tsx:62 | The trimmed input is non-empty iff the input has a non-whitespace character |
| ChatInput.CanSubmitIff | components/chat-input.tsx:61-64 | `canSubmit` holds iff the input has a non-whitespace character, status is `selected` and a mask is present |
| ChatInput.RemovingTheTag | components/chat-input.tsx:166-174 | While selected, the "Selection" tag's removal returns to `selection` with no mask or path; otherwise the "Image" tag's removal reinitialises the session |
| ChatInput.BlockedSubmitDispatchesNothing | components/chat-input.tsx:74-75 | When `canSubmit` fails, in particular while `editing`, nothing is dispatched and the input is kept |
| ChatInput.SubmitOpensWithPrompt | components/chat-input.tsx:76-89 | A submission first dispatches a user message whose content is the trimmed input, then `SUBMIT_EDIT` with the same prompt |
| ChatInput.ResolvedTrace | components/chat-input.tsx:110-125 | Once the resize resolves to some URL, "Here are your edits!" precedes `EDIT_COMPLETE` with that URL, the input is cleared, and the session ends `complete` with both messages appended |
| ChatInput.SuccessTrace | components/chat-input.tsx:103-125 | When the returned image and the original both load, `EDIT_COMPLETE` carries the returned URL itself if their sizes match, and otherwise the PNG of a canvas of the original's size with the returned image drawn over its whole extent; the input is cleared and the session ends `complete` holding that URL, with both messages appended |
| ChatInput.ResizeFailureTrace | components/chat-input.tsx:105-145 | A probe that fails to load, or a failed reload when the sizes differ, rejects with a non-`Error`: "Error: Something went wrong." and `EDIT_ERROR` follow, the input is kept, and the session ends in `error` with the edited image unchanged |
| ChatInput.AbortTrace | components/chat-input.tsx:126-130 | An `AbortError` dispatches nothing more, keeps the input and leaves the session in `editing` |
| ChatInput.FailureTrace | components/chat-input.tsx:132-145 | Any other failure appends "Error: " + message, then `EDIT_ERROR` with the message ("Something went wrong." for a non-`Error`), ending in `error` |
| ChatInput.ResizeStep | components/chat-input.tsx:105-108 | The awaited resize settles as `Resized`: the request's failure, or the `ResizeOutcome` of the returned URL against the original, resolved to the source URL or the canvas's PNG |
| ChatInput.Settle | components/chat-input.tsx:110-145 | Once the request and the resize have settled: the success message and `EDIT_COMPLETE` with the resized URL and the input cleared, nothing after an abort, otherwise the error message and `EDIT_ERROR`, as the function `Settlement` defines them |
| ChatInput.AsWrittenSuccessEndsInError | components/chat-input.tsx:104 | As written, every request that returns an image ends in `error` with the `TypeError` message, with no edited image |
| ChatInput.AbortController.constructor | components/chat-input.tsx:91 | A new controller is not aborted |
| ChatInput.AbortController.Abort | components/chat-input.tsx:68 | After `abort()` the controller is aborted |
| ChatInput.ChatInputSession.constructor | components/chat-input.tsx:51-53 | The input starts empty, with no pending controller and nothing dispatched |
| ChatInput.ChatInputSession.HandleSubmit | components/chat-input.tsx:74-149 | The dispatched actions and the input afterwards are those of `SubmitWithResize`: nothing when `canSubmit` fails, otherwise the opening pair and the settlement of the request and of the returned image's resize against the original; the controller is cleared when a request was made |
| ChatInput.ChatInputSession.Submit | components/chat-input.tsx:76-148 | For the trimmed prompt: the user message and `SUBMIT_EDIT`, then the settlement of the request and its resize, are appended to what was dispatched; the input is cleared exactly on success; `finally` leaves no controller |
| ChatInput.ChatInputSession.HandleCancel | components/chat-input.tsx:66-72 | A pending controller is aborted and cleared, then `CANCEL_EDIT` is dispatched |
| ChatInput.CancelIsNoOp | components/chat-input.tsx:71 | The `CANCEL_EDIT` that cancelling dispatches leaves the session unchanged |
| ImageDropzone.ValidateFileIff | components/image-dropzone.tsx:12-20 | A file passes iff it is PNG or JPEG of at most 10·1024·1024 bytes; a wrong type gets the type message whatever its size; an oversized accepted type gets the size message |
| ImageDropzone.SizeBoundary | components/image-dropzone.tsx:10-19 | Exactly 10 MiB passes, one byte more is rejected |
| ImageDropzone.Round | components/image-dropzone.tsx:51 | `Math.round` gives the integer within half of its argument, halves rounded up |
| ImageDropzone.ProgressAfter | components/image-dropzone.tsx:47-48 | The simulated progress never exceeds 90 and, with draws in [0, 15), is never negative |
| ImageDropzone.ProgressMonotone | components/image-dropzone.tsx:48 | The simulated progress never decreases from tick to tick |
| ImageDropzone.ReportedProgressBounded | components/image-dropzone.tsx:47-53 | Every reported progress value is within 0..90 and the values are non-decreasing |
| ImageDropzone.SimulateProgress | components/image-dropzone.tsx:47-53 | The timer loop reports exactly the rounded clamped progress after each tick |
| ImageDropzone.UploadDelay | components/image-dropzone.tsx:59-60 | The wait before `UPLOAD_COMPLETE` is never negative, at most 3 s, zero iff 3 s have passed, and otherwise tops the elapsed time up to 3 s |
| ImageDropzone.InvalidFileDispatchesNothing | components/image-dropzone.tsx:31-35 | An invalid file sets the validation message as the error and dispatches nothing, no `START_UPLOAD` in particular |
| ImageDropzone.HundredOnlyOnLoad | components/image-dropzone.tsx:47-57 | No progress value above 90 is dispatched except a single 100, second to last, when the file loads |
| ImageDropzone.UploadLoadedTrace | components/image-dropzone.tsx:37-69 | A valid file that loads ends in `selection` with the read image, at 100, with no error; nothing else changes |
| ImageDropzone.UploadReadFailedTrace | components/image-dropzone.tsx:37-74 | A read failure sets "Failed to read the image file." and leaves the session in `uploading` with no error, its progress exactly the last reported value (≤ 90), or 0 when the timer never fired; no other field changes |
| ImageDropzone.DragOverlayTracksCounter | components/image-dropzone.tsx:94-110 | From a consistent start, every sequence of enters and leaves keeps the overlay shown exactly while the counter is positive; the counter is the start plus enters minus leaves |
| ImageDropzone.EnterThenLeaveRestores | components/image-dropzone.tsx:94-110 | An enter followed by a leave restores both the counter and the overlay |
| ImageDropzone.StrayLeaveHidesNextEnter | components/image-dropzone.tsx:103-110 | A leave with no matching enter makes the counter negative, and the next enter does not show the overlay |
| ImageDropzone.Dropzone.constructor | components/image-dropzone.tsx:25-27 | No error, the overlay hidden and the counter at 0, so the overlay-tracks-counter invariant holds; nothing dispatched |
| ImageDropzone.Dropzone.HandleFile | components/image-dropzone.tsx:29-79 | Dispatches the specification actions and sets the specification error; on load, returns the display delay |
| ImageDropzone.Dropzone.HandleDragEnter | components/image-dropzone.tsx:94-101 | The counter goes up by one; the overlay turns on when it reaches 1; the overlay-tracks-counter invariant is kept |
| ImageDropzone.Dropzone.HandleDragLeave | components/image-dropzone.tsx:103-110 | The counter goes down by one; the overlay turns off when it reaches 0; the invariant is kept |
| ImageDropzone.Dropzone.HandleDrop | components/image-dropzone.tsx:81-92 | The counter is reset to 0 and the overlay hidden; only the first file is handled, with the actions, error and display delay `handleFile` gives it; without a file nothing is dispatched and there is no delay |
| InpaintRoute.Split | app/api/inpaint/route.ts:13 | `split(",")` gives at least one piece, no piece contains a comma, and there is one piece iff the input has no comma |
| InpaintRoute.JoinSplit | app/api/inpaint/route.ts:13 | Joining the pieces with commas gives back the input |
| InpaintRoute.SplitAtFirstComma | app/api/inpaint/route.ts:13 | The header is the text before the first comma; the rest splits the text after it |
| InpaintRoute.RunUntilSemicolon | app/api/inpaint/route.ts:14 | The capture is the longest `;`-free prefix |
| InpaintRoute.CaptureFrom | app/api/inpaint/route.ts:14 | The expression matches nowhere iff no position has `data:` followed by a non-`;` character; otherwise the capture is the non-empty `;`-free run at the leftmost match |
| InpaintRoute.MimeTypeOfHeader | app/api/inpaint/route.ts:14-15 | A header `data:<type>[;…]` yields `<type>` |
| InpaintRoute.NoMediaTypeDefaults | app/api/inpaint/route.ts:14-15 | Any header in which the expression matches nowhere (no `data:`, or only `data:` followed by `;` as in `data:;base64`) gets `image/png`; any other header gets the capture of its leftmost match |
| InpaintRoute.DataUrlToBlobSplits | app/api/inpaint/route.ts:12-18 | The blob's type is the media type of the text before the first comma as the `Blob` constructor stores it (ASCII lower case, or empty if any character is outside U+0020–U+007E) and its data is the text between the first and second comma; a URL without a comma throws the `Buffer` `TypeError` |
| InpaintRoute.WellFormedDataUrl | app/api/inpaint/route.ts:12-18 | A data URL with a media type and one comma yields that type, normalised by the `Blob` constructor, and its payload |
| InpaintRoute.BlobTypeCases | app/api/inpaint/route.ts:17 | A printable-ASCII type without capitals is stored as given, a type with a character outside U+0020–U+007E is stored as "", and `Image/PNG` is stored as `image/png` |
| InpaintRoute.BlobTypeIdempotent | app/api/inpaint/route.ts:48-49 | Normalising a stored type again changes nothing, so each `File` keeps its blob's type |
| InpaintRoute.MissingFieldsFirst | app/api/inpaint/route.ts:29-34 | A missing or empty image, mask or prompt gives 400 "Missing required fields: image, mask, prompt" whatever else holds, and nothing is called |
| InpaintRoute.UnconfiguredKey | app/api/inpaint/route.ts:36-41 | With the fields present, a missing, empty or placeholder key gives 500 with the configuration message, and nothing is called |
| InpaintRoute.ReachesModel | app/api/inpaint/route.ts:44-82 | Both blobs are uploaded as image.png and mask.png; the endpoint gets the prompt, both URLs and the fixed parameters; the response is 200 with `images[0]`'s URL and size, or 500 "No image was returned from the AI model." |
| InpaintRoute.FirstImageIff | app/api/inpaint/route.ts:71 | "No image" holds iff `images` is missing or empty, or `images[0].url` is missing or empty |
| InpaintRoute.ResponseShapes | app/api/inpaint/route.ts:20-89 | Every response is 200, 400 or 500; 200 iff it carries an edited image; 400 iff a required field is missing, and then with the fixed message |
| InpaintRoute.ThrownIs500 | app/api/inpaint/route.ts:83-88 | An exception is answered 500 with its message, or "An unexpected error occurred." for a non-`Error` |
| InpaintRoute.MalformedImageThrows | app/api/inpaint/route.ts:16 | An image data URL without a comma is answered 500 with the `Buffer` error before any remote call |

## Where the model follows the code

The code has no version history and never returns the session to `selection` after an edit or a cancellation, although `state.imageVersions` is read in two components and `CANCEL_EDIT` is dispatched. The model follows the code:

- There is no version history. `EditorState` has no `imageVersions` or `activeVersionIndex`.
- A successful edit ends in `complete`, not `selection` (`EditCompleteEndsComplete`).
- `CANCEL_EDIT` and `SELECT_VERSION` are not actions of the reducer, so they change nothing (`UnrecognisedIsNoOp`).
  - A cancelled request therefore leaves the session in `editing` (`AbortTrace`, `CancelIsNoOp`). It does not return to `selection`.
- The reducer checks no status before a transition (`TransitionsUnguarded`).
  - The only guard against a second submission is `canSubmit`.
  - A mask can outlive `selected`. `UPLOAD_COMPLETE`, `EDIT_COMPLETE` and `EDIT_ERROR` keep it (`UploadCompleteKeepsMask`).
- A failed file read leaves the session in `uploading` (`UploadReadFailedTrace`). The reducer would leave that status on most actions, but no mounted component dispatches one while the status is `uploading`: the view shows only the progress bar, which dispatches nothing, and the chat input's tag, send and cancel controls need `selection`, `selected` or `editing` (`components/chat-input.tsx:59-64`). The read error is set on the dropzone, but `components/editor-view.tsx:16-21` mounts the dropzone only while the status is `empty`. In `uploading` it shows the progress bar instead, so the error is never visible and the bar stays at its last value.

## Left out

- Rendering and styling are not modelled. This covers JSX, the `Tag` component, the overlays and the animation.
  - `components/image-canvas.tsx:208-210` reads `state.imageVersions.length` to render the top bar once the image has loaded (`isReady`) in `selection` or `selected`. `EditorState` has no `imageVersions`, so every such render throws a `TypeError`, and none of the files shown here has an error boundary. As written, the canvas therefore fails as soon as its image is ready, and no lasso can be drawn. Everything after that point is modelled as if that render succeeded: `SET_LASSO`, every submit trace, and the finding at `components/chat-input.tsx:104`, which this earlier crash hides.
- `lib/api.ts` (the `fetch` wrapper) is not part of this model. Its settlement is the `RequestOutcome` input.
- Fabric.js is reduced to its inputs: the command list, `pathOffset`, `left` and `top`. Three of its behaviours are not modelled:
  - how `PencilBrush` records a stroke;
  - how Fabric computes those numbers;
  - how it renders the viewport transform.
- Removing the previous lasso object from the Fabric canvas is not modelled. Only the reference to the current path is kept.
- The canvas 2D rasteriser is idealised. A pixel is white iff its centre is inside the closed polygon under the non-zero rule. Real canvases antialias edges into grey, so "only two colours" holds for this model, not for every encoded PNG.
- PNG encoding (`toDataURL`), base64 decoding in `Buffer`, `Image` decoding and `FileReader` are left out. Images are their sizes, masks are rasters, and blobs keep their base64 text.
  - The string `toDataURL("image/png")` returns after a resize is the `png` input of `ChatInput.SubmitWithResize`. The model does not relate its bytes to the redrawn canvas.
  - The resize reference is the original image. Whether it and the returned image load, and their sizes, are the `ResizeLoads` input.
- JavaScript numbers are modelled as reals, with `Math.round` as floor(x + 0.5).
- `setInterval`, `setTimeout`, `Date.now`, `Math.random` and `crypto.randomUUID` are not modelled. They appear as the progress increments, the elapsed time and the message stamps.
- The interleaving of asynchronous callbacks is not modelled. Each handler is the sequential trace of one settled outcome. A late result arriving after a reset is therefore not modelled.
- Only the listener registration of `handleDragOver` and the window `useEffect` wiring is left out. The handler itself only calls `preventDefault`.
- `POST` request bodies whose fields are JSON values other than strings or null are not modelled.
- Logging (`console.error`) and the fal.ai client configuration are not modelled.
- `ChatInput.ImageVersionsTypeError` and `InpaintRoute.MissingPayloadError` carry the V8 (Chrome, Node.js) wording of the `TypeError` message. Other engines word it differently, and the model fixes that one wording.
- `ImageCanvas.ExtractPathPoints` and `ImageCanvas.CanvasSession.OnPathCreated` require every `M`/`L`/`Q`/`C` command to have Fabric's argument count (`WellFormedData`). The source would read a missing argument as `undefined` and push a NaN point; that case is not modelled.
- `ImageCanvas.CanvasSession.OnImageLoad` requires positive image and container sizes. The source divides by the image size there, and a zero-sized image is not modelled.

## Findings

| source | as written | input that shows it | evidently intended | confidence | as-written member | corrected member |
|---|---|---|---|---|---|---|
| components/chat-input.tsx:104 | After the request returns, the resize reference is read from `state.imageVersions[0]`. `EditorState` has no `imageVersions`, so the read throws a `TypeError` and the `catch` block reports it. In the running app this is reached only once the render crash at `components/image-canvas.tsx:210` (see Left out) is fixed. | Any submission whose request returns an edited image. The session ends in `error` and never gets the edit. | Resize the returned image against the original (`ImageUtils.ResizeOutcome`) and dispatch the assistant message and `EDIT_COMPLETE` with the resized URL. | not executed | ChatInput.AsWrittenSuccessEndsInError | ChatInput.SuccessTrace |
