# Selection, snip-and-swap and pixel-region model of the image editor

`script.js` is a single-page image editor. An image is loaded into one canvas,
and several tools then work on its pixels. The **crop** tool keeps a dragged
rectangle. The **snip** tool cuts region 1 out, lets the user pick region 2,
and swaps the two. The **draw**, **text** and **bubble** tools paint onto the
canvas. There are filters (the invert filter among them) and 90° rotations.

This project models the editor's state and the handlers that change it, in
Dafny:

- `Geometry`: the points and rectangles of a drag. `NormalizedRect` is
  `getNormalizedRect`: the dragged box clamped to the canvas, or none when a
  side would be shorter than one pixel.
- `Raster`: an RGBA image as `width`, `height` and `width * height * 4` bytes.
  - Pixel `(x, y)`, channel `c` sits at `(y * width + x) * 4 + c`.
  - `Region` models `getImageData`: pixels off the canvas read as zero.
  - `Put` models `putImageData`, clipped to the canvas. `Cleared` models
    `clearRect`.
  - The class `Canvas` is the canvas element. Its byte array is updated in
    place. Assigning its size (`Resize`) allocates a new, transparent bitmap.
- `Filters`: `filterInvert`, a loop over the byte array in steps of four that
  inverts R, G and B and keeps alpha.
- `SnipMachine`: `snipState` as a datatype, with one event per handler that
  moves it.
- `JsText`: `String.prototype.trim`, which is used to arm text and bubbles.
- `ImageEditor`: the class `Editor` holds, as fields, the globals of lines
  54-71 that outlive a handler, except `originalImage` and `drawPath`. Each handler is a method that keeps `Valid()`:
  - once an image is loaded, `currentImageDataForRedraw` (`saved`) holds
    exactly what the canvas shows;
  - before that, only the select tool can be active;
  - while the snip flow holds region 1, its pixels and rectangle are kept
    and have the same size.

**The snip flow cannot start as written.** No statement ever sets `snipState`
to `'selecting1'`. That value only appears in comparisons: lines 233,
251, 254, 339 and 446. The editor starts in `'idle'`, and from `'idle'` every
event leaves it in `'idle'` (`SnipMachine.IdleIsClosed`). So neither
`handleConfirmSnip1` nor the rest of the flow ever acts.

The model reproduces this; it adds no edge from Idle to Selecting1. The
handlers are still specified and proved for the states the source would
reach if such an edge existed. `SnipMachine.DesignedFlow` and the pixel
lemmas describe that designed flow.

The model also keeps three behaviours of that unreachable flow exactly as
written:

- A reset from Selecting2 leaves region 1's hole. Region 1 is written back
  only from Selected1 (script.js:184-188).
- Loading a new image mid-snip resets the snip tool, which pastes the old
  region 1 onto the new image (script.js:591, then 186).
- A swap of two regions of different sizes leaves part of region 1 cleared,
  because the smaller region 2 does not cover it (script.js:476-477).

## Model

| member | source | states |
|---|---|---|
| Geometry.NormalizedRect | script.js:88-103 | None exactly when the drag has zero width or height, or its clamped corner lies at or past the canvas's right or bottom edge. Otherwise the rectangle starts at x, y >= 0, is at least 1 x 1, fits inside the canvas, and is no larger than the drag. For corners inside the canvas it is exactly the dragged box. |
| Geometry.NormalizedRectSymmetric | script.js:90-93 | Swapping the two corners gives the same result. |
| Geometry.NormalizedRectWithinDrag | script.js:96-99 | When both corners have non-negative coordinates, the rectangle lies inside the box spanned by the two corners. |
| Geometry.SelectionValidityBoundary | script.js:100-101 | A click without movement gives no rectangle; a one-pixel drag gives a 1 x 1 rectangle. |
| Raster.Region | script.js:452 | getImageData: a well-formed copy of exactly the requested size. Its pixels are stated by Raster.RegionSample. |
| Raster.Put | script.js:476-477 | putImageData: the result keeps the destination's size and is well-formed. Which pixels change is stated by Raster.PutSample. |
| Raster.Cleared | script.js:453 | clearRect: the result keeps the image's size and is well-formed. Which pixels become zero is stated by Raster.ClearedSample. |
| Raster.RegionSample | script.js:432 | Pixel (i, j) of a region copied out at (sx, sy) equals image pixel (sx + i, sy + j), reading zero off the image. |
| Raster.PutSample | script.js:476-477 | After writing a region at (dx, dy), a canvas pixel inside the written area holds the region's pixel; every other pixel is unchanged. |
| Raster.ClearedSample | script.js:453 | Clearing a rectangle makes its pixels zero in all four channels and leaves every other pixel unchanged. |
| Raster.PutCoversWhole | script.js:121-123 | Writing a same-sized image at the origin replaces the canvas content with exactly that image. |
| Raster.RestoreAfterClear | script.js:184-187 | Writing a cleared region's saved pixels back where they came from restores the image exactly. |
| Raster.SwapExchangesRegions | script.js:474-477 | Take two disjoint, equal-sized rectangles inside the canvas, with region 1 already extracted. After the two writes, rectangle 1 holds rectangle 2's original pixels and rectangle 2 holds rectangle 1's pixels from before extraction. Every other pixel is unchanged. |
| Raster.Canvas.constructor | script.js:433 | A new canvas of the given size is fully transparent. |
| Raster.Canvas.Resize | script.js:437 | Assigning the canvas size gives a fresh, transparent bitmap of that size. |
| Raster.Canvas.PutImageData | script.js:476 | The canvas bitmap becomes the clipped write of the region at (dx, dy). |
| Raster.Canvas.ClearRect | script.js:453 | The canvas bitmap becomes the old one with that rectangle cleared. |
| Filters.Inverted | script.js:275 | The effect of filterInvert on a byte sequence: the length is kept and every alpha byte is unchanged. Its per-channel meaning is stated by Filters.InvertedSample and Filters.InvertTwice. |
| Filters.InvertInPlace | script.js:275 | The in-place loop leaves the array equal to `Inverted` of its old content: each colour byte b becomes 255 - b and every fourth byte (alpha) is kept. This holds for lengths that are not a multiple of four too. |
| Filters.InvertTwice | script.js:275 | Inverting twice gives back the original bytes. |
| Filters.InvertedSample | script.js:275 | On an image, inversion keeps each pixel's alpha and maps each colour channel c to 255 - c. |
| SnipMachine.Step | script.js:61 | No event leads into Selecting1. Region 1 is held only after it was held or just confirmed. Rotation and the snip tool button always return to Idle. |
| SnipMachine.StepGuards | script.js:183-469 | The guards at lines 446, 462, 469, 339-340 and 183. Confirm 1 moves exactly in Selecting1 with a rectangle. Start 2 moves exactly in Selected1. Confirm 2 moves exactly in Selecting2 with a rectangle and region 1 held. An empty release moves exactly in Selecting1 or Selecting2. A tool reset moves exactly outside Idle and Swapped. Otherwise the state is unchanged. |
| SnipMachine.IdleIsClosed | script.js:61 | From Idle, every sequence of events ends in Idle: the snip flow never starts. |
| SnipMachine.Run | script.js:61 | The state after a sequence of events. A run ends in Selecting1 only if it started there. |
| SnipMachine.DesignedFlow | script.js:445-484 | From Selecting1, confirm, start and confirm lead to Swapped. An empty second release goes back to Selected1. |
| JsText.TrimStart | script.js:489 | Drops exactly the leading whitespace: the result is a suffix, everything dropped is whitespace, and the result does not start with whitespace. |
| JsText.TrimEnd | script.js:489 | The mirror image of TrimStart for trailing whitespace. |
| JsText.Trim | script.js:489 | The result is empty exactly when the input is all whitespace. Otherwise it is the input minus whitespace on both ends, and it starts and ends with non-whitespace. |
| JsText.TrimIdempotent | script.js:489-490 | Trimming an already trimmed text changes nothing. |
| ImageEditor.Editor.constructor | script.js:52-72 | Start state: no image, the select tool, no drag, coordinates at the origin, snip Idle with nothing held, no text or bubble armed. |
| ImageEditor.Editor.Valid | script.js:105-116 | The editor invariant. Once an image is loaded, `currentImageDataForRedraw` is present and is a well-formed image of exactly the canvas's size; the predicate itself says it equals the canvas content. |
| ImageEditor.Editor.SelectionRect | script.js:228 | The current selection, when present, lies inside the canvas. |
| ImageEditor.Editor.ConfirmCropEnabled | script.js:231 | When enabled, there is a selection and it lies inside the canvas. |
| ImageEditor.Editor.CancelCropEnabled | script.js:232 | Enabled exactly when an image is loaded and the crop tool is active. What pressing it does is stated by ImageEditor.Editor.CancelCrop. |
| ImageEditor.Editor.ConfirmSnip1Enabled | script.js:233 | When enabled, confirming moves the snip machine to Selected1. |
| ImageEditor.Editor.StartSelection2Enabled | script.js:234 | When enabled, starting moves the snip machine to Selecting2. |
| ImageEditor.Editor.ConfirmSnip2Enabled | script.js:235 | When enabled (in a valid state), confirming moves the snip machine to Swapped. |
| ImageEditor.Editor.CancelSnipEnabled | script.js:236 | Enabled exactly when an image is loaded, the snip tool is active and a tool reset would change the snip state. |
| ImageEditor.Editor.AddTextEnabled | script.js:237 | When enabled, the text input holds a character that is not whitespace. |
| ImageEditor.Editor.AddBubbleEnabled | script.js:238 | When enabled, the bubble input holds a character that is not whitespace. |
| ImageEditor.Editor.UpdateSaved | script.js:105-116 | Holds a snapshot of the canvas when an image is loaded and the canvas is non-empty; otherwise holds nothing. |
| ImageEditor.Editor.Redraw | script.js:118-139 | Repainting from the saved buffer leaves the canvas pixels exactly as they were. |
| ImageEditor.Editor.ResetSnipFlow | script.js:182-191 | From Selected1 with region 1 held, writes region 1 back at its rectangle. In any state other than Idle or Swapped, goes to Idle with the data and both rectangles cleared. In Idle or Swapped nothing changes. |
| ImageEditor.Editor.ResetToolState | script.js:175-202 | Ends the drag and returns both coordinates to the origin. Drops the tool's own state: the snip flow (above) for snip, the armed text for text, the armed bubble for bubble. Nothing else changes, and the canvas keeps its pixels except for the snip write-back. |
| ImageEditor.Editor.SetActiveTool | script.js:161-173 | Does nothing when no image is loaded and the tool is not select, or when the tool is already active. Otherwise it resets the old tool and activates the new one. |
| ImageEditor.Editor.ClickSnipTool | script.js:745 | Drops the snip flow to Idle without restoring region 1 (the canvas is unchanged), then activates the snip tool. |
| ImageEditor.Editor.CancelSnip | script.js:763 | With the snip tool active, resets it and activates select. The snip state changes exactly when the cancel button was enabled. |
| ImageEditor.Editor.CancelCrop | script.js:762 | With the crop tool active, activates select and resets the crop tool as ResetToolState describes. The drag ends, no selection remains, the canvas is unchanged, and the snip, text and bubble state are kept. Otherwise nothing changes. |
| ImageEditor.Editor.LoadImage | script.js:582-593 | The canvas takes the decoded image's size and pixels in a freshly allocated bitmap. The image counts as loaded, the buffer is committed, and select becomes active (resetting the previous tool). |
| ImageEditor.Editor.InvertedCopy | script.js:281-283 | Returns a fresh array holding the inverted saved pixels. The editor and its saved buffer are untouched. |
| ImageEditor.Editor.ApplyInvertFilter | script.js:277-288 | With an image loaded and no drag, the canvas and the saved buffer become the inverted image at the same size. Otherwise nothing changes. |
| ImageEditor.Editor.RotateCanvas | script.js:290-314 | With an image loaded and no drag, width and height are exchanged and the canvas holds the drawn rotated pixels. The snip flow is forced to Idle with everything it held cleared, and the active tool is reset. The bitmap is either the old array or a freshly allocated one. Otherwise nothing changes. |
| ImageEditor.Editor.ConfirmCrop | script.js:426-443 | When confirm-crop is enabled, the canvas becomes exactly the selected region, at its size. Select becomes active and no snip or text state changes. The bitmap is either the old array or a freshly allocated one. Otherwise nothing changes. |
| ImageEditor.Editor.ConfirmSnip1 | script.js:445-459 | The snip state follows the machine. When enabled, region 1's pixels and rectangle are held, exactly that rectangle is cleared on the canvas, and the coordinates reset. Otherwise nothing changes. |
| ImageEditor.Editor.StartSelection2 | script.js:461-466 | The snip state follows the machine. When enabled, it moves to Selecting2 with the coordinates reset. Otherwise nothing changes. |
| ImageEditor.Editor.ConfirmSnip2 | script.js:468-484 | The snip state follows the machine. When enabled, region 2's pixels are written at region 1 and the held region 1 at region 2, and the data and rectangles are cleared. Otherwise nothing changes. |
| ImageEditor.Editor.AddText | script.js:486-496 | With the text tool active and a non-blank input, arms the trimmed, non-empty text. Otherwise the armed text is kept. |
| ImageEditor.Editor.AddBubble | script.js:498-511 | With the bubble tool active and a non-blank input, arms the trimmed text with the given style. Otherwise nothing changes. |
| ImageEditor.Editor.TextMouseDown | script.js:384-400 | Ends the drag. With the text tool active, the armed text is cleared (it has been placed). With nothing to place, the canvas is unchanged. |
| ImageEditor.Editor.BubbleMouseDown | script.js:405-419 | Ends the drag. With the bubble tool active, the armed bubble text is cleared. With nothing to place, the canvas is unchanged. |
| ImageEditor.Editor.MouseDown | script.js:518-532 | Acts only with an image loaded and no drag open. It records the pointer as both coordinates. A drag opens exactly for crop, snip and draw. Text or bubble placement happens through its handler. Otherwise nothing changes. |
| ImageEditor.Editor.MouseMove | script.js:534-545 | Only an open drag (with an image loaded) follows the pointer. No pixel changes. |
| ImageEditor.Editor.SelectionMouseUp | script.js:333-344 | The canvas is unchanged. A snip release without a rectangle rolls the snip state back one step (Selecting1 to Idle, Selecting2 to Selected1). Every other state is kept. |
| ImageEditor.Editor.MouseUp | script.js:547-559 | With a drag open and an image loaded, it closes the drag and records the pointer. Under the snip tool it applies the rollback. Except for draw, the canvas is unchanged. Otherwise nothing changes. |
| ImageEditor.Editor.MouseLeave | script.js:561-570 | Leaving mid-drag resets the active tool, as ResetToolState describes. Otherwise nothing changes. |

## Left out

- DOM lookup, event-listener wiring, `initializeApp`, the cursor and status texts of `updateToolStates` (script.js:4-47, 240-267, 727-790): user-interface plumbing. The button predicates of lines 231-238 are modelled. The blanket disabling of line 212-218 is folded into them as `imageLoaded`.
- Reading the file (`FileReader`), decoding it, the `onerror` path, export through `toDataURL` and revert from `originalImage` (script.js:572-635): browser I/O. `LoadImage` models the `onload` callback for an already decoded image of at least 1 x 1 pixel.
- Grayscale and sepia (script.js:273-274): floating-point weights with `Uint8ClampedArray` rounding.
- `getCanvasCoordinates` (script.js:77-86): it scales by a floating-point ratio. Pointer positions are integer canvas coordinates given to the handlers.
- The drag previews (the dashed selection outline, the live stroke): they are painted over the canvas between redraws and never committed. The model's canvas always equals the committed buffer, so `redrawBaseImage` is the identity.
- `redrawBaseImage`'s fallback to `originalImage` (script.js:124-134): once an image is loaded the saved buffer is always present, so that branch is not reached.
- The `!ctx` and missing-element guards, and the `try/catch` recovery branches (script.js:441, 457, 482, 286): they depend on the browser failing.
- `ctx` (script.js:52): the 2D context is not a separate object; its drawing calls act on the `Canvas` bitmap directly.
- `textPlacementCoords` and `bubblePlacementCoords` (script.js:69, 72): they are set from `startCoords` only while text or a bubble is being placed (lines 389, 410) and are null again before the handler returns (lines 396, 416). No behaviour depends on them between handlers, so they are not fields.
- `drawPath` and `handleDrawMouseDown/Move/Up` stroke rendering (script.js:347-381), `fillText` (script.js:394) and `drawComicBubble` (script.js:640-722): canvas path drawing with fonts and floating-point geometry.
- ImageEditor.Editor.TextMouseDown: when armed text is placed, the contract does not say which pixels change, because `fillText` is not modelled.
- ImageEditor.Editor.BubbleMouseDown: when an armed bubble is placed, the contract does not say which pixels change, because `drawComicBubble` is not modelled.
- ImageEditor.Editor.MouseDown: when text or a bubble is placed, the canvas pixels are not constrained, for the same reason.
- ImageEditor.Editor.MouseUp: under the draw tool the canvas pixels are not constrained, because the stroke is not modelled.
- ImageEditor.Editor.RotateCanvas: the rotated pixel content, produced by the context's `translate`, `rotate` and `drawImage` with a floating-point angle, is a parameter of exactly the new size. Only the size swap, the commit and the state reset are stated.
- `drawImage` of a canvas onto a cleared canvas (crop, rotation) is modelled as an exact copy. Browser rounding through premultiplied alpha is not modelled.
- Raster.Canvas.PutImageData: a browser may store pixels premultiplied by alpha. A pixel written with `putImageData` and read back with `getImageData` can then differ when it is not fully opaque. The model treats the write and the read as exact, so its contract holds as stated only for opaque pixels.
- ImageEditor.Editor.ApplyInvertFilter: for the same reason, the committed image equals the inverted image exactly only where pixels are opaque. Translucent colour values may be rounded by the browser. `Redraw` and the snip write-back are not affected, because they write back bytes that were just read.
- Button staleness: the model treats each button as enabled exactly when its predicate holds for the current state and input text. In the browser, `.disabled` is only refreshed when `updateToolStates` runs, and no listener refreshes the add-text or add-bubble button while the user types (script.js:758-761). The rows for `AddTextEnabled` and `AddBubbleEnabled` therefore describe the button as last computed, not as the user may see it.
- Clearing the input boxes: `resetToolState` empties the text and bubble input boxes (script.js:196, 199). The boxes are not editor state in the model; their content is the `input` parameter of `AddText` and `AddBubble`.
