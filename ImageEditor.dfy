/**
 * The editor's global state (script.js, lines 54-71) and the handlers that work
 * on it: the selection gestures, crop, snip-and-swap, the invert filter,
 * rotation, tool switching and the text/bubble payloads.
 */
module ImageEditor {
  import opened Wrappers
  import opened Geometry
  import opened Raster
  import opened Filters
  import opened SnipMachine
  import opened JsText

  /** The value of `activeTool`. */
  datatype Tool = Select | Crop | Snip | Draw | Text | Bubble

  class Editor {
    /** `imageCanvas`; its 2D context draws into the canvas's bitmap. */
    const canvas: Canvas
    var imageLoaded: bool
    /** `currentImageDataForRedraw`: the committed pixels that redrawBaseImage paints back. */
    var saved: Option<ImageData>
    var activeTool: Tool
    var isDragging: bool
    var startCoords: Point
    var currentCoords: Point
    var snipState: SnipState
    var snip1Data: Option<ImageData>
    var snip1Rect: Option<Rect>
    var snip2Rect: Option<Rect>
    /** `textToPlace`: the armed text, "" when nothing is armed. */
    var textToPlace: string
    /** `bubbleToPlace.text`: the armed bubble text, "" when nothing is armed. */
    var bubbleText: string
    /** `bubbleToPlace.type`, `.color` and `.fill`. */
    var bubbleKind: string
    var bubbleColor: string
    var bubbleFill: string

    /** Region 1 of a snip is held: its pixels and its rectangle, of matching size. */
    ghost predicate FirstRegionHeld()
      reads this
    {
      && snip1Data.Some? && snip1Rect.Some? && snip1Data.value.Valid()
      && snip1Data.value.width == snip1Rect.value.width
      && snip1Data.value.height == snip1Rect.value.height
    }

    /**
     * Once an image is loaded the canvas is at least 1 x 1 and the saved buffer
     * holds exactly what the canvas shows (drag previews are not modelled);
     * before that only the select tool can be active and no drag is open.
     * While region 1 is extracted, its pixels and rectangle are held.
     */
    ghost predicate Valid()
      reads this, canvas, canvas.pixels
      ensures Valid() && imageLoaded ==>
        && saved.Some? && saved.value.Valid()
        && saved.value.width == canvas.width && saved.value.height == canvas.height
    {
      && canvas.Valid()
      && (imageLoaded ==> 1 <= canvas.width && 1 <= canvas.height && saved == Some(canvas.Image()))
      && (!imageLoaded ==> saved == None && activeTool == Select && !isDragging)
      && (snipState == Selected1 || snipState == Selecting2 ==> FirstRegionHeld())
    }

    /** The state initializeApp starts from: no image, the select tool, nothing armed. */
    constructor (canvasWidth: nat, canvasHeight: nat)
      ensures Valid() && fresh(canvas) && fresh(canvas.pixels)
      ensures !imageLoaded && activeTool == Select && !isDragging
      ensures startCoords == Origin && currentCoords == Origin
      ensures snipState == Idle && snip1Data == None && snip1Rect == None && snip2Rect == None
      ensures textToPlace == "" && bubbleText == "" && bubbleKind == "speech"
    {
      canvas := new Canvas(canvasWidth, canvasHeight);
      imageLoaded := false;
      saved := None;
      activeTool := Select;
      isDragging := false;
      startCoords, currentCoords := Origin, Origin;
      snipState := Idle;
      snip1Data, snip1Rect, snip2Rect := None, None, None;
      textToPlace := "";
      bubbleText, bubbleKind, bubbleColor, bubbleFill := "", "speech", "#000000", "#ffffff";
    }

    // -------------------------------------------------------------------------
    // Selection and button enablement (updateToolStates)
    // -------------------------------------------------------------------------

    /** getNormalizedRect(startCoords, currentCoords) on the current canvas. */
    function SelectionRect(): (r: Option<Rect>)
      reads this, canvas
      ensures r.Some? ==> InsideCanvas(r.value, canvas.width, canvas.height)
    {
      NormalizedRect(startCoords, currentCoords, canvas.width, canvas.height)
    }

    /** The confirm-crop button is enabled; every action button is disabled until an image is loaded. */
    predicate ConfirmCropEnabled()
      reads this, canvas
      ensures ConfirmCropEnabled() ==> SelectionRect().Some? && InsideCanvas(SelectionRect().value, canvas.width, canvas.height)
    {
      imageLoaded && activeTool == Crop && !isDragging && SelectionRect().Some?
    }

    /** The cancel-crop button is enabled. */
    predicate CancelCropEnabled()
      reads this, canvas
    {
      imageLoaded && activeTool == Crop
    }

    /** The confirm-area-1 button is enabled. */
    predicate ConfirmSnip1Enabled()
      reads this, canvas
      ensures ConfirmSnip1Enabled() ==> Step(snipState, ConfirmFirst(SelectionRect().Some?)) == Selected1
    {
      imageLoaded && activeTool == Snip && snipState == Selecting1 && !isDragging && SelectionRect().Some?
    }

    /** The select-area-2 button is enabled. */
    predicate StartSelection2Enabled()
      reads this
      ensures StartSelection2Enabled() ==> Step(snipState, StartSecond) == Selecting2
    {
      imageLoaded && activeTool == Snip && snipState == Selected1
    }

    /** The confirm-area-2 button is enabled. */
    predicate ConfirmSnip2Enabled()
      reads this, canvas
      ensures Valid() && ConfirmSnip2Enabled() ==>
        Step(snipState, ConfirmSecond(SelectionRect().Some?, snip1Data.Some? && snip1Rect.Some?)) == Swapped
    {
      imageLoaded && activeTool == Snip && snipState == Selecting2 && !isDragging && SelectionRect().Some?
    }

    /** The cancel-snip button is enabled. */
    predicate CancelSnipEnabled()
      reads this
      ensures CancelSnipEnabled() <==> imageLoaded && activeTool == Snip && Step(snipState, ToolReset) != snipState
    {
      imageLoaded && activeTool == Snip && snipState != Idle && snipState != Swapped
    }

    /** The add-text button is enabled for the text input box holding `input`. */
    predicate AddTextEnabled(input: string)
      reads this
      ensures AddTextEnabled(input) ==> exists k :: 0 <= k < |input| && !IsWhitespace(input[k])
    {
      imageLoaded && activeTool == Text && Trim(input) != ""
    }

    /** The add-bubble button is enabled for the bubble input box holding `input`. */
    predicate AddBubbleEnabled(input: string)
      reads this
      ensures AddBubbleEnabled(input) ==> exists k :: 0 <= k < |input| && !IsWhitespace(input[k])
    {
      imageLoaded && activeTool == Bubble && Trim(input) != ""
    }

    // -------------------------------------------------------------------------
    // The saved buffer and repainting
    // -------------------------------------------------------------------------

    /** updateCurrentImageStateBuffer: snapshot the canvas, or drop the snapshot when there is nothing to keep. */
    method UpdateSaved()
      requires canvas.Valid()
      modifies this`saved
      ensures saved == if imageLoaded && canvas.width != 0 && canvas.height != 0 then Some(canvas.Image()) else None
    {
      if !imageLoaded || canvas.width == 0 || canvas.height == 0 {
        saved := None;
      } else {
        saved := Some(canvas.Image());
      }
    }

    /** redrawBaseImage: clear the canvas and paint the saved pixels back; it changes no pixel. */
    method Redraw()
      requires Valid()
      modifies canvas.pixels
      ensures Valid() && canvas.Image() == old(canvas.Image())
    {
      if !imageLoaded {
        return;
      }
      ghost var before := canvas.Image();
      canvas.ClearRect(0, 0, canvas.width, canvas.height);
      // The saved buffer is present once an image is loaded (Valid), so the
      // fallback that repaints originalImage is not reached.
      canvas.PutImageData(saved.value, 0, 0);
      PutCoversWhole(Cleared(before, 0, 0, before.width, before.height), before);
    }

    // -------------------------------------------------------------------------
    // Tool switching
    // -------------------------------------------------------------------------

    /** Nothing in the tool state differs from the pre-state. */
    twostate predicate ToolStateKept()
      reads this
    {
      && isDragging == old(isDragging) && startCoords == old(startCoords) && currentCoords == old(currentCoords)
      && snipState == old(snipState) && snip1Data == old(snip1Data) && snip1Rect == old(snip1Rect)
      && snip2Rect == old(snip2Rect) && textToPlace == old(textToPlace) && bubbleText == old(bubbleText)
    }

    /** The snip flow and the canvas are as they were, the canvas showing `base`. */
    twostate predicate SnipKept(base: ImageData)
      reads this, canvas, canvas.pixels
    {
      && snipState == old(snipState) && snip1Data == old(snip1Data)
      && snip1Rect == old(snip1Rect) && snip2Rect == old(snip2Rect)
      && canvas.Image() == base
    }

    /**
     * The snip branch of resetToolState when the canvas showed `base`: mid-flow
     * the flow returns to Idle and drops its regions, writing the extracted
     * region 1 back when it is held; otherwise nothing changes.
     */
    twostate predicate SnipWasReset(base: ImageData)
      reads this, canvas, canvas.pixels
    {
      if old(snipState) != Idle && old(snipState) != Swapped then
        && snipState == Idle && snip1Data == None && snip1Rect == None && snip2Rect == None
        && canvas.Image() ==
             if old(snipState) == Selected1 && old(snip1Data).Some? && old(snip1Rect).Some?
             then Put(base, old(snip1Data).value, old(snip1Rect).value.x, old(snip1Rect).value.y)
             else base
      else
        SnipKept(base)
    }

    /**
     * The effect of resetToolState(tool) when the canvas showed `base` as the
     * reset began: the drag ends, the coordinates return to the origin and the
     * tool's own state is dropped.
     */
    twostate predicate ToolStateWasReset(tool: Tool, base: ImageData)
      reads this, canvas, canvas.pixels
    {
      && !isDragging && startCoords == Origin && currentCoords == Origin
      && (if tool == Snip then SnipWasReset(base) else SnipKept(base))
      && textToPlace == (if tool == Text then "" else old(textToPlace))
      && bubbleText == (if tool == Bubble then "" else old(bubbleText))
    }

    /** The snip branch of resetToolState. */
    method ResetSnipFlow()
      requires Valid()
      modifies this`snipState, this`snip1Data, this`snip1Rect, this`snip2Rect, this`saved, canvas.pixels
      ensures Valid() && SnipWasReset(old(canvas.Image()))
      ensures snipState == Step(old(snipState), ToolReset)
    {
      if snipState == Swapped || snipState == Idle {
        return;
      }
      if snip1Data.Some? && snip1Rect.Some? && snipState == Selected1 {
        Redraw();
        canvas.PutImageData(snip1Data.value, snip1Rect.value.x, snip1Rect.value.y);
        UpdateSaved();
      } else {
        Redraw();
      }
      snipState := Idle;
      snip1Data, snip1Rect, snip2Rect := None, None, None;
    }

    /** resetToolState(tool). */
    method ResetToolState(tool: Tool)
      requires Valid()
      modifies this`isDragging, this`startCoords, this`currentCoords, this`snipState, this`snip1Data,
               this`snip1Rect, this`snip2Rect, this`textToPlace, this`bubbleText, this`saved, canvas.pixels
      ensures Valid() && ToolStateWasReset(tool, old(canvas.Image()))
      ensures tool == Snip ==> snipState == Step(old(snipState), ToolReset)
    {
      isDragging := false;
      startCoords, currentCoords := Origin, Origin;
      match tool {
        case Snip =>
          ResetSnipFlow();
        case Text =>
          textToPlace := "";
        case Bubble =>
          bubbleText := "";
        case _ =>
          // crop keeps nothing; draw drops its stroke path (not modelled)
      }
      Redraw();
    }

    /** setActiveTool(newTool). */
    method SetActiveTool(newTool: Tool)
      requires Valid()
      modifies this`activeTool, this`isDragging, this`startCoords, this`currentCoords, this`snipState,
               this`snip1Data, this`snip1Rect, this`snip2Rect, this`textToPlace, this`bubbleText,
               this`saved, canvas.pixels
      ensures Valid()
      ensures if (old(imageLoaded) || newTool == Select) && old(activeTool) != newTool
        then activeTool == newTool && ToolStateWasReset(old(activeTool), old(canvas.Image()))
        else unchanged(this) && canvas.Image() == old(canvas.Image())
    {
      if !imageLoaded && newTool != Select {
        return;
      }
      if activeTool == newTool {
        return;
      }
      if isDragging {
        isDragging := false;
        Redraw();
      }
      ResetToolState(activeTool);
      activeTool := newTool;
    }

    /** The snip tool button: abandon any snip flow without restoring, then switch to the snip tool. */
    method ClickSnipTool()
      requires Valid()
      modifies this`activeTool, this`isDragging, this`startCoords, this`currentCoords, this`snipState,
               this`snip1Data, this`snip1Rect, this`snip2Rect, this`textToPlace, this`bubbleText,
               this`saved, canvas.pixels
      ensures Valid() && canvas.Image() == old(canvas.Image())
      ensures snipState == Step(old(snipState), SnipToolClicked)
      ensures snip1Data == None && snip1Rect == None && snip2Rect == None
      ensures if old(imageLoaded) && old(activeTool) != Snip then
          && activeTool == Snip && !isDragging && startCoords == Origin && currentCoords == Origin
          && textToPlace == (if old(activeTool) == Text then "" else old(textToPlace))
          && bubbleText == (if old(activeTool) == Bubble then "" else old(bubbleText))
        else
          && activeTool == old(activeTool) && isDragging == old(isDragging)
          && startCoords == old(startCoords) && currentCoords == old(currentCoords)
          && textToPlace == old(textToPlace) && bubbleText == old(bubbleText)
    {
      snipState := Idle;
      snip1Data, snip1Rect, snip2Rect := None, None, None;
      SetActiveTool(Snip);
    }

    /** The cancel-snip button: leave the snip tool, which resets the snip flow. */
    method CancelSnip()
      requires Valid()
      modifies this`activeTool, this`isDragging, this`startCoords, this`currentCoords, this`snipState,
               this`snip1Data, this`snip1Rect, this`snip2Rect, this`textToPlace, this`bubbleText,
               this`saved, canvas.pixels
      ensures Valid()
      ensures old(activeTool) == Snip ==> activeTool == Select && ToolStateWasReset(Snip, old(canvas.Image()))
      ensures old(activeTool) != Snip ==> unchanged(this) && canvas.Image() == old(canvas.Image())
      // The button is enabled exactly when pressing it changes the snip state.
      ensures old(CancelSnipEnabled()) <==> snipState != old(snipState)
    {
      if activeTool == Snip {
        SetActiveTool(Select);
      }
    }

    /** The cancel-crop button: leave the crop tool, which drops the selection. */
    method CancelCrop()
      requires Valid()
      modifies this`activeTool, this`isDragging, this`startCoords, this`currentCoords, this`snipState,
               this`snip1Data, this`snip1Rect, this`snip2Rect, this`textToPlace, this`bubbleText,
               this`saved, canvas.pixels
      ensures Valid()
      ensures old(CancelCropEnabled()) ==>
        && activeTool == Select && ToolStateWasReset(Crop, old(canvas.Image()))
        && SelectionRect().None? && canvas.Image() == old(canvas.Image())
      ensures !old(CancelCropEnabled()) ==> unchanged(this) && canvas.Image() == old(canvas.Image())
    {
      if activeTool == Crop {
        SetActiveTool(Select);
      }
    }

    // -------------------------------------------------------------------------
    // Loading an image
    // -------------------------------------------------------------------------

    /**
     * The image element's onload callback for a decoded image `img` of at least
     * one pixel: size the canvas to it, draw it, commit it and switch to the
     * select tool (which resets the tool that was active).
     */
    method LoadImage(img: ImageData)
      requires Valid() && img.Valid() && 1 <= img.width && 1 <= img.height
      modifies this`imageLoaded, this`activeTool, this`isDragging, this`startCoords, this`currentCoords,
               this`snipState, this`snip1Data, this`snip1Rect, this`snip2Rect, this`textToPlace,
               this`bubbleText, this`saved, canvas, canvas.pixels
      ensures Valid() && imageLoaded && activeTool == Select
      ensures canvas.width == img.width && canvas.height == img.height && fresh(canvas.pixels)
      ensures if old(activeTool) != Select then ToolStateWasReset(old(activeTool), img)
              else ToolStateKept() && canvas.Image() == img
    {
      canvas.Resize(img.width, img.height);
      canvas.PutImageData(img, 0, 0);
      PutCoversWhole(Blank(img.width, img.height), img);
      imageLoaded := true;
      UpdateSaved();
      SetActiveTool(Select);
    }

    // -------------------------------------------------------------------------
    // Filters and geometry
    // -------------------------------------------------------------------------

    /**
     * The buffer applyFilter works on: a fresh copy of the saved pixels, run
     * through filterInvert. Nothing of the editor changes.
     */
    method InvertedCopy() returns (buffer: array<Byte>)
      requires Valid() && imageLoaded
      ensures fresh(buffer) && buffer[..] == Inverted(saved.value.data)
    {
      var source := saved.value.data;
      buffer := new Byte[|source|](i requires 0 <= i < |source| => source[i]);
      InvertInPlace(buffer);
    }

    /** applyFilter(filterInvert): filter a copy, then commit it to the canvas and the saved buffer. */
    method ApplyInvertFilter()
      requires Valid()
      modifies this`saved, canvas.pixels
      ensures Valid()
      ensures old(imageLoaded && !isDragging) ==>
        canvas.Image() == ImageData(old(canvas.width), old(canvas.height), Inverted(old(canvas.Image()).data))
      ensures !old(imageLoaded && !isDragging) ==> canvas.Image() == old(canvas.Image()) && saved == old(saved)
    {
      if !imageLoaded || isDragging {
        return;
      }
      var buffer := InvertedCopy();
      var filtered := ImageData(saved.value.width, saved.value.height, buffer[..]);
      canvas.PutImageData(filtered, 0, 0);
      PutCoversWhole(old(canvas.Image()), filtered);
      UpdateSaved();
    }

    /**
     * rotateCanvas, either direction: the canvas takes the transposed size, the
     * snip flow is abandoned without restoring, and the active tool is reset.
     * The rotated pixels are produced by the context's translate/rotate/drawImage
     * and are passed in as `drawn`.
     */
    method RotateCanvas(drawn: seq<Byte>)
      requires Valid()
      requires |drawn| == canvas.height * canvas.width * 4
      modifies this`isDragging, this`startCoords, this`currentCoords, this`snipState, this`snip1Data,
               this`snip1Rect, this`snip2Rect, this`textToPlace, this`bubbleText, this`saved,
               canvas, canvas.pixels
      ensures Valid()
      // Assigning the size allocates a new bitmap; otherwise the old one is kept.
      ensures canvas.pixels == old(canvas.pixels) || fresh(canvas.pixels)
      ensures old(imageLoaded && !isDragging) ==>
        && canvas.width == old(canvas.height) && canvas.height == old(canvas.width)
        && canvas.Image().data == drawn
        && snipState == Step(old(snipState), Rotation)
        && (old(snipState) != Idle ==> snip1Data == None && snip1Rect == None && snip2Rect == None)
        && (old(snipState) == Idle ==>
              snip1Data == old(snip1Data) && snip1Rect == old(snip1Rect) && snip2Rect == old(snip2Rect))
        && !isDragging && startCoords == Origin && currentCoords == Origin
        && textToPlace == (if activeTool == Text then "" else old(textToPlace))
        && bubbleText == (if activeTool == Bubble then "" else old(bubbleText))
      ensures !old(imageLoaded && !isDragging) ==> unchanged(this) && canvas.Image() == old(canvas.Image())
    {
      if !imageLoaded || isDragging {
        return;
      }
      var newWidth, newHeight := canvas.height, canvas.width;
      var rotated := ImageData(newWidth, newHeight, drawn);
      canvas.Resize(newWidth, newHeight);
      canvas.ClearRect(0, 0, newWidth, newHeight);
      canvas.PutImageData(rotated, 0, 0);
      PutCoversWhole(Cleared(Blank(newWidth, newHeight), 0, 0, newWidth, newHeight), rotated);
      UpdateSaved();
      if snipState != Idle {
        snipState := Idle;
        snip1Data, snip1Rect, snip2Rect := None, None, None;
      }
      ResetToolState(activeTool);
    }

    /**
     * handleConfirmCrop: the canvas becomes the selected rectangle's pixels,
     * at the rectangle's size, and the select tool becomes active.
     */
    method ConfirmCrop()
      requires Valid()
      modifies this`activeTool, this`isDragging, this`startCoords, this`currentCoords, this`snipState,
               this`snip1Data, this`snip1Rect, this`snip2Rect, this`textToPlace, this`bubbleText,
               this`saved, canvas, canvas.pixels
      ensures Valid()
      // Assigning the size allocates a new bitmap; otherwise the old one is kept.
      ensures canvas.pixels == old(canvas.pixels) || fresh(canvas.pixels)
      ensures old(ConfirmCropEnabled()) ==>
        && var r := old(SelectionRect()).value;
        && canvas.Image() == Region(old(canvas.Image()), r.x, r.y, r.width, r.height)
        && activeTool == Select && !isDragging && startCoords == Origin && currentCoords == Origin
        && snipState == old(snipState) && snip1Data == old(snip1Data) && snip1Rect == old(snip1Rect)
        && snip2Rect == old(snip2Rect) && textToPlace == old(textToPlace) && bubbleText == old(bubbleText)
      ensures !old(ConfirmCropEnabled()) ==> unchanged(this) && canvas.Image() == old(canvas.Image())
    {
      if activeTool != Crop || isDragging {
        return;
      }
      var rect := SelectionRect();
      if rect.None? {
        return;
      }
      var r := rect.value;
      Redraw();
      var cropped := Region(canvas.Image(), r.x, r.y, r.width, r.height);
      var temp := new Canvas(r.width, r.height);
      temp.PutImageData(cropped, 0, 0);
      PutCoversWhole(Blank(r.width, r.height), cropped);
      canvas.Resize(r.width, r.height);
      canvas.ClearRect(0, 0, canvas.width, canvas.height);
      // drawImage(tempCanvas, 0, 0) onto the cleared canvas copies it exactly
      canvas.PutImageData(temp.Image(), 0, 0);
      PutCoversWhole(Cleared(Blank(r.width, r.height), 0, 0, r.width, r.height), cropped);
      UpdateSaved();
      SetActiveTool(Select);
    }

    // -------------------------------------------------------------------------
    // Snip and swap
    // -------------------------------------------------------------------------

    /**
     * handleConfirmSnip1: keep the selected region's pixels and rectangle and
     * clear that region on the canvas.
     */
    method ConfirmSnip1()
      requires Valid()
      modifies this`snipState, this`snip1Data, this`snip1Rect, this`startCoords, this`currentCoords,
               this`saved, canvas.pixels
      ensures Valid()
      ensures old(activeTool == Snip && !isDragging) ==>
        snipState == Step(old(snipState), ConfirmFirst(old(SelectionRect()).Some?))
      ensures old(ConfirmSnip1Enabled()) ==>
        && var r := old(SelectionRect()).value;
        && snip1Rect == Some(r)
        && snip1Data == Some(Region(old(canvas.Image()), r.x, r.y, r.width, r.height))
        && canvas.Image() == Cleared(old(canvas.Image()), r.x, r.y, r.width, r.height)
        && startCoords == Origin && currentCoords == Origin
      ensures !old(ConfirmSnip1Enabled()) ==> unchanged(this) && canvas.Image() == old(canvas.Image())
    {
      if activeTool != Snip || snipState != Selecting1 || isDragging {
        return;
      }
      var rect := SelectionRect();
      if rect.None? {
        return;
      }
      var r := rect.value;
      snip1Rect := rect;
      Redraw();
      snip1Data := Some(Region(canvas.Image(), r.x, r.y, r.width, r.height));
      canvas.ClearRect(r.x, r.y, r.width, r.height);
      UpdateSaved();
      snipState := Selected1;
      startCoords, currentCoords := Origin, Origin;
    }

    /** handleStartSelection2: arm the selection of region 2. */
    method StartSelection2()
      requires Valid()
      modifies this`snipState, this`startCoords, this`currentCoords
      ensures Valid()
      ensures old(activeTool) == Snip ==> snipState == Step(old(snipState), StartSecond)
      ensures old(StartSelection2Enabled()) ==> snipState == Selecting2 && startCoords == Origin && currentCoords == Origin
      ensures !old(StartSelection2Enabled()) ==> unchanged(this)
    {
      if activeTool != Snip || snipState != Selected1 {
        return;
      }
      snipState := Selecting2;
      startCoords, currentCoords := Origin, Origin;
    }

    /**
     * handleConfirmSnip2: copy region 2 over region 1's place, put the held
     * region 1 pixels over region 2, and finish the flow.
     */
    method ConfirmSnip2()
      requires Valid()
      modifies this`snipState, this`snip1Data, this`snip1Rect, this`snip2Rect, this`startCoords,
               this`currentCoords, this`saved, canvas.pixels
      ensures Valid()
      ensures old(activeTool == Snip && !isDragging) ==>
        snipState == Step(old(snipState), ConfirmSecond(old(SelectionRect()).Some?, old(snip1Data.Some? && snip1Rect.Some?)))
      ensures old(ConfirmSnip2Enabled()) ==>
        && var r1, r2, before := old(snip1Rect).value, old(SelectionRect()).value, old(canvas.Image());
        && canvas.Image() ==
             Put(Put(before, Region(before, r2.x, r2.y, r2.width, r2.height), r1.x, r1.y), old(snip1Data).value, r2.x, r2.y)
        && snip1Data == None && snip1Rect == None && snip2Rect == None
        && startCoords == Origin && currentCoords == Origin
      ensures !old(ConfirmSnip2Enabled()) ==> unchanged(this) && canvas.Image() == old(canvas.Image())
    {
      if activeTool != Snip || snipState != Selecting2 || snip1Data.None? || snip1Rect.None? || isDragging {
        return;
      }
      var rect := SelectionRect();
      if rect.None? {
        return;
      }
      snip2Rect := rect;
      var r1, r2 := snip1Rect.value, rect.value;
      Redraw();
      var snip2Data := Region(canvas.Image(), r2.x, r2.y, r2.width, r2.height);
      canvas.PutImageData(snip2Data, r1.x, r1.y);
      canvas.PutImageData(snip1Data.value, r2.x, r2.y);
      UpdateSaved();
      snipState := Swapped;
      snip1Data, snip1Rect, snip2Rect := None, None, None;
      startCoords, currentCoords := Origin, Origin;
    }

    // -------------------------------------------------------------------------
    // Text and bubble payloads
    // -------------------------------------------------------------------------

    /** handleTextAddClick with the text input box holding `input`: arm the trimmed text. */
    method AddText(input: string)
      requires Valid()
      modifies this`textToPlace
      ensures Valid()
      ensures old(AddTextEnabled(input)) ==> textToPlace == Trim(input) && textToPlace != ""
      ensures !old(AddTextEnabled(input)) ==> textToPlace == old(textToPlace)
    {
      if activeTool == Text && Trim(input) != "" {
        textToPlace := Trim(input);
      }
    }

    /** handleBubbleAddClick with the bubble input box holding `input` and the style inputs. */
    method AddBubble(input: string, kind: string, color: string, fill: string)
      requires Valid()
      modifies this`bubbleText, this`bubbleKind, this`bubbleColor, this`bubbleFill
      ensures Valid()
      ensures old(AddBubbleEnabled(input)) ==>
        bubbleText == Trim(input) && bubbleText != "" && bubbleKind == kind && bubbleColor == color && bubbleFill == fill
      ensures !old(AddBubbleEnabled(input)) ==> unchanged(this)
    {
      if activeTool == Bubble && Trim(input) != "" {
        bubbleText := Trim(input);
        bubbleKind, bubbleColor, bubbleFill := kind, color, fill;
      }
    }

    /**
     * handleTextMouseDown: with armed text, the text is drawn at startCoords
     * and disarmed; the drag ends either way.
     */
    method TextMouseDown()
      requires Valid()
      modifies this`textToPlace, this`isDragging, this`saved, canvas.pixels
      ensures Valid() && !isDragging
      ensures textToPlace == (if old(activeTool) == Text then "" else old(textToPlace))
      ensures !(old(activeTool) == Text && old(textToPlace) != "") ==> canvas.Image() == old(canvas.Image())
    {
      if activeTool == Text && textToPlace != "" {
        Redraw();
        // fillText bakes the text into the canvas (not modelled)
        UpdateSaved();
        textToPlace := "";
        isDragging := false;
      } else {
        isDragging := false;
      }
    }

    /**
     * handleBubbleMouseDown: with an armed bubble, the bubble is drawn at
     * startCoords and its text disarmed; the drag ends either way.
     */
    method BubbleMouseDown()
      requires Valid()
      modifies this`bubbleText, this`isDragging, this`saved, canvas.pixels
      ensures Valid() && !isDragging
      ensures bubbleText == (if old(activeTool) == Bubble then "" else old(bubbleText))
      ensures !(old(activeTool) == Bubble && old(bubbleText) != "") ==> canvas.Image() == old(canvas.Image())
    {
      if activeTool == Bubble && bubbleText != "" {
        Redraw();
        // drawComicBubble bakes the bubble into the canvas (not modelled)
        UpdateSaved();
        bubbleText := "";
        isDragging := false;
      } else {
        isDragging := false;
      }
    }

    // -------------------------------------------------------------------------
    // Canvas pointer handlers
    // -------------------------------------------------------------------------

    /** handleCanvasMouseDown at canvas position `p`. */
    method MouseDown(p: Point)
      requires Valid()
      modifies this`startCoords, this`currentCoords, this`isDragging, this`textToPlace, this`bubbleText,
               this`saved, canvas.pixels
      ensures Valid()
      ensures old(imageLoaded && !isDragging) ==>
        && startCoords == p && currentCoords == p
        && isDragging == (activeTool in {Crop, Snip, Draw})
        && textToPlace == (if activeTool == Text then "" else old(textToPlace))
        && bubbleText == (if activeTool == Bubble then "" else old(bubbleText))
        && (!(activeTool == Text && old(textToPlace) != "") && !(activeTool == Bubble && old(bubbleText) != "") ==>
              canvas.Image() == old(canvas.Image()))
      ensures !old(imageLoaded && !isDragging) ==> unchanged(this) && canvas.Image() == old(canvas.Image())
    {
      if !imageLoaded || isDragging {
        return;
      }
      startCoords := p;
      currentCoords := startCoords;
      isDragging := true;
      match activeTool {
        case Crop =>
          Redraw();
        case Snip =>
          Redraw();
        case Draw =>
          // handleDrawMouseDown starts a stroke path (not modelled)
        case Text =>
          TextMouseDown();
        case Bubble =>
          BubbleMouseDown();
        case Select =>
          isDragging := false;
      }
    }

    /** handleCanvasMouseMove at `p`: only an open drag follows the pointer. */
    method MouseMove(p: Point)
      requires Valid()
      modifies this`currentCoords
      ensures Valid()
      ensures old(isDragging && imageLoaded) ==> currentCoords == p
      ensures !old(isDragging && imageLoaded) ==> unchanged(this)
    {
      if !isDragging || !imageLoaded {
        return;
      }
      currentCoords := p;
    }

    /**
     * handleSelectionMouseUp: a drag that gave no rectangle steps the snip flow
     * back (Selecting1 to Idle, Selecting2 to Selected1).
     */
    method SelectionMouseUp()
      requires Valid()
      modifies this`snipState, canvas.pixels
      ensures Valid() && canvas.Image() == old(canvas.Image())
      ensures snipState ==
        if activeTool == Snip && SelectionRect().None? then Step(old(snipState), EmptyRelease) else old(snipState)
    {
      Redraw();
      var rect := SelectionRect();
      if rect.None? {
        if activeTool == Snip {
          if snipState == Selecting1 {
            snipState := Idle;
          } else if snipState == Selecting2 {
            snipState := Selected1;
          }
        }
      }
    }

    /** handleCanvasMouseUp at `p`: close the drag and finish the active tool's gesture. */
    method MouseUp(p: Point)
      requires Valid()
      modifies this`isDragging, this`currentCoords, this`snipState, this`saved, canvas.pixels
      ensures Valid()
      ensures old(isDragging && imageLoaded) ==>
        && !isDragging && currentCoords == p
        && snipState ==
             (if activeTool == Snip && NormalizedRect(old(startCoords), p, canvas.width, canvas.height).None?
              then Step(old(snipState), EmptyRelease) else old(snipState))
        && (activeTool != Draw ==> canvas.Image() == old(canvas.Image()))
      ensures !old(isDragging && imageLoaded) ==> unchanged(this) && canvas.Image() == old(canvas.Image())
    {
      if !isDragging || !imageLoaded {
        return;
      }
      isDragging := false;
      currentCoords := p;
      match activeTool {
        case Crop =>
          SelectionMouseUp();
        case Snip =>
          SelectionMouseUp();
        case Draw =>
          // handleDrawMouseUp bakes the stroke into the canvas (not modelled)
        case _ =>
      }
    }

    /** handleCanvasMouseLeave: leaving the canvas mid-drag cancels the gesture and resets the tool. */
    method MouseLeave()
      requires Valid()
      modifies this`isDragging, this`startCoords, this`currentCoords, this`snipState, this`snip1Data,
               this`snip1Rect, this`snip2Rect, this`textToPlace, this`bubbleText, this`saved, canvas.pixels
      ensures Valid()
      ensures old(isDragging) ==> ToolStateWasReset(old(activeTool), old(canvas.Image()))
      ensures !old(isDragging) ==> unchanged(this) && canvas.Image() == old(canvas.Image())
    {
      if isDragging {
        isDragging := false;
        ResetToolState(activeTool);
        Redraw();
      }
    }
  }
}
