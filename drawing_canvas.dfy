/**
 * The drawing surface: an HTML canvas element with its 2-D context, and the component that
 * sizes it to its container, applies the current tool and turns pointer events into strokes.
 */
module DrawingCanvas {
  import opened Wrappers
  import opened Raster

  /** A point in canvas coordinates. */
  datatype Point = Point(x: int, y: int)

  datatype Tool = Brush | Eraser

  /** The part of a 2-D context's drawing state the component sets or relies on. */
  datatype ContextState = ContextState(
    composite: Composite,
    strokeStyle: string,
    lineWidth: int,
    fillStyle: string,
    lineCap: string,
    lineJoin: string)

  /** The state a context starts in, and returns to whenever the canvas is resized. */
  const DefaultContext: ContextState :=
    ContextState(SourceOver, "#000000", 1, "#000000", "butt", "miter")

  /** The context state a successful resize leaves: the default, with round caps and joins and the background fill. */
  const SizedContext: ContextState :=
    DefaultContext.(lineCap := "round", lineJoin := "round", fillStyle := BackgroundStyle)

  /** The stroke colour of the eraser: opaque, so `destination-out` clears completely. */
  const EraserStyle: string := "rgba(0,0,0,1)"

  /** The `lineWidth` setter: a width that is not positive is ignored. */
  function WithLineWidth(state: ContextState, width: int): (r: ContextState)
    ensures width > 0 ==> r.lineWidth == width
    ensures width <= 0 ==> r == state
    ensures r.(lineWidth := state.lineWidth) == state
  {
    if width > 0 then state.(lineWidth := width) else state
  }

  /**
   * The drawing state the tool effect leaves: the eraser draws opaquely in
   * `destination-out` mode, the brush in `source-over` mode with the current colour; the
   * line width is the brush size in both cases.
   */
  function ToolState(state: ContextState, tool: Tool, color: string, size: int): (r: ContextState)
    ensures r.composite == (if tool == Eraser then DestinationOut else SourceOver)
    ensures r.strokeStyle == (if tool == Eraser then EraserStyle else color)
    ensures r.lineWidth == (if size > 0 then size else state.lineWidth)
    ensures r.fillStyle == state.fillStyle && r.lineCap == state.lineCap && r.lineJoin == state.lineJoin
  {
    var styled := if tool == Eraser then state.(composite := DestinationOut, strokeStyle := EraserStyle)
                  else state.(composite := SourceOver, strokeStyle := color);
    WithLineWidth(styled, size)
  }

  /** What the eraser's strokes leave: transparent pixels, whatever the colour chosen. */
  lemma EraserStrokesClear(state: ContextState, color: string, size: int)
    ensures Paint(ToolState(state, Eraser, color, size).composite,
                  ToolState(state, Eraser, color, size).strokeStyle) == Transparent
    ensures color != BackgroundStyle ==>
      Paint(ToolState(state, Brush, color, size).composite,
            ToolState(state, Brush, color, size).strokeStyle) == Color(color)
  {
  }

  /** A pointer event: a mouse event at a point, or a touch event with its list of contacts. */
  datatype PointerEvent = Mouse(at: Point) | Touch(touches: seq<Point>)

  /**
   * `getCoordinates`: the mouse position, or the first contact of a touch event; other
   * contacts are ignored. A touch event without contacts has no first contact (reading it
   * throws), which is `None` here.
   */
  function Coordinates(e: PointerEvent): Option<Point>
  {
    match e
    case Mouse(p) => Some(p)
    case Touch(touches) => if touches == [] then None else Some(touches[0])
  }

  /**
   * Contacts after the first one do not influence where a touch draws, and a touch without
   * contacts gives no point.
   */
  lemma OnlyFirstTouch(first: Point, others: seq<Point>, different: seq<Point>)
    ensures Coordinates(Touch([first] + others)) == Coordinates(Touch([first] + different)) == Some(first)
    ensures Coordinates(Touch([])).None?
  {
  }

  /** The canvas element: its bitmap, whether it has a 2-D context, and that context's state. */
  class Canvas {
    var bitmap: array2<Pixel>
    const hasContext: bool
    var context: ContextState
    /** The current path: the points passed to `moveTo` and `lineTo` since `beginPath`. */
    var path: seq<Point>

    /** The bitmap as an image, column by column. */
    function Snapshot(): (img: Image)
      reads `bitmap, bitmap
      ensures Shaped(img) && img.width == bitmap.Length0 && img.height == bitmap.Length1
      ensures forall x, y :: 0 <= x < bitmap.Length0 && 0 <= y < bitmap.Length1 ==> At(img, x, y) == bitmap[x, y]
    {
      var b := bitmap;
      Image(b.Length0, b.Length1,
        seq(b.Length0, x requires 0 <= x < b.Length0 reads b =>
          seq(b.Length1, y requires 0 <= y < b.Length1 reads b => b[x, y])))
    }

    /** A new canvas is 300 by 150 and transparent. */
    constructor(hasContext: bool)
      ensures this.hasContext == hasContext
      ensures Snapshot() == Filled(300, 150, Transparent)
      ensures context == DefaultContext && path == []
    {
      this.hasContext := hasContext;
      bitmap := new Pixel[300, 150]((x, y) => Transparent);
      context := DefaultContext;
      path := [];
      new;
      SamePixels(Snapshot(), Filled(300, 150, Transparent));
    }

    /**
     * Setting `width` and `height`: the bitmap is replaced by a transparent one of the new
     * size and the context returns to its default state, its path emptied.
     */
    method SetDimensions(width: nat, height: nat)
      modifies this
      ensures fresh(bitmap)
      ensures Snapshot() == Filled(width, height, Transparent)
      ensures context == DefaultContext && path == []
    {
      bitmap := new Pixel[width, height]((x, y) => Transparent);
      context := DefaultContext;
      path := [];
      SamePixels(Snapshot(), Filled(width, height, Transparent));
    }

    /**
     * `getImageData(0, 0, width, height)`: the bitmap, or the IndexSizeError thrown when
     * either dimension is zero.
     */
    function GetImageData(): (r: Result<Image, string>)
      reads `bitmap, bitmap
      ensures r.Ok? <==> bitmap.Length0 > 0 && bitmap.Length1 > 0
      ensures r.Ok? ==> r.value == Snapshot()
      ensures r.Err? ==> r.error == "IndexSizeError"
    {
      if bitmap.Length0 == 0 || bitmap.Length1 == 0 then Err("IndexSizeError") else Ok(Snapshot())
    }

    /** `fillRect(0, 0, width, height)`: every pixel gets the fill colour under the current mode. */
    method FillRect()
      modifies bitmap
      ensures Snapshot() == Filled(bitmap.Length0, bitmap.Length1, Paint(context.composite, context.fillStyle))
    {
      var p := Paint(context.composite, context.fillStyle);
      forall x, y | 0 <= x < bitmap.Length0 && 0 <= y < bitmap.Length1 {
        bitmap[x, y] := p;
      }
      SamePixels(Snapshot(), Filled(bitmap.Length0, bitmap.Length1, p));
    }

    /** `putImageData(img, 0, 0)`: copies `img` over the bitmap, clipped, ignoring the mode. */
    method PutImageData(img: Image)
      requires Shaped(img)
      modifies bitmap
      ensures Snapshot() == Overlay(old(Snapshot()), img)
    {
      ghost var before := Snapshot();
      forall x, y | 0 <= x < bitmap.Length0 && 0 <= y < bitmap.Length1 && x < img.width && y < img.height {
        bitmap[x, y] := img.columns[x][y];
      }
      forall x, y | 0 <= x < bitmap.Length0 && 0 <= y < bitmap.Length1
        ensures At(Snapshot(), x, y) == At(Overlay(before, img), x, y)
      {
        OverlayAt(before, img, x, y);
      }
      SamePixels(Snapshot(), Overlay(before, img));
    }

    /**
     * `stroke()`: the pixels the current path covers at the current line width, `covered`,
     * get the stroke colour under the current mode.
     */
    method Stroke(covered: set<(int, int)>)
      modifies bitmap
      ensures Snapshot() == Stroked(old(Snapshot()), covered, Paint(context.composite, context.strokeStyle))
    {
      ghost var before := Snapshot();
      var p := Paint(context.composite, context.strokeStyle);
      forall x, y | 0 <= x < bitmap.Length0 && 0 <= y < bitmap.Length1 && (x, y) in covered {
        bitmap[x, y] := p;
      }
      forall x, y | 0 <= x < bitmap.Length0 && 0 <= y < bitmap.Length1
        ensures At(Snapshot(), x, y) == At(Stroked(before, covered, p), x, y)
      {
        StrokeChangesCovered(before, covered, p, x, y);
      }
      SamePixels(Snapshot(), Stroked(before, covered, p));
    }
  }

  /** How a call of `resizeCanvas` ends. */
  datatype ResizeOutcome = NoContext | ImageDataThrew | NoContainer | Resized

  /**
   * The component's state: the canvas it renders, the `isDrawing` flag and the props its
   * tool effect last ran with. Each handler's `modifies` clause names the fields it updates.
   */
  class Component {
    const canvas: Canvas
    var isDrawing: bool
    var currentColor: string
    var brushSize: int
    var tool: Tool

    /** The first render: not drawing; the effects run in `Mount`. */
    constructor(canvas: Canvas, currentColor: string, brushSize: int, tool: Tool)
      ensures this.canvas == canvas && !isDrawing
      ensures this.currentColor == currentColor && this.brushSize == brushSize && this.tool == tool
    {
      this.canvas := canvas;
      isDrawing := false;
      this.currentColor := currentColor;
      this.brushSize := brushSize;
      this.tool := tool;
    }

    /**
     * `resizeCanvas`, with `container` the client size of the parent element, if there is
     * one. Without a context, when saving a drawing of height 0 throws, or without a
     * container nothing changes. Otherwise the canvas takes the container's size, its
     * context is reset (then given round caps and joins and the background fill colour), and
     * the bitmap is the old drawing put back over a background fill.
     */
    method ResizeCanvas(container: Option<(nat, nat)>) returns (outcome: ResizeOutcome)
      modifies canvas
      ensures outcome == NoContext <==> !canvas.hasContext
      ensures outcome == ImageDataThrew <==>
        canvas.hasContext && old(canvas.bitmap.Length0) > 0 && old(canvas.bitmap.Length1) == 0
      ensures outcome == NoContainer <==>
        (canvas.hasContext && container.None? && !(old(canvas.bitmap.Length0) > 0 && old(canvas.bitmap.Length1) == 0))
      ensures outcome != Resized ==> canvas.bitmap == old(canvas.bitmap) && unchanged(canvas)
      ensures outcome == Resized ==>
        && fresh(canvas.bitmap)
        && canvas.Snapshot() == Raster.Resized(old(canvas.Snapshot()), container.value.0, container.value.1)
        && canvas.context == SizedContext
        && canvas.path == []
    {
      if !canvas.hasContext {
        return NoContext;
      }
      var saved: Option<Image> := None;
      if canvas.bitmap.Length0 > 0 {
        var data := canvas.GetImageData();
        if data.Err? {
          return ImageDataThrew;
        }
        saved := Some(data.value);
      }
      if container.None? {
        return NoContainer;
      }
      ghost var before := canvas.Snapshot();
      var (width, height) := container.value;
      canvas.SetDimensions(width, height);
      canvas.context := canvas.context.(lineCap := "round", lineJoin := "round");
      canvas.context := canvas.context.(fillStyle := BackgroundStyle);
      canvas.FillRect();
      if saved.Some? && saved.value.width > 0 {
        canvas.PutImageData(saved.value);
      } else {
        ResizeFromNothing(before, width, height);
      }
      outcome := Resized;
    }

    /**
     * The tool effect: under the eraser `destination-out` with an opaque stroke colour,
     * under the brush `source-over` with the current colour; the line width is the brush
     * size. Nothing happens without a context.
     */
    method ApplyTool()
      modifies canvas`context
      ensures canvas.bitmap == old(canvas.bitmap) && canvas.path == old(canvas.path)
      ensures canvas.hasContext ==> canvas.context == ToolState(old(canvas.context), tool, currentColor, brushSize)
      ensures !canvas.hasContext ==> canvas.context == old(canvas.context)
    {
      if !canvas.hasContext {
        return;
      }
      if tool == Eraser {
        canvas.context := canvas.context.(composite := DestinationOut, strokeStyle := EraserStyle);
      } else {
        canvas.context := canvas.context.(composite := SourceOver, strokeStyle := currentColor);
      }
      canvas.context := WithLineWidth(canvas.context, brushSize);
    }

    /**
     * Mounting: the sizing effect, then `onCanvasReady` (reported as `ready`) when the canvas
     * has a positive width, then the tool effect. A throw while sizing ends the mount.
     */
    method Mount(container: Option<(nat, nat)>) returns (outcome: ResizeOutcome, ready: bool)
      modifies canvas
      ensures ready <==> outcome != ImageDataThrew && canvas.bitmap.Length0 > 0
      ensures outcome == NoContext <==> !canvas.hasContext
      ensures outcome == ImageDataThrew <==>
        canvas.hasContext && old(canvas.bitmap.Length0) > 0 && old(canvas.bitmap.Length1) == 0
      ensures outcome == NoContainer <==>
        (canvas.hasContext && container.None? && !(old(canvas.bitmap.Length0) > 0 && old(canvas.bitmap.Length1) == 0))
      ensures outcome == NoContext || outcome == ImageDataThrew ==> unchanged(canvas)
      ensures outcome == NoContainer ==>
        && canvas.bitmap == old(canvas.bitmap) && canvas.path == old(canvas.path)
        && canvas.context == ToolState(old(canvas.context), tool, currentColor, brushSize)
      ensures outcome == Resized ==>
        && fresh(canvas.bitmap)
        && canvas.Snapshot() == Raster.Resized(old(canvas.Snapshot()), container.value.0, container.value.1)
        && canvas.context == ToolState(SizedContext, tool, currentColor, brushSize)
        && canvas.path == []
    {
      outcome := ResizeCanvas(container);
      if outcome == ImageDataThrew {
        return outcome, false;
      }
      ready := canvas.bitmap.Length0 > 0;
      ApplyTool();
    }

    /**
     * The window's resize event: sizing only. The tool effect does not run again, so the
     * context keeps the reset stroke state until a prop changes.
     */
    method WindowResize(container: Option<(nat, nat)>) returns (outcome: ResizeOutcome)
      modifies canvas
      ensures outcome == NoContext <==> !canvas.hasContext
      ensures outcome == ImageDataThrew <==>
        canvas.hasContext && old(canvas.bitmap.Length0) > 0 && old(canvas.bitmap.Length1) == 0
      ensures outcome == NoContainer <==>
        (canvas.hasContext && container.None? && !(old(canvas.bitmap.Length0) > 0 && old(canvas.bitmap.Length1) == 0))
      ensures outcome != Resized ==> canvas.bitmap == old(canvas.bitmap) && unchanged(canvas)
      ensures outcome == Resized ==>
        && fresh(canvas.bitmap)
        && canvas.Snapshot() == Raster.Resized(old(canvas.Snapshot()), container.value.0, container.value.1)
        && canvas.context == SizedContext
        && canvas.path == []
      ensures outcome == Resized ==>
        canvas.context.composite == SourceOver && canvas.context.strokeStyle == "#000000"
        && canvas.context.lineWidth == 1
    {
      outcome := ResizeCanvas(container);
    }

    /** A render with new props: the tool effect runs only when one of its dependencies changed. */
    method SetProps(color: string, size: int, newTool: Tool)
      modifies this`currentColor, this`brushSize, this`tool, canvas`context
      ensures currentColor == color && brushSize == size && tool == newTool
      ensures (color, size, newTool) == old((currentColor, brushSize, tool)) ==> unchanged(canvas)
      ensures canvas.hasContext && (color, size, newTool) != old((currentColor, brushSize, tool)) ==>
        canvas.context == ToolState(old(canvas.context), newTool, color, size)
      ensures canvas.bitmap == old(canvas.bitmap) && isDrawing == old(isDrawing)
    {
      var changed := (color, size, newTool) != (currentColor, brushSize, tool);
      currentColor, brushSize, tool := color, size, newTool;
      if changed {
        ApplyTool();
      }
    }

    /**
     * `startDrawing`: with a context and coordinates, sets the flag and starts a new path at
     * the event's point; otherwise changes nothing.
     */
    method StartDrawing(e: PointerEvent)
      modifies this`isDrawing, canvas`path
      ensures canvas.bitmap == old(canvas.bitmap) && canvas.context == old(canvas.context)
      ensures canvas.hasContext && Coordinates(e).Some? ==> isDrawing && canvas.path == [Coordinates(e).value]
      ensures !(canvas.hasContext && Coordinates(e).Some?) ==> isDrawing == old(isDrawing) && unchanged(canvas)
    {
      if !canvas.hasContext {
        return;
      }
      var coords := Coordinates(e);
      if coords.None? {
        return;
      }
      isDrawing := true;
      canvas.path := [coords.value];
    }

    /**
     * `draw`: while drawing, extends the path to the event's point and strokes it; `covered`
     * stands for the pixels the stroked path covers. Not drawing, nothing changes.
     */
    method Draw(e: PointerEvent, covered: set<(int, int)>)
      modifies canvas`path, canvas.bitmap
      ensures !old(isDrawing) ==> unchanged(canvas) && unchanged(canvas.bitmap)
      ensures canvas.bitmap == old(canvas.bitmap) && canvas.context == old(canvas.context)
      ensures old(isDrawing) && canvas.hasContext && Coordinates(e).Some? ==>
        && canvas.path == old(canvas.path) + [Coordinates(e).value]
        && canvas.Snapshot() == Stroked(old(canvas.Snapshot()), covered, Paint(canvas.context.composite, canvas.context.strokeStyle))
      ensures !(old(isDrawing) && canvas.hasContext && Coordinates(e).Some?) ==>
        unchanged(canvas) && unchanged(canvas.bitmap)
    {
      if !isDrawing {
        return;
      }
      if !canvas.hasContext {
        return;
      }
      var coords := Coordinates(e);
      if coords.None? {
        return;
      }
      canvas.path := canvas.path + [coords.value];
      canvas.Stroke(covered);
    }

    /** `stopDrawing`, on mouse up, mouse leave and touch end: clears the flag. */
    method StopDrawing()
      modifies this`isDrawing
      ensures !isDrawing
      ensures currentColor == old(currentColor) && brushSize == old(brushSize) && tool == old(tool)
    {
      isDrawing := false;
    }
  }
}
