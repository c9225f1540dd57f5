/**
 * The play screen: the drawing settings, the bounded history of canvas snapshots behind
 * undo and clear, the twist prompt, and the flags of the "say it" button.
 */
module PlayScreen {
  import opened Raster
  import opened DrawingCanvas
  import GameFlow

  /** The number of earlier snapshots a save keeps (`slice(-9)`). */
  const KeptSnapshots: nat := 9

  /**
   * The index a relative `start` or `end` argument of `Array.prototype.slice` stands for:
   * counted from the end when negative, and clamped to `[0, length]`.
   */
  function RelativeIndex(relative: int, length: nat): (i: nat)
    ensures i <= length
  {
    if relative < 0 then (if length + relative < 0 then 0 else length + relative)
    else if relative > length then length
    else relative
  }

  /** `Array.prototype.slice(start, end)` on a sequence. */
  function Slice<T>(s: seq<T>, start: int, end: int): seq<T>
  {
    var from, to := RelativeIndex(start, |s|), RelativeIndex(end, |s|);
    if from < to then s[from..to] else []
  }

  /** `[...prev.slice(-9), imageData]`: the nine most recent entries, then the new snapshot. */
  function Pushed(history: seq<Image>, snapshot: Image): seq<Image>
  {
    Slice(history, -(KeptSnapshots as int), |history|) + [snapshot]
  }

  /** `prev.slice(0, -1)`: every entry but the last. */
  function Popped(history: seq<Image>): seq<Image>
  {
    Slice(history, 0, -1)
  }

  /**
   * A save keeps the nine most recent earlier entries, in order, and appends the new
   * snapshot, so a history never grows past ten entries.
   */
  lemma PushKeepsNewest(history: seq<Image>, snapshot: Image)
    ensures var kept := if |history| < KeptSnapshots then |history| else KeptSnapshots;
      && |Pushed(history, snapshot)| == kept + 1
      && Pushed(history, snapshot)[..kept] == history[|history| - kept..]
      && Pushed(history, snapshot)[kept] == snapshot
    ensures |Pushed(history, snapshot)| <= KeptSnapshots + 1
  {
  }

  /** Undo drops exactly the last entry, and an empty history stays empty. */
  lemma PopDropsLast(history: seq<Image>)
    ensures history == [] ==> Popped(history) == []
    ensures history != [] ==> Popped(history) == history[..|history| - 1]
  {
  }

  /**
   * Undo right after a save gives back the history before it, as long as the save dropped
   * nothing (fewer than nine entries before it).
   */
  lemma PopAfterPush(history: seq<Image>, snapshot: Image)
    requires |history| <= KeptSnapshots
    ensures Popped(Pushed(history, snapshot)) == history
  {
    PushKeepsNewest(history, snapshot);
    PopDropsLast(Pushed(history, snapshot));
  }

  /** Putting back a snapshot of the same size restores exactly that snapshot. */
  lemma OverlaySameSize(base: Image, top: Image)
    requires Shaped(base) && Shaped(top) && base.width == top.width && base.height == top.height
    ensures Overlay(base, top) == top
  {
    forall x, y | 0 <= x < base.width && 0 <= y < base.height
      ensures At(Overlay(base, top), x, y) == At(top, x, y)
    {
      OverlayAt(base, top, x, y);
    }
    SamePixels(Overlay(base, top), top);
  }

  /** How a call of `saveCanvasState` ends. */
  datatype SaveOutcome = NoCanvas | NoContextForSave | SaveThrew | Saved

  /**
   * The play screen's state. `canvasSet` says whether `canvasRef.current` holds the canvas.
   * Each handler's `modifies` clause names the fields it updates; every other field keeps
   * its value.
   */
  class Component {
    const word: GameFlow.Word
    const canvas: Canvas
    var canvasSet: bool
    var currentColor: string
    var brushSize: int
    var tool: Tool
    var history: seq<Image>
    var twistPrompt: string
    var isRecording: bool
    var hasSpoken: bool

    /** At most ten snapshots, each a well-formed image. */
    ghost predicate Valid()
      reads this
    {
      |history| <= KeptSnapshots + 1 && forall i :: 0 <= i < |history| ==> Shaped(history[i])
    }

    /** The initial settings: red, size 8, brush, no history, no prompt, not recording, not spoken. */
    constructor(word: GameFlow.Word, canvas: Canvas)
      ensures Valid()
      ensures this.word == word && this.canvas == canvas && !canvasSet
      ensures currentColor == "#ef4444" && brushSize == 8 && tool == Brush
      ensures history == [] && twistPrompt == "" && !isRecording && !hasSpoken
    {
      this.word := word;
      this.canvas := canvas;
      canvasSet := false;
      currentColor := "#ef4444";
      brushSize := 8;
      tool := Brush;
      history := [];
      twistPrompt := "";
      isRecording := false;
      hasSpoken := false;
    }

    /**
     * `saveCanvasState`: without the canvas or its context nothing happens; a canvas with a
     * zero dimension makes `getImageData` throw; otherwise the bitmap is pushed onto the
     * history.
     */
    method SaveCanvasState() returns (outcome: SaveOutcome)
      requires Valid()
      modifies this`history
      ensures Valid()
      ensures outcome == Saved ==> history == Pushed(old(history), canvas.Snapshot())
      ensures outcome != Saved ==> history == old(history)
      ensures !canvasSet ==> outcome == NoCanvas
      ensures canvasSet && !canvas.hasContext ==> outcome == NoContextForSave
      ensures outcome == Saved <==> canvasSet && canvas.hasContext && canvas.GetImageData().Ok?
      ensures canvasSet == old(canvasSet) && hasSpoken == old(hasSpoken) && isRecording == old(isRecording)
      ensures twistPrompt == old(twistPrompt)
      ensures currentColor == old(currentColor) && brushSize == old(brushSize) && tool == old(tool)
    {
      if !canvasSet {
        return NoCanvas;
      }
      if !canvas.hasContext {
        return NoContextForSave;
      }
      var data := canvas.GetImageData();
      if data.Err? {
        return SaveThrew;
      }
      PushKeepsNewest(history, data.value);
      history := Pushed(history, data.value);
      outcome := Saved;
    }

    /** `handleCanvasReady`: keeps the canvas and saves one snapshot of it. */
    method HandleCanvasReady() returns (outcome: SaveOutcome)
      requires Valid()
      modifies this`canvasSet, this`history
      ensures Valid() && canvasSet
      ensures outcome == Saved <==> canvas.hasContext && canvas.GetImageData().Ok?
      ensures outcome == Saved ==> history == Pushed(old(history), canvas.Snapshot())
      ensures outcome != Saved ==> history == old(history)
      ensures hasSpoken == old(hasSpoken)
    {
      canvasSet := true;
      outcome := SaveCanvasState();
    }

    /**
     * `handleUndo`: with the canvas, its context and a non-empty history, puts the last
     * snapshot back on the bitmap and drops it from the history; otherwise changes nothing.
     */
    method HandleUndo()
      requires Valid()
      modifies this`history, canvas.bitmap
      ensures Valid()
      ensures old(!canvasSet || history == [] || !canvas.hasContext) ==>
        history == old(history) && unchanged(canvas.bitmap)
      ensures old(canvasSet && history != [] && canvas.hasContext) ==>
        && canvas.Snapshot() == Overlay(old(canvas.Snapshot()), old(history[|history| - 1]))
        && history == old(history[..|history| - 1])
      ensures hasSpoken == old(hasSpoken) && canvasSet == old(canvasSet)
    {
      if !canvasSet || |history| == 0 {
        return;
      }
      if !canvas.hasContext {
        return;
      }
      var lastState := history[|history| - 1];
      canvas.PutImageData(lastState);
      PopDropsLast(history);
      history := Popped(history);
    }

    /**
     * `handleClear`: fills the whole bitmap with the background colour under the current
     * composite mode and empties the history; without the canvas or its context nothing
     * changes.
     */
    method HandleClear()
      requires Valid()
      modifies this`history, canvas`context, canvas.bitmap
      ensures Valid()
      ensures canvas.bitmap == old(canvas.bitmap) && canvas.path == old(canvas.path)
      ensures !(canvasSet && canvas.hasContext) ==>
        history == old(history) && unchanged(canvas) && unchanged(canvas.bitmap)
      ensures canvasSet && canvas.hasContext ==>
        && history == []
        && canvas.context == old(canvas.context).(fillStyle := BackgroundStyle)
        && canvas.Snapshot() == Filled(canvas.bitmap.Length0, canvas.bitmap.Length1,
                                       Paint(canvas.context.composite, BackgroundStyle))
      ensures hasSpoken == old(hasSpoken) && canvasSet == old(canvasSet)
    {
      if !canvasSet {
        return;
      }
      if !canvas.hasContext {
        return;
      }
      canvas.context := canvas.context.(fillStyle := BackgroundStyle);
      canvas.FillRect();
      history := [];
    }

    /** `handleTwist`: shows a twist prompt of the current word, drawn with `random` in [0, 1). */
    method HandleTwist(random: real)
      requires 0.0 <= random < 1.0
      modifies this`twistPrompt
      ensures twistPrompt == GameFlow.TwistPrompt(word, random)
      ensures twistPrompt in GameFlow.TwistPromptList(word)
      ensures history == old(history) && hasSpoken == old(hasSpoken) && isRecording == old(isRecording)
    {
      twistPrompt := GameFlow.TwistPrompt(word, random);
    }

    /**
     * `handleVoiceRecord`: without a speech recognition API the word counts as said at once;
     * with one, recognition starts and its events (`OnRecognitionStart`, `OnRecognitionEnd`,
     * `OnRecognitionResult`) update the flags later.
     */
    method HandleVoiceRecord(apiPresent: bool)
      modifies this`hasSpoken
      ensures !apiPresent ==> hasSpoken
      ensures apiPresent ==> hasSpoken == old(hasSpoken)
      ensures old(hasSpoken) ==> hasSpoken
      ensures isRecording == old(isRecording) && history == old(history)
    {
      if !apiPresent {
        hasSpoken := true;
        return;
      }
    }

    /** The recognition's start event: recording. */
    method OnRecognitionStart()
      modifies this`isRecording
      ensures isRecording && hasSpoken == old(hasSpoken) && history == old(history)
    {
      isRecording := true;
    }

    /** The recognition's end event: no longer recording, and the word counts as said. */
    method OnRecognitionEnd()
      modifies this`isRecording, this`hasSpoken
      ensures !isRecording && hasSpoken && history == old(history)
    {
      isRecording := false;
      hasSpoken := true;
    }

    /** The recognition's result event: the word counts as said. */
    method OnRecognitionResult()
      modifies this`hasSpoken
      ensures hasSpoken && isRecording == old(isRecording) && history == old(history)
    {
      hasSpoken := true;
    }

    /** A colour picked in the controls. */
    method SetColor(color: string)
      modifies this`currentColor
      ensures currentColor == color && history == old(history) && hasSpoken == old(hasSpoken)
    {
      currentColor := color;
    }
  }

  /**
   * Clearing while the eraser's mode is active leaves a transparent bitmap, not a
   * background-coloured one.
   */
  lemma ClearUnderEraserIsTransparent(width: nat, height: nat)
    ensures Filled(width, height, Paint(DestinationOut, BackgroundStyle)) == Filled(width, height, Transparent)
    ensures Filled(width, height, Paint(SourceOver, BackgroundStyle)) == Filled(width, height, Background)
  {
  }
}
