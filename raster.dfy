/**
 * The pixels of a 2-D canvas and the whole-image operations the drawing surface uses, at the
 * level of detail the game needs: a pixel is the game's background colour, fully
 * transparent, or painted with a CSS colour. Images are stored column by column:
 * `columns[x][y]` is the pixel at (x, y).
 */
module Raster {

  /** The colour the drawing surface is filled with. */
  const BackgroundStyle: string := "#fef9f3"

  datatype Pixel = Background | Transparent | Color(css: string)

  /** `globalCompositeOperation`, restricted to the two values the game sets. */
  datatype Composite = SourceOver | DestinationOut

  /**
   * What an opaque fill or stroke of colour `style` leaves in a pixel it covers: under
   * `source-over` the colour itself, under `destination-out` a transparent pixel whatever
   * the colour.
   */
  function Paint(composite: Composite, style: string): Pixel
  {
    match composite
    case DestinationOut => Transparent
    case SourceOver => if style == BackgroundStyle then Background else Color(style)
  }

  /** The result of `getImageData` and the argument of `putImageData`. */
  datatype Image = Image(width: nat, height: nat, columns: seq<seq<Pixel>>)

  /** The columns have the image's dimensions. */
  ghost predicate Shaped(img: Image)
  {
    |img.columns| == img.width && forall x :: 0 <= x < img.width ==> |img.columns[x]| == img.height
  }

  /** The pixel at (x, y). */
  function At(img: Image, x: int, y: int): Pixel
    requires Shaped(img) && 0 <= x < img.width && 0 <= y < img.height
  {
    img.columns[x][y]
  }

  /** Two images of the same shape that agree at every pixel are equal. */
  lemma SamePixels(a: Image, b: Image)
    requires Shaped(a) && Shaped(b) && a.width == b.width && a.height == b.height
    requires forall x, y :: 0 <= x < a.width && 0 <= y < a.height ==> At(a, x, y) == At(b, x, y)
    ensures a == b
  {
    forall x | 0 <= x < a.width
      ensures a.columns[x] == b.columns[x]
    {
      assert forall y :: 0 <= y < a.height ==> a.columns[x][y] == At(a, x, y);
    }
  }

  /** A `width` by `height` image every pixel of which is `p`. */
  function Filled(width: nat, height: nat, p: Pixel): (img: Image)
    ensures Shaped(img) && img.width == width && img.height == height
    ensures forall x, y :: 0 <= x < width && 0 <= y < height ==> At(img, x, y) == p
  {
    Image(width, height, seq(width, _ => seq(height, _ => p)))
  }

  /**
   * `putImageData(top, 0, 0)` on `base`: the pixels `top` covers are replaced, compositing
   * and alpha aside, and the part of `top` outside `base` is clipped.
   */
  function Overlay(base: Image, top: Image): (img: Image)
    requires Shaped(base) && Shaped(top)
    ensures Shaped(img) && img.width == base.width && img.height == base.height
  {
    Image(base.width, base.height,
      seq(base.width, x requires 0 <= x < base.width =>
        seq(base.height, y requires 0 <= y < base.height =>
          if x < top.width && y < top.height then top.columns[x][y] else base.columns[x][y])))
  }

  /** The pixels of an overlay: `top` where it reaches, `base` elsewhere. */
  lemma OverlayAt(base: Image, top: Image, x: int, y: int)
    requires Shaped(base) && Shaped(top) && 0 <= x < base.width && 0 <= y < base.height
    ensures At(Overlay(base, top), x, y)
         == if x < top.width && y < top.height then At(top, x, y) else At(base, x, y)
  {
  }

  /**
   * The image a resize leaves: a `width` by `height` background with the old image put back
   * at the origin.
   */
  function Resized(before: Image, width: nat, height: nat): Image
    requires Shaped(before)
  {
    Overlay(Filled(width, height, Background), before)
  }

  /**
   * A resize takes the new dimensions, keeps every pixel inside both the old and the new
   * bounds, and makes every other pixel background.
   */
  lemma ResizeKeepsOverlap(before: Image, width: nat, height: nat)
    requires Shaped(before)
    ensures Shaped(Resized(before, width, height))
    ensures Resized(before, width, height).width == width && Resized(before, width, height).height == height
    ensures forall x, y :: 0 <= x < width && 0 <= y < height ==>
      At(Resized(before, width, height), x, y)
        == if x < before.width && y < before.height then At(before, x, y) else Background
  {
    forall x, y | 0 <= x < width && 0 <= y < height
      ensures At(Resized(before, width, height), x, y)
           == if x < before.width && y < before.height then At(before, x, y) else Background
    {
      OverlayAt(Filled(width, height, Background), before, x, y);
    }
  }

  /** With nothing to restore (an old width of 0) the new bitmap is all background. */
  lemma ResizeFromNothing(before: Image, width: nat, height: nat)
    requires Shaped(before) && before.width == 0
    ensures Resized(before, width, height) == Filled(width, height, Background)
  {
    ResizeKeepsOverlap(before, width, height);
    SamePixels(Resized(before, width, height), Filled(width, height, Background));
  }

  /** Growing the surface and shrinking it back restores the drawing exactly. */
  lemma GrowThenShrink(img: Image, width: nat, height: nat)
    requires Shaped(img) && img.width <= width && img.height <= height
    ensures Resized(Resized(img, width, height), img.width, img.height) == img
  {
    var grown := Resized(img, width, height);
    ResizeKeepsOverlap(img, width, height);
    ResizeKeepsOverlap(grown, img.width, img.height);
    SamePixels(Resized(grown, img.width, img.height), img);
  }

  /** The image left by painting pixel `p` over the pixels in `covered`. */
  function Stroked(img: Image, covered: set<(int, int)>, p: Pixel): (r: Image)
    requires Shaped(img)
    ensures Shaped(r) && r.width == img.width && r.height == img.height
  {
    Image(img.width, img.height,
      seq(img.width, x requires 0 <= x < img.width =>
        seq(img.height, y requires 0 <= y < img.height =>
          if (x, y) in covered then p else img.columns[x][y])))
  }

  /**
   * A stroke changes exactly the covered pixels, and each of those to `p`; the pixels it
   * does not cover keep their value.
   */
  lemma StrokeChangesCovered(img: Image, covered: set<(int, int)>, p: Pixel, x: int, y: int)
    requires Shaped(img) && 0 <= x < img.width && 0 <= y < img.height
    ensures At(Stroked(img, covered, p), x, y) == if (x, y) in covered then p else At(img, x, y)
  {
  }

  /**
   * Stroking the same pixels twice leaves what stroking them once does: re-stroking the
   * whole path on every move adds nothing to the part already drawn.
   */
  lemma StrokeIdempotent(img: Image, covered: set<(int, int)>, p: Pixel)
    requires Shaped(img)
    ensures Stroked(Stroked(img, covered, p), covered, p) == Stroked(img, covered, p)
  {
    var once := Stroked(img, covered, p);
    forall x, y | 0 <= x < img.width && 0 <= y < img.height
      ensures At(Stroked(once, covered, p), x, y) == At(once, x, y)
    {
      StrokeChangesCovered(once, covered, p, x, y);
      StrokeChangesCovered(img, covered, p, x, y);
    }
    SamePixels(Stroked(once, covered, p), once);
  }

  /** The eraser, or a fill under the eraser's mode, leaves transparency, not background. */
  lemma DestinationOutClears(style: string)
    ensures Paint(DestinationOut, style) == Transparent
    ensures Paint(SourceOver, style) != Transparent
    ensures Paint(SourceOver, BackgroundStyle) == Background
  {
  }
}
