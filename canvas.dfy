/**
 * The part of a browser 2D drawing surface the certificate renderer uses:
 * its pixel size, the drawing state it sets before each draw (font, fill
 * colour, text alignment, clip regions, the save/restore stack), and a
 * log of the draws made, oldest first. Rasterisation is not modelled:
 * each draw is recorded together with the state it was made under.
 */
module Canvas {

  datatype TextAlign = Start | End | Left | Right | Center

  /** A CSS font as the renderer composes it: weight, size in pixels, family. */
  datatype Font = Font(weight: nat, sizePx: real, family: string)

  /** A circular clip region. */
  datatype Circle = Circle(cx: real, cy: real, radius: real)

  /** What an image draw paints: the background template (by URL) or the user's picture (by data URL). */
  datatype ImageSource = TemplateImage(url: string) | PictureImage(dataUrl: string)

  /** One draw, with the clip regions in force when it was made. */
  datatype Draw =
    | Image(source: ImageSource, x: real, y: real, w: real, h: real, clip: seq<Circle>)
    | FilledRect(color: string, x: real, y: real, w: real, h: real, clip: seq<Circle>)
    | Text(text: string, font: Font, color: string, align: TextAlign, x: real, y: real, clip: seq<Circle>)

  /** What save() pushes and restore() pops. */
  datatype DrawState = DrawState(font: Font, fillStyle: string, textAlign: TextAlign, clip: seq<Circle>)

  /** The size of a freshly created surface. */
  const DefaultWidth := 300
  const DefaultHeight := 150
  /** The drawing state of a fresh or resized surface. */
  const DefaultFont := Font(400, 10.0, "sans-serif")
  const DefaultFillStyle := "#000000"

  class Canvas2D {
    var width: int
    var height: int
    var font: Font
    var fillStyle: string
    var textAlign: TextAlign
    var clip: seq<Circle>
    var stack: seq<DrawState>
    var drawn: seq<Draw>

    /** Blank surface with the default drawing state and nothing drawn. */
    ghost predicate Pristine()
      reads this
    {
      && font == DefaultFont && fillStyle == DefaultFillStyle && textAlign == Start
      && clip == [] && stack == [] && drawn == []
    }

    constructor ()
      ensures width == DefaultWidth && height == DefaultHeight && Pristine()
    {
      width, height := DefaultWidth, DefaultHeight;
      font, fillStyle, textAlign := DefaultFont, DefaultFillStyle, Start;
      clip, stack, drawn := [], [], [];
    }

    /** Setting the surface's width and height clears it and resets the drawing state. */
    method SetSize(w: nat, h: nat)
      modifies this
      ensures width == w && height == h && Pristine()
    {
      width, height := w, h;
      font, fillStyle, textAlign := DefaultFont, DefaultFillStyle, Start;
      clip, stack, drawn := [], [], [];
    }

    method FillText(text: string, x: real, y: real)
      modifies this`drawn
      ensures drawn == old(drawn) + [Text(text, font, fillStyle, textAlign, x, y, clip)]
    {
      drawn := drawn + [Text(text, font, fillStyle, textAlign, x, y, clip)];
    }

    method FillRect(x: real, y: real, w: real, h: real)
      modifies this`drawn
      ensures drawn == old(drawn) + [FilledRect(fillStyle, x, y, w, h, clip)]
    {
      drawn := drawn + [FilledRect(fillStyle, x, y, w, h, clip)];
    }

    method DrawImage(source: ImageSource, x: real, y: real, w: real, h: real)
      modifies this`drawn
      ensures drawn == old(drawn) + [Image(source, x, y, w, h, clip)]
    {
      drawn := drawn + [Image(source, x, y, w, h, clip)];
    }

    method Save()
      modifies this`stack
      ensures stack == old(stack) + [DrawState(font, fillStyle, textAlign, clip)]
    {
      stack := stack + [DrawState(font, fillStyle, textAlign, clip)];
    }

    /** Traces a full circle and intersects the clip region with it. Tracing an
        arc of negative radius throws (IndexSizeError): `ok` is false and the
        clip is left as it was. */
    method ClipCircle(c: Circle) returns (ok: bool)
      modifies this`clip
      ensures ok <==> c.radius >= 0.0
      ensures clip == if ok then old(clip) + [c] else old(clip)
    {
      ok := c.radius >= 0.0;
      if ok {
        clip := clip + [c];
      }
    }

    /** Pops the most recently saved state; with nothing saved, nothing changes. */
    method Restore()
      modifies this`font, this`fillStyle, this`textAlign, this`clip, this`stack
      ensures old(stack) == [] ==>
        && stack == [] && font == old(font) && fillStyle == old(fillStyle)
        && textAlign == old(textAlign) && clip == old(clip)
      ensures old(stack) != [] ==>
        var top := old(stack)[|old(stack)| - 1];
        && stack == old(stack)[..|old(stack)| - 1]
        && font == top.font && fillStyle == top.fillStyle && textAlign == top.textAlign && clip == top.clip
    {
      if stack != [] {
        var top := stack[|stack| - 1];
        font, fillStyle, textAlign, clip := top.font, top.fillStyle, top.textAlign, top.clip;
        stack := stack[..|stack| - 1];
      }
    }
  }
}
