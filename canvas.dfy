/** The drawing surface, as a recorder: instead of pixels, a graphics context
    keeps the list of drawing commands issued to it, each with the colour
    and translation in force when it was issued, and for glyphs the font. */
module Canvas {

  /** A colour: the context's initial one, or an RGB triple. */
  datatype Paint = DefaultPaint | Rgb(red: int, green: int, blue: int)

  /** `Font.ROMAN_BASELINE` and `Font.CENTER_BASELINE`, passed as the style argument. */
  const RomanBaseline: int := 0
  const CenterBaseline: int := 1

  /** A font: the context's initial one, or `new Font(name, style, size)`. */
  datatype Font = DefaultFont | Font(name: string, style: int, size: int)

  /** A drawing call, in user coordinates, with the origin it was drawn from. */
  datatype Command =
    | Fill(x: int, y: int, width: int, height: int, paint: Paint, originX: int, originY: int)
    | Line(x1: int, y1: int, x2: int, y2: int, paint: Paint, originX: int, originY: int)
    | Glyph(code: char, font: Font, paint: Paint, x: int, y: int, originX: int, originY: int)

  /** A rendered image: its size and the commands drawn on it, in order. */
  datatype Image = Image(width: int, height: int, commands: seq<Command>)

  /** The state of a graphics context, as a value. */
  datatype Pen = Pen(paint: Paint, font: Font, originX: int, originY: int, commands: seq<Command>)

  /** A fresh context: initial colour and font, no translation, nothing drawn. */
  const FreshPen: Pen := Pen(DefaultPaint, DefaultFont, 0, 0, [])

  /** `java.awt.Graphics` as the generator uses it. */
  class Graphics {
    var paint: Paint
    var font: Font
    var originX: int
    var originY: int
    var commands: seq<Command>

    function State(): Pen
      reads this
    {
      Pen(paint, font, originX, originY, commands)
    }

    /** `bufferedImage.getGraphics()`. */
    constructor ()
      ensures State() == FreshPen
    {
      paint, font, originX, originY, commands := DefaultPaint, DefaultFont, 0, 0, [];
    }

    /** `fillRect(x, y, width, height)` in the current colour. */
    method FillRect(x: int, y: int, width: int, height: int)
      modifies this
      ensures commands == old(commands) + [Fill(x, y, width, height, paint, originX, originY)]
      ensures paint == old(paint) && font == old(font) && originX == old(originX) && originY == old(originY)
    {
      commands := commands + [Fill(x, y, width, height, paint, originX, originY)];
    }

    /** `setColor(c)`: later commands use c. */
    method SetColor(c: Paint)
      modifies this
      ensures paint == c
      ensures font == old(font) && originX == old(originX) && originY == old(originY) && commands == old(commands)
    {
      paint := c;
    }

    /** `setFont(f)`: later glyphs use f. */
    method SetFont(f: Font)
      modifies this
      ensures font == f
      ensures paint == old(paint) && originX == old(originX) && originY == old(originY) && commands == old(commands)
    {
      font := f;
    }

    /** `translate(dx, dy)`: the origin moves by (dx, dy), cumulatively. */
    method Translate(dx: int, dy: int)
      modifies this
      ensures originX == old(originX) + dx && originY == old(originY) + dy
      ensures paint == old(paint) && font == old(font) && commands == old(commands)
    {
      originX, originY := originX + dx, originY + dy;
    }

    /** `drawLine(x1, y1, x2, y2)` in the current colour. */
    method DrawLine(x1: int, y1: int, x2: int, y2: int)
      modifies this
      ensures commands == old(commands) + [Line(x1, y1, x2, y2, paint, originX, originY)]
      ensures paint == old(paint) && font == old(font) && originX == old(originX) && originY == old(originY)
    {
      commands := commands + [Line(x1, y1, x2, y2, paint, originX, originY)];
    }

    /** `drawString(String.valueOf(code), x, y)` in the current colour and font. */
    method DrawString(code: char, x: int, y: int)
      modifies this
      ensures commands == old(commands) + [Glyph(code, font, paint, x, y, originX, originY)]
      ensures paint == old(paint) && font == old(font) && originX == old(originX) && originY == old(originY)
    {
      commands := commands + [Glyph(code, font, paint, x, y, originX, originY)];
    }
  }
}
