/** The challenge generator's configuration, its defaults, and what one call
    of `getVerificationImage` draws, as functions of the random stream. */
module Captcha {
  import opened Outcomes
  import opened Randomness
  import opened Decimal
  import opened Canvas
  import Equations

  /** CodeTypeEnum: a text challenge or an arithmetic one. */
  datatype CodeType = Char | Arithmetic

  /** The configuration fields of VerificationCode. The type and the
      characters are references that the setters may set to null. */
  datatype Settings = Settings(
    codeType: Option<CodeType>,
    codeChars: Option<string>,
    lineCount: int,
    codeSize: int,
    operatorCount: int,
    width: int,
    height: int,
    fontBasisSize: int)

  const DefaultCodeChars: string := "23456789ABCDEFGHJKLMNPQRSTUVWXYZ"
  const DefaultLineCount: int := 15
  const DefaultCodeSize: int := 4
  const DefaultOperatorCount: int := 2
  const DefaultWidth: int := 80
  const DefaultHeight: int := 30
  const DefaultFontBasisSize: int := 16

  /** COLOR_BOUND: channels stay below it, so no colour is too light. */
  const ColorBound: int := 210

  /** The settings both constructors install, for a given code type. */
  function Defaults(t: CodeType): Settings
  {
    Settings(Some(t), Some(DefaultCodeChars), DefaultLineCount, DefaultCodeSize,
             DefaultOperatorCount, DefaultWidth, DefaultHeight, DefaultFontBasisSize)
  }

  /** VerificationImage: the image and the answer a user must type. */
  datatype VerificationImage = VerificationImage(image: Image, rightCode: string)

  // ---------------------------------------------------------------------
  // The helpers, one random draw at a time
  // ---------------------------------------------------------------------

  /** A colour whose three channels lie in [0, COLOR_BOUND). */
  predicate Subdued(c: Paint)
  {
    c.Rgb? && 0 <= c.red < ColorBound && 0 <= c.green < ColorBound && 0 <= c.blue < ColorBound
  }

  /** A noise line that starts inside the image and ends short of twice its size. */
  predicate LineIn(width: int, height: int, c: Command)
  {
    && c.Line?
    && 0 <= c.x1 < width && 0 <= c.y1 < height
    && 0 <= c.x2 <= c.x1 + width - 2 && 0 <= c.y2 <= c.y1 + height - 2
  }

  /** A line of the noise loop: inside its bounds, in a subdued colour. */
  predicate NoiseLineIn(width: int, height: int, c: Command)
  {
    LineIn(width, height, c) && Subdued(c.paint)
  }

  /** Glyph i of a run: the given code, jittered by at most one pixel right of
      fontBasisSize * i, seven pixels below 20, at a size up to five points
      above the basis, in a subdued colour. */
  predicate GlyphIn(fontBasisSize: int, i: int, code: char, c: Command)
  {
    && c.Glyph? && c.code == code
    && fontBasisSize * i <= c.x <= fontBasisSize * i + 1
    && 20 <= c.y < 28
    && c.font.Font? && fontBasisSize <= c.font.size <= fontBasisSize + 5
    && Subdued(c.paint)
  }

  /** `getRandColor()` from position p: three draws below COLOR_BOUND. */
  function RandColorAt(s: Stream, p: nat): (c: Paint)
    ensures Subdued(c)
  {
    Rgb(Draw(s, p, ColorBound), Draw(s, p + 1, ColorBound), Draw(s, p + 2, ColorBound))
  }

  /** `getFont()` at position p: the basis size plus a draw below 6. */
  function FontAt(fontBasisSize: int, s: Stream, p: nat): (f: Font)
    ensures f.Font? && fontBasisSize <= f.size <= fontBasisSize + 5
  {
    Font("Ffixedsys", CenterBaseline, fontBasisSize + Draw(s, p, 6))
  }

  /** The font set before the challenge is chosen. */
  function BasisFont(fontBasisSize: int): Font
  {
    Font("Times New Roman", RomanBaseline, fontBasisSize)
  }

  /** `drawLine(graphics)` from position p. The draws, in Java's evaluation
      order: x, y, the inner bound draw for x1, x1, the inner bound draw for
      y1, y1. Each `nextInt` with a non-positive bound throws before drawing. */
  function LineAt(width: int, height: int, pen: Pen, s: Stream, p: nat): (r: Drawn<Pen>)
    ensures r.out.Failure? ==> r.out.error == IllegalArgument && p <= r.pos < p + 6
    ensures r.out.Success? ==> r.pos == p + 6 && |r.out.value.commands| == |pen.commands| + 1
  {
    if width <= 0 then Drawn(Failure(IllegalArgument), p)
    else
      var x := Draw(s, p, width);
      if height <= 0 then Drawn(Failure(IllegalArgument), p + 1)
      else
        var y := Draw(s, p + 1, height);
        var boundX := x + Draw(s, p + 2, width);
        if boundX <= 0 then Drawn(Failure(IllegalArgument), p + 3)
        else
          var x1 := Draw(s, p + 3, boundX);
          var boundY := y + Draw(s, p + 4, height);
          if boundY <= 0 then Drawn(Failure(IllegalArgument), p + 5)
          else
            var y1 := Draw(s, p + 5, boundY);
            Drawn(Success(pen.(commands := pen.commands + [Line(x, y, x1, y1, pen.paint, pen.originX, pen.originY)])), p + 6)
  }

  /** One turn of the noise loop from position p: a random colour, then a line. */
  function NoiseLineAt(width: int, height: int, pen: Pen, s: Stream, p: nat): Drawn<Pen>
  {
    LineAt(width, height, pen.(paint := RandColorAt(s, p)), s, p + 3)
  }

  /** The first n turns of the noise loop; the first failure ends it. */
  function NoiseLines(width: int, height: int, pen: Pen, n: nat, s: Stream, p: nat): (r: Drawn<Pen>)
    ensures r.out.Failure? ==> r.out.error == IllegalArgument
    ensures r.out.Success? ==> r.pos == p + 9 * n && |r.out.value.commands| == |pen.commands| + n
    decreases n
  {
    if n == 0 then Drawn(Success(pen), p)
    else
      var prev := NoiseLines(width, height, pen, n - 1, s, p);
      match prev.out
      case Failure(_) => prev
      case Success(q) => NoiseLineAt(width, height, q, s, prev.pos)
  }

  /** Turn n + 1 of the noise loop runs from where the first n left off. */
  lemma NoiseLinesNext(width: int, height: int, pen: Pen, n: nat, s: Stream, p: nat, q: Pen, pos: nat)
    requires NoiseLines(width, height, pen, n, s, p) == Drawn(Success(q), pos)
    ensures NoiseLines(width, height, pen, n + 1, s, p) == NoiseLineAt(width, height, q, s, pos)
  {
  }

  /** Once a noise line fails, later turns never run: the failure stands. */
  lemma {:induction false} NoiseFailureSticks(width: int, height: int, pen: Pen, i: nat, n: nat, s: Stream, p: nat)
    requires i <= n && NoiseLines(width, height, pen, i, s, p).out.Failure?
    ensures NoiseLines(width, height, pen, n, s, p) == NoiseLines(width, height, pen, i, s, p)
    decreases n
  {
    if n > i {
      NoiseFailureSticks(width, height, pen, i, n - 1, s, p);
    }
  }

  /** The first n characters `getCharCode` draws from `chars`, from position p. */
  function DrawnChars(chars: string, s: Stream, p: nat, n: nat): (r: seq<char>)
    requires |chars| > 0
    ensures |r| == n
    ensures forall c :: c in r ==> c in chars
    decreases n
  {
    if n == 0 then [] else DrawnChars(chars, s, p, n - 1) + [chars[Draw(s, p + n - 1, |chars|)]]
  }

  /** `getCharCode(n)` from position p. A negative length fails allocating;
      otherwise the first draw reads the characters, so a null string or an
      empty one (`nextInt(0)`) fails there, and only when n > 0. */
  function CharCodeAt(chars: Option<string>, n: int, s: Stream, p: nat): (r: Drawn<seq<char>>)
    ensures r.out.Success? <==> n == 0 || (n > 0 && chars.Some? && |chars.value| > 0)
    ensures r.out.Success? ==>
      && |r.out.value| == n && r.pos == p + n
      && (n > 0 ==> chars.Some? && forall c :: c in r.out.value ==> c in chars.value)
  {
    if n < 0 then Drawn(Failure(NegativeArraySize), p)
    else if n == 0 then Drawn(Success([]), p)
    else match chars
      case None => Drawn(Failure(NullPointer), p)
      case Some(cs) =>
        if |cs| == 0 then Drawn(Failure(IllegalArgument), p)
        else Drawn(Success(DrawnChars(cs, s, p, n)), p + n)
  }

  /** Glyph i of `drawString` from position p: a font, a colour, a translate
      draw, then the x and y jitter, seven draws in all. */
  function GlyphAt(fontBasisSize: int, pen: Pen, code: char, i: int, s: Stream, p: nat): (r: Pen)
    ensures |r.commands| == |pen.commands| + 1 && r.commands[..|pen.commands|] == pen.commands
    ensures GlyphIn(fontBasisSize, i, code, r.commands[|pen.commands|])
    ensures r.commands[|pen.commands|].originX == r.originX && r.commands[|pen.commands|].originY == r.originY
    ensures pen.originX <= r.originX <= pen.originX + 1 && r.originY == pen.originY
  {
    var font := FontAt(fontBasisSize, s, p);
    var paint := RandColorAt(s, p + 1);
    var originX := pen.originX + Draw(s, p + 4, 2);
    var x := fontBasisSize * i + Draw(s, p + 5, 2);
    var y := 20 + Draw(s, p + 6, 8);
    Pen(paint, font, originX, pen.originY, pen.commands + [Glyph(code, font, paint, x, y, originX, pen.originY)])
  }

  /** The context after `drawString` has drawn the first n codes from position p. */
  function GlyphRun(fontBasisSize: int, pen: Pen, codes: seq<char>, n: nat, s: Stream, p: nat): (r: Pen)
    requires n <= |codes|
    ensures |r.commands| == |pen.commands| + n && r.originY == pen.originY
  {
    if n == 0 then pen
    else GlyphAt(fontBasisSize, GlyphRun(fontBasisSize, pen, codes, n - 1, s, p), codes[n - 1], n - 1, s, p + 7 * (n - 1))
  }

  // ---------------------------------------------------------------------
  // getVerificationImage
  // ---------------------------------------------------------------------

  /** What the chosen branch hands to `drawString`: the context, the codes
      to draw and the answer. */
  datatype Challenge = Challenge(pen: Pen, codes: seq<char>, rightCode: string)

  /** The context after `fillRect(0, 0, width, height)` and the first `setFont`. */
  function Background(c: Settings): Pen
  {
    FreshPen.(font := BasisFont(c.fontBasisSize),
              commands := [Fill(0, 0, c.width, c.height, DefaultPaint, 0, 0)])
  }

  /** How many turns `for (int i = 0; i < lineCount; i++)` runs. */
  function LineTurns(lineCount: int): nat
  {
    if lineCount < 0 then 0 else lineCount
  }

  /** The CHAR branch: the noise lines, then the characters, which are the answer. */
  function CharChallengeAt(c: Settings, pen: Pen, s: Stream, p: nat): Drawn<Challenge>
  {
    var lines := NoiseLines(c.width, c.height, pen.(font := BasisFont(c.fontBasisSize)), LineTurns(c.lineCount), s, p);
    match lines.out
    case Failure(e) => Drawn(Failure(e), lines.pos)
    case Success(q) =>
      var codes := CharCodeAt(c.codeChars, c.codeSize, s, lines.pos);
      match codes.out
      case Failure(e) => Drawn(Failure(e), codes.pos)
      case Success(cs) => Drawn(Success(Challenge(q, cs, cs)), codes.pos)
  }

  /** The EQUATION branch: no noise; the expression is drawn and the answer is
      the decimal string of the evaluator's result. */
  function EquationChallengeAt(c: Settings, pen: Pen, s: Stream, p: nat): Drawn<Challenge>
  {
    var eq := Equations.EquationAt(c.operatorCount, s, p);
    match eq.out
    case Failure(e) => Drawn(Failure(e), eq.pos)
    case Success(q) => Drawn(Success(Challenge(pen, q.expression, IntToString(q.result))), eq.pos)
  }

  /** The branch on the code type; a null type leaves `codes` null, and
      `drawString` then throws on it. */
  function ChallengeAt(c: Settings, pen: Pen, s: Stream, p: nat): Drawn<Challenge>
  {
    match c.codeType
    case None => Drawn(Failure(NullPointer), p)
    case Some(Char) => CharChallengeAt(c, pen, s, p)
    case Some(Arithmetic) => EquationChallengeAt(c, pen, s, p)
  }

  /** `getVerificationImage()` from position p. A non-positive size fails
      creating the image, before any draw. */
  function ImageAt(c: Settings, s: Stream, p: nat): (r: Drawn<VerificationImage>)
    ensures r.out.Success? ==> c.width > 0 && c.height > 0 && c.codeType.Some?
    ensures r.out.Success? ==> r.out.value.image.width == c.width && r.out.value.image.height == c.height
  {
    if c.width <= 0 || c.height <= 0 then Drawn(Failure(IllegalArgument), p)
    else
      var ch := ChallengeAt(c, Background(c), s, p);
      match ch.out
      case Failure(e) => Drawn(Failure(e), ch.pos)
      case Success(q) =>
        var pen := GlyphRun(c.fontBasisSize, q.pen, q.codes, |q.codes|, s, ch.pos);
        Drawn(Success(VerificationImage(Image(c.width, c.height, pen.commands), q.rightCode)),
              ch.pos + 7 * |q.codes|)
  }
}
