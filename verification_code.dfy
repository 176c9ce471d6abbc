/** VerificationCode: a configurable generator of image challenges. Every
    helper consumes draws from the shared random object; each method is
    specified by the plan function of the Captcha module it follows. */
module Generator {
  import opened Outcomes
  import opened Randomness
  import opened Decimal
  import opened Canvas
  import opened Captcha
  import Equations
  import CaptchaProperties

  class VerificationCode {
    var codeType: Option<CodeType>
    var codeChars: Option<string>
    var lineCount: int
    var codeSize: int
    var operatorCount: int
    var width: int
    var height: int
    var fontBasisSize: int
    /** The thread's random object, shared with the equation builder. */
    const random: Random

    /** The configuration fields, as a value. */
    function Config(): Settings
      reads this
    {
      Settings(codeType, codeChars, lineCount, codeSize, operatorCount, width, height, fontBasisSize)
    }

    /** `VerificationCode()`: a CHAR generator with every default. */
    constructor (random: Random)
      ensures Config() == Defaults(Char) && this.random == random
    {
      this.random := random;
      codeType := Some(Char);
      codeChars := Some(DefaultCodeChars);
      width := DefaultWidth;
      height := DefaultHeight;
      lineCount := DefaultLineCount;
      codeSize := DefaultCodeSize;
      operatorCount := DefaultOperatorCount;
      fontBasisSize := DefaultFontBasisSize;
    }

    /** `VerificationCode(type)`: rejects a null type, otherwise the defaults
        with that type. */
    static method OfType(t: Option<CodeType>, random: Random) returns (r: Result<VerificationCode>)
      ensures t.None? <==> r.Failure?
      ensures t.None? ==> r == Failure(NullPointer)
      ensures t.Some? ==> fresh(r.value) && r.value.Config() == Defaults(t.value) && r.value.random == random
    {
      if t.None? {
        return Failure(NullPointer);
      }
      var code := new VerificationCode(random);
      code.codeType := t;
      return Success(code);
    }

    // -------------------------------------------------------------------
    // Setters: each replaces one field and checks nothing
    // -------------------------------------------------------------------

    method SetCodeType(t: Option<CodeType>)
      modifies this
      ensures Config() == old(Config()).(codeType := t)
    {
      codeType := t;
    }

    method SetCodeChars(chars: Option<string>)
      modifies this
      ensures Config() == old(Config()).(codeChars := chars)
    {
      codeChars := chars;
    }

    method SetLineCount(n: int)
      modifies this
      ensures Config() == old(Config()).(lineCount := n)
    {
      lineCount := n;
    }

    method SetCodeSize(n: int)
      modifies this
      ensures Config() == old(Config()).(codeSize := n)
    {
      codeSize := n;
    }

    method SetOperatorCount(n: int)
      modifies this
      ensures Config() == old(Config()).(operatorCount := n)
    {
      operatorCount := n;
    }

    method SetWidth(n: int)
      modifies this
      ensures Config() == old(Config()).(width := n)
    {
      width := n;
    }

    method SetHeight(n: int)
      modifies this
      ensures Config() == old(Config()).(height := n)
    {
      height := n;
    }

    method SetFontBasisSize(n: int)
      modifies this
      ensures Config() == old(Config()).(fontBasisSize := n)
    {
      fontBasisSize := n;
    }

    // -------------------------------------------------------------------
    // The drawing helpers
    // -------------------------------------------------------------------

    /** `getFont()`. */
    method GetFont() returns (f: Font)
      modifies random
      ensures f == FontAt(fontBasisSize, random.stream, old(random.pos))
      ensures random.pos == old(random.pos) + 1
    {
      var d := random.NextInt(6);
      return Font("Ffixedsys", CenterBaseline, fontBasisSize + d.value);
    }

    /** `getRandColor()`. */
    method GetRandColor() returns (c: Paint)
      modifies random
      ensures c == RandColorAt(random.stream, old(random.pos))
      ensures random.pos == old(random.pos) + 3
    {
      var r := random.NextInt(ColorBound);
      var g := random.NextInt(ColorBound);
      var b := random.NextInt(ColorBound);
      return Rgb(r.value, g.value, b.value);
    }

    /** `drawLine(graphics)`. */
    method DrawLine(g: Graphics) returns (r: Result<()>)
      modifies random, g
      ensures Drawn(r.Replace(g.State()), random.pos)
           == LineAt(width, height, old(g.State()), random.stream, old(random.pos))
      ensures r.Failure? ==> g.State() == old(g.State())
      ensures g.font == old(g.font) && g.originX == old(g.originX) && g.originY == old(g.originY)
      ensures old(g.commands) <= g.commands
    {
      var x :- random.NextInt(width);
      var y :- random.NextInt(height);
      var boundX := random.NextInt(width);
      var x1 :- random.NextInt(x + boundX.value);
      var boundY := random.NextInt(height);
      var y1 :- random.NextInt(y + boundY.value);
      g.DrawLine(x, y, x1, y1);
      return Success(());
    }

    /** One turn of `drawString`'s loop: code i in a fresh font and colour,
        after a random shift of the origin. */
    method DrawGlyph(g: Graphics, code: char, i: int)
      modifies random, g
      ensures random.pos == old(random.pos) + 7
      ensures g.State() == GlyphAt(fontBasisSize, old(g.State()), code, i, random.stream, old(random.pos))
    {
      var font := GetFont();
      g.SetFont(font);
      var color := GetRandColor();
      g.SetColor(color);
      var t := random.NextInt(2);
      g.Translate(t.value, 0);
      var dx := random.NextInt(2);
      var dy := random.NextInt(8);
      g.DrawString(code, fontBasisSize * i + dx.value, 20 + dy.value);
    }

    /** `drawString(graphics, codes)`: a null `codes` throws on its length. */
    method DrawString(g: Graphics, codes: Option<seq<char>>) returns (r: Result<()>)
      modifies random, g
      ensures codes.None? ==> r == Failure(NullPointer) && random.pos == old(random.pos) && g.State() == old(g.State())
      ensures codes.Some? ==> r.Success? && random.pos == old(random.pos) + 7 * |codes.value|
      ensures codes.Some? ==> g.State() == GlyphRun(fontBasisSize, old(g.State()), codes.value, |codes.value|, random.stream, old(random.pos))
    {
      if codes.None? {
        return Failure(NullPointer);
      }
      var cs := codes.value;
      ghost var pen, p := g.State(), random.pos;
      for i := 0 to |cs|
        invariant random.pos == p + 7 * i
        invariant g.State() == GlyphRun(fontBasisSize, pen, cs, i, random.stream, p)
      {
        DrawGlyph(g, cs[i], i);
      }
      return Success(());
    }

    /** `getCharCode(codeLength)`: fills a char array with draws from `codeChars`. */
    method GetCharCode(codeLength: int) returns (r: Result<seq<char>>)
      modifies random
      ensures Drawn(r, random.pos) == CharCodeAt(codeChars, codeLength, random.stream, old(random.pos))
    {
      if codeLength < 0 {
        return Failure(NegativeArraySize);
      }
      var codes := new char[codeLength];
      ghost var p := random.pos;
      for i := 0 to codeLength
        invariant random.pos == p + i
        invariant i > 0 ==> codeChars.Some? && |codeChars.value| > 0
        invariant i > 0 ==> codes[..i] == DrawnChars(codeChars.value, random.stream, p, i)
      {
        if codeChars.None? {
          return Failure(NullPointer);
        }
        var d :- random.NextInt(|codeChars.value|);
        codes[i] := codeChars.value[d];
        assert codes[..i + 1] == codes[..i] + [codes[i]];
      }
      assert codes[..] == codes[..codeLength];
      return Success(codes[..]);
    }

    // -------------------------------------------------------------------
    // getVerificationImage
    // -------------------------------------------------------------------

    /** One turn of the noise loop: a random colour, then a line in it. */
    method DrawNoiseLine(g: Graphics) returns (r: Result<()>)
      modifies random, g
      ensures Drawn(r.Replace(g.State()), random.pos) == NoiseLineAt(width, height, old(g.State()), random.stream, old(random.pos))
      ensures r.Failure? ==> g.State() == old(g.State()).(paint := RandColorAt(random.stream, old(random.pos)))
      ensures g.font == old(g.font) && g.originX == old(g.originX) && g.originY == old(g.originY)
      ensures old(g.commands) <= g.commands
    {
      var color := GetRandColor();
      g.SetColor(color);
      r := DrawLine(g);
    }

    /** The noise loop of `getVerificationImage`: lineCount turns of a random
        colour and a line; a throwing turn ends the call. */
    method DrawNoise(g: Graphics) returns (r: Result<()>)
      modifies random, g
      ensures Drawn(r.Replace(g.State()), random.pos)
           == NoiseLines(width, height, old(g.State()), LineTurns(lineCount), random.stream, old(random.pos))
      ensures r.Failure? ==>
        && g.font == old(g.font) && g.originX == old(g.originX) && g.originY == old(g.originY)
        && old(g.commands) <= g.commands
    {
      ghost var pen, p := g.State(), random.pos;
      ghost var count := LineTurns(lineCount);
      var i := 0;
      while i < lineCount
        invariant 0 <= i <= count
        invariant NoiseLines(width, height, pen, i, random.stream, p) == Drawn(Success(g.State()), random.pos)
      {
        ghost var before, at := g.State(), random.pos;
        var done := DrawNoiseLine(g);
        NoiseLinesNext(width, height, pen, i, random.stream, p, before, at);
        if done.Failure? {
          CaptchaProperties.NoiseLinesKeep(width, height, pen, i, random.stream, p, before, at, RandColorAt(random.stream, at));
          NoiseFailureSticks(width, height, pen, i + 1, count, random.stream, p);
          return Failure(done.error);
        }
        i := i + 1;
      }
      return Success(());
    }

    /** `getVerificationImage()`. */
    method GetVerificationImage() returns (r: Result<VerificationImage>)
      modifies random
      ensures Drawn(r, random.pos) == ImageAt(Config(), random.stream, old(random.pos))
    {
      if width <= 0 || height <= 0 {
        return Failure(IllegalArgument);
      }
      var g := new Graphics();
      g.FillRect(0, 0, width, height);
      g.SetFont(BasisFont(fontBasisSize));
      ghost var pen, p := g.State(), random.pos;
      assert pen == Background(Config());
      var codes: Option<seq<char>> := None;
      var rightCode: string := "";
      if codeType == Some(Char) {
        g.SetFont(BasisFont(fontBasisSize));
        var noise := DrawNoise(g);
        if noise.Failure? {
          return Failure(noise.error);
        }
        var cs :- GetCharCode(codeSize);
        codes, rightCode := Some(cs), cs;
      } else if codeType == Some(Arithmetic) {
        var equation :- Equations.GetEquation(random, operatorCount);
        codes, rightCode := Some(equation.expression), IntToString(equation.result);
      }
      ghost var ch := ChallengeAt(Config(), pen, random.stream, p);
      if codeType.Some? {
        assert ch.out.Success? && ch.pos == random.pos && codes == Some(ch.out.value.codes);
        assert rightCode == ch.out.value.rightCode && g.State() == ch.out.value.pen;
      }
      var drawn :- DrawString(g, codes);
      return Success(VerificationImage(Image(width, height, g.commands), rightCode));
    }
  }
}
