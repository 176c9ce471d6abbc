/** What one `getVerificationImage` call draws: the command list of the
    image, the answer, and when the call throws. */
module CaptchaProperties {
  import opened Outcomes
  import opened Randomness
  import opened Decimal
  import opened Canvas
  import opened Captcha
  import opened Equations
  import EquationProperties

  /** The glyph commands of a run over the first |gs| of `codes`, starting
      from origin x0: glyph i shows codes[i] at its jittered place, and each
      glyph's translate moved the origin right by 0 or 1 from the one before. */
  predicate GlyphsShow(fontBasisSize: int, x0: int, codes: seq<char>, gs: seq<Command>)
  {
    && |gs| <= |codes|
    && (forall i :: 0 <= i < |gs| ==> GlyphIn(fontBasisSize, i, codes[i], gs[i]))
    && (|gs| > 0 ==> x0 <= gs[0].originX <= x0 + 1)
    && (forall i :: 0 < i < |gs| ==> gs[i - 1].originX <= gs[i].originX <= gs[i - 1].originX + 1)
  }

  // ---------------------------------------------------------------------
  // drawString
  // ---------------------------------------------------------------------

  /** One more glyph, showing the next code in its place and at most one
      pixel right of the last origin, extends the run. */
  lemma GlyphsShowSnoc(fontBasisSize: int, x0: int, codes: seq<char>, gs: seq<Command>, g: Command)
    requires GlyphsShow(fontBasisSize, x0, codes, gs) && |gs| < |codes|
    requires GlyphIn(fontBasisSize, |gs|, codes[|gs|], g)
    requires var last := if |gs| == 0 then x0 else gs[|gs| - 1].originX;
      last <= g.originX <= last + 1
    ensures GlyphsShow(fontBasisSize, x0, codes, gs + [g])
  {
    var gs' := gs + [g];
    forall i | 0 <= i < |gs'|
      ensures GlyphIn(fontBasisSize, i, codes[i], gs'[i])
    {
      if i < |gs| {
        assert gs'[i] == gs[i];
      }
    }
    forall i | 0 < i < |gs'|
      ensures gs'[i - 1].originX <= gs'[i].originX <= gs'[i - 1].originX + 1
    {
      if i < |gs| {
        assert gs'[i - 1] == gs[i - 1] && gs'[i] == gs[i];
      }
    }
  }

  /** Drawing n codes appends exactly n commands and keeps what was drawn
      before; the vertical origin never moves. */
  lemma {:induction false} GlyphRunGrows(fontBasisSize: int, pen: Pen, codes: seq<char>, n: nat, s: Stream, p: nat)
    requires n <= |codes|
    ensures var r, m := GlyphRun(fontBasisSize, pen, codes, n, s, p), |pen.commands|;
      && |r.commands| == m + n && r.commands[..m] == pen.commands
      && r.originY == pen.originY
      && (n == 0 ==> r == pen)
      && (n > 0 ==> r.originX == r.commands[m + n - 1].originX)
  {
    if n > 0 {
      var m := |pen.commands|;
      var prev := GlyphRun(fontBasisSize, pen, codes, n - 1, s, p);
      GlyphRunGrows(fontBasisSize, pen, codes, n - 1, s, p);
      var r := GlyphAt(fontBasisSize, prev, codes[n - 1], n - 1, s, p + 7 * (n - 1));
      assert r.commands[..m] == r.commands[..m + n - 1][..m];
    }
  }

  /** A context that appended glyph i in its place, at most one pixel right of
      the previous origin, extends the run of glyphs after position m. */
  lemma GlyphStep(fontBasisSize: int, x0: int, codes: seq<char>, m: nat, prev: Pen, next: Pen)
    requires |prev.commands| - m < |codes| && |prev.commands| >= m
    requires GlyphsShow(fontBasisSize, x0, codes, prev.commands[m..])
    requires prev.originX == if |prev.commands| == m then x0 else prev.commands[|prev.commands| - 1].originX
    requires |next.commands| == |prev.commands| + 1 && next.commands[..|prev.commands|] == prev.commands
    requires GlyphIn(fontBasisSize, |prev.commands| - m, codes[|prev.commands| - m], next.commands[|prev.commands|])
    requires prev.originX <= next.commands[|prev.commands|].originX <= prev.originX + 1
    ensures GlyphsShow(fontBasisSize, x0, codes, next.commands[m..])
  {
    var before, n := prev.commands[m..], |prev.commands|;
    assert next.commands[m..] == before + [next.commands[n]];
    if n > m {
      assert before[n - m - 1] == prev.commands[n - 1];
    }
    GlyphsShowSnoc(fontBasisSize, x0, codes, before, next.commands[n]);
  }

  /** The commands `drawString` appends for the first n codes are n glyphs
      showing those codes in order, each in its place, with the origin
      creeping right by at most one pixel per glyph. */
  lemma {:induction false} GlyphRunShape(fontBasisSize: int, pen: Pen, codes: seq<char>, n: nat, s: Stream, p: nat)
    requires n <= |codes|
    ensures var r, m := GlyphRun(fontBasisSize, pen, codes, n, s, p), |pen.commands|;
      |r.commands| == m + n && GlyphsShow(fontBasisSize, pen.originX, codes, r.commands[m..])
  {
    GlyphRunGrows(fontBasisSize, pen, codes, n, s, p);
    var m := |pen.commands|;
    if n == 0 {
      assert GlyphRun(fontBasisSize, pen, codes, n, s, p).commands[m..] == [];
    } else {
      var prev := GlyphRun(fontBasisSize, pen, codes, n - 1, s, p);
      GlyphRunGrows(fontBasisSize, pen, codes, n - 1, s, p);
      GlyphRunShape(fontBasisSize, pen, codes, n - 1, s, p);
      var next := GlyphAt(fontBasisSize, prev, codes[n - 1], n - 1, s, p + 7 * (n - 1));
      GlyphStep(fontBasisSize, pen.originX, codes, m, prev, next);
    }
  }

  // ---------------------------------------------------------------------
  // The noise loop
  // ---------------------------------------------------------------------

  /** `drawLine` throws exactly when one of its `nextInt` bounds is not
      positive, having used at most five draws; otherwise it uses six and
      appends one line, in the current colour, that starts inside the image
      and ends short of twice its size, and changes nothing else. */
  lemma LineAtShape(width: int, height: int, pen: Pen, s: Stream, p: nat)
    ensures var r := LineAt(width, height, pen, s, p);
      r.out.Failure? <==>
        width <= 0 || height <= 0
        || Draw(s, p, width) + Draw(s, p + 2, width) == 0
        || Draw(s, p + 1, height) + Draw(s, p + 4, height) == 0
    ensures var r := LineAt(width, height, pen, s, p);
      r.out.Failure? ==> r.out.error == IllegalArgument && p <= r.pos < p + 6
    ensures var r, n := LineAt(width, height, pen, s, p), |pen.commands|;
      r.out.Success? ==>
        && r.pos == p + 6
        && |r.out.value.commands| == n + 1 && r.out.value.commands[..n] == pen.commands
        && LineIn(width, height, r.out.value.commands[n]) && r.out.value.commands[n].paint == pen.paint
        && r.out.value.(commands := pen.commands) == pen
  {
  }

  /** n noise turns that all succeed append exactly n lines inside their
      bounds, each in a subdued colour, use nine draws each, and leave font and origin alone; a turn
      can only fail on a non-positive `nextInt` bound. */
  lemma {:induction false} NoiseLinesShape(width: int, height: int, pen: Pen, n: nat, s: Stream, p: nat)
    ensures var r := NoiseLines(width, height, pen, n, s, p);
      r.out.Failure? ==> r.out.error == IllegalArgument
    ensures var r, m := NoiseLines(width, height, pen, n, s, p), |pen.commands|;
      r.out.Success? ==>
        && r.pos == p + 9 * n
        && |r.out.value.commands| == m + n && r.out.value.commands[..m] == pen.commands
        && (forall i :: m <= i < m + n ==> NoiseLineIn(width, height, r.out.value.commands[i]))
        && r.out.value.font == pen.font
        && r.out.value.originX == pen.originX && r.out.value.originY == pen.originY
  {
    if n > 0 {
      var m := |pen.commands|;
      NoiseLinesShape(width, height, pen, n - 1, s, p);
      var prev := NoiseLines(width, height, pen, n - 1, s, p);
      if prev.out.Success? {
        var q := prev.out.value;
        var r := NoiseLineAt(width, height, q, s, prev.pos);
        LineAtShape(width, height, q.(paint := RandColorAt(s, prev.pos)), s, prev.pos + 3);
        if r.out.Success? {
          var cs := r.out.value.commands;
          assert cs[..m + n - 1] == q.commands;
          assert cs[..m] == q.commands[..m];
          forall i | m <= i < m + n
            ensures NoiseLineIn(width, height, cs[i])
          {
            if i < m + n - 1 {
              assert cs[i] == q.commands[i];
            }
          }
        }
      }
    }
  }

  /** A context reached by n successful noise turns, then recoloured, still
      has the starting font and origin and extends the starting commands. */
  lemma NoiseLinesKeep(width: int, height: int, pen: Pen, n: nat, s: Stream, p: nat, q: Pen, pos: nat, c: Paint)
    requires NoiseLines(width, height, pen, n, s, p) == Drawn(Success(q), pos)
    ensures q.(paint := c).font == pen.font
    ensures q.(paint := c).originX == pen.originX && q.(paint := c).originY == pen.originY
    ensures pen.commands <= q.(paint := c).commands
  {
    NoiseLinesShape(width, height, pen, n, s, p);
  }

  // ---------------------------------------------------------------------
  // getVerificationImage
  // ---------------------------------------------------------------------

  /** The context the noise loop starts from. */
  function NoisePen(c: Settings): Pen
  {
    Background(c).(font := BasisFont(c.fontBasisSize))
  }

  /** A successful CHAR call, step by step: the noise loop and `getCharCode`
      both succeed, and the image holds what `drawString` then draws. */
  lemma CharImageSteps(c: Settings, s: Stream, p: nat)
    requires c.codeType == Some(Char) && ImageAt(c, s, p).out.Success?
    ensures var lines := NoiseLines(c.width, c.height, NoisePen(c), LineTurns(c.lineCount), s, p);
      && lines.out.Success?
      && var codes := CharCodeAt(c.codeChars, c.codeSize, s, lines.pos);
      && codes.out.Success?
      && ImageAt(c, s, p).out.value == VerificationImage(
           Image(c.width, c.height, GlyphRun(c.fontBasisSize, lines.out.value, codes.out.value, |codes.out.value|, s, codes.pos).commands),
           codes.out.value)
  {
  }

  /** What a CHAR image holds: after the background fill come exactly
      max(lineCount, 0) noise lines, each in a subdued colour, and then one glyph per answer character,
      in order; the answer has codeSize characters, all from codeChars. */
  predicate CharPicture(c: Settings, v: VerificationImage)
  {
    var m := LineTurns(c.lineCount);
    && v.image.width == c.width && v.image.height == c.height
    && |v.rightCode| == c.codeSize
    && |v.image.commands| == 1 + m + c.codeSize
    && v.image.commands[0] == Fill(0, 0, c.width, c.height, DefaultPaint, 0, 0)
    && (forall i :: 1 <= i <= m ==> NoiseLineIn(c.width, c.height, v.image.commands[i]))
    && GlyphsShow(c.fontBasisSize, 0, v.rightCode, v.image.commands[1 + m..])
    && (c.codeSize > 0 ==> c.codeChars.Some? && forall ch :: ch in v.rightCode ==> ch in c.codeChars.value)
  }

  /** The command list of a CHAR image: the fill, m lines, then the glyphs. */
  lemma CharLayout(width: int, height: int, fontBasisSize: int, fill: Command, m: nat, q: Pen, codes: seq<char>, r: Pen)
    requires |q.commands| == 1 + m && q.commands[0] == fill && q.originX == 0
    requires forall i :: 1 <= i < 1 + m ==> NoiseLineIn(width, height, q.commands[i])
    requires |r.commands| == 1 + m + |codes| && r.commands[..1 + m] == q.commands
    requires GlyphsShow(fontBasisSize, 0, codes, r.commands[1 + m..])
    ensures r.commands[0] == fill
    ensures forall i :: 1 <= i <= m ==> NoiseLineIn(width, height, r.commands[i])
  {
    assert r.commands[0] == r.commands[..1 + m][0];
    forall i | 1 <= i <= m
      ensures NoiseLineIn(width, height, r.commands[i])
    {
      assert r.commands[i] == r.commands[..1 + m][i];
    }
  }

  /** The noise loop, `getCharCode` and `drawString`, run one after the other
      with success, make a CHAR picture. */
  lemma CharPictureSteps(c: Settings, s: Stream, p: nat)
    requires var lines := NoiseLines(c.width, c.height, NoisePen(c), LineTurns(c.lineCount), s, p);
      && lines.out.Success?
      && CharCodeAt(c.codeChars, c.codeSize, s, lines.pos).out.Success?
    ensures var lines := NoiseLines(c.width, c.height, NoisePen(c), LineTurns(c.lineCount), s, p);
      var codes := CharCodeAt(c.codeChars, c.codeSize, s, lines.pos);
      CharPicture(c, VerificationImage(
        Image(c.width, c.height, GlyphRun(c.fontBasisSize, lines.out.value, codes.out.value, |codes.out.value|, s, codes.pos).commands),
        codes.out.value))
  {
    var m := LineTurns(c.lineCount);
    NoiseLinesShape(c.width, c.height, NoisePen(c), m, s, p);
    var lines := NoiseLines(c.width, c.height, NoisePen(c), m, s, p);
    var q := lines.out.value;
    var codes := CharCodeAt(c.codeChars, c.codeSize, s, lines.pos);
    var cs := codes.out.value;
    GlyphRunGrows(c.fontBasisSize, q, cs, |cs|, s, codes.pos);
    GlyphRunShape(c.fontBasisSize, q, cs, |cs|, s, codes.pos);
    var r := GlyphRun(c.fontBasisSize, q, cs, |cs|, s, codes.pos);
    CharLayout(c.width, c.height, c.fontBasisSize, Fill(0, 0, c.width, c.height, DefaultPaint, 0, 0), m, q, cs, r);
  }

  /** The CHAR branch: every successful CHAR image is a CHAR picture. */
  lemma CharImage(c: Settings, s: Stream, p: nat)
    requires c.codeType == Some(Char) && ImageAt(c, s, p).out.Success?
    ensures CharPicture(c, ImageAt(c, s, p).out.value)
  {
    CharImageSteps(c, s, p);
    CharPictureSteps(c, s, p);
  }

  /** A successful EQUATION call, step by step: there is an operator, the
      equation builder succeeds, and the image holds what `drawString` then
      draws of its expression. */
  lemma EquationImageSteps(c: Settings, s: Stream, p: nat)
    requires c.codeType == Some(Arithmetic) && ImageAt(c, s, p).out.Success?
    ensures c.operatorCount >= 1
    ensures var eq := EquationAt(c.operatorCount, s, p);
      && eq.out.Success?
      && ImageAt(c, s, p).out.value == VerificationImage(
           Image(c.width, c.height, GlyphRun(c.fontBasisSize, Background(c), eq.out.value.expression, |eq.out.value.expression|, s, eq.pos).commands),
           IntToString(eq.out.value.result))
  {
    EquationProperties.EquationOutcome(c.operatorCount, s, p);
  }

  /** What an EQUATION image of equation q holds: no noise at all; after the
      fill come the glyphs of the expression, 2k + 1 of them for k operators,
      and the answer is the decimal string of the evaluator's result, which
      reads back as it. */
  predicate EquationPicture(c: Settings, q: Equation, v: VerificationImage)
  {
    && c.operatorCount >= 1
    && v.image.width == c.width && v.image.height == c.height
    && |v.image.commands| == 2 + 2 * c.operatorCount
    && v.image.commands[0] == Fill(0, 0, c.width, c.height, DefaultPaint, 0, 0)
    && GlyphsShow(c.fontBasisSize, 0, q.expression, v.image.commands[1..])
    && v.rightCode == IntToString(q.result)
    && ParseDecimal(v.rightCode) == Some(q.result)
  }

  /** `drawString` over an expression of 2k + 1 characters, on the background,
      makes the picture of its equation. */
  lemma ExpressionPicture(c: Settings, q: Equation, s: Stream, p: nat)
    requires c.operatorCount >= 1 && |q.expression| == 2 * c.operatorCount + 1
    ensures EquationPicture(c, q, VerificationImage(
      Image(c.width, c.height, GlyphRun(c.fontBasisSize, Background(c), q.expression, |q.expression|, s, p).commands),
      IntToString(q.result)))
  {
    GlyphRunGrows(c.fontBasisSize, Background(c), q.expression, |q.expression|, s, p);
    GlyphRunShape(c.fontBasisSize, Background(c), q.expression, |q.expression|, s, p);
    IntToStringRoundTrip(q.result);
  }

  /** The equation builder followed by `drawString` makes an EQUATION picture. */
  lemma EquationPictureSteps(c: Settings, s: Stream, p: nat)
    requires c.operatorCount >= 1
    ensures var eq := EquationAt(c.operatorCount, s, p);
      && eq.out.Success?
      && EquationPicture(c, eq.out.value, VerificationImage(
           Image(c.width, c.height, GlyphRun(c.fontBasisSize, Background(c), eq.out.value.expression, |eq.out.value.expression|, s, eq.pos).commands),
           IntToString(eq.out.value.result)))
  {
    EquationProperties.EquationShape(c.operatorCount, s, p);
    var eq := EquationAt(c.operatorCount, s, p);
    ExpressionPicture(c, eq.out.value, s, eq.pos);
  }

  /** The EQUATION branch: every successful EQUATION image is the picture of
      the equation built from the same draws. */
  lemma EquationImage(c: Settings, s: Stream, p: nat)
    requires c.codeType == Some(Arithmetic) && ImageAt(c, s, p).out.Success?
    ensures c.operatorCount >= 1 && EquationAt(c.operatorCount, s, p).out.Success?
    ensures EquationPicture(c, EquationAt(c.operatorCount, s, p).out.value, ImageAt(c, s, p).out.value)
  {
    EquationImageSteps(c, s, p);
    EquationPictureSteps(c, s, p);
  }

  /** When the call throws before any glyph: a non-positive size throws in the
      image constructor, a null code type in `drawString`, both before any
      draw. An EQUATION call succeeds exactly when the size is positive and
      there is at least one operator; a CHAR call without noise succeeds
      exactly when codeSize is 0, or positive with a non-empty codeChars. */
  lemma ImageOutcome(c: Settings, s: Stream, p: nat)
    ensures c.width <= 0 || c.height <= 0 ==> ImageAt(c, s, p) == Drawn(Failure(IllegalArgument), p)
    ensures c.width > 0 && c.height > 0 && c.codeType.None? ==> ImageAt(c, s, p) == Drawn(Failure(NullPointer), p)
    ensures c.codeType == Some(Arithmetic) ==>
      (ImageAt(c, s, p).out.Success? <==> c.width > 0 && c.height > 0 && c.operatorCount >= 1)
    ensures c.codeType == Some(Char) && c.lineCount <= 0 ==>
      (ImageAt(c, s, p).out.Success? <==>
        c.width > 0 && c.height > 0
        && (c.codeSize == 0 || (c.codeSize > 0 && c.codeChars.Some? && |c.codeChars.value| > 0)))
  {
    EquationProperties.EquationOutcome(c.operatorCount, s, p);
  }

  // ---------------------------------------------------------------------
  // The default settings
  // ---------------------------------------------------------------------

  /** With every default, an EQUATION image never fails: two operators, five
      glyphs after the fill. */
  lemma DefaultEquationImage(s: Stream, p: nat)
    ensures ImageAt(Defaults(Arithmetic), s, p).out.Success?
    ensures |ImageAt(Defaults(Arithmetic), s, p).out.value.image.commands| == 6
  {
    ImageOutcome(Defaults(Arithmetic), s, p);
    EquationImage(Defaults(Arithmetic), s, p);
  }

  /** With every default, a CHAR image can fail: when the first noise line
      draws x = 0 and then 0 for its inner bound, `nextInt(0)` throws. */
  lemma DefaultCharCanFail()
    ensures ImageAt(Defaults(Char), [], 0) == Drawn(Failure(IllegalArgument), 6)
  {
    var c := Defaults(Char);
    assert NoiseLines(c.width, c.height, NoisePen(c), 1, [], 0) == Drawn(Failure(IllegalArgument), 6);
    NoiseFailureSticks(c.width, c.height, NoisePen(c), 1, 15, [], 0);
  }

  /** With every default, a successful CHAR image has the fill, fifteen noise
      lines and four glyphs, and its answer is four characters of the default
      alphabet. */
  lemma DefaultCharImage(s: Stream, p: nat)
    requires ImageAt(Defaults(Char), s, p).out.Success?
    ensures var v := ImageAt(Defaults(Char), s, p).out.value;
      && |v.image.commands| == 20 && |v.rightCode| == 4
      && forall ch :: ch in v.rightCode ==> ch in DefaultCodeChars
    ensures CharPicture(Defaults(Char), ImageAt(Defaults(Char), s, p).out.value)
  {
    CharImage(Defaults(Char), s, p);
  }
}
