# verification-code in Dafny

A model of the CAPTCHA generator `top.lvjp.VerificationCode` and its arithmetic challenge builder `top.lvjp.Equation`. The model comes with proofs about both.

A generator is configured with a code type, a character set, a number of noise lines, a code length, a number of operators, an image size and a font basis size. `getVerificationImage` then draws:

- a CHAR challenge: noise lines, then `codeSize` characters from `codeChars`. The answer is those characters.
- an EQUATION challenge: `k + 1` digits and `k` operators from `+-x`. The answer is the decimal string of what the two-stack evaluator `getResult` makes of them.

Both kinds are drawn glyph by glyph, each with a random font size, colour, translation and jitter.

The random object is an injected stream of raw draws, so every call is a deterministic function of the stream. `nextInt(bound)` yields the next raw draw modulo `bound`, and throws when `bound <= 0`. The AWT canvas is a recorder: it keeps the list of fill, line and glyph commands issued to it, each with the colour and origin in force at the time, and for glyphs the font. Java exceptions become `Failure` values naming the exception.

Modules:

- `Outcomes`: errors, `Option` and `Result`.
- `Randomness`: the stream and the random object.
- `Decimal`: digits and `String.valueOf(int)`.
- `Equations`: `getEquation`, `getResult`, `computerResult` and `operatorMap`.
- `EquationProperties`: what the evaluator computes.
- `Canvas`: the graphics recorder.
- `Captcha`: the settings and defaults, `CodeTypeEnum`, `VerificationImage`, and one plan function per helper. A plan function says what the helper draws from a stream position.
- `CaptchaProperties`: what an image holds.
- `Generator`: the `VerificationCode` class.

Each drawing method of `Generator`, as well as `GetEquation`, `GetCharCode` and `GetVerificationImage`, is proved equal to its plan function, failures and stream position included. `GetResult` is proved equal to `Evaluate`, the same two-stack algorithm written as a function. `Conventional` is an independent precedence evaluator, and `Evaluate` is compared with it. The constructors and setters are specified by the configuration they leave. `FillDigits` and `FillOperators` are specified slot by slot. The properties are proved about the plan functions.

The evaluator is modelled as written. `computerResult` multiplies only on `'*'`, but the generator emits `'x'`, so every multiplication step yields 0. Read as ordinary arithmetic, `7x2-9` would be 5 and `2x3+4` would be 10. The code gives -9 and 4 (`ProductThenDifference`, `ProductThenSum`), and the model follows the code.

With one or two operators, the single-reduction rule agrees with conventional precedence over `computerResult`. With three it can disagree: `1-2x3-4` gives 5 where conventional evaluation gives -3 (`ThreeOperatorCounterexample`).

## Model

| member | source | states |
|---|---|---|
| Decimal.DigitChar | src/main/java/top/lvjp/Equation.java:71 | `(char) (d + 48)` is the ASCII digit whose value is d, for d in [0, 9] |
| Decimal.IntToStringRoundTrip | src/main/java/top/lvjp/VerificationCode.java:181 | `String.valueOf(result)` is a well-formed decimal numeral that parses back to the result |
| Decimal.DecimalRoundTrip | src/main/java/top/lvjp/VerificationCode.java:181 | every well-formed decimal numeral is the string of the integer it denotes |
| Equations.Reduce | src/main/java/top/lvjp/Equation.java:95-97 | one reduction pops two numbers and one operator and pushes one number, leaves the lower operators alone, and keeps the stacks well shaped |
| Equations.Scan | src/main/java/top/lvjp/Equation.java:90-101 | at every head of the scanning loop the number stack holds one more element than the operator stack, and that stack holds between 1 and i operators |
| Equations.GetResult | src/main/java/top/lvjp/Equation.java:87-108 | the two-stack loop and the drain return `Evaluate`, the same algorithm as a function, whose value the EquationProperties lemmas pin down against the independent `Conventional` evaluator; with no operator, `nums[1]` throws IndexOutOfBounds |
| Equations.DrawnDigits | src/main/java/top/lvjp/Equation.java:69-70 | n digit draws give n numbers, each in [0, 9] |
| Equations.DrawnOperators | src/main/java/top/lvjp/Equation.java:73-74 | n operator draws give n characters, each one of `+`, `-`, `x` |
| Equations.DrawnDigitsAt | src/main/java/top/lvjp/Equation.java:69-70 | a sequence whose element j is the digit drawn at p + j is exactly the drawn digits |
| Equations.DrawnOperatorsAt | src/main/java/top/lvjp/Equation.java:73-74 | a sequence whose element j is the operator drawn at p + j is exactly the drawn operators |
| Equations.FillDigits | src/main/java/top/lvjp/Equation.java:69-72 | the first loop uses one draw per digit; slot 2j of the expression is the ASCII digit of `nums[j]`; the operator slots are untouched |
| Equations.FillOperators | src/main/java/top/lvjp/Equation.java:73-76 | the second loop uses one draw per operator; slot 2j + 1 is `operates[j]`; the digit slots are untouched |
| Equations.DrawnEquation | src/main/java/top/lvjp/Equation.java:64-77 | arrays filled slot by slot are the drawn digits, the drawn operators and their interleaved expression |
| Equations.GetEquation | src/main/java/top/lvjp/Equation.java:64-78 | `getEquation(k)` returns, and throws, exactly as its plan says, and leaves the stream 2k + 1 draws further on |
| Equations.ExpressionSlots | src/main/java/top/lvjp/Equation.java:67-76 | the expression has 2k + 1 characters, digits in the even slots and operators in the odd ones |
| Equations.ExpressionFromSlots | src/main/java/top/lvjp/Equation.java:67-76 | any character sequence with those slots is the expression |
| Equations.ComputerResult | src/main/java/top/lvjp/Equation.java:118-133 | `+` adds, `-` subtracts, `*` multiplies, and any other character, the emitted `x` included, gives 0 |
| Equations.Evaluate | src/main/java/top/lvjp/Equation.java:87-108 | `getResult` as a function: it fails, with IndexOutOfBounds, exactly when there is no operator |
| Equations.EquationAt | src/main/java/top/lvjp/Equation.java:64-78 | `getEquation(k)` from a stream position succeeds exactly when k >= 1; it throws NegativeArraySize for k < 0 and IndexOutOfBounds for k = 0; for k >= 0 it uses 2k + 1 draws |
| EquationProperties.AtMostOneReduction | src/main/java/top/lvjp/Equation.java:93-101 | each incoming operator pops at most one operator, only when it does not bind tighter, and ends on top with its right operand |
| EquationProperties.ReducePreservesRightNested | src/main/java/top/lvjp/Equation.java:102-106 | a reduction keeps the right-nested value of the stacks |
| EquationProperties.DrainIsRightNested | src/main/java/top/lvjp/Equation.java:102-107 | the drain returns the stacks' right-nested value, the topmost operator applied first |
| EquationProperties.OneOperator | src/main/java/top/lvjp/Equation.java:90-107 | with one operator the result is computerResult of the two numbers |
| EquationProperties.TwoOperators | src/main/java/top/lvjp/Equation.java:93-107 | with two operators the result is `(n0 o0 n1) o1 n2` when o1 does not bind tighter than o0, and `n0 o0 (n1 o1 n2)` otherwise |
| EquationProperties.ConventionalAgreesUpToTwo | src/main/java/top/lvjp/Equation.java:35-37 | with one or two operators the evaluator agrees with a conventional precedence evaluator over computerResult |
| EquationProperties.TwoConventional | src/main/java/top/lvjp/Equation.java:35-37 | the conventional evaluator on three numbers, by the precedence of the two operators |
| EquationProperties.ThreeOperatorCounterexample | src/main/java/top/lvjp/Equation.java:93-107 | `1-2x3-4` evaluates to 5 where conventional precedence gives -3: the rule is not precedence-correct in general |
| EquationProperties.ProductThenDifference | src/main/java/top/lvjp/Equation.java:127-130 | `7x2-9` evaluates to -9 |
| EquationProperties.ProductThenSum | src/main/java/top/lvjp/Equation.java:127-130 | `2x3+4` evaluates to 4 |
| EquationProperties.DrawnDigitsIndex | src/main/java/top/lvjp/Equation.java:69-70 | digit j is the draw at p + j modulo 10 |
| EquationProperties.DrawnOperatorsIndex | src/main/java/top/lvjp/Equation.java:73-74 | operator j is `OPERATOR_CHARS` at the draw at p + j modulo 3 |
| EquationProperties.EquationOutcome | src/main/java/top/lvjp/Equation.java:64-78 | a negative count throws NegativeArraySize before any draw; a zero count throws IndexOutOfBounds after one draw; getEquation succeeds exactly when k >= 1 and uses 2k + 1 draws |
| EquationProperties.EquationShape | src/main/java/top/lvjp/Equation.java:64-77 | a built equation has 2k + 1 characters: slot 2i is the digit drawn at p + i, slot 2i + 1 is the operator drawn at p + k + 1 + i, and the result evaluates those digits and operators |
| EquationProperties.ExpressionRoundTrip | src/main/java/top/lvjp/Equation.java:71-75 | the digits and the operators read back from the expression's even and odd slots |
| Canvas.Graphics.constructor | src/main/java/top/lvjp/VerificationCode.java:167 | a fresh context: initial colour and font, no translation, nothing drawn |
| Canvas.Graphics.FillRect | src/main/java/top/lvjp/VerificationCode.java:168 | appends one fill command in the current colour and origin, nothing else changes |
| Canvas.Graphics.SetFont | src/main/java/top/lvjp/VerificationCode.java:169 | replaces the font, nothing else changes |
| Canvas.Graphics.SetColor | src/main/java/top/lvjp/VerificationCode.java:173 | replaces the colour, nothing else changes |
| Canvas.Graphics.DrawLine | src/main/java/top/lvjp/VerificationCode.java:234 | appends one line command in the current colour and origin |
| Canvas.Graphics.Translate | src/main/java/top/lvjp/VerificationCode.java:247 | moves the origin by (dx, dy), cumulatively |
| Canvas.Graphics.DrawString | src/main/java/top/lvjp/VerificationCode.java:248-249 | appends one glyph command in the current font, colour and origin |
| Captcha.RandColorAt | src/main/java/top/lvjp/VerificationCode.java:217-222 | every channel of a random colour lies in [0, COLOR_BOUND), COLOR_BOUND being 210 |
| Captcha.FontAt | src/main/java/top/lvjp/VerificationCode.java:208-210 | a glyph font's size lies in [fontBasisSize, fontBasisSize + 5] |
| Captcha.DrawnChars | src/main/java/top/lvjp/VerificationCode.java:260-263 | n character draws give n characters, each one of codeChars |
| Captcha.CharCodeAt | src/main/java/top/lvjp/VerificationCode.java:259-265 | getCharCode(n) succeeds exactly when n is 0, or n > 0 with a non-null non-empty codeChars; it then returns n characters of codeChars after n draws |
| Captcha.GlyphAt | src/main/java/top/lvjp/VerificationCode.java:245-249 | one turn of drawString appends one glyph for its code, in place and in range, and moves the origin right by 0 or 1 |
| Captcha.LineAt | src/main/java/top/lvjp/VerificationCode.java:229-235 | `drawLine` from a stream position: a failure is IllegalArgument after at most five draws; a success uses six draws and appends one command |
| Captcha.NoiseLines | src/main/java/top/lvjp/VerificationCode.java:171-174 | n turns of the noise loop: a failure is IllegalArgument; a success uses 9n draws and appends n commands |
| Captcha.GlyphRun | src/main/java/top/lvjp/VerificationCode.java:243-251 | the first n turns of `drawString` append n commands and never move the origin vertically |
| Captcha.ImageAt | src/main/java/top/lvjp/VerificationCode.java:164-186 | `getVerificationImage` from a stream position: a success needs a positive size and a non-null code type, and its image has the configured size |
| Captcha.NoiseFailureSticks | src/main/java/top/lvjp/VerificationCode.java:171-174 | once a noise turn throws, the remaining turns never run |
| CaptchaProperties.LineAtShape | src/main/java/top/lvjp/VerificationCode.java:229-235 | drawLine throws exactly when a `nextInt` bound is not positive, e.g. x = 0 with an inner draw of 0; otherwise its line starts in [0, width) x [0, height) and ends at most width - 2 right of x and height - 2 below y |
| CaptchaProperties.NoiseLinesShape | src/main/java/top/lvjp/VerificationCode.java:171-174 | n noise turns that succeed append exactly n lines in range, each in a colour with channels in [0, COLOR_BOUND), after 9n draws, and leave font and origin alone; a failing turn throws IllegalArgument |
| CaptchaProperties.GlyphRunGrows | src/main/java/top/lvjp/VerificationCode.java:243-251 | drawString over n codes appends exactly n commands and keeps what was drawn before |
| CaptchaProperties.GlyphRunShape | src/main/java/top/lvjp/VerificationCode.java:243-251 | glyph i shows codes[i] at x in fontBasisSize * i + {0, 1} and y in [20, 28), in a font of size [fontBasisSize, fontBasisSize + 5]; each translate moves the origin by 0 or 1 |
| CaptchaProperties.CharImageSteps | src/main/java/top/lvjp/VerificationCode.java:164-186 | a successful CHAR call runs the noise loop, getCharCode and drawString, in that order |
| CaptchaProperties.CharImage | src/main/java/top/lvjp/VerificationCode.java:170-177 | a CHAR image holds the fill, exactly max(lineCount, 0) noise lines in colours with channels in [0, COLOR_BOUND) before any glyph, then one glyph per answer character; the answer has codeSize characters of codeChars |
| CaptchaProperties.EquationImageSteps | src/main/java/top/lvjp/VerificationCode.java:178-183 | a successful EQUATION call builds an equation and draws its expression |
| CaptchaProperties.EquationImage | src/main/java/top/lvjp/VerificationCode.java:178-183 | an EQUATION image has no noise lines; its 2k + 1 glyphs show the expression and the answer is the decimal string of the result |
| CaptchaProperties.ImageOutcome | src/main/java/top/lvjp/VerificationCode.java:164-186 | a non-positive size throws IllegalArgument and a null code type throws NullPointer, both before any draw; an EQUATION call succeeds exactly when the size is positive and k >= 1 |
| CaptchaProperties.DefaultEquationImage | src/main/java/top/lvjp/VerificationCode.java:142-156 | with the defaults an EQUATION image never fails and holds six commands |
| CaptchaProperties.DefaultCharCanFail | src/main/java/top/lvjp/VerificationCode.java:229-235 | with the defaults a CHAR image can throw: an all-zero stream makes the first noise line call `nextInt(0)` |
| CaptchaProperties.DefaultCharImage | src/main/java/top/lvjp/VerificationCode.java:126-137 | with the defaults a successful CHAR image has 20 commands: the fill, 15 noise lines in range and 4 glyphs showing the answer, which is 4 characters of the default alphabet |
| Generator.VerificationCode.constructor | src/main/java/top/lvjp/VerificationCode.java:126-137 | the default generator: CHAR, the default alphabet, 15 lines, 4 characters, 2 operators, 80 x 30, basis size 16 |
| Generator.VerificationCode.OfType | src/main/java/top/lvjp/VerificationCode.java:142-156 | the typed constructor throws NullPointer on a null type, and otherwise installs the defaults with that type |
| Generator.VerificationCode.SetCodeType | src/main/java/top/lvjp/VerificationCode.java:271-273 | replaces the code type, null included, and nothing else |
| Generator.VerificationCode.SetCodeChars | src/main/java/top/lvjp/VerificationCode.java:279-281 | replaces the alphabet, null or empty included, and nothing else |
| Generator.VerificationCode.SetLineCount | src/main/java/top/lvjp/VerificationCode.java:287-289 | replaces the line count unchecked, and nothing else |
| Generator.VerificationCode.SetCodeSize | src/main/java/top/lvjp/VerificationCode.java:295-297 | replaces the code size unchecked, and nothing else |
| Generator.VerificationCode.SetOperatorCount | src/main/java/top/lvjp/VerificationCode.java:303-305 | replaces the operator count unchecked, and nothing else |
| Generator.VerificationCode.SetWidth | src/main/java/top/lvjp/VerificationCode.java:311-313 | replaces the width unchecked, and nothing else |
| Generator.VerificationCode.SetHeight | src/main/java/top/lvjp/VerificationCode.java:319-321 | replaces the height unchecked, and nothing else |
| Generator.VerificationCode.SetFontBasisSize | src/main/java/top/lvjp/VerificationCode.java:327-329 | replaces the font basis size unchecked, and nothing else |
| Generator.VerificationCode.GetFont | src/main/java/top/lvjp/VerificationCode.java:208-210 | getFont uses one draw and returns the planned font |
| Generator.VerificationCode.GetRandColor | src/main/java/top/lvjp/VerificationCode.java:217-222 | getRandColor uses three draws and returns the planned colour |
| Generator.VerificationCode.DrawLine | src/main/java/top/lvjp/VerificationCode.java:229-235 | drawLine draws, throws, and changes the context exactly as `LineAt` says; when it throws, the context is unchanged |
| Generator.VerificationCode.DrawGlyph | src/main/java/top/lvjp/VerificationCode.java:245-249 | one turn of drawString uses seven draws and changes the context as planned |
| Generator.VerificationCode.DrawString | src/main/java/top/lvjp/VerificationCode.java:243-251 | drawString throws NullPointer on null codes before any draw or drawing; otherwise it uses seven draws per code and leaves the planned glyph run |
| Generator.VerificationCode.GetCharCode | src/main/java/top/lvjp/VerificationCode.java:259-265 | getCharCode returns, and throws, exactly as its plan says |
| Generator.VerificationCode.DrawNoiseLine | src/main/java/top/lvjp/VerificationCode.java:172-173 | one noise turn: a random colour, then a line in it, as `NoiseLineAt` says; when the line throws, only the colour has changed |
| Generator.VerificationCode.DrawNoise | src/main/java/top/lvjp/VerificationCode.java:171-174 | the noise loop runs max(lineCount, 0) turns, as `NoiseLines` says, and the first throwing turn ends the call with the font and origin kept and the earlier commands a prefix |
| Generator.VerificationCode.GetVerificationImage | src/main/java/top/lvjp/VerificationCode.java:164-186 | getVerificationImage returns, and throws, exactly as its plan says, and leaves the stream where the plan ends |

## Left out

- `setHttpVerificationCode` is not modelled. It sets servlet headers and session attributes and encodes a JPEG: that is I/O.
- Rasterization is not modelled. `BufferedImage`, `Graphics`, `Font` and `Color` are represented only as recorded commands, never as pixels. `graphics.dispose()` changes no recorded state, so it is omitted.
- The fill colour is recorded as the context's initial colour. Its actual AWT value is not modelled.
- `Font.CENTER_BASELINE` and `Font.ROMAN_BASELINE` are passed as the style argument and recorded as numbers. How `Font` interprets a style is not modelled.
- `ThreadLocalRandom` is replaced by a finite sequence of raw draws. `nextInt(bound)` is the next raw draw modulo `bound`. Its distribution, its uniformity and its per-thread state are not modelled. A draw past the end of the sequence reads as 0. Every run uses finitely many draws, so any run is reproduced by some sequence.
- `Equation`'s static random and the generator's field are the same per-thread object, so one random object is shared. The constructor of `Equation` re-fetching it has no effect in the model.
- Java's 32-bit `int` is not modelled: all arithmetic is unbounded. Overflow of `operatorCount * 2 + 1`, `fontBasisSize * i` or `x + nextInt(width)` is left out.
- An allocation too large for memory is left out.
- The getters are not modelled. They return fields that `Config()` already exposes.
- `getResult` receives the arrays as sequences, because it only reads them. Its two `Stack`s are sequences with the top at the end.
- Some loops and loop bodies are separate methods. The loops are `FillDigits`, `FillOperators` and `DrawNoise`; the loop bodies are `DrawGlyph` and `DrawNoiseLine`. They keep the source's statements and their order.
- CharCodeAt, DrawnChars and GetCharCode: Java strings are UTF-16 code units, while Dafny strings are Unicode scalar values. An alphabet with a character outside the Basic Multilingual Plane is drawn over scalars here. Java would draw over code units, with a larger `length()` bound, and `charAt` could return half a surrogate pair. The alphabets the generator ships with are ASCII, where the two agree.
- `CodeTypeEnum.EQUATION` is named `Arithmetic`, because `Equation` already names the equation value.
