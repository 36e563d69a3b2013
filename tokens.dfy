/** Manim scripts as token sequences. The regex rewrites of
    services/script_generator.py and services/manim_optimizer.py only look at
    a few shapes of text (a decimal literal before `*RIGHT`, `side_length=`
    before a literal, `Square(`, `.arrange(`, `self.play`, ...); a script is
    modelled as those shapes interleaved with opaque code, and `Render`
    gives back its text. The opaque text (`Code` tokens and the arguments
    of `MathTex` calls) is taken to hold none of those shapes, so every
    match of a pattern starts at a token. */
module ScriptTokens {
  import opened Text

  datatype Direction = Right | Left | Up | Down

  /** The keyword arguments the clamps look at. */
  datatype Param = SideLength | Radius

  datatype ShapeKind = Polygon | Square | Circle | Rectangle

  /** The blocks of code the optimizer inserts. */
  datatype Block = Positioning | Validation

  datatype Tok =
    | Num(whole: string, frac: string)   // decimal literal `whole` or `whole.frac`
    | Times                              // `*`
    | Dir(d: Direction)                  // `RIGHT`, `LEFT`, `UP`, `DOWN`
    | Assign(p: Param)                   // `side_length=`, `radius=`
    | Shape(k: ShapeKind)                // `Square(` and the like
    | Close                              // `)`
    | Arrange                            // `.arrange(`
    | BuffArg                            // `, buff=`
    | MathTex(args: string)              // a whole call `MathTex(args)`; `args` may hold `)`
    | Play                               // `self.play`
    | Construct                          // `def construct(self):`
    | Inserted(b: Block)                 // an inserted block of code
    | Code(text: string)                 // any other text, holding no shape above

  predicate IsDigitChar(c: char) {
    '0' <= c <= '9'
  }

  /** `\d+`. */
  predicate IsDigits(s: string) {
    |s| >= 1 && forall i :: 0 <= i < |s| ==> IsDigitChar(s[i])
  }

  /** `int(s)` for a run of digits. */
  function DigitsValue(s: string): (v: nat)
    requires forall i :: 0 <= i < |s| ==> IsDigitChar(s[i])
  {
    if s == [] then 0
    else
      assert IsDigitChar(s[|s| - 1]);
      10 * DigitsValue(s[..|s| - 1]) + (s[|s| - 1] as int - '0' as int)
  }

  function Pow10(n: nat): (p: nat)
    ensures p >= 1
  {
    if n == 0 then 1 else 10 * Pow10(n - 1)
  }

  /** `\d+(?:\.\d+)?`. */
  predicate IsNumeral(t: Tok) {
    t.Num? && IsDigits(t.whole) && (t.frac == [] || IsDigits(t.frac))
  }

  /** `float(...)` of a numeral. */
  function Value(t: Tok): (v: real)
    requires IsNumeral(t)
    ensures v >= 0.0
  {
    DigitsValue(t.whole) as real + DigitsValue(t.frac) as real / Pow10(|t.frac|) as real
  }

  lemma ValueOfWhole(t: Tok)
    requires IsNumeral(t) && t.frac == []
    ensures Value(t) == DigitsValue(t.whole) as real
  {
    assert DigitsValue(t.frac) == 0;
  }

  function DirText(d: Direction): string {
    match d
    case Right => "RIGHT"
    case Left => "LEFT"
    case Up => "UP"
    case Down => "DOWN"
  }

  function ParamText(p: Param): string {
    match p
    case SideLength => "side_length="
    case Radius => "radius="
  }

  function ShapeText(k: ShapeKind): string {
    match k
    case Polygon => "Polygon("
    case Square => "Square("
    case Circle => "Circle("
    case Rectangle => "Rectangle("
  }

  /** Stand-ins for the inserted blocks, carrying the words the layout and
      quality checks look for: the positioning block groups the graphics
      with `.arrange(DOWN, buff=0.4)`, moves them with `move_to(RIGHT*3)` and
      names `title` and `text` objects; the validation block shifts objects
      LEFT, RIGHT, UP or DOWN back into the frame. */
  function BlockText(b: Block): string {
    match b
    case Positioning => PositioningHead + RightZoneMove + PositioningTail
    case Validation =>
      "\n        # keep every object inside the frame: shift it LEFT, RIGHT, UP or DOWN\n        "
  }

  const RightZoneMove: string := "move_to(RIGHT*3)"

  const PositioningHead: string :=
    "\n        graphics = VGroup(*[o for o in objs if o not in ['title', 'text1']])\n"
    + "        graphics.arrange(DOWN, buff=0.4)\n        graphics."

  const PositioningTail: string := "\n        "

  function NumText(t: Tok): string
    requires t.Num?
  {
    t.whole + (if t.frac == [] then "" else "." + t.frac)
  }

  /** The text a token stands for. */
  function TokText(t: Tok): string {
    match t
    case Num(_, _) => NumText(t)
    case Times => "*"
    case Dir(d) => DirText(d)
    case Assign(p) => ParamText(p)
    case Shape(k) => ShapeText(k)
    case Close => ")"
    case Arrange => ".arrange("
    case BuffArg => ", buff="
    case MathTex(args) => "MathTex(" + args + ")"
    case Play => "self.play"
    case Construct => "def construct(self):"
    case Inserted(b) => BlockText(b)
    case Code(text) => text
  }

  /** The script text. */
  function Render(toks: seq<Tok>): string {
    if toks == [] then [] else TokText(toks[0]) + Render(toks[1..])
  }

  lemma {:induction false} RenderAppend(a: seq<Tok>, b: seq<Tok>)
    ensures Render(a + b) == Render(a) + Render(b)
  {
    if a == [] {
      assert a + b == b;
    } else {
      RenderAppend(a[1..], b);
      assert (a + b)[1..] == a[1..] + b;
      assert (a + b)[0] == a[0];
      calc {
        Render(a + b);
        TokText(a[0]) + Render(a[1..] + b);
        TokText(a[0]) + (Render(a[1..]) + Render(b));
      }
    }
  }

  /** The script text contains whatever the text of one of its tokens contains. */
  lemma {:induction false} ContainsTokText(toks: seq<Tok>, k: int, pat: string)
    requires 0 <= k < |toks| && Contains(TokText(toks[k]), pat)
    ensures Contains(Render(toks), pat)
  {
    assert Render(toks) == TokText(toks[0]) + Render(toks[1..]);
    if k == 0 {
      ContainsInPrefix(TokText(toks[0]), Render(toks[1..]), pat);
    } else {
      assert toks[1..][k - 1] == toks[k];
      ContainsTokText(toks[1..], k - 1, pat);
      ContainsInSuffix(TokText(toks[0]), Render(toks[1..]), pat);
    }
  }

  lemma PositioningMovesRight()
    ensures Contains(BlockText(Positioning), RightZoneMove)
  {
    ContainsPrefix(RightZoneMove, RightZoneMove);
    ContainsInConcat(PositioningHead, RightZoneMove, PositioningTail, RightZoneMove);
  }

  // ---- literals the rewrites emit ------------------------------------------------

  function Lit(whole: string, frac: string): Tok {
    Num(whole, frac)
  }

  lemma LiteralValues()
    ensures IsNumeral(Lit("1", "")) && Value(Lit("1", "")) == 1.0
    ensures IsNumeral(Lit("1", "2")) && Value(Lit("1", "2")) == 1.2
    ensures IsNumeral(Lit("1", "8")) && Value(Lit("1", "8")) == 1.8
    ensures IsNumeral(Lit("2", "0")) && Value(Lit("2", "0")) == 2.0
    ensures IsNumeral(Lit("1", "6")) && Value(Lit("1", "6")) == 1.6
    ensures IsNumeral(Lit("1", "3")) && Value(Lit("1", "3")) == 1.3
    ensures IsNumeral(Lit("1", "4")) && Value(Lit("1", "4")) == 1.4
    ensures IsNumeral(Lit("1", "1")) && Value(Lit("1", "1")) == 1.1
    ensures IsNumeral(Lit("0", "4")) && Value(Lit("0", "4")) == 0.4
  {
    assert DigitsValue("1") == 1 by { assert "1"[..0] == []; }
    assert DigitsValue("2") == 2 by { assert "2"[..0] == []; }
    assert DigitsValue("0") == 0 by { assert "0"[..0] == []; }
    assert DigitsValue("8") == 8 by { assert "8"[..0] == []; }
    assert DigitsValue("6") == 6 by { assert "6"[..0] == []; }
    assert DigitsValue("3") == 3 by { assert "3"[..0] == []; }
    assert DigitsValue("4") == 4 by { assert "4"[..0] == []; }
    assert Pow10(1) == 10;
  }

  /** A coordinate: a numeral directly followed by `*` and a direction. */
  predicate CoordinateAt(toks: seq<Tok>, i: int) {
    0 <= i && i + 2 < |toks| && IsNumeral(toks[i]) && toks[i + 1] == Times && toks[i + 2].Dir?
  }

  /** A size argument: `side_length=` or `radius=` directly followed by a numeral. */
  predicate SizeAt(toks: seq<Tok>, i: int, p: Param) {
    1 <= i < |toks| && toks[i - 1] == Assign(p) && IsNumeral(toks[i])
  }
}
