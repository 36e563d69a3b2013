/** The coordinate clamps of `auto_fix_large_coordinates`
    (services/script_generator.py), the repair tried on a script whose
    layout check failed. */
module AutoFix {
  import opened ScriptTokens
  import opened Clamps
  import opened Results
  import LayoutCheck

  /** The five clamps, in the order they are applied: a RIGHT or LEFT
      multiplier above 1.5 becomes 1, an UP or DOWN multiplier above 1.5
      becomes 1.2, a `side_length` above 1.5 becomes 1.2. */
  const AutoFixRules: seq<Rule> := [
    CoordRule(Right, 1.5, Lit("1", "")),
    CoordRule(Up, 1.5, Lit("1", "2")),
    CoordRule(Down, 1.5, Lit("1", "2")),
    CoordRule(Left, 1.5, Lit("1", "")),
    SizeRule(SideLength, 1.5, Lit("1", "2"))
  ]

  lemma AutoFixRulesValid()
    ensures AllValid(AutoFixRules)
  {
    LiteralValues();
  }

  /** `fixed_script` is passed through each clamp in turn, each multiplier
      read as the whole literal before `*`. */
  method FixLargeCoordinates(script: seq<Tok>) returns (fixed: seq<Tok>)
    ensures fixed == ApplyRules(AutoFixRules, script)
  {
    fixed := script;
    var k := 0;
    while k < |AutoFixRules|
      invariant 0 <= k <= |AutoFixRules|
      invariant ApplyRules(AutoFixRules[k..], fixed) == ApplyRules(AutoFixRules, script)
    {
      assert AutoFixRules[k..][1..] == AutoFixRules[k + 1..];
      fixed := ApplyRule(AutoFixRules[k], fixed);
      k := k + 1;
    }
    assert AutoFixRules[k..] == [];
  }

  /** After the clamps no coordinate exceeds 1.5, so the layout check
      finds no large coordinate. */
  lemma FixedCoordinatesAreSmall(script: seq<Tok>)
    ensures forall j :: 0 <= j < |script| && CoordinateAt(ApplyRules(AutoFixRules, script), j) ==>
              Value(ApplyRules(AutoFixRules, script)[j]) <= 1.5
    ensures LayoutCheck.CoordsAbove(ApplyRules(AutoFixRules, script), 1.5, 0) == []
  {
    var out := ApplyRules(AutoFixRules, script);
    AutoFixRulesValid();
    forall j | 0 <= j < |script| && CoordinateAt(out, j) ensures Value(out[j]) <= 1.5 {
      var k := match out[j + 2].d case Right => 0 case Up => 1 case Down => 2 case Left => 3;
      assert Matches(AutoFixRules[k], out, j);
      MatchedWithinLimit(AutoFixRules, script, k, j);
    }
  }

  /** Nor does any side length, so the layout check finds no large side
      length either. */
  lemma FixedSideLengthsAreSmall(script: seq<Tok>)
    ensures forall j :: 0 <= j < |script| && SizeAt(ApplyRules(AutoFixRules, script), j, SideLength) ==>
              Value(ApplyRules(AutoFixRules, script)[j]) <= 1.5
    ensures LayoutCheck.SizesAbove(ApplyRules(AutoFixRules, script), SideLength, 1.5, 0) == []
  {
    var out := ApplyRules(AutoFixRules, script);
    AutoFixRulesValid();
    forall j | 0 <= j < |script| && SizeAt(out, j, SideLength) ensures Value(out[j]) <= 1.5 {
      assert Matches(AutoFixRules[4], out, j);
      MatchedWithinLimit(AutoFixRules, script, 4, j);
    }
  }

  /** Every clamp has the limit 1.5 and looks at a coordinate or a side
      length. */
  lemma RuleShape(k: int)
    requires 0 <= k < |AutoFixRules|
    ensures AutoFixRules[k].limit == 1.5
    ensures AutoFixRules[k].SizeRule? ==> AutoFixRules[k].p == SideLength
  {
  }

  /** A coordinate or side length at or below 1.5 is left as written. */
  lemma SmallValuesUntouched(script: seq<Tok>, i: int)
    requires 0 <= i < |script|
    requires CoordinateAt(script, i) ==> Value(script[i]) <= 1.5
    requires SizeAt(script, i, SideLength) ==> Value(script[i]) <= 1.5
    ensures ApplyRules(AutoFixRules, script)[i] == script[i]
  {
    AutoFixRulesValid();
    forall k | 0 <= k < |AutoFixRules| && Matches(AutoFixRules[k], script, i)
      ensures Value(script[i]) <= AutoFixRules[k].limit
    {
      RuleShape(k);
    }
    SettledUnchanged(AutoFixRules, script, i);
  }

  /** A coordinate above 1.5 becomes the replacement of the clamp for its
      direction, the `k`-th. */
  lemma LargeCoordinateClamped(script: seq<Tok>, i: int, k: int)
    requires 0 <= i < |script| && 0 <= k < 4
    requires CoordinateAt(script, i) && Value(script[i]) > 1.5 && script[i + 2] == Dir(AutoFixRules[k].d)
    ensures ApplyRules(AutoFixRules, script)[i] == AutoFixRules[k].to
  {
    AutoFixRulesValid();
    EarlierClampsSettled(script, i, k);
    ClampTargetsWithinLimits();
    FirstFiringRule(AutoFixRules, script, i, k);
  }

  /** The clamps before the `k`-th look at other directions, so none of
      them matches a coordinate in the `k`-th clamp's direction. */
  lemma EarlierClampsSettled(script: seq<Tok>, i: int, k: int)
    requires 0 <= i < |script| && 0 <= k < 4
    requires CoordinateAt(script, i) && script[i + 2] == Dir(AutoFixRules[k].d)
    ensures Settled(AutoFixRules[..k], script, i)
  {
    forall j | 0 <= j < k ensures !Matches(AutoFixRules[..k][j], script, i) {
      assert AutoFixRules[..k][j] == AutoFixRules[j];
    }
  }

  /** Every replacement is at or below every clamp's limit. */
  lemma ClampTargetsWithinLimits()
    ensures forall k, j :: 0 <= k < |AutoFixRules| && 0 <= j < |AutoFixRules| ==>
              Value(AutoFixRules[k].to) <= AutoFixRules[j].limit
  {
    LiteralValues();
    forall j | 0 <= j < |AutoFixRules| ensures AutoFixRules[j].limit == 1.5 {
      RuleShape(j);
    }
  }

  /** A large coordinate becomes exactly 1 (RIGHT, LEFT) or 1.2 (UP, DOWN). */
  lemma LargeValuesClamped(script: seq<Tok>, i: int)
    requires 0 <= i < |script|
    ensures CoordinateAt(script, i) && Value(script[i]) > 1.5 && script[i + 2].d in {Right, Left} ==>
              ApplyRules(AutoFixRules, script)[i] == Lit("1", "")
    ensures CoordinateAt(script, i) && Value(script[i]) > 1.5 && script[i + 2].d in {Up, Down} ==>
              ApplyRules(AutoFixRules, script)[i] == Lit("1", "2")
  {
    if CoordinateAt(script, i) && Value(script[i]) > 1.5 {
      var k := match script[i + 2].d case Right => 0 case Up => 1 case Down => 2 case Left => 3;
      LargeCoordinateClamped(script, i, k);
    }
  }

  /** A large side length that is not itself a coordinate becomes 1.2. */
  lemma LargeSideLengthClamped(script: seq<Tok>, i: int)
    requires 0 <= i < |script|
    requires !CoordinateAt(script, i) && SizeAt(script, i, SideLength) && Value(script[i]) > 1.5
    ensures ApplyRules(AutoFixRules, script)[i] == Lit("1", "2")
  {
    AutoFixRulesValid();
    OnlySideLengthRuleMatches(script, i);
    OnlyRuleFires(AutoFixRules, script, i, 4);
  }

  /** Where no coordinate is, only the side-length clamp can match. */
  lemma OnlySideLengthRuleMatches(script: seq<Tok>, i: int)
    requires 0 <= i < |script| && !CoordinateAt(script, i)
    ensures forall j :: 0 <= j < |AutoFixRules| && j != 4 ==> !Matches(AutoFixRules[j], script, i)
    ensures AutoFixRules[4] == SizeRule(SideLength, 1.5, Lit("1", "2"))
  {
    forall j | 0 <= j < |AutoFixRules| && j != 4 ensures !Matches(AutoFixRules[j], script, i) {
      assert AutoFixRules[j].CoordRule?;
    }
  }

  // ---- the clamps as written ---------------------------------------------------

  /** The digits `(\d+)\*DIR` captures: the regex can only start its match
      after the decimal point, so a decimal contributes its fraction digits. */
  function CapturedDigits(t: Tok): (g: string)
    requires IsNumeral(t)
    ensures IsDigits(g)
  {
    if t.frac == [] then t.whole else t.frac
  }

  /** One `(\d+)\*DIR` clamp as written: the captured digits are compared
      with 1.5 as an integer and replaced by the clamp text, so the digits
      before a decimal point survive in front of it. */
  function AsWrittenCoordClamp(d: Direction, to: Tok, toks: seq<Tok>): (out: seq<Tok>)
    requires to.Num?
    ensures |out| == |toks|
  {
    seq(|toks|, i requires 0 <= i < |toks| =>
      if CoordinateAt(toks, i) && toks[i + 2] == Dir(d) && DigitsValue(CapturedDigits(toks[i])) as real > 1.5
      then (if toks[i].frac == [] then to else Num(toks[i].whole, NumText(to)))
      else toks[i])
  }

  /** The five clamps of `auto_fix_large_coordinates` exactly as written. */
  function AsWrittenAutoFix(toks: seq<Tok>): (out: seq<Tok>)
    ensures |out| == |toks|
  {
    var right := AsWrittenCoordClamp(Right, Lit("1", ""), toks);
    var up := AsWrittenCoordClamp(Up, Lit("1", "2"), right);
    var down := AsWrittenCoordClamp(Down, Lit("1", "2"), up);
    var left := AsWrittenCoordClamp(Left, Lit("1", ""), down);
    ApplyRule(SizeRule(SideLength, 1.5, Lit("1", "2")), left)
  }

  /** On whole-number multipliers the clamp as written and the corrected
      clamp agree. */
  lemma AsWrittenAgreesOnWholeNumbers(d: Direction, to: Tok, toks: seq<Tok>)
    requires to.Num?
    requires forall i :: 0 <= i < |toks| && CoordinateAt(toks, i) ==> toks[i].frac == []
    ensures AsWrittenCoordClamp(d, to, toks) == ApplyRule(CoordRule(d, 1.5, to), toks)
  {
    var a := AsWrittenCoordClamp(d, to, toks);
    var b := ApplyRule(CoordRule(d, 1.5, to), toks);
    forall i | 0 <= i < |toks| ensures a[i] == b[i] {
      if CoordinateAt(toks, i) {
        ValueOfWhole(toks[i]);
      }
    }
  }

  /** A clamp for a direction no coordinate uses changes nothing. */
  lemma AsWrittenClampIdle(d: Direction, to: Tok, toks: seq<Tok>)
    requires to.Num?
    requires forall i :: 0 <= i < |toks| && CoordinateAt(toks, i) ==> toks[i + 2] != Dir(d)
    ensures AsWrittenCoordClamp(d, to, toks) == toks
  {
  }

  /** `0.5*UP` is below the limit but its fraction digit `5` is captured
      and replaced, giving `0.1.2*UP`, which is not a number at all. */
  lemma AsWrittenBreaksSmallDecimal()
    ensures AsWrittenAutoFix([Num("0", "5"), Times, Dir(Up)]) == [Num("0", "1.2"), Times, Dir(Up)]
    ensures !IsNumeral(Num("0", "1.2"))
  {
    var s := [Num("0", "5"), Times, Dir(Up)];
    AsWrittenClampIdle(Right, Lit("1", ""), s);
    UpClampBreaksDecimal();
    LaterClampsIdleOnBroken();
    assert !IsDigits("1.2") by { assert "1.2"[1] == '.'; }
  }

  /** The `UP` clamp replaces the fraction digit `5` of `0.5*UP` by `1.2`. */
  lemma UpClampBreaksDecimal()
    ensures AsWrittenCoordClamp(Up, Lit("1", "2"), [Num("0", "5"), Times, Dir(Up)]) == [Num("0", "1.2"), Times, Dir(Up)]
  {
    var s := [Num("0", "5"), Times, Dir(Up)];
    assert DigitsValue("5") == 5 by { assert "5"[..0] == []; }
    assert CoordinateAt(s, 0);
    var up := AsWrittenCoordClamp(Up, Lit("1", "2"), s);
    assert NumText(Lit("1", "2")) == "1.2";
    assert up[0] == Num("0", "1.2") && up[1] == Times && up[2] == Dir(Up);
  }

  /** `0.1.2*UP` holds no coordinate literal, so the last three clamps
      leave it alone. */
  lemma LaterClampsIdleOnBroken()
    ensures var t := [Num("0", "1.2"), Times, Dir(Up)];
      var down := AsWrittenCoordClamp(Down, Lit("1", "2"), t);
      var left := AsWrittenCoordClamp(Left, Lit("1", ""), down);
      ApplyRule(SizeRule(SideLength, 1.5, Lit("1", "2")), left) == t
  {
    var t := [Num("0", "1.2"), Times, Dir(Up)];
    assert !IsDigits("1.2") by { assert "1.2"[1] == '.'; }
    assert !CoordinateAt(t, 0);
    AsWrittenClampIdle(Down, Lit("1", "2"), t);
    AsWrittenClampIdle(Left, Lit("1", ""), t);
    RuleIdle(SizeRule(SideLength, 1.5, Lit("1", "2")), t);
  }

  lemma BrokenLiteralText()
    ensures Render([Num("0", "1.2"), Times, Dir(Up)]) == "0.1.2*UP"
  {
    var up := [Num("0", "1.2"), Times, Dir(Up)];
    assert Render(up) == "0.1.2" + Render(up[1..]);
    assert Render(up[1..]) == "*" + Render(up[2..]);
    assert Render(up[2..]) == "UP" + Render(up[3..]);
  }

  /** The corrected clamps leave `0.5*UP` as it is. */
  lemma CorrectedKeepsSmallDecimal()
    ensures ApplyRules(AutoFixRules, [Num("0", "5"), Times, Dir(Up)]) == [Num("0", "5"), Times, Dir(Up)]
  {
    var s := [Num("0", "5"), Times, Dir(Up)];
    assert DigitsValue("5") == 5 by { assert "5"[..0] == []; }
    assert DigitsValue("0") == 0 by { assert "0"[..0] == []; }
    assert Value(s[0]) == 0.5 by { assert Pow10(1) == 10; }
    forall i | 0 <= i < 3 ensures ApplyRules(AutoFixRules, s)[i] == s[i] {
      SmallValuesUntouched(s, i);
    }
  }

  /** `2.5*RIGHT` becomes `2.1*RIGHT`: the fraction digit is clamped and
      the whole part kept. */
  lemma AsWrittenRewritesLargeDecimal()
    ensures AsWrittenAutoFix([Num("2", "5"), Times, Dir(Right)]) == [Num("2", "1"), Times, Dir(Right)]
  {
    var s := [Num("2", "5"), Times, Dir(Right)];
    assert DigitsValue("5") == 5 by { assert "5"[..0] == []; }
    assert CoordinateAt(s, 0);
    var right := AsWrittenCoordClamp(Right, Lit("1", ""), s);
    assert NumText(Lit("1", "")) == "1";
    assert right[0] == Num("2", "1") && right[1] == Times && right[2] == Dir(Right);
    assert right == [Num("2", "1"), Times, Dir(Right)];
    LaterClampsIdleOnRight(Num("2", "1"));
  }

  /** After the `RIGHT` clamp, the other four leave `n*RIGHT` alone. */
  lemma LaterClampsIdleOnRight(n: Tok)
    requires n.Num?
    ensures var t := [n, Times, Dir(Right)];
      var up := AsWrittenCoordClamp(Up, Lit("1", "2"), t);
      var down := AsWrittenCoordClamp(Down, Lit("1", "2"), up);
      var left := AsWrittenCoordClamp(Left, Lit("1", ""), down);
      ApplyRule(SizeRule(SideLength, 1.5, Lit("1", "2")), left) == t
  {
    var t := [n, Times, Dir(Right)];
    AsWrittenClampIdle(Up, Lit("1", "2"), t);
    AsWrittenClampIdle(Down, Lit("1", "2"), t);
    AsWrittenClampIdle(Left, Lit("1", ""), t);
    RuleIdle(SizeRule(SideLength, 1.5, Lit("1", "2")), t);
  }

  /** `2.1` is still above 1.5: the repaired script fails the layout
      check again, whatever the interpreter says. */
  lemma AsWrittenKeepsLargeDecimal(interp: LayoutCheck.Interpreter)
    ensures LayoutCheck.TestScript(AsWrittenAutoFix([Num("2", "5"), Times, Dir(Right)]), interp).Some?
  {
    AsWrittenRewritesLargeDecimal();
    RewrittenDecimalFails(interp);
  }

  lemma RewrittenDecimalFails(interp: LayoutCheck.Interpreter)
    ensures LayoutCheck.TestScript([Num("2", "1"), Times, Dir(Right)], interp).Some?
  {
    var right := [Num("2", "1"), Times, Dir(Right)];
    assert CoordinateAt(right, 0);
    assert Value(right[0]) == 2.1 by {
      assert DigitsValue("2") == 2 by { assert "2"[..0] == []; }
      assert DigitsValue("1") == 1 by { assert "1"[..0] == []; }
      assert Pow10(1) == 10;
    }
    LayoutCheck.LargeValueFailsTest(right, interp, 0);
  }

  /** The corrected clamps turn `2.5*RIGHT` into `1*RIGHT`. */
  lemma CorrectedClampsLargeDecimal()
    ensures ApplyRules(AutoFixRules, [Num("2", "5"), Times, Dir(Right)]) == [Lit("1", ""), Times, Dir(Right)]
  {
    var s := [Num("2", "5"), Times, Dir(Right)];
    assert Value(s[0]) == 2.5 by {
      assert DigitsValue("2") == 2 by { assert "2"[..0] == []; }
      assert DigitsValue("5") == 5 by { assert "5"[..0] == []; }
      assert Pow10(1) == 10;
    }
    LargeValuesClamped(s, 0);
    SmallValuesUntouched(s, 1);
    SmallValuesUntouched(s, 2);
  }

  /** `0.5*RIGHT`, already small enough, is changed to `0.1*RIGHT`. */
  lemma AsWrittenShrinksSmallDecimal()
    ensures AsWrittenAutoFix([Num("0", "5"), Times, Dir(Right)]) == [Num("0", "1"), Times, Dir(Right)]
  {
    var s := [Num("0", "5"), Times, Dir(Right)];
    assert DigitsValue("5") == 5 by { assert "5"[..0] == []; }
    assert CoordinateAt(s, 0);
    var right := AsWrittenCoordClamp(Right, Lit("1", ""), s);
    assert NumText(Lit("1", "")) == "1";
    assert right[0] == Num("0", "1") && right[1] == Times && right[2] == Dir(Right);
    assert right == [Num("0", "1"), Times, Dir(Right)];
    LaterClampsIdleOnRight(Num("0", "1"));
  }
}
