/** `ManimOptimizer` (services/manim_optimizer.py): the passes
    `optimize_script` runs over a generated script, `validate_manim_quality`
    and `enhance_script_generation_prompt`. */
module Optimizer {
  import opened Results
  import opened Text
  import opened ScriptTokens
  import opened Clamps
  import opened LayoutCheck

  // ---- pass 1: _fix_coordinate_bounds --------------------------------------------

  /** The six clamps, in the order they are applied: RIGHT and LEFT
      multipliers above 1.8 become 1.8, UP and DOWN multipliers above 2.0
      become 2.0, `side_length` above 1.6 becomes 1.6, `radius` above 1.3
      becomes 1.3. */
  const BoundRules: seq<Rule> := [
    CoordRule(Right, 1.8, Lit("1", "8")),
    CoordRule(Up, 2.0, Lit("2", "0")),
    CoordRule(Down, 2.0, Lit("2", "0")),
    CoordRule(Left, 1.8, Lit("1", "8")),
    SizeRule(SideLength, 1.6, Lit("1", "6")),
    SizeRule(Radius, 1.3, Lit("1", "3"))
  ]

  lemma BoundRulesValid()
    ensures AllValid(BoundRules)
  {
    LiteralValues();
  }

  /** The bound on a multiplier of direction `d`. */
  function DirBound(d: Direction): real {
    if d == Right || d == Left then 1.8 else 2.0
  }

  /** The bound on a size argument. */
  function ParamBound(p: Param): real {
    if p == SideLength then 1.6 else 1.3
  }

  /** The literal a multiplier or size argument above its bound is replaced with. */
  function DirBoundLit(d: Direction): Tok {
    if d == Right || d == Left then Lit("1", "8") else Lit("2", "0")
  }

  function ParamBoundLit(p: Param): Tok {
    if p == SideLength then Lit("1", "6") else Lit("1", "3")
  }

  /** The rule of `BoundRules` for each direction and size argument. */
  function DirRuleIndex(d: Direction): (k: nat)
    ensures k < 4 && BoundRules[k] == CoordRule(d, DirBound(d), DirBoundLit(d))
  {
    match d
    case Right => 0
    case Up => 1
    case Down => 2
    case Left => 3
  }

  function ParamRuleIndex(p: Param): (k: nat)
    ensures 4 <= k < 6 && BoundRules[k] == SizeRule(p, ParamBound(p), ParamBoundLit(p))
  {
    if p == SideLength then 4 else 5
  }

  /** Every coordinate and size argument is within its bound. */
  predicate WithinBounds(toks: seq<Tok>) {
    (forall j :: 0 <= j < |toks| && CoordinateAt(toks, j) ==> Value(toks[j]) <= DirBound(toks[j + 2].d)) &&
    (forall j, p :: 0 <= j < |toks| && SizeAt(toks, j, p) ==> Value(toks[j]) <= ParamBound(p))
  }

  /** `_fix_coordinate_bounds`: `script` is passed through each clamp in turn. */
  method FixCoordinateBounds(script: seq<Tok>) returns (fixed: seq<Tok>)
    ensures fixed == ApplyRules(BoundRules, script)
  {
    fixed := script;
    var k := 0;
    while k < |BoundRules|
      invariant 0 <= k <= |BoundRules|
      invariant ApplyRules(BoundRules[k..], fixed) == ApplyRules(BoundRules, script)
    {
      assert BoundRules[k..][1..] == BoundRules[k + 1..];
      fixed := ApplyRule(BoundRules[k], fixed);
      k := k + 1;
    }
    assert BoundRules[k..] == [];
  }

  /** After the clamps every coordinate and size argument is within its bound. */
  lemma FixedScriptWithinBounds(script: seq<Tok>)
    ensures WithinBounds(ApplyRules(BoundRules, script))
  {
    var out := ApplyRules(BoundRules, script);
    BoundRulesValid();
    forall j | 0 <= j < |out| && CoordinateAt(out, j) ensures Value(out[j]) <= DirBound(out[j + 2].d) {
      var k := DirRuleIndex(out[j + 2].d);
      MatchedWithinLimit(BoundRules, script, k, j);
    }
    forall j, p | 0 <= j < |out| && SizeAt(out, j, p) ensures Value(out[j]) <= ParamBound(p) {
      var k := ParamRuleIndex(p);
      MatchedWithinLimit(BoundRules, script, k, j);
    }
  }

  /** A coordinate or size argument already within its bound is left as written. */
  lemma WithinBoundUntouched(script: seq<Tok>, i: int)
    requires 0 <= i < |script|
    requires CoordinateAt(script, i) ==> Value(script[i]) <= DirBound(script[i + 2].d)
    requires forall p :: SizeAt(script, i, p) ==> Value(script[i]) <= ParamBound(p)
    ensures ApplyRules(BoundRules, script)[i] == script[i]
  {
    forall k | 0 <= k < |BoundRules| && Matches(BoundRules[k], script, i)
      ensures Value(script[i]) <= BoundRules[k].limit
    {
      RuleLimitIsBound(script, i, k);
    }
    BoundRulesValid();
    SettledUnchanged(BoundRules, script, i);
  }

  /** The limit of a clamp matching position `i` is the bound of the
      direction or size argument found there. */
  lemma RuleLimitIsBound(script: seq<Tok>, i: int, k: int)
    requires 0 <= i < |script| && 0 <= k < |BoundRules| && Matches(BoundRules[k], script, i)
    ensures k < 4 ==> CoordinateAt(script, i) && BoundRules[k].limit == DirBound(script[i + 2].d)
    ensures 4 <= k ==> SizeAt(script, i, BoundRules[k].p) && BoundRules[k].limit == ParamBound(BoundRules[k].p)
  {
    if k < 4 {
      var d := match k case 0 => Right case 1 => Up case 2 => Down case _ => Left;
      assert BoundRules[k] == BoundRules[DirRuleIndex(d)];
    } else {
      var p := if k == 4 then SideLength else Radius;
      assert BoundRules[k] == BoundRules[ParamRuleIndex(p)];
    }
  }

  /** At a multiplier of direction `d` that is not a size argument, only
      the rule for `d` matches. */
  lemma OnlyDirRuleMatches(script: seq<Tok>, i: int)
    requires 0 <= i < |script| && CoordinateAt(script, i)
    requires i == 0 || !script[i - 1].Assign?
    ensures forall j :: 0 <= j < |BoundRules| && j != DirRuleIndex(script[i + 2].d) ==> !Matches(BoundRules[j], script, i)
  {
    var d := script[i + 2].d;
    forall j | 0 <= j < |BoundRules| && j != DirRuleIndex(d) ensures !Matches(BoundRules[j], script, i) {
      if j < 4 {
        assert BoundRules[j].CoordRule? && BoundRules[j].d != d;
      } else {
        assert BoundRules[j].SizeRule?;
      }
    }
  }

  /** A multiplier above its bound that is not also a size argument lands
      exactly on the bound. */
  lemma ClampLandsOnBound(script: seq<Tok>, i: int)
    requires 0 <= i < |script| && CoordinateAt(script, i)
    requires Value(script[i]) > DirBound(script[i + 2].d)
    requires i == 0 || !script[i - 1].Assign?
    ensures ApplyRules(BoundRules, script)[i] == DirBoundLit(script[i + 2].d)
  {
    BoundRulesValid();
    var k := DirRuleIndex(script[i + 2].d);
    OnlyDirRuleMatches(script, i);
    OnlyRuleFires(BoundRules, script, i, k);
  }

  /** A size argument above its bound that is not also a multiplier lands
      exactly on the bound. */
  lemma SizeClampLandsOnBound(script: seq<Tok>, i: int, p: Param)
    requires 0 <= i < |script| && SizeAt(script, i, p) && !CoordinateAt(script, i)
    requires Value(script[i]) > ParamBound(p)
    ensures ApplyRules(BoundRules, script)[i] == ParamBoundLit(p)
  {
    BoundRulesValid();
    var k := ParamRuleIndex(p);
    OnlyParamRuleMatches(script, i, p);
    OnlyRuleFires(BoundRules, script, i, k);
  }

  /** At a size argument that is not also a multiplier, only the rule for
      that argument matches. */
  lemma OnlyParamRuleMatches(script: seq<Tok>, i: int, p: Param)
    requires 0 <= i < |script| && SizeAt(script, i, p) && !CoordinateAt(script, i)
    ensures forall j :: 0 <= j < |BoundRules| && j != ParamRuleIndex(p) ==> !Matches(BoundRules[j], script, i)
  {
    forall j | 0 <= j < |BoundRules| && j != ParamRuleIndex(p) ensures !Matches(BoundRules[j], script, i) {
      if j < 4 {
        assert BoundRules[j].CoordRule?;
      } else {
        assert BoundRules[j].p != p;
      }
    }
  }

  /** A second pass of the clamps changes nothing. */
  lemma FixCoordinateBoundsIdempotent(script: seq<Tok>)
    ensures ApplyRules(BoundRules, ApplyRules(BoundRules, script)) == ApplyRules(BoundRules, script)
  {
    BoundRulesValid();
    ApplyRulesIdempotent(BoundRules, script);
  }

  // ---- pass 2: _optimize_geometry_sizes ------------------------------------------

  /** The numeral in `Square(side_length=N)`. */
  predicate SquareSideAt(toks: seq<Tok>, i: int) {
    2 <= i && i + 1 < |toks| && toks[i - 2] == Shape(Square) && toks[i - 1] == Assign(SideLength)
    && IsNumeral(toks[i]) && toks[i + 1] == Close
  }

  /** The numeral in `Circle(radius=N)`. */
  predicate CircleRadiusAt(toks: seq<Tok>, i: int) {
    2 <= i && i + 1 < |toks| && toks[i - 2] == Shape(Circle) && toks[i - 1] == Assign(Radius)
    && IsNumeral(toks[i]) && toks[i + 1] == Close
  }

  /** `_optimize_geometry_sizes`: every square gets side length 1.4 and
      every circle radius 1.1, whatever they were. */
  function OptimizeGeometrySizes(toks: seq<Tok>): (out: seq<Tok>)
    ensures |out| == |toks|
  {
    seq(|toks|, i requires 0 <= i < |toks| =>
      if SquareSideAt(toks, i) then Lit("1", "4")
      else if CircleRadiusAt(toks, i) then Lit("1", "1")
      else toks[i])
  }

  /** One position of the rewritten script. */
  lemma GeometryAt(toks: seq<Tok>, i: int)
    requires 0 <= i < |toks|
    ensures OptimizeGeometrySizes(toks)[i] ==
      if SquareSideAt(toks, i) then Lit("1", "4")
      else if CircleRadiusAt(toks, i) then Lit("1", "1")
      else toks[i]
  {
  }

  /** The pass only rewrites numerals, and leaves every other token as it was. */
  lemma GeometrySizesSameShape(toks: seq<Tok>)
    ensures SameShape(toks, OptimizeGeometrySizes(toks))
  {
    var out := OptimizeGeometrySizes(toks);
    forall i | 0 <= i < |toks|
      ensures (IsNumeral(toks[i]) <==> IsNumeral(out[i])) && (!IsNumeral(toks[i]) ==> toks[i] == out[i])
    {
      GeometryAt(toks, i);
    }
  }

  /** The two fixed sizes as numbers. */
  lemma FixedSizeValues()
    ensures IsNumeral(Lit("1", "4")) && Value(Lit("1", "4")) == 1.4
    ensures IsNumeral(Lit("1", "1")) && Value(Lit("1", "1")) == 1.1
  {
    LiteralValues();
  }

  /** A square or circle size in the rewritten script was one already. */
  lemma GeometryShapesKept(toks: seq<Tok>, i: int)
    requires 0 <= i < |toks|
    ensures SquareSideAt(OptimizeGeometrySizes(toks), i) ==> SquareSideAt(toks, i)
    ensures CircleRadiusAt(OptimizeGeometrySizes(toks), i) ==> CircleRadiusAt(toks, i)
  {
    if 2 <= i && i + 1 < |toks| {
      GeometryAt(toks, i - 2);
      GeometryAt(toks, i - 1);
      GeometryAt(toks, i);
      GeometryAt(toks, i + 1);
    }
  }

  /** Each square ends with side length 1.4 and each circle with radius 1.1. */
  lemma GeometrySizesFixed(toks: seq<Tok>)
    ensures forall i :: 0 <= i < |toks| && SquareSideAt(OptimizeGeometrySizes(toks), i) ==>
              Value(OptimizeGeometrySizes(toks)[i]) == 1.4
    ensures forall i :: 0 <= i < |toks| && CircleRadiusAt(OptimizeGeometrySizes(toks), i) ==>
              Value(OptimizeGeometrySizes(toks)[i]) == 1.1
  {
    var out := OptimizeGeometrySizes(toks);
    FixedSizeValues();
    forall i | 0 <= i < |toks| && SquareSideAt(out, i) ensures Value(out[i]) == 1.4 {
      GeometryShapesKept(toks, i);
      GeometryAt(toks, i);
    }
    forall i | 0 <= i < |toks| && CircleRadiusAt(out, i) ensures Value(out[i]) == 1.1 {
      GeometryShapesKept(toks, i);
      GeometryAt(toks, i);
    }
  }

  /** A script within bounds stays within bounds. */
  lemma GeometrySizesKeepBounds(toks: seq<Tok>)
    requires WithinBounds(toks)
    ensures WithinBounds(OptimizeGeometrySizes(toks))
  {
    var out := OptimizeGeometrySizes(toks);
    forall j | 0 <= j < |out| && CoordinateAt(out, j) ensures Value(out[j]) <= DirBound(out[j + 2].d) {
      GeometryCoordinateAt(toks, j);
      assert Value(toks[j]) <= DirBound(toks[j + 2].d);
    }
    forall j, p | 0 <= j < |out| && SizeAt(out, j, p) ensures Value(out[j]) <= ParamBound(p) {
      GeometrySizeAt(toks, j, p);
    }
  }

  /** A coordinate of the rewritten script is the same coordinate of the original. */
  lemma GeometryCoordinateAt(toks: seq<Tok>, j: int)
    requires 0 <= j < |toks| && CoordinateAt(OptimizeGeometrySizes(toks), j)
    ensures CoordinateAt(toks, j)
    ensures OptimizeGeometrySizes(toks)[j] == toks[j] && OptimizeGeometrySizes(toks)[j + 2] == toks[j + 2]
  {
    GeometryAt(toks, j);
    GeometryAt(toks, j + 1);
    GeometryAt(toks, j + 2);
  }

  /** A size argument of the rewritten script is one of the original, at
      most its old value or one of the fixed sizes under the bound. */
  lemma GeometrySizeAt(toks: seq<Tok>, j: int, p: Param)
    requires WithinBounds(toks) && 0 <= j < |toks| && SizeAt(OptimizeGeometrySizes(toks), j, p)
    ensures Value(OptimizeGeometrySizes(toks)[j]) <= ParamBound(p)
  {
    GeometryAt(toks, j);
    GeometryAt(toks, j - 1);
    if SquareSideAt(toks, j) || CircleRadiusAt(toks, j) {
      FixedSizeValues();
    } else {
      assert SizeAt(toks, j, p);
    }
  }

  /** Rewriting the sizes twice is the same as once. */
  lemma GeometrySizesIdempotent(toks: seq<Tok>)
    ensures OptimizeGeometrySizes(OptimizeGeometrySizes(toks)) == OptimizeGeometrySizes(toks)
  {
    var out := OptimizeGeometrySizes(toks);
    forall i | 0 <= i < |toks| ensures OptimizeGeometrySizes(out)[i] == out[i] {
      GeometryShapesKept(toks, i);
      GeometryAt(toks, i);
      GeometryAt(out, i);
    }
  }

  // ---- pass 3: _enhance_spacing_control ------------------------------------------

  /** `.arrange(DIR)` with no other argument. */
  predicate BareArrangeAt(toks: seq<Tok>, i: int) {
    0 <= i && i + 2 < |toks| && toks[i] == Arrange && toks[i + 1].Dir? && toks[i + 2] == Close
  }

  /** The four `.arrange(DIR)` rewrites: each bare call gains `, buff=0.4`. */
  function EnhanceSpacing(toks: seq<Tok>): (out: seq<Tok>)
    ensures |toks| < 3 ==> out == toks
    ensures |toks| >= 2 ==> |out| >= 2 && out[0] == toks[0] && out[1] == toks[1]
    ensures |toks| >= 3 && !BareArrangeAt(toks, 0) ==> |out| >= 3 && out[2] == toks[2]
    decreases |toks|
  {
    if |toks| < 3 then toks
    else if BareArrangeAt(toks, 0) then [Arrange, toks[1], BuffArg, Lit("0", "4"), Close] + EnhanceSpacing(toks[3..])
    else [toks[0]] + EnhanceSpacing(toks[1..])
  }

  /** No bare `.arrange(DIR)` survives the pass. */
  lemma {:induction false} SpacingLeavesNoBareArrange(toks: seq<Tok>)
    ensures forall i :: !BareArrangeAt(EnhanceSpacing(toks), i)
    decreases |toks|
  {
    var out := EnhanceSpacing(toks);
    if |toks| < 3 {
    } else if BareArrangeAt(toks, 0) {
      var rest := EnhanceSpacing(toks[3..]);
      SpacingLeavesNoBareArrange(toks[3..]);
      assert out == [Arrange, toks[1], BuffArg, Lit("0", "4"), Close] + rest;
      forall i ensures !BareArrangeAt(out, i) {
        if i >= 5 {
          assert !BareArrangeAt(rest, i - 5);
        }
      }
    } else {
      var rest := EnhanceSpacing(toks[1..]);
      SpacingLeavesNoBareArrange(toks[1..]);
      assert out == [toks[0]] + rest;
      forall i ensures !BareArrangeAt(out, i) {
        if i >= 1 {
          assert !BareArrangeAt(rest, i - 1);
        }
      }
    }
  }

  /** A script with no bare `.arrange(DIR)` is left as it is; so a second
      pass changes nothing. */
  lemma {:induction false} SpacingIdle(toks: seq<Tok>)
    requires forall i :: !BareArrangeAt(toks, i)
    ensures EnhanceSpacing(toks) == toks
    decreases |toks|
  {
    if |toks| >= 3 {
      forall i ensures !BareArrangeAt(toks[1..], i) {
        assert BareArrangeAt(toks[1..], i) ==> BareArrangeAt(toks, i + 1);
      }
      SpacingIdle(toks[1..]);
    }
  }

  lemma SpacingIdempotent(toks: seq<Tok>)
    ensures EnhanceSpacing(EnhanceSpacing(toks)) == EnhanceSpacing(toks)
  {
    SpacingLeavesNoBareArrange(toks);
    SpacingIdle(EnhanceSpacing(toks));
  }

  /** A script that had a bare `.arrange(DIR)` mentions `buff=` afterwards. */
  lemma {:induction false} SpacingAddsBuff(toks: seq<Tok>, i: int)
    requires BareArrangeAt(toks, i)
    ensures BuffArg in EnhanceSpacing(toks)
    decreases |toks|
  {
    if !BareArrangeAt(toks, 0) {
      assert BareArrangeAt(toks[1..], i - 1);
      SpacingAddsBuff(toks[1..], i - 1);
    }
  }

  // ---- pass 4: _add_precise_positioning ------------------------------------------

  /** `(Polygon|Square|Circle|Rectangle)\s*\([^)]*\)` finds a match: a shape
      call with a `)` somewhere after it. */
  predicate HasShapeCall(toks: seq<Tok>) {
    exists i, j :: 0 <= i < j < |toks| && toks[i].Shape? && Contains(TokText(toks[j]), ")")
  }

  /** Every `def construct(self):` ... `self.play` stretch, matched lazily
      and without overlap, gets the positioning block in front of its
      `self.play`; `seeking` says a `def construct(self):` is waiting for
      its `self.play`. */
  function InsertPositioning(toks: seq<Tok>, seeking: bool): (out: seq<Tok>)
    ensures out == toks || Inserted(Positioning) in out
  {
    if toks == [] then []
    else if toks[0] == Construct then [Construct] + InsertPositioning(toks[1..], true)
    else if toks[0] == Play && seeking then [Inserted(Positioning), Play] + InsertPositioning(toks[1..], false)
    else [toks[0]] + InsertPositioning(toks[1..], seeking)
  }

  /** `_add_precise_positioning`: only when the script has a shape call and
      does not yet move anything to `RIGHT*3`. */
  function AddPrecisePositioning(toks: seq<Tok>): seq<Tok> {
    if HasShapeCall(toks) && !Contains(Render(toks), RightZoneMove) then InsertPositioning(toks, false) else toks
  }

  /** The tokens of a script other than the inserted blocks of kind `b`. */
  function WithoutBlocks(toks: seq<Tok>, b: Block): seq<Tok> {
    if toks == [] then []
    else (if toks[0] == Inserted(b) then [] else [toks[0]]) + WithoutBlocks(toks[1..], b)
  }

  /** The pass only inserts positioning blocks. */
  lemma {:induction false} PositioningOnlyInserts(toks: seq<Tok>, seeking: bool)
    ensures WithoutBlocks(InsertPositioning(toks, seeking), Positioning) == WithoutBlocks(toks, Positioning)
  {
    if toks != [] {
      var out := InsertPositioning(toks, seeking);
      if toks[0] == Construct {
        PositioningOnlyInserts(toks[1..], true);
        assert out[1..] == InsertPositioning(toks[1..], true);
      } else if toks[0] == Play && seeking {
        PositioningOnlyInserts(toks[1..], false);
        assert out[1..][1..] == InsertPositioning(toks[1..], false);
      } else {
        PositioningOnlyInserts(toks[1..], seeking);
        assert out[1..] == InsertPositioning(toks[1..], seeking);
      }
    }
  }

  /** A `self.play` after a `def construct(self):` (or after the start of
      the script while one is pending) gets a block. */
  lemma {:induction false} PositioningReachesPlay(toks: seq<Tok>, seeking: bool, i: int, j: int)
    requires 0 <= i <= j < |toks| && toks[j] == Play
    requires (i < j && toks[i] == Construct) || (i == 0 && seeking)
    ensures Inserted(Positioning) in InsertPositioning(toks, seeking)
    decreases |toks|
  {
    var out := InsertPositioning(toks, seeking);
    if toks[0] == Construct {
      PositioningReachesPlay(toks[1..], true, 0, j - 1);
      assert out == [Construct] + InsertPositioning(toks[1..], true);
    } else if toks[0] == Play && seeking {
      assert out[0] == Inserted(Positioning);
    } else {
      if i == 0 {
        PositioningReachesPlay(toks[1..], seeking, 0, j - 1);
      } else {
        PositioningReachesPlay(toks[1..], seeking, i - 1, j - 1);
      }
      assert out == [toks[0]] + InsertPositioning(toks[1..], seeking);
    }
  }

  /** A script holding a positioning block moves its graphics to `RIGHT*3`. */
  lemma BlockMovesRight(out: seq<Tok>)
    requires Inserted(Positioning) in out
    ensures Contains(Render(out), RightZoneMove)
  {
    var k :| 0 <= k < |out| && out[k] == Inserted(Positioning);
    PositioningMovesRight();
    ContainsTokText(out, k, RightZoneMove);
  }

  /** A script with a shape call and a `self.play` inside `construct` moves
      its graphics to the right zone after the pass. */
  lemma PositioningPlacesGraphics(toks: seq<Tok>, i: int, j: int)
    requires HasShapeCall(toks)
    requires 0 <= i < j < |toks| && toks[i] == Construct && toks[j] == Play
    ensures Contains(Render(AddPrecisePositioning(toks)), RightZoneMove)
  {
    if !Contains(Render(toks), RightZoneMove) {
      PositioningReachesPlay(toks, false, i, j);
      BlockMovesRight(InsertPositioning(toks, false));
    }
  }

  /** Running the pass twice is the same as once: a script that received a
      block now moves its graphics to `RIGHT*3`. */
  lemma PositioningIdempotent(toks: seq<Tok>)
    ensures AddPrecisePositioning(AddPrecisePositioning(toks)) == AddPrecisePositioning(toks)
  {
    var out := AddPrecisePositioning(toks);
    if out != toks {
      BlockMovesRight(out);
    }
  }

  // ---- pass 6: _add_boundary_validation ------------------------------------------

  /** `(\s+)(self\.play)`: a `self.play` right after whitespace. */
  predicate SpacedPlayAt(toks: seq<Tok>, i: int) {
    1 <= i < |toks| && toks[i] == Play && TokText(toks[i - 1]) != [] && IsSpace(TokText(toks[i - 1])[|TokText(toks[i - 1])| - 1])
  }

  /** The first such `self.play` at or after position `from`. */
  function FirstSpacedPlay(toks: seq<Tok>, from: nat): (r: Option<nat>)
    ensures r.Some? ==> from <= r.value < |toks| && SpacedPlayAt(toks, r.value)
    ensures forall i :: from <= i < |toks| && (r.None? || i < r.value) ==> !SpacedPlayAt(toks, i)
    decreases |toks| - from
  {
    if from >= |toks| then None
    else if SpacedPlayAt(toks, from) then Some(from)
    else FirstSpacedPlay(toks, from + 1)
  }

  /** `_add_boundary_validation`: the validation block goes in front of the
      first `self.play` that follows whitespace, and nowhere else. */
  function AddBoundaryValidation(toks: seq<Tok>): (out: seq<Tok>)
    ensures FirstSpacedPlay(toks, 0).None? ==> out == toks
    ensures FirstSpacedPlay(toks, 0).Some? ==>
      var k := FirstSpacedPlay(toks, 0).value;
      out == toks[..k] + [Inserted(Validation)] + toks[k..] &&
      (forall i :: 0 <= i < k ==> !SpacedPlayAt(toks, i))
  {
    match FirstSpacedPlay(toks, 0)
    case None => toks
    case Some(k) => toks[..k] + [Inserted(Validation)] + toks[k..]
  }

  // ---- pass 5: _optimize_math_rendering ------------------------------------------

  predicate IsQuote(c: char) {
    c == '"' || c == '\''
  }

  /** `[一-鿿]`. */
  predicate IsCjk(c: char) {
    '\U{4E00}' <= c <= '\U{9FFF}'
  }

  predicate HasCjk(s: string) {
    exists m :: 0 <= m < |s| && IsCjk(s[m])
  }

  predicate NoQuote(s: string) {
    forall m :: 0 <= m < |s| ==> !IsQuote(s[m])
  }

  /** The first quote at or after `k`, or `|s|` when there is none. */
  function QuoteFrom(s: string, k: nat): (q: nat)
    requires k <= |s|
    ensures k <= q <= |s| && (q < |s| ==> IsQuote(s[q]))
    ensures NoQuote(s[k..q])
    decreases |s| - k
  {
    if k == |s| || IsQuote(s[k]) then k else QuoteFrom(s, k + 1)
  }

  /** The arguments of a `MathTex` call that open with a string literal
      holding CJK text: whitespace, a quote, the literal's text, a quote,
      and whatever follows. */
  datatype CjkLiteral = CjkLiteral(lead: string, open: char, body: string, close: char, rest: string)

  /** `MathTex\s*\(\s*["']([^"']*[一-鿿][^"']*)["']` on one call. */
  function CjkArgument(args: string): Option<CjkLiteral> {
    var t := LStrip(args);
    if t != [] && IsQuote(t[0]) then
      var q := QuoteFrom(t, 1);
      if q < |t| && HasCjk(t[1..q]) then
        Some(CjkLiteral(args[..|args| - |t|], t[0], t[1..q], t[q], t[q + 1..]))
      else None
    else None
  }

  /** A match splits the arguments into whitespace, a quoted literal with
      CJK text and no quote inside, and the rest. */
  lemma CjkArgumentParts(args: string)
    requires CjkArgument(args).Some?
    ensures var lit := CjkArgument(args).value;
      args == lit.lead + [lit.open] + lit.body + [lit.close] + lit.rest
  {
    var t := LStrip(args);
    var q := QuoteFrom(t, 1);
    SplitAtQuotes(args, t, q);
  }

  /** Arguments ending in `t` are what comes before `t`, then `t` cut at
      its first character and at index `q`. */
  lemma SplitAtQuotes(args: string, t: string, q: int)
    requires |t| <= |args| && t == args[|args| - |t|..] && 1 <= q < |t|
    ensures args == args[..|args| - |t|] + [t[0]] + t[1..q] + [t[q]] + t[q + 1..]
  {
    var lead := args[..|args| - |t|];
    QuotedSplit(t, q);
    assert args == lead + t;
    assert lead + ([t[0]] + t[1..q] + [t[q]] + t[q + 1..]) == lead + [t[0]] + t[1..q] + [t[q]] + t[q + 1..];
  }

  /** The parts are what the pattern says they are. */
  lemma CjkArgumentShape(args: string)
    requires CjkArgument(args).Some?
    ensures var lit := CjkArgument(args).value;
      AllSpace(lit.lead) && IsQuote(lit.open) && IsQuote(lit.close) && HasCjk(lit.body) && NoQuote(lit.body)
  {
  }

  lemma QuotedSplit(t: string, q: int)
    requires 1 <= q < |t|
    ensures t == [t[0]] + t[1..q] + [t[q]] + t[q + 1..]
  {
    assert t[q..] == [t[q]] + t[q + 1..];
    assert t[1..] == t[1..q] + t[q..];
  }

  /** `", font_size=20`: the keyword the first rewrite gives the `Text` call. */
  const TextFontSize: string := "\", font_size=20"

  /** The `Text(...)` call the first rewrite produces, as written: its
      replacement closes the call, and the `)` of the original `MathTex`
      call is left behind after `rest`. */
  function AsWrittenCjkText(lit: CjkLiteral): string {
    "Text" + "(" + "\"" + lit.body + TextFontSize + ")" + lit.rest + ")"
  }

  /** The `Text(...)` call the first rewrite evidently means: the literal
      moved into `Text` with `font_size=20`, the remaining arguments and
      the original closing `)` kept. */
  function CjkText(lit: CjkLiteral): string {
    "Text" + "(" + "\"" + lit.body + TextFontSize + lit.rest + ")"
  }

  const FontSizeKey: string := "font_size"
  const FontSizeArg: string := ", font_size=24"

  /** What `\(\s*([^)]+)\s*\)` captures from the non-empty text before the
      first `)`: all of it after leading whitespace, or its last character
      when it is all whitespace. */
  function FontSizeGroup(args: string): (g: string)
    requires args != []
  {
    if AllSpace(args) then [args[|args| - 1]] else LStrip(args)
  }

  /** The index of the first `)` at or after `k`, or `|s|` when there is none. */
  function CloseFrom(s: string, k: nat): (p: nat)
    requires k <= |s|
    ensures k <= p <= |s| && (p < |s| ==> s[p] == ')')
    ensures forall m :: k <= m < p ==> s[m] != ')'
    decreases |s| - k
  {
    if k == |s| || s[k] == ')' then k else CloseFrom(s, k + 1)
  }

  /** Where `[^)]+` stops in a call's arguments: at their first `)`, or at
      the call's own closing `)` when they hold none. */
  function FirstClose(args: string): nat {
    CloseFrom(args, 0)
  }

  /** The text of the call after the `)` that ends the match: the rest of
      the arguments and the call's own `)`, or nothing. */
  function AfterFirstClose(args: string): string {
    var p := FirstClose(args);
    if p < |args| then args[p + 1..] + ")" else []
  }

  /** The arguments after the second rewrite: `font_size=24` goes in at
      the first `)`, and whatever followed it stays. */
  function FontSizeArgs(args: string): (a: string)
    requires FirstClose(args) > 0
    ensures a == FontSizeGroup(args[..FirstClose(args)]) + FontSizeArg + args[FirstClose(args)..]
  {
    var p := FirstClose(args);
    FontSizeGroup(args[..p]) + FontSizeArg + args[p..]
  }

  /** The lookahead `(?!\s*,\s*font_size)` fails on the text after the call. */
  predicate FollowedByFontSize(after: string) {
    var r := LStrip(after);
    r != [] && r[0] == ',' && "font_size" <= LStrip(r[1..])
  }

  /** A `MathTex` call the first rewrite turns into `Text`. */
  predicate IsCjkCall(t: Tok) {
    t.MathTex? && CjkArgument(t.args).Some?
  }

  /** The first rewrite on one token. */
  function CjkTok(t: Tok, corrected: bool): Tok {
    if IsCjkCall(t) then
      var lit := CjkArgument(t.args).value;
      Code(if corrected then CjkText(lit) else AsWrittenCjkText(lit))
    else t
  }

  /** The first rewrite: `MathTex` calls on CJK literals become `Text` calls. */
  function CjkToText(toks: seq<Tok>, corrected: bool): (out: seq<Tok>)
    ensures |out| == |toks|
  {
    seq(|toks|, i requires 0 <= i < |toks| => CjkTok(toks[i], corrected))
  }

  /** Whether the second rewrite adds `font_size=24` to the call at `i`;
      the corrected rewrite leaves calls that already set `font_size` alone. */
  predicate GetsFontSize(toks: seq<Tok>, i: int, corrected: bool)
    requires 0 <= i < |toks|
  {
    toks[i].MathTex? && FirstClose(toks[i].args) > 0
    && !FollowedByFontSize(AfterFirstClose(toks[i].args) + Render(toks[i + 1..]))
    && (corrected ==> !Contains(toks[i].args, FontSizeKey))
  }

  /** The second rewrite: `MathTex(args)` becomes `MathTex(args, font_size=24)`
      when `args` hold no `)`; otherwise the keyword goes in at their first `)`. */
  function AddFontSize(toks: seq<Tok>, corrected: bool): (out: seq<Tok>)
    ensures |out| == |toks|
    ensures forall i :: 0 <= i < |toks| && out[i] != toks[i] ==>
      toks[i].MathTex? && out[i].MathTex? && 0 < FirstClose(toks[i].args) &&
      out[i].args == FontSizeGroup(toks[i].args[..FirstClose(toks[i].args)]) + FontSizeArg +
                     toks[i].args[FirstClose(toks[i].args)..]
  {
    seq(|toks|, i requires 0 <= i < |toks| =>
      if GetsFontSize(toks, i, corrected) then MathTex(FontSizeArgs(toks[i].args)) else toks[i])
  }

  /** `_optimize_math_rendering` as written. */
  function AsWrittenMathRendering(toks: seq<Tok>): seq<Tok> {
    AddFontSize(CjkToText(toks, false), false)
  }

  /** `_optimize_math_rendering` as evidently intended. */
  function OptimizeMathRendering(toks: seq<Tok>): seq<Tok> {
    AddFontSize(CjkToText(toks, true), true)
  }

  // ---- parenthesis balance ---------------------------------------------------------

  /** The number of `(` minus the number of `)`: zero for a script whose
      calls are closed. */
  function Balance(s: string): int {
    multiset(s)['('] as int - multiset(s)[')'] as int
  }

  predicate NoParen(s: string) {
    forall m :: 0 <= m < |s| ==> s[m] != '(' && s[m] != ')'
  }

  lemma NoParenBalance(s: string)
    requires NoParen(s)
    ensures Balance(s) == 0
  {
    assert '(' !in multiset(s);
    assert ')' !in multiset(s);
  }

  /** A `MathTex` call contributes the balance of its arguments. */
  lemma MathTexBalance(args: string)
    ensures Balance(TokText(MathTex(args))) == Balance(args)
  {
    MathTexOpenBalance();
  }

  lemma MathTexOpenBalance()
    ensures Balance("MathTex(") == 1
  {
  }

  /** Only the literal's text and what follows it carry parentheses. */
  lemma CjkArgumentBalance(args: string)
    requires CjkArgument(args).Some?
    ensures Balance(args) == Balance(CjkArgument(args).value.body) + Balance(CjkArgument(args).value.rest)
  {
    var lit := CjkArgument(args).value;
    CjkArgumentParts(args);
    SpaceBalance(lit.lead);
    QuoteBalance(lit.open);
    QuoteBalance(lit.close);
  }

  lemma SpaceBalance(s: string)
    requires AllSpace(s)
    ensures Balance(s) == 0
  {
    NoParenBalance(s);
  }

  lemma LastSpaceBalance(s: string)
    requires s != [] && AllSpace(s)
    ensures Balance([s[|s| - 1]]) == 0
  {
    NoParenBalance([s[|s| - 1]]);
  }

  lemma QuoteBalance(c: char)
    requires IsQuote(c)
    ensures Balance([c]) == 0
  {
    NoParenBalance([c]);
  }

  /** The parentheses of a `MathTex` call whose first argument is a CJK
      literal: the call's own pair and those of the arguments after the
      literal. */
  lemma CjkCallBalance(args: string)
    requires CjkArgument(args).Some?
    ensures var lit := CjkArgument(args).value;
      Balance(TokText(MathTex(args))) == Balance(lit.body) + Balance(lit.rest)
  {
    MathTexBalance(args);
    CjkArgumentBalance(args);
  }

  lemma TextFontSizeNoParen()
    ensures NoParen(TextFontSize)
  {
  }

  lemma TextFontSizeBalance()
    ensures Balance(TextFontSize) == 0
  {
    TextFontSizeNoParen();
    NoParenBalance(TextFontSize);
  }

  lemma TextHeadBalance()
    ensures Balance("Text") == 0 && Balance("\"") == 0
  {
    assert NoParen("Text");
    NoParenBalance("Text");
    assert NoParen("\"");
    NoParenBalance("\"");
  }

  lemma ParenBalance()
    ensures Balance("(") == 1 && Balance(")") == -1
  {
  }

  /** The corrected `Text` call keeps the parentheses balanced as they were. */
  lemma CjkTextBalance(args: string)
    requires CjkArgument(args).Some?
    ensures Balance(CjkText(CjkArgument(args).value)) == Balance(TokText(MathTex(args)))
  {
    CjkCallBalance(args);
    TextFontSizeBalance();
    TextHeadBalance();
    ParenBalance();
  }

  /** The `Text` call as written closes one parenthesis more than it opens. */
  lemma AsWrittenCjkTextBalance(args: string)
    requires CjkArgument(args).Some?
    ensures Balance(AsWrittenCjkText(CjkArgument(args).value)) == Balance(TokText(MathTex(args))) - 1
  {
    CjkCallBalance(args);
    TextFontSizeBalance();
    TextHeadBalance();
    ParenBalance();
  }

  lemma FontSizeArgNoParen()
    ensures NoParen(FontSizeArg)
  {
  }

  lemma FontSizeArgBalance()
    ensures Balance(FontSizeArg) == 0
  {
    FontSizeArgNoParen();
    NoParenBalance(FontSizeArg);
  }

  /** What the second rewrite keeps of a call's arguments holds all their
      parentheses. */
  lemma FontSizeGroupBalance(args: string)
    requires args != []
    ensures Balance(FontSizeGroup(args)) == Balance(args)
  {
    if AllSpace(args) {
      SpaceBalance(args);
      LastSpaceBalance(args);
    } else {
      var n := |args| - |LStrip(args)|;
      SplitBalance(args, n);
      SpaceBalance(args[..n]);
    }
  }

  function CjkCalls(toks: seq<Tok>): nat {
    if toks == [] then 0 else (if IsCjkCall(toks[0]) then 1 else 0) + CjkCalls(toks[1..])
  }

  /** A script's balance is the sum of its tokens' balances, so scripts
      whose tokens balance alike balance alike. */
  lemma {:induction false} RenderBalanceSame(a: seq<Tok>, b: seq<Tok>)
    requires |a| == |b|
    requires forall i :: 0 <= i < |a| ==> Balance(TokText(b[i])) == Balance(TokText(a[i]))
    ensures Balance(Render(b)) == Balance(Render(a))
  {
    if a != [] {
      RenderBalanceSame(a[1..], b[1..]);
    }
  }

  /** A script whose `MathTex` calls on CJK literals each lose one
      parenthesis loses one per such call. */
  lemma {:induction false} RenderBalanceShift(a: seq<Tok>, b: seq<Tok>)
    requires |a| == |b|
    requires forall i :: 0 <= i < |a| ==>
      Balance(TokText(b[i])) == Balance(TokText(a[i])) - (if IsCjkCall(a[i]) then 1 else 0)
    ensures Balance(Render(b)) == Balance(Render(a)) - CjkCalls(a)
  {
    if a != [] {
      RenderBalanceShift(a[1..], b[1..]);
    }
  }

  lemma AddFontSizeBalance(toks: seq<Tok>, corrected: bool)
    ensures Balance(Render(AddFontSize(toks, corrected))) == Balance(Render(toks))
  {
    var out := AddFontSize(toks, corrected);
    forall i | 0 <= i < |toks| ensures Balance(TokText(out[i])) == Balance(TokText(toks[i])) {
      if GetsFontSize(toks, i, corrected) {
        FontSizeCallBalance(toks[i].args);
      }
    }
    RenderBalanceSame(toks, out);
  }

  /** Adding `font_size=24` to a `MathTex` call keeps its parentheses
      matched as they were, wherever the first `)` is. */
  lemma FontSizeCallBalance(args: string)
    requires FirstClose(args) > 0
    ensures Balance(TokText(MathTex(FontSizeArgs(args)))) == Balance(TokText(MathTex(args)))
  {
    MathTexBalance(args);
    MathTexBalance(FontSizeArgs(args));
    FontSizeArgsBalance(args);
  }

  /** The new arguments hold the parentheses of the old ones. */
  lemma FontSizeArgsBalance(args: string)
    requires FirstClose(args) > 0
    ensures Balance(FontSizeArgs(args)) == Balance(args)
  {
    var p := FirstClose(args);
    FontSizeGroupBalance(args[..p]);
    FontSizeArgBalance();
    SplitBalance(args, p);
    ThreeBalance(FontSizeGroup(args[..p]), FontSizeArg, args[p..]);
  }

  lemma SplitBalance(s: string, p: nat)
    requires p <= |s|
    ensures Balance(s) == Balance(s[..p]) + Balance(s[p..])
  {
    assert s == s[..p] + s[p..];
    BalanceAppend(s[..p], s[p..]);
  }

  lemma ThreeBalance(a: string, b: string, c: string)
    ensures Balance(a + b + c) == Balance(a) + Balance(b) + Balance(c)
  {
    BalanceAppend(a, b);
    BalanceAppend(a + b, c);
  }

  lemma BalanceAppend(a: string, b: string)
    ensures Balance(a + b) == Balance(a) + Balance(b)
  {
    assert multiset(a + b) == multiset(a) + multiset(b);
  }

  lemma CodeText(text: string)
    ensures TokText(Code(text)) == text
  {
  }

  lemma CjkTokBalance(t: Tok)
    ensures Balance(TokText(CjkTok(t, true))) == Balance(TokText(t))
  {
    if IsCjkCall(t) {
      var lit := CjkArgument(t.args).value;
      assert CjkTok(t, true) == Code(CjkText(lit));
      CodeText(CjkText(lit));
      CjkTextBalance(t.args);
    }
  }

  lemma AsWrittenCjkTokBalance(t: Tok)
    ensures Balance(TokText(CjkTok(t, false))) == Balance(TokText(t)) - (if IsCjkCall(t) then 1 else 0)
  {
    if IsCjkCall(t) {
      var lit := CjkArgument(t.args).value;
      assert CjkTok(t, false) == Code(AsWrittenCjkText(lit));
      CodeText(AsWrittenCjkText(lit));
      AsWrittenCjkTextBalance(t.args);
    }
  }

  lemma CjkToTextBalance(toks: seq<Tok>)
    ensures Balance(Render(CjkToText(toks, true))) == Balance(Render(toks))
  {
    var first := CjkToText(toks, true);
    forall i | 0 <= i < |toks| ensures Balance(TokText(first[i])) == Balance(TokText(toks[i])) {
      CjkTokBalance(toks[i]);
    }
    RenderBalanceSame(toks, first);
  }

  lemma AsWrittenCjkToTextBalance(toks: seq<Tok>)
    ensures Balance(Render(CjkToText(toks, false))) == Balance(Render(toks)) - CjkCalls(toks)
  {
    var first := CjkToText(toks, false);
    forall i | 0 <= i < |toks|
      ensures Balance(TokText(first[i])) == Balance(TokText(toks[i])) - (if IsCjkCall(toks[i]) then 1 else 0)
    {
      AsWrittenCjkTokBalance(toks[i]);
    }
    RenderBalanceShift(toks, first);
  }

  /** The corrected pass leaves every parenthesis matched as it was. */
  lemma MathRenderingKeepsBalance(toks: seq<Tok>)
    ensures Balance(Render(OptimizeMathRendering(toks))) == Balance(Render(toks))
  {
    CjkToTextBalance(toks);
    AddFontSizeBalance(CjkToText(toks, true), true);
  }

  /** As written, every `MathTex` call on a CJK literal leaves one `)`
      more than there are `(`. */
  lemma AsWrittenMathUnbalances(toks: seq<Tok>)
    ensures Balance(Render(AsWrittenMathRendering(toks))) == Balance(Render(toks)) - CjkCalls(toks)
  {
    AsWrittenCjkToTextBalance(toks);
    AddFontSizeBalance(CjkToText(toks, false), false);
  }

  // ---- a single font_size per call -------------------------------------------------

  /** `font_size` occurs twice in a call's arguments: Python rejects the
      call as a repeated keyword argument. */
  predicate RepeatsFontSize(args: string) {
    exists p, q :: 0 <= p < q < |args| && OccursAt(args, FontSizeKey, p) && OccursAt(args, FontSizeKey, q)
  }

  lemma FontSizeKeyChars()
    ensures |FontSizeKey| == 9 && FontSizeKey[0] == 'f'
    ensures forall m :: 0 <= m < |FontSizeKey| ==> FontSizeKey[m] != ','
  {
  }

  lemma FontSizeArgChars()
    ensures |FontSizeArg| == 14 && FontSizeArg[0] == ','
    ensures forall m :: 0 <= m < 14 && m != 2 ==> FontSizeArg[m] != 'f'
  {
  }

  /** Put between text without `font_size`, `, font_size=24` holds the
      only occurrence of the keyword, two characters after the head. */
  lemma OnlyInsertedFontSize(g: string, rest: string, p: int)
    requires !Contains(g, FontSizeKey) && !Contains(rest, FontSizeKey) && 0 <= p && p != |g| + 2
    ensures !OccursAt(g + FontSizeArg + rest, FontSizeKey, p)
  {
    var s := g + FontSizeArg + rest;
    FontSizeKeyChars();
    FontSizeArgChars();
    if p + 9 <= |s| {
      if p + 9 <= |g| {
        assert s[p..p + 9] == g[p..p + 9];
        assert !OccursAt(g, FontSizeKey, p);
      } else if p < |g| {
        assert s[|g|] == ',';
        assert s[p..p + 9][|g| - p] == s[|g|];
      } else if p < |g| + 14 {
        assert s[p..p + 9][0] == s[p] == FontSizeArg[p - |g|];
      } else {
        var k := p - |g| - 14;
        assert s[p..p + 9] == rest[k..k + 9];
        assert !OccursAt(rest, FontSizeKey, k);
      }
    }
  }

  lemma InsertedFontSizeOnce(g: string, rest: string)
    requires !Contains(g, FontSizeKey) && !Contains(rest, FontSizeKey)
    ensures !RepeatsFontSize(g + FontSizeArg + rest)
  {
    var s := g + FontSizeArg + rest;
    forall p, q | 0 <= p < q < |s| ensures !(OccursAt(s, FontSizeKey, p) && OccursAt(s, FontSizeKey, q)) {
      if p == |g| + 2 {
        OnlyInsertedFontSize(g, rest, q);
      } else {
        OnlyInsertedFontSize(g, rest, p);
      }
    }
  }

  /** Arguments without `font_size` hold it neither before nor after their
      first `)`. */
  lemma SplitWithoutKey(args: string, p: nat)
    requires p <= |args| && !Contains(args, FontSizeKey)
    ensures !Contains(args[..p], FontSizeKey) && !Contains(args[p..], FontSizeKey)
  {
    NotInSuffix(args, p, FontSizeKey);
    assert args[..p] + args[p..] == args;
    if Contains(args[..p], FontSizeKey) {
      ContainsInPrefix(args[..p], args[p..], FontSizeKey);
    }
  }

  /** What the second rewrite keeps of the arguments has no `font_size`
      unless the arguments have one. */
  lemma FontSizeGroupKey(args: string)
    requires args != [] && !Contains(args, FontSizeKey)
    ensures !Contains(FontSizeGroup(args), FontSizeKey)
  {
    if AllSpace(args) {
      assert |FontSizeGroup(args)| < |FontSizeKey|;
    } else {
      var t := LStrip(args);
      NotInSuffix(args, |args| - |t|, FontSizeKey);
    }
  }

  /** The corrected pass never gives a call `font_size` twice: the first
      rewrite leaves no new `MathTex` call and the second only adds the
      keyword to calls without it. */
  lemma MathRenderingSingleFontSize(toks: seq<Tok>)
    requires forall i :: 0 <= i < |toks| && toks[i].MathTex? ==> !RepeatsFontSize(toks[i].args)
    ensures var out := OptimizeMathRendering(toks);
      forall i :: 0 <= i < |out| && out[i].MathTex? ==> !RepeatsFontSize(out[i].args)
  {
    var first := CjkToText(toks, true);
    var out := AddFontSize(first, true);
    forall i | 0 <= i < |out| && out[i].MathTex? ensures !RepeatsFontSize(out[i].args) {
      assert first[i] == CjkTok(toks[i], true);
      if GetsFontSize(first, i, true) {
        var args := first[i].args;
        var p := FirstClose(args);
        SplitWithoutKey(args, p);
        FontSizeGroupKey(args[..p]);
        InsertedFontSizeOnce(FontSizeGroup(args[..p]), args[p..]);
      } else {
        assert out[i] == first[i];
        assert first[i] == toks[i];
      }
    }
  }

  /** A call that already sets its size, as it reaches the pass. */
  const SizedCall: Tok := MathTex("x, font_size=30")

  lemma SizedCallShape()
    ensures !IsCjkCall(SizedCall)
  {
    assert SizedCall.args[0] == 'x';
    assert LStrip(SizedCall.args) == SizedCall.args;
  }

  lemma SizedCallChars()
    ensures SizedCall.args != [] && !IsSpace(SizedCall.args[0])
    ensures forall m :: 0 <= m < |SizedCall.args| ==> SizedCall.args[m] != ')'
  {
  }

  /** Arguments without `)` that start with a non-space character get
      `, font_size=24` appended. */
  lemma PlainArgsFontSize(args: string)
    requires args != [] && !IsSpace(args[0])
    requires forall m :: 0 <= m < |args| ==> args[m] != ')'
    ensures FirstClose(args) == |args| && AfterFirstClose(args) == []
    ensures FontSizeArgs(args) == args + FontSizeArg
  {
    NoCloseAtAll(args);
    assert args[..|args|] == args && args[|args|..] == [];
    assert LStrip(args) == args;
  }

  lemma NoCloseAtAll(s: string)
    requires forall m :: 0 <= m < |s| ==> s[m] != ')'
    ensures FirstClose(s) == |s|
  {
  }

  lemma SizedCallUnchangedFirst()
    ensures CjkToText([SizedCall], false) == [SizedCall]
  {
    SizedCallShape();
    assert CjkToText([SizedCall], false)[0] == CjkTok(SizedCall, false) == SizedCall;
  }

  lemma AsWrittenSizedCall()
    ensures AsWrittenMathRendering([SizedCall]) == [MathTex("x, font_size=30" + FontSizeArg)]
  {
    SizedCallUnchangedFirst();
    SizedCallChars();
    PlainArgsFontSize(SizedCall.args);
    assert [SizedCall][1..] == [];
    assert GetsFontSize([SizedCall], 0, false);
  }

  /** As written, the second rewrite gives a call that sets `font_size`
      the keyword a second time. */
  lemma AsWrittenRepeatsFontSize()
    ensures var out := AsWrittenMathRendering([SizedCall]);
      |out| == 1 && out[0].MathTex? && RepeatsFontSize(out[0].args)
  {
    AsWrittenSizedCall();
    SizedArgsHaveKey();
    AppendedFontSizeRepeats("x, font_size=30", 3);
  }

  lemma SizedArgsHaveKey()
    ensures OccursAt("x, font_size=30", FontSizeKey, 3)
  {
    assert "x, font_size=30" == "x, " + FontSizeKey + "=30";
    OccursInMiddle("x, ", FontSizeKey, "=30");
  }

  /** As written, arguments that already name `font_size` get it a
      second time. */
  lemma AppendedFontSizeRepeats(g: string, p: int)
    requires 0 <= p && OccursAt(g, FontSizeKey, p)
    ensures RepeatsFontSize(g + FontSizeArg)
  {
    var s := g + FontSizeArg;
    assert s[p..p + |FontSizeKey|] == g[p..p + |FontSizeKey|];
    assert FontSizeArg == ", " + FontSizeKey + "=24";
    assert s == g + ", " + FontSizeKey + "=24";
    OccursInMiddle(g + ", ", FontSizeKey, "=24");
    assert OccursAt(s, FontSizeKey, p) && OccursAt(s, FontSizeKey, |g| + 2);
  }

  /** A formula whose string holds a `)`: `[^)]+` stops inside the string. */
  const ParenCall: Tok := MathTex("\"f(x)\"")

  lemma ParenCallChars()
    ensures |ParenCall.args| == 6 && ParenCall.args[0] == '"' && ParenCall.args[4] == ')' && ParenCall.args[5] == '"'
    ensures forall m :: 0 <= m < 4 ==> ParenCall.args[m] != ')'
    ensures forall m :: 1 <= m < 5 ==> !IsQuote(ParenCall.args[m]) && !IsCjk(ParenCall.args[m])
  {
  }

  lemma ParenCallSlices()
    ensures ParenCall.args[..4] == "\"f(x" && ParenCall.args[4..] == ")\"" && ParenCall.args[5..] == "\""
  {
  }

  /** The first `)` at or after `k` is the one at `p`. */
  lemma {:induction false} CloseFromAt(s: string, k: nat, p: nat)
    requires k <= p < |s| && s[p] == ')'
    requires forall m :: k <= m < p ==> s[m] != ')'
    ensures CloseFrom(s, k) == p
    decreases p - k
  {
    if k < p {
      CloseFromAt(s, k + 1, p);
    }
  }

  /** The first quote at or after `k` is the one at `q`. */
  lemma {:induction false} QuoteFromAt(s: string, k: nat, q: nat)
    requires k <= q < |s| && IsQuote(s[q])
    requires forall m :: k <= m < q ==> !IsQuote(s[m])
    ensures QuoteFrom(s, k) == q
    decreases q - k
  {
    if k < q {
      QuoteFromAt(s, k + 1, q);
    }
  }

  lemma ParenCallNotCjk()
    ensures !IsCjkCall(ParenCall)
  {
    var a := ParenCall.args;
    ParenCallChars();
    assert LStrip(a) == a;
    QuoteFromAt(a, 1, 5);
    assert !HasCjk(a[1..5]);
  }

  lemma ParenCallClose()
    ensures FirstClose(ParenCall.args) == 4 && AfterFirstClose(ParenCall.args) == "\")"
  {
    ParenCallChars();
    CloseFromAt(ParenCall.args, 0, 4);
    ParenCallSlices();
  }

  /** Text starting with a non-space character is captured whole. */
  lemma GroupOfUnspaced(s: string)
    requires s != [] && !IsSpace(s[0])
    ensures FontSizeGroup(s) == s
  {
    assert LStrip(s) == s;
  }

  lemma ParenCallArgs()
    ensures FirstClose(ParenCall.args) > 0
    ensures FontSizeArgs(ParenCall.args) == "\"f(x" + FontSizeArg + ")\""
  {
    ParenCallClose();
    ParenCallSlices();
    assert !IsSpace(ParenCall.args[..4][0]);
    GroupOfUnspaced(ParenCall.args[..4]);
  }

  lemma ParenCallNotFollowed()
    ensures !FollowedByFontSize(AfterFirstClose(ParenCall.args))
  {
    ParenCallClose();
    assert LStrip("\")") == "\")";
  }

  /** Text shorter than `font_size` does not contain it. */
  lemma ShortLacksKey(s: string)
    requires |s| < |FontSizeKey|
    ensures !Contains(s, FontSizeKey)
  {
  }

  /** A script of one call that is not a CJK call: the first rewrite keeps it. */
  lemma LoneCallNotCjk(t: Tok, corrected: bool)
    requires !IsCjkCall(t)
    ensures CjkToText([t], corrected) == [t]
  {
    assert CjkToText([t], corrected)[0] == CjkTok(t, corrected) == t;
  }

  /** A script of one call the second rewrite matches: it gets the keyword. */
  lemma LoneCallGetsFontSize(t: Tok, corrected: bool)
    requires t.MathTex? && FirstClose(t.args) > 0 && !FollowedByFontSize(AfterFirstClose(t.args))
    requires corrected ==> !Contains(t.args, FontSizeKey)
    ensures AddFontSize([t], corrected) == [MathTex(FontSizeArgs(t.args))]
  {
    assert [t][1..] == [];
    assert AfterFirstClose(t.args) + Render([t][1..]) == AfterFirstClose(t.args);
    assert GetsFontSize([t], 0, corrected);
  }

  /** `MathTex("f(x)")` becomes `MathTex("f(x, font_size=24)")`, as written
      and corrected alike: the keyword lands inside the string. */
  lemma FontSizeLandsInString()
    ensures AsWrittenMathRendering([ParenCall]) == [MathTex("\"f(x" + FontSizeArg + ")\"")]
    ensures OptimizeMathRendering([ParenCall]) == [MathTex("\"f(x" + FontSizeArg + ")\"")]
  {
    ParenCallNotCjk();
    LoneCallNotCjk(ParenCall, false);
    LoneCallNotCjk(ParenCall, true);
    ParenCallArgs();
    ParenCallNotFollowed();
    ParenCallChars();
    ShortLacksKey(ParenCall.args);
    LoneCallGetsFontSize(ParenCall, false);
    LoneCallGetsFontSize(ParenCall, true);
  }

  /** A formula label in Chinese, as the scripts produce for CJK prompts. */
  const CjkCall: Tok := MathTex("\"中\"")

  lemma CjkCallChars()
    ensures |CjkCall.args| == 3 && CjkCall.args[0] == '"' && CjkCall.args[1] == '中' && CjkCall.args[2] == '"'
  {
  }

  lemma CjkCallLiteral()
    ensures CjkArgument(CjkCall.args) == Some(CjkLiteral([], '"', "中", '"', []))
  {
    var t := CjkCall.args;
    CjkCallChars();
    assert LStrip(t) == t;
    assert QuoteFrom(t, 2) == 2;
    assert QuoteFrom(t, 1) == 2;
    assert t[1..2] == "中" && IsCjk(t[1..2][0]);
    assert t[..0] == [] && t[3..] == [];
  }

  lemma CjkCallMatches()
    ensures IsCjkCall(CjkCall) && CjkCalls([CjkCall]) == 1
  {
    CjkCallLiteral();
    assert [CjkCall][1..] == [];
  }

  lemma CjkCallBalanced()
    ensures Balance(Render([CjkCall])) == 0
  {
    assert Render([CjkCall]) == TokText(CjkCall) + Render([CjkCall][1..]);
    assert [CjkCall][1..] == [];
    MathTexBalance(CjkCall.args);
    assert NoParen(CjkCall.args);
    NoParenBalance(CjkCall.args);
  }

  /** As written, a balanced one-call script comes out with an unmatched `)`. */
  lemma AsWrittenCjkCallUnbalanced()
    ensures Balance(Render([CjkCall])) == 0
    ensures Balance(Render(AsWrittenMathRendering([CjkCall]))) == -1
  {
    CjkCallMatches();
    CjkCallBalanced();
    AsWrittenMathUnbalances([CjkCall]);
  }

  // ---- the validation block -------------------------------------------------------

  lemma {:induction false} WithoutBlocksAppend(a: seq<Tok>, b: seq<Tok>, blk: Block)
    ensures WithoutBlocks(a + b, blk) == WithoutBlocks(a, blk) + WithoutBlocks(b, blk)
  {
    if a == [] {
      assert a + b == b;
    } else {
      assert (a + b)[1..] == a[1..] + b;
      WithoutBlocksAppend(a[1..], b, blk);
    }
  }

  lemma WithoutInserted(a: seq<Tok>, b: seq<Tok>, blk: Block)
    ensures WithoutBlocks(a + [Inserted(blk)] + b, blk) == WithoutBlocks(a + b, blk)
  {
    var wa := WithoutBlocks(a, blk);
    WithoutBlocksAppend(a + [Inserted(blk)], b, blk);
    WithoutBlocksAppend(a, [Inserted(blk)], blk);
    WithoutBlocksAppend(a, b, blk);
    assert WithoutBlocks([Inserted(blk)], blk) == [];
    assert wa + [] == wa;
  }

  /** The validation pass only inserts its block: dropping the validation
      blocks from the result gives back the script without them. */
  lemma ValidationOnlyInserts(toks: seq<Tok>)
    ensures WithoutBlocks(AddBoundaryValidation(toks), Validation) == WithoutBlocks(toks, Validation)
  {
    if FirstSpacedPlay(toks, 0).Some? {
      var k := FirstSpacedPlay(toks, 0).value;
      WithoutInserted(toks[..k], toks[k..], Validation);
      assert toks[..k] + toks[k..] == toks;
    }
  }

  /** Without a `self.play` that starts a line the pass changes nothing. */
  lemma ValidationNeedsPlay(toks: seq<Tok>)
    requires forall i :: 0 <= i < |toks| ==> !SpacedPlayAt(toks, i)
    ensures AddBoundaryValidation(toks) == toks
  {
  }

  /** Otherwise the block goes right before the first one. */
  lemma ValidationBeforeFirstPlay(toks: seq<Tok>, k: int)
    requires 0 <= k < |toks| && SpacedPlayAt(toks, k)
    requires forall i :: 0 <= i < k ==> !SpacedPlayAt(toks, i)
    ensures AddBoundaryValidation(toks) == toks[..k] + [Inserted(Validation)] + toks[k..]
  {
    FirstSpacedPlayIs(toks, 0, k);
  }

  /** So the script grows by the block alone, which sits right before that
      `self.play`. */
  lemma ValidationGrowsByBlock(toks: seq<Tok>, k: int)
    requires 0 <= k < |toks| && SpacedPlayAt(toks, k)
    requires forall i :: 0 <= i < k ==> !SpacedPlayAt(toks, i)
    ensures |AddBoundaryValidation(toks)| == |toks| + 1
    ensures AddBoundaryValidation(toks)[k] == Inserted(Validation) && AddBoundaryValidation(toks)[k + 1] == Play
  {
    ValidationBeforeFirstPlay(toks, k);
    InsertedBefore(toks[..k], Inserted(Validation), toks[k..]);
  }

  lemma InsertedBefore(pre: seq<Tok>, t: Tok, post: seq<Tok>)
    requires post != []
    ensures var out := pre + [t] + post;
      |out| == |pre| + |post| + 1 && out[|pre|] == t && out[|pre| + 1] == post[0]
  {
  }

  /** The search from `from` stops at the first match it reaches. */
  lemma {:induction false} FirstSpacedPlayIs(toks: seq<Tok>, from: nat, k: int)
    requires from <= k < |toks| && SpacedPlayAt(toks, k)
    requires forall i :: from <= i < k ==> !SpacedPlayAt(toks, i)
    ensures FirstSpacedPlay(toks, from) == Some(k)
    decreases k - from
  {
    if from < k {
      assert !SpacedPlayAt(toks, from);
      FirstSpacedPlayIs(toks, from + 1, k);
      assert FirstSpacedPlay(toks, from) == FirstSpacedPlay(toks, from + 1);
    } else {
      assert SpacedPlayAt(toks, from);
      assert FirstSpacedPlay(toks, from) == Some(from);
    }
  }

  // ---- optimize_script ------------------------------------------------------------

  /** The six passes of `optimize_script` composed in their order, with
      the math pass as the code runs it. */
  function OptimizedScript(script: seq<Tok>): seq<Tok> {
    AddBoundaryValidation(AsWrittenMathRendering(AddPrecisePositioning(
      EnhanceSpacing(OptimizeGeometrySizes(ApplyRules(BoundRules, script))))))
  }

  /** `optimize_script`: the six passes, in order, each on the result of
      the one before. */
  method OptimizeScript(script: seq<Tok>) returns (out: seq<Tok>)
    ensures out == OptimizedScript(script)
  {
    out := FixCoordinateBounds(script);
    out := OptimizeGeometrySizes(out);
    out := EnhanceSpacing(out);
    out := AddPrecisePositioning(out);
    out := AsWrittenMathRendering(out);
    out := AddBoundaryValidation(out);
  }

  /** After the first two passes every coordinate and size argument is
      within the bounds of the first. */
  lemma SizingPassesWithinBounds(script: seq<Tok>)
    ensures WithinBounds(OptimizeGeometrySizes(ApplyRules(BoundRules, script)))
  {
    FixedScriptWithinBounds(script);
    GeometrySizesKeepBounds(ApplyRules(BoundRules, script));
  }

  /** A script that is one `MathTex` call on a CJK literal passes the
      first four passes untouched, so `optimize_script` hands on the math
      pass's unbalanced `Text(...))`, where the intended pass would have
      kept it balanced. */
  lemma OptimizedCjkCallUnbalanced()
    ensures Balance(Render(OptimizedScript([CjkCall]))) == -1
    ensures Balance(Render(AddBoundaryValidation(OptimizeMathRendering([CjkCall])))) == 0
  {
    var script := [CjkCall];
    WithinBoundUntouched(script, 0);
    var fixed := ApplyRules(BoundRules, script);
    assert fixed == script;
    assert OptimizeGeometrySizes(script) == script;
    assert EnhanceSpacing(script) == script;
    assert !HasShapeCall(script);
    assert AddPrecisePositioning(script) == script;
    AsWrittenCjkCallUnbalanced();
    CjkCallBalanced();
    MathRenderingKeepsBalance(script);
    ValidationNeedsPlay(AsWrittenMathRendering(script));
    ValidationNeedsPlay(OptimizeMathRendering(script));
  }

  // ---- validate_manim_quality ------------------------------------------------------

  datatype QualityIssue =
    | CoordinateTooLarge(coord: Tok)   // a coordinate literal above 1.5
    | NoSpacing                // `.arrange(` with no `buff=` anywhere
    | NotPlaced              // `Polygon(`/`Square(` with no `move_to(RIGHT*3)`
    | SideTooLarge(size: Tok)          // a `side_length` above 1.2

  datatype QualityReport = QualityReport(hasIssues: bool, issues: seq<QualityIssue>, score: int)

  const CoordinateLimit: real := 1.5
  const SideLimit: real := 1.2

  predicate MissesSpacing(text: string) {
    Contains(text, ".arrange(") && !Contains(text, "buff=")
  }

  predicate MissesPlacement(text: string) {
    (Contains(text, "Polygon(") || Contains(text, "Square(")) && !Contains(text, RightZoneMove)
  }

  /** `max(0, 100 - 20 * n)`. */
  function Score(n: nat): (s: int)
    ensures 0 <= s <= 100 && s % 20 == 0
    ensures s == 100 <==> n == 0
    ensures s == 0 <==> n >= 5
    ensures 0 < n < 5 ==> s == 100 - 20 * n
  {
    if 100 - 20 * n < 0 then 0 else 100 - 20 * n
  }

  function CoordinateIssuesOf(nums: seq<Tok>): (r: seq<QualityIssue>)
    ensures |r| == |nums| && forall k :: 0 <= k < |r| ==> r[k] == CoordinateTooLarge(nums[k])
  {
    seq(|nums|, k requires 0 <= k < |nums| => CoordinateTooLarge(nums[k]))
  }

  function SideIssuesOf(nums: seq<Tok>): (r: seq<QualityIssue>)
    ensures |r| == |nums| && forall k :: 0 <= k < |r| ==> r[k] == SideTooLarge(nums[k])
  {
    seq(|nums|, k requires 0 <= k < |nums| => SideTooLarge(nums[k]))
  }

  /** The issues for the large coordinates, the two text checks and the
      large side lengths, in that order. */
  function IssueList(c: seq<Tok>, sd: seq<Tok>, spacing: bool, placement: bool): seq<QualityIssue> {
    CoordinateIssuesOf(c) + (if spacing then [NoSpacing] else []) + (if placement then [NotPlaced] else []) + SideIssuesOf(sd)
  }

  /** The issues `validate_manim_quality` reports, in the order it finds them. */
  function QualityIssues(toks: seq<Tok>): seq<QualityIssue> {
    IssueList(CoordsAbove(toks, CoordinateLimit, 0), SizesAbove(toks, SideLength, SideLimit, 0),
      MissesSpacing(Render(toks)), MissesPlacement(Render(toks)))
  }

  lemma AppendAssoc(a: seq<Tok>, b: seq<Tok>, c: seq<Tok>)
    ensures (a + b) + c == a + (b + c)
  {
  }

  /** `re.findall` over the coordinates, keeping the literals above the limit. */
  method ScanCoordinates(toks: seq<Tok>, limit: real) returns (found: seq<Tok>)
    ensures found == CoordsAbove(toks, limit, 0)
  {
    found := [];
    var j := 0;
    while j < |toks|
      invariant 0 <= j <= |toks|
      invariant found + CoordsAbove(toks, limit, j) == CoordsAbove(toks, limit, 0)
    {
      ghost var old_found := found;
      ghost var step := if CoordinateAt(toks, j) && Value(toks[j]) > limit then [toks[j]] else [];
      assert CoordsAbove(toks, limit, j) == step + CoordsAbove(toks, limit, j + 1);
      if CoordinateAt(toks, j) && Value(toks[j]) > limit {
        found := found + [toks[j]];
      }
      assert found == old_found + step;
      ghost var rest := CoordsAbove(toks, limit, j + 1);
      AppendAssoc(old_found, step, rest);
      assert found + rest == old_found + CoordsAbove(toks, limit, j);
      j := j + 1;
    }
  }

  /** `re.findall` over the `side_length=` arguments, keeping those above the limit. */
  method ScanSideLengths(toks: seq<Tok>, limit: real) returns (found: seq<Tok>)
    ensures found == SizesAbove(toks, SideLength, limit, 0)
  {
    found := [];
    var j := 0;
    while j < |toks|
      invariant 0 <= j <= |toks|
      invariant found + SizesAbove(toks, SideLength, limit, j) == SizesAbove(toks, SideLength, limit, 0)
    {
      ghost var old_found := found;
      ghost var step := if SizeAt(toks, j, SideLength) && Value(toks[j]) > limit then [toks[j]] else [];
      assert SizesAbove(toks, SideLength, limit, j) == step + SizesAbove(toks, SideLength, limit, j + 1);
      if SizeAt(toks, j, SideLength) && Value(toks[j]) > limit {
        found := found + [toks[j]];
      }
      assert found == old_found + step;
      ghost var rest := SizesAbove(toks, SideLength, limit, j + 1);
      AppendAssoc(old_found, step, rest);
      assert found + rest == old_found + SizesAbove(toks, SideLength, limit, j);
      j := j + 1;
    }
  }

  /** `validate_manim_quality`: the issues in the order they are appended,
      `has_issues` and the score. */
  method ValidateQuality(toks: seq<Tok>) returns (report: QualityReport)
    ensures report.issues == QualityIssues(toks)
    ensures report.hasIssues <==> report.issues != []
    ensures report.score == Score(|report.issues|)
  {
    var coords := ScanCoordinates(toks, CoordinateLimit);
    var issues := CoordinateIssuesOf(coords);
    ghost var found := issues;
    var text := Render(toks);
    ghost var spacing: seq<QualityIssue> := if MissesSpacing(text) then [NoSpacing] else [];
    ghost var placement: seq<QualityIssue> := if MissesPlacement(text) then [NotPlaced] else [];
    if MissesSpacing(text) {
      issues := issues + [NoSpacing];
    }
    assert issues == found + spacing;
    if MissesPlacement(text) {
      issues := issues + [NotPlaced];
    }
    assert issues == found + spacing + placement;
    var sides := ScanSideLengths(toks, SideLimit);
    issues := issues + SideIssuesOf(sides);
    report := QualityReport(|issues| > 0, issues, Score(|issues|));
  }

  /** A script gets no issue exactly when every coordinate is at most 1.5,
      every side length at most 1.2, an `.arrange(` comes with a `buff=`
      and the graphics are moved into the right-hand zone. */
  lemma QualityCleanIff(toks: seq<Tok>)
    ensures QualityIssues(toks) == [] <==>
      (forall j :: 0 <= j < |toks| && CoordinateAt(toks, j) ==> Value(toks[j]) <= CoordinateLimit) &&
      (forall j :: 0 <= j < |toks| && SizeAt(toks, j, SideLength) ==> Value(toks[j]) <= SideLimit) &&
      !MissesSpacing(Render(toks)) && !MissesPlacement(Render(toks))
  {
    QualityCleanParts(toks);
  }

  /** No issue exactly when none of the four parts reports one. */
  lemma QualityCleanParts(toks: seq<Tok>)
    ensures QualityIssues(toks) == [] <==>
      CoordsAbove(toks, CoordinateLimit, 0) == [] && SizesAbove(toks, SideLength, SideLimit, 0) == [] &&
      !MissesSpacing(Render(toks)) && !MissesPlacement(Render(toks))
  {
    IssueListLength(CoordsAbove(toks, CoordinateLimit, 0), SizesAbove(toks, SideLength, SideLimit, 0),
      MissesSpacing(Render(toks)), MissesPlacement(Render(toks)));
  }

  lemma IssueListLength(c: seq<Tok>, sd: seq<Tok>, spacing: bool, placement: bool)
    ensures |IssueList(c, sd, spacing, placement)| ==
      |c| + |sd| + (if spacing then 1 else 0) + (if placement then 1 else 0)
  {
  }

  /** One issue per large coordinate, one per large side length, and one
      for each of the two text checks that fails. */
  lemma QualityIssueCount(toks: seq<Tok>)
    ensures |QualityIssues(toks)| ==
      |CoordsAbove(toks, CoordinateLimit, 0)| + |SizesAbove(toks, SideLength, SideLimit, 0)|
      + (if MissesSpacing(Render(toks)) then 1 else 0) + (if MissesPlacement(Render(toks)) then 1 else 0)
  {
    IssueListLength(CoordsAbove(toks, CoordinateLimit, 0), SizesAbove(toks, SideLength, SideLimit, 0),
      MissesSpacing(Render(toks)), MissesPlacement(Render(toks)));
  }

  /** Each coordinate above 1.5 and each side length above 1.2 costs the
      score 20 points, down to 0. */
  lemma LargeValuesLowerScore(toks: seq<Tok>)
    ensures var n := |CoordsAbove(toks, CoordinateLimit, 0)| + |SizesAbove(toks, SideLength, SideLimit, 0)|;
      Score(|QualityIssues(toks)|) <= Score(n) && (n > 0 ==> Score(|QualityIssues(toks)|) < 100)
  {
    QualityIssueCount(toks);
    ScoreMonotone(|CoordsAbove(toks, CoordinateLimit, 0)| + |SizesAbove(toks, SideLength, SideLimit, 0)|, |QualityIssues(toks)|);
  }

  /** More issues never raise the score. */
  lemma ScoreMonotone(n: nat, m: nat)
    requires n <= m
    ensures Score(m) <= Score(n)
  {
  }

  // ---- enhance_script_generation_prompt --------------------------------------------

  /** The original prompt followed by the quality-control section. */
  function EnhancePrompt(original: string, section: string): (r: string)
    ensures original <= r && r[|original|..] == section
  {
    original + section
  }

  /** The prompt a quality section was appended to, when `enhanced` ends
      with that section. */
  function PromptBeforeSection(enhanced: string, section: string): (r: Option<string>)
    ensures r.Some? <==> |section| <= |enhanced| && enhanced[|enhanced| - |section|..] == section
    ensures r.Some? ==> r.value + section == enhanced
  {
    if |section| <= |enhanced| && enhanced[|enhanced| - |section|..] == section then
      assert enhanced[..|enhanced| - |section|] + enhanced[|enhanced| - |section|..] == enhanced;
      Some(enhanced[..|enhanced| - |section|])
    else None
  }

  /** Appending the section loses nothing: the original prompt is
      recovered from the enhanced one, and two prompts are enhanced alike
      exactly when they are the same prompt. */
  lemma EnhancePromptRoundTrip(original: string, other: string, section: string)
    ensures PromptBeforeSection(EnhancePrompt(original, section), section) == Some(original)
    ensures EnhancePrompt(original, section) == EnhancePrompt(other, section) <==> original == other
  {
    var r := EnhancePrompt(original, section);
    assert r[..|r| - |section|] == original;
    assert r[|r| - |section|..] == section;
    if EnhancePrompt(original, section) == EnhancePrompt(other, section) {
      assert |other| == |original|;
      assert EnhancePrompt(other, section)[..|other|] == other;
    }
  }
}
