/** `test_manim_script` (services/script_generator.py): the interpreter
    stages (compiling, executing the module, finding a scene class) are an
    oracle; the layout checks that follow them are modelled on the
    lower-cased script text and its tokens. */
module LayoutCheck {
  import opened Results
  import opened Text
  import opened ScriptTokens

  /** The numerals of coordinates at or after position `i` whose value
      exceeds `limit`, in script order (`re.findall`, then the `> limit` test). */
  function CoordsAbove(toks: seq<Tok>, limit: real, i: nat): (r: seq<Tok>)
    ensures forall k :: 0 <= k < |r| ==> IsNumeral(r[k]) && Value(r[k]) > limit
    ensures r == [] <==> forall j :: i <= j < |toks| && CoordinateAt(toks, j) ==> Value(toks[j]) <= limit
    decreases |toks| - i
  {
    if i >= |toks| then []
    else (if CoordinateAt(toks, i) && Value(toks[i]) > limit then [toks[i]] else []) + CoordsAbove(toks, limit, i + 1)
  }

  /** The numerals given to `p` at or after position `i` whose value exceeds `limit`. */
  function SizesAbove(toks: seq<Tok>, p: Param, limit: real, i: nat): (r: seq<Tok>)
    ensures forall k :: 0 <= k < |r| ==> IsNumeral(r[k]) && Value(r[k]) > limit
    ensures r == [] <==> forall j :: i <= j < |toks| && SizeAt(toks, j, p) ==> Value(toks[j]) <= limit
    decreases |toks| - i
  {
    if i >= |toks| then []
    else (if SizeAt(toks, i, p) && Value(toks[i]) > limit then [toks[i]] else []) + SizesAbove(toks, p, limit, i + 1)
  }

  datatype Issue =
    | LargeCoordinate(literal: string)
    | LargeSideLength(literal: string)
    | TitleNotAtTop
    | GraphicsNotInRightZone
    | TextNotInLeftZone
    | GraphicsAtCenter

  function IssueText(issue: Issue): string {
    match issue
    case LargeCoordinate(l) => "Large coordinate found: " + l + " (must be \U{2264}1.2 for right zone)"
    case LargeSideLength(l) => "Large side_length found: " + l + " (must be \U{2264}1.2)"
    case TitleNotAtTop => "Title not positioned at top (must use title.to_edge(UP, buff=0.5))"
    case GraphicsNotInRightZone => "Graphics not positioned in right zone (must use .move_to(RIGHT*3))"
    case TextNotInLeftZone => "Text not positioned in left zone (must use .to_corner(UL, buff=0.8))"
    case GraphicsAtCenter => "Graphics positioned at center - must move to right zone"
  }

  function CoordinateIssues(nums: seq<Tok>): (r: seq<Issue>)
    requires forall k :: 0 <= k < |nums| ==> nums[k].Num?
    ensures |r| == |nums|
    ensures forall k :: 0 <= k < |r| ==> r[k] == LargeCoordinate(NumText(nums[k]))
  {
    if nums == [] then [] else [LargeCoordinate(NumText(nums[0]))] + CoordinateIssues(nums[1..])
  }

  function SideLengthIssues(nums: seq<Tok>): (r: seq<Issue>)
    requires forall k :: 0 <= k < |nums| ==> nums[k].Num?
    ensures |r| == |nums|
    ensures forall k :: 0 <= k < |r| ==> r[k] == LargeSideLength(NumText(nums[k]))
  {
    if nums == [] then [] else [LargeSideLength(NumText(nums[0]))] + SideLengthIssues(nums[1..])
  }

  predicate HasGeometry(s: string) {
    Contains(s, "polygon") || Contains(s, "square") || Contains(s, "rectangle") || Contains(s, "circle")
  }

  /** The title, right-zone, left-zone and centring checks, in that order,
      on the lower-cased script text `s`. */
  function TextIssues(s: string): seq<Issue> {
    var hasTitle := Contains(s, "title.to_edge(up");
    var hasLeftText := Contains(s, "to_corner(ul") || Contains(s, "left");
    var hasRightGraphics := Contains(s, "move_to(right*3)") || Contains(s, "right*3");
    var hasGeometry := HasGeometry(s);
    (if !hasTitle && Contains(s, "title") then [TitleNotAtTop] else [])
    + (if hasGeometry && !hasRightGraphics then [GraphicsNotInRightZone] else [])
    + (if Contains(s, "text") && !hasLeftText && !Contains(s, "title") then [TextNotInLeftZone] else [])
    + (if hasGeometry && Contains(s, "move_to(origin)") then [GraphicsAtCenter] else [])
  }

  /** The layout issues of a script, in the order the checks run: one per
      coordinate above 1.5, one per side length above 1.5, then the text
      checks. */
  function LayoutIssues(toks: seq<Tok>): (issues: seq<Issue>)
    ensures |issues| >= |CoordsAbove(toks, 1.5, 0)| + |SizesAbove(toks, SideLength, 1.5, 0)|
  {
    CoordinateIssues(CoordsAbove(toks, 1.5, 0))
    + SideLengthIssues(SizesAbove(toks, SideLength, 1.5, 0))
    + TextIssues(Lower(Render(toks)))
  }

  /** When each text check reports: the title check when "title" appears
      without `title.to_edge(UP`; the right-zone check for geometry with
      neither `move_to(RIGHT*3)` nor `RIGHT*3`; the left-zone check for
      "text" with no `to_corner(UL`, no "left" and no "title"; the centring
      check for geometry moved to `ORIGIN`. Nothing else is reported. */
  lemma TextIssuesIff(s: string)
    ensures TitleNotAtTop in TextIssues(s) <==> Contains(s, "title") && !Contains(s, "title.to_edge(up")
    ensures GraphicsNotInRightZone in TextIssues(s) <==>
      HasGeometry(s) && !Contains(s, "move_to(right*3)") && !Contains(s, "right*3")
    ensures TextNotInLeftZone in TextIssues(s) <==>
      Contains(s, "text") && !Contains(s, "to_corner(ul") && !Contains(s, "left") && !Contains(s, "title")
    ensures GraphicsAtCenter in TextIssues(s) <==> HasGeometry(s) && Contains(s, "move_to(origin)")
    ensures forall k :: 0 <= k < |TextIssues(s)| ==> !IsNumeralIssue(TextIssues(s)[k])
  {
  }

  predicate IsNumeralIssue(x: Issue) {
    x.LargeCoordinate? || x.LargeSideLength?
  }

  /** Numeral issues followed by text issues: the text issues are the
      non-numeral members, and the list is empty only when both parts are. */
  lemma NumeralsThenText(numbered: seq<Issue>, t: seq<Issue>)
    requires forall k :: 0 <= k < |numbered| ==> IsNumeralIssue(numbered[k])
    requires forall k :: 0 <= k < |t| ==> !IsNumeralIssue(t[k])
    ensures forall x :: x in t <==> x in numbered + t && !IsNumeralIssue(x)
    ensures numbered + t == [] <==> numbered == [] && t == []
  {
  }

  /** The script's issues are its numerals above 1.5, each named, followed
      by the text checks on its lower-cased text; it has no issue exactly
      when no numeral exceeds 1.5 and no text check fires. */
  lemma LayoutIssuesIff(toks: seq<Tok>)
    ensures var t := TextIssues(Lower(Render(toks)));
      (forall x :: x in t <==> x in LayoutIssues(toks) && !IsNumeralIssue(x)) &&
      (LayoutIssues(toks) == [] <==>
        CoordsAbove(toks, 1.5, 0) == [] && SizesAbove(toks, SideLength, 1.5, 0) == [] && t == [])
  {
    var coords := CoordinateIssues(CoordsAbove(toks, 1.5, 0));
    var sizes := SideLengthIssues(SizesAbove(toks, SideLength, 1.5, 0));
    var t := TextIssues(Lower(Render(toks)));
    TextIssuesIff(Lower(Render(toks)));
    NumeralsThenText(coords + sizes, t);
    assert LayoutIssues(toks) == coords + sizes + t;
  }

  function IssueTexts(issues: seq<Issue>): (r: seq<string>)
    ensures |r| == |issues|
  {
    if issues == [] then [] else [IssueText(issues[0])] + IssueTexts(issues[1..])
  }

  const LayoutAdvice: string :=
    ". CRITICAL: Use proper layout zones - title at top, text in left zone (-6<x<-1), graphics in right zone (1<x<6)."

  function LayoutError(issues: seq<Issue>): string {
    "Layout issues: " + Join(IssueTexts(issues), "; ") + LayoutAdvice
  }

  /** The interpreter stages: `None` when the script compiles, its module
      executes and defines a scene class; otherwise the error text
      `test_manim_script` reports for the failing stage. */
  type Interpreter = seq<Tok> -> Option<string>

  /** `test_manim_script`: `None` for success, else the error. A script
      passes exactly when the interpreter accepts it and it has no layout
      issue; an interpreter error is reported as is. */
  function TestScript(toks: seq<Tok>, interp: Interpreter): (r: Option<string>)
    ensures r.None? <==> interp(toks).None? && LayoutIssues(toks) == []
    ensures interp(toks).Some? ==> r == interp(toks)
    ensures interp(toks).None? && LayoutIssues(toks) != [] ==> r == Some(LayoutError(LayoutIssues(toks)))
  {
    if interp(toks).Some? then interp(toks)
    else if LayoutIssues(toks) != [] then Some(LayoutError(LayoutIssues(toks)))
    else None
  }

  /** A script passing the test has every coordinate and every side length
      at or below 1.5. */
  lemma {:induction false} PassingScriptsAreSmall(toks: seq<Tok>, interp: Interpreter)
    requires TestScript(toks, interp).None?
    ensures forall j :: 0 <= j < |toks| && CoordinateAt(toks, j) ==> Value(toks[j]) <= 1.5
    ensures forall j :: 0 <= j < |toks| && SizeAt(toks, j, SideLength) ==> Value(toks[j]) <= 1.5
  {
    assert |CoordsAbove(toks, 1.5, 0)| == 0;
    assert |SizesAbove(toks, SideLength, 1.5, 0)| == 0;
  }

  /** Conversely, one coordinate or side length above 1.5 fails the test. */
  lemma LargeValueFailsTest(toks: seq<Tok>, interp: Interpreter, j: nat)
    requires (CoordinateAt(toks, j) || SizeAt(toks, j, SideLength)) && Value(toks[j]) > 1.5
    ensures TestScript(toks, interp).Some?
  {
    if TestScript(toks, interp).None? {
      PassingScriptsAreSmall(toks, interp);
    }
  }
}
