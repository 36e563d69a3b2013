/** utils/helpers.py: prompt validation, the parts of a formatted
    duration, and the temporary paths removed after a failed job. */
module Helpers {
  import opened Text

  const MinPromptLength: nat := 3
  const ProblematicKeywords: seq<string> := ["hack", "exploit", "malicious", "virus"]

  /** Some problematic keyword occurs in the lower-cased prompt. */
  predicate HasProblematicKeyword(prompt: string) {
    exists k :: 0 <= k < |ProblematicKeywords| && Contains(Lower(prompt), ProblematicKeywords[k])
  }

  /** `validate_prompt`, branch by branch: empty or all-whitespace, too
      short once stripped, then the keyword scan. */
  function ValidatePrompt(prompt: string): bool {
    if prompt == [] || Strip(prompt) == [] then false
    else if |Strip(prompt)| < MinPromptLength then false
    else !HasProblematicKeyword(prompt)
  }

  /** A prompt is accepted exactly when it has at least three characters
      besides surrounding whitespace and mentions no problematic keyword. */
  lemma ValidatePromptIff(prompt: string)
    ensures ValidatePrompt(prompt) <==> |Strip(prompt)| >= MinPromptLength && !HasProblematicKeyword(prompt)
  {
  }

  /** In particular whitespace-only prompts are refused. */
  lemma BlankPromptRejected(prompt: string)
    requires AllSpace(prompt)
    ensures !ValidatePrompt(prompt)
  {
    StripEmptyIffAllSpace(prompt);
  }

  /** And so is any prompt around a keyword, whatever its case. */
  lemma KeywordRejected(before: string, k: nat, after: string)
    requires k < |ProblematicKeywords|
    ensures !ValidatePrompt(before + ProblematicKeywords[k] + after)
  {
    var p := before + ProblematicKeywords[k] + after;
    var w := ProblematicKeywords[k];
    assert Lower(w) == w by {
      forall i | 0 <= i < |w| ensures LowerChar(w[i]) == w[i] {
        assert 'a' <= w[i] <= 'z' by { KeywordsLowerCase(k, i); }
      }
    }
    LowerAppend3(before, w, after);
    ContainsPrefix(w, w);
    ContainsInConcat(Lower(before), w, Lower(after), w);
  }

  lemma KeywordsLowerCase(k: nat, i: nat)
    requires k < |ProblematicKeywords| && i < |ProblematicKeywords[k]|
    ensures 'a' <= ProblematicKeywords[k][i] <= 'z'
  {
  }

  lemma LowerAppend3(a: string, b: string, c: string)
    ensures Lower(a + b + c) == Lower(a) + Lower(b) + Lower(c)
  {
  }

  // ---- format_duration ------------------------------------------------------------

  /** The numbers `format_duration` prints, by form. */
  datatype DurationParts =
    | SecondsForm(seconds: real)
    | MinutesForm(minutes: int, seconds: real)
    | HoursForm(hours: int, minutes: int, seconds: real)

  /** Multiplying by a positive number keeps the order. */
  lemma MulOrder(a: real, b: real, y: real)
    requires y > 0.0
    ensures a <= b <==> a * y <= b * y
    ensures a < b <==> a * y < b * y
  {
    assert b * y - a * y == (b - a) * y;
  }

  lemma FloorBelow(x: real, y: real)
    requires y > 0.0
    ensures (x / y).Floor as real * y <= x
  {
    var r := x / y;
    assert r * y == x;
    assert r.Floor as real <= r;
    MulOrder(r.Floor as real, r, y);
  }

  lemma FloorAbove(x: real, y: real)
    requires y > 0.0
    ensures x < ((x / y).Floor + 1) as real * y
  {
    var r := x / y;
    assert r * y == x;
    assert r < (r.Floor + 1) as real;
    MulOrder(r, (r.Floor + 1) as real, y);
  }

  /** Python's `//` on a positive float divisor. */
  function FloorDiv(x: real, y: real): (q: int)
    requires y > 0.0
    ensures q as real * y <= x < (q + 1) as real * y
  {
    FloorBelow(x, y);
    FloorAbove(x, y);
    (x / y).Floor
  }

  /** Python's `%` on a positive float divisor. */
  function FloorMod(x: real, y: real): (r: real)
    requires y > 0.0
    ensures 0.0 <= r < y
    ensures x == FloorDiv(x, y) as real * y + r
  {
    x - FloorDiv(x, y) as real * y
  }

  function FormatDuration(s: real): DurationParts {
    if s < 60.0 then SecondsForm(s)
    else if s < 3600.0 then MinutesForm(FloorDiv(s, 60.0), FloorMod(s, 60.0))
    else HoursForm(FloorDiv(s, 3600.0), FloorDiv(FloorMod(s, 3600.0), 60.0), FloorMod(s, 60.0))
  }

  /** The quotient is unique: the floor of `x / y` is the only integer `q`
      with `q * y <= x < (q + 1) * y`. */
  lemma FloorDivUnique(x: real, y: real, q: int)
    requires y > 0.0 && q as real * y <= x < (q + 1) as real * y
    ensures FloorDiv(x, y) == q
  {
    var r := x / y;
    assert r * y == x;
    MulOrder(q as real, r, y);
    MulOrder(r, (q + 1) as real, y);
    assert q as real <= r < (q + 1) as real;
    assert r.Floor as real <= r < (r.Floor + 1) as real;
  }

  /** The form is chosen by magnitude, and the printed parts add back up
      to the input, with whole minutes under an hour and seconds under a
      minute. */
  lemma FormatDurationRecombines(s: real)
    ensures var f := FormatDuration(s);
      (f.SecondsForm? <==> s < 60.0) &&
      (f.MinutesForm? <==> 60.0 <= s < 3600.0) &&
      (f.HoursForm? <==> s >= 3600.0) &&
      (f.SecondsForm? ==> f.seconds == s) &&
      (f.MinutesForm? ==> 1 <= f.minutes < 60 && 0.0 <= f.seconds < 60.0 &&
                          f.minutes as real * 60.0 + f.seconds == s) &&
      (f.HoursForm? ==> f.hours >= 1 && 0 <= f.minutes < 60 && 0.0 <= f.seconds < 60.0 &&
                        f.hours as real * 3600.0 + f.minutes as real * 60.0 + f.seconds == s)
  {
    var f := FormatDuration(s);
    if 60.0 <= s < 3600.0 {
    } else if s >= 3600.0 {
      var h := FloorDiv(s, 3600.0);
      var r1 := FloorMod(s, 3600.0);
      var m := FloorDiv(r1, 60.0);
      // s // 60 == 60 * h + m, so s % 60 is what is left of r1 after m minutes
      assert (60 * h + m) as real * 60.0 <= s < (60 * h + m + 1) as real * 60.0;
      FloorDivUnique(s, 60.0, 60 * h + m);
    }
  }

  // ---- cleanup_temp_files ---------------------------------------------------------

  /** The four paths removed for an animation. */
  function TempPaths(animationId: string): (ps: seq<string>)
    ensures |ps| == 4
  {
    ["temp_scripts/" + animationId + ".py",
     "temp_output/" + animationId,
     "temp_output/" + animationId + "_audio.mp3",
     "temp_output/" + animationId + "_synced_audio.mp3"]
  }

  /** The four are different files, each named after the animation. */
  lemma TempPathsDistinct(animationId: string)
    ensures forall i, j :: 0 <= i < j < 4 ==> TempPaths(animationId)[i] != TempPaths(animationId)[j]
    ensures forall i :: 0 <= i < 4 ==> Contains(TempPaths(animationId)[i], animationId)
  {
    var ps := TempPaths(animationId);
    var n := |animationId|;
    assert |ps[0]| == n + 16 && |ps[1]| == n + 12 && |ps[2]| == n + 22 && |ps[3]| == n + 29;
    ContainsPrefix(animationId, animationId);
    ContainsInConcat("temp_scripts/", animationId, ".py", animationId);
    ContainsInConcat("temp_output/", animationId, [], animationId);
    ContainsInConcat("temp_output/", animationId, "_audio.mp3", animationId);
    ContainsInConcat("temp_output/", animationId, "_synced_audio.mp3", animationId);
    assert "temp_output/" + animationId + [] == ps[1];
  }
}
