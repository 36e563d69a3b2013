/** Pure text routines of services/script_generator.py: code-fence
    stripping, error classification and the narration-length estimate. */
module ScriptText {
  import opened Text

  // ---- extract_python_code ---------------------------------------------------

  const Fence: string := "```"

  /** The text from `p` on is what may follow the lazy body group:
      `\n?` then three backticks then `$`, which Python lets match at the
      very end or before one final newline. */
  predicate IsCloser(text: string, p: nat) {
    p <= |text| && (text[p..] == "```" || text[p..] == "```\n" || text[p..] == "\n```" || text[p..] == "\n```\n")
  }

  /** The lazy `(.*?)`: the first position at or after `from` where the
      closing fence can match. */
  function FindCloser(text: string, from: nat): (p: int)
    ensures p == -1 || (from <= p <= |text| && IsCloser(text, p))
    ensures p == -1 ==> forall k :: from <= k <= |text| ==> !IsCloser(text, k)
    ensures p != -1 ==> forall k :: from <= k < p ==> !IsCloser(text, k)
    decreases |text| - from
  {
    if from > |text| then -1
    else if IsCloser(text, from) then from
    else FindCloser(text, from + 1)
  }

  /** The greedy `\s*`: the first non-whitespace position at or after `i`. */
  function SkipSpace(text: string, i: nat): (j: nat)
    requires i <= |text|
    ensures i <= j <= |text| && AllSpace(text[i..j])
    ensures j == |text| || !IsSpace(text[j])
    decreases |text| - i
  {
    if i < |text| && IsSpace(text[i]) then
      var j := SkipSpace(text, i + 1);
      assert text[i..j] == [text[i]] + text[i + 1..j];
      j
    else i
  }

  predicate OpensWithPython(text: string) {
    |text| >= 9 && text[3..9] == "python"
  }

  /** Where the body group starts when `(?:python)?` takes the word. */
  function BodyStartWithWord(text: string): nat
    requires OpensWithPython(text)
  {
    SkipSpace(text, 9)
  }

  /** Where the body group starts when `(?:python)?` takes nothing. */
  function BodyStartWithoutWord(text: string): nat
    requires |text| >= 3
  {
    SkipSpace(text, 3)
  }

  /** `extract_python_code`: when the whole text is a fenced block (an
      opening fence, optionally the word python, whitespace, the body, an
      optional newline and a closing fence at the end), the stripped body;
      otherwise the stripped text. The regex engine tries the word `python`
      first and backtracks to the bare fence when that fails. */
  function ExtractPythonCode(text: string): (code: string)
    ensures IsStripped(code)
  {
    if |text| < 3 || text[..3] != Fence then Strip(text)
    else if OpensWithPython(text) && FindCloser(text, BodyStartWithWord(text)) != -1 then
      Strip(text[BodyStartWithWord(text)..FindCloser(text, BodyStartWithWord(text))])
    else if FindCloser(text, BodyStartWithoutWord(text)) != -1 then
      Strip(text[BodyStartWithoutWord(text)..FindCloser(text, BodyStartWithoutWord(text))])
    else Strip(text)
  }

  /** The backtracking branch never yields "python" as part of the body: if
      no closing fence follows the word python, none follows the bare fence
      either, because a closer can only start at a newline or a backtick. */
  lemma {:induction false} BacktrackingNeverMatches(text: string)
    requires |text| >= 3 && text[..3] == Fence && OpensWithPython(text)
    requires FindCloser(text, BodyStartWithWord(text)) == -1
    ensures FindCloser(text, BodyStartWithoutWord(text)) == -1
  {
    var q := BodyStartWithWord(text);
    assert BodyStartWithoutWord(text) == 3;
    forall k | 3 <= k < q ensures !IsCloser(text, k) {
      if k < 9 {
        assert text[k] == "python"[k - 3];
      } else {
        assert text[k] == text[9..q][k - 9];
        if k + 1 < q {
          assert text[k + 1] == text[9..q][k + 1 - 9];
        } else {
          assert !IsCloser(text, q);
          assert text[k + 1..] == text[q..];
        }
      }
    }
  }

  /** Round trip: a stripped body without backticks, fenced as
      "```python\n" + body + "\n```", comes back unchanged. */
  lemma {:induction false} ExtractFencedCode(code: string)
    requires IsStripped(code)
    requires forall k :: 0 <= k < |code| ==> code[k] != '`'
    ensures ExtractPythonCode("```python\n" + code + "\n```") == code
  {
    var text := "```python\n" + code + "\n```";
    assert text[..3] == Fence;
    assert text[3..9] == "python";
    var q := BodyStartWithWord(text);
    var e := 10 + |code|;
    assert text[e..] == "\n```";
    if code == [] {
      assert text == "```python\n\n```";
      assert text[9] == '\n' && text[10] == '\n' && text[11] == '`';
      assert SkipSpace(text, 11) == 11;
      assert SkipSpace(text, 10) == 11;
      assert q == 11;
      assert IsCloser(text, 11);
      assert FindCloser(text, q) == 11;
      assert text[q..11] == [];
    } else {
      assert text[10] == code[0] && !IsSpace(text[10]);
      assert q == 10;
      assert text[10..e] == code;
      forall k | q <= k < e ensures !IsCloser(text, k) {
        assert text[k] == code[k - 10];
        if k + 1 < e {
          assert text[k + 1] == code[k + 1 - 10];
        } else {
          assert !IsSpace(text[k]);
        }
      }
      assert IsCloser(text, e);
      assert FindCloser(text, q) == e;
      StripOfStripped(code);
    }
  }

  /** Text that does not open with a fence comes back merely stripped. */
  lemma UnfencedTextIsStripped(text: string)
    requires !(Fence <= text)
    ensures ExtractPythonCode(text) == Strip(text)
  {
  }

  // ---- classify_manim_error ------------------------------------------------------

  /** The seven labels of `classify_manim_error`. */
  datatype ErrorKind =
    | LatexError | ManimObjectError | ImportError | SyntaxError
    | AttributeError | NameError | GeneralError

  function KindLabel(k: ErrorKind): string {
    match k
    case LatexError => "latex_error"
    case ManimObjectError => "manim_object_error"
    case ImportError => "import_error"
    case SyntaxError => "syntax_error"
    case AttributeError => "attribute_error"
    case NameError => "name_error"
    case GeneralError => "general_error"
  }

  predicate MentionsLatex(e: string) {
    Contains(e, "latex error") || Contains(e, "tex") || Contains(e, "compilation")
  }

  predicate MentionsManimObject(e: string) {
    Contains(e, "righttriangle")
    || (Contains(e, "name") && (Contains(e, "not defined") || Contains(e, "is not defined")))
  }

  predicate MentionsImport(e: string) {
    Contains(e, "import") || Contains(e, "module")
  }

  /** `classify_manim_error` on the lower-cased message: the first matching
      rule in the fixed order latex, manim object, import, syntax,
      attribute, name wins, and a message matching none is general. */
  function ClassifyError(message: string): (k: ErrorKind)
    ensures k == LatexError <==> MentionsLatex(Lower(message))
    ensures k == GeneralError <==>
      !MentionsLatex(Lower(message)) && !MentionsManimObject(Lower(message))
      && !MentionsImport(Lower(message)) && !Contains(Lower(message), "syntax")
      && !Contains(Lower(message), "attribute") && !Contains(Lower(message), "name")
  {
    var e := Lower(message);
    if MentionsLatex(e) then LatexError
    else if MentionsManimObject(e) then ManimObjectError
    else if MentionsImport(e) then ImportError
    else if Contains(e, "syntax") then SyntaxError
    else if Contains(e, "attribute") then AttributeError
    else if Contains(e, "name") then NameError
    else GeneralError
  }

  /** Any message mentioning "text" (say an error about a `Text` object) is
      classified as a LaTeX error, because "text" contains "tex". */
  lemma TextMeansLatex(message: string)
    requires Contains(Lower(message), "text")
    ensures ClassifyError(message) == LatexError
  {
    assert "text"[..3] == "tex";
    ContainsPrefix("text", "tex");
    ContainsTrans(Lower(message), "text", "tex");
  }

  /** A Python NameError reads "name '…' is not defined", so it is
      classified as a Manim object error; the name-error label is reached
      only by messages that mention "name" without "not defined". */
  lemma NameErrorLabelNeedsNoNotDefined(message: string)
    requires ClassifyError(message) == NameError
    ensures Contains(Lower(message), "name") && !Contains(Lower(message), "not defined")
  {
  }

  /** Each label other than latex and general comes with its keyword. */
  lemma LabelsCarryKeywords(message: string)
    ensures ClassifyError(message) == ImportError ==> MentionsImport(Lower(message))
    ensures ClassifyError(message) == SyntaxError ==> Contains(Lower(message), "syntax")
    ensures ClassifyError(message) == AttributeError ==> Contains(Lower(message), "attribute")
    ensures ClassifyError(message) == ManimObjectError ==> MentionsManimObject(Lower(message))
  {
  }

  // ---- estimate_narration_duration -------------------------------------------------

  /** What the estimate request produced: a number, text that does not parse
      as a number, or an exception from the call. */
  datatype EstimateReply = Number(seconds: real) | NotANumber | CallFailed

  /** `max(30.0, min(90.0, x))`. */
  function Clamp(x: real): (r: real)
    ensures 30.0 <= r <= 90.0
    ensures 30.0 <= x <= 90.0 ==> r == x
    ensures x < 30.0 ==> r == 30.0
    ensures x > 90.0 ==> r == 90.0
  {
    if x > 90.0 then 90.0 else if x < 30.0 then 30.0 else x
  }

  /** `min(45.0 + word_count * 2, 75.0)`. */
  function FallbackEstimate(prompt: string): (r: real)
    ensures 45.0 <= r <= 75.0
    ensures r == 45.0 <==> |Words(prompt)| == 0
  {
    var w := |Words(prompt)| as real;
    if 45.0 + w * 2.0 < 75.0 then 45.0 + w * 2.0 else 75.0
  }

  function EstimateDuration(reply: EstimateReply, prompt: string): (r: real)
    ensures 30.0 <= r <= 90.0
    ensures reply.Number? ==> r == Clamp(reply.seconds)
    ensures !reply.Number? ==> r == FallbackEstimate(prompt) && 45.0 <= r <= 75.0
  {
    match reply
    case Number(x) => Clamp(x)
    case _ => FallbackEstimate(prompt)
  }

  /** Clamping is stable: a clamped estimate clamps to itself. */
  lemma ClampIdempotent(x: real)
    ensures Clamp(Clamp(x)) == Clamp(x)
  {
  }

  /** The fallback grows by two seconds per word until it reaches 75, which
      any prompt of fifteen or more words gets. */
  lemma FallbackGrowsWithWords(prompt: string)
    ensures |Words(prompt)| >= 15 ==> FallbackEstimate(prompt) == 75.0
    ensures |Words(prompt)| < 15 ==> FallbackEstimate(prompt) == 45.0 + 2.0 * |Words(prompt)| as real
  {
  }
}
