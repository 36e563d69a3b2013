/** `generate_and_refine_manim_script` and the conversation repair of
    `refine_manim_script` (services/script_generator.py). Claude is an
    oracle taking the attempt number and the messages sent to its reply;
    the test of a script is `LayoutCheck.TestScript` with its interpreter
    oracle. */
module RefineLoop {
  import opened Results
  import opened Text
  import opened ScriptTokens
  import opened Clamps
  import opened LayoutCheck
  import opened AutoFix
  import opened Optimizer

  datatype Role = User | Assistant

  datatype Message = Message(role: Role, content: string)

  /** How a call to Claude fails: the client's `BadRequestError`, another
      `APIError`, or any other exception. */
  datatype ApiFailure = BadRequest(text: string) | ApiError(text: string) | Unexpected(text: string)

  /** What Claude answers: the code extracted from its reply, as tokens,
      or a failure. */
  datatype Reply = Answer(script: seq<Tok>) | Failure(failure: ApiFailure)

  /** Claude's reply to the messages sent on a given attempt. */
  type Claude = (nat, seq<Message>) -> Reply

  // ---- refine_manim_script: the messages it sends -----------------------------------

  const SeedPrefix: string := "Please create a Manim script for: "
  const GeneratePrefix: string := "Create an educational animation about: "
  const FixRequest: string := "Please fix any issues in the previous script and provide a corrected version."
  const NoValidMessages: string := "No valid messages found after validation"

  /** Content that is all whitespace. */
  predicate Blank(m: Message) {
    AllSpace(m.content)
  }

  /** Blank is what `str.strip()` turns into the empty string. */
  lemma BlankIsStripEmpty(m: Message)
    ensures Blank(m) <==> Strip(m.content) == []
  {
    StripEmptyIffAllSpace(m.content);
  }

  /** An empty history is replaced by one user message asking for the
      prompt's script; a history whose last turn is not the user's gets a
      user turn asking for a fix. */
  function RepairHistory(history: seq<Message>, prompt: string): (h: seq<Message>)
    ensures h != [] && h[|h| - 1].role == User
    ensures history != [] ==> history <= h && |h| <= |history| + 1
    ensures history != [] && history[|history| - 1].role == User ==> h == history
  {
    var seeded := if history == [] then [Message(User, SeedPrefix + prompt)] else history;
    if seeded[|seeded| - 1].role != User then seeded + [Message(User, FixRequest)] else seeded
  }

  /** The messages whose content is not blank, in order. */
  function NonBlank(msgs: seq<Message>): (r: seq<Message>)
    ensures |r| <= |msgs|
    ensures forall k :: 0 <= k < |r| ==> !Blank(r[k])
  {
    if msgs == [] then []
    else if Blank(msgs[0]) then NonBlank(msgs[1..])
    else [msgs[0]] + NonBlank(msgs[1..])
  }

  /** Filtering drops everything exactly when everything is blank. */
  lemma {:induction false} NonBlankEmptyIff(msgs: seq<Message>)
    ensures NonBlank(msgs) == [] <==> forall k :: 0 <= k < |msgs| ==> Blank(msgs[k])
  {
    if msgs != [] {
      NonBlankEmptyIff(msgs[1..]);
      assert forall k :: 1 <= k < |msgs| ==> msgs[k] == msgs[1..][k - 1];
    }
  }

  /** The messages `refine_manim_script` sends, or the error it raises
      when none is left after dropping the blank ones. */
  function RefineMessages(history: seq<Message>, prompt: string): Result<seq<Message>> {
    var h := NonBlank(RepairHistory(history, prompt));
    if h == [] then Err(NoValidMessages) else Ok(h)
  }

  /** The caller's list after `refine_manim_script`: the seed goes into a
      new list, but the fix request is appended to the caller's own. */
  function CallerHistoryAfterRefine(history: seq<Message>): (h: seq<Message>)
    ensures history <= h
  {
    if history != [] && history[|history| - 1].role != User then history + [Message(User, FixRequest)] else history
  }

  lemma SeedPrefixLead()
    ensures SeedPrefix[0] == 'P'
  {
  }

  lemma FixRequestEnd()
    ensures FixRequest[|FixRequest| - 1] == '.'
  {
  }

  lemma FixedMessagesNotBlank(prompt: string)
    ensures !Blank(Message(User, SeedPrefix + prompt)) && !Blank(Message(User, FixRequest))
  {
    SeedPrefixLead();
    FixRequestEnd();
    assert (SeedPrefix + prompt)[0] == SeedPrefix[0];
  }

  lemma {:induction false} NonBlankKeepsLast(msgs: seq<Message>)
    requires msgs != [] && !Blank(msgs[|msgs| - 1])
    ensures NonBlank(msgs) != [] && NonBlank(msgs)[|NonBlank(msgs)| - 1] == msgs[|msgs| - 1]
  {
    if |msgs| > 1 {
      assert msgs[1..][|msgs| - 2] == msgs[|msgs| - 1];
      NonBlankKeepsLast(msgs[1..]);
    }
  }

  /** What is sent ends with a user turn whenever the last message of the
      repaired history has content: always, unless the caller's history
      ends with a blank user turn. */
  lemma RefineMessagesEndWithUser(history: seq<Message>, prompt: string)
    requires history == [] || history[|history| - 1].role != User || !Blank(history[|history| - 1])
    ensures RefineMessages(history, prompt).Ok?
    ensures var msgs := RefineMessages(history, prompt).value; msgs[|msgs| - 1].role == User
  {
    RepairedLastNotBlank(history, prompt);
    NonBlankKeepsLast(RepairHistory(history, prompt));
  }

  lemma RepairedLastNotBlank(history: seq<Message>, prompt: string)
    requires history == [] || history[|history| - 1].role != User || !Blank(history[|history| - 1])
    ensures var h := RepairHistory(history, prompt); !Blank(h[|h| - 1])
  {
    FixedMessagesNotBlank(prompt);
    var h := RepairHistory(history, prompt);
    if history == [] {
      assert h[|h| - 1] == Message(User, SeedPrefix + prompt);
    } else if history[|history| - 1].role != User {
      assert h[|h| - 1] == Message(User, FixRequest);
    } else {
      assert h[|h| - 1] == history[|history| - 1];
    }
  }

  /** The refinement raises for lack of messages exactly when the history
      ends with a user turn and every message in it is blank. */
  lemma RefineFailsIff(history: seq<Message>, prompt: string)
    ensures RefineMessages(history, prompt).Err? <==>
      history != [] && history[|history| - 1].role == User && forall k :: 0 <= k < |history| ==> Blank(history[k])
  {
    var h := RepairHistory(history, prompt);
    FixedMessagesNotBlank(prompt);
    NonBlankEmptyIff(h);
    if history == [] || history[|history| - 1].role != User {
      assert !Blank(h[|h| - 1]);
    } else {
      assert h == history;
    }
  }

  // ---- generate_and_refine_manim_script -------------------------------------------

  const GenerateFailed: string := "Failed to generate script"
  const RefineFailed: string := "Failed to refine script"
  const Overloaded: string := "Claude API temporarily overloaded: "
  const FailurePrefix: string := "The script failed with error: "
  const FailureSuffix: string := ". Please fix this issue and provide a corrected version."

  datatype Stage = Generating | Refining

  function StageFailed(stage: Stage): string {
    match stage
    case Generating => GenerateFailed
    case Refining => RefineFailed
  }

  /** `"overloaded" in message.lower() or "529" in message`. */
  predicate IsOverloadText(t: string) {
    Contains(Lower(t), "overloaded") || Contains(t, "529")
  }

  /** The message of the exception the generation or refinement raises for
      a failed call to Claude. */
  function FailureMessage(stage: Stage, f: ApiFailure): string {
    match f
    case BadRequest(t) => StageFailed(stage) + " with Claude (Bad Request): " + t
    case ApiError(t) =>
      if IsOverloadText(t) then Overloaded + t else StageFailed(stage) + " with Claude (API Error): " + t
    case Unexpected(t) => StageFailed(stage) + " with Claude: " + t
  }

  /** The messages `generate_manim_script` sends: the history, then the
      request for the prompt's animation. */
  function GenerateMessages(history: seq<Message>, prompt: string): seq<Message> {
    history + [Message(User, GeneratePrefix + prompt)]
  }

  /** The script of one attempt, or the message of the exception raised on
      the way: generation (then the optimizer) on the first attempt,
      refinement of the conversation after. */
  function Ask(prompt: string, attempt: nat, history: seq<Message>, claude: Claude): Result<seq<Tok>> {
    if attempt == 0 then
      match claude(0, GenerateMessages(history, prompt))
      case Answer(s) => Ok(OptimizedScript(s))
      case Failure(f) => Err(FailureMessage(Generating, f))
    else
      match RefineMessages(history, prompt)
      case Err(e) => Err(RefineFailed + " with Claude: " + e)
      case Ok(msgs) =>
        match claude(attempt, msgs)
        case Answer(s) => Ok(s)
        case Failure(f) => Err(FailureMessage(Refining, f))
  }

  /** The two turns recorded after a failed test. */
  function FailureTurns(script: seq<Tok>, err: string): seq<Message> {
    [Message(Assistant, Render(script)), Message(User, FailurePrefix + err + FailureSuffix)]
  }

  /** The coordinate auto-fix (`auto_fix_large_coordinates` as written) is
      tried in the last two attempts, and only for an error mentioning
      geometry framing. */
  predicate AutoFixApplies(attempt: nat, maxAttempts: nat, err: string) {
    attempt + 2 >= maxAttempts && Contains(Lower(err), "geometry framing")
  }

  function Pow2(n: nat): (p: nat)
    ensures p >= 1
  {
    if n == 0 then 1 else 2 * Pow2(n - 1)
  }

  /** `min(2 ** attempt, 10)` seconds. */
  function Backoff(attempt: nat): (w: nat)
    ensures 1 <= w <= 10 && w <= Pow2(attempt)
    ensures w < 10 ==> w == Pow2(attempt)
  {
    if Pow2(attempt) < 10 then Pow2(attempt) else 10
  }

  lemma {:induction false} Pow2Monotone(a: nat, b: nat)
    requires a <= b
    ensures Pow2(a) <= Pow2(b)
  {
    if a < b {
      Pow2Monotone(a, b - 1);
    }
  }

  /** The wait never shrinks from one attempt to the next, and from the
      fourth attempt on it is the 10-second cap. */
  lemma BackoffGrows(a: nat, b: nat)
    requires a <= b
    ensures Backoff(a) <= Backoff(b)
    ensures a >= 4 ==> Backoff(a) == 10
  {
    Pow2Monotone(a, b);
    if a >= 4 {
      Pow2Monotone(4, a);
    }
  }

  function GiveUpMessage(maxAttempts: nat): string {
    "Failed to generate working script after " + NatToString(maxAttempts) + " attempts"
  }

  datatype Outcome = Generated(script: seq<Tok>) | GaveUp(error: string)

  datatype StepResult = Done(outcome: Outcome) | Next(history: seq<Message>, wait: nat)

  /** One pass of the loop body. */
  function Step(prompt: string, attempt: nat, maxAttempts: nat, history: seq<Message>,
                claude: Claude, interp: Interpreter): (r: StepResult)
    requires attempt < maxAttempts
    ensures r.Done? && r.outcome.Generated? ==> TestScript(r.outcome.script, interp).None?
    ensures r.Done? && r.outcome.GaveUp? ==> attempt == maxAttempts - 1 && Ask(prompt, attempt, history, claude).Err?
    ensures r.Next? && r.wait > 0 ==> r.history == history && r.wait == Backoff(attempt)
  {
    match Ask(prompt, attempt, history, claude)
    case Ok(script) =>
      (match TestScript(script, interp)
       case None => Done(Generated(script))
       case Some(err) =>
         var fixed := AsWrittenAutoFix(script);
         if AutoFixApplies(attempt, maxAttempts, err) && fixed != script && TestScript(fixed, interp).None? then
           Done(Generated(fixed))
         else Next(history + FailureTurns(script, err), 0))
    case Err(m) =>
      if IsOverloadText(m) then Next(history, Backoff(attempt))
      else if (Contains(m, "Bad Request") && Contains(m, "messages")) || Contains(m, RefineFailed) then Next([], 0)
      else if attempt == maxAttempts - 1 then Done(GaveUp(GiveUpMessage(maxAttempts) + ": " + m))
      else Next(history, 0)
  }

  /** How a run ends: its outcome, the conversation history and the waits
      slept for overloads, in order. */
  datatype RunResult = RunResult(outcome: Outcome, history: seq<Message>, waits: seq<nat>)

  /** The loop from `attempt` on. */
  function RunFrom(prompt: string, attempt: nat, maxAttempts: nat, history: seq<Message>, waits: seq<nat>,
                   claude: Claude, interp: Interpreter): RunResult
    decreases maxAttempts - attempt
  {
    if attempt >= maxAttempts then RunResult(GaveUp(GiveUpMessage(maxAttempts)), history, waits)
    else
      match Step(prompt, attempt, maxAttempts, history, claude, interp)
      case Done(o) => RunResult(o, history, waits)
      case Next(h, w) => RunFrom(prompt, attempt + 1, maxAttempts, h, if w > 0 then waits + [w] else waits, claude, interp)
  }

  /** `generate_and_refine_manim_script`. */
  method GenerateAndRefine(prompt: string, maxAttempts: nat, claude: Claude, interp: Interpreter)
    returns (outcome: Outcome, history: seq<Message>, waits: seq<nat>)
    ensures RunResult(outcome, history, waits) == RunFrom(prompt, 0, maxAttempts, [], [], claude, interp)
  {
    history := [];
    waits := [];
    var attempt := 0;
    while attempt < maxAttempts
      invariant attempt <= maxAttempts
      invariant RunFrom(prompt, attempt, maxAttempts, history, waits, claude, interp)
             == RunFrom(prompt, 0, maxAttempts, [], [], claude, interp)
    {
      var reply := Ask(prompt, attempt, history, claude);
      if reply.Ok? {
        var script := reply.value;
        var test := TestScript(script, interp);
        if test.None? {
          outcome := Generated(script);
          return;
        }
        var err := test.value;
        if AutoFixApplies(attempt, maxAttempts, err) {
          var fixed := AsWrittenAutoFix(script);
          if fixed != script && TestScript(fixed, interp).None? {
            outcome := Generated(fixed);
            return;
          }
        }
        history := history + FailureTurns(script, err);
      } else {
        var m := reply.message;
        if IsOverloadText(m) {
          waits := waits + [Backoff(attempt)];
        } else if (Contains(m, "Bad Request") && Contains(m, "messages")) || Contains(m, RefineFailed) {
          history := [];
        } else if attempt == maxAttempts - 1 {
          outcome := GaveUp(GiveUpMessage(maxAttempts) + ": " + m);
          return;
        }
      }
      attempt := attempt + 1;
    }
    outcome := GaveUp(GiveUpMessage(maxAttempts));
  }

  // ---- properties of the loop ------------------------------------------------------

  /** A run returns a script only when the test passed it. */
  lemma {:induction false} GeneratedPassesTest(prompt: string, attempt: nat, maxAttempts: nat, history: seq<Message>,
                                               waits: seq<nat>, claude: Claude, interp: Interpreter)
    ensures var r := RunFrom(prompt, attempt, maxAttempts, history, waits, claude, interp);
      r.outcome.Generated? ==> TestScript(r.outcome.script, interp).None?
    decreases maxAttempts - attempt
  {
    if attempt < maxAttempts {
      var r := Step(prompt, attempt, maxAttempts, history, claude, interp);
      if r.Next? {
        var w2 := if r.wait > 0 then waits + [r.wait] else waits;
        GeneratedPassesTest(prompt, attempt + 1, maxAttempts, r.history, w2, claude, interp);
        assert RunFrom(prompt, attempt, maxAttempts, history, waits, claude, interp)
            == RunFrom(prompt, attempt + 1, maxAttempts, r.history, w2, claude, interp);
      } else {
        assert RunFrom(prompt, attempt, maxAttempts, history, waits, claude, interp).outcome == r.outcome;
      }
    }
  }

  /** When no script can pass the test the run raises. */
  lemma NothingPassesGivesUp(prompt: string, maxAttempts: nat, claude: Claude, interp: Interpreter)
    requires forall s :: TestScript(s, interp).Some?
    ensures RunFrom(prompt, 0, maxAttempts, [], [], claude, interp).outcome.GaveUp?
  {
    GeneratedPassesTest(prompt, 0, maxAttempts, [], [], claude, interp);
  }

  /** Waits of 1 to 10 seconds. */
  predicate ValidWaits(ws: seq<nat>) {
    forall k :: 0 <= k < |ws| ==> 1 <= ws[k] <= 10
  }

  /** The waits after one more pass. */
  function NextWaits(waits: seq<nat>, r: StepResult): seq<nat>
    requires r.Next?
  {
    if r.wait > 0 then waits + [r.wait] else waits
  }

  /** A pass keeps the waits valid. */
  lemma StepKeepsWaitsValid(prompt: string, attempt: nat, maxAttempts: nat, history: seq<Message>,
                            waits: seq<nat>, claude: Claude, interp: Interpreter)
    requires attempt < maxAttempts && ValidWaits(waits)
    ensures var r := Step(prompt, attempt, maxAttempts, history, claude, interp);
      r.Next? ==> ValidWaits(NextWaits(waits, r))
  {
  }

  /** Each wait is an overload's backoff of 1 to 10 seconds. */
  lemma {:induction false} WaitsBounded(prompt: string, attempt: nat, maxAttempts: nat, history: seq<Message>,
                                        waits: seq<nat>, claude: Claude, interp: Interpreter)
    requires ValidWaits(waits)
    ensures ValidWaits(RunFrom(prompt, attempt, maxAttempts, history, waits, claude, interp).waits)
    decreases maxAttempts - attempt
  {
    if attempt < maxAttempts {
      var r := Step(prompt, attempt, maxAttempts, history, claude, interp);
      if r.Next? {
        StepKeepsWaitsValid(prompt, attempt, maxAttempts, history, waits, claude, interp);
        WaitsBounded(prompt, attempt + 1, maxAttempts, r.history, NextWaits(waits, r), claude, interp);
      }
    }
  }

  /** The run only appends waits, at most one per attempt. */
  lemma {:induction false} WaitsPerAttempt(prompt: string, attempt: nat, maxAttempts: nat, history: seq<Message>,
                                           waits: seq<nat>, claude: Claude, interp: Interpreter)
    requires attempt <= maxAttempts
    ensures var r := RunFrom(prompt, attempt, maxAttempts, history, waits, claude, interp);
      waits <= r.waits && |r.waits| <= |waits| + (maxAttempts - attempt)
    decreases maxAttempts - attempt
  {
    if attempt < maxAttempts {
      var r := Step(prompt, attempt, maxAttempts, history, claude, interp);
      if r.Next? {
        var w2 := if r.wait > 0 then waits + [r.wait] else waits;
        
        WaitsPerAttempt(prompt, attempt + 1, maxAttempts, r.history, w2, claude, interp);
        assert RunFrom(prompt, attempt, maxAttempts, history, waits, claude, interp)
            == RunFrom(prompt, attempt + 1, maxAttempts, r.history, w2, claude, interp);
      } else {
        assert RunFrom(prompt, attempt, maxAttempts, history, waits, claude, interp).waits == waits;
      }
    }
  }

  /** After one pass the history is kept, emptied, or grown by exactly the
      assistant's script and the user's error report of a failed test;
      only an overload waits, and it keeps the history. */
  lemma StepHistory(prompt: string, attempt: nat, maxAttempts: nat, history: seq<Message>,
                    claude: Claude, interp: Interpreter)
    requires attempt < maxAttempts
    ensures match Step(prompt, attempt, maxAttempts, history, claude, interp)
      case Done(_) => true
      case Next(h, w) =>
        (w > 0 ==> h == history && w == Backoff(attempt)) &&
        (h == history || h == [] ||
         (Ask(prompt, attempt, history, claude).Ok? &&
          TestScript(Ask(prompt, attempt, history, claude).value, interp).Some? &&
          h == history + FailureTurns(Ask(prompt, attempt, history, claude).value,
                                      TestScript(Ask(prompt, attempt, history, claude).value, interp).value)))
  {
  }

  /** A script other than Claude's is returned only by the auto-fix, in the
      last two attempts, for a geometry-framing error. */
  lemma AutoFixOnlyLate(prompt: string, attempt: nat, maxAttempts: nat, history: seq<Message>,
                        claude: Claude, interp: Interpreter)
    requires attempt < maxAttempts
    requires Step(prompt, attempt, maxAttempts, history, claude, interp).Done?
    ensures var o := Step(prompt, attempt, maxAttempts, history, claude, interp).outcome;
      var a := Ask(prompt, attempt, history, claude);
      o.Generated? && a.Ok? && o.script != a.value ==>
        o.script == AsWrittenAutoFix(a.value) && attempt + 2 >= maxAttempts &&
        Contains(Lower(TestScript(a.value, interp).value), "geometry framing")
  {
    var a := Ask(prompt, attempt, history, claude);
    if a.Ok? && TestScript(a.value, interp).Some? {
      var err := TestScript(a.value, interp).value;
      var fixed := AsWrittenAutoFix(a.value);
      assert AutoFixApplies(attempt, maxAttempts, err) &&
        Step(prompt, attempt, maxAttempts, history, claude, interp) == Done(Generated(fixed));
    }
  }

  /** Even in the last two attempts, a script drawing at `2.5*RIGHT` is not
      rescued by the auto-fix as written: its `2.1*RIGHT` still fails, so
      the loop goes on with the failure added to the conversation. */
  lemma LargeDecimalNotRescued(prompt: string, attempt: nat, maxAttempts: nat, history: seq<Message>,
                               claude: Claude, interp: Interpreter)
    requires attempt < maxAttempts
    requires Ask(prompt, attempt, history, claude) == Ok([Num("2", "5"), Times, Dir(Right)])
    ensures var s := [Num("2", "5"), Times, Dir(Right)];
      TestScript(s, interp).Some? &&
      Step(prompt, attempt, maxAttempts, history, claude, interp) ==
        Next(history + FailureTurns(s, TestScript(s, interp).value), 0)
  {
    var s := [Num("2", "5"), Times, Dir(Right)];
    assert CoordinateAt(s, 0);
    assert Value(s[0]) == 2.5 by {
      assert DigitsValue("2") == 2 by { assert "2"[..0] == []; }
      assert DigitsValue("5") == 5 by { assert "5"[..0] == []; }
      assert Pow10(1) == 10;
    }
    LargeValueFailsTest(s, interp, 0);
    AsWrittenKeepsLargeDecimal(interp);
  }

  /** The history the loop keeps is empty or ends with a user turn that
      has content. */
  predicate EndsWithUserTurn(h: seq<Message>) {
    h == [] || (h[|h| - 1].role == User && !Blank(h[|h| - 1]))
  }

  lemma FailurePrefixLead()
    ensures FailurePrefix[0] == 'T'
  {
  }

  lemma FailureReportNotBlank(err: string)
    ensures !Blank(Message(User, FailurePrefix + err + FailureSuffix))
  {
    FailurePrefixLead();
    assert (FailurePrefix + err + FailureSuffix)[0] == FailurePrefix[0];
  }

  /** Every pass keeps the history empty or ending in a user turn with
      content, so the refinement always has messages to send and never
      appends to the loop's list. */
  lemma StepKeepsUserLast(prompt: string, attempt: nat, maxAttempts: nat, history: seq<Message>,
                          claude: Claude, interp: Interpreter)
    requires attempt < maxAttempts && EndsWithUserTurn(history)
    ensures RefineMessages(history, prompt).Ok?
    ensures CallerHistoryAfterRefine(history) == history
    ensures var r := Step(prompt, attempt, maxAttempts, history, claude, interp);
      r.Next? ==> EndsWithUserTurn(r.history)
  {
    RefineMessagesEndWithUser(history, prompt);
    var r := Step(prompt, attempt, maxAttempts, history, claude, interp);
    var a := Ask(prompt, attempt, history, claude);
    if r.Next? && a.Ok? && TestScript(a.value, interp).Some? && r.history != history && r.history != [] {
      var err := TestScript(a.value, interp).value;
      FailureReportNotBlank(err);
      assert r.history == history + FailureTurns(a.value, err);
    }
  }

  lemma LowerAppend(a: string, b: string)
    ensures Lower(a + b) == Lower(a) + Lower(b)
  {
  }

  lemma OverloadSurvivesPrefix(p: string, t: string)
    requires IsOverloadText(t)
    ensures IsOverloadText(p + t)
  {
    LowerAppend(p, t);
    if Contains(Lower(t), "overloaded") {
      ContainsInSuffix(Lower(p), Lower(t), "overloaded");
    } else {
      ContainsInSuffix(p, t, "529");
    }
  }

  /** An overloaded API, on any attempt, makes the loop wait and keep the
      history. */
  lemma OverloadWaits(prompt: string, attempt: nat, maxAttempts: nat, history: seq<Message>,
                      claude: Claude, interp: Interpreter, t: string)
    requires attempt < maxAttempts && IsOverloadText(t)
    requires attempt == 0 ==> claude(0, GenerateMessages(history, prompt)) == Failure(ApiError(t))
    requires attempt > 0 ==> RefineMessages(history, prompt).Ok? &&
                             claude(attempt, RefineMessages(history, prompt).value) == Failure(ApiError(t))
    ensures Step(prompt, attempt, maxAttempts, history, claude, interp) == Next(history, Backoff(attempt))
  {
    OverloadSurvivesPrefix(Overloaded, t);
  }

  /** A refinement that fails other than by overload clears the history. */
  lemma RefineFailureResets(prompt: string, attempt: nat, maxAttempts: nat, history: seq<Message>,
                            claude: Claude, interp: Interpreter)
    requires 0 < attempt < maxAttempts
    requires Ask(prompt, attempt, history, claude).Err?
    requires !IsOverloadText(Ask(prompt, attempt, history, claude).message)
    ensures Step(prompt, attempt, maxAttempts, history, claude, interp) == Next([], 0)
  {
    var m := Ask(prompt, attempt, history, claude).message;
    match RefineMessages(history, prompt)
    case Err(e) =>
      ContainsPrefix(m, RefineFailed);
    case Ok(msgs) =>
      var f := claude(attempt, msgs).failure;
      if f.ApiError? && IsOverloadText(f.text) {
        OverloadSurvivesPrefix(Overloaded, f.text);
      } else {
        ContainsPrefix(m, RefineFailed);
      }
  }
}
