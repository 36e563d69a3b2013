# Manim animation service: a verified model of its decision logic

The service takes a text prompt and has Claude write a Manim scene. It
tests and refines that script, renders it with manim, and can add a
narration voiced by OpenAI text-to-speech and muxed in with ffmpeg. The
finished video is then uploaded.

Most of the repository is glue around those external programs. This
project models the small deterministic routines that decide what the glue
does:

- the language and voice tables;
- the ffmpeg `Duration:` parse;
- narration cleaning, filtering, sequencing and subtitle chunking;
- code-fence stripping and error classification;
- the coordinate clamps of the auto-fix and of `ManimOptimizer`, and the layout and quality checks;
- the generate → test → refine loop;
- the prompt, file-type and size checks;
- the quality tiers;
- the stage plan of a request, and the console log filter.

Every call to Claude, OpenAI, ffmpeg, manim, the file system or the
database is a parameter of the model: an oracle function or an input value.

Scripts are modelled as token sequences (`ScriptTokens`), not as free text.
A token is one of:

- a numeral with whole and fraction digits;
- `*`;
- a direction word;
- a `side_length=` or `radius=` argument;
- a shape call;
- `.arrange(DIR)`;
- `self.play`;
- `def construct(self):`;
- a `MathTex` call;
- a block inserted by a pass;
- any other text.

`Render` turns a token sequence back into text. Each regex rewrite of the
source becomes a function over tokens that matches what the pattern can
see.

One module per concern:

| module | concern |
|---|---|
| `Languages` | language and voice tables |
| `FfmpegDuration` | the duration parse |
| `Narration` | segment cleaning, filtering, base track, pad/trim, subtitles, speech input |
| `Sequencing` | the silence/audio sequence |
| `ScriptText` | code-fence stripping, error labels, duration estimate |
| `LayoutCheck` | the layout part of `test_manim_script` |
| `Clamps` | the clamp rules shared by the auto-fix and the optimizer |
| `AutoFix` | `auto_fix_large_coordinates` |
| `Optimizer` | `ManimOptimizer` and `validate_manim_quality` |
| `RefineLoop` | the generate/test/refine loop and the history repair |
| `Video` | render command and result, mux plan |
| `Files` | `FileProcessor` and its singleton |
| `Helpers` | `utils/helpers.py` |
| `ManimConfig` | `utils/manim_config.py` |
| `Pipeline` | the endpoint, the job's stages, the console filter |
| `Text`, `Results`, `ScriptTokens` | shared string helpers, result types and tokens |

Where the code mutates something step by step, the model does too:

- the narration cleaning, filtering and numbering loops are methods with loop invariants;
- so are the silence-gap sequencing loop, the clamp loops of the auto-fix and the optimizer, and the quality scan;
- so are the refine loop, the PDF, Word and symbol-correction loops, and the file-processor singleton (a class).

Each such method is proved equal to a specification function, and the
properties are proved about that function.

The model follows the code where the design differs. In particular:

- the subtitle path calls `add_subtitles_to_video` twice (app.py:354 and app.py:385);
- `narration_first` has no branch of its own;
- the refine loop calls `auto_fix_large_coordinates` as written (`AutoFix.AsWrittenAutoFix`), exactly as guarded in the code;
- the optimizer runs `_optimize_math_rendering` as written (`Optimizer.AsWrittenMathRendering`), so the script the refine loop tests first carries its unbalanced `Text(...))` and repeated `font_size` (see "## Findings");
- the raises of `combine_audio_segments` and `create_simple_timed_audio` are caught by their own handlers, which fall back to simpler methods, so no error escapes the audio chain;
- `_extract_from_pdf` reads nothing when PyPDF2 is installed (see "## Findings").

## Model

| member | source | states |
|---|---|---|
| Languages.LanguageName | services/script_generator.py:152-157 | the twelve codes get their own language name; any other code reads as "English" |
| Languages.DetectLanguage | services/script_generator.py:895-901 | the result is always one of the twelve codes; it is the stripped, lower-cased reply when that is one, and "en" for any other reply or a failed call |
| Languages.VoiceForLanguage | services/audio_processor.py:866-894 | a caller voice other than "alloy" is returned whatever the language; with "alloy" each of the twelve codes gets its table voice (de→onyx, ru→echo, ar→fable, …) and any other code "alloy" |
| Languages.TablesCoverSupported | services/audio_processor.py:877-892 | the voice table, the name table and the detector's whitelist cover exactly the same twelve codes |
| Languages.DetectedLanguageHasVoice | services/audio_processor.py:866-894 | whatever the detector answers, the default-voice choice for it is one of the service's voices |
| FfmpegDuration.Search | services/audio_processor.py:66 | `re.search` gives the leftmost match at or after the start, or none when there is no match |
| FfmpegDuration.ParseDuration | services/audio_processor.py:64-93 | a failed run gives the fallback; when the centisecond pattern matches, its leftmost match decides the value; the result is never negative for a non-negative fallback |
| FfmpegDuration.AudioDuration | services/audio_processor.py:37-93 | never negative, and 10 s when ffmpeg cannot be run |
| FfmpegDuration.VideoDuration | services/video_processor.py:58-116 | never negative, and 50 s when ffmpeg cannot be run |
| FfmpegDuration.ThreeDigitMatchIsTwoDigitMatch | services/audio_processor.py:66-78 | wherever the millisecond pattern matches, the centisecond pattern matches too |
| FfmpegDuration.MillisecondBranchUnreachable | services/audio_processor.py:76-86 | so the millisecond branch never decides: a parse that does not fall back read the leftmost centisecond match |
| FfmpegDuration.StampMatches | services/audio_processor.py:66-75 | ffmpeg's duration line for h:m:s.cc, wherever it is placed, is a match denoting h·3600 + m·60 + s + cc/100 |
| FfmpegDuration.SearchFinds | services/audio_processor.py:66 | the search stops at the first match it reaches |
| FfmpegDuration.ParseStamp | services/audio_processor.py:64-75 | round trip: ffmpeg output holding a duration line for h:m:s.cc, with no earlier match, parses back to h·3600 + m·60 + s + cc/100 |
| Narration.FallbackText | services/audio_processor.py:290-292 | the stand-in text "Animation segment {i+1}." is stripped and at least three characters long |
| Narration.CleanOne | services/audio_processor.py:285-303 | a cleaned segment keeps its start, has an end after it (start + 3 when the end did not follow the start), a stripped text of at least three characters, and a word count equal to the number of words in that text |
| Narration.ShortTextReplaced | services/audio_processor.py:290-292 | a stripped text shorter than three characters is replaced by the numbered fallback; a longer one is kept |
| Narration.CleanAll | services/audio_processor.py:283-305 | one cleaned segment per parsed segment |
| Narration.CleanAllPointwise | services/audio_processor.py:283-305 | the i-th cleaned segment is the i-th parsed segment cleaned with number i |
| Narration.CleanSegments | services/audio_processor.py:283-305 | the cleaning loop returns exactly the cleaned list, one segment per input, in order |
| Narration.TimedNarration | services/audio_processor.py:216-320 | the cleaned segments for a JSON reply; one fallback segment of 10 s per timing segment for a reply that is not JSON; a 0–30 s fallback when the call fails |
| Narration.FallbackTimingTiles | services/audio_processor.py:198-213 | the fallback timing is three consecutive ten-second segments tiling [0, 30], so the unparsable-reply narration over it ends at 30 s, where the failed-call fallback ends |
| Narration.KeepSpoken | services/audio_processor.py:337-343 | never more segments than the input |
| Narration.KeepSpokenMembers | services/audio_processor.py:337-343 | a segment survives exactly when its stripped text is not empty |
| Narration.SpokenText | services/audio_processor.py:355-359 | the speech input is the stripped text, or "Pause." when fewer than three characters remain; it is never shorter than three characters |
| Narration.FilterSpoken | services/audio_processor.py:337-343 | the filter loop returns exactly the surviving segments, in order |
| Narration.NumberAll | services/audio_processor.py:354-384 | one audio segment per surviving segment |
| Narration.NumberAllPointwise | services/audio_processor.py:373-384 | the i-th surviving segment gets file `temp_output/{id}_segment_{i}.mp3`, its own times and its speakable text |
| Narration.NumberSegments | services/audio_processor.py:354-384 | the numbering loop returns exactly the numbered list |
| Narration.SynchronizedSegments | services/audio_processor.py:337-384 | raises exactly when no segment is spoken; otherwise the audio list is the spoken segments numbered in order |
| Narration.CleanedSegmentsAllSpoken | services/audio_processor.py:283-343 | every cleaned segment survives the filter, so cleaning and filtering agree |
| Narration.CleanedNarrationAllSpoken | services/audio_processor.py:283-346 | the filter keeps every segment that timed narration produces, so it never raises on them |
| Narration.CleanedTextsSpokenAsIs | services/audio_processor.py:355-359 | a cleaned text is spoken as it is, never as "Pause." |
| Narration.MaxEnd | services/audio_processor.py:415 | the latest end time is the end of some segment and at least every segment's end |
| Narration.BaseTrackLength | services/audio_processor.py:411-417 | an empty list raises "No audio segments to combine", which the function's own handler catches (see `Sequencing.AssemblyRoutes`); otherwise the track is exactly 2 s longer than the latest end |
| Narration.AdjustmentFor | services/audio_processor.py:106-131 | pad when the current length is below the target, otherwise trim |
| Narration.AdjustmentReachesTarget | services/audio_processor.py:106-131 | whichever way it goes, the adjusted track is exactly the target length |
| Narration.AdjustAudio | services/audio_processor.py:96-147 | a non-zero ffmpeg exit is an error carrying stderr; otherwise the adjustment brings the parsed current length to the target |
| Narration.Chunks | services/audio_processor.py:751-753 | chunks of one to eight words, all but the last exactly eight, ⌈n/8⌉ of them, which concatenate back to the word list |
| Narration.Schedule | services/audio_processor.py:755-761 | one cue per chunk, its text the chunk's words joined by spaces |
| Narration.ScheduleTilesVideo | services/audio_processor.py:755-761 | the cues tile the video: the first starts at 0, each ends where the next starts, all are equally long, and the last ends at d |
| Narration.SubtitleCues | services/audio_processor.py:751-769 | one cue per chunk of the narration's words; no words means a division by zero, which is an error |
| Narration.TtsInput | services/audio_processor.py:905-910 | the input is stripped and at least three characters long; it is the stripped text whenever that is long enough |
| Sequencing.SortByStartSorted | services/audio_processor.py:533 | the sorted segments are ordered by start time |
| Sequencing.SortByStartPermutes | services/audio_processor.py:533 | the sorted list holds the same segments (a permutation) |
| Sequencing.SortByStartStable | services/audio_processor.py:533 | segments with equal start times keep their relative order, as Python's `sorted` does |
| Sequencing.InsertKeepsOrderAtTime | services/audio_processor.py:533 | insertion puts a segment after every segment with its own start time |
| Sequencing.OneAudioPartPerSegment | services/audio_processor.py:553-560 | the audio parts are the segments, one each, in the given order, with their own file and times |
| Sequencing.PartsEndAtCursor | services/audio_processor.py:539-562 | the parts are empty exactly for no segments; the last part ends where the cursor stands |
| Sequencing.NoGapsNoNeedlessSilence | services/audio_processor.py:542-562 | no part starts after the time reached so far, so there is no gap; each silence starts at that time, is positive, and is followed by an audio part starting where it ends |
| Sequencing.LayOut | services/audio_processor.py:536-562 | the sequencing loop returns exactly the laid-out parts and the final cursor |
| Sequencing.BuildSequence | services/audio_processor.py:529-562 | raises on no segments, which the function's own handler catches (see `Sequencing.AssemblyRoutes`); otherwise lays out the segments sorted by start time |
| Sequencing.SequenceFollowsSortedSegments | services/audio_processor.py:529-562 | whatever the input order, the audio parts are the segments sorted by start time |
| Sequencing.AssemblyRoutes | services/audio_processor.py:403-630 | no raise escapes the fallback chain. The overlay is used exactly when there are segments and its two ffmpeg runs succeed, and it outlasts every segment by 2 s. The timed sequence is used exactly when the base track succeeds, the overlay fails and the sequence's run succeeds, and it plays the segments sorted by start time. Otherwise the plain concatenation takes the list as given, the empty list included |
| ScriptText.ExtractPythonCode | services/script_generator.py:27-41 | the result is always stripped of surrounding whitespace; the lemmas below give the fenced and unfenced cases |
| ScriptText.BacktrackingNeverMatches | services/script_generator.py:34-35 | the regex's backtracking branch, which would read "python" as part of the body, never yields a match the main branch lacks |
| ScriptText.ExtractFencedCode | services/script_generator.py:34-38 | round trip: a stripped body without backticks, fenced as a python block, comes back unchanged |
| ScriptText.UnfencedTextIsStripped | services/script_generator.py:40-41 | a text that does not open with a fence comes back merely stripped |
| ScriptText.ClassifyError | services/script_generator.py:840-857 | latex_error exactly when the lower-cased message mentions latex, tex or compilation; general_error exactly when no keyword of any rule occurs |
| ScriptText.TextMeansLatex | services/script_generator.py:844-845 | any message containing "text" is a LaTeX error, since "text" contains "tex" |
| ScriptText.NameErrorLabelNeedsNoNotDefined | services/script_generator.py:846-855 | a NameError ("… is not defined") is labelled manim_object_error; name_error needs "name" without "not defined" |
| ScriptText.LabelsCarryKeywords | services/script_generator.py:848-855 | import, syntax, attribute and name labels come only with their keyword in the message |
| ScriptText.Clamp | services/script_generator.py:941 | the result lies in [30, 90]; it equals the input inside that range, 30 below it and 90 above it |
| ScriptText.FallbackEstimate | services/script_generator.py:945-946 | the fallback lies in [45, 75], and is 45 exactly for a prompt without words |
| ScriptText.EstimateDuration | services/script_generator.py:904-960 | always within [30, 90]; a numeric reply is clamped; any other reply gives the word-count fallback, within [45, 75] |
| ScriptText.ClampIdempotent | services/script_generator.py:941 | a clamped estimate clamps to itself |
| ScriptText.FallbackGrowsWithWords | services/script_generator.py:945-946 | two seconds per word until 75, which every prompt of fifteen words or more gets |
| LayoutCheck.CoordsAbove | services/script_generator.py:778-783 | each returned numeral is above the limit; the list is empty exactly when every coordinate from position i on is within the limit |
| LayoutCheck.SizesAbove | services/script_generator.py:779-787 | each returned numeral is above the limit; the list is empty exactly when every size argument from position i on is within the limit |
| LayoutCheck.LayoutIssues | services/script_generator.py:772-806 | at least one issue per coordinate and per side length above 1.5 |
| LayoutCheck.TextIssuesIff | services/script_generator.py:788-806 | the title issue exactly when "title" appears without `title.to_edge(up`; the right-zone issue exactly for geometry without `move_to(right*3)` or `right*3`; the left-zone issue exactly for "text" with no `to_corner(ul`, no "left" and no "title"; the centring issue exactly for geometry with `move_to(origin)`; never a numeral issue |
| LayoutCheck.LayoutIssuesIff | services/script_generator.py:772-806 | the non-numeral issues are exactly the text checks' issues; a script has no issue exactly when no coordinate or side length exceeds 1.5 and no text check fires |
| LayoutCheck.TestScript | services/script_generator.py:719-815 | a script passes exactly when the interpreter accepts it and there is no layout issue; an interpreter error is reported as it is, and otherwise the joined layout issues |
| LayoutCheck.PassingScriptsAreSmall | services/script_generator.py:778-815 | a passing script has every coordinate and side length at or below 1.5 |
| LayoutCheck.LargeValueFailsTest | services/script_generator.py:778-812 | one coordinate or side length above 1.5 fails the test, whatever the interpreter says |
| Clamps.ApplyRule | services/script_generator.py:656 | one `re.sub` of a clamp keeps the length and changes a token only where the clamp matches a value above its limit |
| Clamps.ApplyRules | services/script_generator.py:654-656 | the clamps applied in order keep the script's length |
| Clamps.ApplyRuleEffect | services/manim_optimizer.py:72-83 | one clamp changes only numerals, never raises a value, and leaves what it matches within its limit |
| Clamps.ApplyRulesEffect | services/manim_optimizer.py:82-83 | after all clamps in order: only numerals change, no value rises, every matched numeral is within its rule's limit, and a numeral no rule fires on is kept |
| Clamps.RuleIdle | services/manim_optimizer.py:82-83 | a clamp that matches nowhere changes nothing |
| Clamps.MatchedWithinLimit | services/manim_optimizer.py:82-83 | a numeral matched by clamp k ends within clamp k's limit |
| Clamps.ApplyRulesIdempotent | services/manim_optimizer.py:72-83 | every clamped value lands within its limit and the guard is a strict `>`, so a second pass changes nothing |
| Clamps.FirstFiringRule | services/manim_optimizer.py:82-83 | the first clamp to fire on a numeral decides its value when no later matching clamp has a lower limit |
| Clamps.OnlyRuleFires | services/manim_optimizer.py:82-83 | a numeral above the limit of the only clamp that matches it ends as that clamp's replacement |
| AutoFix.FixLargeCoordinates | services/script_generator.py:646-656 | the clamp loop returns exactly the clamps applied in order, with each multiplier read as its whole literal |
| AutoFix.FixedCoordinatesAreSmall | services/script_generator.py:646-656 | after the auto-fix no coordinate exceeds 1.5, so the layout check finds no large coordinate |
| AutoFix.FixedSideLengthsAreSmall | services/script_generator.py:651-656 | nor any side length above 1.5 |
| AutoFix.SmallValuesUntouched | services/script_generator.py:647-651 | a coordinate or side length at or below 1.5 is left as written |
| AutoFix.LargeCoordinateClamped | services/script_generator.py:647-650 | a coordinate above 1.5 becomes its direction's replacement |
| AutoFix.LargeValuesClamped | services/script_generator.py:647-650 | a large coordinate becomes exactly 1 (RIGHT, LEFT) or 1.2 (UP, DOWN) |
| AutoFix.LargeSideLengthClamped | services/script_generator.py:651 | a large side length becomes 1.2 |
| AutoFix.AsWrittenCoordClamp | services/script_generator.py:647-650 | the `(\d+)\*DIR` clamp as written, reading only the digits right before `*`; it keeps the token count, and the lemmas below show what it does to decimals |
| AutoFix.AsWrittenAutoFix | services/script_generator.py:646-656 | the five clamps as written, in order; they keep the token count |
| AutoFix.AsWrittenAgreesOnWholeNumbers | services/script_generator.py:647-650 | on whole-number multipliers the clamp as written and the corrected clamp agree |
| AutoFix.AsWrittenBreaksSmallDecimal | services/script_generator.py:648 | `0.5*UP`, below the limit, becomes `0.1.2*UP`, which is not a numeral |
| AutoFix.BrokenLiteralText | services/script_generator.py:648 | the broken literal reads "0.1.2" |
| AutoFix.CorrectedKeepsSmallDecimal | services/script_generator.py:647-651 | the corrected clamps leave `0.5*UP` as it is |
| AutoFix.AsWrittenRewritesLargeDecimal | services/script_generator.py:647 | as written, `2.5*RIGHT` becomes `2.1*RIGHT` |
| AutoFix.AsWrittenKeepsLargeDecimal | services/script_generator.py:647 | that result still fails the layout check, whatever the interpreter says |
| AutoFix.CorrectedClampsLargeDecimal | services/script_generator.py:647-651 | the corrected clamps turn `2.5*RIGHT` into `1*RIGHT` |
| AutoFix.AsWrittenShrinksSmallDecimal | services/script_generator.py:647 | as written, `0.5*RIGHT`, already small enough, becomes `0.1*RIGHT` |
| RefineLoop.RepairHistory | services/script_generator.py:363-376 | the repaired history ends with a user turn; a non-empty history is a prefix of it, at most one message shorter, and is kept as it is when it already ends with the user |
| RefineLoop.NonBlankEmptyIff | services/script_generator.py:453-460 | the content filter drops every message exactly when every message is blank |
| RefineLoop.CallerHistoryAfterRefine | services/script_generator.py:363-376 | the caller's list only grows: what it held stays a prefix |
| RefineLoop.RefineMessagesEndWithUser | services/script_generator.py:363-460 | what is sent ends with a user turn whenever the repaired history's last message has content |
| RefineLoop.RefineFailsIff | services/script_generator.py:453-460 | the refinement raises for lack of messages exactly when the history ends with a user turn and every message is blank |
| RefineLoop.Backoff | services/script_generator.py:115 | between 1 and 10 seconds, and exactly 2^attempt below the cap |
| RefineLoop.BackoffGrows | services/script_generator.py:115 | the wait never shrinks from one attempt to the next, and from the fourth attempt on it is the 10-second cap |
| RefineLoop.Step | services/script_generator.py:69-136 | a returned script passed the test; giving up happens only on the last attempt after a failed call; an overload keeps the history and waits the backoff |
| RefineLoop.GenerateAndRefine | services/script_generator.py:54-138 | the loop's outcome, final history and waits are exactly those of the specified run |
| RefineLoop.GeneratedPassesTest | services/script_generator.py:79-93 | a run returns a script only when the test passed it |
| RefineLoop.NothingPassesGivesUp | services/script_generator.py:134-138 | when no script can pass the test, the run gives up |
| RefineLoop.WaitsBounded | services/script_generator.py:112-120 | each wait is an overload's backoff, 1 to 10 seconds |
| RefineLoop.WaitsPerAttempt | services/script_generator.py:66-120 | a run only appends waits, at most one per attempt, so there are at most max_attempts of them |
| RefineLoop.StepHistory | services/script_generator.py:95-132 | after one pass the history is kept, emptied, or grown by exactly the assistant's script and the user's error report |
| RefineLoop.AutoFixOnlyLate | services/script_generator.py:85-93 | a script other than the model's is returned only by the auto-fix as written, in the last two attempts, for a "geometry framing" error |
| RefineLoop.LargeDecimalNotRescued | services/script_generator.py:79-95 | on any attempt, a script drawing at `2.5*RIGHT` fails the test, and the auto-fix as written does not rescue it: the loop goes on with the failure added to the history |
| RefineLoop.StepKeepsUserLast | services/script_generator.py:95-132 | each pass keeps the history empty or ending in a user turn with content, so the refinement always has messages to send |
| RefineLoop.OverloadWaits | services/script_generator.py:112-120 | an overload, on any attempt, makes the loop wait and keep the history |
| RefineLoop.RefineFailureResets | services/script_generator.py:128-132 | a refinement failure other than an overload clears the history |
| Optimizer.FixCoordinateBounds | services/manim_optimizer.py:66-85 | the clamp loop returns exactly the six clamps applied in order |
| Optimizer.FixedScriptWithinBounds | services/manim_optimizer.py:70-83 | afterwards RIGHT/LEFT multipliers are at most 1.8, UP/DOWN at most 2.0, side lengths at most 1.6 and radii at most 1.3 |
| Optimizer.WithinBoundUntouched | services/manim_optimizer.py:72-79 | a value already within its bound is left as written |
| Optimizer.ClampLandsOnBound | services/manim_optimizer.py:72-75 | a multiplier above its bound lands exactly on the bound |
| Optimizer.SizeClampLandsOnBound | services/manim_optimizer.py:78-79 | a size argument above its bound lands exactly on the bound |
| Optimizer.FixCoordinateBoundsIdempotent | services/manim_optimizer.py:70-83 | a second pass of the clamps changes nothing |
| Optimizer.OptimizeGeometrySizes | services/manim_optimizer.py:103-115 | the rewrite keeps the script's length |
| Optimizer.GeometrySizesSameShape | services/manim_optimizer.py:103-115 | the pass only rewrites numerals |
| Optimizer.GeometrySizesFixed | services/manim_optimizer.py:104-115 | every square ends with side length 1.4 and every circle with radius 1.1, whatever they were |
| Optimizer.GeometrySizesKeepBounds | services/manim_optimizer.py:103-115 | a script within the first pass's bounds stays within them |
| Optimizer.GeometrySizesIdempotent | services/manim_optimizer.py:103-115 | rewriting twice is the same as once |
| Optimizer.EnhanceSpacing | services/manim_optimizer.py:123-135 | scripts shorter than three tokens are left alone; tokens before a bare `.arrange(DIR)` are kept |
| Optimizer.SpacingLeavesNoBareArrange | services/manim_optimizer.py:124-127 | no bare `.arrange(DIR)` survives the pass |
| Optimizer.SpacingIdle | services/manim_optimizer.py:124-127 | a script with no bare `.arrange(DIR)` is left as it is |
| Optimizer.SpacingIdempotent | services/manim_optimizer.py:124-127 | a second pass changes nothing |
| Optimizer.SpacingAddsBuff | services/manim_optimizer.py:124-127 | a script that had a bare `.arrange(DIR)` mentions `buff=` afterwards |
| Optimizer.InsertPositioning | services/manim_optimizer.py:149-173 | the script is either unchanged or gains a positioning block |
| Optimizer.PositioningOnlyInserts | services/manim_optimizer.py:139-175 | the pass only inserts positioning blocks |
| Optimizer.PositioningReachesPlay | services/manim_optimizer.py:149-173 | a `self.play` after a `def construct(self):` gets a block |
| Optimizer.PositioningPlacesGraphics | services/manim_optimizer.py:146-173 | a script with a shape call and a `self.play` inside `construct` moves its graphics to `RIGHT*3` afterwards |
| Optimizer.PositioningIdempotent | services/manim_optimizer.py:146-147 | running the pass twice is the same as once |
| Optimizer.AddBoundaryValidation | services/manim_optimizer.py:225-230 | without a `self.play` that follows whitespace nothing changes; otherwise the block is inserted right before the first one, and nowhere else |
| Optimizer.ValidationOnlyInserts | services/manim_optimizer.py:225-230 | dropping the validation blocks from the result gives back the script without them |
| Optimizer.ValidationNeedsPlay | services/manim_optimizer.py:225-230 | without a `self.play` after whitespace the pass changes nothing |
| Optimizer.ValidationBeforeFirstPlay | services/manim_optimizer.py:225-230 | otherwise the result is the script with the block inserted right before the first such `self.play` |
| Optimizer.ValidationGrowsByBlock | services/manim_optimizer.py:225-230 | the script grows by one block, which sits right before that `self.play` |
| Optimizer.CjkArgumentParts | services/manim_optimizer.py:183 | a CJK match splits the arguments into whitespace, a quoted literal with CJK text and no quote inside, and the rest |
| Optimizer.CjkArgumentShape | services/manim_optimizer.py:183 | the parts are what the pattern says they are |
| Optimizer.CjkToText | services/manim_optimizer.py:183 | the first rewrite (as written or corrected) keeps the token count |
| Optimizer.AddFontSize | services/manim_optimizer.py:186 | the second rewrite (as written or corrected) keeps the token count; a changed call gains `, font_size=24` right before the first `)` of its arguments, where `[^)]+` stops, and keeps what follows |
| Optimizer.MathRenderingKeepsBalance | services/manim_optimizer.py:181-193 | the corrected pass leaves the parentheses balanced as they were |
| Optimizer.AsWrittenMathUnbalances | services/manim_optimizer.py:183 | as written, each MathTex call on a CJK literal leaves one more `)` than `(` |
| Optimizer.AsWrittenCjkCallUnbalanced | services/manim_optimizer.py:183 | concretely, a balanced one-call script comes out with an unmatched `)` |
| Optimizer.MathRenderingSingleFontSize | services/manim_optimizer.py:183-186 | the corrected pass never gives a call `font_size` twice |
| Optimizer.AsWrittenRepeatsFontSize | services/manim_optimizer.py:186 | as written, `MathTex(x, font_size=30)` comes out naming `font_size` twice |
| Optimizer.AppendedFontSizeRepeats | services/manim_optimizer.py:186 | as written, arguments that already name `font_size` get it a second time |
| Optimizer.FontSizeLandsInString | services/manim_optimizer.py:186 | `MathTex("f(x)")` becomes `MathTex("f(x, font_size=24)")`, as written and corrected alike: the keyword lands inside the string |
| Optimizer.OptimizeScript | services/manim_optimizer.py:39-64 | the six passes run in order, each on the result of the one before, with the math pass as written |
| Optimizer.OptimizedCjkCallUnbalanced | services/manim_optimizer.py:39-64 | a one-call `MathTex("中")` script leaves `optimize_script` with one unmatched `)`, where the intended math pass would leave it balanced |
| Optimizer.SizingPassesWithinBounds | services/manim_optimizer.py:46-49 | after the first two passes every coordinate and size argument is within the first pass's bounds |
| Optimizer.Score | services/manim_optimizer.py:328 | max(0, 100 − 20·n) lies in [0, 100] and is a multiple of 20; it is 100 exactly for no issue and 0 exactly from five issues |
| Optimizer.ScanCoordinates | services/manim_optimizer.py:306-309 | the scan loop returns exactly the coordinate literals above the limit, in order |
| Optimizer.ScanSideLengths | services/manim_optimizer.py:320-323 | the scan loop returns exactly the side lengths above the limit, in order |
| Optimizer.ValidateQuality | services/manim_optimizer.py:300-329 | the issues are the specified list; has_issues holds exactly when it is non-empty; the score follows its length |
| Optimizer.QualityCleanIff | services/manim_optimizer.py:306-329 | no issue exactly when every coordinate is at most 1.5, every side length at most 1.2, `.arrange(` comes with `buff=` and shapes are moved to `RIGHT*3` |
| Optimizer.QualityCleanParts | services/manim_optimizer.py:306-323 | no issue exactly when none of the four checks reports one |
| Optimizer.QualityIssueCount | services/manim_optimizer.py:306-323 | one issue per large coordinate and per large side length, plus one for each failing text check |
| Optimizer.LargeValuesLowerScore | services/manim_optimizer.py:306-328 | each coordinate above 1.5 and each side length above 1.2 costs 20 points, down to 0 |
| Optimizer.ScoreMonotone | services/manim_optimizer.py:328 | more issues never raise the score |
| Optimizer.EnhancePrompt | services/manim_optimizer.py:289-298 | the original prompt is a prefix of the result, followed by the quality section |
| Optimizer.PromptBeforeSection | services/manim_optimizer.py:289-298 | finds the prompt exactly when the text ends with the section, and that prompt followed by the section is the text |
| Optimizer.EnhancePromptRoundTrip | services/manim_optimizer.py:289-298 | the original prompt is recovered from the enhanced one, and two prompts are enhanced alike exactly when they are equal |
| Video.RenderCommandRoundTrip | services/video_processor.py:22-33 | the command `manim render -q <res> --output_file <id> --media_dir temp_output/<id> <script>` parses back to its arguments |
| Video.ParsedCommandIsRender | services/video_processor.py:26-33 | a command of that shape is the render command of what it carries |
| Video.OutputDirsDistinct | services/video_processor.py:22 | two animations never share a media directory |
| Video.RenderResult | services/video_processor.py:44-55 | a non-zero exit is an error carrying stderr; no `.mp4` is "No video file generated"; otherwise the first `.mp4`; every error is wrapped as "Failed to execute Manim script: …" |
| Video.PlainWithoutDurations | services/video_processor.py:173 | without both durations the plain `-shortest` mux is used and no ratio is formed |
| Video.MuxByDurations | services/video_processor.py:173-201 | for a positive video length: padded to the video when audio/video < 0.7, extended when > 1.1 (looped when the freeze fails), plain otherwise |
| Video.FreezeOutlastsAudio | services/video_processor.py:201 | the frozen tail makes the video one second longer than the audio |
| Video.CombineAudioVideo | services/video_processor.py:134-277 | the mux plan is the duration-based strategy exactly when ffmpeg is present and the final run succeeds; otherwise an error |
| Files.SupportedTypesTable | services/file_processor.py:50-60 | nine MIME types are accepted |
| Files.FileSizeLimit | services/file_processor.py:46 | sizes up to and including 50·1024·1024 bytes are accepted, and larger ones refused |
| Files.Truncate | services/file_processor.py:116-118 | longer text keeps its first 100000 characters and gains the notice; shorter text is left alone |
| Files.TruncateIdempotent | services/file_processor.py:116-118 | truncating twice is truncating once |
| Files.ExtractedTextFromOwnExtractor | services/file_processor.py:90-120 | an unsupported type gives nothing; otherwise the type's own extractor is read, and the result is within the length limit and starts as that extractor's text |
| Files.FileProcessor.constructor | services/file_processor.py:66-68 | a new processor owns the given, empty temporary directory and has written no file |
| Files.FileProcessor.ExtractTextFromFile | services/file_processor.py:78-124 | returns the dispatched, truncated text; an unsupported type writes no file, a supported one writes exactly the upload and removes it again, so the directory holds no file of that name afterwards |
| Files.Registry.constructor | services/file_processor.py:338-339 | the registry starts with no processor |
| Files.Registry.GetFileProcessor | services/file_processor.py:341-346 | creates the processor on first use and returns that same one afterwards |
| Files.Registry.CleanupFileProcessor | services/file_processor.py:348-353 | forgets the processor, so the next use creates a new one |
| Files.NonEmptyPages | services/file_processor.py:137-140 | no more texts than pages, none of them empty |
| Files.NonEmptyPagesKept | services/file_processor.py:137-140 | a page text is kept exactly when it occurs among the pages and is not empty |
| Files.PdfText | services/file_processor.py:126-150 | the PDF loop returns the non-empty page texts joined by blank lines |
| Files.PyPdf2ReadsNothing | services/file_processor.py:16-26 | with PyPDF2 installed, a one-page PDF reading "x" comes back as no text, where the intended extractor returns "x" |
| Files.PdfExtractKeepsPages | services/file_processor.py:126-154 | the intended extractor answers exactly when a PDF library is present, agrees with the code under pdfplumber, and returns the non-empty pages joined by blank lines |
| Files.KeptParagraphs | services/file_processor.py:167-169 | no more paragraphs than the input, none of them all whitespace |
| Files.KeptParagraphsIff | services/file_processor.py:167-169 | a paragraph is kept exactly when it is in the document and not all whitespace |
| Files.KeptParagraphsAppend | services/file_processor.py:167-169 | the paragraphs are kept in document order: filtering `a + b` gives the kept ones of `a`, then those of `b` |
| Files.StrippedNonBlank | services/file_processor.py:175-177 | no more strings than the input, each stripped and non-empty; used for table cells and OCR results |
| Files.RowBlocks | services/file_processor.py:172-179 | at most one block per table row |
| Files.RowBlocksLast | services/file_processor.py:172-179 | a row adds its line exactly when some cell of it is not all whitespace |
| Files.RowBlocksIff | services/file_processor.py:172-179 | a block is produced exactly when it is the stripped non-blank cells of some row with text, joined by " \| " |
| Files.RowBlocksAppend | services/file_processor.py:172-179 | the lines follow the order of the rows: the rows `a + b` give the lines of `a`, then those of `b` |
| Files.StrippedNonBlankEmptyIff | services/file_processor.py:175-178 | nothing is kept exactly when every string is blank |
| Files.WordText | services/file_processor.py:156-181 | the Word loops return the non-blank paragraphs, then one line per non-empty row, joined by blank lines |
| Files.Longest | services/file_processor.py:249 | the chosen candidate is one of them, at least as long as every other, and the first among equally long ones |
| Files.CorrectMathSymbols | services/file_processor.py:266-303 | the corrections run in order, then whitespace collapses: no leading, trailing or repeated whitespace remains |
| Files.ImageText | services/file_processor.py:240-260 | nothing exactly when every attempt came back blank; otherwise a whitespace-normalised text |
| Helpers.ValidatePromptIff | utils/helpers.py:62-79 | a prompt is accepted exactly when it has at least three characters besides surrounding whitespace and contains no problematic keyword |
| Helpers.BlankPromptRejected | utils/helpers.py:64-65 | empty and whitespace-only prompts are refused |
| Helpers.KeywordRejected | utils/helpers.py:71-77 | a prompt containing a keyword is refused, whatever its case |
| Helpers.FloorDiv | utils/helpers.py:46 | Python's `//` by a positive divisor: q·y ≤ x < (q+1)·y |
| Helpers.FloorMod | utils/helpers.py:47 | Python's `%` by a positive divisor: 0 ≤ r < y and x = q·y + r |
| Helpers.FloorDivUnique | utils/helpers.py:46-52 | that quotient is the only integer with that property |
| Helpers.FormatDurationRecombines | utils/helpers.py:41-53 | the form is chosen by magnitude, and its parts add back to the input, with whole minutes under an hour and seconds under a minute |
| Helpers.TempPaths | utils/helpers.py:21-26 | exactly four paths |
| Helpers.TempPathsDistinct | utils/helpers.py:21-26 | the four paths are different and each contains the animation's id |
| ManimConfig.TierKeysAreTheTable | utils/manim_config.py:7-38 | the five keys are exactly the table's keys, all different |
| ManimConfig.TiersIncrease | utils/manim_config.py:7-38 | frame rates are 15, 30, 60, 60, 60, and both scales strictly increase from l to k |
| ManimConfig.UnknownKeyIsMedium | utils/manim_config.py:81 | an unknown key renders at 720p and 30 frames per second |
| ManimConfig.ZonesMirror | utils/manim_config.py:55-56 | no x lies in both zones, and each zone mirrors the other about 0 |
| Pipeline.EndpointOutcomes | app.py:228-254 | the job starts exactly for a recorded, valid prompt and answers "processing" with no URL; the record exists afterwards exactly when its creation succeeded; a refused prompt gets a 400 after its record exists; a failed record, or a failed first status row after it, gives a 500 |
| Pipeline.InJobStages | app.py:276-391 | a stage is planned exactly when it is in the preamble, the script, render or media segment, or is the upload |
| Pipeline.SilentJob | app.py:279-391 | without audio the stages are exactly the preamble, the script written for 45 s, the render, the move to the served directory and the upload; the final step is 5 |
| Pipeline.SilentJobHasNoAudioStage | app.py:320-388 | without audio no narration stage is planned |
| Pipeline.RenderStagesOnly | app.py:300-318 | the render segment holds only renders and fixes |
| Pipeline.AudioJobTarget | app.py:279-280 | with audio the script's target duration lies within 30–90 seconds |
| Pipeline.RenderRetry | app.py:300-318 | a failed first render is followed by exactly one fix and one more render; a good one by neither |
| Pipeline.OnlyRenderSegmentRenders | app.py:300-318 | renders and fixes occur in the render segment only |
| Pipeline.AudioJobBySyncMethod | app.py:332-391 | the sync method picks the narration stages; subtitles are added twice; pad/trim happens only beyond 2 s; mux and final step 6 exactly when not subtitle_overlay |
| Pipeline.NarrationFirstIsDefault | app.py:357-372 | "narration_first" runs exactly what any other unknown method runs |
| Pipeline.FailedJobCleansRender | app.py:439 | a failed job removes the media directory and the saved script |
| Pipeline.SavedScriptAlwaysRemoved | app.py:408-439 | however the job ends, its saved script `temp_scripts/{id}.py` is removed |
| Pipeline.RemovedByTrackStages | app.py:362-419 | a completed job removes the synced track when it assembled one, else the speech track when it measured one and then the adjusted track exactly when it adjusted, else neither track; never the media directory |
| Pipeline.TrackStagesByRequest | app.py:331-385 | a planned job assembles a synced track exactly for timing analysis with audio, measures and may adjust the speech track exactly on the default route with audio, and adjusts exactly when the durations differ by more than two seconds |
| Pipeline.CompletedJobTracks | app.py:362-419 | a completed job keeps the media directory; a default-route job removes the speech track, and the adjusted track exactly when it adjusted; a timing-analysis job removes the synced track; a silent or subtitled job removes neither track |
| Pipeline.EmitsIff | app.py:76-130 | errors and warnings always print; an INFO record prints exactly when it mentions a step or authentication keyword; a DEBUG record never prints, because the logger and the handler are set to INFO |
| Pipeline.StepMessagesShown | app.py:76-130 | a step announcement at INFO or above prints |

## Left out

- All calls to Claude, OpenAI text-to-speech, ffmpeg, ffprobe, manim and Supabase are inputs or oracle functions, and so are the file system, the database rows and the clock. Their replies are given, not computed.
- The auth middleware, the Supabase wrappers, configuration loading and the database logger are not part of this model. They are thin wrappers over remote services.
- `asyncio` tasks and sleeps are not modelled. The refine loop records the waits it would sleep, as a list.
- Python's `compile` and `exec_module` in `test_manim_script` are an interpreter oracle. Only its layout part is modelled.
- The PDF, Word and OCR libraries are inputs: page texts, paragraphs, table rows, OCR attempts.
- The text extractor (`_extract_from_text`) and the temporary-directory removal (`cleanup`) are reads and deletes of files. Only their place in the dispatch is modelled.
- Text is `seq<char>`. Whitespace is Python's (`str.isspace`, which `str.strip`, `str.split` and `\s` use). `str.lower` is modelled for ASCII letters only.
- The regex class `\d` is modelled as the ASCII digits 0-9 (`FfmpegDuration.IsDigit`, `ScriptTokens.IsDigitChar`). Python's `\d` also matches other Unicode decimal digits; ffmpeg prints ASCII, and scripts with other digits are outside the token model.
- Durations are exact reals. Floating-point rounding is not modelled.
- Float text formatting is left out: the `.1f` strings of `format_duration`, the SRT time stamps, and the numbers written into ffmpeg filters. `Helpers.FormatDurationRecombines` states the parts before printing.
- Helpers.FloorDiv: modelled for the positive divisors `format_duration` uses (60 and 3600), not for arbitrary floats.
- The large prompt strings and the injected code blocks are opaque. The quality section of `enhance_script_generation_prompt`, the positioning block and the validation block are single tokens or parameters.
- Scripts are token sequences in canonical spacing (`N*DIR`, `side_length=N`). The `\s*` the optimizer's patterns allow around `*` and `=` is not modelled.
- Scripts are taken as maximally tokenized: the text of a `Code` token and the arguments of a `MathTex` call are assumed to hold none of the shapes the patterns look for (`*RIGHT`, `side_length=`, `self.play`, ...). No predicate enforces this; a script whose opaque text hides such a shape is outside the model.
- Sequencing.SimpleAssembly: a silence whose own ffmpeg run fails is dropped from the concat list (services/audio_processor.py:587-591), so the audio after it plays early. The modelled sequence always holds every silence.
- The triangle rewrite of `_optimize_geometry_sizes` (services/manim_optimizer.py:91-101) is left out. Its `[^,]+` and `[^)]+` groups range over free text.
- The `.next_to` rewrite (services/manim_optimizer.py:128) is left out for the same reason.
- Of `auto_fix_large_coordinates`, only the five `coordinate_fixes` clamps are modelled. The Riemann-rectangle, `get_vertices`, position, title, text, font and arrange rewrites around them (services/script_generator.py:635-643, 657-…) are free-text regexes outside the token model.
- The regex corrections of `_correct_math_symbols` are a list of string functions given as input. Only their order and the final whitespace collapse are modelled.
- `extract_animation_timing` and `extract_narration_from_script` are single model calls. Their results are inputs.
- `concatenate_audio_segments_simple` is the end of the audio fallback chain. It is modelled as a node that takes the list as given. Its ffmpeg runs are not modelled, and neither is its own raise, which only a file-system error can cause.
- The database status rows and the `AnimationStatus` model (models/schemas.py:27-33) are left out. The model is unused and the rows are writes to a remote table; the pipeline model records stages, not status rows.
- The extended video's path from `os.path.basename` and its `atexit` cleanup are left out. They are file-system effects with no bearing on the plan.
- The stages inside the pipeline are names in a plan. What each stage does is modelled in its own module, not re-run inside `Pipeline`.
- The auto-fix branch of the refine loop asks for a "geometry framing" error. The layout errors of `test_manim_script` do not contain those words, so the branch can only fire for an interpreter error that does. The model keeps the guard as written.
- Optimizer.AddBoundaryValidation: the block is one inserted token placed right before the `self.play`. The replacement `\1` + block + `\n\1\2` also writes the captured indentation a second time, after a newline, before the `self.play`; that whitespace copy is not modelled, because whitespace lives inside the text of the neighbouring token.
- Pipeline.RunJob: the per-segment narration files that `create_synchronized_audio` removes itself (services/audio_processor.py:393) are not in the removed list, which holds only what the job removes.

## Findings

| source | as written | input that shows it | evidently intended | confidence | as-written member | corrected member |
|---|---|---|---|---|---|---|
| services/script_generator.py:647-650 | `(\d+)\*DIR` captures only the digits right before `*`, so in a decimal multiplier the fraction digits are compared and replaced | `0.5*UP` becomes `0.1.2*UP`, which is not a number; `2.5*RIGHT` becomes `2.1*RIGHT`, still above 1.5 | the whole literal is compared with 1.5 and replaced; smaller values are kept | not executed | AutoFix.AsWrittenBreaksSmallDecimal | AutoFix.FixedCoordinatesAreSmall |
| services/manim_optimizer.py:183 | the CJK pattern stops at the closing quote, and the replacement `Text("…", font_size=20)` brings its own `)`, so the call's original `)` is left over | `MathTex("中")` becomes `Text("中", font_size=20))` | the whole call is replaced, keeping the parentheses balanced | not executed | Optimizer.AsWrittenCjkCallUnbalanced | Optimizer.MathRenderingKeepsBalance |
| services/manim_optimizer.py:186 | the lookahead `(?!\s*,\s*font_size)` looks after the call's `)`, where `font_size` never is, so calls that already set it get it again | `MathTex(x, font_size=30)` becomes `MathTex(x, font_size=30, font_size=24)`, a repeated keyword argument | `font_size=24` added only to calls without one | not executed | Optimizer.AsWrittenRepeatsFontSize | Optimizer.MathRenderingSingleFontSize |
| services/file_processor.py:16-26 | `USE_PDFPLUMBER` is assigned only when PyPDF2 fails to import. With PyPDF2 installed, `if USE_PDFPLUMBER:` (line 133) raises NameError, and the handler at line 152 turns it into None | a one-page PDF reading "x", with PyPDF2 installed, gives no text | `USE_PDFPLUMBER = False` beside the PyPDF2 import, so that branch reads the pages | not executed | Files.PyPdf2ReadsNothing | Files.PdfExtractKeepsPages |
