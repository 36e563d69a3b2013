/** app.py: the `/generate` endpoint's outcome, the stages the background
    job runs for a request, and the console log filter. Every stage's own
    work (Claude, manim, ffmpeg, TTS, the database, the storage upload) is
    left to the modules that model it or is outside the model; what is
    decided here is which stages run, in which order, with which
    arguments. */
module Pipeline {
  import opened Results
  import opened Text
  import Helpers
  import Languages
  import ScriptText

  /** `AnimationRequest` (models/schemas.py) with its defaults. */
  datatype AnimationRequest = AnimationRequest(
    prompt: string,
    resolution: string,
    includeAudio: bool,
    voice: string,
    language: Option<string>,
    syncMethod: string)

  function DefaultRequest(prompt: string): AnimationRequest {
    AnimationRequest(prompt, "m", true, "alloy", None, TimingAnalysisMethod)
  }

  const TimingAnalysisMethod: string := "timing_analysis"
  const SubtitleOverlayMethod: string := "subtitle_overlay"

  // ---- generate_animation ----------------------------------------------------------

  datatype Response =
    | Accepted(videoId: string, videoUrl: string, status: string, message: string)
    | HttpError(code: nat, detail: string)

  /** Whether the database record exists afterwards, the response, and
      whether the background job was started. */
  datatype EndpointResult = EndpointResult(recordCreated: bool, response: Response, jobStarted: bool)

  const InitFailed: string := "Failed to initialize video generation"
  const InvalidPrompt: string := "Invalid or unsafe prompt provided"
  const Processing: string := "processing"
  const StartedMessage: string := "Video generation started successfully"

  /** `record` is the database id of the new video record, `None` when its
      creation failed or raised; `statusRecorded` is whether the first
      status row that follows it was written without raising. */
  function GenerateAnimation(animationId: string, prompt: string, record: Option<string>, statusRecorded: bool)
    : EndpointResult
  {
    if record.None? then EndpointResult(false, HttpError(500, InitFailed), false)
    else if !statusRecorded then EndpointResult(true, HttpError(500, InitFailed), false)
    else if !Helpers.ValidatePrompt(prompt) then EndpointResult(true, HttpError(400, InvalidPrompt), false)
    else EndpointResult(true, Accepted(animationId, "", Processing, StartedMessage), true)
  }

  /** The job starts exactly for a recorded, valid prompt, and the caller
      gets "processing" with no URL yet; the video record exists afterwards
      exactly when its creation succeeded; a refused prompt gets a 400 after
      its record already exists; a failed record or status row gets a 500,
      the latter leaving the record behind. */
  lemma EndpointOutcomes(animationId: string, prompt: string, record: Option<string>, statusRecorded: bool)
    ensures var r := GenerateAnimation(animationId, prompt, record, statusRecorded);
      (r.jobStarted <==> record.Some? && statusRecorded && Helpers.ValidatePrompt(prompt)) &&
      (r.jobStarted <==> r.response.Accepted?) &&
      (r.recordCreated <==> record.Some?) &&
      (r.response.Accepted? ==> r.response.videoId == animationId && r.response.videoUrl == [] &&
                                r.response.status == Processing) &&
      (r.response.HttpError? && r.response.code == 400 ==> r.recordCreated) &&
      (r.response.HttpError? ==> (r.response.code == 500 <==> record.None? || !statusRecorded))
  {
  }

  // ---- generate_video_background ---------------------------------------------------

  /** One stage of the background job. */
  datatype Stage =
    | DetectLanguage
    | EstimateDuration
    | GenerateScript(targetDuration: real, language: string, maxAttempts: nat)
    | SaveScript
    | Render(resolution: string)
    | FixScript
    | MeasureVideo
    | TimingAnalysis
    | TimedNarration
    | SyncedAudio
    | ExtractNarration
    | Speech(voice: string)
    | Subtitles
    | MeasureAudio
    | AdjustAudio
    | Mux
    | MoveVideo
    | Upload

  /** `request.language or detect_language(...)`: an empty language counts
      as missing. */
  predicate LanguageGiven(r: AnimationRequest) {
    r.language.Some? && r.language.value != []
  }

  function JobLanguage(r: AnimationRequest, detectReply: Option<string>): string {
    if LanguageGiven(r) then r.language.value else Languages.DetectLanguage(detectReply)
  }

  const NoAudioDuration: real := 45.0
  const ScriptAttempts: nat := 3
  const AdjustThreshold: real := 2.0

  function TargetDuration(r: AnimationRequest, estimate: ScriptText.EstimateReply): real {
    if r.includeAudio then ScriptText.EstimateDuration(estimate, r.prompt) else NoAudioDuration
  }

  function Abs(x: real): real {
    if x < 0.0 then -x else x
  }

  /** The narration stages for a sync method, up to and including how the
      audio reaches the video. */
  function AudioStages(r: AnimationRequest, audioDuration: real, videoDuration: real): seq<Stage> {
    if r.syncMethod == TimingAnalysisMethod then
      [TimingAnalysis, TimedNarration, SyncedAudio, Mux]
    else if r.syncMethod == SubtitleOverlayMethod then
      [ExtractNarration, Speech(r.voice), Subtitles, Subtitles]
    else
      [ExtractNarration, Speech(r.voice), MeasureAudio] +
      (if Abs(audioDuration - videoDuration) > AdjustThreshold then [AdjustAudio] else []) +
      [Mux]
  }

  /** Language detection and duration estimate, when they are needed. */
  function Preamble(r: AnimationRequest): seq<Stage> {
    (if LanguageGiven(r) then [] else [DetectLanguage]) +
    (if r.includeAudio then [EstimateDuration] else [])
  }

  function ScriptStages(r: AnimationRequest, detectReply: Option<string>, estimate: ScriptText.EstimateReply): seq<Stage> {
    [GenerateScript(TargetDuration(r, estimate), JobLanguage(r, detectReply), ScriptAttempts), SaveScript]
  }

  /** One render, and after a failed one a single fix and re-render. */
  function RenderStages(r: AnimationRequest, firstRenderOk: bool): seq<Stage> {
    [Render(r.resolution)] + (if firstRenderOk then [] else [FixScript, Render(r.resolution)])
  }

  /** What happens to the rendered video before the upload. */
  function MediaStages(r: AnimationRequest, audioDuration: real, videoDuration: real): seq<Stage> {
    if r.includeAudio then [MeasureVideo] + AudioStages(r, audioDuration, videoDuration) else [MoveVideo]
  }

  /** The stages of a job that reaches the upload, given the replies of
      the language and duration requests, whether the first render
      succeeded, and the measured durations. */
  function JobStages(r: AnimationRequest, detectReply: Option<string>, estimate: ScriptText.EstimateReply,
                     firstRenderOk: bool, audioDuration: real, videoDuration: real): seq<Stage> {
    Preamble(r) + ScriptStages(r, detectReply, estimate) + RenderStages(r, firstRenderOk) +
    MediaStages(r, audioDuration, videoDuration) + [Upload]
  }

  /** The step number logged for the upload. */
  function FinalStep(r: AnimationRequest): nat {
    if r.includeAudio && r.syncMethod != SubtitleOverlayMethod then 6 else 5
  }

  /** How many times `s` occurs in `stages`. */
  function Count(stages: seq<Stage>, s: Stage): (n: nat)
    ensures n <= |stages|
    ensures n == 0 <==> s !in stages
  {
    if stages == [] then 0 else (if stages[0] == s then 1 else 0) + Count(stages[1..], s)
  }

  lemma {:induction false} CountAppend(a: seq<Stage>, b: seq<Stage>, s: Stage)
    ensures Count(a + b, s) == Count(a, s) + Count(b, s)
  {
    if a == [] {
      assert a + b == b;
    } else {
      assert (a + b)[0] == a[0];
      assert (a + b)[1..] == a[1..] + b;
      CountAppend(a[1..], b, s);
    }
  }

  /** Whether a stage occurs in the plan, segment by segment. */
  lemma InJobStages(r: AnimationRequest, detectReply: Option<string>, estimate: ScriptText.EstimateReply,
                    firstRenderOk: bool, a: real, v: real, s: Stage)
    ensures s in JobStages(r, detectReply, estimate, firstRenderOk, a, v) <==>
      s in Preamble(r) || s in ScriptStages(r, detectReply, estimate) || s in RenderStages(r, firstRenderOk) ||
      s in MediaStages(r, a, v) || s == Upload
  {
  }

  /** The stages that exist only for the narration. */
  predicate IsAudioStage(s: Stage) {
    s.EstimateDuration? || s.MeasureVideo? || s.TimingAnalysis? || s.TimedNarration? || s.SyncedAudio? ||
    s.ExtractNarration? || s.Speech? || s.Subtitles? || s.MeasureAudio? || s.AdjustAudio? || s.Mux?
  }

  /** Without audio the script is written for 45 seconds, no estimate,
      narration or mux stage is planned, the render is moved to the
      served directory and the upload is step 5. */
  lemma SilentJob(r: AnimationRequest, detectReply: Option<string>, estimate: ScriptText.EstimateReply,
                  firstRenderOk: bool, a: real, v: real)
    requires !r.includeAudio
    ensures JobStages(r, detectReply, estimate, firstRenderOk, a, v) ==
      Preamble(r) + [GenerateScript(NoAudioDuration, JobLanguage(r, detectReply), ScriptAttempts), SaveScript] +
      RenderStages(r, firstRenderOk) + [MoveVideo, Upload]
    ensures FinalStep(r) == 5
  {
    var pre := Preamble(r);
    var mid := [GenerateScript(NoAudioDuration, JobLanguage(r, detectReply), ScriptAttempts), SaveScript];
    var ren := RenderStages(r, firstRenderOk);
    assert ScriptStages(r, detectReply, estimate) == mid;
    assert MediaStages(r, a, v) == [MoveVideo];
    assert pre + mid + ren + [MoveVideo] + [Upload] == pre + mid + ren + [MoveVideo, Upload];
  }

  /** And none of its stages exists only for the narration. */
  lemma SilentJobHasNoAudioStage(r: AnimationRequest, detectReply: Option<string>, estimate: ScriptText.EstimateReply,
                                 firstRenderOk: bool, a: real, v: real)
    requires !r.includeAudio
    ensures forall s :: s in JobStages(r, detectReply, estimate, firstRenderOk, a, v) ==> !IsAudioStage(s)
  {
    var pre := Preamble(r);
    var mid := [GenerateScript(NoAudioDuration, JobLanguage(r, detectReply), ScriptAttempts), SaveScript];
    var ren := RenderStages(r, firstRenderOk);
    SilentJob(r, detectReply, estimate, firstRenderOk, a, v);
    assert pre == (if LanguageGiven(r) then [] else [DetectLanguage]) + [];
    RenderStagesOnly(r, firstRenderOk);
    forall s | s in pre + mid + ren + [MoveVideo, Upload] ensures !IsAudioStage(s) {
      assert s in pre || s in mid || s in ren || s in [MoveVideo, Upload];
    }
  }

  /** The render segment holds nothing but renders and fixes. */
  lemma RenderStagesOnly(r: AnimationRequest, firstRenderOk: bool)
    ensures forall s :: s in RenderStages(r, firstRenderOk) ==> s == FixScript || s == Render(r.resolution)
  {
  }

  /** With audio the duration estimate, clamped to 30..90 seconds, is what
      the script is written for. */
  lemma AudioJobTarget(r: AnimationRequest, estimate: ScriptText.EstimateReply)
    requires r.includeAudio
    ensures 30.0 <= TargetDuration(r, estimate) <= 90.0
  {
  }

  /** A failed first render is followed by exactly one fix and one more
      render; a good one by neither. */
  lemma RenderRetry(r: AnimationRequest, detectReply: Option<string>, estimate: ScriptText.EstimateReply,
                    firstRenderOk: bool, a: real, v: real)
    ensures var st := JobStages(r, detectReply, estimate, firstRenderOk, a, v);
      Count(st, FixScript) == (if firstRenderOk then 0 else 1) &&
      Count(st, Render(r.resolution)) == (if firstRenderOk then 1 else 2)
  {
    OnlyRenderSegmentRenders(r, detectReply, estimate, firstRenderOk, a, v, FixScript);
    OnlyRenderSegmentRenders(r, detectReply, estimate, firstRenderOk, a, v, Render(r.resolution));
    var ren := RenderStages(r, firstRenderOk);
    if firstRenderOk {
      assert ren == [Render(r.resolution)];
      assert ren[1..] == [];
    } else {
      assert ren == [Render(r.resolution), FixScript, Render(r.resolution)];
      assert ren[1..][1..][1..] == [];
    }
  }

  /** Renders and fixes occur in the render segment only. */
  lemma OnlyRenderSegmentRenders(r: AnimationRequest, detectReply: Option<string>, estimate: ScriptText.EstimateReply,
                                 firstRenderOk: bool, a: real, v: real, s: Stage)
    requires s == FixScript || s.Render?
    ensures Count(JobStages(r, detectReply, estimate, firstRenderOk, a, v), s) == Count(RenderStages(r, firstRenderOk), s)
  {
    var pre := Preamble(r);
    var mid := ScriptStages(r, detectReply, estimate);
    var ren := RenderStages(r, firstRenderOk);
    var med := MediaStages(r, a, v);
    assert s !in pre;
    assert s !in mid;
    assert s !in med by { MediaStagesNoRender(r, a, v, s); }
    assert s !in [Upload];
    CountAppend(pre + mid + ren + med, [Upload], s);
    CountAppend(pre + mid + ren, med, s);
    CountAppend(pre + mid, ren, s);
    CountAppend(pre, mid, s);
  }

  lemma MediaStagesNoRender(r: AnimationRequest, a: real, v: real, s: Stage)
    requires s == FixScript || s.Render?
    ensures s !in MediaStages(r, a, v)
  {
  }

  /** With audio, the sync method picks the narration stages: timing
      analysis, subtitles (added twice), or the default path, which pads or
      trims the audio only when it is more than two seconds off. Audio and
      video are muxed exactly when subtitles are not used, which is also
      when the upload is logged as step 6. */
  lemma AudioJobBySyncMethod(r: AnimationRequest, a: real, v: real)
    requires r.includeAudio
    ensures r.syncMethod == TimingAnalysisMethod ==>
      AudioStages(r, a, v) == [TimingAnalysis, TimedNarration, SyncedAudio, Mux]
    ensures r.syncMethod == SubtitleOverlayMethod ==>
      AudioStages(r, a, v) == [ExtractNarration, Speech(r.voice), Subtitles, Subtitles]
    ensures r.syncMethod != TimingAnalysisMethod && r.syncMethod != SubtitleOverlayMethod ==>
      AudioStages(r, a, v)[..3] == [ExtractNarration, Speech(r.voice), MeasureAudio] &&
      (AdjustAudio in AudioStages(r, a, v) <==> a - v > 2.0 || v - a > 2.0)
    ensures Mux in AudioStages(r, a, v) <==> r.syncMethod != SubtitleOverlayMethod
    ensures FinalStep(r) == 6 <==> r.syncMethod != SubtitleOverlayMethod
  {
  }

  /** "narration_first" has no branch of its own: it runs exactly what
      any other unknown method runs. */
  lemma NarrationFirstIsDefault(r: AnimationRequest, other: string, a: real, v: real)
    requires r.syncMethod == "narration_first"
    requires other != TimingAnalysisMethod && other != SubtitleOverlayMethod
    ensures AudioStages(r, a, v) == AudioStages(r.(syncMethod := other), a, v)
  {
  }

  /** Where a finished video is served from before its upload. */
  function ServedPath(animationId: string): string {
    "generated_videos/" + animationId + ".mp4"
  }

  function ScriptPath(animationId: string): string {
    "temp_scripts/" + animationId + ".py"
  }

  /** The text-to-speech track, the track padded or trimmed to the video,
      and the track assembled from timed segments. */
  function SpeechTrack(animationId: string): string {
    "temp_output/" + animationId + "_audio.mp3"
  }

  function AdjustedTrack(animationId: string): string {
    "temp_output/" + animationId + "_adjusted_audio.mp3"
  }

  function SyncedTrack(animationId: string): string {
    "temp_output/" + animationId + "_synced_audio.mp3"
  }

  /** The narration tracks a job that ran `stages` removes once the audio
      is muxed: the synced track after timing analysis; on the default
      route the speech track, and then the adjusted track that replaced it
      when the durations were more than two seconds apart. A subtitled or
      silent job removes none. */
  function TracksRemoved(animationId: string, stages: seq<Stage>): seq<string> {
    if SyncedAudio in stages then [SyncedTrack(animationId)]
    else if MeasureAudio in stages then
      [SpeechTrack(animationId)] + (if AdjustAudio in stages then [AdjustedTrack(animationId)] else [])
    else []
  }

  /** The outcome of a job whose stages `stages` raise from index
      `failing` on (`|stages|` when none does): done, with its narration
      tracks, the uploaded local copy and the saved script removed, in that
      order, or the failure recorded with the four temporary paths of the
      animation removed. */
  datatype JobEnd = Completed(removed: seq<string>) | Failed(at: Stage, cleaned: seq<string>)

  function RunJob(animationId: string, stages: seq<Stage>, failing: nat): (e: JobEnd)
    ensures e.Completed? <==> failing >= |stages|
    ensures e.Failed? ==> e.at == stages[failing] && e.cleaned == Helpers.TempPaths(animationId)
    ensures e.Completed? ==>
      e.removed == TracksRemoved(animationId, stages) + [ServedPath(animationId), ScriptPath(animationId)]
  {
    if failing < |stages| then Failed(stages[failing], Helpers.TempPaths(animationId))
    else Completed(TracksRemoved(animationId, stages) + [ServedPath(animationId), ScriptPath(animationId)])
  }

  /** The paths a job removes when it ends. */
  function RemovedBy(e: JobEnd): seq<string> {
    match e
    case Completed(removed) => removed
    case Failed(_, cleaned) => cleaned
  }

  /** A failed job removes the rendered media directory and the saved
      script, among others. */
  lemma FailedJobCleansRender(animationId: string, stages: seq<Stage>, failing: nat)
    requires failing < |stages|
    ensures "temp_output/" + animationId in RunJob(animationId, stages, failing).cleaned
    ensures "temp_scripts/" + animationId + ".py" in RunJob(animationId, stages, failing).cleaned
  {
    assert Helpers.TempPaths(animationId)[1] == "temp_output/" + animationId;
  }

  /** However the job ends, its saved script is removed. */
  lemma SavedScriptAlwaysRemoved(animationId: string, stages: seq<Stage>, failing: nat)
    ensures ScriptPath(animationId) in RemovedBy(RunJob(animationId, stages, failing))
  {
    if failing < |stages| {
      FailedJobCleansRender(animationId, stages, failing);
    } else {
      var removed := RemovedBy(RunJob(animationId, stages, failing));
      assert removed[|removed| - 1] == ScriptPath(animationId);
    }
  }

  /** What a completed job removes, by the narration stages it ran. */
  lemma RemovedByTrackStages(animationId: string, stages: seq<Stage>)
    ensures var removed := TracksRemoved(animationId, stages) + [ServedPath(animationId), ScriptPath(animationId)];
      var ps := Helpers.TempPaths(animationId);
      ps[1] !in removed &&
      (SyncedAudio in stages ==> ps[3] in removed && ps[2] !in removed) &&
      (SyncedAudio !in stages && MeasureAudio in stages ==>
         ps[2] in removed && ps[3] !in removed && (AdjustedTrack(animationId) in removed <==> AdjustAudio in stages)) &&
      (SyncedAudio !in stages && MeasureAudio !in stages ==> ps[2] !in removed && ps[3] !in removed)
  {
    var ps := Helpers.TempPaths(animationId);
    var served, script := ServedPath(animationId), ScriptPath(animationId);
    var speech, adjusted, synced := SpeechTrack(animationId), AdjustedTrack(animationId), SyncedTrack(animationId);
    var n := |animationId|;
    assert |ps[1]| == n + 12 && |ps[2]| == n + 22 && |ps[3]| == n + 29;
    assert |speech| == n + 22 && |adjusted| == n + 31 && |synced| == n + 29 && |script| == n + 16;
    assert served[0] == 'g' && ps[1][0] == 't' && ps[2][0] == 't' && ps[3][0] == 't';
    assert ps[2] == speech && ps[3] == synced;
    if SyncedAudio in stages {
      assert TracksRemoved(animationId, stages) + [served, script] == [synced, served, script];
    } else if MeasureAudio in stages {
      if AdjustAudio in stages {
        assert TracksRemoved(animationId, stages) + [served, script] == [speech, adjusted, served, script];
      } else {
        assert TracksRemoved(animationId, stages) + [served, script] == [speech, served, script];
      }
    } else {
      assert TracksRemoved(animationId, stages) + [served, script] == [served, script];
    }
  }

  /** The stages before the media ones hold no narration stage. */
  lemma NoTrackStageBeforeMedia(r: AnimationRequest, detectReply: Option<string>, estimate: ScriptText.EstimateReply,
                                firstRenderOk: bool, s: Stage)
    requires s == SyncedAudio || s == MeasureAudio || s == AdjustAudio
    ensures s !in Preamble(r) && s !in ScriptStages(r, detectReply, estimate) && s !in RenderStages(r, firstRenderOk)
  {
  }

  /** Which narration stages the media segment holds, by request. */
  lemma TrackStagesOfMedia(r: AnimationRequest, a: real, v: real)
    ensures var media := MediaStages(r, a, v);
      (SyncedAudio in media <==> r.includeAudio && r.syncMethod == TimingAnalysisMethod) &&
      (MeasureAudio in media <==>
         r.includeAudio && r.syncMethod != TimingAnalysisMethod && r.syncMethod != SubtitleOverlayMethod) &&
      (AdjustAudio in media <==>
         r.includeAudio && r.syncMethod != TimingAnalysisMethod && r.syncMethod != SubtitleOverlayMethod &&
         Abs(a - v) > AdjustThreshold)
  {
    if r.includeAudio && r.syncMethod != TimingAnalysisMethod && r.syncMethod != SubtitleOverlayMethod {
      var adjust: seq<Stage> := if Abs(a - v) > AdjustThreshold then [AdjustAudio] else [];
      assert MediaStages(r, a, v) == [MeasureVideo, ExtractNarration, Speech(r.voice), MeasureAudio] + adjust + [Mux];
    }
  }

  /** Which narration stages a planned job holds, by request. */
  lemma TrackStagesByRequest(r: AnimationRequest, detectReply: Option<string>, estimate: ScriptText.EstimateReply,
                             firstRenderOk: bool, a: real, v: real)
    ensures var stages := JobStages(r, detectReply, estimate, firstRenderOk, a, v);
      (SyncedAudio in stages <==> r.includeAudio && r.syncMethod == TimingAnalysisMethod) &&
      (MeasureAudio in stages <==>
         r.includeAudio && r.syncMethod != TimingAnalysisMethod && r.syncMethod != SubtitleOverlayMethod) &&
      (AdjustAudio in stages <==>
         r.includeAudio && r.syncMethod != TimingAnalysisMethod && r.syncMethod != SubtitleOverlayMethod &&
         Abs(a - v) > AdjustThreshold)
  {
    TrackStagesOfMedia(r, a, v);
    InJobStages(r, detectReply, estimate, firstRenderOk, a, v, SyncedAudio);
    NoTrackStageBeforeMedia(r, detectReply, estimate, firstRenderOk, SyncedAudio);
    InJobStages(r, detectReply, estimate, firstRenderOk, a, v, MeasureAudio);
    NoTrackStageBeforeMedia(r, detectReply, estimate, firstRenderOk, MeasureAudio);
    InJobStages(r, detectReply, estimate, firstRenderOk, a, v, AdjustAudio);
    NoTrackStageBeforeMedia(r, detectReply, estimate, firstRenderOk, AdjustAudio);
  }

  /** A completed job never removes the rendered media directory; it
      removes the speech track on the default route and the synced track
      after timing analysis, the adjusted track exactly when the default
      route adjusted the audio, and neither of the two tracks a failure
      would clean up when the job is silent or subtitled. */
  lemma CompletedJobTracks(r: AnimationRequest, detectReply: Option<string>, estimate: ScriptText.EstimateReply,
                           firstRenderOk: bool, a: real, v: real, animationId: string)
    ensures var stages := JobStages(r, detectReply, estimate, firstRenderOk, a, v);
      var removed := RunJob(animationId, stages, |stages|).removed;
      var ps := Helpers.TempPaths(animationId);
      ps[1] !in removed &&
      (!r.includeAudio || r.syncMethod == SubtitleOverlayMethod ==> ps[2] !in removed && ps[3] !in removed) &&
      (r.includeAudio && r.syncMethod == TimingAnalysisMethod ==> ps[3] in removed && ps[2] !in removed) &&
      (r.includeAudio && r.syncMethod != TimingAnalysisMethod && r.syncMethod != SubtitleOverlayMethod ==>
         ps[2] in removed && ps[3] !in removed &&
         (AdjustedTrack(animationId) in removed <==> Abs(a - v) > AdjustThreshold))
  {
    var stages := JobStages(r, detectReply, estimate, firstRenderOk, a, v);
    TrackStagesByRequest(r, detectReply, estimate, firstRenderOk, a, v);
    RemovedByTrackStages(animationId, stages);
  }

  // ---- FilteredColorHandler.emit -----------------------------------------------------

  const StepKeywords: seq<string> := ["步骤", "开始生成", "启动完成", "服务地址"]
  const AuthKeywords: seq<string> :=
    ["Auth header", "Current user", "认证用户", "提取到用户名", "Authorization header", "Optional auth"]
  const ShownLevels: seq<string> := ["ERROR", "CRITICAL", "WARNING"]
  /** The levels the root logger and the console handler let through:
      both are set to INFO, so DEBUG records never reach the filter. */
  const LoggedLevels: seq<string> := ["INFO", "WARNING", "ERROR", "CRITICAL"]

  predicate MentionsAny(message: string, keywords: seq<string>) {
    exists k :: 0 <= k < |keywords| && Contains(message, keywords[k])
  }

  /** Whether a record of one of the standard level names is printed: it
      must pass the INFO level, then the handler's filter. */
  predicate Emits(level: string, message: string) {
    level in LoggedLevels &&
    (MentionsAny(message, StepKeywords) || MentionsAny(message, AuthKeywords) ||
     level == "ERROR" || level == "CRITICAL" || level == "WARNING")
  }

  /** Errors and warnings always print; an INFO record prints exactly
      when its message mentions a step or authentication keyword; a DEBUG
      record never prints. */
  lemma EmitsIff(level: string, message: string)
    ensures level in ShownLevels ==> Emits(level, message)
    ensures level == "INFO" ==>
      (Emits(level, message) <==> MentionsAny(message, StepKeywords + AuthKeywords))
    ensures level == "DEBUG" ==> !Emits(level, message)
  {
    if MentionsAny(message, StepKeywords + AuthKeywords) {
      var k :| 0 <= k < |StepKeywords + AuthKeywords| && Contains(message, (StepKeywords + AuthKeywords)[k]);
      if k >= |StepKeywords| {
        assert (StepKeywords + AuthKeywords)[k] == AuthKeywords[k - |StepKeywords|];
      }
    }
    if MentionsAny(message, StepKeywords) {
      var k :| 0 <= k < |StepKeywords| && Contains(message, StepKeywords[k]);
      assert (StepKeywords + AuthKeywords)[k] == StepKeywords[k];
    }
    if MentionsAny(message, AuthKeywords) {
      var k :| 0 <= k < |AuthKeywords| && Contains(message, AuthKeywords[k]);
      assert (StepKeywords + AuthKeywords)[k + |StepKeywords|] == AuthKeywords[k];
    }
  }

  /** So a step announcement prints at any level from INFO up. */
  lemma StepMessagesShown(level: string, before: string, k: nat, after: string)
    requires level in LoggedLevels && k < |StepKeywords|
    ensures Emits(level, before + StepKeywords[k] + after)
  {
    ContainsPrefix(StepKeywords[k], StepKeywords[k]);
    ContainsInConcat(before, StepKeywords[k], after, StepKeywords[k]);
  }
}
