/** services/video_processor.py: the manim render command and how its
    outcome is read (`execute_manim_script`), and the choice of how audio
    and video are muxed (`combine_audio_video`). The processes themselves
    are inputs: their exit codes, their stderr and the `.mp4` files found
    afterwards. */
module Video {
  import opened Results

  // ---- execute_manim_script ----------------------------------------------------------

  const OutputRoot: string := "temp_output/"

  /** The per-animation media directory. */
  function OutputDir(animationId: string): string {
    OutputRoot + animationId
  }

  /** What the render command is built from. */
  datatype RenderArgs = RenderArgs(scriptPath: string, animationId: string, resolution: string)

  /** `manim render -q <res> --output_file <id> --media_dir temp_output/<id> <script>`. */
  function RenderCommand(a: RenderArgs): seq<string> {
    ["manim", "render", "-q", a.resolution, "--output_file", a.animationId, "--media_dir", OutputDir(a.animationId), a.scriptPath]
  }

  /** Reads the arguments back from a command of the render shape. */
  function ParseRenderCommand(cmd: seq<string>): Option<RenderArgs> {
    if |cmd| == 9 && cmd[0] == "manim" && cmd[1] == "render" && cmd[2] == "-q" && cmd[4] == "--output_file"
       && cmd[6] == "--media_dir" && cmd[7] == OutputDir(cmd[5])
    then Some(RenderArgs(cmd[8], cmd[5], cmd[3]))
    else None
  }

  /** The command carries its three arguments where manim expects them,
      with the media directory named after the animation. */
  lemma RenderCommandRoundTrip(a: RenderArgs)
    ensures ParseRenderCommand(RenderCommand(a)) == Some(a)
  {
  }

  /** And a command of that shape is the render command of what it carries. */
  lemma ParsedCommandIsRender(cmd: seq<string>)
    requires ParseRenderCommand(cmd).Some?
    ensures RenderCommand(ParseRenderCommand(cmd).value) == cmd
  {
    var a := ParseRenderCommand(cmd).value;
    assert RenderCommand(a)[7] == cmd[7];
  }

  /** Two animations never share a media directory. */
  lemma OutputDirsDistinct(id1: string, id2: string)
    requires id1 != id2
    ensures OutputDir(id1) != OutputDir(id2)
  {
    assert OutputDir(id1)[|OutputRoot|..] == id1;
    assert OutputDir(id2)[|OutputRoot|..] == id2;
  }

  /** A finished process. */
  datatype Completed = Completed(returnCode: int, stderr: string)

  const RenderFailed: string := "Failed to execute Manim script: "
  const ExecutionFailed: string := "Manim execution failed: "
  const NoVideo: string := "No video file generated"

  /** The path returned for a render whose process ended as `p` and after
      which `mp4s` lists the `.mp4` files under the media directory, or
      the message of the exception raised. */
  function RenderResult(p: Completed, mp4s: seq<string>): (r: Result<string>)
    ensures r.Ok? <==> p.returnCode == 0 && mp4s != []
    ensures r.Ok? ==> r.value == mp4s[0]
    ensures r.Err? ==> RenderFailed <= r.message
    ensures p.returnCode != 0 ==> r.message == RenderFailed + ExecutionFailed + p.stderr
    ensures p.returnCode == 0 && mp4s == [] ==> r.message == RenderFailed + NoVideo
  {
    if p.returnCode != 0 then Err(RenderFailed + ExecutionFailed + p.stderr)
    else if mp4s == [] then Err(RenderFailed + NoVideo)
    else Ok(mp4s[0])
  }

  // ---- combine_audio_video -----------------------------------------------------------

  /** How the final ffmpeg call combines the two streams. */
  datatype MuxPlan =
    | PlainMux                          // `-shortest` on the original video
    | PadAudio(wholeDuration: real)     // `apad` of the audio to the video's length
    | FreezeLastFrame(extension: real)  // `tpad` clone of the last frame, then `-shortest`
    | LoopVideo                         // `-stream_loop -1` on the original video

  const PadBelow: real := 0.7
  const ExtendAbove: real := 1.1

  /** The plan for a video of `videoDuration` (if known) and an audio track
      of `audioDuration`; `extendCode` is the exit code of the freeze-frame
      extension, which only runs when the audio is much longer. */
  function MuxStrategy(videoDuration: Option<real>, audioDuration: real, extendCode: int): MuxPlan {
    if videoDuration.Some? && videoDuration.value != 0.0 && audioDuration != 0.0 then
      var ratio := audioDuration / videoDuration.value;
      if ratio < PadBelow then PadAudio(videoDuration.value)
      else if ratio > ExtendAbove then
        (if extendCode != 0 then LoopVideo else FreezeLastFrame(audioDuration - videoDuration.value + 1.0))
      else PlainMux
    else PlainMux
  }

  /** The ratio is only formed when both durations are non-zero: without
      them the plain mux is used. */
  lemma PlainWithoutDurations(videoDuration: Option<real>, audioDuration: real, extendCode: int)
    requires videoDuration.None? || videoDuration.value == 0.0 || audioDuration == 0.0
    ensures MuxStrategy(videoDuration, audioDuration, extendCode) == PlainMux
  {
  }

  lemma RatioBelow(a: real, v: real, k: real)
    requires v > 0.0
    ensures a / v < k <==> a < k * v
    ensures a / v > k <==> a > k * v
  {
    assert a == (a / v) * v;
    if a / v < k {
      assert (a / v) * v < k * v;
    }
    if a / v > k {
      assert (a / v) * v > k * v;
    }
    if a < k * v {
      assert (a / v) * v < k * v;
    }
    if a > k * v {
      assert (a / v) * v > k * v;
    }
  }

  /** For a known, positive video length the plan follows the audio length
      alone: padded to the video below 0.7 of it, extended above 1.1 of it
      (or looped when the extension fails), plain in between. */
  lemma MuxByDurations(v: real, a: real, extendCode: int)
    requires v > 0.0 && a > 0.0
    ensures var m := MuxStrategy(Some(v), a, extendCode);
      (m.PadAudio? <==> a < 0.7 * v) &&
      (m.PadAudio? ==> m.wholeDuration == v) &&
      (m.FreezeLastFrame? <==> a > 1.1 * v && extendCode == 0) &&
      (m.LoopVideo? <==> a > 1.1 * v && extendCode != 0) &&
      (m == PlainMux <==> 0.7 * v <= a <= 1.1 * v)
  {
    RatioBelow(a, v, PadBelow);
    RatioBelow(a, v, ExtendAbove);
  }

  /** The frozen tail makes the video one second longer than the audio. */
  lemma FreezeOutlastsAudio(v: real, a: real, extendCode: int)
    requires v > 0.0 && MuxStrategy(Some(v), a, extendCode).FreezeLastFrame?
    ensures var e := MuxStrategy(Some(v), a, extendCode).extension;
      v + e == a + 1.0 && e > 1.0
  {
    RatioBelow(a, v, ExtendAbove);
  }

  const CombineFailed: string := "Failed to combine audio and video: "
  const FfmpegMissing: string :=
    "FFmpeg is not installed. Please install it using:\n" +
    "macOS: brew install ffmpeg\n" +
    "Ubuntu: sudo apt install ffmpeg\n" +
    "Windows: Download from https://ffmpeg.org/download.html"
  const FfmpegFailed: string := "FFmpeg failed: "

  /** `combine_audio_video`: the plan carried out, or the message of the
      exception raised when ffmpeg is missing or its final run fails. */
  function CombineAudioVideo(ffmpegAvailable: bool, videoDuration: Option<real>, audioDuration: real,
                             extendCode: int, final: Completed): (r: Result<MuxPlan>)
    ensures r.Ok? <==> ffmpegAvailable && final.returnCode == 0
    ensures r.Ok? ==> r.value == MuxStrategy(videoDuration, audioDuration, extendCode)
    ensures r.Err? ==> CombineFailed <= r.message
  {
    if !ffmpegAvailable then Err(CombineFailed + FfmpegMissing)
    else if final.returnCode != 0 then Err(CombineFailed + FfmpegFailed + final.stderr)
    else Ok(MuxStrategy(videoDuration, audioDuration, extendCode))
  }
}
