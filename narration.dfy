/** Narration timing in services/audio_processor.py: cleaning the segments
    the language model returns, choosing the segments that are spoken,
    sizing the silent base track, the pad-or-trim decision and subtitle
    chunking. Replies of the language model, the text-to-speech service and
    ffmpeg are inputs. */
module Narration {
  import opened Results
  import opened Text
  import FfmpegDuration

  /** One narration segment as parsed from the model's JSON: each key may be
      missing. */
  datatype RawSegment = RawSegment(text: Option<string>, start: Option<real>, end: Option<real>)

  /** A cleaned narration segment. */
  datatype Segment = Segment(start: real, end: real, text: string, words: nat)

  /** What came back from the timed-narration request. `CallFailed` is
      every case the outer handler catches: the request itself raised, or
      the reply was JSON that the cleaning loop cannot take (not a list of
      objects, a `null` text, a time that does not compare or add as a
      number), so that the loop raised. */
  datatype NarrationReply =
    | CallFailed                                // the request or the cleaning raised
    | Unparsable                                // the reply was not JSON
    | Parsed(segments: seq<RawSegment>)         // a JSON list of objects the loop cleans

  /** The three segments used when the timing analysis fails. */
  datatype TimingSegment = TimingSegment(start: real, end: real, description: string)

  const FallbackTiming: seq<TimingSegment> := [
    TimingSegment(0.0, 10.0, "Introduction"),
    TimingSegment(10.0, 20.0, "Main content"),
    TimingSegment(20.0, 30.0, "Conclusion")]

  const FallbackNarration: string := "Educational animation explaining the concept step by step."

  function StartOf(raw: RawSegment): real {
    if raw.start.Some? then raw.start.value else 0.0
  }

  function EndOf(raw: RawSegment): real {
    if raw.end.Some? then raw.end.value else 10.0
  }

  /** `segment.get("text", "").strip()`. */
  function TextOf(raw: RawSegment): string {
    Strip(if raw.text.Some? then raw.text.value else "")
  }

  /** The text put in place of a missing or too short segment text. */
  function FallbackText(i: nat): (t: string)
    ensures |t| >= 3 && IsStripped(t)
  {
    var t := "Animation segment " + NatToString(i + 1) + ".";
    assert t[0] == 'A' && t[|t| - 1] == '.';
    t
  }

  /** A stripped text of at least one character holds at least one word. */
  lemma StrippedHasWord(t: string)
    requires t != [] && IsStripped(t)
    ensures |Words(t)| >= 1
  {
    assert LStrip(t) == t;
  }

  /** Cleaning the `i`-th segment: its start is kept (0 when missing), an
      end that does not follow the start is replaced by start + 3 (a
      missing end reads as 10), a text shorter than three characters after
      stripping is replaced by "Animation segment {i+1}.", and `words`
      counts the whitespace-separated words of the final text. */
  function CleanOne(i: nat, raw: RawSegment): (seg: Segment)
    ensures seg.start == StartOf(raw) && seg.end > seg.start
    ensures EndOf(raw) > StartOf(raw) ==> seg.end == EndOf(raw)
    ensures EndOf(raw) <= StartOf(raw) ==> seg.end == StartOf(raw) + 3.0
    ensures |seg.text| >= 3 && IsStripped(seg.text)
    ensures |TextOf(raw)| >= 3 ==> seg.text == TextOf(raw)
    ensures seg.words == |Words(seg.text)| && seg.words >= 1
  {
    var text := if |TextOf(raw)| < 3 then FallbackText(i) else TextOf(raw);
    var start := StartOf(raw);
    var end := if EndOf(raw) <= start then start + 3.0 else EndOf(raw);
    StrippedHasWord(text);
    Segment(start, end, text, |Words(text)|)
  }

  /** The numbered fallback text takes the place of a short text. */
  lemma ShortTextReplaced(i: nat, raw: RawSegment)
    requires |TextOf(raw)| < 3
    ensures CleanOne(i, raw).text == FallbackText(i)
    ensures CleanOne(i, raw).words == |Words(FallbackText(i))|
  {
  }

  /** Every segment cleaned, each with its position. */
  function CleanAll(raw: seq<RawSegment>): (cleaned: seq<Segment>)
    ensures |cleaned| == |raw|
  {
    if raw == [] then []
    else CleanAll(raw[..|raw| - 1]) + [CleanOne(|raw| - 1, raw[|raw| - 1])]
  }

  /** The `i`-th cleaned segment is the `i`-th parsed segment cleaned with
      number `i`. */
  lemma {:induction false} CleanAllPointwise(raw: seq<RawSegment>, i: nat)
    requires i < |raw|
    ensures CleanAll(raw)[i] == CleanOne(i, raw[i])
  {
    var init := raw[..|raw| - 1];
    var last := CleanOne(|raw| - 1, raw[|raw| - 1]);
    assert CleanAll(raw) == CleanAll(init) + [last];
    if i < |raw| - 1 {
      CleanAllPointwise(init, i);
      assert init[i] == raw[i];
      assert CleanAll(raw)[i] == CleanAll(init)[i];
    }
  }

  /** The cleaning loop of `generate_timed_narration`: one cleaned segment
      per parsed segment, in the same order. */
  method CleanSegments(raw: seq<RawSegment>) returns (cleaned: seq<Segment>)
    ensures cleaned == CleanAll(raw)
  {
    cleaned := [];
    var i := 0;
    while i < |raw|
      invariant 0 <= i <= |raw|
      invariant cleaned == CleanAll(raw[..i])
    {
      assert raw[..i + 1][..i] == raw[..i];
      var seg := CleanOne(i, raw[i]);
      cleaned := cleaned + [seg];
      i := i + 1;
    }
    assert raw[..i] == raw;
  }

  /** `generate_timed_narration` after the model call: cleaned segments, or
      one fallback segment spanning ten seconds per timing segment when the
      reply is not JSON, or thirty seconds when the call failed. */
  method TimedNarration(reply: NarrationReply, timingCount: nat) returns (segs: seq<Segment>)
    ensures reply.Parsed? ==> segs == CleanAll(reply.segments)
    ensures reply.Unparsable? ==> segs == [Segment(0.0, 10.0 * timingCount as real, FallbackNarration, 8)]
    ensures reply.CallFailed? ==> segs == [Segment(0.0, 30.0, FallbackNarration, 8)]
  {
    match reply
    case Parsed(raw) =>
      segs := CleanSegments(raw);
    case Unparsable =>
      segs := [Segment(0.0, 10.0 * timingCount as real, FallbackNarration, 8)];
    case CallFailed =>
      segs := [Segment(0.0, 30.0, FallbackNarration, 8)];
  }

  /** The fallback timing tiles [0, 30] in three consecutive ten-second
      segments, so the unparsable-reply fallback over it ends where the
      failed-call fallback does. */
  lemma FallbackTimingTiles()
    ensures |FallbackTiming| == 3 && FallbackTiming[0].start == 0.0
    ensures forall k :: 0 <= k < |FallbackTiming| ==> FallbackTiming[k].end - FallbackTiming[k].start == 10.0
    ensures forall k :: 0 <= k < |FallbackTiming| - 1 ==> FallbackTiming[k].end == FallbackTiming[k + 1].start
    ensures 10.0 * |FallbackTiming| as real == FallbackTiming[|FallbackTiming| - 1].end
  {
  }

  // ---- create_synchronized_audio ------------------------------------------

  /** A segment survives the filter when its stripped text is not empty,
      that is when its text is not all whitespace (`Text.StripEmptyIffAllSpace`). */
  predicate Spoken(seg: Segment) {
    !AllSpace(seg.text)
  }

  /** The surviving segments, in their original order. */
  function KeepSpoken(segs: seq<Segment>): (kept: seq<Segment>)
    ensures |kept| <= |segs|
  {
    if segs == [] then []
    else
      var last := segs[|segs| - 1];
      KeepSpoken(segs[..|segs| - 1]) + (if Spoken(last) then [last] else [])
  }

  /** The filter keeps exactly the spoken segments. */
  lemma {:induction false} KeepSpokenMembers(segs: seq<Segment>)
    ensures forall s :: s in KeepSpoken(segs) ==> s in segs && Spoken(s)
    ensures forall s :: s in segs && Spoken(s) ==> s in KeepSpoken(segs)
  {
    if segs != [] {
      var init := segs[..|segs| - 1];
      var last := segs[|segs| - 1];
      KeepSpokenMembers(init);
      assert segs == init + [last];
    }
  }

  /** A segment that will be voiced: its audio file, its timing and its text. */
  datatype AudioSegment = AudioSegment(path: string, start: real, end: real, text: string)

  /** `temp_output/{id}_segment_{i}.mp3`. */
  function SegmentPath(id: string, i: nat): string {
    "temp_output/" + id + "_segment_" + NatToString(i) + ".mp3"
  }

  /** The text sent to speech synthesis: stripped, and "Pause." when that
      leaves fewer than three characters. */
  function SpokenText(text: string): (t: string)
    ensures |t| >= 3
    ensures |Strip(text)| >= 3 ==> t == Strip(text)
    ensures |Strip(text)| < 3 ==> t == "Pause."
  {
    if |Strip(text)| < 3 then "Pause." else Strip(text)
  }

  function ToAudio(id: string, i: nat, seg: Segment): AudioSegment {
    AudioSegment(SegmentPath(id, i), seg.start, seg.end, SpokenText(seg.text))
  }

  const NoValidSegments: string :=
    "Failed to create synchronized audio: No valid narration segments found - all segments are empty"

  /** The first loop of `create_synchronized_audio`: keep the segments
      whose stripped text is not empty, in order. */
  method FilterSpoken(segs: seq<Segment>) returns (valid: seq<Segment>)
    ensures valid == KeepSpoken(segs)
  {
    valid := [];
    var i := 0;
    while i < |segs|
      invariant 0 <= i <= |segs|
      invariant valid == KeepSpoken(segs[..i])
    {
      assert segs[..i + 1][..i] == segs[..i];
      StripEmptyIffAllSpace(segs[i].text);
      if Strip(segs[i].text) != [] {
        valid := valid + [segs[i]];
      }
      i := i + 1;
    }
    assert segs[..|segs|] == segs;
  }

  /** The spoken segments numbered in order. */
  function NumberAll(valid: seq<Segment>, id: string): (audio: seq<AudioSegment>)
    ensures |audio| == |valid|
  {
    if valid == [] then []
    else NumberAll(valid[..|valid| - 1], id) + [ToAudio(id, |valid| - 1, valid[|valid| - 1])]
  }

  /** The `i`-th surviving segment gets its own file and its speakable
      text. */
  lemma {:induction false} NumberAllPointwise(valid: seq<Segment>, id: string, i: nat)
    requires i < |valid|
    ensures NumberAll(valid, id)[i] == ToAudio(id, i, valid[i])
  {
    if i < |valid| - 1 {
      var init := valid[..|valid| - 1];
      NumberAllPointwise(init, id, i);
      assert init[i] == valid[i];
    }
  }

  /** The second loop of `create_synchronized_audio`. */
  method NumberSegments(valid: seq<Segment>, id: string) returns (audio: seq<AudioSegment>)
    ensures audio == NumberAll(valid, id)
  {
    audio := [];
    var j := 0;
    while j < |valid|
      invariant 0 <= j <= |valid|
      invariant audio == NumberAll(valid[..j], id)
    {
      assert valid[..j + 1][..j] == valid[..j];
      var a := ToAudio(id, j, valid[j]);
      audio := audio + [a];
      j := j + 1;
    }
    assert valid[..j] == valid;
  }

  /** `create_synchronized_audio` before its ffmpeg call: raise when no
      segment is spoken, otherwise voice the spoken ones in order. */
  method SynchronizedSegments(segs: seq<Segment>, id: string) returns (r: Result<seq<AudioSegment>>)
    ensures r.Err? <==> KeepSpoken(segs) == []
    ensures r.Err? ==> r.message == NoValidSegments
    ensures r.Ok? ==> r.value == NumberAll(KeepSpoken(segs), id)
  {
    var valid := FilterSpoken(segs);
    if valid == [] {
      return Err(NoValidSegments);
    }
    var audio := NumberSegments(valid, id);
    r := Ok(audio);
  }

  /** A cleaned segment: a stripped text of at least three characters. */
  predicate IsCleaned(seg: Segment) {
    |seg.text| >= 3 && IsStripped(seg.text)
  }

  lemma StrippedIsSpoken(seg: Segment)
    requires IsCleaned(seg)
    ensures Spoken(seg)
  {
    assert !IsSpace(seg.text[0]);
  }

  predicate AllCleaned(segs: seq<Segment>) {
    forall k :: 0 <= k < |segs| ==> IsCleaned(segs[k])
  }

  /** Every segment that comes out of the cleaning step survives the filter
      with its text unchanged: cleaning and filtering agree. */
  lemma {:induction false} CleanedSegmentsAllSpoken(segs: seq<Segment>)
    requires AllCleaned(segs)
    ensures KeepSpoken(segs) == segs
  {
    if segs != [] {
      var init := segs[..|segs| - 1];
      var last := segs[|segs| - 1];
      assert AllCleaned(init) by {
        forall k | 0 <= k < |init| ensures IsCleaned(init[k]) {
          assert init[k] == segs[k];
        }
      }
      CleanedSegmentsAllSpoken(init);
      StrippedIsSpoken(last);
      assert KeepSpoken(segs) == KeepSpoken(init) + [last];
      assert init + [last] == segs;
    }
  }

  /** So the filter of `create_synchronized_audio` keeps every segment
      `generate_timed_narration` produces. */
  lemma CleanedNarrationAllSpoken(raw: seq<RawSegment>)
    ensures KeepSpoken(CleanAll(raw)) == CleanAll(raw)
  {
    var segs := CleanAll(raw);
    forall k | 0 <= k < |segs| ensures IsCleaned(segs[k]) {
      CleanAllPointwise(raw, k);
    }
    CleanedSegmentsAllSpoken(segs);
  }

  lemma CleanedTextsSpokenAsIs(segs: seq<Segment>)
    requires AllCleaned(segs)
    ensures forall k :: 0 <= k < |segs| ==> SpokenText(segs[k].text) == segs[k].text
  {
    forall k | 0 <= k < |segs| ensures SpokenText(segs[k].text) == segs[k].text {
      StripOfStripped(segs[k].text);
    }
  }

  // ---- combine_audio_segments -----------------------------------------------

  /** The latest end time of a non-empty list. */
  function MaxEnd(segs: seq<AudioSegment>): (m: real)
    requires segs != []
    ensures forall k :: 0 <= k < |segs| ==> segs[k].end <= m
    ensures exists k :: 0 <= k < |segs| && segs[k].end == m
  {
    if |segs| == 1 then segs[0].end
    else
      var rest := MaxEnd(segs[1..]);
      assert forall k :: 1 <= k < |segs| ==> segs[k] == segs[1..][k - 1];
      if segs[0].end >= rest then segs[0].end else rest
  }

  /** The base track is two seconds longer than the latest segment end; an
      empty list raises. */
  function BaseTrackLength(segs: seq<AudioSegment>): (r: Result<real>)
    ensures r.Err? <==> segs == []
    ensures r.Err? ==> r.message == "No audio segments to combine"
    ensures r.Ok? ==> forall k :: 0 <= k < |segs| ==> segs[k].end + 2.0 <= r.value
    ensures r.Ok? ==> exists k :: 0 <= k < |segs| && segs[k].end + 2.0 == r.value
  {
    if segs == [] then Err("No audio segments to combine") else Ok(MaxEnd(segs) + 2.0)
  }

  // ---- adjust_audio_duration --------------------------------------------------

  /** The two ffmpeg treatments of an audio track. */
  datatype Adjustment =
    | PadTo(wholeDuration: real)    // append silence up to the given length
    | TrimTo(limit: real)           // cut the track at the given length

  /** Pad when the track is shorter than the target, otherwise trim. */
  function AdjustmentFor(current: real, target: real): (a: Adjustment)
    ensures current < target <==> a.PadTo?
    ensures a.PadTo? ==> a.wholeDuration == target
    ensures a.TrimTo? ==> a.limit == target
  {
    if current < target then PadTo(target) else TrimTo(target)
  }

  /** The length ffmpeg produces: padding never shortens, trimming never
      lengthens. */
  function LengthAfter(current: real, a: Adjustment): real {
    match a
    case PadTo(w) => if current < w then w else current
    case TrimTo(t) => if current < t then current else t
  }

  /** Whichever way it goes, the adjusted track has exactly the target length. */
  lemma AdjustmentReachesTarget(current: real, target: real)
    ensures LengthAfter(current, AdjustmentFor(current, target)) == target
  {
  }

  /** `adjust_audio_duration`: the current length is read with the audio
      duration parse; a failing ffmpeg run raises with its error output. */
  function AdjustAudio(probe: Option<string>, target: real, exitCode: int, stderr: string): (r: Result<Adjustment>)
    ensures exitCode != 0 <==> r.Err?
    ensures r.Err? ==> r.message == "Failed to adjust audio duration: FFmpeg audio adjustment failed: " + stderr
    ensures r.Ok? ==> LengthAfter(FfmpegDuration.AudioDuration(probe), r.value) == target
  {
    var a := AdjustmentFor(FfmpegDuration.AudioDuration(probe), target);
    AdjustmentReachesTarget(FfmpegDuration.AudioDuration(probe), target);
    if exitCode != 0 then Err("Failed to adjust audio duration: FFmpeg audio adjustment failed: " + stderr)
    else Ok(a)
  }

  // ---- add_subtitles_to_video ---------------------------------------------------

  const ChunkSize: nat := 8

  function Flatten(cs: seq<seq<string>>): seq<string> {
    if cs == [] then [] else cs[0] + Flatten(cs[1..])
  }

  /** `[words[i:i+8] for i in range(0, len(words), 8)]`: consecutive chunks
      of eight words, the last possibly shorter, that concatenate back to
      the word list. */
  function Chunks(words: seq<string>): (cs: seq<seq<string>>)
    ensures Flatten(cs) == words
    ensures forall k :: 0 <= k < |cs| ==> 1 <= |cs[k]| <= ChunkSize
    ensures forall k :: 0 <= k < |cs| - 1 ==> |cs[k]| == ChunkSize
    ensures |cs| == (|words| + ChunkSize - 1) / ChunkSize
    decreases |words|
  {
    if words == [] then []
    else if |words| <= ChunkSize then
      assert Flatten([words]) == words + Flatten([]);
      [words]
    else
      var cs := [words[..ChunkSize]] + Chunks(words[ChunkSize..]);
      assert cs[1..] == Chunks(words[ChunkSize..]);
      assert words[..ChunkSize] + words[ChunkSize..] == words;
      cs
  }

  /** One subtitle: its time span and its text. */
  datatype Cue = Cue(start: real, end: real, text: string)

  /** Chunk `i` of `n` is shown from i·d/n to (i+1)·d/n for a video of `d`
      seconds. */
  function Schedule(cs: seq<seq<string>>, d: real): (cues: seq<Cue>)
    requires cs != []
    ensures |cues| == |cs|
    ensures forall i :: 0 <= i < |cs| ==> cues[i].text == Join(cs[i], " ")
  {
    var per := d / |cs| as real;
    seq(|cs|, i requires 0 <= i < |cs| => Cue(i as real * per, (i + 1) as real * per, Join(cs[i], " ")))
  }

  /** The cues tile the whole video: the first starts at 0, each ends where
      the next starts, all have the same length, and the last ends at the
      video's duration. */
  lemma {:induction false} ScheduleTilesVideo(cs: seq<seq<string>>, d: real)
    requires cs != []
    ensures var cues := Schedule(cs, d);
      cues[0].start == 0.0 && cues[|cues| - 1].end == d
      && (forall i :: 0 <= i < |cues| - 1 ==> cues[i].end == cues[i + 1].start)
      && (forall i :: 0 <= i < |cues| ==> cues[i].end - cues[i].start == d / |cues| as real)
  {
    var cues := Schedule(cs, d);
    var n := |cs| as real;
    var per := d / n;
    forall i | 0 <= i < |cues|
      ensures cues[i].start == i as real * per && cues[i].end == (i + 1) as real * per
    {
    }
    forall i | 0 <= i < |cues|
      ensures cues[i].end - cues[i].start == per
    {
      assert (i + 1) as real * per == i as real * per + per;
    }
    assert n * per == d;
  }

  /** The subtitle file's entries, one per chunk of the narration's words.
      No words means no chunks, and the division by zero raises. */
  function SubtitleCues(narration: string, videoDuration: real): (r: Result<seq<Cue>>)
    ensures r.Err? <==> Words(narration) == []
    ensures r.Err? ==> r.message == "Failed to add subtitles: float division by zero"
    ensures r.Ok? ==> |r.value| == |Chunks(Words(narration))|
    ensures r.Ok? ==> forall i :: 0 <= i < |r.value| ==>
              r.value[i].text == Join(Chunks(Words(narration))[i], " ")
  {
    var cs := Chunks(Words(narration));
    if cs == [] then Err("Failed to add subtitles: float division by zero")
    else Ok(Schedule(cs, videoDuration))
  }

  // ---- generate_tts_audio ---------------------------------------------------------

  const TtsFallback: string := "Educational animation content."

  /** The text sent to speech synthesis by `generate_tts_audio`: the stripped
      text, or a fixed sentence when fewer than three characters remain. */
  function TtsInput(text: string): (t: string)
    ensures |t| >= 3 && IsStripped(t)
    ensures |Strip(text)| >= 3 ==> t == Strip(text)
  {
    if text == [] || |Strip(text)| < 3 then
      assert TtsFallback[0] == 'E' && TtsFallback[|TtsFallback| - 1] == '.';
      TtsFallback
    else Strip(text)
  }

  /** `temp_output/{id}_audio.mp3`. */
  function TtsPath(id: string): string {
    "temp_output/" + id + "_audio.mp3"
  }

  /** `temp_output/{id}_synced_audio.mp3`. */
  function SyncedAudioPath(id: string): string {
    "temp_output/" + id + "_synced_audio.mp3"
  }
}
