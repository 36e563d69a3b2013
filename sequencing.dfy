/** `create_simple_timed_audio` (services/audio_processor.py): order the
    voiced segments by start time and lay them out as a sequence of audio
    parts with silence filling the gaps. The ffmpeg calls that render the
    sequence are not modelled. */
module Sequencing {
  import opened Results
  import opened Narration

  // ---- sorted(segments, key=lambda x: x["start_time"]) -----------------------

  predicate SortedByStart(l: seq<AudioSegment>) {
    forall i, j :: 0 <= i < j < |l| ==> l[i].start <= l[j].start
  }

  /** The segments starting at time `t`, in list order. */
  function AtTime(l: seq<AudioSegment>, t: real): seq<AudioSegment> {
    if l == [] then [] else (if l[0].start == t then [l[0]] else []) + AtTime(l[1..], t)
  }

  /** Put `x` in front of the first element that does not start before it. */
  function Insert(x: AudioSegment, l: seq<AudioSegment>): seq<AudioSegment> {
    if l == [] || x.start <= l[0].start then [x] + l else [l[0]] + Insert(x, l[1..])
  }

  /** Python's `sorted` by start time, which is stable. */
  function SortByStart(l: seq<AudioSegment>): seq<AudioSegment> {
    if l == [] then [] else Insert(l[0], SortByStart(l[1..]))
  }

  lemma {:induction false} InsertPermutes(x: AudioSegment, l: seq<AudioSegment>)
    ensures multiset(Insert(x, l)) == multiset(l) + multiset{x}
  {
    if l != [] && x.start > l[0].start {
      InsertPermutes(x, l[1..]);
      assert l == [l[0]] + l[1..];
    }
  }

  lemma {:induction false} InsertSorted(x: AudioSegment, l: seq<AudioSegment>)
    requires SortedByStart(l)
    ensures SortedByStart(Insert(x, l))
  {
    if l != [] && x.start > l[0].start {
      var tail := Insert(x, l[1..]);
      InsertSorted(x, l[1..]);
      InsertPermutes(x, l[1..]);
      var r := [l[0]] + tail;
      forall j | 1 <= j < |r| ensures l[0].start <= r[j].start {
        assert r[j] == tail[j - 1];
        assert r[j] in multiset(tail);
        if r[j] != x {
          assert r[j] in multiset(l[1..]);
          var k :| 0 <= k < |l[1..]| && l[1..][k] == r[j];
          assert l[0].start <= l[k + 1].start;
        }
      }
      assert r == Insert(x, l);
    }
  }

  lemma AtTimeCons(y: AudioSegment, rest: seq<AudioSegment>, t: real)
    ensures AtTime([y] + rest, t) == (if y.start == t then [y] else []) + AtTime(rest, t)
  {
    assert ([y] + rest)[1..] == rest;
  }

  /** Insertion puts `x` after nothing that starts at its own time, so
      segments with equal start times keep their relative order. */
  lemma {:induction false} InsertKeepsOrderAtTime(x: AudioSegment, l: seq<AudioSegment>, t: real)
    ensures AtTime(Insert(x, l), t) == (if x.start == t then [x] else []) + AtTime(l, t)
  {
    if l == [] || x.start <= l[0].start {
      AtTimeCons(x, l, t);
    } else {
      var tail := Insert(x, l[1..]);
      InsertKeepsOrderAtTime(x, l[1..], t);
      AtTimeCons(l[0], tail, t);
      AtTimeCons(l[0], l[1..], t);
      assert [l[0]] + l[1..] == l;
      if x.start == t {
        assert l[0].start != t;
      }
    }
  }

  /** Sorting yields an ordered list ... */
  lemma {:induction false} SortByStartSorted(l: seq<AudioSegment>)
    ensures SortedByStart(SortByStart(l))
  {
    if l != [] {
      SortByStartSorted(l[1..]);
      InsertSorted(l[0], SortByStart(l[1..]));
    }
  }

  /** ... holding the same segments ... */
  lemma {:induction false} SortByStartPermutes(l: seq<AudioSegment>)
    ensures multiset(SortByStart(l)) == multiset(l)
  {
    if l != [] {
      SortByStartPermutes(l[1..]);
      InsertPermutes(l[0], SortByStart(l[1..]));
      assert l == [l[0]] + l[1..];
    }
  }

  /** ... in which segments with equal start times keep their original
      relative order: Python's `sorted` is stable. */
  lemma {:induction false} SortByStartStable(l: seq<AudioSegment>, t: real)
    ensures AtTime(SortByStart(l), t) == AtTime(l, t)
  {
    if l != [] {
      SortByStartStable(l[1..], t);
      InsertKeepsOrderAtTime(l[0], SortByStart(l[1..]), t);
    }
  }

  // ---- the sequence of parts --------------------------------------------------

  /** One entry of the concat list: a stretch of silence or one voiced segment. */
  datatype Part =
    | Silence(duration: real, start: real, end: real)
    | Audio(path: string, start: real, end: real)

  /** The parts one segment contributes when the timeline stands at `cur`:
      a silence up to its start when it starts later, then the segment. */
  function Step(seg: AudioSegment, cur: real): seq<Part> {
    (if seg.start > cur then [Silence(seg.start - cur, cur, seg.start)] else [])
    + [Audio(seg.path, seg.start, seg.end)]
  }

  /** Where the timeline stands after laying out `segs` from `cur`: at the
      end of the last segment. */
  function Cursor(segs: seq<AudioSegment>, cur: real): real {
    if segs == [] then cur else segs[|segs| - 1].end
  }

  /** The parts for `segs` laid out in order from time `cur`. */
  function Parts(segs: seq<AudioSegment>, cur: real): seq<Part> {
    if segs == [] then []
    else
      var init := segs[..|segs| - 1];
      Parts(init, cur) + Step(segs[|segs| - 1], Cursor(init, cur))
  }

  /** The audio parts of a sequence, with their timing. */
  function AudioParts(parts: seq<Part>): seq<Part> {
    if parts == [] then [] else (if parts[0].Audio? then [parts[0]] else []) + AudioParts(parts[1..])
  }

  /** One audio part per segment, with its file and times. */
  function AsAudio(segs: seq<AudioSegment>): (r: seq<Part>)
    ensures |r| == |segs|
  {
    seq(|segs|, k requires 0 <= k < |segs| => Audio(segs[k].path, segs[k].start, segs[k].end))
  }

  lemma {:induction false} AudioPartsAppend(a: seq<Part>, b: seq<Part>)
    ensures AudioParts(a + b) == AudioParts(a) + AudioParts(b)
  {
    if a != [] {
      AudioPartsAppend(a[1..], b);
      assert (a + b)[1..] == a[1..] + b;
    } else {
      assert a + b == b;
    }
  }

  /** A segment contributes exactly its own audio part. */
  lemma StepAudio(seg: AudioSegment, cur: real)
    ensures AudioParts(Step(seg, cur)) == [Audio(seg.path, seg.start, seg.end)]
  {
    var st := Step(seg, cur);
    if seg.start > cur {
      assert st[1..] == [Audio(seg.path, seg.start, seg.end)];
      assert st[1..][1..] == [];
      assert AudioParts(st[1..]) == [st[1..][0]] + AudioParts(st[1..][1..]);
      assert AudioParts(st) == AudioParts(st[1..]);
    } else {
      assert st[1..] == [];
    }
  }

  /** There is exactly one audio part per segment, in the given order, with
      the segment's own file and times. */
  lemma {:induction false} OneAudioPartPerSegment(segs: seq<AudioSegment>, cur: real)
    ensures AudioParts(Parts(segs, cur)) == AsAudio(segs)
  {
    if segs != [] {
      var init := segs[..|segs| - 1];
      var last := segs[|segs| - 1];
      OneAudioPartPerSegment(init, cur);
      AudioPartsAppend(Parts(init, cur), Step(last, Cursor(init, cur)));
      StepAudio(last, Cursor(init, cur));
      assert AsAudio(init) + [Audio(last.path, last.start, last.end)] == AsAudio(segs);
    }
  }

  /** The time at which part `p` is appended: the starting time for the
      first part, the end of the part before it otherwise. */
  function Before(parts: seq<Part>, cur: real, p: nat): real
    requires p < |parts|
  {
    if p == 0 then cur else parts[p - 1].end
  }

  /** Part `p` leaves no gap and is no needless silence: it starts no later
      than the end of the part before it; a silence starts
      exactly there, has positive length equal to its duration, and is
      followed by an audio part starting exactly where it ends. */
  predicate WellLaidAt(parts: seq<Part>, cur: real, p: nat)
    requires p < |parts|
  {
    parts[p].start <= Before(parts, cur, p)
    && (parts[p].Silence? ==>
          parts[p].start == Before(parts, cur, p)
          && parts[p].end > parts[p].start
          && parts[p].duration == parts[p].end - parts[p].start
          && p + 1 < |parts| && parts[p + 1].Audio? && parts[p + 1].start == parts[p].end)
  }

  /** The laid-out parts end where the timeline stands. */
  lemma PartsEndAtCursor(segs: seq<AudioSegment>, cur: real)
    ensures Parts(segs, cur) == [] <==> segs == []
    ensures segs != [] ==> Parts(segs, cur)[|Parts(segs, cur)| - 1].end == Cursor(segs, cur)
  {
    if segs != [] {
      var init := segs[..|segs| - 1];
      var st := Step(segs[|segs| - 1], Cursor(init, cur));
      assert Parts(segs, cur)[|Parts(segs, cur)| - 1] == st[|st| - 1];
    }
  }

  /** Every part of a laid-out sequence is well laid. */
  lemma {:induction false} NoGapsNoNeedlessSilence(segs: seq<AudioSegment>, cur: real)
    ensures forall p :: 0 <= p < |Parts(segs, cur)| ==> WellLaidAt(Parts(segs, cur), cur, p)
  {
    if segs != [] {
      var init := segs[..|segs| - 1];
      var last := segs[|segs| - 1];
      var pi := Parts(init, cur);
      var c := Cursor(init, cur);
      var st := Step(last, c);
      var parts := Parts(segs, cur);
      NoGapsNoNeedlessSilence(init, cur);
      PartsEndAtCursor(init, cur);
      assert parts == pi + st;
      assert |pi| < |parts| && Before(parts, cur, |pi|) == c;
      forall p | 0 <= p < |pi| ensures WellLaidAt(parts, cur, p) {
        assert WellLaidAt(pi, cur, p);
        assert parts[p] == pi[p];
        assert Before(parts, cur, p) == Before(pi, cur, p);
        if pi[p].Silence? {
          assert parts[p + 1] == pi[p + 1];
        }
      }
      if last.start > c {
        assert parts[|pi|] == Silence(last.start - c, c, last.start);
        assert parts[|pi| + 1] == Audio(last.path, last.start, last.end);
        assert WellLaidAt(parts, cur, |pi|);
        assert WellLaidAt(parts, cur, |pi| + 1);
      } else {
        assert parts[|pi|] == Audio(last.path, last.start, last.end);
        assert WellLaidAt(parts, cur, |pi|);
      }
    }
  }

  // ---- the loop ------------------------------------------------------------------

  /** The sequencing loop of `create_simple_timed_audio` over the sorted
      segments: walk them from time 0, adding a silence for each gap and
      one audio part per segment. */
  method LayOut(sorted: seq<AudioSegment>) returns (parts: seq<Part>)
    ensures parts == Parts(sorted, 0.0)
  {
    parts := [];
    var current := 0.0;
    var i := 0;
    while i < |sorted|
      invariant 0 <= i <= |sorted|
      invariant parts == Parts(sorted[..i], 0.0) && current == Cursor(sorted[..i], 0.0)
    {
      var segment := sorted[i];
      assert sorted[..i + 1][..i] == sorted[..i];
      ghost var before := parts;
      if segment.start > current {
        parts := parts + [Silence(segment.start - current, current, segment.start)];
      }
      parts := parts + [Audio(segment.path, segment.start, segment.end)];
      assert parts == before + Step(segment, current);
      current := segment.end;
      i := i + 1;
    }
    assert sorted[..i] == sorted;
  }

  /** `create_simple_timed_audio` up to its ffmpeg calls: raise on no
      segments, otherwise sort them by start time and lay them out. */
  method BuildSequence(segs: seq<AudioSegment>) returns (r: Result<seq<Part>>)
    ensures r.Err? <==> segs == []
    ensures r.Err? ==> r.message == "No segments to process"
    ensures r.Ok? ==> r.value == Parts(SortByStart(segs), 0.0)
  {
    if segs == [] {
      return Err("No segments to process");
    }
    var sorted := SortByStart(segs);
    var parts := LayOut(sorted);
    r := Ok(parts);
  }

  /** Whatever order the segments arrive in, the audio parts of the built
      sequence are the segments sorted by start time. */
  lemma SequenceFollowsSortedSegments(segs: seq<AudioSegment>)
    requires segs != []
    ensures AudioParts(Parts(SortByStart(segs), 0.0)) == AsAudio(SortByStart(segs))
    ensures SortedByStart(SortByStart(segs)) && multiset(SortByStart(segs)) == multiset(segs)
  {
    OneAudioPartPerSegment(SortByStart(segs), 0.0);
    SortByStartSorted(segs);
    SortByStartPermutes(segs);
  }

  // ---- the fallback chain of combine_audio_segments -------------------------

  /** How the narration track is finally put together. */
  datatype Assembly =
    | Overlay(length: real)                    // a silent base track with every segment overlaid
    // The timed sequence of `create_simple_timed_audio`, as laid out: a
    // silence whose own ffmpeg run fails is left out of the concat list,
    // so the audio after it plays early; that is not modelled here.
    | Sequence(parts: seq<Part>)
    | Concatenation(segs: seq<AudioSegment>)   // `concatenate_audio_segments_simple` over the list as given

  /** `create_simple_timed_audio`: its raise on no segments and a failing
      ffmpeg run (`sequenceRuns` false) are both caught and end in the plain
      concatenation. */
  function SimpleAssembly(segs: seq<AudioSegment>, sequenceRuns: bool): Assembly {
    if segs == [] || !sequenceRuns then Concatenation(segs) else Sequence(Parts(SortByStart(segs), 0.0))
  }

  /** `combine_audio_segments`: a silent base track, then every segment
      overlaid on it. `baseRuns` and `overlayRuns` say whether those two
      ffmpeg runs succeed. A failed base track falls back to the plain
      concatenation; a failed overlay, and the raise on no segments, which
      the function's own handler catches, fall back to the timed sequence. */
  function Assemble(segs: seq<AudioSegment>, baseRuns: bool, overlayRuns: bool, sequenceRuns: bool): Assembly {
    match BaseTrackLength(segs)
    case Err(_) => SimpleAssembly(segs, sequenceRuns)
    case Ok(length) =>
      if !baseRuns then Concatenation(segs)
      else if overlayRuns then Overlay(length)
      else SimpleAssembly(segs, sequenceRuns)
  }

  /** No raise escapes the chain: which assembly is used, and what each one
      holds. The overlay outlasts every segment by at least two seconds; the
      sequence plays the segments sorted by start time; the concatenation
      takes the list unchanged, the empty one included. */
  lemma AssemblyRoutes(segs: seq<AudioSegment>, baseRuns: bool, overlayRuns: bool, sequenceRuns: bool)
    ensures var a := Assemble(segs, baseRuns, overlayRuns, sequenceRuns);
      (a.Overlay? <==> segs != [] && baseRuns && overlayRuns) &&
      (a.Sequence? <==> segs != [] && baseRuns && !overlayRuns && sequenceRuns) &&
      (a.Overlay? ==> forall k :: 0 <= k < |segs| ==> segs[k].end + 2.0 <= a.length) &&
      (a.Sequence? ==> AudioParts(a.parts) == AsAudio(SortByStart(segs))) &&
      (a.Concatenation? ==> a.segs == segs)
  {
    if segs != [] {
      SequenceFollowsSortedSegments(segs);
    }
  }
}
