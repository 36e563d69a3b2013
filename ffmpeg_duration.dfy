/** Reading a media duration out of ffmpeg's diagnostic output
    (services/audio_processor.py `get_audio_duration`,
    services/video_processor.py `get_video_duration`). The ffmpeg run itself
    is an input: `None` stands for any exception raised while running it,
    `Some(text)` for its decoded standard error. */
module FfmpegDuration {
  import opened Results
  import Text

  const Label: string := "Duration: "

  predicate IsDigit(c: char) {
    '0' <= c <= '9'
  }

  function DigitValue(c: char): (v: nat)
    requires IsDigit(c)
    ensures v < 10
  {
    c as int - '0' as int
  }

  /** `\d{n}` at index `i`. */
  predicate DigitsAt(s: string, i: nat, n: nat) {
    i + n <= |s| && forall k :: i <= k < i + n ==> IsDigit(s[k])
  }

  /** `int(...)` of the `n` digits at index `i`. */
  function Number(s: string, i: nat, n: nat): (v: nat)
    requires DigitsAt(s, i, n)
  {
    if n == 0 then 0 else 10 * Number(s, i, n - 1) + DigitValue(s[i + n - 1])
  }

  /** The pattern `Duration: (\d{2}):(\d{2}):(\d{2})\.(\d{width})` matches at `i`. */
  predicate MatchAt(s: string, i: nat, width: nat) {
    i + 19 + width <= |s| && s[i..i + 10] == Label
    && DigitsAt(s, i + 10, 2) && s[i + 12] == ':'
    && DigitsAt(s, i + 13, 2) && s[i + 15] == ':'
    && DigitsAt(s, i + 16, 2) && s[i + 18] == '.'
    && DigitsAt(s, i + 19, width)
  }

  /** The seconds a match denotes: hours, minutes, seconds and the fraction
      read as hundredths (two digits) or thousandths (three digits). */
  function ValueAt(s: string, i: nat, width: nat): (d: real)
    requires MatchAt(s, i, width) && (width == 2 || width == 3)
    ensures d >= 0.0
  {
    (3600 * Number(s, i + 10, 2) + 60 * Number(s, i + 13, 2) + Number(s, i + 16, 2)) as real
    + Number(s, i + 19, width) as real / (if width == 2 then 100.0 else 1000.0)
  }

  /** `re.search`: the leftmost match at or after `from`. */
  function Search(s: string, from: nat, width: nat): (r: Option<nat>)
    ensures r.Some? ==> from <= r.value && MatchAt(s, r.value, width)
    ensures r.Some? ==> forall j :: from <= j < r.value ==> !MatchAt(s, j, width)
    ensures r.None? ==> forall j :: from <= j ==> !MatchAt(s, j, width)
    decreases |s| - from
  {
    if from + 19 + width > |s| then None
    else if MatchAt(s, from, width) then Some(from)
    else Search(s, from + 1, width)
  }

  /** The duration parse shared by both readers: the centisecond pattern
      first, then the millisecond pattern, then `fallback`; an exception also
      gives `fallback`. */
  function ParseDuration(stderr: Option<string>, fallback: real): (d: real)
    ensures stderr.None? ==> d == fallback
    ensures stderr.Some? && Search(stderr.value, 0, 2).Some? ==>
              d == ValueAt(stderr.value, Search(stderr.value, 0, 2).value, 2)
    ensures fallback >= 0.0 ==> d >= 0.0
  {
    match stderr
    case None => fallback
    case Some(s) =>
      match Search(s, 0, 2)
      case Some(i) => ValueAt(s, i, 2)
      case None =>
        match Search(s, 0, 3)
        case Some(i) => ValueAt(s, i, 3)
        case None => fallback
  }

  /** `get_audio_duration`: the parse with a 10-second default. */
  function AudioDuration(stderr: Option<string>): (d: real)
    ensures d >= 0.0
    ensures stderr.None? ==> d == 10.0
  {
    ParseDuration(stderr, 10.0)
  }

  /** `get_video_duration`: the same parse with a 50-second default. */
  function VideoDuration(stderr: Option<string>): (d: real)
    ensures d >= 0.0
    ensures stderr.None? ==> d == 50.0
  {
    ParseDuration(stderr, 50.0)
  }

  /** Wherever the millisecond pattern matches, the centisecond pattern
      matches too (its fourth group just stops after two digits). */
  lemma ThreeDigitMatchIsTwoDigitMatch(s: string, i: nat)
    requires MatchAt(s, i, 3)
    ensures MatchAt(s, i, 2)
  {
  }

  /** So the millisecond fallback never decides the result: whenever the
      parse does not fall back, it read the leftmost centisecond match. */
  lemma MillisecondBranchUnreachable(s: string, fallback: real)
    ensures Search(s, 0, 3).Some? ==> Search(s, 0, 2).Some?
    ensures Search(s, 0, 2).None? ==> ParseDuration(Some(s), fallback) == fallback
  {
    if Search(s, 0, 3).Some? {
      ThreeDigitMatchIsTwoDigitMatch(s, Search(s, 0, 3).value);
    }
  }

  /** Two decimal digits of a number below 100. */
  function TwoDigits(n: nat): (t: string)
    requires n < 100
    ensures |t| == 2 && IsDigit(t[0]) && IsDigit(t[1])
  {
    [Text.DigitChar(n / 10), Text.DigitChar(n % 10)]
  }

  /** The line ffmpeg prints for a duration of h:m:s and cc hundredths. */
  function Stamp(h: nat, m: nat, sec: nat, cc: nat): (t: string)
    requires h < 100 && m < 100 && sec < 100 && cc < 100
    ensures |t| == 21
  {
    Label + TwoDigits(h) + ":" + TwoDigits(m) + ":" + TwoDigits(sec) + "." + TwoDigits(cc)
  }

  lemma TwoDigitsNumber(s: string, i: nat, n: nat)
    requires n < 100 && i + 2 <= |s| && s[i..i + 2] == TwoDigits(n)
    ensures DigitsAt(s, i, 2) && Number(s, i, 2) == n
  {
    assert s[i] == TwoDigits(n)[0] && s[i + 1] == TwoDigits(n)[1];
    assert Number(s, i, 1) == n / 10;
  }

  /** The duration line, wherever it is placed, is a match denoting
      h·3600 + m·60 + s + cc/100. */
  lemma StampMatches(prefix: string, h: nat, m: nat, sec: nat, cc: nat, rest: string)
    requires h < 100 && m < 100 && sec < 100 && cc < 100
    ensures MatchAt(prefix + Stamp(h, m, sec, cc) + rest, |prefix|, 2)
    ensures ValueAt(prefix + Stamp(h, m, sec, cc) + rest, |prefix|, 2) == (3600 * h + 60 * m + sec) as real + cc as real / 100.0
  {
    var st := Stamp(h, m, sec, cc);
    var s := prefix + st + rest;
    var p := |prefix|;
    assert s[p..p + 21] == st;
    assert s[p..p + 10] == Label;
    assert s[p + 10..p + 12] == TwoDigits(h);
    assert s[p + 13..p + 15] == TwoDigits(m);
    assert s[p + 16..p + 18] == TwoDigits(sec);
    assert s[p + 19..p + 21] == TwoDigits(cc);
    assert s[p + 12] == ':' && s[p + 15] == ':' && s[p + 18] == '.';
    TwoDigitsNumber(s, p + 10, h);
    TwoDigitsNumber(s, p + 13, m);
    TwoDigitsNumber(s, p + 16, sec);
    TwoDigitsNumber(s, p + 19, cc);
  }

  /** The search from `from` stops at the first match it reaches. */
  lemma {:induction false} SearchFinds(s: string, from: nat, width: nat, k: nat)
    requires from <= k && MatchAt(s, k, width)
    requires forall j :: from <= j < k ==> !MatchAt(s, j, width)
    ensures Search(s, from, width) == Some(k)
    decreases k - from
  {
    if from < k {
      assert !MatchAt(s, from, width);
      SearchFinds(s, from + 1, width, k);
    }
  }

  /** Round trip: whatever precedes the duration line (as long as it holds no
      'D', so no earlier match can start there) and whatever follows it, the
      parse gives back h·3600 + m·60 + s + cc/100. */
  lemma ParseStamp(prefix: string, h: nat, m: nat, sec: nat, cc: nat, rest: string, fallback: real)
    requires h < 100 && m < 100 && sec < 100 && cc < 100
    requires forall k :: 0 <= k < |prefix| ==> prefix[k] != 'D'
    ensures ParseDuration(Some(prefix + Stamp(h, m, sec, cc) + rest), fallback)
            == (3600 * h + 60 * m + sec) as real + cc as real / 100.0
  {
    var s := prefix + Stamp(h, m, sec, cc) + rest;
    var p := |prefix|;
    StampMatches(prefix, h, m, sec, cc, rest);
    forall j | 0 <= j < p ensures !MatchAt(s, j, 2) {
      assert s[j] == prefix[j] != Label[0];
    }
    SearchFinds(s, 0, 2, p);
  }
}
