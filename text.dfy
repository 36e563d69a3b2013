/** String helpers shared by the model: Python's `str.strip`, `str.split()`,
    `str.lower`, `in` on strings and `" ".join`, with Python's whitespace
    and ASCII case folding. */
module Text {

  /** The characters Python's `str.isspace()` accepts, which `str.split()`,
      `str.strip()` and the regular expression `\s` treat as whitespace:
      the ASCII controls tab to carriage return and the four separators
      0x1C-0x1F, the space, NEL, the no-break space and Unicode's space
      separators. */
  predicate IsSpace(c: char) {
    ('\t' <= c <= '\r') || ('\U{1C}' <= c <= ' ') || c == '\U{85}' || c == '\U{A0}' ||
    c == '\U{1680}' || ('\U{2000}' <= c <= '\U{200A}') || c == '\U{2028}' || c == '\U{2029}' ||
    c == '\U{202F}' || c == '\U{205F}' || c == '\U{3000}'
  }

  predicate NoSpace(s: string) {
    forall i :: 0 <= i < |s| ==> !IsSpace(s[i])
  }

  predicate AllSpace(s: string) {
    forall i :: 0 <= i < |s| ==> IsSpace(s[i])
  }

  /** No leading and no trailing whitespace: what `str.strip()` returns. */
  predicate IsStripped(s: string) {
    s == [] || (!IsSpace(s[0]) && !IsSpace(s[|s| - 1]))
  }

  /** `str.lstrip()`. */
  function LStrip(s: string): (r: string)
    ensures |r| <= |s| && r == s[|s| - |r|..]
    ensures r == [] || !IsSpace(r[0])
    ensures AllSpace(s[..|s| - |r|])
  {
    if s != [] && IsSpace(s[0]) then
      var r := LStrip(s[1..]);
      assert s[..|s| - |r|] == [s[0]] + s[1..][..|s| - 1 - |r|];
      r
    else s
  }

  /** `str.rstrip()`. */
  function RStrip(s: string): (r: string)
    ensures |r| <= |s| && r == s[..|r|]
    ensures r == [] || !IsSpace(r[|r| - 1])
    ensures AllSpace(s[|r|..])
  {
    if s != [] && IsSpace(s[|s| - 1]) then
      var t := s[..|s| - 1];
      var r := RStrip(t);
      assert s[|r|..] == t[|r|..] + [s[|s| - 1]];
      r
    else s
  }

  /** `str.strip()`. */
  function Strip(s: string): (r: string)
    ensures IsStripped(r)
  {
    RStrip(LStrip(s))
  }

  /** Stripping keeps exactly the part between the first and the last
      non-space character. */
  lemma StripIsInfix(s: string)
    ensures exists a, b :: 0 <= a <= b <= |s| && Strip(s) == s[a..b]
                           && AllSpace(s[..a]) && AllSpace(s[b..])
  {
    var l := LStrip(s);
    var a := |s| - |l|;
    var r := RStrip(l);
    assert Strip(s) == s[a..a + |r|];
    assert s[a + |r|..] == l[|r|..];
  }

  lemma {:induction false} StripOfStripped(s: string)
    requires IsStripped(s)
    ensures Strip(s) == s
  {
  }

  lemma {:induction false} LStripEmptyIffAllSpace(s: string)
    ensures LStrip(s) == [] <==> AllSpace(s)
  {
    if s != [] && IsSpace(s[0]) {
      LStripEmptyIffAllSpace(s[1..]);
      if AllSpace(s[1..]) {
        forall i | 0 <= i < |s| ensures IsSpace(s[i]) {
          if i > 0 { assert s[i] == s[1..][i - 1]; }
        }
      }
    }
  }

  /** `str.strip()` returns the empty string exactly on all-whitespace input. */
  lemma StripEmptyIffAllSpace(s: string)
    ensures Strip(s) == [] <==> AllSpace(s)
  {
    LStripEmptyIffAllSpace(s);
  }

  /** The leading run of non-space characters. */
  function TakeWord(s: string): (w: string)
    ensures w <= s && NoSpace(w)
    ensures |w| == |s| || IsSpace(s[|w|])
    ensures s != [] && !IsSpace(s[0]) ==> |w| >= 1
  {
    if s == [] || IsSpace(s[0]) then [] else [s[0]] + TakeWord(s[1..])
  }

  /** A non-empty run of non-space characters. */
  predicate IsWord(w: string) {
    w != [] && NoSpace(w)
  }

  predicate AllWords(ws: seq<string>) {
    forall k :: 0 <= k < |ws| ==> IsWord(ws[k])
  }

  lemma AllWordsCons(w: string, rest: seq<string>)
    requires IsWord(w) && AllWords(rest)
    ensures AllWords([w] + rest)
  {
    forall k | 0 <= k < |rest| + 1 ensures IsWord(([w] + rest)[k]) {
      if k > 0 {
        assert ([w] + rest)[k] == rest[k - 1];
      }
    }
  }

  /** `str.split()` with no separator: the maximal runs of non-space characters. */
  function Words(s: string): (ws: seq<string>)
    ensures AllWords(ws)
    decreases |s|
  {
    var t := LStrip(s);
    if t == [] then []
    else
      var w := TakeWord(t);
      var rest := Words(t[|w|..]);
      AllWordsCons(w, rest);
      [w] + rest
  }

  /** `sep.join(parts)`. */
  function Join(parts: seq<string>, sep: string): (r: string)
    ensures parts == [] ==> r == []
    ensures |parts| == 1 ==> r == parts[0]
  {
    if parts == [] then []
    else if |parts| == 1 then parts[0]
    else parts[0] + sep + Join(parts[1..], sep)
  }

  /** A single space never stands next to another space or at either end:
      there are no runs of whitespace and no leading or trailing whitespace. */
  predicate IsNormalized(s: string) {
    IsStripped(s) &&
    (forall i :: 0 <= i < |s| && IsSpace(s[i]) ==> s[i] == ' ') &&
    (forall i :: 0 <= i < |s| - 1 && IsSpace(s[i]) ==> !IsSpace(s[i + 1]))
  }

  lemma {:induction false} JoinWordsNormalized(ws: seq<string>)
    requires AllWords(ws)
    ensures IsNormalized(Join(ws, " "))
    ensures Join(ws, " ") != [] ==> !IsSpace(Join(ws, " ")[0])
  {
    if |ws| > 1 {
      var rest := Join(ws[1..], " ");
      assert AllWords(ws[1..]) by {
        forall k | 0 <= k < |ws[1..]| ensures IsWord(ws[1..][k]) {
          assert ws[1..][k] == ws[k + 1];
        }
      }
      JoinWordsNormalized(ws[1..]);
      var r := ws[0] + " " + rest;
      assert Join(ws, " ") == r;
      assert rest == Join(ws[1..], " ") && rest != [] by {
        assert |ws[1..]| >= 1;
        JoinNonEmpty(ws[1..]);
      }
      var n := |ws[0]|;
      assert forall i :: 0 <= i < n ==> r[i] == ws[0][i];
      assert r[n] == ' ';
      assert forall i :: n < i < |r| ==> r[i] == rest[i - n - 1];
      assert r[0] == ws[0][0];
      assert r[|r| - 1] == rest[|rest| - 1];
    } else if |ws| == 1 {
      assert Join(ws, " ") == ws[0];
    }
  }

  lemma {:induction false} JoinNonEmpty(ws: seq<string>)
    requires |ws| >= 1 && forall k :: 0 <= k < |ws| ==> ws[k] != []
    ensures Join(ws, " ") != []
  {
    if |ws| > 1 {
      assert |Join(ws, " ")| >= |ws[0]|;
    }
  }

  /** `" ".join(s.split())` collapses every whitespace run to one space and
      drops leading and trailing whitespace. */
  function NormalizeSpace(s: string): (r: string)
    ensures IsNormalized(r)
  {
    JoinWordsNormalized(Words(s));
    Join(Words(s), " ")
  }

  /** ASCII `str.lower()` on one character. */
  function LowerChar(c: char): (d: char)
    ensures 'A' <= c <= 'Z' ==> d as int == c as int + 32
    ensures !('A' <= c <= 'Z') ==> d == c
  {
    if 'A' <= c <= 'Z' then (c as int + 32) as char else c
  }

  function Lower(s: string): (r: string)
    ensures |r| == |s| && forall i :: 0 <= i < |s| ==> r[i] == LowerChar(s[i])
  {
    seq(|s|, i requires 0 <= i < |s| => LowerChar(s[i]))
  }

  /** `pat` occurs in `s` starting at index `i`. */
  predicate OccursAt(s: string, pat: string, i: int) {
    0 <= i && i + |pat| <= |s| && s[i..i + |pat|] == pat
  }

  /** Python's `pat in s` on strings. */
  predicate Contains(s: string, pat: string) {
    exists i :: 0 <= i <= |s| - |pat| && OccursAt(s, pat, i)
  }

  /** Substring containment is transitive: `s` contains whatever a substring
      of `s` contains. */
  lemma ContainsTrans(s: string, mid: string, pat: string)
    requires Contains(s, mid) && Contains(mid, pat)
    ensures Contains(s, pat)
  {
    var i :| 0 <= i <= |s| - |mid| && OccursAt(s, mid, i);
    var j :| 0 <= j <= |mid| - |pat| && OccursAt(mid, pat, j);
    forall k | 0 <= k < |pat| ensures s[i + j + k] == pat[k] {
      assert pat[k] == mid[j + k] == s[i + j + k];
    }
    assert s[i + j..i + j + |pat|] == pat;
    assert OccursAt(s, pat, i + j);
  }

  lemma ContainsPrefix(s: string, pat: string)
    requires pat <= s
    ensures Contains(s, pat)
  {
    assert OccursAt(s, pat, 0);
  }

  lemma ContainsInConcat(a: string, b: string, c: string, pat: string)
    requires Contains(b, pat)
    ensures Contains(a + b + c, pat)
  {
    var j :| 0 <= j <= |b| - |pat| && OccursAt(b, pat, j);
    assert (a + b + c)[|a| + j..|a| + j + |pat|] == b[j..j + |pat|];
    assert OccursAt(a + b + c, pat, |a| + j);
  }

  lemma OccursInMiddle(a: string, b: string, c: string)
    ensures OccursAt(a + b + c, b, |a|)
  {
    assert (a + b + c)[|a|..|a| + |b|] == b;
  }

  /** What `s` does not contain, no suffix of it contains. */
  lemma NotInSuffix(s: string, k: int, pat: string)
    requires 0 <= k <= |s| && !Contains(s, pat)
    ensures !Contains(s[k..], pat)
  {
    if Contains(s[k..], pat) {
      assert s == s[..k] + s[k..];
      ContainsInSuffix(s[..k], s[k..], pat);
    }
  }

  lemma ContainsInPrefix(a: string, b: string, pat: string)
    requires Contains(a, pat)
    ensures Contains(a + b, pat)
  {
    var j :| 0 <= j <= |a| - |pat| && OccursAt(a, pat, j);
    assert (a + b)[j..j + |pat|] == a[j..j + |pat|];
    assert OccursAt(a + b, pat, j);
  }

  lemma ContainsInSuffix(a: string, b: string, pat: string)
    requires Contains(b, pat)
    ensures Contains(a + b, pat)
  {
    var j :| 0 <= j <= |b| - |pat| && OccursAt(b, pat, j);
    assert (a + b)[|a| + j..|a| + j + |pat|] == b[j..j + |pat|];
    assert OccursAt(a + b, pat, |a| + j);
  }

  /** The decimal digit character for 0..9. */
  function DigitChar(d: nat): (c: char)
    requires d < 10
    ensures '0' <= c <= '9'
  {
    ('0' as int + d) as char
  }

  /** Python's `str(n)` for a natural number. */
  function NatToString(n: nat): (s: string)
    ensures |s| >= 1
    ensures forall i :: 0 <= i < |s| ==> '0' <= s[i] <= '9'
  {
    if n < 10 then [DigitChar(n)] else NatToString(n / 10) + [DigitChar(n % 10)]
  }
}
