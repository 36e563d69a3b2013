/** The numeric clamps both services/script_generator.py
    (`auto_fix_large_coordinates`) and services/manim_optimizer.py
    (`_fix_coordinate_bounds`) apply: each rule is one `re.sub` whose
    replacement puts a fixed literal in place of a matched numeral when its
    value exceeds the rule's limit and leaves the match alone otherwise. */
module Clamps {
  import opened ScriptTokens

  datatype Rule =
    | CoordRule(d: Direction, limit: real, to: Tok)   // `N*DIR`
    | SizeRule(p: Param, limit: real, to: Tok)        // `side_length=N`, `radius=N`

  /** The replacement is a numeral no larger than the limit. */
  predicate ValidRule(r: Rule) {
    IsNumeral(r.to) && Value(r.to) <= r.limit
  }

  predicate AllValid(rules: seq<Rule>) {
    forall k :: 0 <= k < |rules| ==> ValidRule(rules[k])
  }

  /** The rule's pattern matches the numeral at position `i`. */
  predicate Matches(r: Rule, toks: seq<Tok>, i: int) {
    match r
    case CoordRule(d, _, _) => CoordinateAt(toks, i) && toks[i + 2] == Dir(d)
    case SizeRule(p, _, _) => SizeAt(toks, i, p)
  }

  /** One `re.sub` of the rule over the script. */
  function ApplyRule(r: Rule, toks: seq<Tok>): (out: seq<Tok>)
    ensures |out| == |toks|
    ensures forall i :: 0 <= i < |toks| && out[i] != toks[i] ==> Matches(r, toks, i) && Value(toks[i]) > r.limit
  {
    seq(|toks|, i requires 0 <= i < |toks| =>
      if Matches(r, toks, i) && Value(toks[i]) > r.limit then r.to else toks[i])
  }

  /** The rules applied one after another, in order. */
  function ApplyRules(rules: seq<Rule>, toks: seq<Tok>): (out: seq<Tok>)
    ensures |out| == |toks|
  {
    if rules == [] then toks else ApplyRules(rules[1..], ApplyRule(rules[0], toks))
  }

  /** Two scripts differ at most in the digits of their numerals. */
  predicate SameShape(a: seq<Tok>, b: seq<Tok>) {
    |a| == |b| &&
    forall i :: 0 <= i < |a| ==>
      (IsNumeral(a[i]) <==> IsNumeral(b[i])) && (!IsNumeral(a[i]) ==> a[i] == b[i])
  }

  lemma SameShapeMatches(a: seq<Tok>, b: seq<Tok>, r: Rule, i: int)
    requires SameShape(a, b)
    ensures Matches(r, a, i) <==> Matches(r, b, i)
  {
    if 0 <= i && i + 2 < |a| {
      assert a[i + 1] == Times <==> b[i + 1] == Times;
      assert a[i + 2].Dir? ==> a[i + 2] == b[i + 2];
      assert b[i + 2].Dir? ==> a[i + 2] == b[i + 2];
    }
    if 1 <= i < |a| {
      assert a[i - 1] == Assign(SideLength) <==> b[i - 1] == Assign(SideLength);
      assert a[i - 1] == Assign(Radius) <==> b[i - 1] == Assign(Radius);
    }
  }

  /** No rule matching position `i` would fire there. */
  predicate Settled(rules: seq<Rule>, toks: seq<Tok>, i: int)
    requires 0 <= i < |toks|
  {
    forall k :: 0 <= k < |rules| && Matches(rules[k], toks, i) ==> Value(toks[i]) <= rules[k].limit
  }

  /** One rule changes only numerals, never raises a value, and leaves
      every numeral it matches at or below its limit. */
  lemma ApplyRuleEffect(r: Rule, toks: seq<Tok>)
    requires ValidRule(r)
    ensures SameShape(toks, ApplyRule(r, toks))
    ensures forall i :: 0 <= i < |toks| && IsNumeral(toks[i]) ==> Value(ApplyRule(r, toks)[i]) <= Value(toks[i])
    ensures forall i :: 0 <= i < |toks| && Matches(r, ApplyRule(r, toks), i) ==> Value(ApplyRule(r, toks)[i]) <= r.limit
  {
    var out := ApplyRule(r, toks);
    forall i | 0 <= i < |toks| && Matches(r, out, i) ensures Value(out[i]) <= r.limit {
      SameShapeMatches(toks, out, r, i);
    }
  }

  /** Applying a list of rules in order: only numerals change, no value
      rises, every numeral a rule matches ends at or below that rule's
      limit, and a numeral at or below the limit of every rule matching it
      is left untouched. */
  lemma {:induction false} ApplyRulesEffect(rules: seq<Rule>, toks: seq<Tok>)
    requires AllValid(rules)
    ensures SameShape(toks, ApplyRules(rules, toks))
    ensures forall i :: 0 <= i < |toks| && IsNumeral(toks[i]) ==> Value(ApplyRules(rules, toks)[i]) <= Value(toks[i])
    ensures forall k, i :: 0 <= k < |rules| && 0 <= i < |toks| && Matches(rules[k], ApplyRules(rules, toks), i) ==>
              Value(ApplyRules(rules, toks)[i]) <= rules[k].limit
    ensures forall i :: 0 <= i < |toks| && Settled(rules, toks, i) ==> ApplyRules(rules, toks)[i] == toks[i]
  {
    if rules != [] {
      var t1 := ApplyRule(rules[0], toks);
      var result := ApplyRules(rules, toks);
      ApplyRuleEffect(rules[0], toks);
      ApplyRulesEffect(rules[1..], t1);
      assert result == ApplyRules(rules[1..], t1);
      forall i | 0 <= i < |toks| && IsNumeral(toks[i]) ensures Value(result[i]) <= Value(toks[i]) {
        assert IsNumeral(t1[i]);
      }
      forall k, i | 0 <= k < |rules| && 0 <= i < |toks| && Matches(rules[k], result, i)
        ensures Value(result[i]) <= rules[k].limit
      {
        if k == 0 {
          SameShapeMatches(t1, result, rules[0], i);
          assert IsNumeral(t1[i]);
        } else {
          assert rules[k] == rules[1..][k - 1];
        }
      }
      forall i | 0 <= i < |toks| && Settled(rules, toks, i)
        ensures result[i] == toks[i]
      {
        assert Matches(rules[0], toks, i) ==> Value(toks[i]) <= rules[0].limit;
        assert t1[i] == toks[i];
        forall k | 0 <= k < |rules[1..]| && Matches(rules[1..][k], t1, i) ensures Value(t1[i]) <= rules[1..][k].limit {
          SameShapeMatches(toks, t1, rules[1..][k], i);
          assert rules[1..][k] == rules[k + 1];
        }
        assert Settled(rules[1..], t1, i);
      }
    }
  }

  /** A rule that matches nowhere changes nothing. */
  lemma RuleIdle(r: Rule, toks: seq<Tok>)
    requires forall i :: 0 <= i < |toks| ==> !Matches(r, toks, i)
    ensures ApplyRule(r, toks) == toks
  {
  }

  /** A position no rule would fire on is left as it is. */
  lemma SettledUnchanged(rules: seq<Rule>, toks: seq<Tok>, i: int)
    requires AllValid(rules) && 0 <= i < |toks| && Settled(rules, toks, i)
    ensures ApplyRules(rules, toks)[i] == toks[i]
  {
    ApplyRulesEffect(rules, toks);
  }

  /** After the rules, a numeral matched by rule `k` is within its limit. */
  lemma MatchedWithinLimit(rules: seq<Rule>, toks: seq<Tok>, k: int, i: int)
    requires AllValid(rules) && 0 <= k < |rules| && 0 <= i < |toks|
    requires Matches(rules[k], ApplyRules(rules, toks), i)
    ensures Value(ApplyRules(rules, toks)[i]) <= rules[k].limit
  {
    ApplyRulesEffect(rules, toks);
  }

  /** Every clamped numeral lands at or below its limit and the guard is a
      strict `>`, so a second pass of the same rules changes nothing. */
  lemma ApplyRulesIdempotent(rules: seq<Rule>, toks: seq<Tok>)
    requires AllValid(rules)
    ensures ApplyRules(rules, ApplyRules(rules, toks)) == ApplyRules(rules, toks)
  {
    var once := ApplyRules(rules, toks);
    ApplyRulesEffect(rules, toks);
    ApplyRulesEffect(rules, once);
  }

  /** When rule `k` is the first rule to fire on position `i` and no later
      rule matching there has a limit below the replacement of rule `k`,
      the position ends up holding exactly that replacement. */
  lemma {:induction false} FirstFiringRule(rules: seq<Rule>, toks: seq<Tok>, i: int, k: int)
    requires AllValid(rules) && 0 <= k < |rules| && 0 <= i < |toks|
    requires Settled(rules[..k], toks, i)
    requires Matches(rules[k], toks, i) && Value(toks[i]) > rules[k].limit
    requires forall j :: k < j < |rules| && Matches(rules[j], toks, i) ==> Value(rules[k].to) <= rules[j].limit
    ensures ApplyRules(rules, toks)[i] == rules[k].to
  {
    if k == 0 {
      HeadRuleFires(rules, toks, i);
    } else {
      var t1 := ApplyRule(rules[0], toks);
      SettledPastHead(rules, toks, i, k);
      SameShapeMatches(toks, t1, rules[k], i);
      assert rules[1..][k - 1] == rules[k];
      forall j | k - 1 < j < |rules[1..]| && Matches(rules[1..][j], t1, i) ensures Value(rules[1..][k - 1].to) <= rules[1..][j].limit {
        SameShapeMatches(toks, t1, rules[1..][j], i);
        assert rules[1..][j] == rules[j + 1];
      }
      FirstFiringRule(rules[1..], t1, i, k - 1);
    }
  }

  /** When rule `k` is the only rule matching position `i` and the
      numeral there is above its limit, the position ends up holding that
      rule's replacement. */
  lemma OnlyRuleFires(rules: seq<Rule>, toks: seq<Tok>, i: int, k: int)
    requires AllValid(rules) && 0 <= k < |rules| && 0 <= i < |toks|
    requires forall j :: 0 <= j < |rules| && j != k ==> !Matches(rules[j], toks, i)
    requires Matches(rules[k], toks, i) && Value(toks[i]) > rules[k].limit
    ensures ApplyRules(rules, toks)[i] == rules[k].to
  {
    forall j | 0 <= j < k ensures !Matches(rules[..k][j], toks, i) {
      assert rules[..k][j] == rules[j];
    }
    FirstFiringRule(rules, toks, i, k);
  }

  /** When the first rule fires and no later matching rule has a limit
      below its replacement, the replacement stays. */
  lemma HeadRuleFires(rules: seq<Rule>, toks: seq<Tok>, i: int)
    requires AllValid(rules) && 0 < |rules| && 0 <= i < |toks|
    requires Matches(rules[0], toks, i) && Value(toks[i]) > rules[0].limit
    requires forall j :: 0 < j < |rules| && Matches(rules[j], toks, i) ==> Value(rules[0].to) <= rules[j].limit
    ensures ApplyRules(rules, toks)[i] == rules[0].to
  {
    var t1 := ApplyRule(rules[0], toks);
    ApplyRuleEffect(rules[0], toks);
    assert ApplyRules(rules, toks) == ApplyRules(rules[1..], t1);
    assert t1[i] == rules[0].to;
    ApplyRulesEffect(rules[1..], t1);
    forall j | 0 <= j < |rules[1..]| && Matches(rules[1..][j], t1, i) ensures Value(t1[i]) <= rules[1..][j].limit {
      SameShapeMatches(toks, t1, rules[1..][j], i);
      assert rules[1..][j] == rules[j + 1];
    }
  }

  /** A position no rule before `k` changes is untouched by the first rule,
      and stays settled for the rules between. */
  lemma SettledPastHead(rules: seq<Rule>, toks: seq<Tok>, i: int, k: int)
    requires AllValid(rules) && 0 < k < |rules| && 0 <= i < |toks|
    requires Settled(rules[..k], toks, i)
    ensures ApplyRules(rules, toks) == ApplyRules(rules[1..], ApplyRule(rules[0], toks))
    ensures ApplyRule(rules[0], toks)[i] == toks[i]
    ensures SameShape(toks, ApplyRule(rules[0], toks))
    ensures Settled(rules[1..][..k - 1], ApplyRule(rules[0], toks), i)
  {
    var t1 := ApplyRule(rules[0], toks);
    ApplyRuleEffect(rules[0], toks);
    assert Matches(rules[0], toks, i) ==> Value(toks[i]) <= rules[0].limit by {
      assert rules[..k][0] == rules[0];
    }
    assert t1[i] == toks[i];
    var before := rules[1..][..k - 1];
    forall j | 0 <= j < |before| && Matches(before[j], t1, i) ensures Value(t1[i]) <= before[j].limit {
      SameShapeMatches(toks, t1, before[j], i);
      assert before[j] == rules[..k][j + 1];
    }
  }

  /** Scripts of the same shape have the same coordinates and size
      arguments, pointing the same way. */
  lemma SameShapePatterns(a: seq<Tok>, b: seq<Tok>, j: int)
    requires SameShape(a, b)
    ensures CoordinateAt(a, j) <==> CoordinateAt(b, j)
    ensures CoordinateAt(a, j) ==> a[j + 2] == b[j + 2]
    ensures forall p :: SizeAt(a, j, p) <==> SizeAt(b, j, p)
  {
    if 0 <= j && j + 2 < |a| {
      assert a[j + 1] == Times <==> b[j + 1] == Times;
      assert a[j + 2].Dir? ==> a[j + 2] == b[j + 2];
      assert b[j + 2].Dir? ==> a[j + 2] == b[j + 2];
    }
    if 1 <= j < |a| {
      assert a[j - 1].Assign? ==> a[j - 1] == b[j - 1];
      assert b[j - 1].Assign? ==> a[j - 1] == b[j - 1];
    }
  }
}
