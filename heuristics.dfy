/** The keyword heuristic that the single-provider flows use to decide whether
    free-text review feedback reports issues, and the fail-soft joke wrapper. */
module Heuristics {
  import opened Wrappers

  // ---------------------------------------------------------------------------
  // Case folding and substring search
  // ---------------------------------------------------------------------------

  /** Lower-casing of one character; only the ASCII letters A-Z are folded. */
  function LowerChar(c: char): char {
    if 'A' <= c <= 'Z' then (c as int + 32) as char else c
  }

  function Lower(s: string): (r: string)
    ensures |r| == |s|
  {
    if |s| == 0 then "" else [LowerChar(s[0])] + Lower(s[1..])
  }

  /** Folding twice is folding once. */
  lemma {:induction false} LowerIdempotent(s: string)
    ensures Lower(Lower(s)) == Lower(s)
  {
    if |s| > 0 {
      var t := Lower(s);
      assert t[1..] == Lower(s[1..]);
      LowerIdempotent(s[1..]);
    }
  }

  /** `w` occurs in `s` as a contiguous substring. */
  predicate Contains(s: string, w: string) {
    w <= s || (|s| > 0 && Contains(s[1..], w))
  }

  /** `w` starts at offset `i` of `s`. */
  predicate OccursAt(s: string, w: string, i: nat) {
    i + |w| <= |s| && s[i..i + |w|] == w
  }

  /** The substring test agrees with "there is an offset where `w` starts". */
  lemma {:induction false} ContainsIff(s: string, w: string)
    ensures Contains(s, w) <==> exists i: nat :: OccursAt(s, w, i)
  {
    if w <= s {
      assert OccursAt(s, w, 0);
    } else if |s| > 0 {
      ContainsIff(s[1..], w);
      if Contains(s[1..], w) {
        var i: nat :| OccursAt(s[1..], w, i);
        assert s[i + 1..i + 1 + |w|] == s[1..][i..i + |w|];
        assert OccursAt(s, w, i + 1);
      }
      if exists i: nat :: OccursAt(s, w, i) {
        var i: nat :| OccursAt(s, w, i);
        if i > 0 {
          assert s[1..][i - 1..i - 1 + |w|] == s[i..i + |w|];
          assert OccursAt(s[1..], w, i - 1);
        }
      }
    }
  }

  /** Number of non-overlapping occurrences of `w` in `s`, scanning left to right;
      the empty needle occurs once per position, |s| + 1 times. */
  function Count(s: string, w: string): nat
    decreases |s|
  {
    if |w| == 0 then |s| + 1
    else if |s| < |w| then 0
    else if w <= s then 1 + Count(s[|w|..], w)
    else Count(s[1..], w)
  }

  /** A needle is counted at least once exactly when it occurs. */
  lemma {:induction false} CountPositiveIff(s: string, w: string)
    ensures Count(s, w) > 0 <==> Contains(s, w)
    decreases |s|
  {
    if |w| == 0 {
      assert w <= s;
    } else if |s| < |w| {
      NotContainsShort(s, w);
    } else if w <= s {
    } else {
      CountPositiveIff(s[1..], w);
    }
  }

  lemma {:induction false} NotContainsShort(s: string, w: string)
    requires |s| < |w|
    ensures !Contains(s, w)
  {
    if |s| > 0 {
      NotContainsShort(s[1..], w);
    }
  }

  // ---------------------------------------------------------------------------
  // The heuristic
  // ---------------------------------------------------------------------------

  const Keywords: seq<string> := ["issue", "problem", "fix", "correct", "improve"]

  /** Some keyword of `ws` occurs in `s`. */
  predicate AnyKeyword(s: string, ws: seq<string>) {
    |ws| > 0 && (Contains(s, ws[0]) || AnyKeyword(s, ws[1..]))
  }

  lemma {:induction false} AnyKeywordIff(s: string, ws: seq<string>)
    ensures AnyKeyword(s, ws) <==> exists k :: 0 <= k < |ws| && Contains(s, ws[k])
  {
    if |ws| > 0 {
      AnyKeywordIff(s, ws[1..]);
      if exists k :: 0 <= k < |ws| && Contains(s, ws[k]) {
        var k :| 0 <= k < |ws| && Contains(s, ws[k]);
        if k > 0 {
          assert ws[1..][k - 1] == ws[k];
        }
      }
      if AnyKeyword(s, ws[1..]) {
        var k :| 0 <= k < |ws[1..]| && Contains(s, ws[1..][k]);
        assert ws[k + 1] == ws[1..][k];
      }
    }
  }

  datatype Analysis = Analysis(hasIssues: bool, issueCount: nat)

  /** Occurrences of "issue" plus occurrences of "problem", before any clamping. */
  function MentionCount(lower: string): nat {
    Count(lower, "issue") + Count(lower, "problem")
  }

  /** The keyword heuristic over lower-cased feedback. */
  function AnalyzeReviewFeedback(feedback: string): (r: Analysis)
    ensures r.hasIssues <==>
      Contains(Lower(feedback), "issue") || Contains(Lower(feedback), "problem")
      || Contains(Lower(feedback), "fix") || Contains(Lower(feedback), "correct")
      || Contains(Lower(feedback), "improve")
    ensures MentionCount(Lower(feedback)) > 0 ==> r.issueCount == MentionCount(Lower(feedback))
    ensures MentionCount(Lower(feedback)) == 0 ==> r.issueCount == (if r.hasIssues then 1 else 0)
    ensures r.hasIssues ==> r.issueCount >= 1
    ensures !r.hasIssues ==> r.issueCount == 0
  {
    var lower := Lower(feedback);
    var has := AnyKeyword(lower, Keywords);
    var count := MentionCount(lower);
    AnyKeywordIff(lower, Keywords);
    assert has <==> (Contains(lower, Keywords[0]) || Contains(lower, Keywords[1])
      || Contains(lower, Keywords[2]) || Contains(lower, Keywords[3]) || Contains(lower, Keywords[4]));
    CountPositiveIff(lower, "issue");
    CountPositiveIff(lower, "problem");
    Analysis(has, if count == 0 && has then 1 else count)
  }

  /** The analysis ignores letter case: analysing the lower-cased text gives the same answer. */
  lemma AnalysisIsCaseInsensitive(feedback: string)
    ensures AnalyzeReviewFeedback(Lower(feedback)) == AnalyzeReviewFeedback(feedback)
  {
    LowerIdempotent(feedback);
  }

  // ---------------------------------------------------------------------------
  // Fail-soft joke generation
  // ---------------------------------------------------------------------------

  /** The characters Python's str.isspace accepts, as inclusive ranges of code points. */
  const SpaceRanges: seq<(char, char)> := [
    ('\t', '\r'), ('\U{1C}', ' '), ('\U{85}', '\U{85}'), ('\U{A0}', '\U{A0}'),
    ('\U{1680}', '\U{1680}'), ('\U{2000}', '\U{200A}'), ('\U{2028}', '\U{2029}'),
    ('\U{202F}', '\U{202F}'), ('\U{205F}', '\U{205F}'), ('\U{3000}', '\U{3000}')]

  predicate InRanges(c: char, ranges: seq<(char, char)>) {
    |ranges| > 0 && (ranges[0].0 <= c <= ranges[0].1 || InRanges(c, ranges[1..]))
  }

  predicate IsSpace(c: char) {
    InRanges(c, SpaceRanges)
  }

  predicate AllSpace(s: string) {
    forall k :: 0 <= k < |s| ==> IsSpace(s[k])
  }

  /** Number of whitespace characters at the start of `s`. */
  function LeadLen(s: string): (n: nat)
    ensures n <= |s|
  {
    if |s| > 0 && IsSpace(s[0]) then LeadLen(s[1..]) + 1 else 0
  }

  /** `LeadLen` counts only whitespace. */
  lemma {:induction false} LeadLenIsRun(s: string)
    ensures AllSpace(s[..LeadLen(s)])
  {
    if |s| > 0 && IsSpace(s[0]) {
      var m := LeadLen(s[1..]);
      LeadLenIsRun(s[1..]);
      SpaceRunGrows(s[..1], s[1..][..m]);
      assert s[..m + 1] == s[..1] + s[1..][..m];
    }
  }

  /** `LeadLen` stops at the first character that is not whitespace. */
  lemma {:induction false} LeadLenStops(s: string)
    ensures LeadLen(s) < |s| ==> !IsSpace(s[LeadLen(s)])
  {
    if |s| > 0 && IsSpace(s[0]) {
      LeadLenStops(s[1..]);
    }
  }

  /** Two runs of whitespace make one. */
  lemma SpaceRunGrows(a: string, b: string)
    requires AllSpace(a) && AllSpace(b)
    ensures AllSpace(a + b)
  {
    assert forall k :: 0 <= k < |a + b| ==> (a + b)[k] == if k < |a| then a[k] else b[k - |a|];
  }

  /** Number of whitespace characters at the end of `s`. */
  function TrailLen(s: string): (n: nat)
    ensures n <= |s|
  {
    if |s| > 0 && IsSpace(s[|s| - 1]) then TrailLen(s[..|s| - 1]) + 1 else 0
  }

  /** `TrailLen` counts the whole trailing run of whitespace and stops at the last
      other character. */
  lemma {:induction false} TrailLenIsRun(s: string)
    ensures AllSpace(s[|s| - TrailLen(s)..])
    ensures TrailLen(s) < |s| ==> !IsSpace(s[|s| - TrailLen(s) - 1])
  {
    if |s| > 0 && IsSpace(s[|s| - 1]) {
      var t := s[..|s| - 1];
      var m := TrailLen(t);
      TrailLenIsRun(t);
      assert TrailLen(s) == m + 1;
      SpaceRunGrows(t[|t| - m..], s[|s| - 1..]);
      assert s[|s| - (m + 1)..] == t[|t| - m..] + s[|s| - 1..];
      if m + 1 < |s| {
        assert s[|s| - (m + 1) - 1] == t[|t| - m - 1];
      }
    }
  }

  /** `s` with surrounding whitespace removed. */
  function Strip(s: string): string {
    var i := LeadLen(s);
    s[i..|s| - TrailLen(s[i..])]
  }

  /** The stripped text is the slice of `s` right after its leading whitespace that
      neither begins nor ends with whitespace and is followed only by whitespace. */
  lemma StripTrims(s: string)
    ensures LeadLen(s) + |Strip(s)| <= |s| && Strip(s) == s[LeadLen(s)..LeadLen(s) + |Strip(s)|]
    ensures AllSpace(s[LeadLen(s) + |Strip(s)|..])
    ensures |Strip(s)| > 0 ==> !IsSpace(Strip(s)[0]) && !IsSpace(Strip(s)[|Strip(s)| - 1])
  {
    var i := LeadLen(s);
    var t := s[i..];
    LeadLenStops(s);
    TrailLenIsRun(t);
    StripShape(s, t, i, TrailLen(t));
  }

  /** Cutting `i` leading and `j` trailing characters, where the cut-off ends are
      whitespace and the characters next to the cuts are not, leaves a slice that
      neither begins nor ends with whitespace and is followed only by whitespace. */
  lemma StripShape(s: string, t: string, i: nat, j: nat)
    requires i <= |s| && t == s[i..] && j <= |t|
    requires i < |s| ==> !IsSpace(s[i])
    requires AllSpace(t[|t| - j..])
    requires j < |t| ==> !IsSpace(t[|t| - j - 1])
    ensures var r := s[i..|s| - j];
      i + |r| <= |s| && r == s[i..i + |r|] && AllSpace(s[i + |r|..])
      && (|r| > 0 ==> !IsSpace(r[0]) && !IsSpace(r[|r| - 1]))
  {
    assert t[|t| - j..] == s[|s| - j..];
  }

  /** Stripping twice is stripping once. */
  lemma StripIdempotent(s: string)
    ensures Strip(Strip(s)) == Strip(s)
  {
    var r := Strip(s);
    StripTrims(s);
    assert LeadLen(r) == 0;
    assert TrailLen(r) == 0;
  }

  const CatJokeFallback: string :=
    "Meow, I tried to think of something witty, but I got distracted by a formatting error."

  /** One fail-soft joke: the model's text with surrounding whitespace removed, or the
      fixed fallback when the model call failed. */
  function GenerateCatJoke(response: Result<string>): string {
    match response
    case Ok(content) => Strip(content)
    case Err(_) => CatJokeFallback
  }

  /** Joke generation never raises: a failed model call yields the fixed fallback, and a
      successful one yields the model's text cut down to the part between its leading and
      trailing whitespace, which neither begins nor ends with whitespace. */
  lemma GenerateCatJokeIsFailSoft(response: Result<string>)
    ensures response.Err? ==> GenerateCatJoke(response) == CatJokeFallback
    ensures response.Ok? ==>
      var content := response.value;
      var joke := GenerateCatJoke(response);
      joke == content[LeadLen(content)..LeadLen(content) + |joke|]
      && AllSpace(content[..LeadLen(content)]) && AllSpace(content[LeadLen(content) + |joke|..])
      && (|joke| > 0 ==> !IsSpace(joke[0]) && !IsSpace(joke[|joke| - 1]))
  {
    if response.Ok? {
      StripTrims(response.value);
      LeadLenIsRun(response.value);
    }
  }
}
