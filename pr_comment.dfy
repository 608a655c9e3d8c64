/** Assembly of the markdown body posted on a pull request: a fixed template with
    the review feedback and an optional quoted-jokes section filled in verbatim. */
module PrComment {

  /** The template text before the feedback placeholder (it opens with a newline). */
  const CommentHead: string := "\n## \U{1F63C} Criticat Document Review\n\n"
  /** The template text between the feedback and the jokes placeholders. */
  const CommentMiddle: string := "\n\n"
  /** The template text after the jokes placeholder. */
  const CommentFoot: string := "\n\n---\n*Criticat is a document review assistant. Meow.*\n"
  /** The heading that opens a non-empty jokes section. */
  const JokesHeading: string := "\n### \U{1F639} CritiCat Says\n\n"

  /** One joke as a markdown quote line. */
  function Quote(joke: string): string {
    "> " + joke
  }

  /** Every joke as a quote line. */
  function QuoteAll(jokes: seq<string>): (r: seq<string>)
    ensures |r| == |jokes|
  {
    if |jokes| == 0 then [] else [Quote(jokes[0])] + QuoteAll(jokes[1..])
  }

  /** Quote line `i` is joke `i` quoted: the jokes keep their order. */
  lemma {:induction false} QuoteAllAt(jokes: seq<string>, i: nat)
    requires i < |jokes|
    ensures QuoteAll(jokes)[i] == Quote(jokes[i])
  {
    if i > 0 {
      QuoteAllAt(jokes[1..], i - 1);
    }
  }

  /** `sep.join(parts)`. */
  function Join(parts: seq<string>, sep: string): string {
    if |parts| == 0 then ""
    else if |parts| == 1 then parts[0]
    else parts[0] + sep + Join(parts[1..], sep)
  }

  /** Where part `i` starts in `Join(parts, sep)`: every earlier part with its separator. */
  function JoinOffset(parts: seq<string>, sep: string, i: nat): nat
    requires i <= |parts|
  {
    if i == 0 then 0 else JoinOffset(parts, sep, i - 1) + |parts[i - 1]| + |sep|
  }

  lemma {:induction false} JoinOffsetShift(parts: seq<string>, sep: string, i: nat)
    requires 0 < i <= |parts|
    ensures JoinOffset(parts, sep, i) == |parts[0]| + |sep| + JoinOffset(parts[1..], sep, i - 1)
  {
    if i > 1 {
      JoinOffsetShift(parts, sep, i - 1);
      assert parts[1..][i - 2] == parts[i - 1];
    }
  }

  lemma {:induction false} JoinLength(parts: seq<string>, sep: string)
    requires |parts| > 0
    ensures |Join(parts, sep)| + |sep| == JoinOffset(parts, sep, |parts|)
  {
    if |parts| > 1 {
      JoinLength(parts[1..], sep);
      JoinOffsetShift(parts, sep, |parts|);
    }
  }

  /** A slice past the front `a` of `a + b` is the corresponding slice of `b`. */
  lemma SliceAfter(a: string, b: string, lo: nat, hi: nat)
    requires lo <= hi <= |b|
    ensures (a + b)[|a| + lo..|a| + hi] == b[lo..hi]
  {
  }

  /** Every part stands verbatim at its offset, so parts appear in order. */
  lemma {:induction false} JoinPartAt(parts: seq<string>, sep: string, i: nat)
    requires i < |parts|
    ensures JoinOffset(parts, sep, i) + |parts[i]| <= |Join(parts, sep)|
    ensures Join(parts, sep)[JoinOffset(parts, sep, i)..JoinOffset(parts, sep, i) + |parts[i]|] == parts[i]
  {
    if |parts| > 1 {
      var head := parts[0] + sep;
      var rest := Join(parts[1..], sep);
      assert Join(parts, sep) == head + rest;
      if i == 0 {
        JoinLength(parts[1..], sep);
        assert (head + rest)[..|parts[0]|] == parts[0];
      } else {
        JoinPartAt(parts[1..], sep, i - 1);
        JoinOffsetShift(parts, sep, i);
        var o := JoinOffset(parts[1..], sep, i - 1);
        assert parts[1..][i - 1] == parts[i];
        SliceAfter(head, rest, o, o + |parts[i]|);
      }
    }
  }

  /** Consecutive parts are separated by exactly one `sep`. */
  lemma {:induction false} JoinSepAfter(parts: seq<string>, sep: string, i: nat)
    requires i + 1 < |parts|
    ensures JoinOffset(parts, sep, i) + |parts[i]| <= JoinOffset(parts, sep, i + 1) <= |Join(parts, sep)|
    ensures Join(parts, sep)[JoinOffset(parts, sep, i) + |parts[i]|..JoinOffset(parts, sep, i + 1)] == sep
  {
    var head := parts[0] + sep;
    var rest := Join(parts[1..], sep);
    assert Join(parts, sep) == head + rest;
    JoinLength(parts[1..], sep);
    if i == 0 {
      assert (head + rest)[|parts[0]|..|head|] == sep;
    } else {
      JoinSepAfter(parts[1..], sep, i - 1);
      JoinOffsetShift(parts, sep, i);
      JoinOffsetShift(parts, sep, i + 1);
      assert parts[1..][i - 1] == parts[i];
      var o := JoinOffset(parts[1..], sep, i - 1);
      SliceAfter(head, rest, o + |parts[i]|, JoinOffset(parts[1..], sep, i));
    }
  }

  /** A quoted-jokes section under `heading`: empty without jokes; otherwise the heading
      followed by one quote line per joke, the lines separated by `sep`, in order. */
  function QuotedSection(heading: string, sep: string, jokes: seq<string>): string {
    if |jokes| == 0 then "" else heading + Join(QuoteAll(jokes), sep)
  }

  /** The jokes section of the comment, one joke per line; it is empty exactly when there
      are no jokes. */
  function JokesSection(jokes: seq<string>): (r: string)
    ensures |jokes| == 0 <==> r == ""
  {
    QuotedSection(JokesHeading, "\n", jokes)
  }

  /** A part of a joined list keeps its place behind a prefix. */
  lemma PrefixedPartAt(h: string, parts: seq<string>, sep: string, i: nat)
    requires i < |parts|
    ensures |h| + JoinOffset(parts, sep, i) + |parts[i]| <= |h + Join(parts, sep)|
    ensures (h + Join(parts, sep))[|h| + JoinOffset(parts, sep, i)..|h| + JoinOffset(parts, sep, i) + |parts[i]|] == parts[i]
  {
    JoinPartAt(parts, sep, i);
    var off := JoinOffset(parts, sep, i);
    SliceAfter(h, Join(parts, sep), off, off + |parts[i]|);
  }

  /** Joke `i` appears in the section as its own quote line (`QuoteAll(jokes)[i]`, which
      `QuoteAllAt` shows is `Quote(jokes[i])`), right after the heading at its position in
      the joined list; `JokesSection` is this section under `JokesHeading` with newlines. */
  lemma JokeQuotedInSection(heading: string, sep: string, jokes: seq<string>, i: nat)
    requires i < |jokes|
    ensures var section := QuotedSection(heading, sep, jokes);
      var lo := |heading| + JoinOffset(QuoteAll(jokes), sep, i);
      lo + |QuoteAll(jokes)[i]| <= |section| && section[lo..lo + |QuoteAll(jokes)[i]|] == QuoteAll(jokes)[i]
  {
    PrefixedPartAt(heading, QuoteAll(jokes), sep, i);
    assert QuotedSection(heading, sep, jokes) == heading + Join(QuoteAll(jokes), sep);
  }

  lemma {:induction false} JoinOffsetMonotone(parts: seq<string>, sep: string, i: nat, j: nat)
    requires i <= j <= |parts|
    ensures JoinOffset(parts, sep, i) <= JoinOffset(parts, sep, j)
    decreases j - i
  {
    if i < j {
      JoinOffsetMonotone(parts, sep, i, j - 1);
    }
  }

  /** The pieces of a five-part concatenation sit where their lengths put them. */
  lemma FiveParts(a: string, b: string, c: string, d: string, e: string)
    ensures |a + b + c + d + e| == |a| + |b| + |c| + |d| + |e|
    ensures (a + b + c + d + e)[..|a|] == a
    ensures (a + b + c + d + e)[|a|..|a| + |b|] == b
    ensures (a + b + c + d + e)[|a| + |b|..|a| + |b| + |c|] == c
    ensures (a + b + c + d + e)[|a| + |b| + |c|..|a| + |b| + |c| + |d|] == d
    ensures (a + b + c + d + e)[|a| + |b| + |c| + |d|..] == e
  {
    var r := a + b + c + d + e;
    assert r == a + (b + (c + (d + e)));
    assert r == (a + b + c) + d + e;
    assert r == (a + b) + c + (d + e);
  }

  /** The comment body: the template with the feedback and the jokes section substituted
      verbatim (placeholder syntax inside either is left as it is). It opens with the review
      header, holds the feedback right after it, then the blank-line gap, the jokes section,
      and closes with the footer line. */
  function FormatPrComment(reviewFeedback: string, jokes: seq<string>): (r: string)
    ensures |r| == |CommentHead| + |reviewFeedback| + |CommentMiddle| + |JokesSection(jokes)| + |CommentFoot|
    ensures r[..|CommentHead|] == CommentHead
    ensures r[|CommentHead|..|CommentHead| + |reviewFeedback|] == reviewFeedback
    ensures r[|CommentHead| + |reviewFeedback|..|CommentHead| + |reviewFeedback| + |CommentMiddle|] == CommentMiddle
    ensures r[|r| - |CommentFoot| - |JokesSection(jokes)|..|r| - |CommentFoot|] == JokesSection(jokes)
    ensures r[|r| - |CommentFoot|..] == CommentFoot
  {
    FiveParts(CommentHead, reviewFeedback, CommentMiddle, JokesSection(jokes), CommentFoot);
    CommentHead + reviewFeedback + CommentMiddle + JokesSection(jokes) + CommentFoot
  }

  /** The comment is header, feedback and footer only exactly when there are no jokes. */
  lemma NoJokesNoSection(reviewFeedback: string, jokes: seq<string>)
    ensures jokes == [] <==>
      FormatPrComment(reviewFeedback, jokes) == CommentHead + reviewFeedback + CommentMiddle + CommentFoot
  {
    DropPart(CommentHead, reviewFeedback, CommentMiddle, JokesSection(jokes), CommentFoot);
  }

  /** The fourth of five parts leaves the concatenation unchanged exactly when it is empty. */
  lemma DropPart(a: string, b: string, c: string, d: string, e: string)
    ensures d == [] <==> a + b + c + d + e == a + b + c + e
  {
    if d != [] {
      assert |a + b + c + d + e| > |a + b + c + e|;
    }
  }
}
