/** The structured review a vision model returns: issues grouped by category,
    and the two derived predicates that gate jokes and PR comments. */
module Formatting {
  import opened Wrappers

  /** The fixed taxonomy of layout defects a category may be named after. */
  datatype CategoryName =
    | WordSpacing | CharacterSpacing | SectionSpacing | ParagraphSpacing
    | TextAlignment | FontQuality | RenderingQuality | BulletFormatting
    | ListFormatting | VisualAlignment | ImageOcclusion | TextOcclusion
    | TableFormatting | HeaderAndFooterAlignment | MarginAndPaddingIssues
    | ColorContrast | LineSpacing | PageNumbering | FootnoteFormatting
    | CaptionAlignment | HyperlinkFormatting

  const AllCategories: seq<CategoryName> := [
    WordSpacing, CharacterSpacing, SectionSpacing, ParagraphSpacing,
    TextAlignment, FontQuality, RenderingQuality, BulletFormatting,
    ListFormatting, VisualAlignment, ImageOcclusion, TextOcclusion,
    TableFormatting, HeaderAndFooterAlignment, MarginAndPaddingIssues,
    ColorContrast, LineSpacing, PageNumbering, FootnoteFormatting,
    CaptionAlignment, HyperlinkFormatting
  ]

  /** The wire tag of a category, as the model must emit it. */
  function CategoryTag(c: CategoryName): string {
    match c
    case WordSpacing => "word_spacing"
    case CharacterSpacing => "character_spacing"
    case SectionSpacing => "section_spacing"
    case ParagraphSpacing => "paragraph_spacing"
    case TextAlignment => "text_alignment"
    case FontQuality => "font_quality"
    case RenderingQuality => "rendering_quality"
    case BulletFormatting => "bullet_formatting"
    case ListFormatting => "list_formatting"
    case VisualAlignment => "visual_alignment"
    case ImageOcclusion => "image_occlusion"
    case TextOcclusion => "text_occlusion"
    case TableFormatting => "table_formatting"
    case HeaderAndFooterAlignment => "header_and_footer_alignment"
    case MarginAndPaddingIssues => "margin_and_padding_issues"
    case ColorContrast => "color_contrast"
    case LineSpacing => "line_spacing"
    case PageNumbering => "page_numbering"
    case FootnoteFormatting => "footnote_formatting"
    case CaptionAlignment => "caption_alignment"
    case HyperlinkFormatting => "hyperlink_formatting"
  }

  /** The first category of `cs` whose tag is `s`. */
  function FindCategory(cs: seq<CategoryName>, s: string): (r: Option<CategoryName>)
    ensures r.Some? ==> r.value in cs && CategoryTag(r.value) == s
    ensures r.None? ==> forall c :: c in cs ==> CategoryTag(c) != s
  {
    if |cs| == 0 then None
    else if CategoryTag(cs[0]) == s then Some(cs[0])
    else FindCategory(cs[1..], s)
  }

  /** Validation of the category-name literal: only one of the 21 tags is accepted. */
  function ParseCategoryName(s: string): (r: Option<CategoryName>)
    ensures r.Some? ==> CategoryTag(r.value) == s
    ensures r.None? ==> forall c: CategoryName :: CategoryTag(c) != s
  {
    AllCategoriesComplete();
    FindCategory(AllCategories, s)
  }

  /** The position of a category in the declared taxonomy. */
  function CategoryIndex(c: CategoryName): (i: nat)
    ensures i < |AllCategories| && AllCategories[i] == c
  {
    match c
    case WordSpacing => 0
    case CharacterSpacing => 1
    case SectionSpacing => 2
    case ParagraphSpacing => 3
    case TextAlignment => 4
    case FontQuality => 5
    case RenderingQuality => 6
    case BulletFormatting => 7
    case ListFormatting => 8
    case VisualAlignment => 9
    case ImageOcclusion => 10
    case TextOcclusion => 11
    case TableFormatting => 12
    case HeaderAndFooterAlignment => 13
    case MarginAndPaddingIssues => 14
    case ColorContrast => 15
    case LineSpacing => 16
    case PageNumbering => 17
    case FootnoteFormatting => 18
    case CaptionAlignment => 19
    case HyperlinkFormatting => 20
  }

  lemma AllCategoriesComplete()
    ensures forall c: CategoryName :: c in AllCategories
  {
    forall c: CategoryName ensures c in AllCategories {
      var i := CategoryIndex(c);
    }
  }

  /** Every tag parses back to its own category: no two categories share a tag. */
  lemma CategoryRoundTrip(c: CategoryName)
    ensures ParseCategoryName(CategoryTag(c)) == Some(c)
  {
    var r := ParseCategoryName(CategoryTag(c));
    assert r.Some?;
    assert CategoryTag(r.value) == CategoryTag(c);
    TagInjective(r.value, c);
  }

  lemma TagInjective(a: CategoryName, b: CategoryName)
    requires CategoryTag(a) == CategoryTag(b)
    ensures a == b
  {
    assert CategoryTag(a)[0] == CategoryTag(b)[0];
  }

  /** Severity of one issue; critical and error block, warning and info do not. */
  datatype IssueStatus = Critical | Error | Warning | Info

  function StatusTag(s: IssueStatus): string {
    match s
    case Critical => "critical"
    case Error => "error"
    case Warning => "warning"
    case Info => "info"
  }

  /** Validation of the status literal. */
  function ParseStatus(s: string): (r: Option<IssueStatus>)
    ensures r.Some? <==> s in {"critical", "error", "warning", "info"}
    ensures r.Some? ==> StatusTag(r.value) == s
  {
    if s == "critical" then Some(Critical)
    else if s == "error" then Some(Error)
    else if s == "warning" then Some(Warning)
    else if s == "info" then Some(Info)
    else None
  }

  predicate IsBlocking(s: IssueStatus) {
    s == Critical || s == Error
  }

  /** The confidence scale, bounded 1..5 by validation. */
  type Confidence = c: int | 1 <= c <= 5 witness 1

  datatype FormatIssue = FormatIssue(
    description: string,
    explanation: string,
    example: string,
    cause: string,
    status: IssueStatus,
    confidence: Confidence)

  datatype FormatCategoryItem = FormatCategoryItem(name: CategoryName, issues: seq<FormatIssue>)

  datatype FormatReview = FormatReview(explanation: string, categories: seq<FormatCategoryItem>)

  /** An issue as the model emits it, before validation; `example` and `cause` may be absent. */
  datatype RawIssue = RawIssue(
    description: string,
    explanation: string,
    example: Option<string>,
    cause: Option<string>,
    status: string,
    confidence: int)

  /** Field validation of one issue: status must be one of four literals and
      confidence must lie in 1..5; an absent example or cause defaults to "". */
  function ValidateIssue(raw: RawIssue): (r: Result<FormatIssue>)
    ensures r.Ok? <==> ParseStatus(raw.status).Some? && 1 <= raw.confidence <= 5
    ensures r.Ok? ==> StatusTag(r.value.status) == raw.status && r.value.confidence == raw.confidence
    ensures r.Ok? ==> r.value.description == raw.description && r.value.explanation == raw.explanation
    ensures r.Ok? ==> r.value.example == (if raw.example.Some? then raw.example.value else "")
    ensures r.Ok? ==> r.value.cause == (if raw.cause.Some? then raw.cause.value else "")
    ensures r.Err? ==> r.failure == InvalidPayload
  {
    match ParseStatus(raw.status)
    case None => Err(InvalidPayload)
    case Some(st) =>
      if 1 <= raw.confidence <= 5 then
        Ok(FormatIssue(
          raw.description, raw.explanation,
          if raw.example.Some? then raw.example.value else "",
          if raw.cause.Some? then raw.cause.value else "",
          st, raw.confidence))
      else Err(InvalidPayload)
  }

  /** Some issue of the list is critical or error. */
  predicate AnyBlocking(issues: seq<FormatIssue>) {
    |issues| > 0 && (IsBlocking(issues[0].status) || AnyBlocking(issues[1..]))
  }

  /** The category loop of has_issues, returning at the first category with a blocking issue. */
  predicate HasIssuesIn(cs: seq<FormatCategoryItem>) {
    |cs| > 0 && (AnyBlocking(cs[0].issues) || HasIssuesIn(cs[1..]))
  }

  predicate HasIssues(r: FormatReview) {
    HasIssuesIn(r.categories)
  }

  /** The accumulator loop of issue_count. */
  function IssueCountIn(cs: seq<FormatCategoryItem>): nat {
    if |cs| == 0 then 0 else |cs[0].issues| + IssueCountIn(cs[1..])
  }

  function IssueCount(r: FormatReview): nat {
    IssueCountIn(r.categories)
  }

  /** Reference definition: every issue of the review, category after category. */
  function AllIssues(cs: seq<FormatCategoryItem>): seq<FormatIssue> {
    if |cs| == 0 then [] else cs[0].issues + AllIssues(cs[1..])
  }

  lemma {:induction false} AnyBlockingIff(issues: seq<FormatIssue>)
    ensures AnyBlocking(issues) <==> exists j :: 0 <= j < |issues| && IsBlocking(issues[j].status)
  {
    if |issues| > 0 {
      AnyBlockingIff(issues[1..]);
      if AnyBlocking(issues[1..]) {
        var j :| 0 <= j < |issues[1..]| && IsBlocking(issues[1..][j].status);
        assert IsBlocking(issues[j + 1].status);
      }
      if exists j :: 0 <= j < |issues| && IsBlocking(issues[j].status) {
        var j :| 0 <= j < |issues| && IsBlocking(issues[j].status);
        if j > 0 {
          assert issues[1..][j - 1] == issues[j];
        }
      }
    }
  }

  /** has_issues holds iff some issue of some category is critical or error. */
  lemma {:induction false} HasIssuesIff(cs: seq<FormatCategoryItem>)
    ensures HasIssuesIn(cs) <==>
      exists i, j :: 0 <= i < |cs| && 0 <= j < |cs[i].issues| && IsBlocking(cs[i].issues[j].status)
  {
    if |cs| > 0 {
      HasIssuesIff(cs[1..]);
      AnyBlockingIff(cs[0].issues);
      if HasIssuesIn(cs[1..]) {
        var i, j :| 0 <= i < |cs[1..]| && 0 <= j < |cs[1..][i].issues| && IsBlocking(cs[1..][i].issues[j].status);
        assert cs[i + 1] == cs[1..][i];
      }
      if exists i, j :: 0 <= i < |cs| && 0 <= j < |cs[i].issues| && IsBlocking(cs[i].issues[j].status) {
        var i, j :| 0 <= i < |cs| && 0 <= j < |cs[i].issues| && IsBlocking(cs[i].issues[j].status);
        if i > 0 {
          assert cs[1..][i - 1] == cs[i];
        }
      }
    }
  }

  /** A review whose issues are all warnings or infos (or that has no issue at all) has no issues. */
  lemma NoBlockingMeansNoIssues(r: FormatReview)
    requires forall i, j :: 0 <= i < |r.categories| && 0 <= j < |r.categories[i].issues| ==>
      r.categories[i].issues[j].status in {Warning, Info}
    ensures !HasIssues(r)
  {
    HasIssuesIff(r.categories);
  }

  /** issue_count is the number of issues of every status, across all categories. */
  lemma {:induction false} IssueCountIsTotal(cs: seq<FormatCategoryItem>)
    ensures IssueCountIn(cs) == |AllIssues(cs)|
  {
    if |cs| > 0 {
      IssueCountIsTotal(cs[1..]);
    }
  }

  /** Both folds distribute over a split of the category list. */
  lemma {:induction false} FoldsOverConcat(a: seq<FormatCategoryItem>, b: seq<FormatCategoryItem>)
    ensures IssueCountIn(a + b) == IssueCountIn(a) + IssueCountIn(b)
    ensures HasIssuesIn(a + b) <==> HasIssuesIn(a) || HasIssuesIn(b)
  {
    if |a| > 0 {
      assert (a + b)[1..] == a[1..] + b;
      FoldsOverConcat(a[1..], b);
    } else {
      assert a + b == b;
    }
  }

  /** has_issues implies that issue_count is at least one. */
  lemma {:induction false} HasIssuesCountsOne(cs: seq<FormatCategoryItem>)
    requires HasIssuesIn(cs)
    ensures IssueCountIn(cs) >= 1
  {
    if !AnyBlocking(cs[0].issues) {
      HasIssuesCountsOne(cs[1..]);
    }
  }
}
