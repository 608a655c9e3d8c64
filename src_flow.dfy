/** The single-provider review flow of the `src` package: extract the first page,
    review it with one model, analyse the feedback text with the keyword heuristic,
    append jokes by the joke policy, and comment on the pull request when issues were
    found and the pull request is fully identified. */
module SrcFlow {
  import opened Wrappers
  import opened AppConfig
  import opened Heuristics
  import opened PrComment
  import opened FlowModels

  /** The configuration this flow reads. Its pull-request target fields are optional,
      since the router tests each for absence. */
  datatype FlowConfig = FlowConfig(
    pdfPath: string,
    projectId: string,
    location: string,
    githubToken: Option<string>,
    repository: Option<string>,
    prNumber: Option<int>,
    jokeMode: JokeMode)

  /** The outside world: the PDF extractor (the first page as an image), the review model
      (project, location and image to feedback text), and the joke model. */
  datatype Backends = Backends(
    extract: string -> Result<string>,
    review: (string, string, string) -> Result<string>,
    jokeModel: JokeModel)

  datatype Route = ToCommentPr | ToEnd

  datatype Node = ExtractText | ReviewLlm | CommentPr

  /** What the report file holds: the review state without the image. */
  datatype Report = Report(reviewFeedback: Option<string>, hasIssues: bool, issueCount: int, jokes: seq<string>)

  function ReportOf(st: ReviewState): Report {
    Report(st.reviewFeedback, st.hasIssues, st.issueCount, st.jokes)
  }

  /** The review node as a function of the state it starts from: it needs an image,
      stores the feedback with its analysis, and appends the policy's jokes; a failed
      review call leaves the state as it was. */
  function ReviewOutcome(b: Backends, config: FlowConfig, st: ReviewState, draw: int): Result<ReviewState>
    requires config.jokeMode == CHAOTIC ==> ValidDraw(draw)
  {
    if st.documentImage.None? then Err(MissingImage)
    else match b.review(config.projectId, config.location, st.documentImage.value)
      case Err(e) => Err(e)
      case Ok(feedback) =>
        var analysis := AnalyzeReviewFeedback(feedback);
        var n := JokeQuota(config.jokeMode, analysis.hasIssues, draw);
        Ok(st.(reviewFeedback := Some(feedback), hasIssues := analysis.hasIssues,
               issueCount := analysis.issueCount,
               jokes := st.jokes + CatJokes(b.jokeModel, analysis.issueCount, n)))
  }

  /** A successful review stores the model's feedback and exactly the heuristic's verdict
      and count, keeps the image, and only appends jokes, as many as the policy asks. */
  lemma ReviewOutcomeStoresAnalysis(b: Backends, config: FlowConfig, st: ReviewState, draw: int)
    requires config.jokeMode == CHAOTIC ==> ValidDraw(draw)
    requires ReviewOutcome(b, config, st, draw).Ok?
    ensures var next := ReviewOutcome(b, config, st, draw).value;
      var feedback := b.review(config.projectId, config.location, st.documentImage.value).value;
      var added := next.jokes[|st.jokes|..];
      next.documentImage == st.documentImage
      && next.reviewFeedback == Some(feedback)
      && next.hasIssues == AnalyzeReviewFeedback(feedback).hasIssues
      && next.issueCount == AnalyzeReviewFeedback(feedback).issueCount
      && st.jokes <= next.jokes
      && (config.jokeMode == NONE ==> added == [])
      && (config.jokeMode == DEFAULT ==> (|added| == 1 <==> next.hasIssues) && (added == [] <==> !next.hasIssues))
      && (config.jokeMode == CHAOTIC ==> |added| == draw)
  {
    var feedback := b.review(config.projectId, config.location, st.documentImage.value).value;
    var analysis := AnalyzeReviewFeedback(feedback);
    JokeCountFollowsPolicy(b.jokeModel, analysis.issueCount, config.jokeMode, analysis.hasIssues, draw);
    var next := ReviewOutcome(b, config, st, draw).value;
    assert next.jokes[|st.jokes|..] == CatJokes(b.jokeModel, analysis.issueCount, JokeQuota(config.jokeMode, analysis.hasIssues, draw));
  }

  /** The node fails exactly when there is no image or the review call fails; jokes never
      make it fail. */
  lemma ReviewOutcomeFailsIff(b: Backends, config: FlowConfig, st: ReviewState, draw: int)
    requires config.jokeMode == CHAOTIC ==> ValidDraw(draw)
    ensures ReviewOutcome(b, config, st, draw).Err? <==>
      st.documentImage.None? || b.review(config.projectId, config.location, st.documentImage.value).Err?
    ensures st.documentImage.None? ==> ReviewOutcome(b, config, st, draw) == Err(MissingImage)
  {
  }

  /** Python truthiness of the optional feedback: absent or empty text becomes "". */
  function FeedbackOrEmpty(feedback: Option<string>): (r: string)
    ensures feedback.Some? ==> r == feedback.value
    ensures feedback.None? ==> r == ""
  {
    if feedback.Some? && feedback.value != "" then feedback.value else ""
  }

  /** The pull-request target is fully identified. */
  predicate HasTarget(config: FlowConfig) {
    config.repository.Some? && config.prNumber.Some? && config.githubToken.Some?
  }

  class FlowState {
    var config: FlowConfig
    var state: ReviewState

    /** The state a run starts from, for the given configuration. */
    constructor (config: FlowConfig)
      ensures this.config == config && this.state == InitialState
    {
      this.config := config;
      this.state := InitialState;
    }
  }

  /** Stores the extracted page image; a failed extraction leaves the state as it was. */
  method ExtractTextNode(s: FlowState, b: Backends) returns (failure: Option<Failure>)
    modifies s
    ensures b.extract(old(s.config.pdfPath)).Ok? ==>
      failure.None? && s.state == old(s.state).(documentImage := Some(b.extract(old(s.config.pdfPath)).value))
    ensures b.extract(old(s.config.pdfPath)).Err? ==>
      failure == Some(b.extract(old(s.config.pdfPath)).failure) && s.state == old(s.state)
    ensures s.config == old(s.config)
  {
    var result := b.extract(s.config.pdfPath);
    match result
    case Ok(image) =>
      s.state := s.state.(documentImage := Some(image));
      failure := None;
    case Err(e) =>
      failure := Some(e);
  }

  /** The review node: requires an image, reviews it, stores the analysed feedback,
      appends the policy's jokes (`draw` is the CHAOTIC draw), and yields the report it
      writes. A failure leaves the state as it was and writes no report. */
  method ReviewLlmNode(s: FlowState, b: Backends, draw: int) returns (failure: Option<Failure>, report: Option<Report>)
    requires s.config.jokeMode == CHAOTIC ==> ValidDraw(draw)
    modifies s
    ensures ReviewOutcome(b, old(s.config), old(s.state), draw).Ok? ==>
      failure.None? && s.state == ReviewOutcome(b, old(s.config), old(s.state), draw).value
      && report == Some(ReportOf(s.state))
    ensures ReviewOutcome(b, old(s.config), old(s.state), draw).Err? ==>
      failure == Some(ReviewOutcome(b, old(s.config), old(s.state), draw).failure)
      && s.state == old(s.state) && report.None?
    ensures s.config == old(s.config)
  {
    if s.state.documentImage.None? {
      failure, report := Some(MissingImage), None;
      return;
    }
    var result := b.review(s.config.projectId, s.config.location, s.state.documentImage.value);
    if result.Err? {
      failure, report := Some(result.failure), None;
      return;
    }
    var feedback := result.value;
    s.state := s.state.(reviewFeedback := Some(feedback));
    var analysis := AnalyzeReviewFeedback(feedback);
    s.state := s.state.(hasIssues := analysis.hasIssues, issueCount := analysis.issueCount);

    var jokeMode := s.config.jokeMode;
    if jokeMode == CHAOTIC {
      var jokes := TellJokes(b.jokeModel, analysis.issueCount, draw);
      s.state := s.state.(jokes := s.state.jokes + jokes);
    } else if jokeMode == DEFAULT && analysis.hasIssues {
      var joke := GenerateCatJoke(b.jokeModel(analysis.issueCount, 0));
      s.state := s.state.(jokes := s.state.jokes + [joke]);
      assert [joke] == CatJokes(b.jokeModel, analysis.issueCount, 1);
    } else {
      assert s.state.jokes + CatJokes(b.jokeModel, analysis.issueCount, 0) == s.state.jokes;
    }
    failure, report := None, Some(ReportOf(s.state));
  }

  /** The comment node: with issues it builds the one comment to post from the feedback
      (or "" when there is none) and the jokes, addressed to the configured pull request;
      the payload cannot be built when a target field is missing; without issues
      nothing is posted. */
  method CommentPrNode(s: FlowState) returns (comment: Result<Option<PrCommentPayload>>)
    ensures !s.state.hasIssues ==> comment == Ok(None)
    ensures s.state.hasIssues && !HasTarget(s.config) ==> comment == Err(InvalidPayload)
    ensures s.state.hasIssues && HasTarget(s.config) ==>
      comment == Ok(Some(PrCommentPayload(s.config.repository.value, s.config.prNumber.value,
                                          FormatPrComment(FeedbackOrEmpty(s.state.reviewFeedback), s.state.jokes),
                                          s.config.githubToken.value)))
  {
    if s.state.hasIssues {
      var body := FormatPrComment(FeedbackOrEmpty(s.state.reviewFeedback), s.state.jokes);
      if HasTarget(s.config) {
        comment := Ok(Some(PrCommentPayload(s.config.repository.value, s.config.prNumber.value, body,
                                            s.config.githubToken.value)));
      } else {
        comment := Err(InvalidPayload);
      }
    } else {
      comment := Ok(None);
    }
  }

  /** The router after the review node: to the comment node exactly when the pull request
      is fully identified and issues were found. */
  function ShouldCommentOnPr(s: FlowState): (next: Route)
    reads s
    ensures next == ToCommentPr <==> HasTarget(s.config) && s.state.hasIssues
    ensures !HasTarget(s.config) ==> next == ToEnd
  {
    if s.config.repository.None? || s.config.prNumber.None? || s.config.githubToken.None? then ToEnd
    else if s.state.hasIssues then ToCommentPr
    else ToEnd
  }

  /** The comment a routed run posts carries the review header, the feedback right after
      it, the jokes section and the footer. */
  lemma PostedCommentLayout(feedback: Option<string>, jokes: seq<string>)
    ensures var body := FormatPrComment(FeedbackOrEmpty(feedback), jokes);
      CommentHead <= body
      && body[|CommentHead|..|CommentHead| + |FeedbackOrEmpty(feedback)|] == FeedbackOrEmpty(feedback)
      && body[|body| - |CommentFoot|..] == CommentFoot
      && (jokes == [] <==> body == CommentHead + FeedbackOrEmpty(feedback) + CommentMiddle + CommentFoot)
  {
    var fb := FeedbackOrEmpty(feedback);
    var body := FormatPrComment(fb, jokes);
    assert body[..|CommentHead|] == CommentHead;
    NoJokesNoSection(fb, jokes);
  }

  /** A whole run from the initial state: extraction, review, and the comment node when
      the router sends the run there. The returned comment is what is posted, if anything. */
  method Run(config: FlowConfig, b: Backends, draw: int)
    returns (final: FlowState, failure: Option<Failure>, report: Option<Report>,
             comment: Option<PrCommentPayload>, visited: seq<Node>)
    requires config.jokeMode == CHAOTIC ==> ValidDraw(draw)
    ensures fresh(final) && final.config == config
    ensures b.extract(config.pdfPath).Err? ==>
      failure == Some(b.extract(config.pdfPath).failure) && final.state == InitialState
      && report.None? && comment.None? && visited == [ExtractText]
    ensures b.extract(config.pdfPath).Ok? ==>
      var outcome := ReviewOutcome(b, config, InitialState.(documentImage := Some(b.extract(config.pdfPath).value)), draw);
      var routed := outcome.Ok? && HasTarget(config) && outcome.value.hasIssues;
      (outcome.Err? ==> failure == Some(outcome.failure) && report.None?)
      && (outcome.Ok? ==> failure.None? && final.state == outcome.value && report == Some(ReportOf(outcome.value)))
      && (comment.Some? <==> routed)
      && (routed ==> comment == Some(PrCommentPayload(
            config.repository.value, config.prNumber.value,
            FormatPrComment(FeedbackOrEmpty(outcome.value.reviewFeedback), outcome.value.jokes),
            config.githubToken.value)))
      && visited == (if routed then [ExtractText, ReviewLlm, CommentPr] else [ExtractText, ReviewLlm])
  {
    final := new FlowState(config);
    comment := None;
    visited := [ExtractText];
    failure := ExtractTextNode(final, b);
    if failure.Some? {
      report := None;
      return;
    }
    visited := visited + [ReviewLlm];
    failure, report := ReviewLlmNode(final, b, draw);
    if failure.Some? {
      return;
    }
    var next := ShouldCommentOnPr(final);
    if next == ToCommentPr {
      visited := visited + [CommentPr];
      var posted := CommentPrNode(final);
      comment := posted.value;
    }
  }
}
