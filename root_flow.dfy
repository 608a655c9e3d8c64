/** The oldest single-provider review flow: the same three nodes as the `src` flow, but
    the review runs even without an image, the raw response text is the feedback, no
    report is written, and the router comments whenever issues were found. Its comment
    formatter lives in criticat/github.py, which is not part of this model, so the
    formatter is a parameter. */
module RootFlow {
  import opened Wrappers
  import opened AppConfig
  import opened Heuristics
  import opened FlowModels

  /** The outside world: the PDF extractor (the first page as an image), the review model
      (project, location and the image, possibly absent, to response text), the joke
      model, and the comment formatter (feedback, possibly absent, and jokes to body). */
  datatype Backends = Backends(
    extract: string -> Result<string>,
    review: (string, string, Option<string>) -> Result<string>,
    jokeModel: JokeModel,
    format: (Option<string>, seq<string>) -> string)

  datatype Route = ToCommentPr | ToEnd

  datatype Node = ExtractText | ReviewLlm | CommentPr

  /** The review node as a function of the state it starts from: stores the response
      text with its analysis and appends the policy's jokes; a failed review call leaves
      the state as it was. */
  function ReviewOutcome(b: Backends, config: CriticatConfig, st: ReviewState, draw: int): Result<ReviewState>
    requires config.jokeMode == CHAOTIC ==> ValidDraw(draw)
  {
    match b.review(config.projectId, config.location, st.documentImage)
    case Err(e) => Err(e)
    case Ok(feedback) =>
      var analysis := AnalyzeReviewFeedback(feedback);
      var n := JokeQuota(config.jokeMode, analysis.hasIssues, draw);
      Ok(st.(reviewFeedback := Some(feedback), hasIssues := analysis.hasIssues,
             issueCount := analysis.issueCount,
             jokes := st.jokes + CatJokes(b.jokeModel, analysis.issueCount, n)))
  }

  /** The node fails exactly when the review call fails, image or no image; on success it
      stores the response text and exactly the heuristic's verdict and count, and only
      appends jokes, as many as the policy asks. */
  lemma ReviewOutcomeStoresAnalysis(b: Backends, config: CriticatConfig, st: ReviewState, draw: int)
    requires config.jokeMode == CHAOTIC ==> ValidDraw(draw)
    ensures ReviewOutcome(b, config, st, draw).Err? <==> b.review(config.projectId, config.location, st.documentImage).Err?
    ensures ReviewOutcome(b, config, st, draw).Ok? ==>
      var next := ReviewOutcome(b, config, st, draw).value;
      var feedback := b.review(config.projectId, config.location, st.documentImage).value;
      var added := next.jokes[|st.jokes|..];
      next.documentImage == st.documentImage
      && next.reviewFeedback == Some(feedback)
      && next.hasIssues == AnalyzeReviewFeedback(feedback).hasIssues
      && next.issueCount == AnalyzeReviewFeedback(feedback).issueCount
      && st.jokes <= next.jokes
      && (config.jokeMode == NONE ==> added == [])
      && (config.jokeMode == DEFAULT ==> (|added| == 1 <==> next.hasIssues) && (added == [] <==> !next.hasIssues))
      && (config.jokeMode == CHAOTIC ==> |added| == draw)
  {
    var response := b.review(config.projectId, config.location, st.documentImage);
    if response.Ok? {
      var analysis := AnalyzeReviewFeedback(response.value);
      var n := JokeQuota(config.jokeMode, analysis.hasIssues, draw);
      JokeCountFollowsPolicy(b.jokeModel, analysis.issueCount, config.jokeMode, analysis.hasIssues, draw);
      var next := ReviewOutcome(b, config, st, draw).value;
      assert next.jokes[|st.jokes|..] == CatJokes(b.jokeModel, analysis.issueCount, n);
    }
  }

  class FlowState {
    var config: CriticatConfig
    var state: ReviewState

    /** The state a run starts from, for the given configuration. */
    constructor (config: CriticatConfig)
      ensures this.config == config && this.state == InitialState
    {
      this.config := config;
      this.state := InitialState;
    }
  }

  /** Stores the extracted page image; a failed extraction leaves the state as it was. */
  method ExtractTextNode(s: FlowState, b: Backends) returns (failure: Option<Failure>)
    modifies s
    ensures b.extract(old(s.config.pdfPath)).Ok? ==>
      failure.None? && s.state == old(s.state).(documentImage := Some(b.extract(old(s.config.pdfPath)).value))
    ensures b.extract(old(s.config.pdfPath)).Err? ==>
      failure == Some(b.extract(old(s.config.pdfPath)).failure) && s.state == old(s.state)
    ensures s.config == old(s.config)
  {
    var result := b.extract(s.config.pdfPath);
    match result
    case Ok(image) =>
      s.state := s.state.(documentImage := Some(image));
      failure := None;
    case Err(e) =>
      failure := Some(e);
  }

  /** The review node: reviews whatever image the state holds, stores the analysed
      response text and appends the policy's jokes (`draw` is the CHAOTIC draw). A
      failure leaves the state as it was. */
  method ReviewLlmNode(s: FlowState, b: Backends, draw: int) returns (failure: Option<Failure>)
    requires s.config.jokeMode == CHAOTIC ==> ValidDraw(draw)
    modifies s
    ensures ReviewOutcome(b, old(s.config), old(s.state), draw).Ok? ==>
      failure.None? && s.state == ReviewOutcome(b, old(s.config), old(s.state), draw).value
    ensures ReviewOutcome(b, old(s.config), old(s.state), draw).Err? ==>
      failure == Some(ReviewOutcome(b, old(s.config), old(s.state), draw).failure) && s.state == old(s.state)
    ensures s.config == old(s.config)
  {
    var response := b.review(s.config.projectId, s.config.location, s.state.documentImage);
    if response.Err? {
      failure := Some(response.failure);
      return;
    }
    var feedback := response.value;
    s.state := s.state.(reviewFeedback := Some(feedback));
    var analysis := AnalyzeReviewFeedback(feedback);
    s.state := s.state.(hasIssues := analysis.hasIssues, issueCount := analysis.issueCount);

    var jokeMode := s.config.jokeMode;
    if jokeMode == CHAOTIC {
      var jokes := TellJokes(b.jokeModel, analysis.issueCount, draw);
      s.state := s.state.(jokes := s.state.jokes + jokes);
    } else if jokeMode == DEFAULT && analysis.hasIssues {
      var joke := GenerateCatJoke(b.jokeModel(analysis.issueCount, 0));
      s.state := s.state.(jokes := s.state.jokes + [joke]);
      assert [joke] == CatJokes(b.jokeModel, analysis.issueCount, 1);
    } else {
      assert s.state.jokes + CatJokes(b.jokeModel, analysis.issueCount, 0) == s.state.jokes;
    }
    failure := None;
  }

  /** The comment node: with issues it builds the one comment to post from the feedback
      and the jokes, addressed to the configured pull request; without issues nothing is
      posted. */
  method CommentPrNode(s: FlowState, b: Backends) returns (comment: Option<PrCommentPayload>)
    ensures s.state.hasIssues ==>
      comment == Some(PrCommentPayload(s.config.repository, s.config.prNumber,
                                       b.format(s.state.reviewFeedback, s.state.jokes), s.config.githubToken))
    ensures !s.state.hasIssues ==> comment.None?
  {
    if s.state.hasIssues {
      var body := b.format(s.state.reviewFeedback, s.state.jokes);
      comment := Some(PrCommentPayload(s.config.repository, s.config.prNumber, body, s.config.githubToken));
    } else {
      comment := None;
    }
  }

  /** The router after the review node: to the comment node exactly when issues were
      found, whatever the pull-request target fields hold. */
  function ShouldCommentOnPr(s: FlowState): (next: Route)
    reads s
    ensures next == ToCommentPr <==> s.state.hasIssues
  {
    if s.state.hasIssues then ToCommentPr else ToEnd
  }

  /** A whole run from the initial state: extraction, review, and the comment node when
      issues were found. The returned comment is what is posted, if anything. */
  method Run(config: CriticatConfig, b: Backends, draw: int)
    returns (final: FlowState, failure: Option<Failure>, comment: Option<PrCommentPayload>, visited: seq<Node>)
    requires config.jokeMode == CHAOTIC ==> ValidDraw(draw)
    ensures fresh(final) && final.config == config
    ensures b.extract(config.pdfPath).Err? ==>
      failure == Some(b.extract(config.pdfPath).failure) && final.state == InitialState
      && comment.None? && visited == [ExtractText]
    ensures b.extract(config.pdfPath).Ok? ==>
      var outcome := ReviewOutcome(b, config, InitialState.(documentImage := Some(b.extract(config.pdfPath).value)), draw);
      var routed := outcome.Ok? && outcome.value.hasIssues;
      (outcome.Err? ==> failure == Some(outcome.failure))
      && (outcome.Ok? ==> failure.None? && final.state == outcome.value)
      && (routed ==> comment == Some(PrCommentPayload(config.repository, config.prNumber,
                                      b.format(outcome.value.reviewFeedback, outcome.value.jokes), config.githubToken)))
      && (!routed ==> comment.None?)
      && visited == (if routed then [ExtractText, ReviewLlm, CommentPr] else [ExtractText, ReviewLlm])
  {
    final := new FlowState(config);
    comment := None;
    visited := [ExtractText];
    failure := ExtractTextNode(final, b);
    if failure.Some? {
      return;
    }
    visited := visited + [ReviewLlm];
    failure := ReviewLlmNode(final, b, draw);
    if failure.Some? {
      return;
    }
    var next := ShouldCommentOnPr(final);
    if next == ToCommentPr {
      visited := visited + [CommentPr];
      comment := CommentPrNode(final, b);
    }
  }
}
