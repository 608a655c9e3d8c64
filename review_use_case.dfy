/** The live multi-provider review orchestrator: a registry of LLM providers built from
    their configurations, and a three-node graph (extract_text -> review_llm ->
    comment_pr or end) that mutates one shared control state in place. The PDF
    extractor and the model clients are oracles passed in as function values; the
    CHAOTIC random draws are passed in as a sequence. */
module ReviewUseCase {
  import opened Wrappers
  import opened Formatting
  import opened AppConfig

  // ---------------------------------------------------------------------------
  // Control state
  // ---------------------------------------------------------------------------

  /** A git provider configuration; the flow only asks whether one is present. */
  datatype GitConfig = GitConfig(gitUrl: string)

  /** The only LLM provider literal the controllable configuration accepts. */
  const VertexAiProvider: string := "vertex_ai"

  /** Configuration the orchestrator controls at run time. */
  datatype ControllableConfig = ControllableConfig(gitProvider: Option<GitConfig>, llmProvider: string)

  /** Images of the document, structured feedback per provider name, and the jokes so far. */
  datatype ReviewState = ReviewState(
    documentImages: seq<string>,
    reviewFeedback: map<string, FormatReview>,
    jokes: seq<string>)

  const EmptyReview: ReviewState := ReviewState([], map[], [])

  /** What the report file holds: the review state without its images. */
  datatype Report = Report(reviewFeedback: map<string, FormatReview>, jokes: seq<string>)

  function ReportOf(r: ReviewState): Report {
    Report(r.reviewFeedback, r.jokes)
  }

  /** The state object every node validates and updates in place. */
  class ControlState {
    var review: ReviewState
    var providersConfig: ControllableConfig
    var appConfig: ReviewConfig

    constructor (review: ReviewState, providersConfig: ControllableConfig, appConfig: ReviewConfig)
      ensures this.review == review
      ensures this.providersConfig == providersConfig
      ensures this.appConfig == appConfig
    {
      this.review := review;
      this.providersConfig := providersConfig;
      this.appConfig := appConfig;
    }
  }

  /** The configuration a run starts from. */
  datatype RunConfig = RunConfig(appConfig: ReviewConfig, gitProvider: Option<GitConfig>)

  // ---------------------------------------------------------------------------
  // Provider registry
  // ---------------------------------------------------------------------------

  /** A model client: the Vertex AI review and joke chains are fixed by project and
      location; a client built by a configuration's own factory is identified by that
      factory and the provider name. */
  datatype Client =
    | ReviewFeedbackChain(projectId: string, location: string)
    | JokeChain(projectId: string, location: string)
    | FactoryClient(factory: nat, llmProvider: string)

  /** A registered provider; either client slot may be missing. */
  datatype Provider = Provider(review: Option<Client>, joke: Option<Client>)

  /** A provider configuration: Vertex AI, or any other model that may carry an
      `llm_provider` name and callable `review` / `joke` factories. */
  datatype ProviderConfig =
    | VertexAIConfig(llmProvider: string, projectId: string, location: string)
    | OtherConfig(providerName: Option<string>, reviewFactory: Option<nat>, jokeFactory: Option<nat>)

  /** The name a configuration registers under, if it has one. */
  function ProviderName(c: ProviderConfig): Option<string> {
    match c
    case VertexAIConfig(name, _, _) => Some(name)
    case OtherConfig(name, _, _) => name
  }

  /** The clients one configuration contributes: a Vertex AI configuration always gets
      both chains; any other only the clients whose factories it carries. */
  function ClientsOf(c: ProviderConfig): (p: Provider)
    requires ProviderName(c).Some?
    ensures c.VertexAIConfig? ==> p.review.Some? && p.joke.Some?
    ensures c.OtherConfig? ==> (p.review.Some? <==> c.reviewFactory.Some?) && (p.joke.Some? <==> c.jokeFactory.Some?)
  {
    match c
    case VertexAIConfig(_, projectId, location) =>
      Provider(Some(ReviewFeedbackChain(projectId, location)), Some(JokeChain(projectId, location)))
    case OtherConfig(name, review, joke) =>
      Provider(
        if review.Some? then Some(FactoryClient(review.value, name.value)) else None,
        if joke.Some? then Some(FactoryClient(joke.value, name.value)) else None)
  }

  /** The registry: providers and their configurations by name, and the names in
      dictionary insertion order, which is the order the nodes iterate in. */
  datatype Registry = Registry(
    providers: map<string, Provider>,
    configs: map<string, ProviderConfig>,
    order: seq<string>)

  predicate NoDuplicates(s: seq<string>) {
    forall i, j :: 0 <= i < j < |s| ==> s[i] != s[j]
  }

  /** Every listed name is registered exactly once and every registered name is listed. */
  predicate WellFormed(r: Registry) {
    NoDuplicates(r.order)
    && (forall j :: 0 <= j < |r.order| ==> r.order[j] in r.providers)
    && (forall k :: k in r.providers ==> k in r.order)
    && r.configs.Keys == r.providers.Keys
  }

  /** One configuration registered: its entry is replaced wholesale, and a new name
      goes to the end of the iteration order while a known one keeps its place. */
  function Register(r: Registry, c: ProviderConfig): Registry {
    match ProviderName(c)
    case None => r
    case Some(name) =>
      Registry(
        r.providers[name := ClientsOf(c)],
        r.configs[name := c],
        if name in r.providers then r.order else r.order + [name])
  }

  /** The registry built from the configurations in order. */
  function BuildRegistry(cs: seq<ProviderConfig>): Registry {
    if |cs| == 0 then Registry(map[], map[], [])
    else Register(BuildRegistry(cs[..|cs| - 1]), cs[|cs| - 1])
  }

  lemma {:induction false} RegistryWellFormed(cs: seq<ProviderConfig>)
    ensures WellFormed(BuildRegistry(cs))
  {
    if |cs| > 0 {
      RegistryWellFormed(cs[..|cs| - 1]);
    }
  }

  /** A name is registered exactly when some configuration carries it. */
  lemma {:induction false} RegistryKeys(cs: seq<ProviderConfig>, name: string)
    ensures name in BuildRegistry(cs).providers <==>
      exists i :: 0 <= i < |cs| && ProviderName(cs[i]) == Some(name)
  {
    if |cs| > 0 {
      var init := cs[..|cs| - 1];
      RegistryKeys(init, name);
      if exists i :: 0 <= i < |init| && ProviderName(init[i]) == Some(name) {
        var i :| 0 <= i < |init| && ProviderName(init[i]) == Some(name);
        assert cs[i] == init[i];
      }
      if exists i :: 0 <= i < |cs| && ProviderName(cs[i]) == Some(name) {
        var i :| 0 <= i < |cs| && ProviderName(cs[i]) == Some(name);
        if i < |cs| - 1 {
          assert init[i] == cs[i];
        }
      }
    }
  }

  /** The last configuration carrying a name decides that name's clients and configuration. */
  lemma {:induction false} RegistryLastWins(cs: seq<ProviderConfig>, i: nat)
    requires i < |cs| && ProviderName(cs[i]).Some?
    requires forall j :: i < j < |cs| ==> ProviderName(cs[j]) != ProviderName(cs[i])
    ensures ProviderName(cs[i]).value in BuildRegistry(cs).providers
    ensures ProviderName(cs[i]).value in BuildRegistry(cs).configs
    ensures BuildRegistry(cs).providers[ProviderName(cs[i]).value] == ClientsOf(cs[i])
    ensures BuildRegistry(cs).configs[ProviderName(cs[i]).value] == cs[i]
  {
    if i < |cs| - 1 {
      var init := cs[..|cs| - 1];
      assert init[i] == cs[i];
      forall j | i < j < |init|
        ensures ProviderName(init[j]) != ProviderName(init[i])
      {
        assert init[j] == cs[j];
      }
      RegistryLastWins(init, i);
    }
  }

  /** Registering more configurations never reorders the names already registered. */
  lemma {:induction false} RegistryOrderGrows(cs: seq<ProviderConfig>, i: nat)
    requires i <= |cs|
    ensures BuildRegistry(cs[..i]).order <= BuildRegistry(cs).order
    decreases |cs| - i
  {
    if i < |cs| {
      assert cs[..|cs|][..|cs| - 1] == cs[..|cs| - 1];
      assert cs[..|cs|] == cs;
      RegistryOrderGrows(cs[..|cs| - 1], i);
      assert cs[..|cs| - 1][..i] == cs[..i];
    } else {
      assert cs[..i] == cs;
    }
  }

  // ---------------------------------------------------------------------------
  // Oracles and the specification of the review node
  // ---------------------------------------------------------------------------

  /** The outside world: the PDF extractor (the first page as an image), and the review
      and joke clients. The review and joke oracles also see the provider name, and the
      joke oracle the number of jokes that provider already produced, so that repeated
      calls may answer differently. */
  datatype Backends = Backends(
    extract: string -> Result<string>,
    review: (string, Client, seq<string>) -> Result<FormatReview>,
    joke: (string, Client, FormatReview, nat) -> Result<string>)

  /** The draws of the CHAOTIC policy, one per provider in iteration order. */
  predicate ValidDraws(draws: seq<int>, n: nat) {
    |draws| == n && forall j :: 0 <= j < n ==> ValidDraw(draws[j])
  }

  /** The total of a sequence of draws. */
  function Sum(s: seq<int>): int {
    if |s| == 0 then 0 else Sum(s[..|s| - 1]) + s[|s| - 1]
  }

  /** One review call; a provider without a review client fails (the missing key). */
  function ReviewCall(b: Backends, name: string, p: Provider, images: seq<string>): Result<FormatReview> {
    if p.review.None? then Err(MissingReviewClient) else b.review(name, p.review.value, images)
  }

  /** One joke call; a provider without a joke client fails (the missing key). */
  function JokeCall(b: Backends, name: string, p: Provider, review: FormatReview, k: nat): Result<string> {
    if p.joke.None? then Err(MissingJokeClient) else b.joke(name, p.joke.value, review, k)
  }

  predicate Covers(providers: map<string, Provider>, order: seq<string>) {
    forall j :: 0 <= j < |order| ==> order[j] in providers
  }

  datatype FeedbackPass = FeedbackPass(feedback: map<string, FormatReview>, failure: Option<Failure>)

  /** The review loop over the first `i` providers: each result is stored under the
      provider's name; the first failure stops the loop. */
  function FeedbackUpTo(b: Backends, providers: map<string, Provider>, order: seq<string>,
                        images: seq<string>, feedback: map<string, FormatReview>, i: nat): FeedbackPass
    requires i <= |order| && Covers(providers, order)
  {
    if i == 0 then FeedbackPass(feedback, None)
    else
      var prev := FeedbackUpTo(b, providers, order, images, feedback, i - 1);
      if prev.failure.Some? then prev
      else match ReviewCall(b, order[i - 1], providers[order[i - 1]], images)
        case Ok(r) => FeedbackPass(prev.feedback[order[i - 1] := r], None)
        case Err(e) => FeedbackPass(prev.feedback, Some(e))
  }

  lemma {:induction false} FeedbackSticks(b: Backends, providers: map<string, Provider>, order: seq<string>,
                                          images: seq<string>, feedback: map<string, FormatReview>, i: nat, j: nat)
    requires i <= j <= |order| && Covers(providers, order)
    requires FeedbackUpTo(b, providers, order, images, feedback, i).failure.Some?
    ensures FeedbackUpTo(b, providers, order, images, feedback, j) == FeedbackUpTo(b, providers, order, images, feedback, i)
    decreases j
  {
    if i < j {
      FeedbackSticks(b, providers, order, images, feedback, i, j - 1);
    }
  }

  /** The review loop succeeds exactly when every call succeeds. */
  lemma {:induction false} FeedbackSucceedsIff(b: Backends, providers: map<string, Provider>, order: seq<string>,
                                               images: seq<string>, feedback: map<string, FormatReview>, i: nat)
    requires i <= |order| && Covers(providers, order)
    ensures FeedbackUpTo(b, providers, order, images, feedback, i).failure.None? <==>
      forall j :: 0 <= j < i ==> ReviewCall(b, order[j], providers[order[j]], images).Ok?
  {
    if i > 0 {
      FeedbackSucceedsIff(b, providers, order, images, feedback, i - 1);
    }
  }

  /** After a successful review loop each provider's entry is its own review. */
  lemma {:induction false} FeedbackStores(b: Backends, providers: map<string, Provider>, order: seq<string>,
                                          images: seq<string>, feedback: map<string, FormatReview>, i: nat)
    requires i <= |order| && Covers(providers, order) && NoDuplicates(order)
    requires FeedbackUpTo(b, providers, order, images, feedback, i).failure.None?
    ensures forall j :: 0 <= j < i ==>
      ReviewCall(b, order[j], providers[order[j]], images).Ok?
      && order[j] in FeedbackUpTo(b, providers, order, images, feedback, i).feedback
      && FeedbackUpTo(b, providers, order, images, feedback, i).feedback[order[j]]
         == ReviewCall(b, order[j], providers[order[j]], images).value
  {
    if i > 0 {
      var prev := FeedbackUpTo(b, providers, order, images, feedback, i - 1);
      assert prev.failure.None?;
      FeedbackStores(b, providers, order, images, feedback, i - 1);
    }
  }

  /** The review loop keeps the entries of names it does not visit and adds no other name. */
  lemma {:induction false} FeedbackKeepsOthers(b: Backends, providers: map<string, Provider>, order: seq<string>,
                                               images: seq<string>, feedback: map<string, FormatReview>, i: nat)
    requires i <= |order| && Covers(providers, order)
    ensures forall k :: k in feedback && k !in order[..i] ==>
      k in FeedbackUpTo(b, providers, order, images, feedback, i).feedback
      && FeedbackUpTo(b, providers, order, images, feedback, i).feedback[k] == feedback[k]
    ensures forall k :: k in FeedbackUpTo(b, providers, order, images, feedback, i).feedback ==>
      k in feedback || k in order[..i]
  {
    if i > 0 {
      FeedbackKeepsOthers(b, providers, order, images, feedback, i - 1);
      assert order[..i] == order[..i - 1] + [order[i - 1]];
    }
  }

  datatype JokeBatch = JokeBatch(jokes: seq<string>, failure: Option<Failure>)

  /** `n` joke calls for one provider, in order; the first failure stops them. */
  function JokeCalls(b: Backends, name: string, p: Provider, review: FormatReview, n: nat): JokeBatch {
    if n == 0 then JokeBatch([], None)
    else
      var prev := JokeCalls(b, name, p, review, n - 1);
      if prev.failure.Some? then prev
      else match JokeCall(b, name, p, review, n - 1)
        case Ok(j) => JokeBatch(prev.jokes + [j], None)
        case Err(e) => JokeBatch(prev.jokes, Some(e))
  }

  lemma {:induction false} JokeCallsSticks(b: Backends, name: string, p: Provider, review: FormatReview, m: nat, n: nat)
    requires m <= n && JokeCalls(b, name, p, review, m).failure.Some?
    ensures JokeCalls(b, name, p, review, n) == JokeCalls(b, name, p, review, m)
  {
    if m < n {
      JokeCallsSticks(b, name, p, review, m, n - 1);
    }
  }

  /** `n` calls yield at most `n` jokes, exactly `n` when none fails. */
  lemma {:induction false} JokeCallsCount(b: Backends, name: string, p: Provider, review: FormatReview, n: nat)
    ensures |JokeCalls(b, name, p, review, n).jokes| <= n
    ensures JokeCalls(b, name, p, review, n).failure.None? ==> |JokeCalls(b, name, p, review, n).jokes| == n
  {
    if n > 0 {
      JokeCallsCount(b, name, p, review, n - 1);
    }
  }

  /** A provider without a joke client fails as soon as a joke is due. */
  lemma {:induction false} JokeCallsNeedClient(b: Backends, name: string, p: Provider, review: FormatReview, n: nat)
    requires p.joke.None? && n > 0
    ensures JokeCalls(b, name, p, review, n) == JokeBatch([], Some(MissingJokeClient))
  {
    if n > 1 {
      JokeCallsNeedClient(b, name, p, review, n - 1);
    }
  }

  /** Every listed provider has a review. */
  predicate Reviewed(feedback: map<string, FormatReview>, order: seq<string>) {
    forall j :: 0 <= j < |order| ==> order[j] in feedback
  }

  /** The joke loop over the first `i` providers: each gets its quota of joke calls,
      given its own review; the first failure stops the loop. */
  function JokesUpTo(b: Backends, providers: map<string, Provider>, order: seq<string>,
                     feedback: map<string, FormatReview>, mode: JokeMode, draws: seq<int>, i: nat): JokeBatch
    requires i <= |order| && Covers(providers, order) && Reviewed(feedback, order)
    requires ValidDraws(draws, |order|)
  {
    if i == 0 then JokeBatch([], None)
    else
      var prev := JokesUpTo(b, providers, order, feedback, mode, draws, i - 1);
      if prev.failure.Some? then prev
      else
        var name := order[i - 1];
        var batch := JokeCalls(b, name, providers[name], feedback[name],
                               JokeQuota(mode, HasIssues(feedback[name]), draws[i - 1]));
        JokeBatch(prev.jokes + batch.jokes, batch.failure)
  }

  lemma {:induction false} JokesSticks(b: Backends, providers: map<string, Provider>, order: seq<string>,
                                       feedback: map<string, FormatReview>, mode: JokeMode, draws: seq<int>, i: nat, j: nat)
    requires i <= j <= |order| && Covers(providers, order) && Reviewed(feedback, order)
    requires ValidDraws(draws, |order|)
    requires JokesUpTo(b, providers, order, feedback, mode, draws, i).failure.Some?
    ensures JokesUpTo(b, providers, order, feedback, mode, draws, j) == JokesUpTo(b, providers, order, feedback, mode, draws, i)
    decreases j
  {
    if i < j {
      JokesSticks(b, providers, order, feedback, mode, draws, i, j - 1);
    }
  }

  /** One more provider in the joke loop appends that provider's batch after the jokes of
      the providers before it; a batch without failure holds exactly the provider's quota,
      which in CHAOTIC mode is its own draw of one to three. */
  lemma JokesUpToStep(b: Backends, providers: map<string, Provider>, order: seq<string>,
                      feedback: map<string, FormatReview>, mode: JokeMode, draws: seq<int>, i: nat)
    requires i < |order| && Covers(providers, order) && Reviewed(feedback, order)
    requires ValidDraws(draws, |order|)
    requires JokesUpTo(b, providers, order, feedback, mode, draws, i).failure.None?
    ensures var batch := JokeCalls(b, order[i], providers[order[i]], feedback[order[i]],
                                   JokeQuota(mode, HasIssues(feedback[order[i]]), draws[i]));
      JokesUpTo(b, providers, order, feedback, mode, draws, i + 1)
      == JokeBatch(JokesUpTo(b, providers, order, feedback, mode, draws, i).jokes + batch.jokes, batch.failure)
      && (batch.failure.None? ==> |batch.jokes| == JokeQuota(mode, HasIssues(feedback[order[i]]), draws[i]))
      && (batch.failure.None? && mode == CHAOTIC ==> |batch.jokes| == draws[i] && 1 <= |batch.jokes| <= 3)
  {
    JokeCallsCount(b, order[i], providers[order[i]], feedback[order[i]],
                   JokeQuota(mode, HasIssues(feedback[order[i]]), draws[i]));
  }

  /** Number of the first `i` providers whose review has issues. */
  function IssueProviders(feedback: map<string, FormatReview>, order: seq<string>, i: nat): nat
    requires i <= |order| && Reviewed(feedback, order)
  {
    if i == 0 then 0
    else IssueProviders(feedback, order, i - 1) + (if HasIssues(feedback[order[i - 1]]) then 1 else 0)
  }

  /** Without failures the joke loop yields exactly the policy's jokes: none in NONE
      mode, one per provider whose review has issues in DEFAULT mode, and in CHAOTIC mode
      each provider's own draw of one to three, so the total of the draws. */
  lemma {:induction false} JokesUpToCount(b: Backends, providers: map<string, Provider>, order: seq<string>,
                                          feedback: map<string, FormatReview>, mode: JokeMode, draws: seq<int>, i: nat)
    requires i <= |order| && Covers(providers, order) && Reviewed(feedback, order)
    requires ValidDraws(draws, |order|)
    requires JokesUpTo(b, providers, order, feedback, mode, draws, i).failure.None?
    ensures mode == NONE ==> JokesUpTo(b, providers, order, feedback, mode, draws, i).jokes == []
    ensures mode == DEFAULT ==> |JokesUpTo(b, providers, order, feedback, mode, draws, i).jokes| == IssueProviders(feedback, order, i)
    ensures mode == CHAOTIC ==> |JokesUpTo(b, providers, order, feedback, mode, draws, i).jokes| == Sum(draws[..i])
    ensures mode == CHAOTIC ==> i <= |JokesUpTo(b, providers, order, feedback, mode, draws, i).jokes| <= 3 * i
  {
    if i > 0 {
      assert draws[..i][..i - 1] == draws[..i - 1];
      var prev := JokesUpTo(b, providers, order, feedback, mode, draws, i - 1);
      assert prev.failure.None?;
      JokesUpToCount(b, providers, order, feedback, mode, draws, i - 1);
      var name := order[i - 1];
      JokeCallsCount(b, name, providers[name], feedback[name],
                     JokeQuota(mode, HasIssues(feedback[name]), draws[i - 1]));
    }
  }

  /** In NONE mode no joke client is ever called, so the joke loop cannot fail. */
  lemma {:induction false} NoneModeCallsNoJokes(b: Backends, providers: map<string, Provider>, order: seq<string>,
                                                feedback: map<string, FormatReview>, draws: seq<int>, i: nat)
    requires i <= |order| && Covers(providers, order) && Reviewed(feedback, order)
    requires ValidDraws(draws, |order|)
    ensures JokesUpTo(b, providers, order, feedback, NONE, draws, i) == JokeBatch([], None)
  {
    if i > 0 {
      NoneModeCallsNoJokes(b, providers, order, feedback, draws, i - 1);
    }
  }

  datatype StageResult = StageResult(state: ReviewState, failure: Option<Failure>)

  /** The review node as a function of the state it starts from: reviews by every
      provider, then jokes by every provider; any failure ends the node with the
      state reached so far. Images are kept and jokes are only ever appended. */
  function ReviewStage(b: Backends, reg: Registry, review: ReviewState, mode: JokeMode, draws: seq<int>): (st: StageResult)
    requires WellFormed(reg) && ValidDraws(draws, |reg.order|)
    ensures st.state.documentImages == review.documentImages
    ensures review.jokes <= st.state.jokes
  {
    var images := review.documentImages;
    var fp := FeedbackUpTo(b, reg.providers, reg.order, images, review.reviewFeedback, |reg.order|);
    if fp.failure.Some? then StageResult(review.(reviewFeedback := fp.feedback), fp.failure)
    else
      FeedbackStores(b, reg.providers, reg.order, images, review.reviewFeedback, |reg.order|);
      var jb := JokesUpTo(b, reg.providers, reg.order, fp.feedback, mode, draws, |reg.order|);
      StageResult(review.(reviewFeedback := fp.feedback, jokes := review.jokes + jb.jokes), jb.failure)
  }

  /** After a successful review node every provider's feedback is its own review, and
      feedback under other names is untouched whatever the outcome. */
  lemma ReviewStageRecordsFeedback(b: Backends, reg: Registry, review: ReviewState, mode: JokeMode, draws: seq<int>)
    requires WellFormed(reg) && ValidDraws(draws, |reg.order|)
    ensures var st := ReviewStage(b, reg, review, mode, draws);
      (st.failure.None? ==> forall j :: 0 <= j < |reg.order| ==>
         ReviewCall(b, reg.order[j], reg.providers[reg.order[j]], review.documentImages).Ok?
         && reg.order[j] in st.state.reviewFeedback
         && st.state.reviewFeedback[reg.order[j]] == ReviewCall(b, reg.order[j], reg.providers[reg.order[j]], review.documentImages).value)
      && (forall k :: k in review.reviewFeedback && k !in reg.order ==>
            k in st.state.reviewFeedback && st.state.reviewFeedback[k] == review.reviewFeedback[k])
  {
    var n := |reg.order|;
    var fp := FeedbackUpTo(b, reg.providers, reg.order, review.documentImages, review.reviewFeedback, n);
    if fp.failure.None? {
      FeedbackStores(b, reg.providers, reg.order, review.documentImages, review.reviewFeedback, n);
    }
    FeedbackKeepsOthers(b, reg.providers, reg.order, review.documentImages, review.reviewFeedback, n);
    assert reg.order[..n] == reg.order;
  }

  /** One failing review aborts the whole node before any joke is requested. */
  lemma ReviewFailureAborts(b: Backends, reg: Registry, review: ReviewState, mode: JokeMode, draws: seq<int>, j: nat)
    requires WellFormed(reg) && ValidDraws(draws, |reg.order|)
    requires j < |reg.order| && ReviewCall(b, reg.order[j], reg.providers[reg.order[j]], review.documentImages).Err?
    ensures ReviewStage(b, reg, review, mode, draws).failure.Some?
    ensures ReviewStage(b, reg, review, mode, draws).state.jokes == review.jokes
  {
    FeedbackSucceedsIff(b, reg.providers, reg.order, review.documentImages, review.reviewFeedback, |reg.order|);
  }

  /** The jokes a successful review node appends follow the policy; in NONE mode nothing
      is appended and the node fails only when a review fails. */
  lemma ReviewStageJokes(b: Backends, reg: Registry, review: ReviewState, mode: JokeMode, draws: seq<int>)
    requires WellFormed(reg) && ValidDraws(draws, |reg.order|)
    ensures var st := ReviewStage(b, reg, review, mode, draws);
      var added := st.state.jokes[|review.jokes|..];
      var n := |reg.order|;
      (mode == NONE ==>
         st.state.jokes == review.jokes
         && (st.failure.None? <==> forall j :: 0 <= j < n ==> ReviewCall(b, reg.order[j], reg.providers[reg.order[j]], review.documentImages).Ok?))
      && (st.failure.None? && mode == CHAOTIC ==> |added| == Sum(draws) && n <= |added| <= 3 * n)
      && (st.failure.None? && mode == DEFAULT ==>
            Reviewed(st.state.reviewFeedback, reg.order) && |added| == IssueProviders(st.state.reviewFeedback, reg.order, n))
  {
    var n := |reg.order|;
    var images := review.documentImages;
    FeedbackSucceedsIff(b, reg.providers, reg.order, images, review.reviewFeedback, n);
    var fp := FeedbackUpTo(b, reg.providers, reg.order, images, review.reviewFeedback, n);
    if fp.failure.None? {
      FeedbackStores(b, reg.providers, reg.order, images, review.reviewFeedback, n);
      var jb := JokesUpTo(b, reg.providers, reg.order, fp.feedback, mode, draws, n);
      var st := ReviewStage(b, reg, review, mode, draws);
      assert st.state.jokes == review.jokes + jb.jokes;
      assert st.state.jokes[|review.jokes|..] == jb.jokes;
      if mode == NONE {
        NoneModeCallsNoJokes(b, reg.providers, reg.order, fp.feedback, draws, n);
      }
      if jb.failure.None? {
        JokesUpToCount(b, reg.providers, reg.order, fp.feedback, mode, draws, n);
        assert draws[..n] == draws;
      }
    }
  }

  // ---------------------------------------------------------------------------
  // The orchestrator
  // ---------------------------------------------------------------------------

  /** Where the router sends the run after the review node. */
  datatype Route = ToCommentPr | ToEnd

  /** The graph nodes, as a run visits them. */
  datatype Node = ExtractText | ReviewLlm | CommentPr

  class ReviewPdf {
    var providersConfig: map<string, ProviderConfig>
    var providers: map<string, Provider>
    /** The provider names in dictionary insertion order. */
    var order: seq<string>

    function Snapshot(): Registry
      reads this
    {
      Registry(providers, providersConfig, order)
    }

    ghost predicate Valid()
      reads this
    {
      WellFormed(Snapshot())
    }

    /** Registers every configuration that carries a provider name, in order. */
    constructor (providerConfigs: seq<ProviderConfig>)
      ensures Snapshot() == BuildRegistry(providerConfigs)
      ensures Valid()
    {
      var ps: map<string, Provider> := map[];
      var cfgs: map<string, ProviderConfig> := map[];
      var names: seq<string> := [];
      var i := 0;
      while i < |providerConfigs|
        invariant 0 <= i <= |providerConfigs|
        invariant Registry(ps, cfgs, names) == BuildRegistry(providerConfigs[..i])
      {
        var c := providerConfigs[i];
        assert providerConfigs[..i + 1][..i] == providerConfigs[..i];
        match c {
        case VertexAIConfig(name, projectId, location) =>
          if name !in ps {
            names := names + [name];
          }
          ps := ps[name := Provider(None, None)];
          cfgs := cfgs[name := c];
          ps := ps[name := ps[name].(review := Some(ReviewFeedbackChain(projectId, location)))];
          ps := ps[name := ps[name].(joke := Some(JokeChain(projectId, location)))];
        case OtherConfig(optName, review, joke) =>
          if optName.Some? {
            var name := optName.value;
            if name !in ps {
              names := names + [name];
            }
            ps := ps[name := Provider(None, None)];
            cfgs := cfgs[name := c];
            if review.Some? {
              ps := ps[name := ps[name].(review := Some(FactoryClient(review.value, name)))];
            }
            if joke.Some? {
              ps := ps[name := ps[name].(joke := Some(FactoryClient(joke.value, name)))];
            }
          }
        }
        i := i + 1;
      }
      assert providerConfigs[..i] == providerConfigs;
      RegistryWellFormed(providerConfigs);
      providersConfig, providers, order := cfgs, ps, names;
    }

    /** Stores the extracted image of the PDF named by the configuration; a failed
        extraction leaves the state as it was. */
    method ExtractTextNode(s: ControlState, b: Backends) returns (failure: Option<Failure>)
      modifies s
      ensures b.extract(old(s.appConfig.pdfPath)).Ok? ==>
        failure.None? && s.review == old(s.review).(documentImages := [b.extract(old(s.appConfig.pdfPath)).value])
      ensures b.extract(old(s.appConfig.pdfPath)).Err? ==>
        failure == Some(b.extract(old(s.appConfig.pdfPath)).failure) && s.review == old(s.review)
      ensures s.providersConfig == old(s.providersConfig) && s.appConfig == old(s.appConfig)
    {
      var result := b.extract(s.appConfig.pdfPath);
      match result
      case Ok(image) =>
        s.review := s.review.(documentImages := [image]);
        failure := None;
      case Err(e) =>
        failure := Some(e);
    }

    /** Appends the outcome of one joke call to the state. */
    method InvokeJoke(s: ControlState, b: Backends, name: string, p: Provider, review: FormatReview, k: nat)
      returns (failure: Option<Failure>)
      modifies s
      ensures JokeCall(b, name, p, review, k).Ok? ==>
        failure.None? && s.review == old(s.review).(jokes := old(s.review.jokes) + [JokeCall(b, name, p, review, k).value])
      ensures JokeCall(b, name, p, review, k).Err? ==>
        failure == Some(JokeCall(b, name, p, review, k).failure) && s.review == old(s.review)
      ensures s.providersConfig == old(s.providersConfig) && s.appConfig == old(s.appConfig)
    {
      if p.joke.None? {
        failure := Some(MissingJokeClient);
      } else {
        var result := b.joke(name, p.joke.value, review, k);
        match result
        case Ok(joke) =>
          s.review := s.review.(jokes := s.review.jokes + [joke]);
          failure := None;
        case Err(e) =>
          failure := Some(e);
      }
    }

    /** The review loop: every provider reviews the images, in iteration order, and its
        result is stored under its name; the first failure stops the loop. */
    method CollectFeedback(s: ControlState, b: Backends) returns (failure: Option<Failure>)
      requires Covers(providers, order)
      modifies s
      ensures FeedbackUpTo(b, providers, order, old(s.review.documentImages), old(s.review.reviewFeedback), |order|)
              == FeedbackPass(s.review.reviewFeedback, failure)
      ensures s.review == old(s.review).(reviewFeedback := s.review.reviewFeedback)
      ensures s.providersConfig == old(s.providersConfig) && s.appConfig == old(s.appConfig)
    {
      var images := s.review.documentImages;
      failure := None;
      var i := 0;
      while i < |order| && failure.None?
        invariant 0 <= i <= |order|
        invariant FeedbackUpTo(b, providers, order, images, old(s.review.reviewFeedback), i)
                  == FeedbackPass(s.review.reviewFeedback, failure)
        invariant s.review == old(s.review).(reviewFeedback := s.review.reviewFeedback)
        invariant s.providersConfig == old(s.providersConfig) && s.appConfig == old(s.appConfig)
      {
        var name := order[i];
        var provider := providers[name];
        if provider.review.None? {
          failure := Some(MissingReviewClient);
        } else {
          var result := b.review(name, provider.review.value, s.review.documentImages);
          match result
          case Ok(r) =>
            s.review := s.review.(reviewFeedback := s.review.reviewFeedback[name := r]);
          case Err(e) =>
            failure := Some(e);
        }
        i := i + 1;
      }
      if failure.Some? {
        FeedbackSticks(b, providers, order, images, old(s.review.reviewFeedback), i, |order|);
      }
    }

    /** The jokes of one provider: `draw` calls in CHAOTIC mode, one call in DEFAULT mode
        when its review has issues, none otherwise; the first failure stops the calls. */
    method ProviderJokes(s: ControlState, b: Backends, name: string, provider: Provider, review: FormatReview,
                         mode: JokeMode, draw: int) returns (failure: Option<Failure>)
      requires mode == CHAOTIC ==> ValidDraw(draw)
      modifies s
      ensures var batch := JokeCalls(b, name, provider, review, JokeQuota(mode, HasIssues(review), draw));
        s.review == old(s.review).(jokes := old(s.review.jokes) + batch.jokes) && failure == batch.failure
      ensures s.providersConfig == old(s.providersConfig) && s.appConfig == old(s.appConfig)
    {
      failure := None;
      if mode == CHAOTIC {
        var jokeCount := draw;
        ghost var batch: seq<string> := [];
        var k := 0;
        while k < jokeCount && failure.None?
          invariant 0 <= k <= jokeCount
          invariant JokeCalls(b, name, provider, review, k) == JokeBatch(batch, failure)
          invariant s.review == old(s.review).(jokes := old(s.review.jokes) + batch)
          invariant s.providersConfig == old(s.providersConfig) && s.appConfig == old(s.appConfig)
        {
          failure := InvokeJoke(s, b, name, provider, review, k);
          if failure.None? {
            batch := batch + [JokeCall(b, name, provider, review, k).value];
          }
          k := k + 1;
        }
        if failure.Some? {
          JokeCallsSticks(b, name, provider, review, k, jokeCount);
        }
      } else if mode == DEFAULT && HasIssues(review) {
        failure := InvokeJoke(s, b, name, provider, review, 0);
      }
    }

    /** The joke loop: every provider, in iteration order, gets the jokes its own review
        earns under the mode; the first failure stops the loop. */
    method CollectJokes(s: ControlState, b: Backends, draws: seq<int>) returns (failure: Option<Failure>)
      requires Covers(providers, order) && ValidDraws(draws, |order|) && Reviewed(s.review.reviewFeedback, order)
      modifies s
      ensures var jb := JokesUpTo(b, providers, order, old(s.review.reviewFeedback), old(s.appConfig.jokeMode), draws, |order|);
        s.review == old(s.review).(jokes := old(s.review.jokes) + jb.jokes) && failure == jb.failure
      ensures s.providersConfig == old(s.providersConfig) && s.appConfig == old(s.appConfig)
    {
      var mode := s.appConfig.jokeMode;
      ghost var feedback := s.review.reviewFeedback;
      ghost var added: seq<string> := [];
      failure := None;
      var i := 0;
      while i < |order| && failure.None?
        invariant 0 <= i <= |order|
        invariant Reviewed(feedback, order) && s.review.reviewFeedback == feedback
        invariant JokesUpTo(b, providers, order, feedback, mode, draws, i) == JokeBatch(added, failure)
        invariant s.review.jokes == old(s.review.jokes) + added
        invariant s.review.documentImages == old(s.review.documentImages)
        invariant s.providersConfig == old(s.providersConfig) && s.appConfig == old(s.appConfig)
      {
        var name := order[i];
        var provider := providers[name];
        var review := s.review.reviewFeedback[name];
        ghost var batch := JokeCalls(b, name, provider, review, JokeQuota(mode, HasIssues(review), draws[i]));
        JokesUpToStep(b, providers, order, feedback, mode, draws, i);
        failure := ProviderJokes(s, b, name, provider, review, mode, draws[i]);
        assert s.review.jokes == old(s.review.jokes) + (added + batch.jokes);
        added := added + batch.jokes;
        i := i + 1;
      }
      if failure.Some? {
        JokesSticks(b, providers, order, feedback, mode, draws, i, |order|);
      }
    }

    /** The review node: the review loop, then, if it succeeded, the joke loop, and the
        report the node writes, which is the review state without its images. Any
        failure ends the node with no report. */
    method ReviewLlmNode(s: ControlState, b: Backends, draws: seq<int>) returns (failure: Option<Failure>, report: Option<Report>)
      requires Valid() && ValidDraws(draws, |order|)
      modifies s
      ensures var st := ReviewStage(b, Snapshot(), old(s.review), old(s.appConfig.jokeMode), draws);
        s.review == st.state && failure == st.failure
      ensures report == (if failure.None? then Some(ReportOf(s.review)) else None)
      ensures s.providersConfig == old(s.providersConfig) && s.appConfig == old(s.appConfig)
    {
      failure := CollectFeedback(s, b);
      if failure.Some? {
        report := None;
        return;
      }
      FeedbackStores(b, providers, order, old(s.review.documentImages), old(s.review.reviewFeedback), |order|);
      failure := CollectJokes(s, b, draws);
      report := if failure.None? then Some(ReportOf(s.review)) else None;
    }

    /** The comment node: its commenting branch is switched off, so it hands the state on unchanged. */
    method CommentPrNode(s: ControlState) returns (r: ControlState)
      ensures r == s
    {
      r := s;
    }

    /** The router after the review node: the run ends whether or not a git provider is configured. */
    function ShouldCommentOnPr(s: ControlState): (next: Route)
      reads s
      ensures next == ToEnd
    {
      match s.providersConfig.gitProvider
      case None => ToEnd
      case Some(_) => ToEnd
    }

    /** A whole run: the initial state (empty review state, the configuration's git
        provider), extraction, the review node, and the router, which ends the run. */
    method Run(config: RunConfig, b: Backends, draws: seq<int>)
      returns (final: ControlState, failure: Option<Failure>, report: Option<Report>, visited: seq<Node>)
      requires Valid() && ValidDraws(draws, |order|)
      ensures fresh(final)
      ensures final.appConfig == config.appConfig
      ensures final.providersConfig == ControllableConfig(config.gitProvider, VertexAiProvider)
      ensures b.extract(config.appConfig.pdfPath).Err? ==>
        failure == Some(b.extract(config.appConfig.pdfPath).failure) && final.review == EmptyReview
        && report.None? && visited == [ExtractText]
      ensures b.extract(config.appConfig.pdfPath).Ok? ==>
        var st := ReviewStage(b, Snapshot(), EmptyReview.(documentImages := [b.extract(config.appConfig.pdfPath).value]),
                              config.appConfig.jokeMode, draws);
        final.review == st.state && failure == st.failure
        && report == (if failure.None? then Some(ReportOf(final.review)) else None)
        && visited == [ExtractText, ReviewLlm]
    {
      final := new ControlState(EmptyReview, ControllableConfig(config.gitProvider, VertexAiProvider), config.appConfig);
      visited := [ExtractText];
      failure := ExtractTextNode(final, b);
      if failure.Some? {
        report := None;
        return;
      }
      visited := visited + [ReviewLlm];
      failure, report := ReviewLlmNode(final, b, draws);
      var next := ShouldCommentOnPr(final);
      assert next == ToEnd;
    }
  }
}
