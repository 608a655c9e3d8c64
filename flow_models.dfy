/** Records shared by the two single-provider flows: the application configuration,
    the review state, the PR comment payload, and the fail-soft joke sequence their
    review nodes append. */
module FlowModels {
  import opened Wrappers
  import opened AppConfig
  import opened Heuristics

  /** The application configuration; the location defaults to Environment.DefaultLocation and the
      joke mode to DEFAULT. */
  datatype CriticatConfig = CriticatConfig(
    pdfPath: string,
    projectId: string,
    location: string,
    githubToken: string,
    repository: string,
    prNumber: int,
    jokeMode: JokeMode)

  /** The review state of one run: the page image, the raw feedback text, the heuristic's
      verdict and count, and the jokes so far. */
  datatype ReviewState = ReviewState(
    documentImage: Option<string>,
    reviewFeedback: Option<string>,
    hasIssues: bool,
    issueCount: int,
    jokes: seq<string>)

  /** The state a run starts from: no image, no feedback, no issues, no jokes. */
  const InitialState: ReviewState := ReviewState(None, None, false, 0, [])

  /** What is posted to the pull request. */
  datatype PrCommentPayload = PrCommentPayload(repository: string, prNumber: int, body: string, githubToken: string)

  /** The joke model, asked with the issue count; the second argument numbers the calls
      of one node so that repeated calls may answer differently. */
  type JokeModel = (nat, nat) -> Result<string>

  /** The first `n` jokes of a node: each call through the fail-soft wrapper, in order. */
  function CatJokes(model: JokeModel, issueCount: nat, n: nat): seq<string> {
    if n == 0 then [] else CatJokes(model, issueCount, n - 1) + [GenerateCatJoke(model(issueCount, n - 1))]
  }

  /** `n` calls give `n` jokes. */
  lemma {:induction false} CatJokesLength(model: JokeModel, issueCount: nat, n: nat)
    ensures |CatJokes(model, issueCount, n)| == n
  {
    if n > 0 {
      CatJokesLength(model, issueCount, n - 1);
    }
  }

  /** The k-th joke is the fail-soft answer to the k-th call, whatever calls follow it. */
  lemma {:induction false} CatJokeAt(model: JokeModel, issueCount: nat, n: nat, k: nat)
    requires k < n
    ensures k < |CatJokes(model, issueCount, n)|
    ensures CatJokes(model, issueCount, n)[k] == GenerateCatJoke(model(issueCount, k))
  {
    var prev := CatJokes(model, issueCount, n - 1);
    CatJokesLength(model, issueCount, n - 1);
    assert CatJokes(model, issueCount, n) == prev + [GenerateCatJoke(model(issueCount, n - 1))];
    if k < n - 1 {
      CatJokeAt(model, issueCount, n - 1, k);
      assert CatJokes(model, issueCount, n)[k] == prev[k];
    }
  }

  /** The joke loop of a single-provider review node: `n` fail-soft joke calls. */
  method TellJokes(model: JokeModel, issueCount: nat, n: nat) returns (jokes: seq<string>)
    ensures jokes == CatJokes(model, issueCount, n)
  {
    jokes := [];
    var k := 0;
    while k < n
      invariant 0 <= k <= n
      invariant jokes == CatJokes(model, issueCount, k)
    {
      var joke := GenerateCatJoke(model(issueCount, k));
      jokes := jokes + [joke];
      k := k + 1;
    }
  }

  /** The jokes a single-provider review node appends: none in NONE mode, one in DEFAULT
      mode exactly when issues were found, and the drawn one to three in CHAOTIC mode. */
  lemma JokeCountFollowsPolicy(model: JokeModel, issueCount: nat, mode: JokeMode, hasIssues: bool, draw: int)
    requires mode == CHAOTIC ==> ValidDraw(draw)
    ensures var n := |CatJokes(model, issueCount, JokeQuota(mode, hasIssues, draw))|;
      (mode == NONE ==> n == 0)
      && (mode == DEFAULT ==> (n == 1 <==> hasIssues) && (n == 0 <==> !hasIssues))
      && (mode == CHAOTIC ==> n == draw && 1 <= n <= 3)
  {
    CatJokesLength(model, issueCount, JokeQuota(mode, hasIssues, draw));
  }
}
