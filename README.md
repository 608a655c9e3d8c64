# criticat review pipeline, modelled in Dafny

criticat reviews the layout of a PDF (typically a LaTeX build) with a vision LLM and
reports formatting problems on a GitHub pull request, seasoned with sarcastic cat jokes.
This project models the decision logic of that pipeline. The PDF rasteriser, the model
calls and the GitHub call are oracles: function values that may fail.

It covers:

- **Review predicates** (`formatting.dfy`, module `Formatting`). These are the structured
  review records: the 21 category tags, the four issue statuses, confidence 1..5, and the
  two folds `has_issues` and `issue_count`.
- **Live orchestrator** (`review_use_case.dfy`, module `ReviewUseCase`). The class `ReviewPdf`
  does three things:
  - it builds a provider registry from provider configurations;
  - it runs the three-node graph extract_text -> review_llm -> comment_pr or end, over a
    `ControlState` object that the nodes update in place;
  - it applies the joke policy (NONE / DEFAULT / CHAOTIC) to every provider in turn.
- **Two single-provider flows.** `src_flow.dfy` (module `SrcFlow`) models
  `src/criticat/flow.py`, which comments only when the pull request is fully identified.
  `root_flow.dfy` (module `RootFlow`) models `criticat/flow.py`, which comments whenever
  issues were found. Their shared records are in `flow_models.dfy` (module `FlowModels`).
  The joke policy itself is in `app_config.dfy` (module `AppConfig`).
- **Keyword heuristic and fail-soft joke** (`heuristics.dfy`, module `Heuristics`). This is
  `analyze_review_feedback` and `generate_cat_joke`. `src/criticat/llm.py` and
  `criticat/llm.py` are identical, so one module models both.
- **PR comment body** (`pr_comment.dfy`, module `PrComment`). This is `format_pr_comment` and
  its template.
- **Cloud settings resolution** (`environment.dfy`, module `Environment`). This is the
  fallback chains for the project id and the location. The settings and the environment
  are parameters.

The model follows the code as written:

- In `src/criticat/use_cases/review.py` a failing review call or joke call is not caught.
  The review node therefore aborts at the first failure. Providers do not degrade one by
  one, and the jokes there are not fail-soft.
  - A provider whose registry entry lacks a review or joke client fails with a missing-key
    error when that client is needed.
  - `ReviewStage` states all of this, and `ReviewFailureAborts` proves it.
- Extraction yields the first page only, as a single image string
  (`src/criticat/document.py:73`). The orchestrator assigns that string itself to its
  image-list field (`src/criticat/use_cases/review.py:92-93`); the model stores it as a
  one-element image list instead (see "## Left out").
- The comment branch of the orchestrator is switched off, so a run always ends after the
  review node.
- `src/criticat/flow.py` cannot be imported as written. Its imports name things that their modules do not define:
  - `analyze_review_feedback` and `get_review_llm` from `criticat.infrastructure.llms.vertex_ai`;
  - `comment_on_pr` and `format_pr_comment` from `criticat.infrastructure.github.pull_request`, where they exist only as methods of `PullRequestService`;
  - `FlowState`, `JokeMode` and `PRCommentPayload` from `criticat.models.models`, which defines only `VertexAIConfig`.

  It is modelled from its own text:
  - the review answer is free text, analysed by the keyword heuristic;
  - the pull-request target fields are optional, because the router tests each of them
    for absence.
- The comment formatter of `criticat/flow.py` lives in `criticat/github.py`. That file is
  not part of this model, so the formatter is a parameter (`RootFlow.Backends.format`).

## Model

| member | source | states |
|---|---|---|
| Formatting.FindCategory | src/criticat/models/formatting.py:5-27 | a found category is in the list and carries the searched tag; when none is found, no category of the list carries it |
| Formatting.ParseCategoryName | src/criticat/models/formatting.py:5-27 | a name is accepted exactly when it is one of the category tags, and it is accepted as the category with that tag |
| Formatting.CategoryIndex | src/criticat/models/formatting.py:5-27 | every category sits at its own position in the declared list of 21 |
| Formatting.AllCategoriesComplete | src/criticat/models/formatting.py:5-27 | the declared list holds every category |
| Formatting.TagInjective | src/criticat/models/formatting.py:5-27 | no two categories share a tag |
| Formatting.CategoryRoundTrip | src/criticat/models/formatting.py:5-27 | parsing the tag of a category gives that category back |
| Formatting.ParseStatus | src/criticat/models/formatting.py:63 | a status is accepted exactly when it is one of "critical", "error", "warning", "info", and it is accepted as the status with that tag |
| Formatting.ValidateIssue | src/criticat/models/formatting.py:30-89 | an issue validates exactly when its status is one of the four literals and its confidence lies in 1..5; then every field is kept and an absent example or cause becomes ""; otherwise validation fails |
| Formatting.AnyBlockingIff | src/criticat/models/formatting.py:109 | the inner `any` holds exactly when some issue of the category is critical or error |
| Formatting.HasIssuesIff | src/criticat/models/formatting.py:107-111 | `has_issues` holds exactly when some issue of some category is critical or error |
| Formatting.NoBlockingMeansNoIssues | src/criticat/models/formatting.py:107-111 | a review whose issues are all warnings or infos, or that has none, has no issues |
| Formatting.IssueCountIsTotal | src/criticat/models/formatting.py:113-117 | `issue_count` is the number of all issues of every status, across all categories |
| Formatting.FoldsOverConcat | src/criticat/models/formatting.py:107-117 | both folds distribute over a split of the category list: counts add, and has-issues is the disjunction |
| Formatting.HasIssuesCountsOne | src/criticat/models/formatting.py:107-117 | `has_issues` implies `issue_count >= 1` |
| Heuristics.Lower | src/criticat/llm.py:96 | lower-casing keeps the length |
| Heuristics.LowerIdempotent | src/criticat/llm.py:96 | lower-casing twice is lower-casing once |
| Heuristics.ContainsIff | src/criticat/llm.py:97-100 | the substring test holds exactly when the word starts at some offset of the text |
| Heuristics.CountPositiveIff | src/criticat/llm.py:103 | the non-overlapping occurrence count is positive exactly when the word occurs |
| Heuristics.AnyKeywordIff | src/criticat/llm.py:97-100 | the `any` over the keyword list holds exactly when some keyword of the list occurs |
| Heuristics.AnalyzeReviewFeedback | src/criticat/llm.py:85-108 | has_issues holds exactly when the lower-cased text contains "issue", "problem", "fix", "correct" or "improve"; a positive count of "issue" plus "problem" is the issue count; when that count is 0 the issue count is exactly 1 with issues and 0 without; so has_issues implies a count of at least 1, and no issues implies a count of 0 |
| Heuristics.AnalysisIsCaseInsensitive | criticat/llm.py:96 | analysing the lower-cased text gives the same verdict and count as analysing the text |
| Heuristics.LeadLenIsRun | src/criticat/llm.py:126 | the leading run that strip removes is all whitespace |
| Heuristics.LeadLenStops | src/criticat/llm.py:126 | the leading run stops at the first character that is not whitespace |
| Heuristics.TrailLenIsRun | src/criticat/llm.py:126 | the trailing run that strip removes is all whitespace, and it stops at the last character that is not whitespace |
| Heuristics.StripTrims | src/criticat/llm.py:126 | the stripped text is the slice right after the leading whitespace, is followed only by whitespace, and neither begins nor ends with whitespace |
| Heuristics.StripIdempotent | src/criticat/llm.py:126 | stripping twice is stripping once |
| Heuristics.GenerateCatJokeIsFailSoft | criticat/llm.py:122-131 | a failed model call gives the fixed fallback joke; a successful one gives the model's text between its leading and trailing whitespace, which neither begins nor ends with whitespace |
| PrComment.QuoteAll | src/criticat/infrastructure/github/pull_request.py:65-67 | one quote line per joke |
| PrComment.QuoteAllAt | src/criticat/infrastructure/github/pull_request.py:65-67 | quote line i is "> " followed by joke i, so the jokes keep their order |
| PrComment.JoinPartAt | src/criticat/infrastructure/github/pull_request.py:65 | in a joined list every part stands verbatim at its offset |
| PrComment.JoinSepAfter | src/criticat/infrastructure/github/pull_request.py:65 | consecutive parts of a joined list are separated by exactly one separator |
| PrComment.JoinLength | src/criticat/infrastructure/github/pull_request.py:65 | a joined list is as long as its parts plus one separator between each two |
| PrComment.JoinOffsetMonotone | src/criticat/infrastructure/github/pull_request.py:65 | a later part starts no earlier than an earlier part |
| PrComment.JokesSection | src/criticat/infrastructure/github/pull_request.py:63-67 | the jokes section is empty exactly when there are no jokes |
| PrComment.JokeQuotedInSection | src/criticat/infrastructure/github/pull_request.py:64-67 | joke i appears as its own quote line right after the section heading, at its position in the newline-joined list |
| PrComment.FormatPrComment | src/criticat/infrastructure/llms/prompts.py:105-114 | the body opens with the review header, holds the feedback verbatim right after it, then the blank-line gap, then the jokes section just before the footer, and closes with the "Meow." footer line; its length is the sum of the pieces, so nothing inside the feedback or the jokes is expanded |
| PrComment.NoJokesNoSection | src/criticat/infrastructure/github/pull_request.py:63-71 | the body is header, feedback and footer only exactly when there are no jokes |
| Environment.GcpProjectId | src/criticat/models/config/environment.py:51-76 | the setting when it is non-empty; otherwise CLOUDSDK_CORE_PROJECT when it is non-empty; otherwise GOOGLE_CLOUD_PROJECT as found, possibly absent or empty |
| Environment.ProjectIdIsOrChain | src/criticat/models/config/environment.py:58-67 | the resolution is the Python `or` chain over the three sources, in that order |
| Environment.ProjectIdFoundIff | src/criticat/models/config/environment.py:69-76 | a usable project id is found exactly when one of the three sources holds one |
| Environment.ProjectIdIgnoresGcloudProject | src/criticat/models/config/environment.py:69-76 | GCLOUD_PROJECT never changes the result, although the warning names it |
| Environment.GcpLocation | src/criticat/models/config/environment.py:79-94 | a location setting other than "us-central1" is kept; the default gives way to a non-empty CLOUDSDK_COMPUTE_REGION and stays otherwise |
| Environment.LocationNonEmpty | src/criticat/models/config/environment.py:86-94 | the location is non-empty whenever the setting is |
| Environment.DefaultSettingsDeferToEnvironment | src/criticat/models/config/environment.py:25-26 | with the default settings (no project id, "us-central1") both values come from the Cloud SDK variables or the default region |
| FlowModels.CatJokesLength | src/criticat/flow.py:90-92 | n joke calls give n jokes |
| FlowModels.CatJokeAt | src/criticat/flow.py:90-92 | joke k is the fail-soft answer to call k, in call order |
| FlowModels.TellJokes | src/criticat/flow.py:86-92 | the CHAOTIC loop appends exactly the fail-soft answers of its calls, in order |
| FlowModels.JokeCountFollowsPolicy | criticat/flow.py:94-108 | NONE appends no joke; DEFAULT appends one exactly when issues were found and none otherwise; CHAOTIC appends the drawn one to three |
| SrcFlow.ReviewOutcomeStoresAnalysis | src/criticat/flow.py:73-99 | a successful review keeps the image, stores the feedback text and exactly the heuristic's verdict and count, and only appends jokes, as many as the policy asks |
| SrcFlow.ReviewOutcomeFailsIff | src/criticat/flow.py:62-71 | the review node fails exactly when there is no image or the review call fails; without an image it fails on the image assertion |
| SrcFlow.FeedbackOrEmpty | src/criticat/flow.py:126-130 | present feedback is used as is, absent feedback becomes "" |
| SrcFlow.FlowState.constructor | src/criticat/flow.py:210-220 | a run starts with no image, no feedback, no issues, a count of 0 and no jokes |
| SrcFlow.ExtractTextNode | src/criticat/flow.py:28-46 | extraction stores the page image and changes nothing else; a failed extraction fails the node and changes nothing |
| SrcFlow.ReviewLlmNode | src/criticat/flow.py:49-107 | the node's new state is the review outcome, and it writes the state without the image as its report; a failure changes nothing and writes no report |
| SrcFlow.CommentPrNode | src/criticat/flow.py:110-146 | with issues the node posts exactly one comment, built from the feedback (or "") and the jokes and addressed to the configured pull request; without issues it posts nothing |
| SrcFlow.ShouldCommentOnPr | src/criticat/flow.py:149-170 | the run goes to the comment node exactly when repository, PR number and token are all present and issues were found |
| SrcFlow.PostedCommentLayout | src/criticat/flow.py:123-139 | the posted body opens with the review header, holds the feedback right after it, ends with the footer, and has no jokes section exactly when there are no jokes |
| SrcFlow.Run | src/criticat/flow.py:173-230 | a failed extraction ends the run at once; otherwise the final state is the review outcome, the report is written on success, and exactly one comment is posted exactly when the target is complete and issues were found; visited nodes follow the graph edges |
| RootFlow.ReviewOutcomeStoresAnalysis | criticat/flow.py:83-108 | the review node fails exactly when the review call fails, image or no image; on success it stores the raw response text and exactly the heuristic's verdict and count, and only appends jokes, as many as the policy asks |
| RootFlow.FlowState.constructor | criticat/flow.py:203-213 | a run starts with no image, no feedback, no issues, a count of 0 and no jokes |
| RootFlow.ExtractTextNode | criticat/flow.py:34-52 | extraction stores the page image and changes nothing else; a failed extraction fails the node and changes nothing |
| RootFlow.ReviewLlmNode | criticat/flow.py:55-110 | the node's new state is the review outcome; a failure changes nothing |
| RootFlow.CommentPrNode | criticat/flow.py:113-147 | with issues the node posts exactly one comment, built by the formatter from the feedback and the jokes; without issues it posts nothing |
| RootFlow.ShouldCommentOnPr | criticat/flow.py:150-163 | the run goes to the comment node exactly when issues were found, whatever the target fields hold |
| RootFlow.Run | criticat/flow.py:166-221 | a failed extraction ends the run at once; otherwise the final state is the review outcome, and exactly one comment is posted exactly when the review succeeded with issues; visited nodes follow the graph edges |
| ReviewUseCase.ControlState.constructor | src/criticat/models/states/control.py:15-23 | the control state holds the given review state, controllable configuration and review configuration |
| ReviewUseCase.ClientsOf | src/criticat/use_cases/review.py:45-76 | a Vertex AI configuration gets both a review and a joke client; any other gets exactly the clients whose factories it carries |
| ReviewUseCase.RegistryWellFormed | src/criticat/use_cases/review.py:42-44 | the registry lists every registered name exactly once, in insertion order, with clients and configuration under the same names |
| ReviewUseCase.RegistryKeys | src/criticat/use_cases/review.py:42-44 | a name is registered exactly when some configuration carries it |
| ReviewUseCase.RegistryLastWins | src/criticat/use_cases/review.py:42-58 | the last configuration carrying a name decides that name's clients and configuration |
| ReviewUseCase.RegistryOrderGrows | src/criticat/use_cases/review.py:42-44 | registering more configurations never reorders the names already registered |
| ReviewUseCase.FeedbackSticks | src/criticat/use_cases/review.py:115-122 | after the first failing review call the review loop does nothing more |
| ReviewUseCase.FeedbackSucceedsIff | src/criticat/use_cases/review.py:115-122 | the review loop succeeds exactly when every provider's review call succeeds |
| ReviewUseCase.FeedbackStores | src/criticat/use_cases/review.py:115-122 | after a successful review loop each provider's entry is its own review of the images |
| ReviewUseCase.FeedbackKeepsOthers | src/criticat/use_cases/review.py:115-122 | the review loop keeps entries under other names and adds no other name |
| ReviewUseCase.JokeCallsSticks | src/criticat/use_cases/review.py:131-139 | after the first failing joke call a provider's joke loop does nothing more |
| ReviewUseCase.JokeCallsCount | src/criticat/use_cases/review.py:131-139 | n joke calls yield at most n jokes, exactly n when none fails |
| ReviewUseCase.JokeCallsNeedClient | src/criticat/use_cases/review.py:132 | a provider without a joke client fails as soon as a joke is due, with no joke added |
| ReviewUseCase.JokesSticks | src/criticat/use_cases/review.py:126-155 | after the first failure the joke loop over providers does nothing more |
| ReviewUseCase.JokesUpToStep | src/criticat/use_cases/review.py:126-153 | each provider's jokes are appended after those of the providers before it, in iteration order; a batch without failure holds exactly that provider's quota, which in CHAOTIC mode is its own draw, between one and three |
| ReviewUseCase.JokesUpToCount | src/criticat/use_cases/review.py:126-155 | without failures NONE adds no joke, DEFAULT adds one per provider whose review has issues, and CHAOTIC adds exactly the total of the providers' draws, so between one and three per provider |
| ReviewUseCase.NoneModeCallsNoJokes | src/criticat/use_cases/review.py:154-155 | in NONE mode no joke client is called, so the joke loop adds nothing and cannot fail |
| ReviewUseCase.ReviewStage | src/criticat/use_cases/review.py:98-165 | the review node keeps the images and only appends jokes |
| ReviewUseCase.ReviewStageRecordsFeedback | src/criticat/use_cases/review.py:115-122 | after a successful review node every provider's feedback is its own review; feedback under other names is untouched whatever the outcome |
| ReviewUseCase.ReviewFailureAborts | src/criticat/use_cases/review.py:115-122 | one failing review call fails the whole node before any joke is requested |
| ReviewUseCase.ReviewStageJokes | src/criticat/use_cases/review.py:124-155 | the jokes a successful review node appends follow the policy: in CHAOTIC mode exactly the total of the draws, in DEFAULT mode one per provider whose review has issues; in NONE mode nothing is appended and the node fails exactly when a review fails |
| ReviewUseCase.ReviewPdf.constructor | src/criticat/use_cases/review.py:38-76 | the registry the loop builds is the registry of the configurations in order, and it is well formed |
| ReviewUseCase.ReviewPdf.ExtractTextNode | src/criticat/use_cases/review.py:78-96 | extraction stores the page as a one-element image list and changes nothing else; a failed extraction fails the node and changes nothing |
| ReviewUseCase.ReviewPdf.InvokeJoke | src/criticat/use_cases/review.py:132-139 | one joke call appends its answer to the jokes, or fails and changes nothing |
| ReviewUseCase.ReviewPdf.CollectFeedback | src/criticat/use_cases/review.py:115-122 | the review loop's new feedback map and failure are those of the review-loop specification, and nothing else changes |
| ReviewUseCase.ReviewPdf.ProviderJokes | src/criticat/use_cases/review.py:127-153 | one provider's jokes are exactly its quota of joke calls, appended in order, stopping at the first failure |
| ReviewUseCase.ReviewPdf.CollectJokes | src/criticat/use_cases/review.py:124-155 | the joke loop appends exactly the jokes of the joke-loop specification, and nothing else changes |
| ReviewUseCase.ReviewPdf.ReviewLlmNode | src/criticat/use_cases/review.py:98-165 | the node's new state and failure are those of `ReviewStage`, and the report is the state without images when, and only when, the node succeeded |
| ReviewUseCase.ReviewPdf.CommentPrNode | src/criticat/use_cases/review.py:167-203 | the comment node hands the state on unchanged |
| ReviewUseCase.ReviewPdf.ShouldCommentOnPr | src/criticat/use_cases/review.py:205-220 | the router ends the run whether or not a git provider is configured |
| ReviewUseCase.ReviewPdf.Run | src/criticat/use_cases/review.py:250-275 | a run starts from the empty review state with the configured git provider; a failed extraction ends it at once; otherwise the final state is the review stage's outcome, and the run visits extract_text and review_llm only |

## Left out

- PDF rasterisation and JPEG/base64 encoding (`src/criticat/document.py`) are library calls. They are an extraction oracle that gives one page image or fails.
- The model clients are oracles whose invocation may fail. The model does not cover what happens inside `review_feedback_chain`, `joke_chain`, `get_review_llm` and `initialize_vertex_ai`, or the prompt texts; building a client is a plain value. The joke oracle gets a call number, so that repeated calls may answer differently.
- `random.randint(1, 3)` is an injected draw, one per CHAOTIC joke batch, constrained to 1..3.
- The report file write is file I/O. The nodes return the report, which is the review state without its images, instead of writing it.
- The HTTP call `comment_on_pr` is network I/O. The comment nodes return the payload they would post.
- LangGraph graph compilation and pydantic `model_validate`/`model_dump` are library machinery. The graph edges appear as the node sequence a run visits. The validate/dump round trip is assumed to preserve every field.
- A provider configuration whose `llm_provider` is present but not a string gets a registry key with no clients in the source. The model only has string names.
- The Python assertion that the image list is not None in `review_llm_node` cannot fail in the model, because the image list is never absent there.
- The HTTP, MCP and CLI interfaces, the dependency-injection container, the prompt templates and the stale schema copy `src/criticat/infrastructure/llms/models/formating.py` are outside the review logic.
- `criticat/github.py` is not part of this model; the formatter of `criticat/flow.py` is a parameter.
- ReviewUseCase.ReviewPdf.ExtractTextNode: stores the extracted page as the one-element list `[image]`. The code assigns the bare image string to the list field (`src/criticat/use_cases/review.py:92-93`), so the review prompt builder, which iterates that field (`src/criticat/infrastructure/llms/vertex_ai.py:82-90`), would see one entry per character. The model does not capture that per-character iteration.
- The joke oracle of the orchestrator is unconstrained. `joke_chain` feeds the prompt only `review_feedback` (`src/criticat/infrastructure/llms/vertex_ai.py:197-199`), but the joke prompt also needs `{issue_count}` (`src/criticat/infrastructure/llms/prompts.py:98`). Every real joke call would therefore raise. The abort path of `ReviewStage` would then be the one taken in CHAOTIC mode, and in DEFAULT mode whenever a review has issues. The model allows both outcomes and does not single out this one.
- ReviewUseCase.ReviewPdf.constructor: assumes that building every client succeeds. In the source, `__init__` builds the Vertex AI chains, which initialise Vertex AI and create a chat model (`src/criticat/use_cases/review.py:49-58`), and it calls each configuration's own factories (`src/criticat/use_cases/review.py:68-76`). Any of these calls can raise, leaving no orchestrator; those construction-time exceptions are not modelled.
- Heuristics.Lower: folds only the ASCII letters A-Z, whereas Python's `str.lower` also folds other Unicode letters (some of them into two characters).
