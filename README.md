# Link-unfurl Slack bot: a Dafny model of its core

The bot watches Slack for shared links and answers with a preview ("unfurl") for each link it
recognises. Two kinds of servers are supported:

- **Bitbucket Server.** A pull-request link is previewed with its title, author, description,
  build status and review summary. A repository link is previewed with its name, description,
  last commit and build status.
- **Jenkins.** A build link is previewed with its result, duration, start time and buttons to the
  console log and the change log.

This project models the parts of the bot that do the work:

- the classification of a link's path by the bot's regular expressions;
- the Bitbucket client: default settings, the REST URLs it builds, the status check on every
  answer, commit options as a query string;
- the pull-request, commit and build-status records, and the texts drawn from them;
- the three preview builders and the two dispatchers;
- the orchestrator that collects successful previews under the links' URLs.

Each Go file of the core is one module, and a few modules stand for the Go library behaviour the
core relies on:

- `Strconv`: `strconv.Atoi` with its int64 range error, and decimal printing.
- `Fmt`: `fmt.Sprintf` with `%s` verbs, including the `%!s(MISSING)` and `%!(EXTRA …)`
  renderings.
- `Regexp`: anchored patterns made of literals and greedy `(C+)` groups.
- `NetUrl`: query escaping.
- `GoInt`: int64 wrap-around and truncating division.
- `Strings`: `Join`, `Split` and `Contains`.

Things that take input from outside the program are parameters:

- HTTP calls are a `Server` record of functions from a request to a reply. A reply is a transport
  failure, or a status code with the decoded body or the decoding error.
- The Jenkins client is a function from a job name and a build number to a build or an error.
- `url.Parse` is a function from a URL to its path.
- The clock is a `Clock` value: the current time, the "time ago" text and `time.Duration.String`.

Each builder is written twice:

- a **method** that follows the Go function step by step: the sequential fetches, the early
  returns, the attachment filled field by field;
- a **specification function** returning an `Outcome`: the attachment, the error and the list of
  requests made.

The method's postcondition ties it to the function. The lemmas then state what the previews show.

Where the Go code indexes an empty slice, there are two versions:

- an *as-written* function that ends in a `Panicked` run;
- a corrected function that reports an `EmptyList` error instead. The rest of the model uses this
  one.

See "## Findings".

Where the code disagrees with its tests or with other source files, the model follows the code:

- **Source-code links.** A link to a file in the source browser gets an empty attachment and no
  error (`src/unfurl/bitbucket.go:71-73,86`), although the code's own message at
  `src/unfurl/bitbucket.go:72` says this case is not implemented. The orchestrator therefore
  stores an empty preview for it.
- **Method names.** `src/unfurl/bitbucket.go:122` and the tests in `src/bitbucket/pr_test.go`
  call `ReviewedBy`, but `src/bitbucket/pr.go:42` defines `ReviewBy`. The model has one
  operation, `ReviewBy`.
- **Jenkins server setting.** `src/unfurl/unfurl.go:47` reads `Config.JenkinsServer`, which
  `src/utils/config.go` does not declare. The model's `Config` has both server fields.
- **Jenkins duration.** `src/unfurl/jenkins.go:86` multiplies the reported duration by
  `time.Second`, while `src/unfurl/jenkins.go:88` treats the build's timestamp as milliseconds.
  The model follows the code.

## Model

| member | source | states |
|---|---|---|
| BitbucketConstants.Lookup | src/bitbucket/client.go:76-86 | looking up a path name gives its template; a missing name gives the empty template, as a Go map lookup does |
| BitbucketConstants.RepoScopedTemplates | src/bitbucket/constants.go:5-9 | every repository-scoped API path template begins with the repository template `projects/%s/repos/%s` |
| BitbucketConstants.PullRequestExtendsList | src/bitbucket/constants.go:8-9 | the single pull-request template is the pull-request list template plus `/%s`, taking one more argument |
| BitbucketConstants.VerbCounts | src/bitbucket/constants.go:3-15 | how many `%s` arguments each API and status template takes (2, 2, 2, 2, 3, 3, 2, 1) |
| BitbucketConstants.TemplatesByKey | src/bitbucket/constants.go:3-15 | each path name is mapped to its template |
| BitbucketConstants.ReviewConstantsDistinct | src/bitbucket/constants.go:17-30 | the three review statuses are pairwise distinct, and so are the two roles |
| BitbucketConstants.ApiBaseFills | src/bitbucket/constants.go:4 | the REST base template puts the server and the path after `https://…/rest/api/1.0/` |
| BitbucketConstants.StatusBaseFills | src/bitbucket/constants.go:13 | the build-status base template puts the server and the path after `https://…/rest/build-status/1.0/` |
| BitbucketConstants.RepoPathFills | src/bitbucket/constants.go:5 | the repository template spells `projects/<p>/repos/<r>` |
| BitbucketConstants.PullRequestPathFills | src/bitbucket/constants.go:9 | the pull-request template spells `projects/<p>/repos/<r>/pull-requests/<id>` |
| BitbucketConstants.PullRequestsPathFills | src/bitbucket/constants.go:8 | the pull-request list template spells `projects/<p>/repos/<r>/pull-requests` |
| BitbucketConstants.RepoCommitsPathFills | src/bitbucket/constants.go:6 | the commit list template spells `projects/<p>/repos/<r>/commits` |
| BitbucketConstants.BrowsePathFills | src/bitbucket/constants.go:7 | the browse template spells `projects/<p>/repos/<r>/browse/<file>` |
| BitbucketClient.Timeout | src/bitbucket/client.go:21-29 | the timeout is never zero: the configured value, or 2 seconds when none is set |
| BitbucketClient.Useragent | src/bitbucket/client.go:32-38 | the user agent is never empty: the configured one, or `bitbucket-go-sdk` |
| BitbucketClient.NewRequest | src/bitbucket/client.go:43-61 | a request goes to the given URL with `Bearer <PAT>` authorization, the client's user agent and its timeout |
| BitbucketClient.RequestsCarryCredentials | src/bitbucket/client.go:44-56 | every request carries the bearer token, a non-empty user agent and a non-zero timeout |
| BitbucketClient.Get | src/bitbucket/client.go:96-108 | a fetch succeeds exactly when the server answered 200 with a body that decodes, and yields that body; any other status is an unexpected-status error; every failure is a transport, status or decoding error |
| BitbucketClient.GetIgnoresBody | src/bitbucket/client.go:100-102 | when the status is not 200, the body does not matter |
| BitbucketClient.RawUrl | src/bitbucket/client.go:76-86 | `rawUrl`: the template of the path name filled with the arguments (or left raw when there are none), behind the base template and the server; its shape is stated by `RawUrlNoArgs` and `RawUrlFills` |
| BitbucketClient.RawUrlNoArgs | src/bitbucket/client.go:76-86 | with no arguments, the URL is the base followed by the raw template text |
| BitbucketClient.RawUrlFills | src/bitbucket/client.go:76-86 | with arguments, the URL is the base followed by the filled template |
| BitbucketClient.PullRequestsUrl | src/bitbucket/client.go:92-95 | the URL `PullRequests` asks for; written out by `PullRequestsUrlShape` |
| BitbucketClient.FetchPullRequests | src/bitbucket/client.go:92-110 | `PullRequests`: one request for that URL, checked and decoded as `Get` states |
| BitbucketClient.PullRequestUrl | src/bitbucket/client.go:112-115 | the URL `PullRequest` asks for, with the id printed by `fmt.Sprint`; written out by `PullRequestUrlShape` |
| BitbucketClient.FetchPullRequest | src/bitbucket/client.go:112-130 | `PullRequest`: one request for that URL, checked and decoded as `Get` states |
| BitbucketClient.RepositoryUrl | src/bitbucket/client.go:132-135 | the URL `Repository` asks for; written out by `RepositoryUrlShape` |
| BitbucketClient.FetchRepository | src/bitbucket/client.go:132-150 | `Repository`: one request for that URL, checked and decoded as `Get` states |
| BitbucketClient.CommitsUrl | src/bitbucket/client.go:152-158 | the URL `Commits` asks for: the commit list path, `?` and the options' query string; stated by `CommitsUrlShape` |
| BitbucketClient.FetchCommits | src/bitbucket/client.go:152-173 | `Commits`: one request for that URL, checked and decoded as `Get` states |
| BitbucketClient.StatusUrl | src/bitbucket/client.go:175-178 | the URL `Status` asks for, on the build-status API; written out by `StatusUrlShape` |
| BitbucketClient.FetchStatus | src/bitbucket/client.go:175-192 | `Status`: one request for that URL, checked and decoded as `Get` states |
| BitbucketClient.PullRequestsUrlShape | src/bitbucket/client.go:92-95 | the pull-request list URL, written out |
| BitbucketClient.PullRequestUrlShape | src/bitbucket/client.go:112-115 | the pull-request URL, with the id in decimal |
| BitbucketClient.RepositoryUrlShape | src/bitbucket/client.go:132-135 | the repository URL, written out |
| BitbucketClient.StatusUrlShape | src/bitbucket/client.go:175-178 | the build-status URL of a commit, on the build-status API |
| BitbucketClient.RepoCommitsUrlShape | src/bitbucket/client.go:155 | the commit list path under the repository |
| BitbucketClient.QueryFormat | src/bitbucket/client.go:158 | `%s?%s` joins the URL and the query with a `?` |
| BitbucketClient.CommitsUrlShape | src/bitbucket/client.go:152-158 | the commit list URL is the path, `?` and the options' query string |
| BitbucketClient.NoOptionsCommitsUrl | src/bitbucket/client.go:152-158 | with no option set, the commit list URL ends in a bare `?` |
| BitbucketCommit.OptionKeysSorted | src/bitbucket/commit.go:41-44 | every option key is listed, in the sorted order in which the query encoder writes them |
| BitbucketCommit.Pairs | src/bitbucket/commit.go:22-38 | every pair written is an option set to a non-zero value, with that value as text |
| BitbucketCommit.Field | src/bitbucket/commit.go:22-38 | the query value of one option: set booleans give `true`, non-zero integers their decimal text, non-empty strings themselves, anything else nothing (`omitempty`); `PairsKeys` and `Pairs` state what this makes of the query |
| BitbucketCommit.PairsKeys | src/bitbucket/commit.go:22-38 | a key appears in the query exactly when it is one of the listed options and is set (`omitempty`) |
| BitbucketCommit.PairsNone | src/bitbucket/commit.go:22-38 | options that are all unset give no pairs |
| BitbucketCommit.PairsSkip | src/bitbucket/commit.go:22-38 | leading unset options contribute nothing |
| BitbucketCommit.Items | src/bitbucket/commit.go:41-44 | one `key=value` item per pair, in order |
| BitbucketCommit.PairsBytes | src/bitbucket/commit.go:41-44 | the byte form of the pairs, one per pair |
| BitbucketCommit.ItemDecodes | src/bitbucket/commit.go:41-44 | an escaped `key=value` item decodes back to the pair's bytes and contains no `&` |
| BitbucketCommit.ItemsDecode | src/bitbucket/commit.go:41-44 | the joined items decode back to the pairs |
| BitbucketCommit.QueryStringDecodes | src/bitbucket/commit.go:41-44 | round trip: decoding the query string gives back exactly the options that were set, in key order |
| BitbucketCommit.ToQueryString | src/bitbucket/commit.go:41-44 | the options' escaped `key=value` items joined with `&`; `QueryStringDecodes` proves the round trip |
| BitbucketCommit.JoinNonEmpty | src/bitbucket/commit.go:41-44 | joining items whose first is non-empty gives a non-empty string |
| BitbucketCommit.NoOptionsQuery | src/bitbucket/commit_test.go:11-14 | the zero options give the empty query string |
| BitbucketCommit.SincePairs | src/bitbucket/commit_test.go:16-21 | `Since: foo` gives the single pair `since`, `foo` |
| BitbucketCommit.SinceQuery | src/bitbucket/commit_test.go:16-21 | `Since: foo` gives `since=foo` |
| BitbucketCommit.PathSincePairs | src/bitbucket/commit_test.go:23-29 | path and since give their pairs with `path` first |
| BitbucketCommit.ExampleItems | src/bitbucket/commit_test.go:16-29 | the test's pairs print as `since=foo`, and as `path=bar`, `since=foo` |
| BitbucketCommit.PathSinceItems | src/bitbucket/commit_test.go:23-29 | path and since print as `path=bar`, `since=foo` |
| BitbucketCommit.PathSinceJoin | src/bitbucket/commit_test.go:28 | the two items join with `&` |
| BitbucketCommit.PathSinceQuery | src/bitbucket/commit_test.go:23-29 | path and since give `path=bar&since=foo` |
| BitbucketCommit.StringShowsFullId | src/bitbucket/commit.go:70-78 | the commit text shows the full id in parentheses after the message, and the short id plays no part |
| BitbucketCommit.StringFormatText | src/bitbucket/commit.go:71-72 | the commit format is `%s (%s) by %s %s`, with four verbs |
| BitbucketCommit.String | src/bitbucket/commit.go:70-78 | the text is `fmt.Sprintf` of `%s (%s) by %s %s` with the message, the full id, the author's display name and the time-ago text |
| BitbucketCommit.TimeAgo | src/bitbucket/commit.go:81-86 | the time-ago text of the author timestamp, read as milliseconds and truncated to seconds |
| BitbucketCommit.JIRAIssueKeys | src/bitbucket/commit.go:65-67 | the JIRA keys stored in the commit's properties, returned unchanged |
| BitbucketCommit.StringExample | src/bitbucket/commit_test.go:33-42 | the test's commit prints as `foo (1234567890) by bar ` followed by its time-ago text |
| BitbucketStatus.Aggregate | src/bitbucket/status.go:34-61 | the aggregate is one of the four states; it is UNKNOWN exactly when no status is FAILED, INPROGRESS or SUCCESSFUL |
| BitbucketStatus.State | src/bitbucket/status.go:34-61 | the flag-setting loop computes the aggregate: FAILED over INPROGRESS over SUCCESSFUL over UNKNOWN |
| BitbucketStatus.AggregatePermutation | src/bitbucket/status.go:34-61 | the order of the statuses does not matter |
| BitbucketStatus.ReportsSubmultiset | src/bitbucket/status.go:39-48 | a state reported by part of the list is reported by the whole |
| BitbucketStatus.AggregateConcat | src/bitbucket/status.go:50-61 | the aggregate of two lists is the worse of their aggregates |
| BitbucketStatus.AggregateIsMaximum | src/bitbucket/status.go:34-61 | the aggregate is the most severe state in the list: every status ranks at or below it, and unless it is UNKNOWN some status reports it |
| BitbucketStatus.StateExamples | src/bitbucket/status_test.go:24-77 | the three test lists aggregate to FAILED, INPROGRESS and SUCCESSFUL |
| BitbucketPR.ReviewLines | src/bitbucket/pr.go:42-48 | at most one review line per participant |
| BitbucketPR.ReviewSummary | src/bitbucket/pr.go:42-55 | the review lines joined with `, `, or `No reviews :sob:` when there are none; `ReviewBy` proves the loop computes it and `SummaryFallback` when the fallback shows |
| BitbucketPR.ReviewBy | src/bitbucket/pr.go:42-55 | the loop computes the summary; the summary is `No reviews :sob:` exactly when no reviewer has reviewed |
| BitbucketPR.ReviewLinesConcat | src/bitbucket/pr.go:44-48 | review lines of two lists are the lines of each, in order |
| BitbucketPR.ReviewLinesMembers | src/bitbucket/pr.go:44-48 | a line is listed exactly when some reviewer with a review other than UNAPPROVED has that `name (status)` line |
| BitbucketPR.ReviewLinesEmpty | src/bitbucket/pr.go:44-51 | there are no lines exactly when nobody has reviewed |
| BitbucketPR.SummaryFallback | src/bitbucket/pr.go:50-54 | the fallback text appears exactly when nobody has reviewed |
| BitbucketPR.ReviewSummaryNobody | src/bitbucket/pr_test.go:11-26 | no reviewers, or one unapproved reviewer, give `No reviews :sob:` |
| BitbucketPR.ReviewSummarySingle | src/bitbucket/pr_test.go:28-41 | a single approval gives `Test User (APPROVED)` |
| BitbucketPR.ReviewSummaryThree | src/bitbucket/pr_test.go:43-67 | the unapproved reviewer is left out and the other two are joined with `, ` |
| BitbucketPR.IsApproved | src/bitbucket/pr.go:95-108 | the loop's answer is: approved by someone, and no NEEDS_WORK anywhere in the list |
| BitbucketPR.NeedsWorkVetoes | src/bitbucket/pr.go:102-103 | one NEEDS_WORK makes the pull request unapproved, wherever it stands |
| BitbucketPR.ApprovalStatus | src/bitbucket/pr.go:111-125 | the status is never empty; without emoji it is `Approved` exactly when approved and `Unapproved` exactly when not |
| BitbucketPR.ApprovalStatusEmoji | src/bitbucket/pr.go:111-125 | the emoji form is the plain form behind the matching emoji |
| BitbucketPR.IsWorkInProgress | src/bitbucket/pr.go:88-92 | work in progress exactly when `WIP` occurs somewhere in the title |
| BitbucketPR.WorkInProgressExamples | src/bitbucket/pr_test.go:118-131 | `WIP: Test PR` is work in progress and `Test PR` is not |
| BitbucketPR.RepoSlug | src/bitbucket/pr.go:67-74 | the slug as written: repository slug, `/`, project key, `#`, id; read back by `RepoSlugReadsBack` |
| BitbucketPR.RepoSlugReadsBack | src/bitbucket/pr.go:67-74 | the slug as written is the repository slug, a `/`, the project key up to the last `#`, and then the id, which reads back |
| BitbucketPR.RepoSlugSwapped | src/bitbucket/pr_test.go:70-84 | for the test's repository the slug as written starts `test-repo/`, not `test-project/` |
| BitbucketPR.RepoSlugIntendedReadsBack | src/bitbucket/pr_test.go:83 | the corrected slug starts with the project key and a `/`, has the repository slug before the last `#`, and the id reads back |
| BitbucketPR.OpenSince | src/bitbucket/pr.go:59-64 | the time-ago text of the creation date, read as milliseconds and truncated to seconds |
| BitbucketPR.ToStringFormatText | src/bitbucket/pr.go:78-79 | the pull-request format is `_%s_ (%s) by %s opened %s`, with four verbs |
| BitbucketPR.ToString | src/bitbucket/pr.go:77-85 | the text is `fmt.Sprintf` of `_%s_ (%s) by %s opened %s` with the title, the approval status with its emoji, the author's display name and the open-since text; so it starts with the title in underscores and then the status |
| UnfurlBitbucket.PatternShapes | src/unfurl/bitbucket.go:25-39 | the three patterns share the repository prefix; pull request and source code add one group each; all are well formed |
| UnfurlBitbucket.ExtendedPatternShape | src/unfurl/bitbucket.go:25-35 | compiling a template that extends the repository template gives the repository pattern plus one literal and one group |
| UnfurlBitbucket.RepoPatternShape | src/unfurl/bitbucket.go:37-39 | the repository pattern, atom by atom |
| UnfurlBitbucket.WellFormedRepoPattern | src/unfurl/bitbucket.go:25-39 | the repository pattern followed by any well-formed tail that starts with a literal outside `[^/]` stays well formed: every group ends where the next literal begins |
| UnfurlBitbucket.RepoInstance | src/unfurl/bitbucket.go:37-39 | two segments fit the repository pattern and spell `/projects/<p>/repos/<r>` |
| UnfurlBitbucket.PullRequestInstance | src/unfurl/bitbucket.go:25-29 | three segments fit the pull-request pattern and spell the pull-request page |
| UnfurlBitbucket.SourceInstance | src/unfurl/bitbucket.go:31-35 | two segments and a file path fit the source pattern and spell the browse page |
| UnfurlBitbucket.PullRequestLinks | src/unfurl/bitbucket.go:41-42 | a pull-request page with any `/…` suffix (`/overview`, `/diff`, `/commits`) is a pull-request link with the page and its three segments as matches |
| UnfurlBitbucket.TailMatch | src/unfurl/bitbucket.go:25-35 | a literal followed by a group matches exactly when the literal is a prefix and one more character of the class follows |
| UnfurlBitbucket.ExtensionsMatch | src/unfurl/bitbucket.go:41-46 | after a repository prefix, the pull-request and source patterns match exactly when the rest opens a pull request or a file; the repository pattern always matches |
| UnfurlBitbucket.SourceCodeLinks | src/unfurl/bitbucket.go:43-44 | a browse page with a non-empty file is a source-code link, and the file capture runs to the end of the line |
| UnfurlBitbucket.NotPullRequest | src/unfurl/bitbucket.go:41-44 | a browse page never matches the pull-request pattern |
| UnfurlBitbucket.RepoLinks | src/unfurl/bitbucket.go:45-46 | any other page under a repository (`/browse`, `/commits`, `/branches`, `/settings`) is a repository link |
| UnfurlBitbucket.ProjectsFirst | src/unfurl/bitbucket.go:25-39 | a pattern starting `/projects/` cannot match a path that does not |
| UnfurlBitbucket.UnknownLinks | src/unfurl/bitbucket.go:49 | a path not under `/projects/` (`/dashboard`, `/admin`, …) is unknown with no matches |
| UnfurlBitbucket.LinkType | src/unfurl/bitbucket.go:24-50 | the patterns tried in order: pull request, source code, repository, with the submatches of the first that matches; `LinkTypeSound` states the result for every path |
| UnfurlBitbucket.PullRequestSound | src/unfurl/bitbucket.go:41-42 | whenever the pull-request pattern matches, the matches are the page and three segments, and the page starts the path |
| UnfurlBitbucket.SourceCodeSound | src/unfurl/bitbucket.go:43-44 | whenever the source pattern matches, the matches are the page, two segments and a file path |
| UnfurlBitbucket.RepoSound | src/unfurl/bitbucket.go:45-46 | whenever the repository pattern matches, the matches are the prefix and two segments |
| UnfurlBitbucket.LinkTypeSound | src/unfurl/bitbucket.go:24-50 | for every path: unknown exactly when there are no matches; each known kind has the match count and shapes of its pattern |
| UnfurlBitbucket.PullRequestFields | src/unfurl/bitbucket.go:105-130 | four fields in order: PR State, Build Status (aggregate), Reviewers (summary), Review Status (with emoji); the guard on the last two always holds |
| UnfurlBitbucket.PullRequestPreview | src/unfurl/bitbucket.go:90-144 | the pull request is fetched first; if that fails, it is the only request and its error is returned; a success makes two requests and shows four fields under the `Bitbucket` footer; an error always comes with the empty attachment |
| UnfurlBitbucket.PullRequestStatusFailure | src/unfurl/bitbucket.go:96-103 | a failing status fetch after the pull request was fetched ends the preview after both requests with that fetch's error |
| UnfurlBitbucket.PullRequestLink | src/unfurl/bitbucket.go:90-144 | the step-by-step builder computes the preview |
| UnfurlBitbucket.PullRequestPreviewShows | src/unfurl/bitbucket.go:99-141 | a successful preview fetched the status of the source branch's latest commit; its title, author, text, link, field titles and build status come from the fetched records, and its fields are exactly the four fields of that pull request and status |
| UnfurlBitbucket.PullRequestTitleReadsBack | src/unfurl/bitbucket.go:138 | the title is `#`, the id in decimal and a space; the id reads back |
| UnfurlBitbucket.PullRequestPreviewAsWritten | src/unfurl/bitbucket.go:90-144 | `bitbucketPRLink` as written, panicking on an empty self link list; related to the corrected preview by `PullRequestPreviewAgrees` |
| UnfurlBitbucket.PullRequestPreviewAgrees | src/unfurl/bitbucket.go:90-144 | the code as written returns the corrected preview, except that it panics where the corrected one reports an empty list |
| UnfurlBitbucket.SelflessPullRequestPanics | src/unfurl/bitbucket.go:137-139 | a pull request without self links panics as written and is an error in the corrected preview |
| UnfurlBitbucket.RepoSteps | src/unfurl/bitbucket.go:147-185 | on any answers to its requests, an error always comes with the empty attachment |
| UnfurlBitbucket.RepoPreview | src/unfurl/bitbucket.go:147-185 | `RepoSteps` on the client's own three requests; the lemmas on `RepoSteps` hold for it |
| UnfurlBitbucket.RepoStepsRequests | src/unfurl/bitbucket.go:151-166 | the repository is requested first; the commits only once the repository is fetched; the status only once there is a first commit, and for that commit; a success makes all three requests and shows two fields |
| UnfurlBitbucket.RepoStepsFirstFailure | src/unfurl/bitbucket.go:151-154 | a failing repository fetch is the only request and its error is returned |
| UnfurlBitbucket.RepoStepsSecondFailure | src/unfurl/bitbucket.go:157-160 | a failing commit listing ends the preview after two requests with its error |
| UnfurlBitbucket.RepoStepsThirdFailure | src/unfurl/bitbucket.go:162-166 | a failing status fetch for the first commit ends the preview after all three requests with that fetch's error |
| UnfurlBitbucket.RepoLink | src/unfurl/bitbucket.go:147-185 | the builder computes the preview of the client's answers, with the zero commit options |
| UnfurlBitbucket.RepoLinkSteps | src/unfurl/bitbucket.go:151-184 | the step-by-step body (three fetches with early returns, then the attachment field by field) computes exactly the decisions of `RepoSteps` on any answers |
| UnfurlBitbucket.RepoStepsShows | src/unfurl/bitbucket.go:168-182 | a successful preview had all three fetches succeed and shows the repository's name, link and description, then Last Commit (the first commit's text) and Build Status (the aggregate of that commit's statuses) |
| UnfurlBitbucket.RepoStepsSucceeds | src/unfurl/bitbucket.go:151-184 | conversely, three successful fetches with a first commit and a self link give a preview without error |
| UnfurlBitbucket.EmptyRepositoryStops | src/unfurl/bitbucket.go:163 | with no commits, the code as written panics; the corrected preview stops after two requests with an empty-list error |
| UnfurlBitbucket.SelflessRepositoryPanics | src/unfurl/bitbucket.go:169 | a repository without self links panics as written after all three requests; the corrected preview reports the missing link after the same requests |
| UnfurlBitbucket.RepoStepsAsWritten | src/unfurl/bitbucket.go:147-185 | `bitbucketRepoLink` as written on any answers, panicking on an empty commit list or self link list; related to `RepoSteps` by `RepoStepsAgrees` |
| UnfurlBitbucket.RepoPreviewAsWritten | src/unfurl/bitbucket.go:147-185 | `RepoStepsAsWritten` on the client's own three requests |
| UnfurlBitbucket.RepoRequestsAnswer | src/bitbucket/client.go:96-108 | the client's failed requests report transport, status or decoding errors, never an empty list |
| UnfurlBitbucket.RepoStepsAgrees | src/unfurl/bitbucket.go:147-185 | on the client's answers, the code as written returns the corrected preview, except that it panics where the corrected one reports an empty list |
| UnfurlBitbucket.LinkPreview | src/unfurl/bitbucket.go:53-87 | an unknown link is not supported and makes no request; a source-code link gives the empty attachment and no error; an error always comes with the empty attachment |
| UnfurlBitbucket.BitbucketLink | src/unfurl/bitbucket.go:53-87 | the dispatcher computes the link preview |
| UnfurlBitbucket.PullRequestDispatch | src/unfurl/bitbucket.go:60-69 | a pull-request link whose id parses is previewed as that pull request of that repository |
| UnfurlBitbucket.BadPullRequestId | src/unfurl/bitbucket.go:63-66 | a pull-request link whose id does not parse returns the parse error and makes no request |
| UnfurlBitbucket.RepoDispatch | src/unfurl/bitbucket.go:75-80 | a repository link is previewed as that repository, with the zero commit options |
| UnfurlBitbucket.SourceCodeDispatch | src/unfurl/bitbucket.go:71-73 | a source-code link gives the empty attachment, no error and no request |
| UnfurlBitbucket.UnknownDispatch | src/unfurl/bitbucket.go:82-83 | a path not under `/projects/` gives `bitbucket link not supported` |
| UnfurlBitbucket.Numeral297 | src/unfurl/bitbucket_test.go:67-98 | 297 prints as `297` and `297` parses as 297 |
| UnfurlBitbucket.PullRequestPreviewSucceeds | src/unfurl/bitbucket.go:94-143 | with both fetches successful and the self links present, the preview has no error |
| UnfurlBitbucket.Title297 | src/unfurl/bitbucket_test.go:94 | pull request 297 titled `My new feature` has the title `#297 My new feature` |
| UnfurlBitbucket.PullRequest297Dispatch | src/unfurl/bitbucket_test.go:67-98 | the link to pull request 297 dispatches to the preview of pull request 297 |
| UnfurlBitbucket.PullRequestLinkExample | src/unfurl/bitbucket_test.go:94-97 | the test's pull request previews with its title, author and description, and four fields |
| UnfurlJenkins.BuildTemplateFills | src/unfurl/jenkins.go:24 | the build pattern's template takes four arguments and spells `/job/<a>/job/<b>/job/<c>/<n>` |
| UnfurlJenkins.BuildPatternShape | src/unfurl/jenkins.go:24 | the build pattern atom by atom: three `[^/]+` groups and a `[0-9]+` group behind their literals; it is well formed |
| UnfurlJenkins.BuildInstance | src/unfurl/jenkins.go:24 | three segments and a digit run fit the pattern and spell the build page |
| UnfurlJenkins.BuildLinks | src/unfurl/jenkins.go:26-27 | a build page followed by anything but a digit is a build link, with the page, the three jobs and the whole number as matches |
| UnfurlJenkins.LinkTypeSound | src/unfurl/jenkins.go:22-31 | for every path: unknown exactly when there are no matches; a build link has five matches: a build page at the start of the path, its three segments and its digits |
| UnfurlJenkins.UnknownLinks | src/unfurl/jenkins.go:30 | a path not starting `/job/` is unknown with no matches |
| UnfurlJenkins.LinkType | src/unfurl/jenkins.go:22-31 | a build link with its submatches when the build pattern matches, otherwise unknown; `LinkTypeSound` states the result for every path |
| UnfurlJenkins.JobNameFills | src/unfurl/jenkins.go:63 | the job name is `<a>/job/<b>/job/<c>` |
| UnfurlJenkins.JobName | src/unfurl/jenkins.go:63 | `fmt.Sprintf` of `%s/job/%s/job/%s` with the three job segments; written out by `JobNameFills` |
| UnfurlJenkins.ShownResult | src/unfurl/jenkins.go:74-77 | the result shown is never empty: an empty result shows as `IN PROGRESS`, and any other result is shown unchanged |
| UnfurlJenkins.Duration | src/unfurl/jenkins.go:82-89 | the duration is an int64 count of nanoseconds; a positive reported duration is truncated to whole units as Go's float-to-int conversion does (so one below 1 gives 0) and, without overflow, times one second, never more than the exact product; otherwise it is the whole seconds since the start times one second |
| UnfurlJenkins.BuildAttachment | src/unfurl/jenkins.go:91-135 | the attachment of a fetched build; what it shows is stated by `BuildPreviewShows` |
| UnfurlJenkins.BuildPreview | src/unfurl/jenkins.go:59-138 | exactly one request, for the job name; no error exactly when the build is fetched, and otherwise the library's error; on success three fields, two actions, title equal to author and callback id `jenkins_build` |
| UnfurlJenkins.JenkinsBuildLink | src/unfurl/jenkins.go:59-138 | the step-by-step builder computes the preview |
| UnfurlJenkins.BuildPreviewShows | src/unfurl/jenkins.go:91-135 | a fetched build shows its name, page, text (`Waiting for input` while running), the Status, Duration and Started fields in order, and the console and changes buttons under its page |
| UnfurlJenkins.BuildPreviewExample | src/unfurl/jenkins_test.go:53-60 | the test's build previews with its display name as title and its page as title link |
| UnfurlJenkins.LinkPreview | src/unfurl/jenkins.go:34-56 | a link that is not a build link gives `jenkins link not supported` and makes no request; an error always comes with the empty attachment |
| UnfurlJenkins.JenkinsLink | src/unfurl/jenkins.go:34-56 | the dispatcher computes the link preview |
| UnfurlJenkins.BuildDispatch | src/unfurl/jenkins.go:41-52 | a build link asks for build n of job `a/job/b/job/c`; the number can fail to parse only by being out of the int64 range, and then no request is made |
| UnfurlJenkins.UnknownDispatch | src/unfurl/jenkins.go:54-55 | a path not starting `/job/` is not supported |
| Unfurl.Handle | src/unfurl/unfurl.go:33-53 | a link reaches no builder exactly when its URL does not parse or its domain is neither server; the Bitbucket domain is checked first |
| Unfurl.Links | src/unfurl/unfurl.go:24-63 | the loop returns a nil error and the map `Unfurls` builds with the orchestrator's handler: each successful preview stored under its link's URL |
| Unfurl.UnfurlsStep | src/unfurl/unfurl.go:55-59 | one more link adds its attachment under its URL when it was unfurled and changes nothing otherwise |
| Unfurl.UnfurlsKeys | src/unfurl/unfurl.go:55-59 | a URL is a key exactly when some link with that URL was previewed without error |
| Unfurl.KeysHandled | src/unfurl/unfurl.go:34-58 | every key is the URL of a link that was handed to a builder |
| Unfurl.HandledLink | src/unfurl/unfurl.go:34-52 | a link handed to a builder parsed and is on one of the two domains |
| Unfurl.LastSuccessWins | src/unfurl/unfurl.go:55-59 | for duplicate URLs, the last successful preview is the one stored, and later failures do not remove it |
| Unfurl.FailureKeepsEntries | src/unfurl/unfurl.go:55-57 | a failing or skipped link leaves the map as it was |
| Unfurl.BitbucketFirst | src/unfurl/unfurl.go:43-48 | when both servers share a domain, its links go to the Bitbucket builder |
| Unfurl.SkippedLinksIgnored | src/unfurl/unfurl.go:34-52 | links that do not parse, or are on another domain, make no difference to the result |
| Unfurl.Handled | src/unfurl/unfurl.go:34-52 | the links that reach a builder, in order |
| Strconv.Atoi | src/unfurl/bitbucket.go:63 | a parsed number is an int64; a failure names `Atoi` and the text |
| Strconv.AtoiAcceptsNumerals | src/unfurl/jenkins.go:45 | only an optionally signed digit string parses, and such a string fails only by range |
| Strconv.AtoiItoa | src/bitbucket/client.go:115 | every int64 printed in decimal parses back to itself |
| Strconv.Itoa | src/bitbucket/client.go:115 | decimal printing, with a `-` for negatives; `AtoiItoa` proves it is undone by `Atoi` |
| Strconv.AtoiDigits | src/unfurl/jenkins.go:45 | a digit run parses to a non-negative number or fails with a range error |
| Strconv.Decimal | src/bitbucket/client.go:115 | decimal digits, without leading zeros |
| NetUrl.UnescapeEscape | src/bitbucket/commit.go:41-44 | query escaping is undone by unescaping |
| NetUrl.EscapeNoSeparators | src/bitbucket/commit.go:41-44 | escaped text holds no `&` and no `=` |
| NetUrl.QueryEscapeUnreserved | src/bitbucket/commit.go:41-44 | unreserved text is left as it is |
| NetUrl.QueryEscape | src/bitbucket/commit.go:41-44 | `url.QueryEscape` on the text's UTF-8 bytes; `UnescapeEscape` proves it is undone |
| Fmt.SprintfConcat | src/bitbucket/client.go:76-86 | filling two templates side by side is filling each with its own arguments |
| Fmt.Sprintf | src/bitbucket/client.go:76-86 | `%s` verbs filled in order, `%!s(MISSING)` for a missing argument, `%!(EXTRA …)` for arguments left over; `SprintfConcat` splits it over two templates |
| Regexp.MatchSound | src/unfurl/bitbucket.go:41-46 | a match spells its pattern with the groups it captured |
| Regexp.Match | src/unfurl/bitbucket.go:41-46 | an anchored match: the length matched is at most the text's, and `MatchSound` and `MatchInstance` state what is matched |
| Regexp.FindSubmatch | src/unfurl/bitbucket.go:41-46 | non-empty exactly when the pattern matches (`MatchString`) |
| Regexp.MatchInstance | src/unfurl/jenkins.go:26-27 | a well-formed pattern filled with fitting groups is matched with exactly those groups |
| Regexp.CompileInstance | src/unfurl/bitbucket.go:25-39 | a pattern built from a format template spells what the template prints with the same arguments |
| Regexp.FitsCompile | src/unfurl/jenkins.go:24 | groups that fit a compiled template are non-empty and each lies in its class |
| Strings.Contains | src/bitbucket/pr.go:88-92 | contains exactly when the text occurs at some position |
| Strings.SplitJoin | src/bitbucket/commit.go:41-44 | joining with a one-character separator that occurs in no part is undone by splitting on it; this is the `&` of the query string round trip |
| Strings.Join | src/bitbucket/pr.go:54 | `strings.Join`: the parts with the separator between them; for a one-character separator, `SplitJoin` proves splitting undoes it |
| GoInt.Wrap64 | src/unfurl/jenkins.go:86-88 | int64 wrap-around: the result is an int64 congruent to the input, and an int64 is unchanged |
| GoInt.MillisToSeconds | src/unfurl/jenkins.go:80 | Go's truncating division by 1000 |

## Left out

- HTTP transport, JSON decoding and the `json` struct tags. A fetch is a function from a request to
  a reply that already holds the decoded record or the decoding error. So the list sizes and field
  values checked in `src/bitbucket/client_test.go` and `src/bitbucket/status_test.go:11-22` are
  outside the model.
- The Jenkins client library (`gojenkins`). `GetBuild` is a function from a job name and a build
  number to a build or an error text. Its URL handling, including the extra `/` before the build
  number, is not part of this model.
- The clock and its libraries: `time.Now`, the `timeago` texts and `time.Duration.String`. They are
  the parameters `now`, `ago` and `durationText`. The "one month ago" and "about a second ago"
  texts of the tests are not modelled.
- Logging (`logrus`, `fmt.Printf`) is not modelled.
- The pull-request attachment's timestamp (the creation date in decimal), author id and author
  link are set as the code sets them, but no lemma states them.
- `main.go` (the Slack socket-mode loop, the goroutine per event and posting the unfurls) and
  `src/utils` (configuration from the environment, helpers) are not part of this model. The
  configuration is a `Config` value with both server domains.
- `url.Parse` is reduced to a function from a URL to its path, or to nothing when the URL does not
  parse. The model does not capture which URLs Go accepts.
- Regular expressions: only anchored patterns of literals and greedy one-or-more character-class
  groups are modelled. That covers the bot's four patterns; the matcher is proved exact for them.
- `BitbucketCommit.ToQueryString`: only the options the bot can set are encoded. Booleans are
  `true`, integers are in decimal, strings are query-escaped, and the output is in sorted key order
  as `go-querystring` writes it. Other types are not modelled.
- `UnfurlBitbucket.RepoPreview`: it takes the commit options as a parameter. `RepoLink`, like the
  code, passes the zero options, and the lemmas hold for every choice. They are stated on
  `RepoSteps`, for every answer the three requests can get; `RepoPreview` is `RepoSteps` on the
  client's requests (`RepoRequestsOf`).
- `UnfurlJenkins.Duration`: it does not model `time.Duration`'s float rendering. The value is the
  int64 nanosecond count, and its text comes from `durationText`.
- `UnfurlJenkins.Duration`: the library's float64 duration is a Dafny `real`, so float64 rounding,
  NaN and the infinities are not represented. A value outside the int64 range, whose conversion
  Go leaves to the implementation, is truncated and then wrapped to int64.
- The tests' literal link paths (`/projects/MY-PRO/repos/my-repo/...`, PR 297 of `MY-PROJ/my-repo`,
  the Jenkins job `my-proj/my-repo/master`): the classification and preview lemmas are stated for
  all segments, so they cover those paths without spelling them out.

## Findings

| source | as written | input that shows it | evidently intended | confidence | as-written member | corrected member |
|---|---|---|---|---|---|---|
| src/unfurl/bitbucket.go:163 | the status of `co.Values[0]` is fetched and shown without checking that the commit list is non-empty | a repository link to a repository with no commits (the commits fetch succeeds with an empty list) | report an error for an empty repository instead of panicking the event's goroutine | medium, not executed | UnfurlBitbucket.EmptyRepositoryStops | UnfurlBitbucket.RepoStepsAgrees |
| src/unfurl/bitbucket.go:169 | `r.Links.Self[0]` of the fetched repository is read without a check | a repository whose JSON has an empty `links.self` list, with a first commit whose status fetch succeeds | report an error instead of panicking | low, not executed | UnfurlBitbucket.SelflessRepositoryPanics | UnfurlBitbucket.RepoStepsAgrees |
| src/unfurl/bitbucket.go:137-139 | `Self[0]` of the author's and the pull request's links is read without a check | a pull request whose JSON has an empty `links.self` list | report an error instead of panicking | low, not executed | UnfurlBitbucket.SelflessPullRequestPanics | UnfurlBitbucket.PullRequestPreviewAgrees |
| src/bitbucket/pr.go:67-74 | `RepoSlug` writes the repository slug before the project key | slug `test-repo`, project key `test-project`, id 123, as in `src/bitbucket/pr_test.go:70-84` | `test-project/test-repo#123`: the project key first | high, not executed | BitbucketPR.RepoSlugSwapped | BitbucketPR.RepoSlugIntendedReadsBack |
