/** The Bitbucket REST path templates and the review constants of `src/bitbucket/constants.go`.
    Each template is kept as the sequence of literal pieces and `%s` verbs that `fmt.Sprintf`
    reads out of the Go string; `Fmt.Render` gives back the string as it is written. */
module BitbucketConstants {
  import opened Fmt

  // "https://%s/rest/api/1.0/%s"
  const ApiBase: Format := [Text("https://"), Verb, Text("/rest/api/1.0/"), Verb]
  // "projects/%s/repos/%s"
  const RepoPath: Format := [Text("projects/"), Verb, Text("/repos/"), Verb]
  // "projects/%s/repos/%s/commits"
  const RepoCommitsPath: Format := [Text("projects/"), Verb, Text("/repos/"), Verb, Text("/commits")]
  // "projects/%s/repos/%s/browse/%s"
  const BrowsePath: Format := [Text("projects/"), Verb, Text("/repos/"), Verb, Text("/browse/"), Verb]
  // "projects/%s/repos/%s/pull-requests"
  const PullRequestsPath: Format := [Text("projects/"), Verb, Text("/repos/"), Verb, Text("/pull-requests")]
  // "projects/%s/repos/%s/pull-requests/%s"
  const PullRequestPath: Format :=
    [Text("projects/"), Verb, Text("/repos/"), Verb, Text("/pull-requests/"), Verb]

  // "https://%s/rest/build-status/1.0/%s"
  const StatusBase: Format := [Text("https://"), Verb, Text("/rest/build-status/1.0/"), Verb]
  // "commits/%s"
  const StatusPath: Format := [Text("commits/"), Verb]

  /** `APIPaths`: the REST API templates by operation name. */
  const APIPaths: map<string, Format> := map[
    "base" := ApiBase,
    "repo" := RepoPath,
    "repoCommits" := RepoCommitsPath,
    "browse" := BrowsePath,
    "pullRequests" := PullRequestsPath,
    "pullRequest" := PullRequestPath
  ]

  /** `StatusPaths`: the build-status API templates. */
  const StatusPaths: map<string, Format> := map[
    "base" := StatusBase,
    "status" := StatusPath
  ]

  /** Go's `apis[key]`: a missing key reads as the empty string. */
  function Lookup(apis: map<string, Format>, key: string): (f: Format)
    ensures key in apis ==> f == apis[key]
    ensures key !in apis ==> Render(f) == ""
  {
    if key in apis then apis[key] else []
  }

  const ReviewStatusNeedsWork := "NEEDS_WORK"
  const ReviewStatusApproved := "APPROVED"
  const ReviewStatusUnapproved := "UNAPPROVED"
  const UserRoleAuthor := "AUTHOR"
  const UserRoleReviewer := "REVIEWER"

  /** Every repository-scoped template starts with the `repo` template, as written text. */
  lemma RepoScopedTemplates(key: string)
    requires key in {"repoCommits", "browse", "pullRequests", "pullRequest"}
    ensures Render(APIPaths["repo"]) <= Render(APIPaths[key])
  {
    var t := APIPaths[key];
    var tail := t[|RepoPath|..];
    assert t == RepoPath + tail;
    RenderConcat(RepoPath, tail);
  }

  /** The single pull-request template is the list template followed by `/%s`. */
  lemma PullRequestExtendsList()
    ensures Render(APIPaths["pullRequest"]) == Render(APIPaths["pullRequests"]) + "/%s"
    ensures Verbs(APIPaths["pullRequest"]) == Verbs(APIPaths["pullRequests"]) + 1
  {
    TemplatesByKey();
    PullRequestsSlash();
    assert PullRequestPath == RepoPath + [Text("/pull-requests" + "/"), Verb];
    assert PullRequestsPath == RepoPath + [Text("/pull-requests")];
    SlashVerbTail(RepoPath, "/pull-requests");
    VerbCounts();
  }

  /** A template ending in the text `t/` and a verb renders as the one ending in `t`, then `/%s`. */
  lemma SlashVerbTail(base: Format, t: string)
    ensures Render(base + [Text(t + "/"), Verb]) == Render(base + [Text(t)]) + "/%s"
  {
    var u := t + "/";
    RenderConcat(base, [Text(u), Verb]);
    RenderConcat(base, [Text(t)]);
    RenderTextVerb(u);
    TextRenders(t);
    Regroup(Render(base), t, "/", "%s");
    SlashVerbText();
  }

  // String identities for the proofs above, each a lemma of its own so that those proofs stay
  // small.

  lemma SlashVerbText()
    ensures "/" + "%s" == "/%s"
  {
  }

  lemma PullRequestsSlash()
    ensures "/pull-requests" + "/" == "/pull-requests/"
  {
  }

  lemma Regroup(r: string, t: string, a: string, b: string)
    ensures r + ((t + a) + b) == (r + t) + (a + b)
  {
  }

  lemma TextRenders(t: string)
    ensures Render([Text(t)]) == t
  {
    assert [Text(t)][1..] == [];
    assert t + "" == t;
  }

  /** The number of `%s` verbs in each template matches the arguments its callers pass. */
  lemma VerbCounts()
    ensures Verbs(APIPaths["base"]) == 2 && Verbs(StatusPaths["base"]) == 2
    ensures Verbs(APIPaths["repo"]) == 2 && Verbs(APIPaths["repoCommits"]) == 2
    ensures Verbs(APIPaths["pullRequests"]) == 2 && Verbs(APIPaths["pullRequest"]) == 3
    ensures Verbs(APIPaths["browse"]) == 3 && Verbs(StatusPaths["status"]) == 1
  {
    TemplatesByKey();
    assert Verbs(ApiBase) == 2 && Verbs(StatusBase) == 2;
    assert Verbs(RepoPath) == 2 && Verbs(RepoCommitsPath) == 2;
    assert Verbs(PullRequestsPath) == 2 && Verbs(PullRequestPath) == 3;
    assert Verbs(BrowsePath) == 3 && Verbs(StatusPath) == 1;
  }

  /** The template stored under each key. */
  lemma TemplatesByKey()
    ensures APIPaths["base"] == ApiBase && APIPaths["repo"] == RepoPath
    ensures APIPaths["repoCommits"] == RepoCommitsPath && APIPaths["browse"] == BrowsePath
    ensures APIPaths["pullRequests"] == PullRequestsPath && APIPaths["pullRequest"] == PullRequestPath
    ensures StatusPaths["base"] == StatusBase && StatusPaths["status"] == StatusPath
  {
  }

  /** The three review statuses, and the two roles, are pairwise distinct. */
  lemma ReviewConstantsDistinct()
    ensures ReviewStatusNeedsWork != ReviewStatusApproved
    ensures ReviewStatusNeedsWork != ReviewStatusUnapproved
    ensures ReviewStatusApproved != ReviewStatusUnapproved
    ensures UserRoleAuthor != UserRoleReviewer
  {
  }

  /** The API base template puts the server and the path after the scheme and the API prefix. */
  lemma ApiBaseFills(server: string, path: string)
    ensures Sprintf(APIPaths["base"], [server, path]) == "https://" + server + "/rest/api/1.0/" + path
  {
    assert [server, path] == [server] + [path];
    SprintfConcat([Text("https://"), Verb], [Text("/rest/api/1.0/"), Verb], [server], [path]);
    assert ApiBase == [Text("https://"), Verb] + [Text("/rest/api/1.0/"), Verb];
    SprintfTextVerb("https://", server);
    SprintfTextVerb("/rest/api/1.0/", path);
  }

  /** Likewise for the build-status base template. */
  lemma StatusBaseFills(server: string, path: string)
    ensures Sprintf(StatusPaths["base"], [server, path]) == "https://" + server + "/rest/build-status/1.0/" + path
  {
    assert [server, path] == [server] + [path];
    SprintfConcat([Text("https://"), Verb], [Text("/rest/build-status/1.0/"), Verb], [server], [path]);
    assert StatusBase == [Text("https://"), Verb] + [Text("/rest/build-status/1.0/"), Verb];
    SprintfTextVerb("https://", server);
    SprintfTextVerb("/rest/build-status/1.0/", path);
  }

  /** The repository template puts the project key and the slug in their places. */
  lemma RepoPathFills(project: string, repo: string)
    ensures Sprintf(RepoPath, [project, repo]) == "projects/" + project + "/repos/" + repo
  {
    assert [project, repo] == [project] + [repo];
    SprintfConcat([Text("projects/"), Verb], [Text("/repos/"), Verb], [project], [repo]);
    assert RepoPath == [Text("projects/"), Verb] + [Text("/repos/"), Verb];
    SprintfTextVerb("projects/", project);
    SprintfTextVerb("/repos/", repo);
  }

  /** The single pull-request template puts the key, the slug and the id in their places. */
  lemma PullRequestPathFills(project: string, repo: string, id: string)
    ensures Sprintf(PullRequestPath, [project, repo, id]) ==
      "projects/" + project + "/repos/" + repo + "/pull-requests/" + id
  {
    var tail: Format := [Text("/pull-requests/"), Verb];
    assert PullRequestPath == RepoPath + tail;
    assert [project, repo, id] == [project, repo] + [id];
    SprintfConcat(RepoPath, tail, [project, repo], [id]);
    RepoPathFills(project, repo);
    SprintfTextVerb("/pull-requests/", id);
  }

  /** The pull-request list template puts the key and the slug in their places. */
  lemma PullRequestsPathFills(project: string, repo: string)
    ensures Sprintf(PullRequestsPath, [project, repo]) == "projects/" + project + "/repos/" + repo + "/pull-requests"
  {
    var tail: Format := [Text("/pull-requests")];
    assert PullRequestsPath == RepoPath + tail;
    assert [project, repo] == [project, repo] + [];
    SprintfConcat(RepoPath, tail, [project, repo], []);
    RepoPathFills(project, repo);
    SprintfText("/pull-requests");
  }

  /** The commit list template puts the key and the slug in their places. */
  lemma RepoCommitsPathFills(project: string, repo: string)
    ensures Sprintf(RepoCommitsPath, [project, repo]) == "projects/" + project + "/repos/" + repo + "/commits"
  {
    var tail: Format := [Text("/commits")];
    assert RepoCommitsPath == RepoPath + tail;
    assert [project, repo] == [project, repo] + [];
    SprintfConcat(RepoPath, tail, [project, repo], []);
    RepoPathFills(project, repo);
    SprintfText("/commits");
  }

  /** The browse template puts the key, the slug and the file path in their places. */
  lemma BrowsePathFills(project: string, repo: string, file: string)
    ensures Sprintf(BrowsePath, [project, repo, file]) == "projects/" + project + "/repos/" + repo + "/browse/" + file
  {
    var tail: Format := [Text("/browse/"), Verb];
    assert BrowsePath == RepoPath + tail;
    assert [project, repo, file] == [project, repo] + [file];
    SprintfConcat(RepoPath, tail, [project, repo], [file]);
    RepoPathFills(project, repo);
    SprintfTextVerb("/browse/", file);
  }
}
