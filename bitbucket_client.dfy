/** The Bitbucket client (`src/bitbucket/client.go`): its defaults, the URLs it builds and the status
    check every fetcher applies. The HTTP exchange and the JSON decoding are the server's side: a
    `Server` maps each request to the reply it gets. */
module BitbucketClient {
  import opened Wrappers
  import opened Fmt
  import opened BitbucketConstants
  import opened Errors
  import Strconv
  import BitbucketRepo
  import BitbucketPR
  import BitbucketCommit
  import BitbucketStatus

  /** `Client`; `timeout` and `useragent` are unexported and zero unless set. */
  datatype Client = Client(server: string, pat: string, timeout: int, useragent: string)

  const DefaultTimeout := 2
  const DefaultUseragent := "bitbucket-go-sdk"

  /** `Client.Timeout`: the timeout in seconds; the zero value means the default, so the client
      never runs without one. */
  function Timeout(c: Client): (t: int)
    ensures t != 0
    ensures c.timeout != 0 ==> t == c.timeout
    ensures c.timeout == 0 ==> t == DefaultTimeout
  {
    if c.timeout == 0 then DefaultTimeout else c.timeout
  }

  /** `Client.Useragent`: the configured user agent, or the default one; never empty. */
  function Useragent(c: Client): (u: string)
    ensures u != ""
    ensures c.useragent != "" ==> u == c.useragent
    ensures c.useragent == "" ==> u == DefaultUseragent
  {
    if c.useragent == "" then DefaultUseragent else c.useragent
  }

  /** The GET request `RawRequest` sends: the URL, its two headers and the timeout. */
  datatype Request = Request(url: string, userAgent: string, authorization: string, timeoutSeconds: int)

  function NewRequest(c: Client, url: string): (req: Request)
    ensures req.url == url
    ensures req.authorization == "Bearer " + c.pat
    ensures req.userAgent == Useragent(c) && req.timeoutSeconds == Timeout(c)
  {
    SprintfTextVerb("Bearer ", c.pat);
    Request(url, Useragent(c), Sprintf([Text("Bearer "), Verb], [c.pat]), Timeout(c))
  }

  /** What a request gets back: no answer at all, or a status code with the result of decoding
      the body as the expected record. */
  datatype Reply<T> = Unreachable(reason: string) | Response(statusCode: int, body: Result<T, string>)

  /** The check every fetcher makes on the reply: a status other than 200 is an error and the body
      is not decoded; a 200 answer yields the decoded record or the decoding error. */
  function Get<T>(reply: Reply<T>): (r: Result<T, Error>)
    ensures r.Success? <==> reply.Response? && reply.statusCode == 200 && reply.body.Success?
    ensures r.Success? ==> r.value == reply.body.value
    ensures reply.Response? && reply.statusCode != 200 ==> r == Failure(UnexpectedStatus(reply.statusCode))
    ensures r.Failure? ==> r.error.Transport? || r.error.UnexpectedStatus? || r.error.Decode?
  {
    match reply
    case Unreachable(reason) => Failure(Transport(reason))
    case Response(code, body) =>
      if code != 200 then Failure(UnexpectedStatus(code))
      else match body
        case Success(v) => Success(v)
        case Failure(e) => Failure(Decode(e))
  }

  /** Under a status other than 200 the body plays no part. */
  lemma GetIgnoresBody<T>(code: int, b1: Result<T, string>, b2: Result<T, string>)
    requires code != 200
    ensures Get(Response(code, b1)) == Get(Response(code, b2))
  {
  }

  /** The Bitbucket server, one endpoint per record kind. */
  datatype Server = Server(
    pullRequests: Request -> Reply<BitbucketPR.PullRequests>,
    pullRequest: Request -> Reply<BitbucketPR.PullRequest>,
    repository: Request -> Reply<BitbucketRepo.Repository>,
    commits: Request -> Reply<BitbucketCommit.CommitList>,
    status: Request -> Reply<BitbucketStatus.StatusList>)

  /** `Client.rawUrl`: the path template filled with the arguments when there are any, or taken as
      written when there are none, then put into the `base` template after the server. */
  function RawUrl(c: Client, apis: map<string, Format>, path: string, args: seq<string>): string
  {
    var url := if |args| > 0 then Sprintf(Lookup(apis, path), args) else Render(Lookup(apis, path));
    Sprintf(Lookup(apis, "base"), [c.server, url])
  }

  /** With no arguments the path template lands in the URL as written, `%s` verbs included. */
  lemma RawUrlNoArgs(c: Client, path: string)
    ensures RawUrl(c, APIPaths, path, []) == "https://" + c.server + "/rest/api/1.0/" + Render(Lookup(APIPaths, path))
    ensures RawUrl(c, StatusPaths, path, []) ==
      "https://" + c.server + "/rest/build-status/1.0/" + Render(Lookup(StatusPaths, path))
  {
    ApiBaseFills(c.server, Render(Lookup(APIPaths, path)));
    StatusBaseFills(c.server, Render(Lookup(StatusPaths, path)));
  }

  /** With one argument per verb, the arguments fill the verbs in order and Go adds no marker for a
      missing or an extra argument. */
  lemma RawUrlFills(c: Client, path: string, args: seq<string>)
    requires path in APIPaths && |args| == Verbs(APIPaths[path]) > 0
    ensures RawUrl(c, APIPaths, path, args) == "https://" + c.server + "/rest/api/1.0/" + Substitute(APIPaths[path], args)
  {
    var url := Sprintf(APIPaths[path], args);
    assert url == Substitute(APIPaths[path], args);
    ApiBaseFills(c.server, url);
  }

  /** `Client.PullRequests`. */
  function PullRequestsUrl(c: Client, project: string, repo: string): string
  {
    RawUrl(c, APIPaths, "pullRequests", [project, repo])
  }

  function FetchPullRequests(c: Client, srv: Server, project: string, repo: string): Result<BitbucketPR.PullRequests, Error>
  {
    Get(srv.pullRequests(NewRequest(c, PullRequestsUrl(c, project, repo))))
  }

  /** `Client.PullRequest`: the id goes into the URL in decimal. */
  function PullRequestUrl(c: Client, project: string, repo: string, id: int): string
  {
    RawUrl(c, APIPaths, "pullRequest", [project, repo, Strconv.Itoa(id)])
  }

  function FetchPullRequest(c: Client, srv: Server, project: string, repo: string, id: int): Result<BitbucketPR.PullRequest, Error>
  {
    Get(srv.pullRequest(NewRequest(c, PullRequestUrl(c, project, repo, id))))
  }

  /** `Client.Repository`. */
  function RepositoryUrl(c: Client, project: string, repo: string): string
  {
    RawUrl(c, APIPaths, "repo", [project, repo])
  }

  function FetchRepository(c: Client, srv: Server, project: string, repo: string): Result<BitbucketRepo.Repository, Error>
  {
    Get(srv.repository(NewRequest(c, RepositoryUrl(c, project, repo))))
  }

  /** `Client.Commits`: the commits URL, `?`, and the query string, through `"%s?%s"`. */
  function CommitsUrl(c: Client, project: string, repo: string, co: BitbucketCommit.CommitOptions): string
  {
    Sprintf([Verb, Text("?"), Verb], [RawUrl(c, APIPaths, "repoCommits", [project, repo]), BitbucketCommit.ToQueryString(co)])
  }

  function FetchCommits(c: Client, srv: Server, project: string, repo: string, co: BitbucketCommit.CommitOptions): Result<BitbucketCommit.CommitList, Error>
  {
    Get(srv.commits(NewRequest(c, CommitsUrl(c, project, repo, co))))
  }

  /** `Client.Status`: the build statuses of a commit, from the build-status API. */
  function StatusUrl(c: Client, sha: string): string
  {
    RawUrl(c, StatusPaths, "status", [sha])
  }

  function FetchStatus(c: Client, srv: Server, sha: string): Result<BitbucketStatus.StatusList, Error>
  {
    Get(srv.status(NewRequest(c, StatusUrl(c, sha))))
  }

  /** The URL of the pull-request list of a repository. */
  lemma PullRequestsUrlShape(c: Client, project: string, repo: string)
    ensures PullRequestsUrl(c, project, repo) ==
      "https://" + c.server + "/rest/api/1.0/" + ("projects/" + project + "/repos/" + repo + "/pull-requests")
  {
    PullRequestsPathFills(project, repo);
    ApiBaseFills(c.server, Sprintf(PullRequestsPath, [project, repo]));
  }

  /** The URL of one pull request: the list URL, `/` and the id in decimal. */
  lemma PullRequestUrlShape(c: Client, project: string, repo: string, id: int)
    ensures PullRequestUrl(c, project, repo, id) ==
      "https://" + c.server + "/rest/api/1.0/" + ("projects/" + project + "/repos/" + repo + "/pull-requests/" + Strconv.Itoa(id))
  {
    PullRequestPathFills(project, repo, Strconv.Itoa(id));
    ApiBaseFills(c.server, Sprintf(PullRequestPath, [project, repo, Strconv.Itoa(id)]));
  }

  /** The URL of a repository. */
  lemma RepositoryUrlShape(c: Client, project: string, repo: string)
    ensures RepositoryUrl(c, project, repo) ==
      "https://" + c.server + "/rest/api/1.0/" + ("projects/" + project + "/repos/" + repo)
  {
    RepoPathFills(project, repo);
    ApiBaseFills(c.server, Sprintf(RepoPath, [project, repo]));
  }

  /** The URL of the build statuses of a commit, on the build-status API. */
  lemma StatusUrlShape(c: Client, sha: string)
    ensures StatusUrl(c, sha) == "https://" + c.server + "/rest/build-status/1.0/" + ("commits/" + sha)
  {
    SprintfTextVerb("commits/", sha);
    StatusBaseFills(c.server, Sprintf(StatusPath, [sha]));
  }

  /** The URL of the commit list of a repository, before its query. */
  lemma RepoCommitsUrlShape(c: Client, project: string, repo: string)
    ensures RawUrl(c, APIPaths, "repoCommits", [project, repo]) ==
      "https://" + c.server + "/rest/api/1.0/" + ("projects/" + project + "/repos/" + repo + "/commits")
  {
    RepoCommitsPathFills(project, repo);
    ApiBaseFills(c.server, Sprintf(RepoCommitsPath, [project, repo]));
  }

  /** `"%s?%s"` joins its two arguments with a `?`. */
  lemma QueryFormat(url: string, q: string)
    ensures Sprintf([Verb, Text("?"), Verb], [url, q]) == url + "?" + q
  {
    assert [Verb, Text("?"), Verb] == [Verb] + [Text("?"), Verb];
    assert [url, q] == [url] + [q];
    SprintfConcat([Verb], [Text("?"), Verb], [url], [q]);
    assert Substitute([Verb], [url]) == url + Substitute([], []);
    SprintfTextVerb("?", q);
  }

  /** The commits URL always holds the `?`. */
  lemma CommitsUrlShape(c: Client, project: string, repo: string, co: BitbucketCommit.CommitOptions)
    ensures CommitsUrl(c, project, repo, co) ==
      "https://" + c.server + "/rest/api/1.0/" + ("projects/" + project + "/repos/" + repo + "/commits")
      + "?" + BitbucketCommit.ToQueryString(co)
  {
    RepoCommitsUrlShape(c, project, repo);
    QueryFormat(RawUrl(c, APIPaths, "repoCommits", [project, repo]), BitbucketCommit.ToQueryString(co));
  }

  /** With no option set, the commits URL ends in a bare `?`. */
  lemma NoOptionsCommitsUrl(c: Client, project: string, repo: string)
    ensures CommitsUrl(c, project, repo, BitbucketCommit.NoOptions) ==
      "https://" + c.server + "/rest/api/1.0/" + ("projects/" + project + "/repos/" + repo + "/commits") + "?"
  {
    CommitsUrlShape(c, project, repo, BitbucketCommit.NoOptions);
    BitbucketCommit.NoOptionsQuery();
    var url := "https://" + c.server + "/rest/api/1.0/" + ("projects/" + project + "/repos/" + repo + "/commits") + "?";
    assert url + "" == url;
  }

  /** Every fetch sends the client's credentials and defaults along with its URL. */
  lemma RequestsCarryCredentials(c: Client, url: string)
    ensures NewRequest(c, url).authorization == "Bearer " + c.pat
    ensures NewRequest(c, url).userAgent != "" && NewRequest(c, url).timeoutSeconds != 0
  {
  }
}
