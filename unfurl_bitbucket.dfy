/** Bitbucket link previews (`src/unfurl/bitbucket.go`): the classification of a link's path by
    the three URL patterns, the dispatch on the kind, and the pull-request and repository
    previews built from the records the server returns. */
module UnfurlBitbucket {
  import opened Wrappers
  import opened Fmt
  import opened Regexp
  import opened BitbucketConstants
  import opened Errors
  import opened Slack
  import opened Preview
  import Strconv
  import opened BitbucketRepo
  import opened BitbucketPR
  import opened BitbucketCommit
  import opened BitbucketStatus
  import opened BitbucketClient

  const BitbucketIcon := "https://avatars.slack-edge.com/2021-06-20/2187759053413_fb4aad0a769aaadbdc62_72.png"
  const PullRequestType := "pull_request"
  const RepoType := "repo"
  const SourceCodeType := "source_code"
  const UnknownType := "unknown"

  /** `"^/" + fmt.Sprintf(APIPaths[...], "([^/]+)", ...)`: each template behind a `/`, every verb
      turned into a group. The file path of a source link is `(.+)`. */
  const PullRequestPattern: Pattern := Compile([Text("/")] + APIPaths["pullRequest"], [NotSlash, NotSlash, NotSlash])
  const SourceCodePattern: Pattern := Compile([Text("/")] + APIPaths["browse"], [NotSlash, NotSlash, NotNewline])
  const RepoPattern: Pattern := Compile([Text("/")] + APIPaths["repo"], [NotSlash, NotSlash])

  /** `bitbucketLinkType`: the first of the pull-request, source and repository patterns that
      matches the path, with its submatches, or `unknown` and no submatches. */
  function LinkType(path: string): (string, seq<string>)
  {
    if MatchString(PullRequestPattern, path) then (PullRequestType, FindSubmatch(PullRequestPattern, path))
    else if MatchString(SourceCodePattern, path) then (SourceCodeType, FindSubmatch(SourceCodePattern, path))
    else if MatchString(RepoPattern, path) then (RepoType, FindSubmatch(RepoPattern, path))
    else (UnknownType, [])
  }

  /** The path of a repository page. */
  function RepoPrefix(project: string, repo: string): string
  {
    "/projects/" + project + "/repos/" + repo
  }

  /** The compiled patterns, atom by atom: both longer ones extend the repository pattern, and all
      three are well formed, so the greedy match is the only one. */
  lemma PatternShapes()
    ensures RepoPattern == [Lit("/"), Lit("projects/"), Group(NotSlash), Lit("/repos/"), Group(NotSlash)]
    ensures PullRequestPattern == RepoPattern + [Lit("/pull-requests/"), Group(NotSlash)]
    ensures SourceCodePattern == RepoPattern + [Lit("/browse/"), Group(NotNewline)]
    ensures WellFormed(RepoPattern) && WellFormed(PullRequestPattern) && WellFormed(SourceCodePattern)
  {
    RepoPatternShape();
    ExtendedPatternShape("pullRequest", "/pull-requests/", NotSlash);
    ExtendedPatternShape("browse", "/browse/", NotNewline);
    WellFormedRepoPattern([]);
    AppendEmpty(RepoPattern);
    WellFormedLitGroup("/pull-requests/", NotSlash, []);
    AppendEmpty([Lit("/pull-requests/"), Group(NotSlash)]);
    WellFormedRepoPattern([Lit("/pull-requests/"), Group(NotSlash)]);
    WellFormedLitGroup("/browse/", NotNewline, []);
    AppendEmpty([Lit("/browse/"), Group(NotNewline)]);
    WellFormedRepoPattern([Lit("/browse/"), Group(NotNewline)]);
  }

  /** The pull-request and browse templates compile to the repository pattern and one more
      literal and group. */
  lemma ExtendedPatternShape(key: string, t: string, k: Class)
    requires key == "pullRequest" || key == "browse"
    requires key == "pullRequest" ==> t == "/pull-requests/" && k == NotSlash
    requires key == "browse" ==> t == "/browse/" && k == NotNewline
    ensures Compile([Text("/")] + APIPaths[key], [NotSlash, NotSlash, k]) == RepoPattern + [Lit(t), Group(k)]
  {
    var repoF := [Text("/")] + APIPaths["repo"];
    assert Verbs(repoF) == 2 by {
      VerbsConcat([Text("/")], RepoPath);
    }
    CompileTextVerb(t, k);
    assert [Text("/")] + APIPaths[key] == repoF + [Text(t), Verb];
    assert [NotSlash, NotSlash, k] == [NotSlash, NotSlash] + [k];
    CompileConcat(repoF, [Text(t), Verb], [NotSlash, NotSlash], [k]);
  }

  lemma RepoPatternShape()
    ensures RepoPattern == [Lit("/"), Lit("projects/"), Group(NotSlash), Lit("/repos/"), Group(NotSlash)]
  {
    var lead: Format := [Text("/"), Text("projects/"), Verb];
    var mid: Format := [Text("/repos/"), Verb];
    assert Compile(lead, [NotSlash]) == [Lit("/"), Lit("projects/"), Group(NotSlash)] by {
      assert lead[1..] == [Text("projects/"), Verb] && lead[1..][1..] == [Verb];
      assert Compile([Verb], [NotSlash]) == [Group(NotSlash)];
      assert Compile(lead[1..], [NotSlash]) == [Lit("projects/")] + Compile([Verb], [NotSlash]);
    }
    CompileTextVerb("/repos/", NotSlash);
    assert [Text("/")] + APIPaths["repo"] == lead + mid;
    assert Verbs(lead) == 1 by {
      assert Verbs(lead) == Verbs(lead[1..]);
      assert Verbs(lead[1..]) == Verbs([Verb]);
    }
    assert [NotSlash, NotSlash] == [NotSlash] + [NotSlash];
    CompileConcat(lead, mid, [NotSlash], [NotSlash]);
  }

  /** The repository pattern followed by a well-formed pattern that starts with a literal
      outside the last group's class (or by nothing) is well formed. */
  lemma WellFormedRepoPattern(tail: Pattern)
    requires WellFormed(tail)
    requires tail != [] ==> tail[0].Lit? && tail[0].text != [] && !InClass(NotSlash, tail[0].text[0])
    ensures WellFormed([Lit("/"), Lit("projects/"), Group(NotSlash), Lit("/repos/"), Group(NotSlash)] + tail)
  {
    var a, b, c := "/", "projects/", "/repos/";
    WellFormedLitGroup(c, NotSlash, tail);
    assert c[0] == '/';
    WellFormedLitGroup(b, NotSlash, [Lit(c), Group(NotSlash)] + tail);
    WellFormedLit(a, [Lit(b), Group(NotSlash)] + ([Lit(c), Group(NotSlash)] + tail));
    assert [Lit(a)] + ([Lit(b), Group(NotSlash)] + ([Lit(c), Group(NotSlash)] + tail)) ==
      [Lit(a), Lit(b), Group(NotSlash), Lit(c), Group(NotSlash)] + tail;
  }

  /** `"/"` before a template filled with one argument per verb. */
  lemma SlashFills(f: Format, args: seq<string>)
    requires |args| == Verbs(f)
    ensures Sprintf([Text("/")] + f, args) == "/" + Sprintf(f, args)
  {
    assert args == [] + args;
    SprintfConcat([Text("/")], f, [], args);
    SprintfText("/");
  }

  /** `p` and `r` captured by the repository pattern spell the repository path. */
  lemma RepoInstance(p: string, r: string)
    requires Segment(p) && Segment(r)
    ensures Fits(RepoPattern, [p, r])
    ensures Instance(RepoPattern, [p, r]) == RepoPrefix(p, r)
  {
    var f := [Text("/")] + RepoPath;
    assert APIPaths["repo"] == RepoPath;
    VerbsConcat([Text("/")], RepoPath);
    SegmentIn(p);
    SegmentIn(r);
    RunsFit([NotSlash, NotSlash], [p, r]);
    RepoPageFills(p, r);
    TemplateInstance(RepoPattern, f, [NotSlash, NotSlash], [p, r], RepoPrefix(p, r));
  }

  /** The path of a pull-request page. */
  function PullRequestPage(project: string, repo: string, id: string): string
  {
    RepoPrefix(project, repo) + "/pull-requests/" + id
  }

  /** The path of a file shown in the source browser. */
  function SourcePage(project: string, repo: string, file: string): string
  {
    RepoPrefix(project, repo) + "/browse/" + file
  }

  /** A file path `(.+)` can capture: non-empty, without a newline. */
  predicate FilePath(s: string)
  {
    s != [] && forall i :: 0 <= i < |s| ==> s[i] != '\n'
  }

  /** The groups fit a pattern compiled from a template, and the pattern spells what the
      template prints with them. */
  lemma TemplateInstance(P: Pattern, f: Format, cs: seq<Class>, gs: seq<string>, s: string)
    requires P == Compile(f, cs) && |gs| == |cs| == Verbs(f)
    requires forall i :: 0 <= i < |gs| ==> gs[i] != [] && AllIn(cs[i], gs[i])
    requires Sprintf(f, gs) == s
    ensures Fits(P, gs) && Instance(P, gs) == s
  {
    CompileFits(f, cs, gs);
    CompileInstance(f, cs, gs);
  }

  lemma SegmentIn(g: string)
    requires Segment(g)
    ensures AllIn(NotSlash, g)
  {
  }

  lemma FilePathIn(g: string)
    requires FilePath(g)
    ensures AllIn(NotNewline, g)
  {
  }

  /** Non-empty captures, each in its class, one per class. */
  lemma RunsFit(cs: seq<Class>, gs: seq<string>)
    requires |gs| == |cs| <= 3
    requires |gs| > 0 ==> gs[0] != [] && AllIn(cs[0], gs[0])
    requires |gs| > 1 ==> gs[1] != [] && AllIn(cs[1], gs[1])
    requires |gs| > 2 ==> gs[2] != [] && AllIn(cs[2], gs[2])
    ensures forall i :: 0 <= i < |gs| ==> gs[i] != [] && AllIn(cs[i], gs[i])
  {
  }

  /** `"/"` before the repository template, filled. */
  lemma RepoPageFills(p: string, r: string)
    ensures Sprintf([Text("/")] + RepoPath, [p, r]) == RepoPrefix(p, r)
  {
    SlashFills(RepoPath, [p, r]);
    RepoPathFills(p, r);
    PrefixSpelling(p, r, "");
  }

  /** A `/` before a filled template starting with `projects/` spells the repository path. */
  lemma PrefixSpelling(p: string, r: string, tail: string)
    ensures "/" + ("projects/" + p + "/repos/" + r + tail) == RepoPrefix(p, r) + tail
  {
    assert "/" + "projects/" == "/projects/";
  }

  /** `"/"` before the pull-request template, filled. */
  lemma PullRequestPageFills(p: string, r: string, x: string)
    ensures Sprintf([Text("/")] + PullRequestPath, [p, r, x]) == PullRequestPage(p, r, x)
  {
    SlashFills(PullRequestPath, [p, r, x]);
    PullRequestPathFills(p, r, x);
    PrefixSpelling(p, r, "/pull-requests/" + x);
    assert "projects/" + p + "/repos/" + r + "/pull-requests/" + x == "projects/" + p + "/repos/" + r + ("/pull-requests/" + x);
  }

  /** `"/"` before the browse template, filled. */
  lemma SourcePageFills(p: string, r: string, file: string)
    ensures Sprintf([Text("/")] + BrowsePath, [p, r, file]) == SourcePage(p, r, file)
  {
    SlashFills(BrowsePath, [p, r, file]);
    BrowsePathFills(p, r, file);
    PrefixSpelling(p, r, "/browse/" + file);
    assert "projects/" + p + "/repos/" + r + "/browse/" + file == "projects/" + p + "/repos/" + r + ("/browse/" + file);
  }

  lemma PullRequestInstance(p: string, r: string, x: string)
    requires Segment(p) && Segment(r) && Segment(x)
    ensures Fits(PullRequestPattern, [p, r, x])
    ensures Instance(PullRequestPattern, [p, r, x]) == PullRequestPage(p, r, x)
  {
    var f := [Text("/")] + PullRequestPath;
    assert APIPaths["pullRequest"] == PullRequestPath;
    VerbsConcat([Text("/")], PullRequestPath);
    SegmentIn(p);
    SegmentIn(r);
    SegmentIn(x);
    RunsFit([NotSlash, NotSlash, NotSlash], [p, r, x]);
    PullRequestPageFills(p, r, x);
    TemplateInstance(PullRequestPattern, f, [NotSlash, NotSlash, NotSlash], [p, r, x], PullRequestPage(p, r, x));
  }

  lemma SourceInstance(p: string, r: string, file: string)
    requires Segment(p) && Segment(r) && FilePath(file)
    ensures Fits(SourceCodePattern, [p, r, file])
    ensures Instance(SourceCodePattern, [p, r, file]) == SourcePage(p, r, file)
  {
    var f := [Text("/")] + BrowsePath;
    assert APIPaths["browse"] == BrowsePath;
    VerbsConcat([Text("/")], BrowsePath);
    SegmentIn(p);
    SegmentIn(r);
    FilePathIn(file);
    RunsFit([NotSlash, NotSlash, NotNewline], [p, r, file]);
    SourcePageFills(p, r, file);
    TemplateInstance(SourceCodePattern, f, [NotSlash, NotSlash, NotNewline], [p, r, file], SourcePage(p, r, file));
  }

  /** A match found at the start of `s` for an instance followed by `rest` is that instance. */
  lemma SubmatchOfInstance(P: Pattern, gs: seq<string>, rest: string)
    requires Match(P, Instance(P, gs) + rest) == Some(Submatch(|Instance(P, gs)|, gs))
    ensures FindSubmatch(P, Instance(P, gs) + rest) == [Instance(P, gs)] + gs
  {
    var s := Instance(P, gs) + rest;
    assert s[..|Instance(P, gs)|] == Instance(P, gs);
  }

  /** A pull-request page, whatever follows it (`/overview`, `/diff`, `/commits`), is a pull-request
      link whose submatches are the key, the slug and the id. */
  lemma PullRequestLinks(p: string, r: string, x: string, rest: string)
    requires Segment(p) && Segment(r) && Segment(x)
    requires rest == [] || rest[0] == '/'
    ensures LinkType(PullRequestPage(p, r, x) + rest) == (PullRequestType, [PullRequestPage(p, r, x), p, r, x])
  {
    PatternShapes();
    PullRequestInstance(p, r, x);
    BoundaryLast(PullRequestPattern, rest);
    MatchInstance(PullRequestPattern, [p, r, x], rest);
    SubmatchOfInstance(PullRequestPattern, [p, r, x], rest);
    var path := PullRequestPage(p, r, x) + rest;
    assert FindSubmatch(PullRequestPattern, path) == [PullRequestPage(p, r, x)] + [p, r, x];
    assert LinkType(path) == (PullRequestType, FindSubmatch(PullRequestPattern, path));
    assert [PullRequestPage(p, r, x)] + [p, r, x] == [PullRequestPage(p, r, x), p, r, x];
  }

  /** `[Lit(t), Group(k)]` matches exactly when `t` is followed by a character of the class. */
  lemma TailMatch(t: string, k: Class, v: string)
    ensures Match([Lit(t), Group(k)], v).Some? <==> t <= v && |v| > |t| && InClass(k, v[|t|])
  {
    var P := [Lit(t), Group(k)];
    assert P[0] == Lit(t) && P[1..] == [Group(k)] && P[1..][1..] == [];
    if t <= v {
      var w := v[|t|..];
      assert Match(P, v).Some? <==> Match([Group(k)], w).Some?;
      assert Match([Group(k)], w).Some? <==> RunLength(k, w) > 0;
      assert w != [] ==> w[0] == v[|t|];
    }
  }

  /** What follows a repository path when it opens a pull request. */
  predicate OpensPullRequest(rest: string)
  {
    "/pull-requests/" <= rest && |rest| > |"/pull-requests/"| && rest[|"/pull-requests/"|] != '/'
  }

  /** What follows a repository path when it opens a file. */
  predicate OpensFile(rest: string)
  {
    "/browse/" <= rest && |rest| > |"/browse/"| && rest[|"/browse/"|] != '\n'
  }

  /** After a repository path, the pull-request and source patterns match exactly when the rest
      opens a pull request or a file. */
  lemma ExtensionsMatch(p: string, r: string, rest: string)
    requires Segment(p) && Segment(r)
    requires rest == [] || rest[0] == '/'
    ensures MatchString(PullRequestPattern, RepoPrefix(p, r) + rest) <==> OpensPullRequest(rest)
    ensures MatchString(SourceCodePattern, RepoPrefix(p, r) + rest) <==> OpensFile(rest)
    ensures Match(RepoPattern, RepoPrefix(p, r) + rest) == Some(Submatch(|RepoPrefix(p, r)|, [p, r]))
  {
    PatternShapes();
    RepoInstance(p, r);
    BoundaryLast(RepoPattern, rest);
    MatchAppend(RepoPattern, [Lit("/pull-requests/"), Group(NotSlash)], [p, r], rest);
    TailMatch("/pull-requests/", NotSlash, rest);
    MatchAppend(RepoPattern, [Lit("/browse/"), Group(NotNewline)], [p, r], rest);
    TailMatch("/browse/", NotNewline, rest);
    assert Instance(RepoPattern, [p, r]) + [] == Instance(RepoPattern, [p, r]);
    MatchInstance(RepoPattern, [p, r], rest);
  }

  /** A file in the source browser is a source link, capturing the whole file path (which may hold
      `/`) up to a newline. */
  lemma SourceCodeLinks(p: string, r: string, file: string, rest: string)
    requires Segment(p) && Segment(r) && FilePath(file)
    requires rest == [] || rest[0] == '\n'
    ensures LinkType(SourcePage(p, r, file) + rest) == (SourceCodeType, [SourcePage(p, r, file), p, r, file])
  {
    NotPullRequest(p, r, file, rest);
    PatternShapes();
    SourceInstance(p, r, file);
    BoundaryLast(SourceCodePattern, rest);
    MatchInstance(SourceCodePattern, [p, r, file], rest);
    SubmatchOfInstance(SourceCodePattern, [p, r, file], rest);
    var path := SourcePage(p, r, file) + rest;
    assert FindSubmatch(SourceCodePattern, path) == [SourcePage(p, r, file)] + [p, r, file];
    assert LinkType(path) == (SourceCodeType, FindSubmatch(SourceCodePattern, path));
    assert [SourcePage(p, r, file)] + [p, r, file] == [SourcePage(p, r, file), p, r, file];
  }

  lemma NotPullRequest(p: string, r: string, file: string, rest: string)
    requires Segment(p) && Segment(r)
    ensures !MatchString(PullRequestPattern, SourcePage(p, r, file) + rest)
  {
    var tail := "/browse/" + file + rest;
    assert SourcePage(p, r, file) + rest == RepoPrefix(p, r) + tail;
    assert tail[1] == 'b' && "/pull-requests/"[1] == 'p';
    ExtensionsMatch(p, r, tail);
  }

  /** Any other page of a repository (`/browse` with nothing after it, `/commits`, `/branches`,
      `/settings`, or the bare repository path) is a repository link. */
  lemma RepoLinks(p: string, r: string, rest: string)
    requires Segment(p) && Segment(r)
    requires rest == [] || rest[0] == '/'
    requires !OpensPullRequest(rest) && !OpensFile(rest)
    ensures LinkType(RepoPrefix(p, r) + rest) == (RepoType, [RepoPrefix(p, r), p, r])
  {
    ExtensionsMatch(p, r, rest);
    RepoInstance(p, r);
    SubmatchOfInstance(RepoPattern, [p, r], rest);
    var path := RepoPrefix(p, r) + rest;
    assert FindSubmatch(RepoPattern, path) == [RepoPrefix(p, r)] + [p, r];
    assert LinkType(path) == (RepoType, FindSubmatch(RepoPattern, path));
    assert [RepoPrefix(p, r)] + [p, r] == [RepoPrefix(p, r), p, r];
  }

  /** A pattern that starts with `/projects/` fails on a path that does not. */
  lemma ProjectsFirst(P: Pattern, path: string)
    requires |P| >= 2 && P[0] == Lit("/") && P[1] == Lit("projects/")
    requires !("/projects/" <= path)
    ensures Match(P, path) == None
  {
  }

  /** A path outside `/projects/` is unknown, with no submatches. */
  lemma UnknownLinks(path: string)
    requires !("/projects/" <= path)
    ensures LinkType(path) == (UnknownType, [])
  {
    PatternShapes();
    ProjectsFirst(RepoPattern, path);
    ProjectsFirst(PullRequestPattern, path);
    ProjectsFirst(SourceCodePattern, path);
  }

  /** What a match of the pull-request pattern found: a pull-request page at the start of the path. */
  lemma PullRequestSound(path: string)
    requires MatchString(PullRequestPattern, path)
    ensures var m := FindSubmatch(PullRequestPattern, path);
      |m| == 4 && Segment(m[1]) && Segment(m[2]) && Segment(m[3]) &&
      m[0] == PullRequestPage(m[1], m[2], m[3]) && m[0] <= path
  {
    var f := [Text("/")] + APIPaths["pullRequest"];
    var cs := [NotSlash, NotSlash, NotSlash];
    assert f == [Text("/")] + PullRequestPath;
    VerbsConcat([Text("/")], PullRequestPath);
    MatchSound(PullRequestPattern, path);
    var mt := Match(PullRequestPattern, path).value;
    var gs := mt.groups;
    FitsCompile(f, cs, gs);
    assert AllIn(cs[0], gs[0]) && AllIn(cs[1], gs[1]) && AllIn(cs[2], gs[2]);
    SegmentRun(gs[0]);
    SegmentRun(gs[1]);
    SegmentRun(gs[2]);
    assert gs == [gs[0], gs[1], gs[2]];
    PullRequestInstance(gs[0], gs[1], gs[2]);
    assert FindSubmatch(PullRequestPattern, path) == [path[..mt.length]] + gs;
  }

  /** What a match of the source pattern found: a file page at the start of the path. */
  lemma SourceCodeSound(path: string)
    requires MatchString(SourceCodePattern, path)
    ensures var m := FindSubmatch(SourceCodePattern, path);
      |m| == 4 && Segment(m[1]) && Segment(m[2]) && FilePath(m[3]) &&
      m[0] == SourcePage(m[1], m[2], m[3]) && m[0] <= path
  {
    var f := [Text("/")] + APIPaths["browse"];
    var cs := [NotSlash, NotSlash, NotNewline];
    assert f == [Text("/")] + BrowsePath;
    VerbsConcat([Text("/")], BrowsePath);
    MatchSound(SourceCodePattern, path);
    var mt := Match(SourceCodePattern, path).value;
    var gs := mt.groups;
    FitsCompile(f, cs, gs);
    assert AllIn(cs[0], gs[0]) && AllIn(cs[1], gs[1]) && AllIn(cs[2], gs[2]);
    SegmentRun(gs[0]);
    SegmentRun(gs[1]);
    forall i | 0 <= i < |gs[2]| ensures gs[2][i] != '\n' {
      assert InClass(NotNewline, gs[2][i]);
    }
    assert gs == [gs[0], gs[1], gs[2]];
    SourceInstance(gs[0], gs[1], gs[2]);
    assert FindSubmatch(SourceCodePattern, path) == [path[..mt.length]] + gs;
  }

  /** What a match of the repository pattern found: a repository path at the start of the path. */
  lemma RepoSound(path: string)
    requires MatchString(RepoPattern, path)
    ensures var m := FindSubmatch(RepoPattern, path);
      |m| == 3 && Segment(m[1]) && Segment(m[2]) && m[0] == RepoPrefix(m[1], m[2]) && m[0] <= path
  {
    var f := [Text("/")] + APIPaths["repo"];
    var cs := [NotSlash, NotSlash];
    assert f == [Text("/")] + RepoPath;
    VerbsConcat([Text("/")], RepoPath);
    MatchSound(RepoPattern, path);
    var mt := Match(RepoPattern, path).value;
    var gs := mt.groups;
    FitsCompile(f, cs, gs);
    assert AllIn(cs[0], gs[0]) && AllIn(cs[1], gs[1]);
    SegmentRun(gs[0]);
    SegmentRun(gs[1]);
    assert gs == [gs[0], gs[1]];
    RepoInstance(gs[0], gs[1]);
    assert FindSubmatch(RepoPattern, path) == [path[..mt.length]] + gs;
  }

  /** Whatever the path, the kind and the submatches agree: a pull-request or source link has the
      whole match and three groups spelling a page at the start of the path, a repository link two,
      and only an unknown link has no submatches. */
  lemma LinkTypeSound(path: string)
    ensures var (kind, m) := LinkType(path);
      (kind == UnknownType <==> m == []) &&
      (kind == PullRequestType ==>
         |m| == 4 && Segment(m[1]) && Segment(m[2]) && Segment(m[3]) &&
         m[0] == PullRequestPage(m[1], m[2], m[3]) && m[0] <= path) &&
      (kind == SourceCodeType ==>
         |m| == 4 && Segment(m[1]) && Segment(m[2]) && FilePath(m[3]) &&
         m[0] == SourcePage(m[1], m[2], m[3]) && m[0] <= path) &&
      (kind == RepoType ==>
         |m| == 3 && Segment(m[1]) && Segment(m[2]) && m[0] == RepoPrefix(m[1], m[2]) && m[0] <= path)
  {
    if MatchString(PullRequestPattern, path) {
      PullRequestSound(path);
    } else if MatchString(SourceCodePattern, path) {
      SourceCodeSound(path);
    } else if MatchString(RepoPattern, path) {
      RepoSound(path);
    }
  }

  /** The message of the run-time panic raised by indexing an empty slice at 0. */
  const IndexPanic := "runtime error: index out of range [0] with length 0"

  /** The fields of a pull-request preview. Because the plain approval status is never empty, the
      reviewers and the review status always follow the state and the build status. */
  function PullRequestFields(pr: PullRequest, st: StatusList): (fs: seq<AttachmentField>)
    ensures |fs| == 4
    ensures fs[0] == AttachmentField("PR State", pr.state, true)
    ensures fs[1] == AttachmentField("Build Status", Aggregate(st.values), true)
    ensures fs[2] == AttachmentField("Reviewers", ReviewSummary(pr.reviewers), true)
    ensures fs[3] == AttachmentField("Review Status", ApprovalStatus(pr, true), true)
  {
    [AttachmentField("PR State", pr.state, true), AttachmentField("Build Status", Aggregate(st.values), true)]
    + (if ApprovalStatus(pr, false) != "" then
         [AttachmentField("Reviewers", ReviewSummary(pr.reviewers), true),
          AttachmentField("Review Status", ApprovalStatus(pr, true), true)]
       else [])
  }

  /** The `"#%d %s"` title of a pull request. */
  function PullRequestTitle(pr: PullRequest): string
  {
    "#" + Strconv.Itoa(pr.id) + " " + pr.title
  }

  /** The preview of a fetched pull request and the build statuses of its source branch's latest
      commit; the author's and the pull request's first self links are read. */
  function PullRequestAttachment(pr: PullRequest, st: StatusList): Attachment
    requires pr.author.user.links.self != [] && pr.links.self != []
  {
    EmptyAttachment.(
      ts := Strconv.Itoa(pr.createdDate),
      footerIcon := BitbucketIcon,
      footer := "Bitbucket",
      authorID := Strconv.Itoa(pr.author.user.id),
      authorName := pr.author.user.displayName,
      authorLink := pr.author.user.links.self[0].href,
      title := PullRequestTitle(pr),
      titleLink := pr.links.self[0].href,
      text := pr.description,
      fields := PullRequestFields(pr, st))
  }

  /** `bitbucketPRLink`: fetch the pull request, then the statuses of its latest commit; the first
      failing fetch ends the preview with the empty attachment and no later fetch. An empty self
      link list is reported as an error (the code as written panics, see
      `PullRequestPreviewAsWritten`). */
  function PullRequestPreview(c: Client, srv: Server, project: string, repo: string, id: int): (o: Outcome)
    ensures ErrorsCarryNothing(o)
    ensures 1 <= |o.calls| <= 2 && o.calls[0] == PullRequestUrl(c, project, repo, id)
    ensures FetchPullRequest(c, srv, project, repo, id).Failure? ==>
      o.calls == [PullRequestUrl(c, project, repo, id)] && o.err == Some(FetchPullRequest(c, srv, project, repo, id).error)
    ensures o.err == None ==> |o.calls| == 2 && |o.attachment.fields| == 4 && o.attachment.footer == "Bitbucket"
  {
    var first := [PullRequestUrl(c, project, repo, id)];
    match FetchPullRequest(c, srv, project, repo, id)
    case Failure(e) => Fail(e, first)
    case Success(pr) =>
      var calls := first + [StatusUrl(c, pr.fromRef.latestCommit)];
      match FetchStatus(c, srv, pr.fromRef.latestCommit)
      case Failure(e) => Fail(e, calls)
      case Success(st) =>
        if pr.author.user.links.self == [] then Fail(EmptyList("author self links"), calls)
        else if pr.links.self == [] then Fail(EmptyList("pull request self links"), calls)
        else Outcome(PullRequestAttachment(pr, st), None, calls)
  }

  /** A failing status fetch after the pull request was fetched ends the preview after both
      requests, with that fetch's error. */
  lemma PullRequestStatusFailure(c: Client, srv: Server, project: string, repo: string, id: int)
    requires FetchPullRequest(c, srv, project, repo, id).Success?
    requires FetchStatus(c, srv, FetchPullRequest(c, srv, project, repo, id).value.fromRef.latestCommit).Failure?
    ensures var sha := FetchPullRequest(c, srv, project, repo, id).value.fromRef.latestCommit;
      PullRequestPreview(c, srv, project, repo, id) ==
        Fail(FetchStatus(c, srv, sha).error, [PullRequestUrl(c, project, repo, id), StatusUrl(c, sha)])
  {
  }

  /** `bitbucketPRLink` as written: `Self[0]` on an empty self link list panics. */
  function PullRequestPreviewAsWritten(c: Client, srv: Server, project: string, repo: string, id: int): Run
  {
    var first := [PullRequestUrl(c, project, repo, id)];
    match FetchPullRequest(c, srv, project, repo, id)
    case Failure(e) => Returned(Fail(e, first))
    case Success(pr) =>
      var calls := first + [StatusUrl(c, pr.fromRef.latestCommit)];
      match FetchStatus(c, srv, pr.fromRef.latestCommit)
      case Failure(e) => Returned(Fail(e, calls))
      case Success(st) =>
        if pr.author.user.links.self == [] || pr.links.self == [] then Panicked(IndexPanic)
        else Returned(Outcome(PullRequestAttachment(pr, st), None, calls))
  }

  /** `bitbucketPRLink`, step by step: two fetches with early returns, the field list grown by
      `append`, then the attachment filled field by field. */
  method PullRequestLink(c: Client, srv: Server, project: string, repo: string, id: int)
    returns (a: Attachment, err: Option<Error>, calls: seq<string>)
    ensures Outcome(a, err, calls) == PullRequestPreview(c, srv, project, repo, id)
  {
    a := EmptyAttachment;
    calls := [PullRequestUrl(c, project, repo, id)];
    var fetched := FetchPullRequest(c, srv, project, repo, id);
    if fetched.Failure? {
      return a, Some(fetched.error), calls;
    }
    var pr := fetched.value;
    calls := calls + [StatusUrl(c, pr.fromRef.latestCommit)];
    var status := FetchStatus(c, srv, pr.fromRef.latestCommit);
    if status.Failure? {
      return a, Some(status.error), calls;
    }
    var st := status.value;
    var state := State(st);
    var fields := [AttachmentField("PR State", pr.state, true), AttachmentField("Build Status", state, true)];
    if ApprovalStatus(pr, false) != "" {
      var reviewedBy := ReviewBy(pr);
      fields := fields + [
        AttachmentField("Reviewers", reviewedBy, true),
        AttachmentField("Review Status", ApprovalStatus(pr, true), true)];
    }
    a := a.(ts := Strconv.Itoa(pr.createdDate));
    a := a.(footerIcon := BitbucketIcon);
    a := a.(footer := "Bitbucket");
    a := a.(authorID := Strconv.Itoa(pr.author.user.id));
    a := a.(authorName := pr.author.user.displayName);
    if pr.author.user.links.self == [] {
      return EmptyAttachment, Some(EmptyList("author self links")), calls;
    }
    a := a.(authorLink := pr.author.user.links.self[0].href);
    a := a.(title := "#" + Strconv.Itoa(pr.id) + " " + pr.title);
    if pr.links.self == [] {
      return EmptyAttachment, Some(EmptyList("pull request self links")), calls;
    }
    a := a.(titleLink := pr.links.self[0].href);
    a := a.(text := pr.description);
    a := a.(fields := fields);
    err := None;
  }

  /** When nothing fails, the preview shows the fetched pull request and the aggregate of the
      statuses fetched for its latest commit, which is the second and last request made. */
  lemma PullRequestPreviewShows(c: Client, srv: Server, project: string, repo: string, id: int)
    ensures var o := PullRequestPreview(c, srv, project, repo, id);
      o.err == None ==>
        var pr := FetchPullRequest(c, srv, project, repo, id).value;
        var st := FetchStatus(c, srv, pr.fromRef.latestCommit);
        && st.Success?
        && o.calls == [PullRequestUrl(c, project, repo, id), StatusUrl(c, pr.fromRef.latestCommit)]
        && o.attachment.title == PullRequestTitle(pr)
        && o.attachment.authorName == pr.author.user.displayName
        && o.attachment.text == pr.description
        && o.attachment.titleLink == pr.links.self[0].href
        && [o.attachment.fields[0].title, o.attachment.fields[1].title, o.attachment.fields[2].title,
            o.attachment.fields[3].title] == ["PR State", "Build Status", "Reviewers", "Review Status"]
        && o.attachment.fields[1].value == Aggregate(st.value.values)
        && o.attachment.fields == PullRequestFields(pr, st.value)
  {
  }

  /** The title starts with `#` and the number up to the first space reads back as the id. */
  lemma PullRequestTitleReadsBack(pr: PullRequest)
    requires GoInt.IsInt64(pr.id)
    ensures var t, d := PullRequestTitle(pr), Strconv.Itoa(pr.id);
      && t[0] == '#' && t[|d| + 1] == ' ' && (forall i :: 1 <= i <= |d| ==> t[i] != ' ')
      && Strconv.Atoi(t[1..|d| + 1]) == Success(pr.id)
  {
    var t, d := PullRequestTitle(pr), Strconv.Itoa(pr.id);
    assert t == "#" + d + " " + pr.title;
    assert t[1..|d| + 1] == d;
    forall i | 1 <= i <= |d| ensures t[i] != ' ' {
      assert t[i] == d[i - 1];
      assert d[i - 1] == '-' || Strconv.IsDigit(d[i - 1]);
    }
    Strconv.AtoiItoa(pr.id);
  }

  /** The code as written and the preview agree except where the code panics, which is exactly
      where the preview reports an empty self link list. */
  lemma PullRequestPreviewAgrees(c: Client, srv: Server, project: string, repo: string, id: int)
    ensures var o := PullRequestPreview(c, srv, project, repo, id);
      PullRequestPreviewAsWritten(c, srv, project, repo, id) ==
        if o.err.Some? && o.err.value.EmptyList? then Panicked(IndexPanic) else Returned(o)
  {
  }

  /** A pull request fetched with no self link: the code as written panics after both fetches. */
  lemma SelflessPullRequestPanics(c: Client, srv: Server, project: string, repo: string, id: int)
    requires FetchPullRequest(c, srv, project, repo, id).Success?
    requires FetchPullRequest(c, srv, project, repo, id).value.links.self == []
    requires FetchStatus(c, srv, FetchPullRequest(c, srv, project, repo, id).value.fromRef.latestCommit).Success?
    ensures PullRequestPreviewAsWritten(c, srv, project, repo, id) == Panicked(IndexPanic)
    ensures PullRequestPreview(c, srv, project, repo, id).err.Some?
  {
  }

  /** The fields of a repository preview: the latest commit and its build status. */
  function RepoFields(latest: Commit, st: StatusList, ago: int -> string): seq<AttachmentField>
  {
    [AttachmentField("Last Commit", String(latest, ago), true),
     AttachmentField("Build Status", Aggregate(st.values), true)]
  }

  /** The preview of a repository, its latest commit and that commit's build statuses. */
  function RepoAttachment(r: Repository, latest: Commit, st: StatusList, ago: int -> string): Attachment
    requires r.links.self != []
  {
    EmptyAttachment.(
      title := r.name,
      titleLink := r.links.self[0].href,
      text := r.description,
      fields := RepoFields(latest, st, ago))
  }

  /** What `bitbucketRepoLink` asks the client for: the URL of each request and the answer to it.
      The status request names a commit that is only known once the commits are in, so its URL
      and its answer are functions of that commit's id. */
  datatype RepoRequests = RepoRequests(
    repositoryUrl: string,
    repository: Result<Repository, Error>,
    commitsUrl: string,
    commits: Result<CommitList, Error>,
    statusUrl: string -> string,
    status: string -> Result<StatusList, Error>)

  /** The requests of the preview of `project/repo` through the client `c` and the server `srv`,
      with the commit listing options `opts`. */
  function RepoRequestsOf(c: Client, srv: Server, project: string, repo: string, opts: CommitOptions): RepoRequests
  {
    RepoRequests(
      RepositoryUrl(c, project, repo), FetchRepository(c, srv, project, repo),
      CommitsUrl(c, project, repo, opts), FetchCommits(c, srv, project, repo, opts),
      (sha: string) => StatusUrl(c, sha), (sha: string) => FetchStatus(c, srv, sha))
  }

  /** The decisions of `bitbucketRepoLink` on the answers `q`: the repository, then its commits,
      then the statuses of the first commit; the first failing fetch ends the preview with the
      empty attachment and no later fetch. An empty commit list is reported before any status
      fetch and an empty self link list after it (the code as written panics at both, see
      `RepoStepsAsWritten`). */
  function RepoSteps(q: RepoRequests, ago: int -> string): (o: Outcome)
    ensures ErrorsCarryNothing(o)
  {
    var first := [q.repositoryUrl];
    match q.repository
    case Failure(e) => Fail(e, first)
    case Success(r) =>
      var second := first + [q.commitsUrl];
      match q.commits
      case Failure(e) => Fail(e, second)
      case Success(co) =>
        if co.values == [] then Fail(EmptyList("commits"), second)
        else
          var calls := second + [q.statusUrl(co.values[0].id)];
          match q.status(co.values[0].id)
          case Failure(e) => Fail(e, calls)
          case Success(st) =>
            if r.links.self == [] then Fail(EmptyList("repository self links"), calls)
            else Outcome(RepoAttachment(r, co.values[0], st, ago), None, calls)
  }

  /** `bitbucketRepoLink`: fetch the repository, then its commits with the listing options `opts`
      (the handler always passes the zero options, `NoOptions`), then the statuses of the first
      commit, deciding as `RepoSteps` does. */
  function RepoPreview(c: Client, srv: Server, project: string, repo: string, opts: CommitOptions, ago: int -> string): Outcome
  {
    RepoSteps(RepoRequestsOf(c, srv, project, repo, opts), ago)
  }

  /** The requests of a repository preview, in order: the repository, then (once it is fetched)
      its commits, then (once there is a first commit) that commit's statuses; a success makes all
      three and shows two fields. */
  lemma RepoStepsRequests(q: RepoRequests, ago: int -> string)
    ensures var o := RepoSteps(q, ago);
      && 1 <= |o.calls| <= 3 && o.calls[0] == q.repositoryUrl
      && (|o.calls| >= 2 ==> q.repository.Success? && o.calls[1] == q.commitsUrl)
      && (|o.calls| == 3 ==>
            q.commits.Success? && q.commits.value.values != [] &&
            o.calls[2] == q.statusUrl(q.commits.value.values[0].id))
      && (o.err == None ==> |o.calls| == 3 && |o.attachment.fields| == 2)
  {
  }

  /** A failing repository fetch is the only request, and its error is returned. */
  lemma RepoStepsFirstFailure(q: RepoRequests, ago: int -> string)
    requires q.repository.Failure?
    ensures RepoSteps(q, ago) == Fail(q.repository.error, [q.repositoryUrl])
  {
  }

  /** A failing commit listing ends the preview after two requests with its error. */
  lemma RepoStepsSecondFailure(q: RepoRequests, ago: int -> string)
    requires q.repository.Success? && q.commits.Failure?
    ensures RepoSteps(q, ago) == Fail(q.commits.error, [q.repositoryUrl, q.commitsUrl])
  {
  }

  /** A failing status fetch for the first commit ends the preview after all three requests, with
      that fetch's error. */
  lemma RepoStepsThirdFailure(q: RepoRequests, ago: int -> string)
    requires q.repository.Success? && q.commits.Success? && q.commits.value.values != []
    requires q.status(q.commits.value.values[0].id).Failure?
    ensures var id := q.commits.value.values[0].id;
      RepoSteps(q, ago) == Fail(q.status(id).error, [q.repositoryUrl, q.commitsUrl, q.statusUrl(id)])
  {
  }

  /** `bitbucketRepoLink` as written on the answers `q`: `Values[0]` on an empty commit list and
      `Self[0]` on an empty self link list panic. */
  function RepoStepsAsWritten(q: RepoRequests, ago: int -> string): Run
  {
    var first := [q.repositoryUrl];
    match q.repository
    case Failure(e) => Returned(Fail(e, first))
    case Success(r) =>
      var second := first + [q.commitsUrl];
      match q.commits
      case Failure(e) => Returned(Fail(e, second))
      case Success(co) =>
        if co.values == [] then Panicked(IndexPanic)
        else
          var calls := second + [q.statusUrl(co.values[0].id)];
          match q.status(co.values[0].id)
          case Failure(e) => Returned(Fail(e, calls))
          case Success(st) =>
            if r.links.self == [] then Panicked(IndexPanic)
            else Returned(Outcome(RepoAttachment(r, co.values[0], st, ago), None, calls))
  }

  /** `bitbucketRepoLink` as written. */
  function RepoPreviewAsWritten(c: Client, srv: Server, project: string, repo: string, opts: CommitOptions, ago: int -> string): Run
  {
    RepoStepsAsWritten(RepoRequestsOf(c, srv, project, repo, opts), ago)
  }

  /** `bitbucketRepoLink`: the client's answers to the three requests, with the zero commit
      options, taken step by step. */
  method RepoLink(c: Client, srv: Server, project: string, repo: string, ago: int -> string)
    returns (a: Attachment, err: Option<Error>, calls: seq<string>)
    ensures Outcome(a, err, calls) == RepoPreview(c, srv, project, repo, NoOptions, ago)
  {
    a, err, calls := RepoLinkSteps(RepoRequestsOf(c, srv, project, repo, NoOptions), ago);
  }

  /** The body of `bitbucketRepoLink` over the answers to its requests: three fetches with early
      returns, then the attachment filled field by field. */
  method RepoLinkSteps(q: RepoRequests, ago: int -> string)
    returns (a: Attachment, err: Option<Error>, calls: seq<string>)
    ensures Outcome(a, err, calls) == RepoSteps(q, ago)
  {
    a := EmptyAttachment;
    calls := [q.repositoryUrl];
    var repository := q.repository;
    if repository.Failure? {
      return a, Some(repository.error), calls;
    }
    var r := repository.value;
    calls := calls + [q.commitsUrl];
    var commits := q.commits;
    if commits.Failure? {
      return a, Some(commits.error), calls;
    }
    var co := commits.value;
    if co.values == [] {
      return a, Some(EmptyList("commits")), calls;
    }
    calls := calls + [q.statusUrl(co.values[0].id)];
    var status := q.status(co.values[0].id);
    if status.Failure? {
      return a, Some(status.error), calls;
    }
    var st := status.value;
    a := a.(title := r.name);
    if r.links.self == [] {
      return EmptyAttachment, Some(EmptyList("repository self links")), calls;
    }
    a := a.(titleLink := r.links.self[0].href);
    a := a.(text := r.description);
    var state := State(st);
    a := a.(fields := [
      AttachmentField("Last Commit", String(co.values[0], ago), true),
      AttachmentField("Build Status", state, true)]);
    err := None;
  }

  /** When nothing fails, the preview shows the repository, its first commit and the aggregate of
      that commit's statuses. */
  lemma RepoStepsShows(q: RepoRequests, ago: int -> string)
    ensures var o := RepoSteps(q, ago);
      o.err == None ==>
        && q.repository.Success? && q.commits.Success? && q.commits.value.values != []
        && var r, latest := q.repository.value, q.commits.value.values[0];
        && q.status(latest.id).Success?
        && o.attachment.title == r.name
        && o.attachment.titleLink == r.links.self[0].href
        && o.attachment.text == r.description
        && o.attachment.fields == [
             AttachmentField("Last Commit", String(latest, ago), true),
             AttachmentField("Build Status", Aggregate(q.status(latest.id).value.values), true)]
  {
  }

  /** Conversely, when the three fetches succeed with a first commit and a self link, the preview
      succeeds. */
  lemma RepoStepsSucceeds(q: RepoRequests, ago: int -> string)
    requires q.repository.Success? && q.repository.value.links.self != []
    requires q.commits.Success? && q.commits.value.values != []
    requires q.status(q.commits.value.values[0].id).Success?
    ensures RepoSteps(q, ago).err == None
  {
  }

  /** An empty commit list is an error and no status is fetched; the code as written panics. */
  lemma EmptyRepositoryStops(q: RepoRequests, ago: int -> string)
    requires q.repository.Success? && q.commits.Success? && q.commits.value.values == []
    ensures RepoSteps(q, ago) == Fail(EmptyList("commits"), [q.repositoryUrl, q.commitsUrl])
    ensures RepoStepsAsWritten(q, ago) == Panicked(IndexPanic)
  {
  }

  /** A repository fetched with no self link: all three requests are made, then the code as
      written panics where the preview reports the missing link. */
  lemma SelflessRepositoryPanics(q: RepoRequests, ago: int -> string)
    requires q.repository.Success? && q.repository.value.links.self == []
    requires q.commits.Success? && q.commits.value.values != []
    requires q.status(q.commits.value.values[0].id).Success?
    ensures RepoStepsAsWritten(q, ago) == Panicked(IndexPanic)
    ensures RepoSteps(q, ago) ==
      Fail(EmptyList("repository self links"),
           [q.repositoryUrl, q.commitsUrl, q.statusUrl(q.commits.value.values[0].id)])
  {
  }

  /** Answers as the client gives them: a failed request reports a client error, never an empty
      list. */
  ghost predicate ClientAnswers(q: RepoRequests)
  {
    && (q.repository.Failure? ==> !q.repository.error.EmptyList?)
    && (q.commits.Failure? ==> !q.commits.error.EmptyList?)
    && forall sha :: q.status(sha).Failure? ==> !q.status(sha).error.EmptyList?
  }

  /** The client's own requests answer that way. */
  lemma RepoRequestsAnswer(c: Client, srv: Server, project: string, repo: string, opts: CommitOptions)
    ensures ClientAnswers(RepoRequestsOf(c, srv, project, repo, opts))
  {
  }

  /** On the client's answers, the code as written and the preview agree except where the code
      panics, which is exactly where the preview reports an empty list. */
  lemma RepoStepsAgrees(q: RepoRequests, ago: int -> string)
    requires ClientAnswers(q)
    ensures var o := RepoSteps(q, ago);
      RepoStepsAsWritten(q, ago) ==
        if o.err.Some? && o.err.value.EmptyList? then Panicked(IndexPanic) else Returned(o)
  {
  }

  /** `bitbucketLink` on the path of a link: a pull-request link needs a decimal id and is then
      previewed; a source link gives the empty attachment and no error (that kind is not
      implemented); a repository link is previewed; any other link is not supported. */
  function LinkPreview(c: Client, srv: Server, ago: int -> string, path: string): (o: Outcome)
    ensures ErrorsCarryNothing(o)
    ensures LinkType(path).0 == UnknownType ==> o == Fail(NotSupported("bitbucket link not supported"), [])
    ensures LinkType(path).0 == SourceCodeType ==> o == Outcome(EmptyAttachment, None, [])
  {
    var (kind, m) := LinkType(path);
    LinkTypeSound(path);
    if kind == PullRequestType then
      match Strconv.Atoi(m[3])
      case Failure(e) => Fail(Parse(e), [])
      case Success(id) => PullRequestPreview(c, srv, m[1], m[2], id)
    else if kind == SourceCodeType then Outcome(EmptyAttachment, None, [])
    else if kind == RepoType then RepoPreview(c, srv, m[1], m[2], NoOptions, ago)
    else Fail(NotSupported("bitbucket link not supported"), [])
  }

  /** `bitbucketLink`: classify, then hand over to the builder of the kind. */
  method BitbucketLink(c: Client, srv: Server, ago: int -> string, path: string)
    returns (a: Attachment, err: Option<Error>, calls: seq<string>)
    ensures Outcome(a, err, calls) == LinkPreview(c, srv, ago, path)
  {
    a, err, calls := EmptyAttachment, None, [];
    var (linkType, matches) := LinkType(path);
    LinkTypeSound(path);
    if linkType == PullRequestType {
      var prid := Strconv.Atoi(matches[3]);
      if prid.Failure? {
        return a, Some(Parse(prid.error)), calls;
      }
      a, err, calls := PullRequestLink(c, srv, matches[1], matches[2], prid.value);
    } else if linkType == SourceCodeType {
    } else if linkType == RepoType {
      a, err, calls := RepoLink(c, srv, matches[1], matches[2], ago);
    } else {
      return EmptyAttachment, Some(NotSupported("bitbucket link not supported")), [];
    }
  }

  /** A pull-request link with a decimal id previews the pull request it names. */
  lemma PullRequestDispatch(c: Client, srv: Server, ago: int -> string, p: string, r: string, x: string, rest: string)
    requires Segment(p) && Segment(r) && Segment(x)
    requires rest == [] || rest[0] == '/'
    requires Strconv.Atoi(x).Success?
    ensures LinkPreview(c, srv, ago, PullRequestPage(p, r, x) + rest) ==
      PullRequestPreview(c, srv, p, r, Strconv.Atoi(x).value)
  {
    PullRequestLinks(p, r, x, rest);
  }

  /** A pull-request link whose id is not a number (`[^/]+` lets any other character through) ends
      with the parse error before any request is made. */
  lemma BadPullRequestId(c: Client, srv: Server, ago: int -> string, p: string, r: string, x: string, rest: string)
    requires Segment(p) && Segment(r) && Segment(x)
    requires rest == [] || rest[0] == '/'
    requires Strconv.Atoi(x).Failure?
    ensures LinkPreview(c, srv, ago, PullRequestPage(p, r, x) + rest) == Fail(Parse(Strconv.Atoi(x).error), [])
  {
    PullRequestLinks(p, r, x, rest);
  }

  /** A repository link previews the repository, listing its commits with the zero options. */
  lemma RepoDispatch(c: Client, srv: Server, ago: int -> string, p: string, r: string, rest: string)
    requires Segment(p) && Segment(r)
    requires rest == [] || rest[0] == '/'
    requires !OpensPullRequest(rest) && !OpensFile(rest)
    ensures LinkPreview(c, srv, ago, RepoPrefix(p, r) + rest) == RepoPreview(c, srv, p, r, NoOptions, ago)
  {
    RepoLinks(p, r, rest);
  }

  /** A file link succeeds with nothing to show and makes no request. */
  lemma SourceCodeDispatch(c: Client, srv: Server, ago: int -> string, p: string, r: string, file: string, rest: string)
    requires Segment(p) && Segment(r) && FilePath(file)
    requires rest == [] || rest[0] == '\n'
    ensures LinkPreview(c, srv, ago, SourcePage(p, r, file) + rest) == Outcome(EmptyAttachment, None, [])
  {
    SourceCodeLinks(p, r, file, rest);
  }

  /** A link outside `/projects/` is not supported and makes no request. */
  lemma UnknownDispatch(c: Client, srv: Server, ago: int -> string, path: string)
    requires !("/projects/" <= path)
    ensures LinkPreview(c, srv, ago, path) == Fail(NotSupported("bitbucket link not supported"), [])
  {
    UnknownLinks(path);
  }

  /** `297` is printed and parsed as itself. */
  lemma Numeral297()
    ensures Strconv.Itoa(297) == "297" && Strconv.Atoi("297") == Success(297)
  {
    assert Strconv.Decimal(2) == "2";
    assert Strconv.Decimal(29) == "29";
    assert Strconv.Decimal(297) == "297";
    Strconv.AtoiItoa(297);
  }

  /** Conversely, when both fetches succeed and both self link lists are present, the preview
      succeeds. */
  lemma PullRequestPreviewSucceeds(c: Client, srv: Server, project: string, repo: string, id: int)
    requires var pr := FetchPullRequest(c, srv, project, repo, id);
      && pr.Success? && pr.value.author.user.links.self != [] && pr.value.links.self != []
      && FetchStatus(c, srv, pr.value.fromRef.latestCommit).Success?
    ensures PullRequestPreview(c, srv, project, repo, id).err == None
  {
  }

  lemma Title297(pr: PullRequest)
    requires pr.id == 297 && pr.title == "My new feature"
    ensures PullRequestTitle(pr) == "#297 My new feature"
  {
    Numeral297();
  }

  /** The link to pull request 297 of any repository previews that pull request. */
  lemma PullRequest297Dispatch(c: Client, srv: Server, ago: int -> string, project: string, repo: string)
    requires Segment(project) && Segment(repo)
    ensures LinkPreview(c, srv, ago, PullRequestPage(project, repo, "297")) == PullRequestPreview(c, srv, project, repo, 297)
  {
    Numeral297();
    assert Segment("297");
    PullRequestDispatch(c, srv, ago, project, repo, "297", "");
    assert PullRequestPage(project, repo, "297") + "" == PullRequestPage(project, repo, "297");
  }

  /** `bitbucket_test.go`'s pull request 297 (of `MY-PROJ/my-repo` there, of any repository here):
      whatever the two fetches return beyond the fields the test reads, the preview is titled
      `#297 My new feature`, is by `User D`, shows the description and has four fields. */
  lemma PullRequestLinkExample(c: Client, srv: Server, ago: int -> string, project: string, repo: string)
    requires Segment(project) && Segment(repo)
    requires var pr := FetchPullRequest(c, srv, project, repo, 297);
      && pr.Success? && pr.value.id == 297 && pr.value.title == "My new feature"
      && pr.value.author.user.displayName == "User D" && pr.value.description == "My awesome description"
      && pr.value.author.user.links.self != [] && pr.value.links.self != []
      && FetchStatus(c, srv, pr.value.fromRef.latestCommit).Success?
    ensures var o := LinkPreview(c, srv, ago, PullRequestPage(project, repo, "297"));
      && o.err == None
      && o.attachment.title == "#297 My new feature"
      && o.attachment.authorName == "User D"
      && o.attachment.text == "My awesome description"
      && |o.attachment.fields| == 4
  {
    PullRequest297Dispatch(c, srv, ago, project, repo);
    PullRequestPreviewSucceeds(c, srv, project, repo, 297);
    PullRequestPreviewShows(c, srv, project, repo, 297);
    Title297(FetchPullRequest(c, srv, project, repo, 297).value);
  }
}
