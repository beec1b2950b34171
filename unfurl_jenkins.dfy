/** Jenkins build previews (`src/unfurl/jenkins.go`): the classification of a link's path by the
    build pattern and the preview of a build the Jenkins client library returns. */
module UnfurlJenkins {
  import opened Wrappers
  import opened Fmt
  import opened Regexp
  import opened Errors
  import opened Slack
  import opened Preview
  import Strconv
  import GoInt

  const BuildType := "build"
  const UnknownType := "unknown"

  /** The build pattern `^/job/([^/]+)/job/([^/]+)/job/([^/]+)/([0-9]+)`, read as a template
      whose verbs are the groups. */
  const BuildTemplate: Format :=
    [Text("/job/"), Verb] + [Text("/job/"), Verb] + [Text("/job/"), Verb] + [Text("/"), Verb]
  const BuildPattern: Pattern := Compile(BuildTemplate, [NotSlash, NotSlash, NotSlash, Digit])

  /** `jenkinsLinkType`: `build` and the submatches when the pattern matches, or `unknown` and no
      submatches. */
  function LinkType(path: string): (string, seq<string>)
  {
    if MatchString(BuildPattern, path) then (BuildType, FindSubmatch(BuildPattern, path))
    else (UnknownType, [])
  }

  /** What `[0-9]+` captures. */
  predicate Digits(s: string)
  {
    s != [] && Strconv.AllDigits(s)
  }

  /** The path of a build page: three nested jobs and a build number. */
  function BuildPage(a: string, b: string, c: string, n: string): string
  {
    "/job/" + a + ("/job/" + b + ("/job/" + c + ("/" + n)))
  }

  /** The build template filled with its four groups spells the build page. */
  lemma BuildTemplateFills(a: string, b: string, c: string, n: string)
    ensures Verbs(BuildTemplate) == 4
    ensures Sprintf(BuildTemplate, [a, b, c, n]) == BuildPage(a, b, c, n)
  {
    FillFour("/job/", "/job/", "/job/", "/", a, b, c, n);
  }

  /** The compiled pattern, atom by atom; it is well formed, so the greedy match is the only one. */
  lemma BuildPatternShape()
    ensures BuildPattern == [Lit("/job/"), Group(NotSlash), Lit("/job/"), Group(NotSlash),
                             Lit("/job/"), Group(NotSlash), Lit("/"), Group(Digit)]
    ensures WellFormed(BuildPattern)
  {
    CompileFour("/job/", "/job/", "/job/", "/", NotSlash, NotSlash, NotSlash, Digit);
    WellFormedBuild();
  }

  /** Four literal-and-verb pairs compile to four literal-and-group pairs, in order. */
  lemma CompileFour(t1: string, t2: string, t3: string, t4: string, k1: Class, k2: Class, k3: Class, k4: Class)
    ensures Compile([Text(t1), Verb] + [Text(t2), Verb] + [Text(t3), Verb] + [Text(t4), Verb], [k1, k2, k3, k4])
         == [Lit(t1), Group(k1), Lit(t2), Group(k2), Lit(t3), Group(k3), Lit(t4), Group(k4)]
  {
    var p1, p2, p3, p4 := [Text(t1), Verb], [Text(t2), Verb], [Text(t3), Verb], [Text(t4), Verb];
    CompileTextVerb(t4, k4);
    CompileTextVerb(t3, k3);
    CompileTextVerb(t2, k2);
    VerbsConcat(p3, p4);
    VerbsConcat(p2, p3 + p4);
    CompileStep(t3, k3, p4, [k4]);
    CompileStep(t2, k2, p3 + p4, [k3] + [k4]);
    CompileStep(t1, k1, p2 + (p3 + p4), [k2] + ([k3] + [k4]));
    Regroup4(p1, p2, p3, p4);
    Cons4(k1, k2, k3, k4);
    Flatten4(Lit(t1), Group(k1), Lit(t2), Group(k2), Lit(t3), Group(k3), Lit(t4), Group(k4));
  }

  /** A literal and a verb in front of a template compile to a literal and a group in front. */
  lemma CompileStep(t: string, k: Class, f: Format, cs: seq<Class>)
    requires |cs| == Verbs(f)
    ensures Compile([Text(t), Verb] + f, [k] + cs) == [Lit(t), Group(k)] + Compile(f, cs)
  {
    CompileTextVerb(t, k);
    CompileConcat([Text(t), Verb], f, [k], cs);
  }

  lemma WellFormedBuild()
    ensures WellFormed([Lit("/job/"), Group(NotSlash), Lit("/job/"), Group(NotSlash),
                        Lit("/job/"), Group(NotSlash), Lit("/"), Group(Digit)])
  {
  }

  /** Segments and a digit run captured by the pattern spell the build page. */
  lemma BuildInstance(a: string, b: string, c: string, n: string)
    requires Segment(a) && Segment(b) && Segment(c) && Digits(n)
    ensures Fits(BuildPattern, [a, b, c, n])
    ensures Instance(BuildPattern, [a, b, c, n]) == BuildPage(a, b, c, n)
  {
    var cs := [NotSlash, NotSlash, NotSlash, Digit];
    BuildTemplateFills(a, b, c, n);
    assert AllIn(NotSlash, a) && AllIn(NotSlash, b) && AllIn(NotSlash, c) && AllIn(Digit, n);
    CompileFits(BuildTemplate, cs, [a, b, c, n]);
    CompileInstance(BuildTemplate, cs, [a, b, c, n]);
  }

  /** A build page followed by anything that does not continue the number (`/`, `/console`, the
      end of the path) is a build link whose submatches are the jobs and the whole number. */
  lemma BuildLinks(a: string, b: string, c: string, n: string, rest: string)
    requires Segment(a) && Segment(b) && Segment(c) && Digits(n)
    requires rest == [] || !Strconv.IsDigit(rest[0])
    ensures LinkType(BuildPage(a, b, c, n) + rest) == (BuildType, [BuildPage(a, b, c, n), a, b, c, n])
  {
    var page := BuildPage(a, b, c, n);
    BuildPatternShape();
    BuildInstance(a, b, c, n);
    BoundaryLast(BuildPattern, rest);
    MatchInstance(BuildPattern, [a, b, c, n], rest);
    var path := page + rest;
    assert path[..|page|] == page;
    assert FindSubmatch(BuildPattern, path) == [page] + [a, b, c, n];
    assert [page] + [a, b, c, n] == [page, a, b, c, n];
  }

  /** Whatever the path, only an unknown link has no submatches, and a build link has the whole
      match and four groups: three segments and a digit run spelling a build page at the start of
      the path. */
  lemma LinkTypeSound(path: string)
    ensures var (kind, m) := LinkType(path);
      (kind == UnknownType <==> m == []) &&
      (kind == BuildType ==>
         |m| == 5 && Segment(m[1]) && Segment(m[2]) && Segment(m[3]) && Digits(m[4]) &&
         m[0] == BuildPage(m[1], m[2], m[3], m[4]) && m[0] <= path)
  {
    if MatchString(BuildPattern, path) {
      var cs := [NotSlash, NotSlash, NotSlash, Digit];
      MatchSound(BuildPattern, path);
      var mt := Match(BuildPattern, path).value;
      var gs := mt.groups;
      BuildTemplateFills("", "", "", "");
      FitsCompile(BuildTemplate, cs, gs);
      assert AllIn(cs[0], gs[0]) && AllIn(cs[1], gs[1]) && AllIn(cs[2], gs[2]) && AllIn(cs[3], gs[3]);
      SegmentRun(gs[0]);
      SegmentRun(gs[1]);
      SegmentRun(gs[2]);
      forall i | 0 <= i < |gs[3]| ensures Strconv.IsDigit(gs[3][i]) {
        assert InClass(Digit, gs[3][i]);
      }
      assert gs == [gs[0], gs[1], gs[2], gs[3]];
      BuildInstance(gs[0], gs[1], gs[2], gs[3]);
      assert FindSubmatch(BuildPattern, path) == [path[..mt.length]] + gs;
    }
  }

  /** A path that does not start with `/job/` is unknown, with no submatches. */
  lemma UnknownLinks(path: string)
    requires !("/job/" <= path)
    ensures LinkType(path) == (UnknownType, [])
  {
    BuildPatternShape();
  }

  /** The build record of the Jenkins client library: the display name, the page URL (ending in
      `/`), the result (empty while the build runs), the start time in milliseconds, the duration
      as reported (a float64 in the library; here any finite value) and whether the build is still
      running. */
  datatype Build = Build(
    fullDisplayName: string,
    url: string,
    result: string,
    timestamp: int,
    duration: real,
    building: bool)

  /** `GetBuild` of the Jenkins client: the build of a job by number, or the library's error. */
  type Jenkins = (string, int) -> Result<Build, string>

  /** The clock and the text renderings the preview leaves to libraries: the current Unix time in
      seconds, the "time ago" text of a Unix time and `time.Duration.String` of nanoseconds. */
  datatype Clock = Clock(now: int, ago: int -> string, durationText: int -> string)

  /** `"%s/job/%s/job/%s"`: the full name of the nested job. */
  const JobTemplate: Format := [Verb] + [Text("/job/"), Verb] + [Text("/job/"), Verb]

  function JobName(a: string, b: string, c: string): string
  {
    Sprintf(JobTemplate, [a, b, c])
  }

  /** A verb and two literal-and-verb pairs take three arguments, the last two behind their
      literals. */
  lemma {:induction false} FillVerbTwo(t1: string, t2: string, a: string, b: string, c: string)
    ensures Sprintf([Verb] + [Text(t1), Verb] + [Text(t2), Verb], [a, b, c]) == a + t1 + b + t2 + c
  {
    var p1, p2 := [Text(t1), Verb], [Text(t2), Verb];
    FillStep(t2, c, [], []);
    assert p2 + [] == p2 && [c] + [] == [c];
    SprintfText("");
    FillStep(t1, b, p2, [c]);
    assert Verbs([Verb]) == 1 by {
      assert Verbs([Verb]) == 1 + Verbs([]);
    }
    assert Sprintf([Verb], [a]) == a by {
      assert [Verb][1..] == [] && [a][1..] == [];
      assert Substitute([Verb], [a]) == a + Substitute([], []);
    }
    SprintfConcat([Verb], p1 + p2, [a], [b] + [c]);
    assert [Verb] + p1 + p2 == [Verb] + (p1 + p2);
    assert [a] + ([b] + [c]) == [a, b, c];
  }

  /** The job name puts the three jobs in order behind `/job/` separators. */
  lemma JobNameFills(a: string, b: string, c: string)
    ensures JobName(a, b, c) == a + "/job/" + b + "/job/" + c
  {
    FillVerbTwo("/job/", "/job/", a, b, c);
  }

  /** The result shown: an empty result means the build is still running. */
  function ShownResult(result: string): (r: string)
    ensures r != ""
    ensures result != "" ==> r == result
  {
    if result == "" then "IN PROGRESS" else result
  }

  const NanosPerSecond := 1_000_000_000

  /** The duration shown, in nanoseconds as `time.Duration` counts them: the reported duration
      when it is positive, converted to an integer by truncation as Go's float-to-int conversion
      does, otherwise the time since the start (the start cut to whole seconds), each multiplied
      by `time.Second` with int64 wrap-around. */
  function Duration(b: Build, now: int): (d: int)
    ensures GoInt.IsInt64(d)
    ensures 0.0 < b.duration < 1.0 ==> d == 0
    ensures 0.0 < b.duration && GoInt.IsInt64(b.duration.Floor * NanosPerSecond) ==>
      d == b.duration.Floor * NanosPerSecond && d as real <= b.duration * NanosPerSecond as real
    ensures b.duration <= 0.0 && GoInt.IsInt64(now - GoInt.MillisToSeconds(b.timestamp))
            && GoInt.IsInt64((now - GoInt.MillisToSeconds(b.timestamp)) * NanosPerSecond)
            ==> d == (now - GoInt.MillisToSeconds(b.timestamp)) * NanosPerSecond
  {
    if b.duration > 0.0 then GoInt.Wrap64(GoInt.Wrap64(b.duration.Floor) * NanosPerSecond)
    else GoInt.Wrap64(GoInt.Wrap64(now - GoInt.MillisToSeconds(b.timestamp)) * NanosPerSecond)
  }

  /** The fields of a build preview: the result, the duration and the start. */
  function BuildFields(b: Build, clock: Clock): seq<AttachmentField>
  {
    [AttachmentField("Status", ShownResult(b.result), true),
     AttachmentField("Duration", clock.durationText(Duration(b, clock.now)), true),
     AttachmentField("Started", clock.ago(GoInt.MillisToSeconds(b.timestamp)), true)]
  }

  /** The two buttons: the console log and the changes of the build. */
  function BuildActions(b: Build): seq<AttachmentAction>
  {
    [AttachmentAction("build log", ":page_facing_up: Build Log", "button", b.url + "console"),
     AttachmentAction("build changes", ":compass: Change Log", "button", b.url + "changes")]
  }

  /** The text: a running build is waiting for input, a finished one shows its result and
      duration on two lines. */
  function BuildText(b: Build, clock: Clock): string
  {
    if b.building then "Waiting for input"
    else ShownResult(b.result) + "\n" + clock.durationText(Duration(b, clock.now))
  }

  function BuildAttachment(b: Build, clock: Clock): Attachment
  {
    EmptyAttachment.(
      title := b.fullDisplayName,
      titleLink := b.url,
      authorName := b.fullDisplayName,
      text := BuildText(b, clock),
      fields := BuildFields(b, clock),
      callbackID := "jenkins_build",
      actions := BuildActions(b))
  }

  /** `jenkinsBuildLink`: one request for the build of the nested job; a failure gives the empty
      attachment and the library's error. The request is logged as the job name. */
  function BuildPreview(jenkins: Jenkins, clock: Clock, a: string, b: string, c: string, number: int): (o: Outcome)
    ensures ErrorsCarryNothing(o)
    ensures o.calls == [JobName(a, b, c)]
    ensures o.err == None <==> jenkins(JobName(a, b, c), number).Success?
    ensures jenkins(JobName(a, b, c), number).Failure? ==>
      o.err == Some(Remote(jenkins(JobName(a, b, c), number).error))
    ensures o.err == None ==>
      && |o.attachment.fields| == 3 && |o.attachment.actions| == 2
      && o.attachment.title == o.attachment.authorName
      && o.attachment.callbackID == "jenkins_build"
  {
    var job := JobName(a, b, c);
    match jenkins(job, number)
    case Failure(msg) => Fail(Remote(msg), [job])
    case Success(build) => Outcome(BuildAttachment(build, clock), None, [job])
  }

  /** `jenkinsBuildLink`, step by step: the request, the result and the duration worked out in
      local variables, then the attachment filled field by field. */
  method JenkinsBuildLink(jenkins: Jenkins, clock: Clock, project: string, repo: string, branch: string, buildNumber: int)
    returns (a: Attachment, err: Option<Error>, calls: seq<string>)
    ensures Outcome(a, err, calls) == BuildPreview(jenkins, clock, project, repo, branch, buildNumber)
  {
    a := EmptyAttachment;
    var jobName := JobName(project, repo, branch);
    calls := [jobName];
    var fetched := jenkins(jobName, buildNumber);
    if fetched.Failure? {
      return a, Some(Remote(fetched.error)), calls;
    }
    var build := fetched.value;
    var result := build.result;
    if result == "" {
      result := "IN PROGRESS";
    }
    var started := clock.ago(GoInt.MillisToSeconds(build.timestamp));
    var duration: int;
    if build.duration > 0.0 {
      duration := GoInt.Wrap64(GoInt.Wrap64(build.duration.Floor) * NanosPerSecond);
    } else {
      duration := GoInt.Wrap64(GoInt.Wrap64(clock.now - GoInt.MillisToSeconds(build.timestamp)) * NanosPerSecond);
    }
    a := a.(title := build.fullDisplayName);
    a := a.(titleLink := build.url);
    a := a.(authorName := build.fullDisplayName);
    if build.building {
      a := a.(text := "Waiting for input");
    } else {
      a := a.(text := result + "\n" + clock.durationText(duration));
    }
    a := a.(fields := [
      AttachmentField("Status", result, true),
      AttachmentField("Duration", clock.durationText(duration), true),
      AttachmentField("Started", started, true)]);
    a := a.(callbackID := "jenkins_build");
    a := a.(actions := [
      AttachmentAction("build log", ":page_facing_up: Build Log", "button", build.url + "console"),
      AttachmentAction("build changes", ":compass: Change Log", "button", build.url + "changes")]);
    err := None;
  }

  /** When the build is fetched, the preview shows it: its name as title and author, its page as
      title link, the result (`IN PROGRESS` while empty), the duration and the start in that
      order, and buttons to the console and the changes pages under the build page. */
  lemma BuildPreviewShows(jenkins: Jenkins, clock: Clock, a: string, b: string, c: string, number: int)
    ensures var o := BuildPreview(jenkins, clock, a, b, c, number);
      o.err == None ==>
        var build := jenkins(JobName(a, b, c), number).value;
        var d := Duration(build, clock.now);
        && o.attachment.title == build.fullDisplayName
        && o.attachment.authorName == build.fullDisplayName
        && o.attachment.titleLink == build.url
        && (build.building ==> o.attachment.text == "Waiting for input")
        && (!build.building ==> o.attachment.text == ShownResult(build.result) + "\n" + clock.durationText(d))
        && [o.attachment.fields[0].title, o.attachment.fields[1].title, o.attachment.fields[2].title]
           == ["Status", "Duration", "Started"]
        && o.attachment.fields[0].value == ShownResult(build.result)
        && o.attachment.fields[1].value == clock.durationText(d)
        && o.attachment.fields[2].value == clock.ago(GoInt.MillisToSeconds(build.timestamp))
        && o.attachment.actions[0].url == build.url + "console"
        && o.attachment.actions[1].url == build.url + "changes"
  {
  }

  /** `jenkins_test.go`'s build 789 (of `my-proj/job/my-repo/job/master` there, of any nested job
      here): the title is the build's display name and the title link its page. */
  lemma BuildPreviewExample(jenkins: Jenkins, clock: Clock, a: string, b: string, c: string, build: Build)
    requires jenkins(JobName(a, b, c), 789) == Success(build)
    requires build.fullDisplayName == "My Proj \U{bb} my-repo \U{bb} master #789"
    requires build.url == "https://jenkins.corp.org/job/my-proj/job/my-repo/job/master/789/"
    ensures var o := BuildPreview(jenkins, clock, a, b, c, 789);
      && o.err == None
      && o.attachment.title == "My Proj \U{bb} my-repo \U{bb} master #789"
      && o.attachment.titleLink == "https://jenkins.corp.org/job/my-proj/job/my-repo/job/master/789/"
  {
  }

  /** `jenkinsLink` on the path of a link: a build link is previewed once its number parses; any
      other link is not supported. */
  function LinkPreview(jenkins: Jenkins, clock: Clock, path: string): (o: Outcome)
    ensures ErrorsCarryNothing(o)
    ensures LinkType(path).0 == UnknownType ==> o == Fail(NotSupported("jenkins link not supported"), [])
  {
    var (kind, m) := LinkType(path);
    LinkTypeSound(path);
    if kind == BuildType then
      match Strconv.Atoi(m[4])
      case Failure(e) => Fail(Parse(e), [])
      case Success(n) => BuildPreview(jenkins, clock, m[1], m[2], m[3], n)
    else Fail(NotSupported("jenkins link not supported"), [])
  }

  /** `jenkinsLink`: classify, parse the build number, then hand over to the builder. */
  method JenkinsLink(jenkins: Jenkins, clock: Clock, path: string)
    returns (a: Attachment, err: Option<Error>, calls: seq<string>)
    ensures Outcome(a, err, calls) == LinkPreview(jenkins, clock, path)
  {
    a, err, calls := EmptyAttachment, None, [];
    var (linkType, matches) := LinkType(path);
    LinkTypeSound(path);
    if linkType == BuildType {
      var buildID := Strconv.Atoi(matches[4]);
      if buildID.Failure? {
        return a, Some(Parse(buildID.error)), calls;
      }
      a, err, calls := JenkinsBuildLink(jenkins, clock, matches[1], matches[2], matches[3], buildID.value);
    } else {
      return a, Some(NotSupported("jenkins link not supported")), calls;
    }
  }

  /** A build link requests build number `n` of job `a/job/b/job/c`; the only way the number can
      fail to parse is by being out of the int64 range. */
  lemma BuildDispatch(jenkins: Jenkins, clock: Clock, a: string, b: string, c: string, n: string, rest: string)
    requires Segment(a) && Segment(b) && Segment(c) && Digits(n)
    requires rest == [] || !Strconv.IsDigit(rest[0])
    ensures var o := LinkPreview(jenkins, clock, BuildPage(a, b, c, n) + rest);
      match Strconv.Atoi(n)
      case Success(k) => k >= 0 && o == BuildPreview(jenkins, clock, a, b, c, k)
      case Failure(e) => e.err == Strconv.ErrRange && o == Fail(Parse(e), [])
  {
    BuildLinks(a, b, c, n, rest);
    Strconv.AtoiDigits(n);
  }

  /** A path that does not start with `/job/` is not supported and makes no request. */
  lemma UnknownDispatch(jenkins: Jenkins, clock: Clock, path: string)
    requires !("/job/" <= path)
    ensures LinkPreview(jenkins, clock, path) == Fail(NotSupported("jenkins link not supported"), [])
  {
    UnknownLinks(path);
  }
}
