/** Pull requests and the summaries drawn from them (`src/bitbucket/pr.go`). */
module BitbucketPR {
  import opened BitbucketRepo
  import opened BitbucketConstants
  import Strings
  import Strconv
  import GoInt
  import opened Wrappers
  import opened Fmt

  /** `GitRef`: a branch end of a pull request. */
  datatype GitRef = GitRef(id: string, displayID: string, latestCommit: string, repository: Repository)

  datatype PullRequest = PullRequest(
    id: int,
    title: string,
    description: string,
    state: string,
    isOpen: bool,
    isClosed: bool,
    createdDate: int,
    updatedDate: int,
    fromRef: GitRef,
    toRef: GitRef,
    author: Author,
    reviewers: seq<Author>,
    links: Links)

  /** One page of pull requests. */
  datatype PullRequests = PullRequests(size: int, limit: int, isLastPage: bool, list: seq<PullRequest>)

  const NoReviews := "No reviews :sob:"

  /** An entry that shows up in the review summary: a reviewer who has reviewed. */
  predicate HasReviewed(a: Author)
  {
    a.role == UserRoleReviewer && a.status != ReviewStatusUnapproved
  }

  /** `"<display name> (<status>)"`. */
  function ReviewLine(a: Author): string
  {
    a.user.displayName + " (" + a.status + ")"
  }

  /** The review lines of the entries that have reviewed, in the order of the entries. */
  function ReviewLines(rs: seq<Author>): (lines: seq<string>)
    ensures |lines| <= |rs|
  {
    if rs == [] then []
    else ReviewLines(rs[..|rs| - 1]) + (if HasReviewed(rs[|rs| - 1]) then [ReviewLine(rs[|rs| - 1])] else [])
  }

  /** What `ReviewBy` returns for a list of participants. */
  function ReviewSummary(rs: seq<Author>): string
  {
    var lines := ReviewLines(rs);
    if lines == [] then NoReviews else Strings.Join(lines, ", ")
  }

  /** `PullRequest.ReviewBy`: collects the lines of the reviewers who have reviewed, then joins
      them with `", "`, or gives the fallback text when there are none. */
  method ReviewBy(pr: PullRequest) returns (r: string)
    ensures r == ReviewSummary(pr.reviewers)
    ensures r == NoReviews <==> forall i :: 0 <= i < |pr.reviewers| ==> !HasReviewed(pr.reviewers[i])
  {
    var reviewers: seq<string> := [];
    for i := 0 to |pr.reviewers|
      invariant reviewers == ReviewLines(pr.reviewers[..i])
    {
      var reviewer := pr.reviewers[i];
      assert pr.reviewers[..i + 1][..i] == pr.reviewers[..i];
      if reviewer.role == UserRoleReviewer && reviewer.status != ReviewStatusUnapproved {
        reviewers := reviewers + [reviewer.user.displayName + " (" + reviewer.status + ")"];
      }
    }
    assert pr.reviewers[..|pr.reviewers|] == pr.reviewers;
    if |reviewers| == 0 {
      r := NoReviews;
    } else {
      r := Strings.Join(reviewers, ", ");
    }
    SummaryFallback(pr.reviewers);
  }

  /** The review lines of two lists of participants follow each other. */
  lemma {:induction false} ReviewLinesConcat(a: seq<Author>, b: seq<Author>)
    ensures ReviewLines(a + b) == ReviewLines(a) + ReviewLines(b)
    decreases |b|
  {
    if b == [] {
      assert a + b == a;
    } else {
      var b' := b[..|b| - 1];
      assert (a + b)[..|a + b| - 1] == a + b';
      assert (a + b)[|a + b| - 1] == b[|b| - 1];
      ReviewLinesConcat(a, b');
    }
  }

  /** A line is in the summary exactly when some entry that has reviewed produces it. */
  lemma {:induction false} ReviewLinesMembers(rs: seq<Author>, line: string)
    ensures line in ReviewLines(rs) <==> exists i :: 0 <= i < |rs| && HasReviewed(rs[i]) && ReviewLine(rs[i]) == line
  {
    if rs != [] {
      var init := rs[..|rs| - 1];
      ReviewLinesMembers(init, line);
      if exists i :: 0 <= i < |rs| && HasReviewed(rs[i]) && ReviewLine(rs[i]) == line {
        var i :| 0 <= i < |rs| && HasReviewed(rs[i]) && ReviewLine(rs[i]) == line;
        if i < |rs| - 1 {
          assert init[i] == rs[i];
        }
      }
      if line in ReviewLines(init) {
        var i :| 0 <= i < |init| && HasReviewed(init[i]) && ReviewLine(init[i]) == line;
        assert rs[i] == init[i];
      }
    }
  }

  /** There are no review lines exactly when no entry has reviewed. */
  lemma {:induction false} ReviewLinesEmpty(rs: seq<Author>)
    ensures ReviewLines(rs) == [] <==> forall i :: 0 <= i < |rs| ==> !HasReviewed(rs[i])
  {
    if rs != [] {
      var init := rs[..|rs| - 1];
      ReviewLinesEmpty(init);
      if forall i :: 0 <= i < |rs| ==> !HasReviewed(rs[i]) {
        assert forall i :: 0 <= i < |init| ==> !HasReviewed(init[i]) by {
          forall i | 0 <= i < |init| ensures !HasReviewed(init[i]) {
            assert init[i] == rs[i];
          }
        }
      }
      if ReviewLines(rs) == [] {
        forall i | 0 <= i < |rs| ensures !HasReviewed(rs[i]) {
          if i < |init| {
            assert init[i] == rs[i];
          }
        }
      }
    }
  }

  /** The summary is the fallback text exactly when nobody has reviewed: a joined list ends with
      the `)` of its last line, the fallback with a `:`. */
  lemma SummaryFallback(rs: seq<Author>)
    ensures ReviewSummary(rs) == NoReviews <==> forall i :: 0 <= i < |rs| ==> !HasReviewed(rs[i])
  {
    ReviewLinesEmpty(rs);
    var lines := ReviewLines(rs);
    if lines != [] {
      var last := lines[|lines| - 1];
      assert last in lines;
      ReviewLinesMembers(rs, last);
      var i :| 0 <= i < |rs| && HasReviewed(rs[i]) && ReviewLine(rs[i]) == last;
      Strings.JoinEndsWithLast(lines, ", ");
      var s := Strings.Join(lines, ", ");
      assert s[|s| - 1] == last[|last| - 1] == ')';
      assert NoReviews[|NoReviews| - 1] == ':';
    }
  }

  /** The first two cases of `pr_test.go`: nobody, and a reviewer who has not approved. */
  lemma ReviewSummaryNobody()
    ensures ReviewSummary([]) == NoReviews
    ensures ReviewSummary([Participant(UserRoleReviewer, ReviewStatusUnapproved, "")]) == NoReviews
  {
    var none := [Participant(UserRoleReviewer, ReviewStatusUnapproved, "")];
    assert none[..0] == [];
  }

  /** The case of `pr_test.go` with a single approval. */
  lemma ReviewSummarySingle()
    ensures ReviewSummary([Participant(UserRoleReviewer, ReviewStatusApproved, "Test User")])
         == "Test User (APPROVED)"
  {
    var one := [Participant(UserRoleReviewer, ReviewStatusApproved, "Test User")];
    assert one[..0] == [];
    assert ReviewLine(one[0]) == "Test User (APPROVED)";
  }

  /** The case of `pr_test.go` with three entries: the unapproved one is left out and the other
      two keep their order. */
  lemma ReviewSummaryThree()
    ensures ReviewSummary([Participant(UserRoleReviewer, ReviewStatusApproved, "Test User"),
                           Participant(UserRoleReviewer, ReviewStatusUnapproved, ""),
                           Participant(UserRoleReviewer, ReviewStatusNeedsWork, "Test User 2")])
         == "Test User (APPROVED)" + ", " + "Test User 2 (NEEDS_WORK)"
  {
    var three := [Participant(UserRoleReviewer, ReviewStatusApproved, "Test User"),
                  Participant(UserRoleReviewer, ReviewStatusUnapproved, ""),
                  Participant(UserRoleReviewer, ReviewStatusNeedsWork, "Test User 2")];
    assert three[..2][..1] == three[..1];
    assert three[..1][..0] == [];
    assert HasReviewed(three[0]) && ReviewLine(three[0]) == "Test User (APPROVED)";
    assert !HasReviewed(three[1]);
    assert HasReviewed(three[2]) && ReviewLine(three[2]) == "Test User 2 (NEEDS_WORK)";
    assert ReviewLines(three[..1]) == ["Test User (APPROVED)"];
    assert ReviewLines(three[..2]) == ["Test User (APPROVED)"];
    var lines := ["Test User (APPROVED)", "Test User 2 (NEEDS_WORK)"];
    assert ReviewLines(three) == lines;
    assert lines[1..] == ["Test User 2 (NEEDS_WORK)"];
    assert Strings.Join(lines, ", ") == lines[0] + ", " + Strings.Join(lines[1..], ", ");
  }

  /** A participant with only role, status and display name set, as the tests build them. */
  function Participant(role: string, status: string, name: string): Author
  {
    Author(User(0, "", name, "", Links([])), role, false, status)
  }

  /** Approval: nobody asks for more work, and somebody approved; the role is not consulted. */
  predicate ApprovedBy(rs: seq<Author>)
  {
    (forall i :: 0 <= i < |rs| ==> rs[i].status != ReviewStatusNeedsWork)
    && (exists i :: 0 <= i < |rs| && rs[i].status == ReviewStatusApproved)
  }

  /** `PullRequest.IsApproved`: a scan that remembers an approval and stops at the first request
      for more work. */
  method IsApproved(pr: PullRequest) returns (approved: bool)
    ensures approved <==> ApprovedBy(pr.reviewers)
  {
    var rs := pr.reviewers;
    approved := false;
    for i := 0 to |rs|
      invariant forall j :: 0 <= j < i ==> rs[j].status != ReviewStatusNeedsWork
      invariant approved <==> exists j :: 0 <= j < i && rs[j].status == ReviewStatusApproved
    {
      var status := rs[i].status;
      if status == ReviewStatusApproved {
        approved := true;
      } else if status == ReviewStatusNeedsWork {
        return false;
      }
    }
  }

  /** A request for more work anywhere in the list vetoes approval. */
  lemma NeedsWorkVetoes(rs: seq<Author>, k: nat)
    requires k < |rs| && rs[k].status == ReviewStatusNeedsWork
    ensures !ApprovedBy(rs)
  {
  }

  /** `PullRequest.ApprovalStatus`: "Approved" or "Unapproved", behind an emoji when asked. */
  function ApprovalStatus(pr: PullRequest, showEmojis: bool): (r: string)
    ensures r != ""
    ensures !showEmojis ==> (r == "Approved" <==> ApprovedBy(pr.reviewers))
    ensures !showEmojis ==> (r == "Unapproved" <==> !ApprovedBy(pr.reviewers))
  {
    if ApprovedBy(pr.reviewers) then
      if showEmojis then ":white_check_mark: Approved" else "Approved"
    else
      if showEmojis then ":disappointed: Unapproved" else "Unapproved"
  }

  /** With emoji, the status is the plain word behind a prefix that also follows approval. */
  lemma ApprovalStatusEmoji(pr: PullRequest)
    ensures ApprovalStatus(pr, true)
         == (if ApprovedBy(pr.reviewers) then ":white_check_mark: " else ":disappointed: ") + ApprovalStatus(pr, false)
  {
  }

  /** `PullRequest.IsWorkInProgress`: the title contains `WIP`, case-sensitively (a pattern
      without metacharacters matches wherever the literal occurs). */
  function IsWorkInProgress(pr: PullRequest): (r: bool)
    ensures r <==> exists i :: Strings.OccursAt(pr.title, "WIP", i)
  {
    Strings.Contains(pr.title, "WIP")
  }

  /** The two titles of `pr_test.go`. */
  lemma WorkInProgressExamples(pr: PullRequest)
    ensures IsWorkInProgress(pr.(title := "WIP: Test PR"))
    ensures !IsWorkInProgress(pr.(title := "Test PR"))
  {
    assert Strings.OccursAt("WIP: Test PR", "WIP", 0);
    forall i ensures !Strings.OccursAt("Test PR", "WIP", i) {
      if 0 <= i && i + 3 <= |"Test PR"| {
        assert "Test PR"[i..i + 3][0] == "Test PR"[i];
      }
    }
  }

  /** `PullRequest.RepoSlug`: `"<target repository slug>/<its project key>#<id>"`. */
  function RepoSlug(pr: PullRequest): string
  {
    pr.toRef.repository.slug + "/" + pr.toRef.repository.project.key + "#" + Strconv.Itoa(pr.id)
  }

  /** The slug comes first, the project key lies between the `/` after it and the last `#`, and
      the text after that `#` reads back as the pull request id. */
  lemma RepoSlugReadsBack(pr: PullRequest)
    requires GoInt.IsInt64(pr.id)
    ensures var s, slug, d := RepoSlug(pr), pr.toRef.repository.slug, Strconv.Itoa(pr.id);
      && s[..|slug| + 1] == slug + "/"
      && s[|slug| + 1..|s| - |d| - 1] == pr.toRef.repository.project.key
      && s[|s| - |d| - 1] == '#' && (forall i :: |s| - |d| <= i < |s| ==> s[i] != '#')
      && Strconv.Atoi(s[|s| - |d|..]) == Success(pr.id)
  {
    var s, slug, d := RepoSlug(pr), pr.toRef.repository.slug, Strconv.Itoa(pr.id);
    var head := slug + "/" + pr.toRef.repository.project.key + "#";
    assert s == head + d;
    assert s[|s| - |d|..] == d;
    assert s[..|slug| + 1] == slug + "/";
    assert s[|slug| + 1..|s| - |d| - 1] == pr.toRef.repository.project.key;
    forall i | |s| - |d| <= i < |s| ensures s[i] != '#' {
      assert s[i] == d[i - |head|];
      assert d[i - |head|] == '-' || Strconv.IsDigit(d[i - |head|]);
    }
    Strconv.AtoiItoa(pr.id);
  }

  /** The repository slug as its test expects it: the project key first, then the repository
      slug, then the id. */
  function RepoSlugIntended(pr: PullRequest): string
  {
    pr.toRef.repository.project.key + "/" + pr.toRef.repository.slug + "#" + Strconv.Itoa(pr.id)
  }

  /** The intended slug reads back: the project key up to the first `/`, the repository slug up to
      the last `#`, and the id after it. */
  lemma RepoSlugIntendedReadsBack(pr: PullRequest)
    requires GoInt.IsInt64(pr.id)
    requires '/' !in pr.toRef.repository.project.key
    ensures var s, key, slug, d := RepoSlugIntended(pr), pr.toRef.repository.project.key,
                                   pr.toRef.repository.slug, Strconv.Itoa(pr.id);
      && s[..|key| + 1] == key + "/" && (forall i :: 0 <= i < |key| ==> s[i] != '/')
      && s[|key| + 1..|s| - |d| - 1] == slug
      && s[|s| - |d| - 1] == '#' && (forall i :: |s| - |d| <= i < |s| ==> s[i] != '#')
      && Strconv.Atoi(s[|s| - |d|..]) == Success(pr.id)
  {
    var s, key, slug, d := RepoSlugIntended(pr), pr.toRef.repository.project.key,
                           pr.toRef.repository.slug, Strconv.Itoa(pr.id);
    var head := key + "/" + slug + "#";
    assert s == head + d;
    assert s[|s| - |d|..] == d;
    assert s[..|key| + 1] == key + "/";
    assert s[|key| + 1..|s| - |d| - 1] == slug;
    forall i | 0 <= i < |key| ensures s[i] != '/' {
      assert s[i] == key[i];
    }
    forall i | |s| - |d| <= i < |s| ensures s[i] != '#' {
      assert s[i] == d[i - |head|];
      assert d[i - |head|] == '-' || Strconv.IsDigit(d[i - |head|]);
    }
    Strconv.AtoiItoa(pr.id);
  }

  /** With the test's target repository (`test-repo` in project `test-project`) the slug as
      written starts with the repository, so it is not the text the test expects, whatever the id. */
  lemma RepoSlugSwapped(pr: PullRequest)
    requires pr.toRef.repository.slug == "test-repo" && pr.toRef.repository.project.key == "test-project"
    ensures RepoSlug(pr) != RepoSlugIntended(pr)
    ensures RepoSlug(pr)[..10] == "test-repo/" && RepoSlugIntended(pr)[..13] == "test-project/"
  {
    var slug, key := pr.toRef.repository.slug, pr.toRef.repository.project.key;
    var d := Strconv.Itoa(pr.id);
    assert RepoSlug(pr) == (slug + "/") + (key + "#" + d);
    assert RepoSlugIntended(pr) == (key + "/") + (slug + "#" + d);
    assert RepoSlug(pr)[..10] == slug + "/";
    assert RepoSlugIntended(pr)[..13] == key + "/";
    assert RepoSlug(pr)[5] == 'r' && RepoSlugIntended(pr)[5] == 'p';
  }

  /** `PullRequest.OpenSince`: the opaque "time ago" text of the creation time, which is in
      milliseconds and is cut to whole seconds. */
  function OpenSince(pr: PullRequest, ago: int -> string): string
  {
    ago(GoInt.MillisToSeconds(pr.createdDate))
  }

  /** The format `PullRequest.ToString` passes to `fmt.Sprintf`. */
  const ToStringFormat: Format := [Text("_"), Verb] + [Text("_ ("), Verb] + [Text(") by "), Verb] + [Text(" opened "), Verb]

  /** `ToStringFormat` is the Go format string `"_%s_ (%s) by %s opened %s"`. */
  lemma ToStringFormatText()
    ensures Render(ToStringFormat) == "_%s_ (%s) by %s opened %s"
    ensures Verbs(ToStringFormat) == 4
  {
    RenderFour("_", "_ (", ") by ", " opened ");
    FillFour("_", "_ (", ") by ", " opened ", "", "", "", "");
  }

  /** Where the title and the status lie in the pull-request text. */
  lemma ToStringLayout(title: string, status: string, rest: string)
    ensures var r := "_" + title + ("_ (" + status + rest);
      && |r| == |title| + 4 + |status| + |rest|
      && r[..|title| + 4] == "_" + title + "_ ("
      && r[|title| + 4..][..|status|] == status
  {
    var r := "_" + title + ("_ (" + status + rest);
    assert r == ("_" + title + "_ (") + (status + rest);
  }

  /** `PullRequest.ToString`: `"_<title>_ (<approval with emoji>) by <author> opened <since>"`. */
  function ToString(pr: PullRequest, ago: int -> string): (r: string)
    ensures r == Sprintf(ToStringFormat, [pr.title, ApprovalStatus(pr, true), pr.author.user.displayName, OpenSince(pr, ago)])
    ensures |r| > |pr.title| + 4 + 27
    ensures r[..|pr.title| + 4] == "_" + pr.title + "_ ("
    ensures ApprovedBy(pr.reviewers) ==> r[|pr.title| + 4..][..27] == ":white_check_mark: Approved"
    ensures !ApprovedBy(pr.reviewers) ==> r[|pr.title| + 4..][..25] == ":disappointed: Unapproved"
  {
    var status := ApprovalStatus(pr, true);
    var rest := ") by " + pr.author.user.displayName + (" opened " + OpenSince(pr, ago));
    FillFour("_", "_ (", ") by ", " opened ", pr.title, status, pr.author.user.displayName, OpenSince(pr, ago));
    ToStringLayout(pr.title, status, rest);
    "_" + pr.title + ("_ (" + status + rest)
  }
}
