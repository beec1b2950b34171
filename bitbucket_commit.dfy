/** Commits, the options of a commit listing and their query string (`src/bitbucket/commit.go`). */
module BitbucketCommit {
  import opened BitbucketRepo
  import opened Wrappers
  import opened Fmt
  import Strings
  import Strconv
  import NetUrl
  import GoInt

  datatype ParentRef = ParentRef(id: string, displayID: string)

  /** The `properties` object; only the issue-tracker keys are read. */
  datatype CommitProperties = CommitProperties(jiraIssueKeys: seq<string>)

  datatype Commit = Commit(
    id: string,
    displayID: string,
    author: User,
    authorTimestamp: int,
    committer: User,
    committerTimestamp: int,
    message: string,
    parents: seq<ParentRef>,
    properties: CommitProperties)

  /** One page of commits, newest first. */
  datatype CommitList = CommitList(
    size: int,
    isLastPage: bool,
    start: int,
    limit: int,
    nextPageStart: int,
    values: seq<Commit>)

  /** `CommitOptions`: every field is tagged `omitempty` under the key `Name` gives it. */
  datatype CommitOptions = CommitOptions(
    followRenames: bool,
    ignoreMissing: bool,
    merges: string,
    path: string,
    since: string,
    until: string,
    withCounts: bool,
    limit: int,
    start: int)

  /** `CommitOptions{}`. */
  const NoOptions := CommitOptions(false, false, "", "", "", "", false, 0, 0)

  /** The fields of `CommitOptions`, each written under the key of its `url` tag. */
  datatype OptionKey = FollowRenames | IgnoreMissing | Limit | Merges | Path | Since | Start | Until | WithCounts

  /** The query key of a field. */
  function Name(k: OptionKey): string
  {
    match k
    case FollowRenames => "followRenames"
    case IgnoreMissing => "ignoreMissing"
    case Limit => "limit"
    case Merges => "merges"
    case Path => "path"
    case Since => "since"
    case Start => "start"
    case Until => "until"
    case WithCounts => "withCounts"
  }

  /** The fields, in the byte order of their keys, which is the order `url.Values.Encode` sorts
      them into. */
  const OptionKeys: seq<OptionKey> :=
    [FollowRenames, IgnoreMissing, Limit, Merges, Path, Since, Start, Until, WithCounts]

  /** `a` sorts strictly before `b`, comparing character codes (for UTF-8 text this is the byte
      order Go's `sort.Strings` uses). */
  predicate Before(a: string, b: string)
  {
    if a == [] then b != []
    else b != [] && (a[0] < b[0] || (a[0] == b[0] && Before(a[1..], b[1..])))
  }

  /** Every field is listed once, and the keys are listed in strictly increasing order. */
  lemma OptionKeysSorted()
    ensures forall k: OptionKey :: k in OptionKeys
    ensures forall i :: 0 <= i < |OptionKeys| - 1 ==> Before(Name(OptionKeys[i]), Name(OptionKeys[i + 1]))
  {
    forall k: OptionKey ensures k in OptionKeys {
      var i := match k
        case FollowRenames => 0 case IgnoreMissing => 1 case Limit => 2 case Merges => 3 case Path => 4
        case Since => 5 case Start => 6 case Until => 7 case WithCounts => 8;
      assert OptionKeys[i] == k;
    }
    assert Before("since", "start") by {
      assert "since"[1..] == "ince" && "start"[1..] == "tart";
    }
  }

  /** The query value of the field `k`, or `None` when it is at its zero value (`omitempty`):
      booleans are written `true` and integers in decimal. */
  function Field(co: CommitOptions, k: OptionKey): Option<string>
  {
    match k
    case FollowRenames => if co.followRenames then Some("true") else None
    case IgnoreMissing => if co.ignoreMissing then Some("true") else None
    case Merges => if co.merges != "" then Some(co.merges) else None
    case Path => if co.path != "" then Some(co.path) else None
    case Since => if co.since != "" then Some(co.since) else None
    case Until => if co.until != "" then Some(co.until) else None
    case WithCounts => if co.withCounts then Some("true") else None
    case Limit => if co.limit != 0 then Some(Strconv.Itoa(co.limit)) else None
    case Start => if co.start != 0 then Some(Strconv.Itoa(co.start)) else None
  }

  /** `query.Values(co)`, listed in the order of `keys`: the fields among `keys` that are not at
      their zero value, each with its query value. */
  function Pairs(keys: seq<OptionKey>, co: CommitOptions): (ps: seq<(OptionKey, string)>)
    ensures forall i :: 0 <= i < |ps| ==> Field(co, ps[i].0) == Some(ps[i].1)
  {
    if keys == [] then []
    else (if Field(co, keys[0]).Some? then [(keys[0], Field(co, keys[0]).value)] else []) + Pairs(keys[1..], co)
  }

  /** One `key=value` item, both sides escaped. */
  function Item(p: (OptionKey, string)): string
  {
    NetUrl.QueryEscape(Name(p.0)) + "=" + NetUrl.QueryEscape(p.1)
  }

  function Items(ps: seq<(OptionKey, string)>): (items: seq<string>)
    ensures |items| == |ps|
    ensures forall i :: 0 <= i < |ps| ==> items[i] == Item(ps[i])
  {
    if ps == [] then [] else [Item(ps[0])] + Items(ps[1..])
  }

  /** `CommitOptions.ToQueryString`, that is `url.Values.Encode`: the items in sorted key order,
      joined with `&`. */
  function ToQueryString(co: CommitOptions): string
  {
    Strings.Join(Items(Pairs(OptionKeys, co)), "&")
  }

  /** The bytes of the key and the value of a pair. */
  function PairBytes(p: (OptionKey, string)): (seq<NetUrl.Byte>, seq<NetUrl.Byte>)
  {
    (NetUrl.Utf8String(Name(p.0)), NetUrl.Utf8String(p.1))
  }

  function PairsBytes(ps: seq<(OptionKey, string)>): (bs: seq<(seq<NetUrl.Byte>, seq<NetUrl.Byte>)>)
    ensures |bs| == |ps|
    ensures forall i :: 0 <= i < |ps| ==> bs[i] == PairBytes(ps[i])
  {
    if ps == [] then [] else [PairBytes(ps[0])] + PairsBytes(ps[1..])
  }

  /** Reads one `key=value` item back into the bytes of its key and value. */
  function DecodeItem(item: string): Option<(seq<NetUrl.Byte>, seq<NetUrl.Byte>)>
  {
    var kv := Strings.Split(item, '=');
    if |kv| != 2 then None
    else match (NetUrl.Unescape(kv[0]), NetUrl.Unescape(kv[1]))
      case (Some(k), Some(v)) => Some((k, v))
      case _ => None
  }

  function DecodeItems(items: seq<string>): Option<seq<(seq<NetUrl.Byte>, seq<NetUrl.Byte>)>>
  {
    if items == [] then Some([])
    else match (DecodeItem(items[0]), DecodeItems(items[1..]))
      case (Some(p), Some(ps)) => Some([p] + ps)
      case _ => None
  }

  /** Reads a query string back into its pairs, in order (the empty string holds none). */
  function DecodeQuery(q: string): Option<seq<(seq<NetUrl.Byte>, seq<NetUrl.Byte>)>>
  {
    if q == "" then Some([]) else DecodeItems(Strings.Split(q, '&'))
  }

  lemma ItemDecodes(p: (OptionKey, string))
    ensures DecodeItem(Item(p)) == Some(PairBytes(p))
    ensures '&' !in Item(p)
  {
    var k, v := NetUrl.Utf8String(Name(p.0)), NetUrl.Utf8String(p.1);
    NetUrl.EscapeNoSeparators(k);
    NetUrl.EscapeNoSeparators(v);
    NetUrl.UnescapeEscape(k);
    NetUrl.UnescapeEscape(v);
    JoinedDecodes(NetUrl.EscapeBytes(k), NetUrl.EscapeBytes(v), k, v);
  }

  /** Two escaped sides joined by `=` split back at the `=` and unescape to their bytes. */
  lemma JoinedDecodes(ek: string, ev: string, k: seq<NetUrl.Byte>, v: seq<NetUrl.Byte>)
    requires forall i :: 0 <= i < |ek| ==> ek[i] != '&' && ek[i] != '='
    requires forall i :: 0 <= i < |ev| ==> ev[i] != '&' && ev[i] != '='
    requires NetUrl.Unescape(ek) == Some(k) && NetUrl.Unescape(ev) == Some(v)
    ensures DecodeItem(ek + "=" + ev) == Some((k, v))
    ensures '&' !in ek + "=" + ev
  {
    Absent(ek, '=');
    Absent(ev, '=');
    Absent(ek, '&');
    Absent(ev, '&');
    SplitJoined(ek, ev, k, v);
  }

  lemma Absent(s: string, c: char)
    requires c == '&' || c == '='
    requires forall i :: 0 <= i < |s| ==> s[i] != '&' && s[i] != '='
    ensures c !in s
  {
  }

  lemma SplitJoined(ek: string, ev: string, k: seq<NetUrl.Byte>, v: seq<NetUrl.Byte>)
    requires '=' !in ek && '=' !in ev && '&' !in ek && '&' !in ev
    requires NetUrl.Unescape(ek) == Some(k) && NetUrl.Unescape(ev) == Some(v)
    ensures DecodeItem(ek + "=" + ev) == Some((k, v))
    ensures '&' !in ek + "=" + ev
  {
    assert ek + "=" + ev == ek + ['='] + ev;
    Strings.SplitAfterPiece(ek, '=', ev);
    Strings.SplitWithout(ev, '=');
  }

  lemma {:induction false} ItemsDecode(ps: seq<(OptionKey, string)>)
    ensures DecodeItems(Items(ps)) == Some(PairsBytes(ps))
  {
    if ps != [] {
      ItemDecodes(ps[0]);
      ItemsDecode(ps[1..]);
      assert Items(ps)[1..] == Items(ps[1..]);
    }
  }

  /** Round trip: decoding the query string gives back, in sorted key order, every option that is
      set and nothing else. */
  lemma QueryStringDecodes(co: CommitOptions)
    ensures DecodeQuery(ToQueryString(co)) == Some(PairsBytes(Pairs(OptionKeys, co)))
  {
    var ps := Pairs(OptionKeys, co);
    var items := Items(ps);
    ItemsDecode(ps);
    if items == [] {
      assert ToQueryString(co) == "";
    } else {
      forall i | 0 <= i < |items| ensures '&' !in items[i] {
        ItemDecodes(ps[i]);
      }
      Strings.SplitJoin(items, '&');
      var q := ToQueryString(co);
      assert q != "" by {
        ItemDecodes(ps[0]);
        JoinNonEmpty(items, "&");
      }
    }
  }

  /** A join of non-empty items is non-empty. */
  lemma JoinNonEmpty(items: seq<string>, sep: string)
    requires items != [] && items[0] != []
    ensures Strings.Join(items, sep) != []
  {
  }

  /** The pairs hold exactly the options that are set and listed in `keys`. */
  lemma {:induction false} PairsKeys(keys: seq<OptionKey>, co: CommitOptions, k: OptionKey)
    ensures (exists i :: 0 <= i < |Pairs(keys, co)| && Pairs(keys, co)[i].0 == k) <==> k in keys && Field(co, k).Some?
  {
    if keys != [] {
      PairsKeys(keys[1..], co, k);
      var head: seq<(OptionKey, string)> :=
        if Field(co, keys[0]).Some? then [(keys[0], Field(co, keys[0]).value)] else [];
      var ps := Pairs(keys, co);
      assert ps == head + Pairs(keys[1..], co);
      if k in keys[1..] && Field(co, k).Some? {
        var i :| 0 <= i < |Pairs(keys[1..], co)| && Pairs(keys[1..], co)[i].0 == k;
        assert ps[|head| + i] == Pairs(keys[1..], co)[i];
      }
      if k == keys[0] && Field(co, k).Some? {
        assert ps[0].0 == k;
      }
    }
  }

  /** Keys whose options are all unset contribute no pairs. */
  lemma PairsNone(keys: seq<OptionKey>, co: CommitOptions)
    requires forall i :: 0 <= i < |keys| ==> Field(co, keys[i]).None?
    ensures Pairs(keys, co) == []
  {
  }

  /** The zero options give the empty query string (`commit_test.go`). */
  lemma NoOptionsQuery()
    ensures ToQueryString(NoOptions) == ""
  {
    PairsNone(OptionKeys, NoOptions);
  }

  /** Unset options at the front of the key list contribute no pairs. */
  lemma {:induction false} PairsSkip(keys: seq<OptionKey>, n: nat, co: CommitOptions)
    requires n <= |keys|
    requires forall i :: 0 <= i < n ==> Field(co, keys[i]).None?
    ensures Pairs(keys, co) == Pairs(keys[n..], co)
  {
    if n > 0 {
      PairsSkip(keys[1..], n - 1, co);
      assert keys[1..][n - 1..] == keys[n..];
    }
  }

  /** The unreserved words of the examples below escape to themselves. */
  lemma ExampleItems()
    ensures Items([(Since, "foo")]) == ["since=foo"]
    ensures Items([(Path, "bar"), (Since, "foo")]) == ["path=bar", "since=foo"]
  {
    UnreservedItem(Since, "foo");
    UnreservedItem(Path, "bar");
    ItemsOfTwo((Path, "bar"), (Since, "foo"));
    assert "since" + "=" + "foo" == "since=foo" && "path" + "=" + "bar" == "path=bar";
  }

  lemma UnreservedItem(k: OptionKey, v: string)
    requires k in {Since, Path} && v in {"foo", "bar"}
    ensures Item((k, v)) == Name(k) + "=" + v
  {
    NetUrl.QueryEscapeUnreserved(Name(k));
    NetUrl.QueryEscapeUnreserved(v);
  }

  lemma ItemsOfTwo(a: (OptionKey, string), b: (OptionKey, string))
    ensures Items([b]) == [Item(b)]
    ensures Items([a, b]) == [Item(a), Item(b)]
  {
    assert [a, b][1..] == [b];
  }

  lemma SincePairs()
    ensures Pairs(OptionKeys, NoOptions.(since := "foo")) == [(Since, "foo")]
  {
    var v := NoOptions.(since := "foo");
    PairsSkip(OptionKeys, 5, v);
    PairsNone(OptionKeys[6..], v);
    assert OptionKeys[5..][1..] == OptionKeys[6..];
  }

  lemma PathSincePairs()
    ensures Pairs(OptionKeys, NoOptions.(since := "foo", path := "bar")) == [(Path, "bar"), (Since, "foo")]
  {
    var v := NoOptions.(since := "foo", path := "bar");
    var rest := OptionKeys[6..];
    PairsSkip(OptionKeys, 4, v);
    assert OptionKeys[4..] == [Path, Since] + rest;
    PairsNone(rest, v);
    PairsOfTwo(Path, "bar", Since, "foo", rest, v);
  }

  /** Two set options in front of keys that give no pairs. */
  lemma PairsOfTwo(k1: OptionKey, x1: string, k2: OptionKey, x2: string, rest: seq<OptionKey>, co: CommitOptions)
    requires Field(co, k1) == Some(x1) && Field(co, k2) == Some(x2) && Pairs(rest, co) == []
    ensures Pairs([k1, k2] + rest, co) == [(k1, x1), (k2, x2)]
  {
    var keys := [k1, k2] + rest;
    assert keys[1..] == [k2] + rest;
    assert keys[1..][1..] == rest;
  }

  /** `Since: "foo"` gives `since=foo` (`commit_test.go`). */
  lemma SinceQuery()
    ensures ToQueryString(NoOptions.(since := "foo")) == "since=foo"
  {
    ExampleItems();
    SincePairs();
  }

  lemma PathSinceItems()
    ensures Items(Pairs(OptionKeys, NoOptions.(since := "foo", path := "bar"))) == ["path=bar", "since=foo"]
  {
    ExampleItems();
    PathSincePairs();
  }

  lemma PathSinceJoin()
    ensures Strings.Join(["path=bar", "since=foo"], "&") == "path=bar&since=foo"
  {
    var items := ["path=bar", "since=foo"];
    assert items[1..] == ["since=foo"];
    assert Strings.Join(items, "&") == "path=bar" + "&" + "since=foo";
  }

  /** `Since: "foo", Path: "bar"` gives `path=bar&since=foo`: keys in sorted order, not in field
      order (`commit_test.go`). */
  lemma PathSinceQuery()
    ensures ToQueryString(NoOptions.(since := "foo", path := "bar")) == "path=bar&since=foo"
  {
    PathSinceItems();
    PathSinceJoin();
  }

  /** `Commit.TimeAgo`: the opaque "time ago" text of the author time, in milliseconds cut to
      whole seconds. */
  function TimeAgo(c: Commit, ago: int -> string): string
  {
    ago(GoInt.MillisToSeconds(c.authorTimestamp))
  }

  /** The format `Commit.String` passes to `fmt.Sprintf`. */
  const StringFormat: Format := [Verb] + ([Text(" ("), Verb] + [Text(") by "), Verb] + [Text(" "), Verb])

  /** `StringFormat` is the Go format string `"%s (%s) by %s %s"`. */
  lemma StringFormatText()
    ensures Render(StringFormat) == "%s (%s) by %s %s"
    ensures Verbs(StringFormat) == 4
  {
    var tail := [Text(" ("), Verb] + [Text(") by "), Verb] + [Text(" "), Verb];
    RenderThree(" (", ") by ", " ");
    FillThree(" (", ") by ", " ", "", "", "");
    RenderConcat([Verb], tail);
    assert Render([Verb]) == "%s" + Render([]);
    VerbFill("", tail, ["", "", ""]);
  }

  /** `Commit.String`: `"<message> (<full id>) by <author> <time ago>"`. */
  function String(c: Commit, ago: int -> string): (r: string)
    ensures r == Sprintf(StringFormat, [c.message, c.id, c.author.displayName, TimeAgo(c, ago)])
  {
    var tail := [Text(" ("), Verb] + [Text(") by "), Verb] + [Text(" "), Verb];
    FillThree(" (", ") by ", " ", c.id, c.author.displayName, TimeAgo(c, ago));
    VerbFill(c.message, tail, [c.id, c.author.displayName, TimeAgo(c, ago)]);
    assert [c.message] + [c.id, c.author.displayName, TimeAgo(c, ago)] == [c.message, c.id, c.author.displayName, TimeAgo(c, ago)];
    c.message + (" (" + c.id + (") by " + c.author.displayName + (" " + TimeAgo(c, ago))))
  }

  /** The full commit id is shown: the short display id plays no part, and the id sits between
      the parentheses that follow the message. */
  lemma StringShowsFullId(c: Commit, d: string, ago: int -> string)
    ensures String(c.(displayID := d), ago) == String(c, ago)
    ensures var s := String(c, ago);
      s[|c.message|..|c.message| + 2] == " (" && s[|c.message| + 2..|c.message| + 2 + |c.id|] == c.id
  {
  }

  /** `commit_test.go`'s commit: message `foo`, id `1234567890`, author `bar`. */
  lemma StringExample(c: Commit, ago: int -> string)
    requires c.id == "1234567890" && c.message == "foo" && c.author.displayName == "bar"
    ensures String(c, ago) == "foo (1234567890) by bar " + TimeAgo(c, ago)
  {
  }

  /** `Commit.JIRAIssueKeys`: the issue keys stored with the commit. */
  function JIRAIssueKeys(c: Commit): seq<string>
  {
    c.properties.jiraIssueKeys
  }
}
