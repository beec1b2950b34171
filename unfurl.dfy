/** The orchestrator (`src/unfurl/unfurl.go`): every link of a shared-links event is sent to the
    builder of its domain, and the successful previews are collected under the links' URLs. */
module Unfurl {
  import opened Wrappers
  import opened Slack
  import opened Errors
  import opened Preview
  import BitbucketClient
  import UnfurlBitbucket
  import UnfurlJenkins

  /** The two server domains the bot previews links of. */
  datatype Config = Config(bitbucketServer: string, jenkinsServer: string)

  /** One link of the event: the domain Slack matched and the URL as shared. */
  datatype Link = Link(domain: string, url: string)

  /** What the orchestrator holds: the configuration, the Bitbucket client and server, the
      Jenkins client, the clock, and `url.Parse` reduced to the path of a URL it accepts. */
  datatype Unfurl = Unfurl(
    config: Config,
    client: BitbucketClient.Client,
    server: BitbucketClient.Server,
    jenkins: UnfurlJenkins.Jenkins,
    clock: UnfurlJenkins.Clock,
    parse: string -> Option<string>)

  /** The builder a link goes to, if any: a URL that does not parse and a domain that is neither
      server are skipped; the Bitbucket domain is compared first. */
  function Handle(u: Unfurl, link: Link): (r: Option<Outcome>)
    ensures r.None? <==>
      u.parse(link.url).None? || (link.domain != u.config.bitbucketServer && link.domain != u.config.jenkinsServer)
    ensures r.Some? && link.domain == u.config.bitbucketServer ==>
      r.value == UnfurlBitbucket.LinkPreview(u.client, u.server, u.clock.ago, u.parse(link.url).value)
    ensures r.Some? && link.domain != u.config.bitbucketServer ==>
      link.domain == u.config.jenkinsServer &&
      r.value == UnfurlJenkins.LinkPreview(u.jenkins, u.clock, u.parse(link.url).value)
  {
    match u.parse(link.url)
    case None => None
    case Some(path) =>
      if link.domain == u.config.bitbucketServer then
        Some(UnfurlBitbucket.LinkPreview(u.client, u.server, u.clock.ago, path))
      else if link.domain == u.config.jenkinsServer then
        Some(UnfurlJenkins.LinkPreview(u.jenkins, u.clock, path))
      else None
  }

  /** What the loop does with one link: the outcome of its builder, or nothing when it is skipped. */
  type Handler = Link -> Option<Outcome>

  /** The orchestrator's own handler. */
  function HandlerOf(u: Unfurl): Handler
  {
    (link: Link) => Handle(u, link)
  }

  /** A link whose builder returned no error. */
  predicate Unfurled(h: Handler, link: Link)
  {
    h(link).Some? && h(link).value.err.None?
  }

  /** The map the loop builds over the links in order: each success stored under its URL,
      overwriting what an earlier link with the same URL stored. */
  function Unfurls(h: Handler, links: seq<Link>): map<string, Attachment>
  {
    if links == [] then map[]
    else
      var before := Unfurls(h, links[..|links| - 1]);
      var link := links[|links| - 1];
      if Unfurled(h, link) then before[link.url := h(link).value.attachment] else before
  }

  /** One more link: the map gains its attachment when it was unfurled and is unchanged
      otherwise. */
  lemma UnfurlsStep(h: Handler, links: seq<Link>, i: int)
    requires 0 <= i < |links|
    ensures Unfurls(h, links[..i + 1]) ==
      if Unfurled(h, links[i]) then Unfurls(h, links[..i])[links[i].url := h(links[i]).value.attachment]
      else Unfurls(h, links[..i])
  {
    assert links[..i + 1] == links[..i] + [links[i]];
    UnfurlsSnoc(h, links[..i], links[i]);
  }

  /** The map of the links followed by one more link. */
  lemma UnfurlsSnoc(h: Handler, links: seq<Link>, link: Link)
    ensures Unfurls(h, links + [link]) ==
      if Unfurled(h, link) then Unfurls(h, links)[link.url := h(link).value.attachment] else Unfurls(h, links)
  {
    assert (links + [link])[..|links|] == links;
  }

  /** `Unfurl.Links`: the loop over the links, with the skips and the failures left out of the
      map; the error returned is always nil. */
  method Links(u: Unfurl, links: seq<Link>) returns (unfurls: map<string, Attachment>, err: Option<Error>)
    ensures err == None
    ensures unfurls == Unfurls(HandlerOf(u), links)
  {
    unfurls := map[];
    var i := 0;
    while i < |links|
      invariant 0 <= i <= |links|
      invariant unfurls == Unfurls(HandlerOf(u), links[..i])
    {
      var link := links[i];
      UnfurlsStep(HandlerOf(u), links, i);
      i := i + 1;
      var parsed := u.parse(link.url);
      if parsed.None? {
        assert HandlerOf(u)(link) == None;
        continue;
      }
      var attachment: Attachment;
      var linkErr: Option<Error>;
      var calls: seq<string>;
      if link.domain == u.config.bitbucketServer {
        attachment, linkErr, calls := UnfurlBitbucket.BitbucketLink(u.client, u.server, u.clock.ago, parsed.value);
      } else if link.domain == u.config.jenkinsServer {
        attachment, linkErr, calls := UnfurlJenkins.JenkinsLink(u.jenkins, u.clock, parsed.value);
      } else {
        assert HandlerOf(u)(link) == None;
        continue;
      }
      assert HandlerOf(u)(link) == Some(Outcome(attachment, linkErr, calls));
      if linkErr.None? {
        unfurls := unfurls[link.url := attachment];
      }
    }
    assert links[..|links|] == links;
    err := None;
  }

  /** The keys of the result are exactly the URLs of the links that were unfurled. */
  lemma {:induction false} UnfurlsKeys(h: Handler, links: seq<Link>)
    ensures forall url :: url in Unfurls(h, links) <==>
      exists i :: 0 <= i < |links| && links[i].url == url && Unfurled(h, links[i])
  {
    if links != [] {
      var init := links[..|links| - 1];
      UnfurlsKeys(h, init);
      forall url
        ensures url in Unfurls(h, links) <==>
          exists i :: 0 <= i < |links| && links[i].url == url && Unfurled(h, links[i])
      {
        if url in Unfurls(h, links) {
          if url in Unfurls(h, init) {
            var i :| 0 <= i < |init| && init[i].url == url && Unfurled(h, init[i]);
            assert links[i] == init[i];
          } else {
            assert links[|links| - 1].url == url && Unfurled(h, links[|links| - 1]);
          }
        }
        if exists i :: 0 <= i < |links| && links[i].url == url && Unfurled(h, links[i]) {
          var i :| 0 <= i < |links| && links[i].url == url && Unfurled(h, links[i]);
          if i < |links| - 1 {
            assert init[i] == links[i];
          }
        }
      }
    }
  }

  /** Every key is the URL of a link the handler passed to a builder (for the orchestrator, see
      `HandledLink`: a link whose URL parsed, on the Bitbucket or the Jenkins domain). */
  lemma KeysHandled(h: Handler, links: seq<Link>, url: string)
    requires url in Unfurls(h, links)
    ensures exists i :: 0 <= i < |links| && links[i].url == url && h(links[i]).Some?
  {
    UnfurlsKeys(h, links);
  }

  /** A link the orchestrator hands to a builder parsed and is on one of the two domains. */
  lemma HandledLink(u: Unfurl, link: Link)
    requires HandlerOf(u)(link).Some?
    ensures u.parse(link.url).Some?
    ensures link.domain == u.config.bitbucketServer || link.domain == u.config.jenkinsServer
  {
    assert Handle(u, link).Some?;
  }

  /** For every URL, the value stored is the attachment of the last link with that URL that was
      unfurled: later failures and skips leave it in place. */
  lemma {:induction false} LastSuccessWins(h: Handler, links: seq<Link>, j: int)
    requires 0 <= j < |links| && Unfurled(h, links[j])
    requires forall i :: j < i < |links| && links[i].url == links[j].url ==> !Unfurled(h, links[i])
    ensures links[j].url in Unfurls(h, links)
    ensures Unfurls(h, links)[links[j].url] == h(links[j]).value.attachment
  {
    var init := links[..|links| - 1];
    if j < |links| - 1 {
      forall i | j < i < |init| && init[i].url == init[j].url
        ensures !Unfurled(h, init[i])
      {
        assert init[i] == links[i];
      }
      assert init[j] == links[j];
      LastSuccessWins(h, init, j);
    }
  }

  /** A link that fails or is skipped leaves the map as the earlier links made it. */
  lemma FailureKeepsEntries(h: Handler, links: seq<Link>, link: Link)
    requires !Unfurled(h, link)
    ensures Unfurls(h, links + [link]) == Unfurls(h, links)
  {
    UnfurlsSnoc(h, links, link);
  }

  /** A link on a domain that is both servers goes to the Bitbucket builder. */
  lemma BitbucketFirst(u: Unfurl, link: Link)
    requires u.config.bitbucketServer == u.config.jenkinsServer == link.domain
    requires u.parse(link.url).Some?
    ensures Handle(u, link) ==
      Some(UnfurlBitbucket.LinkPreview(u.client, u.server, u.clock.ago, u.parse(link.url).value))
  {
  }

  /** Links the handler skips (for the orchestrator: those that do not parse or are on another
      domain) call no builder, so the result does not depend on them: dropping them from the event
      gives the same map. */
  lemma {:induction false} SkippedLinksIgnored(h: Handler, links: seq<Link>)
    ensures Unfurls(h, links) == Unfurls(h, Handled(h, links))
  {
    if links != [] {
      var init := links[..|links| - 1];
      var link := links[|links| - 1];
      SkippedLinksIgnored(h, init);
      assert links == init + [link];
      UnfurlsSnoc(h, init, link);
      HandledAppend(h, init, link);
      if h(link).Some? {
        assert Handled(h, links) == Handled(h, init) + [link];
        UnfurlsSnoc(h, Handled(h, init), link);
      } else {
        assert Handled(h, links) == Handled(h, init);
      }
    }
  }

  /** The links that reach a builder, in order. */
  function Handled(h: Handler, links: seq<Link>): (r: seq<Link>)
    ensures forall k :: 0 <= k < |r| ==> h(r[k]).Some?
  {
    if links == [] then []
    else (if h(links[0]).Some? then [links[0]] else []) + Handled(h, links[1..])
  }

  lemma {:induction false} HandledAppend(h: Handler, links: seq<Link>, link: Link)
    ensures Handled(h, links + [link]) == Handled(h, links) + (if h(link).Some? then [link] else [])
  {
    if links == [] {
      assert [] + [link] == [link];
      assert [link][1..] == [];
    } else {
      assert (links + [link])[0] == links[0];
      assert (links + [link])[1..] == links[1..] + [link];
      HandledAppend(h, links[1..], link);
    }
  }
}
