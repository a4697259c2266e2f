/** Concrete webs in the shape of the repository's own test cases, with a
    matcher that knows four MIME types and a joiner for root-relative paths. */
module Scenarios {
  import opened FeedModel
  import opened Locator
  import opened LocatorLemmas

  const Site := "https://www.example.org"
  const Page := Site + "/"
  const JsonFeed := Site + "/feed.json"
  const AtomFeed := Site + "/feed.atom"

  /** A matcher that puts exactly one MIME type in each class. */
  function SampleMatches(mime: string, t: Tag): bool
  {
    match t
    case Html => mime == "text/html"
    case Json => mime == "application/json"
    case Atom => mime == "application/atom+xml"
    case Rss => mime == "application/rss+xml"
  }

  /** Joins a root-relative path to the site; takes other hrefs as they are. */
  function SampleResolve(base: string, href: string): Option<string>
  {
    if |href| > 0 && href[0] == '/' then Some(Site + href) else Some(href)
  }

  function SampleEnv(web: map<string, Response>): Env
  {
    Env(web, SampleMatches, SampleResolve)
  }

  function PageWith(links: seq<Link>): Response
  {
    Response(Some("text/html"), HtmlPage(links))
  }

  function JsonWith(feedUrl: Option<string>): Response
  {
    Response(Some("application/json"), JsonObject(feedUrl))
  }

  /** A JSON response yields the URL its body declares, not the one requested. */
  lemma UsesUrlInJsonBody()
    ensures LocateFeed(SampleEnv(map[JsonFeed := JsonWith(Some("https://www.example.org/feeds/json"))]), 1, JsonFeed)
            == Resolved("https://www.example.org/feeds/json")
  {
    var env := SampleEnv(map[JsonFeed := JsonWith(Some("https://www.example.org/feeds/json"))]);
    assert Classify(env.matches, "application/json") == Some(Json) by {
      assert !SampleMatches("application/json", Html) && !SampleMatches("application/json", Rss)
          && !SampleMatches("application/json", Atom);
    }
  }

  /** A JSON response without `feed_url` makes the locator fail. */
  lemma JsonWithoutFeedUrlFails()
    ensures LocateFeed(SampleEnv(map[JsonFeed := JsonWith(None)]), 1, JsonFeed) == Rejected(MissingFeedUrl)
  {
    var env := SampleEnv(map[JsonFeed := JsonWith(None)]);
    assert Classify(env.matches, "application/json") == Some(Json) by {
      assert !SampleMatches("application/json", Html) && !SampleMatches("application/json", Rss)
          && !SampleMatches("application/json", Atom);
    }
  }

  /** A page linking a JSON feed, an Atom feed and an RSS feed yields the
      JSON feed's URL; the Atom and RSS URLs are not even in this web, so
      attempting either would have failed the fetch. */
  lemma ChoosesJsonWhenOthersPresent()
    ensures LocateFeed(SampleEnv(map[
              Page := PageWith([Link(Some("application/json"), Some("/feed.json")),
                                Link(Some("application/atom+xml"), Some("/feed.atom")),
                                Link(Some("application/rss+xml"), Some("/feed.xml"))]),
              JsonFeed := JsonWith(Some(JsonFeed))]), 2, Page)
            == Resolved(JsonFeed)
  {
    var json := Link(Some("application/json"), Some("/feed.json"));
    var atom := Link(Some("application/atom+xml"), Some("/feed.atom"));
    var rss := Link(Some("application/rss+xml"), Some("/feed.xml"));
    var links := [json, atom, rss];
    var env := SampleEnv(map[Page := PageWith(links), JsonFeed := JsonWith(Some(JsonFeed))]);
    assert Classify(env.matches, "text/html") == Some(Html);
    assert Classify(env.matches, "application/json") == Some(Json) by {
      assert !SampleMatches("application/json", Html) && !SampleMatches("application/json", Rss)
          && !SampleMatches("application/json", Atom);
    }
    assert |Page| != |JsonFeed|;
    assert env.web[Page] == PageWith(links) && env.web[JsonFeed] == JsonWith(Some(JsonFeed));
    var first := Candidate(Json, 0, "/feed.json");
    assert Qualifies(env.matches, json, Json);
    assert TierFrom(env.matches, links, Json, 0) == [first] + TierFrom(env.matches, links, Json, 1);
    var cands := Candidates(env.matches, links);
    assert cands[0] == first;
    JsonFeedUrlVerbatim(env, 1, JsonFeed, Some(JsonFeed));
    assert TryCandidate(env, 1, Page, first) == Found(JsonFeed);
    TryCandidatesFirstOutcome(env, 1, Page, cands, 0);
    HtmlSearchedAgainstRequestUrl(env, 1, Page);
  }

  /** A page whose only alternate link is an Atom feed yields null under
      the Atom stub, so the locator fails with "not found". */
  lemma AtomOnlyPageIsNotFound()
    ensures LocateFeed(SampleEnv(map[
              Page := PageWith([Link(Some("application/atom+xml"), Some("/feed.atom"))]),
              AtomFeed := Response(Some("application/atom+xml"), Xml)]), 2, Page)
            == Rejected(FeedNotFound)
  {
    var atom := Link(Some("application/atom+xml"), Some("/feed.atom"));
    var links := [atom];
    var env := SampleEnv(map[Page := PageWith(links),
                             AtomFeed := Response(Some("application/atom+xml"), Xml)]);
    assert Classify(env.matches, "text/html") == Some(Html);
    assert Classify(env.matches, "application/atom+xml") == Some(Atom) by {
      assert !SampleMatches("application/atom+xml", Html) && !SampleMatches("application/atom+xml", Rss);
    }
    assert !Qualifies(env.matches, atom, Json) && !Qualifies(env.matches, atom, Rss);
    assert TierFrom(env.matches, links, Json, 0) == [];
    assert TierFrom(env.matches, links, Rss, 0) == [];
    var c := Candidate(Atom, 0, "/feed.atom");
    assert TierFrom(env.matches, links, Atom, 0) == [c];
    assert [Rss][1..] == [] && [Atom, Rss][1..] == [Rss] && PrioritizedFeedTypes[1..] == [Atom, Rss];
    assert Tiers(env.matches, links, [Rss]) == [];
    assert Tiers(env.matches, links, [Atom, Rss]) == [c];
    assert Candidates(env.matches, links) == [c];
    assert |Page| != |AtomFeed|;
    assert env.web[Page] == PageWith(links);
    assert env.web[AtomFeed] == Response(Some("application/atom+xml"), Xml);
    assert SampleResolve(Page, "/feed.atom") == Some(AtomFeed);
    AtomDocumentIsNull(env, 1, AtomFeed);
    assert TryCandidate(env, 1, Page, c) == NotFound;
    assert TryCandidates(env, 1, Page, [c]) == NotFound;
    HtmlSearchedAgainstRequestUrl(env, 1, Page);
  }

  /** A page whose only alternate link has a type of no known class fails
      with "not found", and the link's URL is never fetched. */
  lemma UnknownTypeIsNotFound()
    ensures LocateFeed(SampleEnv(map[
              Page := PageWith([Link(Some("application/foobar+xml"), Some("/feed.foo"))])]), 2, Page)
            == Rejected(FeedNotFound)
  {
    var foo := Link(Some("application/foobar+xml"), Some("/feed.foo"));
    var links := [foo];
    var env := SampleEnv(map[Page := PageWith(links)]);
    assert Classify(env.matches, "text/html") == Some(Html);
    assert !Qualifies(env.matches, foo, Json) && !Qualifies(env.matches, foo, Atom) && !Qualifies(env.matches, foo, Rss);
    assert TierFrom(env.matches, links, Json, 0) == [];
    assert TierFrom(env.matches, links, Atom, 0) == [];
    assert TierFrom(env.matches, links, Rss, 0) == [];
    assert [Rss][1..] == [] && [Atom, Rss][1..] == [Rss] && PrioritizedFeedTypes[1..] == [Atom, Rss];
    assert Tiers(env.matches, links, [Rss]) == [];
    assert Tiers(env.matches, links, [Atom, Rss]) == [];
    assert Candidates(env.matches, links) == [];
  }

  /** A feed served as generic `application/xml` falls in none of the
      classes dispatch offers, so the attempt raises before any handler. */
  lemma GenericXmlIsUnsupported()
    ensures LocateFeed(SampleEnv(map[Site + "/feed.xml" := Response(Some("application/xml"), Xml)]), 1,
                       Site + "/feed.xml")
            == Rejected(UnsupportedContentType)
  {
    var env := SampleEnv(map[Site + "/feed.xml" := Response(Some("application/xml"), Xml)]);
    assert forall t :: !env.matches("application/xml", t);
    UnsupportedContentTypeFails(env, 1, Site + "/feed.xml");
  }

  /** A web whose only page lists itself as its JSON alternate. */
  function SelfLinkedEnv(): Env
  {
    SampleEnv(map[Page := PageWith([Link(Some("application/json"), Some("/"))])])
  }

  /** With no cycle guard, the page that links to itself is attempted
      again and again: no depth bound is ever enough. */
  lemma {:induction false} SelfLinkNeverReturns(fuel: nat)
    ensures Attempt(SelfLinkedEnv(), fuel, Page) == OutOfFuel
  {
    if fuel > 0 {
      var env := SelfLinkedEnv();
      var self := Link(Some("application/json"), Some("/"));
      var links := [self];
      assert env.web[Page] == PageWith(links);
      assert Classify(env.matches, "text/html") == Some(Html);
      var c := Candidate(Json, 0, "/");
      assert Qualifies(env.matches, self, Json);
      assert !Qualifies(env.matches, self, Atom) && !Qualifies(env.matches, self, Rss);
      assert TierFrom(env.matches, links, Json, 0) == [c];
      assert TierFrom(env.matches, links, Atom, 0) == [];
      assert TierFrom(env.matches, links, Rss, 0) == [];
      assert [Rss][1..] == [] && [Atom, Rss][1..] == [Rss] && PrioritizedFeedTypes[1..] == [Atom, Rss];
      assert Tiers(env.matches, links, [Rss]) == [];
      assert Tiers(env.matches, links, [Atom, Rss]) == [];
      assert Candidates(env.matches, links) == [c];
      assert SampleResolve(Page, "/") == Some(Page);
      SelfLinkNeverReturns(fuel - 1);
      assert TryCandidate(env, fuel - 1, Page, c) == OutOfFuel;
      TryCandidatesFirstOutcome(env, fuel - 1, Page, [c], 0);
      HtmlSearchedAgainstRequestUrl(env, fuel - 1, Page);
    }
  }
}
