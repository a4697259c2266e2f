/** The resolution algorithm: content-type dispatch, the tiered search of
    a page's alternate links, and the per-format handlers. Recursion through
    HTML pages is bounded by `fuel`; an exhausted bound is the separate
    outcome `OutOfFuel`, which aborts like an error. */
module Locator {
  import opened FeedModel

  /** The classes offered to the matcher when dispatching a response, in
      the order the matcher tries them. */
  const DispatchOrder: seq<Tag> := [Html, Rss, Atom, Json]

  /** The order in which the tiers of alternate links are searched. */
  const PrioritizedFeedTypes: seq<Tag> := [Json, Atom, Rss]

  /** The first of `tags` the matcher accepts for `mime`. */
  function FirstMatch(matches: (string, Tag) -> bool, mime: string, tags: seq<Tag>): (r: Option<Tag>)
    ensures r.None? <==> forall i :: 0 <= i < |tags| ==> !matches(mime, tags[i])
    ensures r.Some? ==> exists k :: 0 <= k < |tags| && tags[k] == r.value && matches(mime, r.value)
                                    && forall i :: 0 <= i < k ==> !matches(mime, tags[i])
  {
    if tags == [] then None
    else if matches(mime, tags[0]) then Some(tags[0])
    else
      var r := FirstMatch(matches, mime, tags[1..]);
      assert r.Some? ==> exists k :: 1 <= k < |tags| && tags[k] == r.value && matches(mime, r.value)
                                     && forall i :: 0 <= i < k ==> !matches(mime, tags[i]) by {
        if r.Some? {
          var k' :| 0 <= k' < |tags[1..]| && tags[1..][k'] == r.value && matches(mime, r.value)
                    && forall i :: 0 <= i < k' ==> !matches(mime, tags[1..][i]);
          assert forall i :: 0 <= i < k' + 1 ==> !matches(mime, tags[i]) by {
            forall i | 0 <= i < k' + 1 ensures !matches(mime, tags[i]) {
              if i > 0 { assert tags[i] == tags[1..][i - 1]; }
            }
          }
        }
      }
      r
  }

  /** The content class of a `content-type` value. */
  function Classify(matches: (string, Tag) -> bool, mime: string): (r: Option<Tag>)
  {
    FirstMatch(matches, mime, DispatchOrder)
  }

  /** Whether a response carries a (non-empty) `content-type` header. */
  predicate HasContentType(response: Response)
  {
    response.contentType.Some? && response.contentType.value != ""
  }

  /** The alternate links of a body read as HTML: none unless it is a page. */
  function AlternateLinks(body: Body): (r: seq<Link>)
  {
    if body.HtmlPage? then body.alternates else []
  }

  /** Whether a link is tried in tier `tier`: it has a non-empty type the
      matcher puts in that class, and a non-empty href. */
  predicate Qualifies(matches: (string, Tag) -> bool, link: Link, tier: Tag)
  {
    link.linkType.Some? && link.linkType.value != "" && matches(link.linkType.value, tier)
    && link.href.Some? && link.href.value != ""
  }

  /** The links from position `from` on that qualify for `tier`, in document order. */
  function TierFrom(matches: (string, Tag) -> bool, links: seq<Link>, tier: Tag, from: nat): (r: seq<Candidate>)
    decreases |links| - from
  {
    if from >= |links| then []
    else
      (if Qualifies(matches, links[from], tier) then [Candidate(tier, from, links[from].href.value)] else [])
      + TierFrom(matches, links, tier, from + 1)
  }

  /** The candidates of every tier in `tiers`, tier after tier. */
  function Tiers(matches: (string, Tag) -> bool, links: seq<Link>, tiers: seq<Tag>): (r: seq<Candidate>)
  {
    if tiers == [] then []
    else TierFrom(matches, links, tiers[0], 0) + Tiers(matches, links, tiers[1..])
  }

  /** Every attempt the HTML handler may make, in the order it makes them. */
  function Candidates(matches: (string, Tag) -> bool, links: seq<Link>): (r: seq<Candidate>)
  {
    Tiers(matches, links, PrioritizedFeedTypes)
  }

  /** Fetch `url` and dispatch on its content type. */
  function Attempt(env: Env, fuel: nat, url: string): (r: Outcome)
    ensures r.Found? ==> r.url != ""
    ensures r.Failed? ==> r.error != FeedNotFound
    decreases fuel, 0, 0
  {
    if fuel == 0 then OutOfFuel
    else if url !in env.web then Failed(FetchFailed)
    else
      var response := env.web[url];
      if !HasContentType(response) then NotFound
      else
        match Classify(env.matches, response.contentType.value)
        case None => Failed(UnsupportedContentType)
        case Some(Html) => HandleHtml(env, fuel - 1, url, response.body)
        case Some(Rss) => HandleRss(url, response.body)
        case Some(Atom) => HandleAtom(url, response.body)
        case Some(Json) => HandleJson(url, response.body)
  }

  /** Search the page's alternate links, tier by tier, for a feed. */
  function HandleHtml(env: Env, fuel: nat, url: string, body: Body): (r: Outcome)
    ensures r.Found? ==> r.url != ""
    ensures r.Failed? ==> r.error != FeedNotFound
    decreases fuel, 3, 0
  {
    TryCandidates(env, fuel, url, Candidates(env.matches, AlternateLinks(body)))
  }

  /** Try the candidates in order; the first outcome other than null wins. */
  function TryCandidates(env: Env, fuel: nat, base: string, cands: seq<Candidate>): (r: Outcome)
    ensures r.Found? ==> r.url != ""
    ensures r.Failed? ==> r.error != FeedNotFound
    decreases fuel, 2, |cands|
  {
    if cands == [] then NotFound
    else
      var r := TryCandidate(env, fuel, base, cands[0]);
      if r.NotFound? then TryCandidates(env, fuel, base, cands[1..]) else r
  }

  /** Join one candidate's href to the page URL and attempt the result. */
  function TryCandidate(env: Env, fuel: nat, base: string, c: Candidate): (r: Outcome)
    ensures env.resolve(base, c.href).None? ==> r == Failed(InvalidUrl)
    ensures r.Found? ==> r.url != ""
    ensures r.Failed? ==> r.error != FeedNotFound
    decreases fuel, 1, 0
  {
    match env.resolve(base, c.href)
    case None => Failed(InvalidUrl)
    case Some(feedUrl) => Attempt(env, fuel, feedUrl)
  }

  /** The RSS handler: a stub that yields null. */
  function HandleRss(url: string, body: Body): (r: Outcome)
  {
    NotFound
  }

  /** The Atom handler: a stub that yields null. */
  function HandleAtom(url: string, body: Body): (r: Outcome)
  {
    NotFound
  }

  /** The JSON handler: the body's `feed_url`, or an error. */
  function HandleJson(url: string, body: Body): (r: Outcome)
    ensures r.Found? ==> r.url != ""
    ensures r.Failed? ==> r.error != FeedNotFound
  {
    match body
    case JsonObject(feedUrl) =>
      if feedUrl.None? || feedUrl.value == "" then Failed(MissingFeedUrl) else Found(feedUrl.value)
    case _ => Failed(MalformedJson)
  }

  /** The entry point: an attempt's feed URL, with null turned into an error. */
  function LocateFeed(env: Env, fuel: nat, url: string): (r: Resolution)
    ensures r.Resolved? <==> Attempt(env, fuel, url).Found?
    ensures r.Resolved? ==> r.feedUrl == Attempt(env, fuel, url).url && r.feedUrl != ""
    ensures r == Rejected(FeedNotFound) <==> Attempt(env, fuel, url).NotFound?
    ensures Attempt(env, fuel, url).Failed? ==> r == Rejected(Attempt(env, fuel, url).error)
    ensures r.FuelExhausted? <==> Attempt(env, fuel, url).OutOfFuel?
  {
    match Attempt(env, fuel, url)
    case Found(feed) => Resolved(feed)
    case NotFound => Rejected(FeedNotFound)
    case Failed(e) => Rejected(e)
    case OutOfFuel => FuelExhausted
  }
}
