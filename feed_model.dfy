/** The values the feed locator works on: the abstract web it fetches from,
    the collaborators it calls into, and the outcomes it reports. */
module FeedModel {

  datatype Option<+T> = None | Some(value: T)

  /** The four content classes the locator asks the MIME matcher about. */
  datatype Tag = Html | Rss | Atom | Json

  /** A `<link rel="alternate">` element of a page: its `type` and `href`
      attributes, each possibly absent. */
  datatype Link = Link(linkType: Option<string>, href: Option<string>)

  /** A response body as the parsers see it: an HTML page reduced to its
      alternate links in document order, a decoded JSON object reduced to
      its `feed_url` member, or an XML document (never looked into). */
  datatype Body =
    | HtmlPage(alternates: seq<Link>)
    | JsonObject(feedUrl: Option<string>)
    | Xml

  /** A fetched response: the `content-type` header, if any, and the body. */
  datatype Response = Response(contentType: Option<string>, body: Body)

  /** Everything the locator consults besides its argument:
      `web` answers a fetch (a URL outside it is a failed fetch),
      `matches(mime, t)` is the MIME matcher's verdict on one content class,
      `resolve(base, href)` joins a reference to a base URL, or fails. */
  datatype Env = Env(
    web: map<string, Response>,
    matches: (string, Tag) -> bool,
    resolve: (string, string) -> Option<string>)

  /** The errors the locator can raise or let through. */
  datatype Error =
    | FeedNotFound           // locateFeed found nothing
    | UnsupportedContentType // content type of no known class
    | MissingFeedUrl         // JSON body without a usable feed_url
    | MalformedJson          // body could not be decoded as a JSON object
    | FetchFailed            // the fetch itself rejected
    | InvalidUrl             // an href could not be joined to the page URL

  /** The outcome of one attempt: a feed URL, null, a raised error, or the
      depth bound of the model exhausted. */
  datatype Outcome = Found(url: string) | NotFound | Failed(error: Error) | OutOfFuel

  /** The outcome of locating a feed for a seed URL. */
  datatype Resolution = Resolved(feedUrl: string) | Rejected(error: Error) | FuelExhausted

  /** A link of a page selected for one priority tier: the tier, the link's
      position in the document and its `href`. */
  datatype Candidate = Candidate(tier: Tag, index: nat, href: string)
}
