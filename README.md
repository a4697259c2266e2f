# feed-locator, modelled in Dafny

feed-locator finds the feed URL for a seed URL. `locateFeed` calls `attempt`.
`attempt` fetches the URL and dispatches on the response's `content-type`,
sorting it into html, rss, atom or json:

- an HTML page has its `rel=alternate` links searched: the json tier first,
  then atom, then rss, and within a tier in document order; each candidate's
  href is joined to the requested URL and attempted recursively, and the
  first outcome other than null wins;
- a JSON body yields its `feed_url`, or an error when that is missing;
- the RSS and Atom handlers are stubs that yield null.

The model treats the collaborators as parameters. They are gathered in
`FeedModel.Env`:

- the web is a finite map from URL to response; a URL missing from the map
  is a fetch that rejects;
- the MIME matcher of `type-is` is an uninterpreted predicate
  `matches(mime, tag)`;
- URL joining (`new URL(href, base)`) is an uninterpreted function that may
  fail.

A page is given as its list of alternate links. A JSON body is given as its
optional `feed_url`. The source has no bound on recursion, so the model adds
one: `fuel`, the depth of nested attempts. An exhausted bound is its own
outcome, `OutOfFuel`. It aborts the search the way an error does, so fuel
never changes any other outcome (`AttemptFuelMonotone`).

Files:

- `feed_model.dfy`: the data model.
- `locator.dfy`: the algorithm, as mutually recursive functions.
- `html_search.dfy`: `handleHtml` with the source's nested loops, proved
  equal to the functional search.
- `locator_lemmas.dfy`: the properties.
- `scenarios.dfy`: concrete webs shaped like the repository's tests.

The model follows src/index.ts as written:

- Handlers get the URL that was requested, not the one reached after
  redirects, so relative hrefs are joined to the requested URL.
- A content type in no class raises an error, and the HTML search does not
  catch it, so the whole search stops instead of moving on to the next
  candidate.
- RSS and Atom responses yield null. No self link or request URL is
  returned for them.

Because of the last point, the tests that expect an RSS or Atom URL
(test/index.test.ts:54-140, 191-217, 237-269) expect behaviour that the
handlers in src/index.ts do not have. `Scenarios.AtomOnlyPageIsNotFound`
states what the code does instead. test/index.test.ts:142-159 serves
`application/xml`. Dispatch (src/index.ts:22) has no generic-XML class, and
type-is puts that type in none of the four it offers, so `attempt` raises
the unsupported-content-type error before any handler runs
(`UnsupportedContentTypeFails`, `Scenarios.GenericXmlIsUnsupported`).

## Model

| member | source | states |
|---|---|---|
| Locator.FirstMatch | src/index.ts:22 | the dispatch class is the first tag of the offered list that the matcher accepts; none exactly when the matcher accepts none of them |
| Locator.Attempt | src/index.ts:15-34 | every URL an attempt finds is non-empty, and an attempt never raises "feed not found" (only locateFeed does) |
| Locator.HandleHtml | src/index.ts:38-67 | the HTML handler's outcomes keep the same two guarantees as an attempt |
| Locator.TryCandidates | src/index.ts:49-64 | the first-success fold over candidates keeps the non-empty and no-"feed not found" guarantees of the attempts it makes |
| Locator.TryCandidate | src/index.ts:52-54 | joining a candidate's href and attempting it keeps the same guarantees; a failed join is an error |
| Locator.HandleJson | src/index.ts:83-93 | a JSON handler result is non-empty and never "feed not found" |
| Locator.LocateFeed | src/index.ts:6-13 | resolves exactly when the attempt finds a URL, and to that URL; null becomes "feed not found"; raised errors pass through |
| HtmlSearch.SearchAlternates | src/index.ts:38-67 | the nested loops over tiers and links compute exactly the tiered first-success search `HandleHtml` |
| LocatorLemmas.DispatchPrecedence | src/index.ts:22 | `Locator.Classify` picks html if the matcher accepts it, else rss, else atom, else json, each iff every earlier class is refused; no class iff the matcher accepts none |
| LocatorLemmas.NoContentTypeIsNull | src/index.ts:17-20 | a response without a content-type header yields null, not an error |
| LocatorLemmas.UnsupportedContentTypeFails | src/index.ts:22-33 | a content type the matcher puts in no class raises the unsupported-content-type error |
| LocatorLemmas.RssDocumentIsNull | src/index.ts:69-74 | the RSS handler is a stub: an RSS response yields null whatever its body (this is the specification of `Locator.HandleRss`) |
| LocatorLemmas.AtomDocumentIsNull | src/index.ts:76-81 | the Atom handler is a stub: an Atom response yields null whatever its body (this is the specification of `Locator.HandleAtom`) |
| LocatorLemmas.JsonFeedUrlVerbatim | src/index.ts:83-93 | a JSON response yields its feed_url verbatim; a missing or empty feed_url raises an error |
| LocatorLemmas.JsonIndependentOfRequestUrl | src/index.ts:29-30 | two URLs serving the same JSON response have the same outcome: the request URL plays no part |
| LocatorLemmas.HtmlSearchedAgainstRequestUrl | src/index.ts:23-24 | an HTML response is searched with the requested URL as the base its hrefs are joined to |
| LocatorLemmas.TryCandidatesAppend | src/index.ts:56-60 | once a prefix of the candidates has an outcome, later candidates do not affect it (no further attempts); after a null prefix the rest decides |
| LocatorLemmas.TryCandidatesNull | src/index.ts:49-66 | the search is null exactly when every candidate attempt is null |
| LocatorLemmas.TryCandidatesFirstOutcome | src/index.ts:54-60 | the first candidate whose outcome is not null decides the search, whether it found a URL or raised an error (errors abort the search) |
| LocatorLemmas.TryCandidatesDecidedBy | src/index.ts:54-60 | a search that is not null is decided by one candidate, all before which were null |
| LocatorLemmas.TierFromMembers | src/index.ts:50-52 | `Locator.TierFrom` holds exactly the links from a position on that have a non-empty type in that class and a non-empty href |
| LocatorLemmas.TierFromOrdered | src/index.ts:50 | a tier's candidates are in document order |
| LocatorLemmas.TiersMembers | src/index.ts:49-52 | `Locator.Tiers` holds exactly the qualifying links of each listed tier |
| LocatorLemmas.TiersOrdered | src/index.ts:49-50 | candidates come tier by tier in the list's order, in document order within a tier |
| LocatorLemmas.CandidatesInPriorityOrder | src/index.ts:36-52 | `Locator.Candidates`, the attempt order of `prioritizedFeedTypes` and the link filter: exactly the qualifying links are tried, once per class they are in, json tier, then atom, then rss, in document order within a tier |
| LocatorLemmas.TierFromEmpty | src/index.ts:51-52 | a tier with no qualifying link from a position on is empty from there |
| LocatorLemmas.UnqualifiedLinkNeverTried | src/index.ts:51-52 | a link with no type, no href, or a type in none of the json, atom and rss classes (an html-only type included) is never tried |
| LocatorLemmas.NoCandidatesIsNull | src/index.ts:66 | a page none of whose links qualifies for the json, atom or rss tier yields null |
| LocatorLemmas.AttemptFuelMonotone | src/index.ts:54 | an attempt that did not run out of depth has the same outcome with any larger bound |
| LocatorLemmas.TryCandidatesFuelMonotone | src/index.ts:49-64 | the same for the candidate search |
| LocatorLemmas.FoundComesFromJson | src/index.ts:22-30 | every found URL is the feed_url of a JSON response reached from the seed along a chain of HTML alternate links no longer than the bound |
| Scenarios.UsesUrlInJsonBody | test/index.test.ts:28-37 | a JSON feed at one URL declaring another yields the declared one |
| Scenarios.JsonWithoutFeedUrlFails | test/index.test.ts:18-26 | a JSON body without feed_url makes locateFeed fail |
| Scenarios.ChoosesJsonWhenOthersPresent | test/index.test.ts:219-235 | a page linking JSON, Atom and RSS feeds yields the JSON feed's URL, and the Atom and RSS URLs are never fetched |
| Scenarios.AtomOnlyPageIsNotFound | test/index.test.ts:191-203 | as written, a page linking only an Atom feed ends in "feed not found", because the Atom handler is a stub |
| Scenarios.UnknownTypeIsNotFound | test/index.test.ts:271-280 | a page whose only link has an unknown type ends in "feed not found" |
| Scenarios.GenericXmlIsUnsupported | test/index.test.ts:142-159 | as written, a feed served as `application/xml` matches no dispatch class, so locateFeed rejects with the unsupported-content-type error |
| Scenarios.SelfLinkNeverReturns | src/index.ts:54 | with no cycle guard, a page whose JSON alternate points back at itself runs out of every depth bound: the source never returns on it |

## Left out

- Network fetching and redirects (src/index.ts:2, 16): the web is a given map holding the final response of each URL. A fetch that rejects is a URL missing from the map. Status codes are not modelled.
- MIME matching in `type-is` (src/index.ts:3, 22, 51): an uninterpreted predicate. Dispatch takes the first class the predicate accepts, in the order html, rss, atom, json.
- HTML parsing with cheerio (src/index.ts:42-46): a page is its list of alternate links. A body that is not a page but is searched as HTML is taken to have no links. cheerio would parse such text and could find link elements in it.
- URL joining and `toString` (src/index.ts:53): an uninterpreted function. Its failure is the `InvalidUrl` error that `new URL` throws.
- JSON decoding (src/index.ts:87): a decoded body is its optional string `feed_url` member. Values of other types in that member are not modelled. Decoding a body that is not JSON is the `MalformedJson` error.
- async/await, promises and the text of error messages: the model only tells error kinds apart.
- Self-link extraction from RSS and Atom documents: the RSS and Atom handlers in src/index.ts are stubs, so they yield null here.
- Unbounded recursion: the source has no depth guard, and the `fuel` bound is the model's addition. `OutOfFuel` aborts the search. By `AttemptFuelMonotone`, fuel changes no other outcome. `Scenarios.SelfLinkNeverReturns` shows a page on which the source never returns.
- Idempotence of repeated calls is not stated as a separate lemma: every operation here is a function of its inputs.
