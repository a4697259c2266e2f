/** Properties of the resolution algorithm. */
module LocatorLemmas {
  import opened FeedModel
  import opened Locator

  // ---------------------------------------------------------------------
  // Dispatch
  // ---------------------------------------------------------------------

  /** Dispatch takes the first class the matcher accepts, in the order
      html, rss, atom, json, and finds none only when it accepts none. */
  lemma DispatchPrecedence(matches: (string, Tag) -> bool, mime: string)
    ensures Classify(matches, mime) == Some(Html) <==> matches(mime, Html)
    ensures Classify(matches, mime) == Some(Rss) <==> !matches(mime, Html) && matches(mime, Rss)
    ensures Classify(matches, mime) == Some(Atom)
            <==> !matches(mime, Html) && !matches(mime, Rss) && matches(mime, Atom)
    ensures Classify(matches, mime) == Some(Json)
            <==> !matches(mime, Html) && !matches(mime, Rss) && !matches(mime, Atom) && matches(mime, Json)
    ensures Classify(matches, mime).None? <==> forall t :: !matches(mime, t)
  {
    var order := DispatchOrder;
    assert order[1..] == [Rss, Atom, Json] && order[1..][1..] == [Atom, Json] && order[1..][1..][1..] == [Json];
    assert [Json][1..] == [];
    if !matches(mime, Html) {
      assert Classify(matches, mime) == FirstMatch(matches, mime, [Rss, Atom, Json]);
      if !matches(mime, Rss) {
        assert Classify(matches, mime) == FirstMatch(matches, mime, [Atom, Json]);
        if !matches(mime, Atom) {
          assert Classify(matches, mime) == FirstMatch(matches, mime, [Json]);
        }
      }
    }
    forall t | Classify(matches, mime).None? ensures !matches(mime, t) {
      assert t == order[0] || t == order[1] || t == order[2] || t == order[3];
    }
  }

  /** A response without a content type is null, never an error. */
  lemma NoContentTypeIsNull(env: Env, fuel: nat, url: string)
    requires fuel > 0 && url in env.web && !HasContentType(env.web[url])
    ensures Attempt(env, fuel, url) == NotFound
  {
  }

  /** A content type the matcher puts in no class raises an error. */
  lemma UnsupportedContentTypeFails(env: Env, fuel: nat, url: string)
    requires fuel > 0 && url in env.web && HasContentType(env.web[url])
    requires forall t :: !env.matches(env.web[url].contentType.value, t)
    ensures Attempt(env, fuel, url) == Failed(UnsupportedContentType)
  {
    var mime := env.web[url].contentType.value;
    assert !env.matches(mime, DispatchOrder[0]);
  }

  /** An RSS response is always null, whatever its body. */
  lemma RssDocumentIsNull(env: Env, fuel: nat, url: string)
    requires fuel > 0 && url in env.web && HasContentType(env.web[url])
    requires Classify(env.matches, env.web[url].contentType.value) == Some(Rss)
    ensures Attempt(env, fuel, url) == NotFound
  {
  }

  /** An Atom response is always null, whatever its body. */
  lemma AtomDocumentIsNull(env: Env, fuel: nat, url: string)
    requires fuel > 0 && url in env.web && HasContentType(env.web[url])
    requires Classify(env.matches, env.web[url].contentType.value) == Some(Atom)
    ensures Attempt(env, fuel, url) == NotFound
  {
  }

  /** A JSON response yields exactly its `feed_url`, whatever URL was
      requested, and raises an error when that member is missing or empty. */
  lemma JsonFeedUrlVerbatim(env: Env, fuel: nat, url: string, feedUrl: Option<string>)
    requires fuel > 0 && url in env.web && HasContentType(env.web[url])
    requires Classify(env.matches, env.web[url].contentType.value) == Some(Json)
    requires env.web[url].body == JsonObject(feedUrl)
    ensures feedUrl.Some? && feedUrl.value != "" ==> Attempt(env, fuel, url) == Found(feedUrl.value)
    ensures feedUrl.None? || feedUrl.value == "" ==> Attempt(env, fuel, url) == Failed(MissingFeedUrl)
  {
  }

  /** Two URLs serving the same JSON response resolve to the same outcome:
      the request URL plays no part. */
  lemma JsonIndependentOfRequestUrl(env: Env, fuel: nat, u1: string, u2: string)
    requires u1 in env.web && u2 in env.web && env.web[u1] == env.web[u2]
    requires HasContentType(env.web[u1])
    requires Classify(env.matches, env.web[u1].contentType.value) == Some(Json)
    ensures Attempt(env, fuel, u1) == Attempt(env, fuel, u2)
  {
  }

  /** An HTML response is searched with the requested URL as the base for
      its links, one level of fuel down. */
  lemma HtmlSearchedAgainstRequestUrl(env: Env, fuel: nat, url: string)
    requires url in env.web && HasContentType(env.web[url])
    requires Classify(env.matches, env.web[url].contentType.value) == Some(Html)
    ensures Attempt(env, fuel + 1, url)
            == TryCandidates(env, fuel, url, Candidates(env.matches, AlternateLinks(env.web[url].body)))
  {
  }

  // ---------------------------------------------------------------------
  // First-success search over candidates
  // ---------------------------------------------------------------------

  /** The search of `a + b` is the search of `a`, unless that was null;
      in particular nothing in `b` is tried once `a` has an outcome. */
  lemma {:induction false} TryCandidatesAppend(env: Env, fuel: nat, base: string, a: seq<Candidate>, b: seq<Candidate>)
    ensures TryCandidates(env, fuel, base, a + b)
            == if TryCandidates(env, fuel, base, a).NotFound? then TryCandidates(env, fuel, base, b)
               else TryCandidates(env, fuel, base, a)
  {
    if a == [] {
      assert a + b == b;
    } else {
      assert (a + b)[0] == a[0];
      assert (a + b)[1..] == a[1..] + b;
      TryCandidatesAppend(env, fuel, base, a[1..], b);
    }
  }

  /** The search is null exactly when every candidate is null. */
  lemma {:induction false} TryCandidatesNull(env: Env, fuel: nat, base: string, cands: seq<Candidate>)
    ensures TryCandidates(env, fuel, base, cands).NotFound?
            <==> forall i :: 0 <= i < |cands| ==> TryCandidate(env, fuel, base, cands[i]).NotFound?
  {
    if cands != [] {
      TryCandidatesNull(env, fuel, base, cands[1..]);
      assert forall i :: 1 <= i < |cands| ==> cands[i] == cands[1..][i - 1];
    }
  }

  /** When candidates before `k` are null and candidate `k` is not, the
      search yields candidate `k`'s outcome: a found URL, or the error it
      raised, which aborts the search. */
  lemma {:induction false} TryCandidatesFirstOutcome(env: Env, fuel: nat, base: string, cands: seq<Candidate>, k: nat)
    requires k < |cands|
    requires forall i :: 0 <= i < k ==> TryCandidate(env, fuel, base, cands[i]).NotFound?
    requires !TryCandidate(env, fuel, base, cands[k]).NotFound?
    ensures TryCandidates(env, fuel, base, cands) == TryCandidate(env, fuel, base, cands[k])
  {
    if k > 0 {
      assert TryCandidate(env, fuel, base, cands[0]).NotFound?;
      assert forall i :: 0 <= i < k - 1 ==> cands[1..][i] == cands[i + 1];
      TryCandidatesFirstOutcome(env, fuel, base, cands[1..], k - 1);
    }
  }

  /** A search that is not null was decided by one candidate, all before
      which were null. */
  lemma {:induction false} TryCandidatesDecidedBy(env: Env, fuel: nat, base: string, cands: seq<Candidate>)
    returns (k: nat)
    requires !TryCandidates(env, fuel, base, cands).NotFound?
    ensures k < |cands|
    ensures forall i :: 0 <= i < k ==> TryCandidate(env, fuel, base, cands[i]).NotFound?
    ensures TryCandidates(env, fuel, base, cands) == TryCandidate(env, fuel, base, cands[k])
  {
    if TryCandidate(env, fuel, base, cands[0]).NotFound? {
      var k' := TryCandidatesDecidedBy(env, fuel, base, cands[1..]);
      k := k' + 1;
      assert forall i :: 1 <= i < k ==> cands[i] == cands[1..][i - 1];
    } else {
      k := 0;
    }
  }

  // ---------------------------------------------------------------------
  // Which links are tried, and in which order
  // ---------------------------------------------------------------------

  /** `c` is the candidate for link `c.index` of `links` in tier `c.tier`. */
  ghost predicate SelectedLink(matches: (string, Tag) -> bool, links: seq<Link>, c: Candidate)
  {
    c.index < |links| && Qualifies(matches, links[c.index], c.tier) && c.href == links[c.index].href.value
  }

  /** Position of a tier in the search order. */
  function Rank(t: Tag): nat
  {
    match t
    case Json => 0
    case Atom => 1
    case Rss => 2
    case Html => 3
  }

  /** `c` is tried before `d`: an earlier tier, or the same tier and an
      earlier link. */
  predicate Before(c: Candidate, d: Candidate)
  {
    Rank(c.tier) < Rank(d.tier) || (c.tier == d.tier && c.index < d.index)
  }

  lemma {:induction false} TierFromMembers(matches: (string, Tag) -> bool, links: seq<Link>, tier: Tag, from: nat, c: Candidate)
    ensures c in TierFrom(matches, links, tier, from)
            <==> c.tier == tier && from <= c.index && SelectedLink(matches, links, c)
    decreases |links| - from
  {
    if from < |links| {
      TierFromMembers(matches, links, tier, from + 1, c);
    }
  }

  lemma {:induction false} TierFromOrdered(matches: (string, Tag) -> bool, links: seq<Link>, tier: Tag, from: nat)
    ensures forall i, j :: 0 <= i < j < |TierFrom(matches, links, tier, from)| ==>
              TierFrom(matches, links, tier, from)[i].index < TierFrom(matches, links, tier, from)[j].index
    ensures forall i :: 0 <= i < |TierFrom(matches, links, tier, from)| ==>
              TierFrom(matches, links, tier, from)[i].tier == tier
              && from <= TierFrom(matches, links, tier, from)[i].index
    decreases |links| - from
  {
    if from < |links| {
      TierFromOrdered(matches, links, tier, from + 1);
    }
  }

  lemma {:induction false} TiersMembers(matches: (string, Tag) -> bool, links: seq<Link>, tiers: seq<Tag>, c: Candidate)
    ensures c in Tiers(matches, links, tiers) <==> c.tier in tiers && SelectedLink(matches, links, c)
  {
    if tiers != [] {
      TierFromMembers(matches, links, tiers[0], 0, c);
      TiersMembers(matches, links, tiers[1..], c);
      assert c.tier in tiers <==> c.tier == tiers[0] || c.tier in tiers[1..];
    }
  }

  lemma {:induction false} TiersOrdered(matches: (string, Tag) -> bool, links: seq<Link>, tiers: seq<Tag>)
    requires forall i, j :: 0 <= i < j < |tiers| ==> Rank(tiers[i]) < Rank(tiers[j])
    ensures forall i, j :: 0 <= i < j < |Tiers(matches, links, tiers)| ==>
              Before(Tiers(matches, links, tiers)[i], Tiers(matches, links, tiers)[j])
  {
    if tiers != [] {
      var head := TierFrom(matches, links, tiers[0], 0);
      var rest := Tiers(matches, links, tiers[1..]);
      TierFromOrdered(matches, links, tiers[0], 0);
      TiersOrdered(matches, links, tiers[1..]);
      forall j | 0 <= j < |rest| ensures Rank(tiers[0]) < Rank(rest[j].tier) {
        TiersMembers(matches, links, tiers[1..], rest[j]);
      }
      var all := head + rest;
      forall i, j | 0 <= i < j < |all| ensures Before(all[i], all[j]) {
        if j < |head| {
        } else if i < |head| {
          assert all[j] == rest[j - |head|];
        } else {
          assert all[i] == rest[i - |head|] && all[j] == rest[j - |head|];
        }
      }
    }
  }

  /** The HTML handler tries exactly the links that have a type in one of
      the json, atom and rss classes and an href, once per class they are
      in, json tier first, then atom, then rss, and within a tier in
      document order. */
  lemma CandidatesInPriorityOrder(matches: (string, Tag) -> bool, links: seq<Link>)
    ensures forall c :: c in Candidates(matches, links)
                        <==> c.tier in {Json, Atom, Rss} && SelectedLink(matches, links, c)
    ensures forall i, j :: 0 <= i < j < |Candidates(matches, links)| ==>
              Before(Candidates(matches, links)[i], Candidates(matches, links)[j])
  {
    forall c ensures c in Candidates(matches, links)
                     <==> c.tier in {Json, Atom, Rss} && SelectedLink(matches, links, c) {
      TiersMembers(matches, links, PrioritizedFeedTypes, c);
    }
    TiersOrdered(matches, links, PrioritizedFeedTypes);
  }

  /** A link without a type, without an href, or with a type in none of
      the three classes is never tried. */
  lemma UnqualifiedLinkNeverTried(matches: (string, Tag) -> bool, links: seq<Link>, k: nat)
    requires k < |links|
    requires forall t :: t in PrioritizedFeedTypes ==> !Qualifies(matches, links[k], t)
    ensures forall c :: c in Candidates(matches, links) ==> c.index != k
  {
    CandidatesInPriorityOrder(matches, links);
  }

  lemma {:induction false} TierFromEmpty(matches: (string, Tag) -> bool, links: seq<Link>, tier: Tag, from: nat)
    requires forall k :: from <= k < |links| ==> !Qualifies(matches, links[k], tier)
    ensures TierFrom(matches, links, tier, from) == []
    decreases |links| - from
  {
    if from < |links| {
      TierFromEmpty(matches, links, tier, from + 1);
    }
  }

  /** A page none of whose links qualify yields null. */
  lemma NoCandidatesIsNull(env: Env, fuel: nat, url: string, body: Body)
    requires forall k, t :: 0 <= k < |AlternateLinks(body)| && t in PrioritizedFeedTypes
                            ==> !Qualifies(env.matches, AlternateLinks(body)[k], t)
    ensures HandleHtml(env, fuel, url, body) == NotFound
  {
    var links := AlternateLinks(body);
    assert Json in PrioritizedFeedTypes && Atom in PrioritizedFeedTypes && Rss in PrioritizedFeedTypes;
    TierFromEmpty(env.matches, links, Json, 0);
    TierFromEmpty(env.matches, links, Atom, 0);
    TierFromEmpty(env.matches, links, Rss, 0);
    assert [Rss][1..] == [] && [Atom, Rss][1..] == [Rss] && PrioritizedFeedTypes[1..] == [Atom, Rss];
    assert Tiers(env.matches, links, [Rss]) == [];
    assert Tiers(env.matches, links, [Atom, Rss]) == [];
    assert Candidates(env.matches, links) == [];
  }

  // ---------------------------------------------------------------------
  // Fuel bounds the recursion and changes nothing else
  // ---------------------------------------------------------------------

  /** Giving an attempt more fuel than it needed does not change its outcome. */
  lemma {:induction false} AttemptFuelMonotone(env: Env, fuel: nat, more: nat, url: string)
    requires fuel <= more && Attempt(env, fuel, url) != OutOfFuel
    ensures Attempt(env, more, url) == Attempt(env, fuel, url)
    decreases fuel, 0, 0
  {
    if url in env.web && HasContentType(env.web[url])
       && Classify(env.matches, env.web[url].contentType.value) == Some(Html) {
      var response := env.web[url];
      TryCandidatesFuelMonotone(env, fuel - 1, more - 1, url,
                                Candidates(env.matches, AlternateLinks(response.body)));
    }
  }

  lemma {:induction false} TryCandidatesFuelMonotone(env: Env, fuel: nat, more: nat, base: string, cands: seq<Candidate>)
    requires fuel <= more && TryCandidates(env, fuel, base, cands) != OutOfFuel
    ensures TryCandidates(env, more, base, cands) == TryCandidates(env, fuel, base, cands)
    decreases fuel, 1, |cands|
  {
    if cands != [] {
      var r := TryCandidate(env, fuel, base, cands[0]);
      assert r != OutOfFuel;
      match env.resolve(base, cands[0].href) {
        case None =>
        case Some(feedUrl) =>
          AttemptFuelMonotone(env, fuel, more, feedUrl);
          if r.NotFound? {
            TryCandidatesFuelMonotone(env, fuel, more, base, cands[1..]);
          }
      }
    }
  }

  // ---------------------------------------------------------------------
  // Where a found feed URL comes from
  // ---------------------------------------------------------------------

  /** `url` is fetched and classified as `tag`. */
  ghost predicate ServesAs(env: Env, url: string, tag: Tag)
  {
    url in env.web && HasContentType(env.web[url])
    && Classify(env.matches, env.web[url].contentType.value) == Some(tag)
  }

  /** `to` is the join of `from` with the href of one of the candidate
      links of the HTML page at `from`. */
  ghost predicate LinksTo(env: Env, from: string, to: string)
  {
    ServesAs(env, from, Html)
    && exists c :: c in Candidates(env.matches, AlternateLinks(env.web[from].body))
                   && env.resolve(from, c.href) == Some(to)
  }

  /** A chain of HTML alternate links from the first URL to the last. */
  ghost predicate AlternateChain(env: Env, path: seq<string>)
  {
    forall i :: 0 <= i < |path| - 1 ==> LinksTo(env, path[i], path[i + 1])
  }

  /** Every URL the locator returns is the `feed_url` of a JSON response
      reached from the seed through at most `fuel` fetches along HTML
      alternate links; RSS and Atom responses never contribute one. */
  lemma {:induction false} FoundComesFromJson(env: Env, fuel: nat, url: string)
    returns (path: seq<string>)
    requires Attempt(env, fuel, url).Found?
    ensures 1 <= |path| <= fuel && path[0] == url && AlternateChain(env, path)
    ensures ServesAs(env, path[|path| - 1], Json)
    ensures env.web[path[|path| - 1]].body == JsonObject(Some(Attempt(env, fuel, url).url))
  {
    var response := env.web[url];
    var tag := Classify(env.matches, response.contentType.value).value;
    if tag == Json {
      path := [url];
    } else {
      assert tag == Html;
      var cands := Candidates(env.matches, AlternateLinks(response.body));
      var k := TryCandidatesDecidedBy(env, fuel - 1, url, cands);
      var feedUrl := env.resolve(url, cands[k].href).value;
      var rest := FoundComesFromJson(env, fuel - 1, feedUrl);
      path := [url] + rest;
      assert LinksTo(env, url, feedUrl) by {
        assert cands[k] in cands;
      }
      forall i | 0 <= i < |path| - 1 ensures LinksTo(env, path[i], path[i + 1]) {
        if i > 0 {
          assert path[i] == rest[i - 1] && path[i + 1] == rest[i];
        }
      }
    }
  }
}
