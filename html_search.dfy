/** The HTML handler as the source writes it: an outer loop over the
    priority tiers and an inner loop over the page's alternate links, with
    an early return on the first attempt that is not null. */
module HtmlSearch {
  import opened FeedModel
  import opened Locator

  method SearchAlternates(env: Env, fuel: nat, url: string, body: Body) returns (r: Outcome)
    ensures r == HandleHtml(env, fuel, url, body)
  {
    var links := AlternateLinks(body);
    var tiers := PrioritizedFeedTypes;
    ghost var all := Candidates(env.matches, links);
    var t := 0;
    while t < |tiers|
      invariant 0 <= t <= |tiers|
      invariant TryCandidates(env, fuel, url, all)
                == TryCandidates(env, fuel, url, Tiers(env.matches, links, tiers[t..]))
    {
      var tier := tiers[t];
      ghost var later := Tiers(env.matches, links, tiers[t + 1..]);
      assert tiers[t..][1..] == tiers[t + 1..];
      var k := 0;
      while k < |links|
        invariant 0 <= k <= |links|
        invariant TryCandidates(env, fuel, url, all)
                  == TryCandidates(env, fuel, url, TierFrom(env.matches, links, tier, k) + later)
      {
        var link := links[k];
        ghost var rest := TierFrom(env.matches, links, tier, k + 1) + later;
        assert !Qualifies(env.matches, link, tier) ==> TierFrom(env.matches, links, tier, k) + later == rest;
        if link.linkType.Some? && link.linkType.value != "" && env.matches(link.linkType.value, tier) {
          if link.href.Some? && link.href.value != "" {
            ghost var c := Candidate(tier, k, link.href.value);
            assert TierFrom(env.matches, links, tier, k) + later == [c] + rest;
            assert ([c] + rest)[0] == c && ([c] + rest)[1..] == rest;
            var feedUrl := env.resolve(url, link.href.value);
            if feedUrl.None? {
              // `new URL` throws, and the error leaves the handler
              return Failed(InvalidUrl);
            }
            var resolved := Attempt(env, fuel, feedUrl.value);
            // a found URL is returned; a raised error propagates out of the await
            if !resolved.NotFound? {
              return resolved;
            }
          }
        }
        k := k + 1;
      }
      assert TierFrom(env.matches, links, tier, k) + later == later;
      t := t + 1;
    }
    return NotFound;
  }
}
