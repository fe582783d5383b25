/**
 * `SearchProvider` (search_provider.py): a search with a five-minute result
 * cache keyed by the normalised query and the result count, the search
 * statistics, and the text the results are shown as.
 *
 * The page fetch and its HTML parsing are a parameter: either the fetch
 * failed, or it produced the candidate result blocks in page order. The
 * clock is a parameter in seconds. The MD5 digest of the cache key is not
 * modelled: the key is the text the digest is taken of.
 */
module WebSearch {
  import opened Common
  import TextScan

  datatype SearchResult = SearchResult(title: string, url: string, snippet: string)

  /** One result block of the page: `title` is `None` when the block has no title link. */
  datatype Candidate = Candidate(title: Option<string>, url: string, snippet: string)

  datatype Fetch = FetchFailed | Fetched(candidates: seq<Candidate>)

  datatype CacheEntry = CacheEntry(results: seq<SearchResult>, storedAt: real)

  /** `cache_ttl`, in seconds. */
  const CacheTtl: real := 300.0

  // ---------------------------------------------------------------- keys

  /** The text `_get_cache_key` digests: the lowercased, stripped query, a colon and the count. */
  function CacheKey(query: string, numResults: nat): string
  {
    Strip(LowerStr(query)) + ":" + NatToString(numResults)
  }

  function LastIndexOf(s: string, c: char): (r: Option<nat>)
    ensures r.Some? ==> r.value < |s| && s[r.value] == c
  {
    if |s| == 0 then None
    else if s[|s| - 1] == c then Some(|s| - 1)
    else LastIndexOf(s[..|s| - 1], c)
  }

  lemma {:induction false} LastColonBeforeDigits(a: string, b: string)
    requires forall i :: 0 <= i < |b| ==> '0' <= b[i] <= '9'
    ensures LastIndexOf(a + ":" + b, ':') == Some(|a|)
  {
    if |b| > 0 {
      var s := a + ":" + b;
      assert s[..|s| - 1] == a + ":" + b[..|b| - 1];
      LastColonBeforeDigits(a, b[..|b| - 1]);
    }
  }

  /** Two queries share a cache entry exactly when they normalise alike and ask for the same count. */
  lemma CacheKeyInjective(q1: string, n1: nat, q2: string, n2: nat)
    ensures CacheKey(q1, n1) == CacheKey(q2, n2) <==>
              Strip(LowerStr(q1)) == Strip(LowerStr(q2)) && n1 == n2
  {
    if CacheKey(q1, n1) == CacheKey(q2, n2) {
      KeyTextInjective(Strip(LowerStr(q1)), n1, Strip(LowerStr(q2)), n2);
    }
  }

  lemma KeyTextInjective(a1: string, n1: nat, a2: string, n2: nat)
    requires a1 + ":" + NatToString(n1) == a2 + ":" + NatToString(n2)
    ensures a1 == a2 && n1 == n2
  {
    var b1, b2 := NatToString(n1), NatToString(n2);
    var s := a1 + ":" + b1;
    LastColonBeforeDigits(a1, b1);
    LastColonBeforeDigits(a2, b2);
    assert |a1| == |a2|;
    assert a1 == s[..|a1|] == a2;
    assert b1 == s[|a1| + 1..] == b2;
    TextScan.DigitsValueOfNat(n1);
    TextScan.DigitsValueOfNat(n2);
  }

  // ----------------------------------------------------------- parsing

  predicate KeptCandidate(c: Candidate)
  {
    c.title.Some? && c.title.value != "" && c.url != ""
  }

  /** The results the page loop keeps from the blocks it looks at, in order. */
  function Kept(cs: seq<Candidate>): (r: seq<SearchResult>)
    ensures |r| <= |cs|
    ensures forall i :: 0 <= i < |r| ==> r[i].title != "" && r[i].url != ""
  {
    if |cs| == 0 then []
    else
      var c := cs[|cs| - 1];
      var rest := Kept(cs[..|cs| - 1]);
      if KeptCandidate(c) then rest + [SearchResult(c.title.value, c.url, c.snippet)] else rest
  }

  /** Every kept result is a block of the page, and every usable block is kept. */
  lemma {:induction false} KeptExactly(cs: seq<Candidate>)
    ensures forall r :: r in Kept(cs) ==>
              exists i :: 0 <= i < |cs| && KeptCandidate(cs[i]) && r == SearchResult(cs[i].title.value, cs[i].url, cs[i].snippet)
    ensures forall i :: 0 <= i < |cs| && KeptCandidate(cs[i]) ==>
              SearchResult(cs[i].title.value, cs[i].url, cs[i].snippet) in Kept(cs)
  {
    if |cs| > 0 {
      var init := cs[..|cs| - 1];
      KeptExactly(init);
      forall i | 0 <= i < |init|
        ensures init[i] == cs[i]
      {
      }
    }
  }

  /** The page loop of `search`, over the first `numResults` blocks. */
  method ParseResults(candidates: seq<Candidate>, numResults: nat) returns (results: seq<SearchResult>)
    ensures results == Kept(Take(candidates, numResults))
    ensures |results| <= numResults
  {
    var shown := Take(candidates, numResults);
    results := [];
    for i := 0 to |shown|
      invariant results == Kept(shown[..i])
    {
      assert shown[..i + 1][..i] == shown[..i];
      var c := shown[i];
      if c.title.Some? && c.title.value != "" && c.url != "" {
        results := results + [SearchResult(c.title.value, c.url, c.snippet)];
      }
    }
    assert shown[..|shown|] == shown;
  }

  // ------------------------------------------------------------ display

  const NoResults: string := "No results found."
  const SnippetLimit: nat := 200

  /** A snippet longer than the limit is cut to it and marked with an ellipsis. */
  function ShortSnippet(s: string): (r: string)
    ensures |s| <= SnippetLimit ==> r == s
    ensures |s| > SnippetLimit ==> |r| == SnippetLimit + 3 && r[..SnippetLimit] == s[..SnippetLimit] && r[SnippetLimit..] == "..."
  {
    if |s| > SnippetLimit then s[..SnippetLimit] + "..." else s
  }

  /** The lines of one shown result, numbered `n`. */
  function Block(n: nat, r: SearchResult): (lines: seq<string>)
    ensures |lines| == if r.snippet != "" then 4 else 3
    ensures lines[0] == NatToString(n) + ". **" + r.title + "**" && lines[1] == "   " + r.url
    ensures lines[|lines| - 1] == ""
    ensures r.snippet != "" ==> lines[2] == "   " + ShortSnippet(r.snippet)
  {
    var head := [NatToString(n) + ". **" + r.title + "**", "   " + r.url];
    if r.snippet != "" then head + ["   " + ShortSnippet(r.snippet), ""] else head + [""]
  }

  function Blocks(rs: seq<SearchResult>, from: nat): (lines: seq<string>)
    ensures 3 * |rs| <= |lines| <= 4 * |rs|
  {
    if |rs| == 0 then [] else Block(from, rs[0]) + Blocks(rs[1..], from + 1)
  }

  function Header(count: nat): string
  {
    "Found " + NatToString(count) + " result(s):\n"
  }

  /** `format_results`: the count of all results, then at most `maxResults` of them. */
  function FormatResults(results: seq<SearchResult>, maxResults: nat): string
  {
    if |results| == 0 then NoResults
    else Join([Header(|results|)] + Blocks(Take(results, maxResults), 1), "\n")
  }

  /** The empty answer is given exactly for no results; otherwise the header counts them all and three to four lines follow per shown result. */
  lemma FormatResultsShape(results: seq<SearchResult>, maxResults: nat)
    ensures FormatResults(results, maxResults) == NoResults <==> |results| == 0
    ensures |results| > 0 ==>
              var lines := [Header(|results|)] + Blocks(Take(results, maxResults), 1);
              FormatResults(results, maxResults) == Join(lines, "\n") &&
              lines[0] == Header(|results|) &&
              var shown := if maxResults < |results| then maxResults else |results|;
              3 * shown <= |lines| - 1 <= 4 * shown
  {
    if |results| > 0 {
      var lines := [Header(|results|)] + Blocks(Take(results, maxResults), 1);
      JoinHead(lines, "\n");
      assert FormatResults(results, maxResults)[0] == 'F';
    }
  }

  lemma JoinHead(parts: seq<string>, sep: string)
    requires |parts| > 0
    ensures |Join(parts, sep)| >= |parts[0]| && Join(parts, sep)[..|parts[0]|] == parts[0]
  {
  }

  // ----------------------------------------------------------- provider

  datatype SearchStats = SearchStats(totalSearches: nat, cacheHits: nat, failures: nat, totalResults: nat,
                                     cacheHitRate: real, successRate: real, avgResults: real)

  class SearchProvider {
    var cache: map<string, CacheEntry>
    var totalSearches: nat
    var cacheHits: nat
    var failures: nat
    var totalResults: nat

    /**
     * A search counts at most one cache hit and at most one failure. It can
     * count both: a live cached empty list is a hit and is then fetched again.
     */
    predicate Valid()
      reads this
    {
      cacheHits <= totalSearches && failures <= totalSearches
    }

    constructor()
      ensures Valid()
      ensures cache == map[] && totalSearches == 0 && cacheHits == 0 && failures == 0 && totalResults == 0
    {
      cache := map[];
      totalSearches := 0;
      cacheHits := 0;
      failures := 0;
      totalResults := 0;
    }

    /** `_check_cache` at time `now`: a live entry is a hit, an expired one is dropped. */
    method CheckCache(query: string, numResults: nat, now: real) returns (r: Option<seq<SearchResult>>)
      modifies this
      ensures totalSearches == old(totalSearches) && failures == old(failures) && totalResults == old(totalResults)
      ensures var key := CacheKey(query, numResults);
        (r.Some? <==> key in old(cache) && now - old(cache)[key].storedAt < CacheTtl) &&
        (r.Some? ==> r.value == old(cache)[key].results && cache == old(cache) && cacheHits == old(cacheHits) + 1) &&
        (r.None? ==> cacheHits == old(cacheHits) && cache == old(cache) - {key})
    {
      var key := CacheKey(query, numResults);
      if key in cache {
        var entry := cache[key];
        if now - entry.storedAt < CacheTtl {
          cacheHits := cacheHits + 1;
          return Some(entry.results);
        }
        cache := cache - {key};
      }
      r := None;
    }

    /** `_store_cache` at time `now`. */
    method StoreCache(query: string, numResults: nat, results: seq<SearchResult>, now: real)
      modifies this
      ensures cache == old(cache)[CacheKey(query, numResults) := CacheEntry(results, now)]
      ensures totalSearches == old(totalSearches) && cacheHits == old(cacheHits)
      ensures failures == old(failures) && totalResults == old(totalResults)
    {
      cache := cache[CacheKey(query, numResults) := CacheEntry(results, now)];
    }

    /**
     * `search`: a live, non-empty cache entry answers; otherwise the page is
     * fetched, and its results are counted and cached, or the failure is
     * counted and nothing is returned.
     */
    method Search(query: string, numResults: nat, now: real, fetch: Fetch) returns (results: seq<SearchResult>)
      requires Valid()
      modifies this
      ensures Valid()
      ensures totalSearches == old(totalSearches) + 1
      ensures var key := CacheKey(query, numResults);
        var live := key in old(cache) && now - old(cache)[key].storedAt < CacheTtl;
        (live ==> cacheHits == old(cacheHits) + 1) && (!live ==> cacheHits == old(cacheHits)) &&
        (live && old(cache)[key].results != [] ==>
           results == old(cache)[key].results && cache == old(cache) &&
           failures == old(failures) && totalResults == old(totalResults)) &&
        (!(live && old(cache)[key].results != []) && fetch.FetchFailed? ==>
           results == [] && failures == old(failures) + 1 && totalResults == old(totalResults) &&
           cache == if live then old(cache) else old(cache) - {key}) &&
        (!(live && old(cache)[key].results != []) && fetch.Fetched? ==>
           results == Kept(Take(fetch.candidates, numResults)) && |results| <= numResults &&
           failures == old(failures) && totalResults == old(totalResults) + |results| &&
           cache == old(cache)[key := CacheEntry(results, now)])
    {
      totalSearches := totalSearches + 1;
      var cached := CheckCache(query, numResults, now);
      if cached.Some? && cached.value != [] {
        return cached.value;
      }
      match fetch
      case FetchFailed =>
        failures := failures + 1;
        results := [];
      case Fetched(candidates) =>
        results := ParseResults(candidates, numResults);
        totalResults := totalResults + |results|;
        StoreCache(query, numResults, results, now);
    }

    /** `get_stats`: the rates divide by the number of searches, or by one before the first. */
    function GetStats(): (s: SearchStats)
      requires Valid()
      reads this
      ensures s.totalSearches == totalSearches && s.cacheHits == cacheHits && s.failures == failures
      ensures 0.0 <= s.cacheHitRate <= 1.0 && 0.0 <= s.successRate <= 1.0
      ensures totalSearches == 0 ==> s.successRate == 0.0 && s.cacheHitRate == 0.0
      ensures totalSearches > 0 && failures == 0 ==> s.successRate == 1.0
      ensures s.totalResults == totalResults
      ensures var d := if totalSearches > 1 then totalSearches else 1;
        s.cacheHitRate * d as real == cacheHits as real &&
        s.successRate * d as real == (totalSearches - failures) as real &&
        s.avgResults * d as real == totalResults as real
    {
      var d := if totalSearches > 1 then totalSearches else 1;
      RatioBounds(cacheHits, d);
      RatioBounds(totalSearches - failures, d);
      SearchStats(totalSearches, cacheHits, failures, totalResults,
        cacheHits as real / d as real, (totalSearches - failures) as real / d as real, totalResults as real / d as real)
    }

    /** `clear_cache`. */
    method ClearCache()
      modifies this
      ensures cache == map[]
      ensures totalSearches == old(totalSearches) && cacheHits == old(cacheHits)
      ensures failures == old(failures) && totalResults == old(totalResults)
    {
      cache := map[];
    }
  }
}
