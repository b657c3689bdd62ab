/**
 * The scraper built into the API server (backend/main.py): how a GitHub
 * search hit becomes a `WebMCPResult`, the de-duplication and ranking of
 * those results, the three-source search, and the confidence filter and
 * cache-hit truncation of the `/mcps/search` and `/mcps/search/enhanced`
 * handlers. Its structure check, metadata extraction and scorer are the
 * same code as the standalone scraper's and are shared with that module.
 */
module MainApp {

  import opened Python
  import opened Text
  import Aggregation
  import WebScraper

  /** A `WebMCPResult`, confidence in hundredths. */
  datatype WebMcpResult = WebMcpResult(
    name: string,
    description: string,
    sourceUrl: string,
    tags: set<string>,
    domain: string,
    validated: bool,
    schema: Option<Value>,
    fileType: string,
    repository: Option<string>,
    stars: Option<int>,
    sourcePlatform: string,
    confidence: int)

  // ---------------------------------------------------------------------
  // Fields derived from a GitHub link (`_parse_github_result`)
  // ---------------------------------------------------------------------

  /** `url.replace('/blob/', '/raw/')`: the address the file is fetched from. */
  function RawUrl(url: string): string {
    ReplaceAll(url, "/blob/", "/raw/")
  }

  /** Every `/blob/` becomes `/raw/`: on a link with one `/blob/` segment the
      rest of the address is kept, and an address without one is unchanged;
      on `/blob/` links this is the address the standalone scraper fetches. */
  lemma RawUrlRewrite(pre: string, rest: string, other: string)
    requires forall i :: 0 <= i < |pre| ==> !("/blob/" <= (pre + "/blob/" + rest)[i..])
    requires !Contains(rest, "/blob/") && !Contains(other, "/blob/")
    ensures RawUrl(pre + "/blob/" + rest) == pre + "/raw/" + rest
    ensures WebScraper.RawFileUrl(pre + "/blob/" + rest) == Some(RawUrl(pre + "/blob/" + rest))
    ensures RawUrl(other) == other
  {
    WebScraper.RawFileUrlOfBlobLink(pre, rest);
    ReplaceAbsent(other, "/blob/", "/raw/");
  }

  /** The group `([^/]+/[^/]+)` matched at the start of `tail`: the greedy
      runs of non-slash characters either side of one slash. */
  function GroupAt(tail: string): (r: Option<string>)
    ensures r.Some? ==> r.value <= tail
    ensures r.Some? ==> exists owner, repo :: (r.value == owner + "/" + repo &&
      owner != "" && repo != "" && '/' !in owner && '/' !in repo)
  {
    var owner := SplitFirst(tail, '/');
    if |owner| == 0 || |owner| == |tail| then None
    else
      var repo := SplitFirst(tail[|owner| + 1..], '/');
      if |repo| == 0 then None
      else
        assert tail[..|owner| + 1 + |repo|] == owner + "/" + repo;
        Some(owner + "/" + repo)
  }

  /** The match of `github\.com/([^/]+/[^/]+)` starting at position `p`, as
      its group. */
  function RepoAt(url: string, p: nat): (r: Option<string>)
    requires p <= |url|
    ensures r.Some? ==> "github.com/" + r.value <= url[p..]
    ensures r.Some? ==> exists owner, repo :: (r.value == owner + "/" + repo &&
      owner != "" && repo != "" && '/' !in owner && '/' !in repo)
  {
    var rest := url[p..];
    if !("github.com/" <= rest) then None
    else
      var g := GroupAt(rest[11..]);
      assert g.Some? ==> rest[..11 + |g.value|] == "github.com/" + g.value by {
        if g.Some? {
          assert rest[11..][..|g.value|] == g.value;
        }
      }
      g
  }

  /** Where `re.search` finds its match: the leftmost position from `p` on
      that has one, or `|url| + 1` when there is none. */
  function MatchPosition(url: string, p: nat): (q: nat)
    requires p <= |url|
    ensures p <= q <= |url| + 1
    ensures q <= |url| ==> RepoAt(url, q).Some?
    ensures forall k :: p <= k < q && k <= |url| ==> RepoAt(url, k).None?
    decreases |url| - p
  {
    if RepoAt(url, p).Some? then p
    else if p == |url| then |url| + 1
    else MatchPosition(url, p + 1)
  }

  /** `repository`: the `owner/repo` of the leftmost match, or None. */
  function Repository(url: string): (r: Option<string>)
    ensures r.None? <==> forall q :: 0 <= q <= |url| ==> RepoAt(url, q).None?
    ensures r.Some? ==> exists q :: (0 <= q <= |url| && RepoAt(url, q) == r &&
      forall q' :: 0 <= q' < q ==> RepoAt(url, q').None?)
    ensures r.Some? ==> Contains(url, "github.com/" + r.value)
    ensures r.Some? ==> exists owner, repo :: (r.value == owner + "/" + repo &&
      owner != "" && repo != "" && '/' !in owner && '/' !in repo)
  {
    var q := MatchPosition(url, 0);
    if q <= |url| then
      MatchOccurs(url, q);
      RepoAt(url, q)
    else None
  }

  /** A match at position `q` occurs in the URL. */
  lemma MatchOccurs(url: string, q: nat)
    requires q <= |url|
    ensures RepoAt(url, q).Some? ==> Contains(url, "github.com/" + RepoAt(url, q).value)
  {
    if RepoAt(url, q).Some? {
      PrefixOccurs(url, q, "github.com/" + RepoAt(url, q).value);
    }
  }

  /** A GitHub link names the repository of its first two path segments. */
  lemma RepositoryOfGithubLink(owner: string, repo: string, path: string)
    requires owner != "" && repo != "" && '/' !in owner && '/' !in repo
    requires path == "" || path[0] == '/'
    ensures Repository("https://github.com/" + owner + "/" + repo + path) == Some(owner + "/" + repo)
  {
    var url := "https://github.com/" + owner + "/" + repo + path;
    NoMatchInScheme(url);
    MatchAtHost(owner, repo, path);
    var q := MatchPosition(url, 0);
    assert q == 8;
  }

  lemma NoMatchInScheme(url: string)
    requires "https://" <= url
    ensures forall q :: 0 <= q < 8 ==> RepoAt(url, q).None?
  {
    forall q | 0 <= q < 8 ensures RepoAt(url, q).None? {
      assert url[q] == "https://"[q];
      assert url[q..][0] != "github.com/"[0];
    }
  }

  lemma MatchAtHost(owner: string, repo: string, path: string)
    requires owner != "" && repo != "" && '/' !in owner && '/' !in repo
    requires path == "" || path[0] == '/'
    ensures RepoAt("https://github.com/" + owner + "/" + repo + path, 8) == Some(owner + "/" + repo)
  {
    var url := "https://github.com/" + owner + "/" + repo + path;
    var tail := owner + "/" + repo + path;
    assert url == "https://" + ("github.com/" + tail);
    assert url[8..] == "github.com/" + tail;
    MatchAt(url[8..], tail, owner, repo, path);
    assert url[8..][0..] == url[8..];
  }

  lemma MatchAt(rest: string, tail: string, owner: string, repo: string, path: string)
    requires rest == "github.com/" + tail && tail == owner + "/" + repo + path
    requires owner != "" && repo != "" && '/' !in owner && '/' !in repo
    requires path == "" || path[0] == '/'
    ensures RepoAt(rest, 0) == Some(owner + "/" + repo)
  {
    assert rest[0..] == rest;
    assert "github.com/" <= rest;
    assert rest[11..] == tail;
    GroupOfLink(owner, repo, path);
  }

  lemma GroupOfLink(owner: string, repo: string, path: string)
    requires owner != "" && repo != "" && '/' !in owner && '/' !in repo
    requires path == "" || path[0] == '/'
    ensures GroupAt(owner + "/" + repo + path) == Some(owner + "/" + repo)
  {
    var after := "/" + repo + path;
    var tail := owner + after;
    assert owner + "/" + repo + path == tail;
    SplitFirstOf(owner, after, '/');
    assert tail[|owner| + 1..] == repo + path;
    SplitFirstOf(repo, path, '/');
  }

  /** `f"mcp-{repository.split('/')[-1] if repository else 'unknown'}"` */
  function FallbackName(repository: Option<string>): string {
    if repository.Some? && repository.value != "" then "mcp-" + LastSegment(repository.value, '/')
    else "mcp-unknown"
  }

  /** The fallback name is "mcp-" and the repository's own name, or
      "mcp-unknown" without a repository. */
  lemma FallbackNameOfRepository(owner: string, repo: string)
    requires '/' !in repo
    ensures FallbackName(Some(owner + "/" + repo)) == "mcp-" + repo
    ensures FallbackName(None) == "mcp-unknown"
  {
    LastSegmentAfter(owner, '/', repo);
  }

  /** `f"MCP from {repository}"` */
  function FallbackDescription(repository: Option<string>): (r: string)
    ensures repository.Some? ==> r == "MCP from " + repository.value
    ensures repository.None? ==> r == "MCP from None"
  {
    "MCP from " + (if repository.Some? then repository.value else "None")
  }

  /** `'json' if url.endswith('.json') else 'yaml'` */
  function FileType(url: string): (r: string)
    ensures r == "json" <==> EndsWith(url, ".json")
    ensures r == "json" || r == "yaml"
  {
    if EndsWith(url, ".json") then "json" else "yaml"
  }

  /** The record `_parse_github_result` builds for the joined link `url`
      (non-empty `href`) whose raw file held `content` (None when the fetch
      returned nothing). None stands for every early `return None`, and for a
      field of the wrong type, which the record constructor rejects and the
      surrounding handler turns into None. */
  function ParseGithubResult(href: string, url: string, content: Option<WebScraper.Content>): (r: Option<WebMcpResult>)
    ensures href == "" || content.None? ==> r.None?
    ensures content.Some? && !WebScraper.IsValidMcpContent(content.value) ==> r.None?
    ensures r.Some? ==> (r.value.validated <==> r.value.schema.Some?)
    ensures r.Some? ==> (r.value.fileType == "json" <==> EndsWith(url, ".json"))
    ensures r.Some? ==> r.value.sourceUrl == url && r.value.repository == Repository(url)
    ensures r.Some? ==> 50 <= r.value.confidence <= 100
    ensures r.Some? && !Truthy(WebScraper.ExtractName(content.value)) ==> r.value.name == FallbackName(Repository(url))
    ensures r.Some? && r.value.schema.Some? ==>
      r.value.schema == (if EndsWith(url, ".json") then content.value.json else content.value.yaml)
  {
    if href == "" then None
    else match content
      case None => None
      case Some(c) =>
        if c.text == "" || !WebScraper.IsValidMcpContent(c) then None
        else
          var repository := Repository(url);
          var extractedName := WebScraper.ExtractName(c);
          var name := if Truthy(extractedName) then extractedName else Str(FallbackName(repository));
          var extractedDescription := WebScraper.ExtractDescription(c);
          var description := if Truthy(extractedDescription) then extractedDescription else Str(FallbackDescription(repository));
          var domain := WebScraper.ExtractDomainFromContent(c);
          if !name.Str? || !description.Str? || !domain.Str? then None
          else
            var tags := WebScraper.TagsFromContent(c, name.s, description.s);
            var confidence := WebScraper.ConfidenceScore(c, url, name.s);
            var fileType := FileType(url);
            var schema := if fileType == "json" then c.json else c.yaml;
            if (exists t :: t in tags && !t.Str?) || (schema.Some? && !schema.value.Map?) then None
            else
              Some(WebMcpResult(name.s, description.s, url, set t | t in tags && t.Str? :: t.s, domain.s,
                                schema.Some?, schema, fileType, repository, None, "github", confidence))
  }

  // ---------------------------------------------------------------------
  // De-duplication and ranking
  // ---------------------------------------------------------------------

  /** The key `_deduplicate_results` hashes: `f"{result.name}{result.source_url}"`. */
  function DedupKey(r: WebMcpResult): string {
    r.name + r.sourceUrl
  }

  /** The loop over the results with its `seen_hashes` set. */
  method DeduplicateResults(results: seq<WebMcpResult>) returns (unique: seq<WebMcpResult>)
    ensures unique == Aggregation.FirstOccurrences(results, DedupKey)
  {
    unique := Aggregation.Deduplicate(results, DedupKey);
  }

  /** The key is case-sensitive: names that differ only in case are both kept. */
  lemma DedupKeyIsCaseSensitive(a: WebMcpResult, b: WebMcpResult)
    requires Lower(a.name) == Lower(b.name) && a.name != b.name && a.sourceUrl == b.sourceUrl
    ensures Aggregation.FirstOccurrences([a, b], DedupKey) == [a, b]
  {
    assert |a.name| == |Lower(a.name)| == |b.name|;
    assert DedupKey(a)[..|a.name|] == a.name && DedupKey(b)[..|b.name|] == b.name;
    Aggregation.FirstOccurrencesOfTwo(a, b, DedupKey);
  }

  const PreferredDomains: seq<string> := ["ai", "development", "productivity"]

  /** `relevance_score` in `_rank_results`, in hundredths. */
  function Relevance(r: WebMcpResult, query: string): int {
    r.confidence +
    (if Contains(Lower(r.name), Lower(query)) then 20 else 0) +
    (if Contains(Lower(r.description), Lower(query)) then 10 else 0) +
    (if r.domain in PreferredDomains then 5 else 0)
  }

  function RelevanceOf(query: string): WebMcpResult -> int {
    (r: WebMcpResult) => Relevance(r, query)
  }

  /** `_rank_results`: the results, ordered by decreasing relevance, ties in
      input order, records themselves untouched. */
  function RankResults(results: seq<WebMcpResult>, query: string): (ranked: seq<WebMcpResult>)
    ensures multiset(ranked) == multiset(results)
    ensures forall i, j :: 0 <= i < j < |ranked| ==> Relevance(ranked[i], query) >= Relevance(ranked[j], query)
    ensures forall v :: Aggregation.WithScore(ranked, RelevanceOf(query), v) == Aggregation.WithScore(results, RelevanceOf(query), v)
  {
    Aggregation.SortDescCorrect(results, RelevanceOf(query));
    Aggregation.SortDesc(results, RelevanceOf(query))
  }

  /** Matching the query in the name outweighs a higher confidence of at
      most 0.1 when nothing else differs. */
  lemma NameMatchOutranks(a: WebMcpResult, b: WebMcpResult, query: string)
    requires Contains(Lower(a.name), Lower(query)) && !Contains(Lower(b.name), Lower(query))
    requires Contains(Lower(a.description), Lower(query)) == Contains(Lower(b.description), Lower(query))
    requires (a.domain in PreferredDomains) == (b.domain in PreferredDomains)
    requires b.confidence - a.confidence < 20
    ensures RankResults([b, a], query) == [a, b]
  {
    var score := RelevanceOf(query);
    assert Aggregation.SortDesc([b], score) == [b] by {
      assert [b][..0] == [];
    }
    assert [b, a][..1] == [b];
  }

  // ---------------------------------------------------------------------
  // The search and the handlers
  // ---------------------------------------------------------------------

  /** Each of the three searches is asked for `limit // 3` results. */
  function SourceLimit(limit: int): (each: int)
    ensures 3 * each <= limit < 3 * each + 3
  {
    FloorDiv(limit, 3)
  }

  /** What `search_web_mcps` returns for what the GitHub, web and
      awesome-list searches found. */
  function Searched(query: string, limit: int, github: seq<WebMcpResult>, web: seq<WebMcpResult>, awesome: seq<WebMcpResult>): seq<WebMcpResult> {
    Aggregation.Take(RankResults(Aggregation.FirstOccurrences(github + web + awesome, DedupKey), query), limit)
  }

  /** `search_web_mcps(query, limit)` after its three searches (each of which
      catches its own errors): merge, de-duplicate, rank and truncate. */
  method SearchWebMcps(query: string, limit: int, github: seq<WebMcpResult>, web: seq<WebMcpResult>, awesome: seq<WebMcpResult>)
    returns (r: seq<WebMcpResult>)
    ensures r == Searched(query, limit, github, web, awesome)
    ensures limit >= 0 ==> |r| <= limit
    ensures forall x :: x in r ==> x in github || x in web || x in awesome
    ensures forall i, j :: 0 <= i < j < |r| ==> Relevance(r[i], query) >= Relevance(r[j], query)
  {
    var results: seq<WebMcpResult> := [];
    results := results + github;
    results := results + web;
    results := results + awesome;
    assert results == github + web + awesome;
    var unique := DeduplicateResults(results);
    var ranked := RankResults(unique, query);
    r := Aggregation.Take(ranked, limit);
    assert r == ranked[..|r|];
    forall x | x in r ensures x in github || x in web || x in awesome {
      assert x in ranked;
      assert x in multiset(unique);
      Aggregation.DedupMembers(results, DedupKey, x);
      assert x in results;
    }
    forall i, j | 0 <= i < j < |r| ensures Relevance(r[i], query) >= Relevance(r[j], query) {
      assert r[i] == ranked[i] && r[j] == ranked[j];
    }
  }

  function AtLeast(minConfidence: int): WebMcpResult -> bool {
    (r: WebMcpResult) => r.confidence >= minConfidence
  }

  /** `[r for r in results if r.confidence_score >= min_confidence]` */
  function ConfidenceFilter(results: seq<WebMcpResult>, minConfidence: int): (r: seq<WebMcpResult>)
    ensures forall x :: x in r <==> x in results && x.confidence >= minConfidence
    ensures Aggregation.IsSubsequence(r, results)
  {
    Aggregation.KeepWhereMembers(results, AtLeast(minConfidence));
    Aggregation.KeepWhereIsSubsequence(results, AtLeast(minConfidence));
    Aggregation.KeepWhere(results, AtLeast(minConfidence))
  }

  /** The `/mcps/search` handler. `cached` is the cached result list when the
      cache table has a live row for this request, and `github`, `web` and
      `awesome` are what the three searches would find; the cache write is
      not part of this model. */
  method SearchHandler(query: string, limit: int, minConfidence: int, useScraping: bool,
                       cached: Option<seq<WebMcpResult>>,
                       github: seq<WebMcpResult>, web: seq<WebMcpResult>, awesome: seq<WebMcpResult>)
    returns (r: seq<WebMcpResult>)
    ensures cached.Some? ==> r == Aggregation.Take(cached.value, limit)
    ensures cached.None? ==>
      r == ConfidenceFilter(if useScraping then Searched(query, limit, github, web, awesome) else [], minConfidence)
    ensures limit >= 0 ==> |r| <= limit
    ensures cached.None? ==> forall x :: x in r ==> x.confidence >= minConfidence
  {
    if cached.Some? {
      return Aggregation.Take(cached.value, limit);
    }
    var results: seq<WebMcpResult> := [];
    if useScraping {
      results := SearchWebMcps(query, limit, github, web, awesome);
    }
    r := ConfidenceFilter(results, minConfidence);
  }

  /** The `/mcps/search/enhanced` handler for a request with these fields. */
  method EnhancedSearchHandler(query: string, limit: int, minConfidence: int, useWebScraping: bool,
                               github: seq<WebMcpResult>, web: seq<WebMcpResult>, awesome: seq<WebMcpResult>)
    returns (r: seq<WebMcpResult>)
    ensures r == ConfidenceFilter(if useWebScraping then Searched(query, limit, github, web, awesome) else [], minConfidence)
    ensures limit >= 0 ==> |r| <= limit
    ensures forall x :: x in r ==> x.confidence >= minConfidence
    ensures !useWebScraping ==> r == []
  {
    var results: seq<WebMcpResult> := [];
    if useWebScraping {
      results := SearchWebMcps(query, limit, github, web, awesome);
    }
    r := ConfidenceFilter(results, minConfidence);
  }
}
