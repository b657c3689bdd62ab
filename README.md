# MCP discovery core, modelled in Dafny

The backend of the MCP explorer finds Model Context Protocol server
descriptions (JSON or YAML documents that name a server and list its tools)
on GitHub, GitLab, Hugging Face, curated "awesome" lists and the general web.
It checks that each document has the MCP shape and extracts a name,
description, domain and tags. It scores its confidence, removes duplicates,
ranks the results and caches them. This project models the deterministic
part of that pipeline, from the moment a document has been fetched and
parsed until results are returned. It proves what each step guarantees.

The same logic lives, with small variations, in three files. Each gets its
own module:

| file | module | what it holds |
|---|---|---|
| `backend/web_scraper.py` | `WebScraper` (web_scraper.dfy) | loose MCP shape check; name, description, domain and tag extraction; additive confidence scorer; dedup by content + URL; relevance ranking; five-source search; the `/blob/` to `/raw/` rewrite |
| `backend/enhanced_mcp_explorer.py` | `EnhancedExplorer` (enhanced_explorer.dfy) | strict schema validator (the MCP schema written out as predicates); star-based scorer; dedup by (lower-cased name, URL); domain and tag rules, including the Hugging Face item variants; conversion of scraped records; the explorer object with its in-memory TTL cache |
| `backend/main.py` | `MainApp` (main_app.dfy) | GitHub result assembly (repository, raw URL, fallback name, file type); dedup by name + URL; ranking; three-source search; the `/mcps/search` and `/mcps/search/enhanced` handlers' cache-hit truncation and min-confidence filter |

Shared foundations:
- `Python` (python.dfy) models parsed documents as a value type `Map | List | Str | Int | Bool | Null`, where a map is an association list. It also models the Python behaviour the core relies on: `dict.get`, truthiness, `len`, iteration, `in`, `str()`, and floor division. A raised exception is the `Raised` case of an `Outcome`.
- `Text` (text.dfy) models ASCII lower-casing, substring search, `str.replace`, `split(sep)[0]`, `split(sep)[-1]`, `endswith` and `str(int)`.
- `Keywords` (keywords.dfy) models the ordered keyword tables behind the domain and tag rules.
- `Aggregation` (aggregation.dfy) holds first-wins deduplication, the stable descending sort behind `sorted(..., reverse=True)`, Python slicing `[:n]` and the list-comprehension filter.
- `Scenarios` (scenarios.dfy) states what the model computes for concrete inputs: the one-tool weather server, plain text, a duplicated server and an expired cache entry.

Modelling choices:
- **Scores are integers.** The scrapers' scores are in hundredths, so 0.5 is 50, +0.05 is 5 and the cap of 1.0 is 100. The enhanced explorer's records hold thousandths, because a scraped record that fails to parse gets half its confidence (`confidence_score * 0.5`), and half of a hundredths value need not be whole. A scraped score `c` becomes `10 * c`, or `5 * c` when parsing failed. `min_confidence` is an integer in hundredths.
- **Parsing is an input.** The fetched text comes with what `json.loads` and `yaml.safe_load` return for it (`None` when the parser raises). The code tries JSON first and falls back to YAML. `yaml.safe_load` is only consulted when JSON fails.
- **md5 keys become their pre-images.** A dedup hash or a cache key is modelled as the string it hashes. Equal hashes are taken to mean equal strings.
- **Clocks and remote sources are parameters.** Times are integer seconds. What each remote source returned is a parameter of the search methods.
- **Mutation is modelled where the source mutates.**
  - Loops that build a set or accumulate a score are methods whose loops are proved against specification functions. Examples: `WebScraper.ExtractTagsFromContent`, `WebScraper.CalculateConfidenceScore`, `EnhancedExplorer.AddToolWordTags`.
  - The dedup loops use the generic `Aggregation.Deduplicate`.
  - The explorer's `memory_cache` dict is a `map` field of the class `EnhancedExplorer.Explorer`.
  - A Python exception in the middle of a `try` block keeps what was built before it: the tags already added, the score already accumulated. The model keeps it too.

Where the code and its documentation disagree, the model follows the code:
- The loose check accepts an empty `tools` list (web_scraper.py:669-679 only checks that `tools` is a list).
- A cache read made exactly `ttl` seconds after the write is a miss, because the test is `expires > now` (enhanced_mcp_explorer.py:686).
- The tags of the weather example do not include `weather`. Only the tool-name prefix `get` and pattern tags are added (web_scraper.py:759-785; see `Scenarios.WeatherDocumentTags`).
- The `$` in the name and version patterns also matches before one trailing newline, as Python's `re` does.
- YAML reads a line of plain text such as `not json at all` as a string, which the loose check then rejects (`Scenarios.PlainTextRejected`).

`backend/main.py` repeats `_is_valid_mcp_content`, the extraction helpers and `_calculate_confidence_score` from `backend/web_scraper.py` character for character (main.py:410-594 against web_scraper.py:647-831). `MainApp` therefore reuses the `WebScraper` members for them.

## Model

| member | source | states |
|---|---|---|
| Python.Lookup | backend/web_scraper.py:665-676 | a key lookup in a parsed mapping succeeds exactly when some entry has that key, and the value found is one paired with the key |
| Python.Get | backend/web_scraper.py:804-815 | `data.get(key, default)` succeeds exactly on a mapping (anything else raises) and yields the default when the key is absent |
| Python.Len | backend/web_scraper.py:808 | `len(v)` is defined exactly on the iterable values and equals the number of items iterated |
| Python.In | backend/web_scraper.py:665 | `key in container` is defined exactly on iterable values; on a mapping it tests the keys, on a list the elements |
| Python.FloorDiv | backend/web_scraper.py:138-150 | `a // b` for a positive divisor is the largest `q` with `b * q <= a` |
| Text.ReplaceLeftmost | backend/main.py:232 | `str.replace` rewrites the leftmost occurrence, keeps the text before it and continues after it |
| Text.ReplaceAbsent | backend/main.py:232 | `str.replace` leaves a string without the pattern unchanged |
| Text.ReplaceBySelf | backend/main.py:232 | replacing a pattern by itself changes nothing |
| Text.SplitFirst | backend/web_scraper.py:765 | `s.split(sep)[0]` is the longest prefix of `s` without `sep`, and is followed by `sep` when shorter than `s` |
| Text.LastSegment | backend/main.py:240 | `s.split(sep)[-1]` is the longest suffix of `s` without `sep`, preceded by `sep` when shorter than `s` |
| Text.NatToString | backend/enhanced_mcp_explorer.py:182 | `str(n)` of a natural number is a non-empty string of decimal digits |
| Text.NatToStringInjective | backend/enhanced_mcp_explorer.py:182 | two natural numbers have the same decimal form exactly when they are equal |
| Text.IntToStringInjective | backend/enhanced_mcp_explorer.py:182 | two integers have the same `str()` exactly when they are equal |
| Text.IntToStringHasNoColon | backend/enhanced_mcp_explorer.py:182 | no `str()` of an integer contains `:`, so the limit is the last `:`-separated field of the cache key |
| Keywords.FirstMatchIndex | backend/web_scraper.py:738-740 | the index returned is the first row, in table order, with a keyword occurring in the text; all rows before it have none |
| Keywords.FirstMatchLabel | backend/web_scraper.py:738-742 | the label returned is the first matching row's category, or the fallback when no row matches |
| Keywords.CollectMatching | backend/web_scraper.py:783-785 | the loop adding each table category whose keyword occurs in the text builds exactly the set of matching categories |
| Aggregation.Deduplicate | backend/web_scraper.py:835-846 | the seen-set loop returns the first occurrence of each key, in input order |
| Aggregation.DedupPositions | backend/web_scraper.py:838-844 | the dedup output embeds into the input at exactly the positions whose key has not been seen before |
| Aggregation.DedupIsSubsequence | backend/web_scraper.py:833-846 | the dedup output is a subsequence of the input |
| Aggregation.DedupKeepsKeys | backend/web_scraper.py:833-846 | every key of the input appears in the output and no other |
| Aggregation.DedupKeysDistinct | backend/web_scraper.py:842-844 | no two output items share a key |
| Aggregation.DedupDropsOnlyDuplicates | backend/web_scraper.py:842-844 | an item whose key occurs first at its own position is kept |
| Aggregation.DedupMembers | backend/web_scraper.py:833-846 | every output item comes from the input |
| Aggregation.FirstOccurrencesOfTwo | backend/web_scraper.py:842-844 | two items with the same key dedup to the first; with different keys both stay |
| Aggregation.SortDescCorrect | backend/web_scraper.py:867 | the descending sort is ordered non-increasingly, is a permutation, and keeps the input order among items of equal score (stability) |
| Aggregation.SortDescKeysDistinct | backend/enhanced_mcp_explorer.py:249-250 | sorting de-duplicated records keeps their keys distinct |
| Aggregation.TopBySortedPrefix | backend/enhanced_mcp_explorer.py:250-253 | the first `n` of the descending sort of records with distinct keys are ordered, drawn from the records with distinct keys, keep ties in input order, and no record left out scores more than one kept |
| Aggregation.SliceEnd | backend/web_scraper.py:167 | the end index of `xs[:n]` lies within the sequence |
| Aggregation.Take | backend/web_scraper.py:167 | `xs[:n]` is a prefix of `xs`; for `n >= 0` it has `min(n, len(xs))` items; for negative `n` it has `len(xs) + n` items, or none when that is negative |
| Aggregation.KeepWhere | backend/main.py:873 | a list comprehension with a condition keeps at most as many items as it reads |
| Aggregation.KeepWherePositions | backend/main.py:873 | the filter output embeds into the input and includes every position whose item satisfies the condition |
| Aggregation.KeepWhereMembers | backend/main.py:873 | an item is in the filter output exactly when it is in the input and satisfies the condition |
| Aggregation.KeepWhereIsSubsequence | backend/main.py:873 | the filter keeps the original relative order |
| WebScraper.AllToolsShaped | backend/web_scraper.py:673-677 | the tool loop accepts exactly when every tool is a mapping with `name` and `description` keys |
| WebScraper.IsValidMcpDocument | backend/web_scraper.py:660-682 | a parsed document is MCP-shaped exactly when it is a mapping with `name` and `tools`, `tools` is a list, and every tool is a mapping with `name` and `description` |
| WebScraper.UnparseableRejected | backend/web_scraper.py:650-658 | text that neither JSON nor YAML can parse is rejected |
| WebScraper.EmptyToolListAccepted | backend/web_scraper.py:669-679 | a document with a name and an empty `tools` list is accepted |
| WebScraper.ExtractName | backend/web_scraper.py:684-695 | the name is the document's `name` value when present, `None` for a mapping without `name`; anything but a mapping yields `None` |
| WebScraper.ExtractDescription | backend/web_scraper.py:697-708 | the description is the document's `description` value when present, `None` for a mapping without `description`; anything but a mapping yields `None` |
| WebScraper.ExtractDomainFromContent | backend/web_scraper.py:710-745 | an explicit `domain` value is returned unchanged; otherwise the result is a domain of the table or `general` |
| WebScraper.DomainInference | backend/web_scraper.py:723-740 | without an explicit domain, the first table domain with a keyword in lower(name + " " + description) wins |
| WebScraper.DomainDefault | backend/web_scraper.py:742 | without an explicit domain and with no keyword match the domain is `general` |
| WebScraper.HashablePrefixLen | backend/web_scraper.py:760 | `set.update` adds items up to the first unhashable one, where it raises |
| WebScraper.ToolPrefixLen | backend/web_scraper.py:763-765 | the tool loop handles tools up to the first one whose name cannot be lower-cased and split, where it raises |
| WebScraper.UpdateTags | backend/web_scraper.py:759-760 | the explicit tags added are exactly the hashable prefix of the list, and the update raises exactly when an unhashable item follows |
| WebScraper.AddToolPrefixes | backend/web_scraper.py:763-765 | the tags added are the lower-cased name parts before the first `_` of the tools handled before a raise |
| WebScraper.ExtractTagsFromContent | backend/web_scraper.py:747-790 | the set built by the loops, including what was added before an exception, equals the tag specification |
| WebScraper.TagsOfWellFormedDocument | backend/web_scraper.py:758-785 | for a well-formed document, the tags are the union of the explicit tags, the tool-name prefixes and the matching pattern tags |
| WebScraper.TagsSound | backend/web_scraper.py:747-790 | every tag is an explicit tag, a tool-name prefix or a pattern tag, and there are none unless the text parses to a mapping |
| WebScraper.PatternTagIsLabel | backend/web_scraper.py:783-785 | every pattern tag is one of the labels of the tag table |
| WebScraper.ToolPointsStopAtRaise | backend/web_scraper.py:812-829 | once a tool raises, the later tools add nothing to the score |
| WebScraper.ScoreTools | backend/web_scraper.py:812-816 | the accumulation loop over tools computes the tool points and whether it raised |
| WebScraper.CalculateConfidenceScore | backend/web_scraper.py:792-831 | the scorer returns the specified score, always between 50 and 100 (0.5 and 1.0) |
| WebScraper.ToolPointsCount | backend/web_scraper.py:812-816 | for tools that do not raise, the tool points are 5 per tool with parameters plus 5 per tool with a description longer than 20 characters |
| WebScraper.ConfidenceFormula | backend/web_scraper.py:794-831 | the score is min(50 + 10·description + 10·version + 10·(more than one tool) + tool points + 10·`github.com` in URL + 10·`.mcp.` in URL + 10·`mcp`/`model context protocol` in the title, 100) |
| WebScraper.DocumentPointsOfDict | backend/web_scraper.py:803-826 | for a dict whose tool loop does not raise, the points are the completeness increments, the tool-count increment, the tool points and the address and title increments |
| WebScraper.ConfidenceOfUnusableDocument | backend/web_scraper.py:794-831 | text that does not parse to a mapping scores the base 50 |
| WebScraper.DeduplicateResults | backend/web_scraper.py:833-846 | results are deduplicated first-wins by the content + URL key |
| WebScraper.DedupKeyConcatenates | backend/web_scraper.py:840 | the key concatenates content and URL without a separator, so ("ab","c") and ("a","bc") collide and only the first survives |
| WebScraper.RankResults | backend/web_scraper.py:848-867 | ranking is a permutation, ordered non-increasingly by relevance (confidence + 20 for the query in the name + 10 in the description + 5 for a preferred domain), stable among ties |
| WebScraper.MoreRelevantFirst | backend/web_scraper.py:848-867 | a strictly more relevant result is ranked before a less relevant one |
| WebScraper.SearchPlan | backend/web_scraper.py:136-150 | five sources are asked, each for `max_results // 4` results |
| WebScraper.GatheredMembers | backend/web_scraper.py:155-160 | every combined result comes from a source that returned a list; sources that raised contribute nothing |
| WebScraper.SearchWebMcps | backend/web_scraper.py:123-167 | the search returns the dedup-then-rank of the combined results, cut to `max_results`; every result comes from a source and the output is ordered by relevance |
| WebScraper.RawFileUrlOfBlobLink | backend/web_scraper.py:232-233 | a link with `/blob/` is fetched from the same address with `/raw/` in its place |
| WebScraper.RawFileUrlOfOtherLink | backend/web_scraper.py:232 | a link without `/blob/` is not fetched |
| EnhancedExplorer.ValidateToolList | backend/enhanced_mcp_explorer.py:126-139 | the extra tool check passes exactly when every tool's `parameters` is a mapping whose keys are non-empty strings, and it cannot raise on a list of mappings |
| EnhancedExplorer.ValidateSchema | backend/enhanced_mcp_explorer.py:68-123 | a schema is valid exactly when it conforms to the MCP schema (name and version patterns, optional string description, non-empty tools with patterned name, description of length at least 10 and mapping parameters) and passes the tool check; a non-conforming schema is a schema violation |
| EnhancedExplorer.StrictImpliesLoose | backend/enhanced_mcp_explorer.py:68-118 | every schema the strict validator accepts also passes the scraper's loose shape check |
| EnhancedExplorer.ToolDefinitionRejection | backend/enhanced_mcp_explorer.py:115-116 | a rejection for invalid tool definitions names a tool with a parameter key that is empty or not a string |
| EnhancedExplorer.NamePatternAcceptsTrailingNewline | backend/enhanced_mcp_explorer.py:74 | the `^[a-zA-Z0-9._-]+$` pattern also accepts a matching name followed by one newline |
| EnhancedExplorer.TwoPartVersionRejected | backend/enhanced_mcp_explorer.py:79 | the version pattern needs three parts: `1.0` is rejected |
| EnhancedExplorer.ScoreFrom | backend/enhanced_mcp_explorer.py:547-568 | the star-based score lies between 50 and 100 |
| EnhancedExplorer.ConfidenceScore | backend/enhanced_mcp_explorer.py:545-568 | the score, when the scorer does not raise, lies between 50 and 100; it raises exactly when the schema is not a mapping, its tools have no length, the star count cannot be compared or the file name cannot be searched |
| EnhancedExplorer.CalculateConfidenceScore | backend/enhanced_mcp_explorer.py:545-568 | the accumulating scorer computes the specified score or exception |
| EnhancedExplorer.StarBonuses | backend/enhanced_mcp_explorer.py:558-561 | more than 100 stars earns both star bonuses, up to the cap |
| EnhancedExplorer.StarsMonotone | backend/enhanced_mcp_explorer.py:558-561 | more stars never lower the score |
| EnhancedExplorer.ExtractDomain | backend/enhanced_mcp_explorer.py:583-604 | the domain is the first table domain with a keyword in lower(name + " " + description), or `general` when none matches |
| EnhancedExplorer.FirstAiTag | backend/enhanced_mcp_explorer.py:665-667 | the scan stops at the first item tag among nlp, computer-vision, audio and tabular |
| EnhancedExplorer.ExtractDomainFromHfItem | backend/enhanced_mcp_explorer.py:661-673 | any item tag among nlp, computer-vision, audio and tabular makes the domain `ai` |
| EnhancedExplorer.HfDomainFallsBack | backend/enhanced_mcp_explorer.py:669-673 | without such a tag, the domain is the one extracted from the schema's name and description |
| EnhancedExplorer.ToolWordTagsMembers | backend/enhanced_mcp_explorer.py:630-640 | a tool-word tag is present exactly when some tool's lower-cased name contains one of its trigger words |
| EnhancedExplorer.AddToolWordTags | backend/enhanced_mcp_explorer.py:630-640 | the tool loop raises exactly when some tool's name cannot be lower-cased, and otherwise adds exactly the tool-word tags |
| EnhancedExplorer.ExtractTags | backend/enhanced_mcp_explorer.py:606-642 | the tag builder computes the tag specification: pattern tags of lower(name + " " + description) plus tool-word tags |
| EnhancedExplorer.SearchTagRule | backend/enhanced_mcp_explorer.py:633-634 | `search` is a tag exactly when some tool name contains "search" |
| EnhancedExplorer.RetrievalTagRule | backend/enhanced_mcp_explorer.py:635-636 | `retrieval` is a tag exactly when some tool name contains fetch, get or retrieve |
| EnhancedExplorer.CreationTagRule | backend/enhanced_mcp_explorer.py:637-638 | `creation` is a tag exactly when some tool name contains create, add or post |
| EnhancedExplorer.ModificationTagRule | backend/enhanced_mcp_explorer.py:639-640 | `modification` is a tag exactly when some tool name contains update, edit or modify |
| EnhancedExplorer.WordTagRule | backend/enhanced_mcp_explorer.py:630-640 | each tool-word tag is present exactly when some tool name contains one of its words |
| EnhancedExplorer.WordTagNotPatternTag | backend/enhanced_mcp_explorer.py:612-623 | no tool-word tag is also a pattern tag, so only the tools decide it |
| EnhancedExplorer.WordTagOfName | backend/enhanced_mcp_explorer.py:633-640 | one tool name yields a tool-word tag exactly when it contains one of that tag's words |
| EnhancedExplorer.FirstFiveTags | backend/enhanced_mcp_explorer.py:650 | `tags[:5]` is defined on lists and strings and has at most five items |
| EnhancedExplorer.ItemTagPrefix | backend/enhanced_mcp_explorer.py:649-650 | at most five item tags are taken, none when the item has no `tags` key |
| EnhancedExplorer.HfItemTags | backend/enhanced_mcp_explorer.py:644-659 | the result is duplicate-free (a set); it is the first five item tags together with the schema's tags, and it raises exactly when either part raises or an item tag is unhashable |
| EnhancedExplorer.HfItemTagsFromItem | backend/enhanced_mcp_explorer.py:650 | at most five tags come from the item rather than the schema |
| EnhancedExplorer.SetOfSeqSize | backend/enhanced_mcp_explorer.py:659 | `set(tags)` has no more items than `tags` |
| EnhancedExplorer.ToSearchResult | backend/enhanced_mcp_explorer.py:198-243 | a converted record copies the scraped fields; it is validated exactly when its content parses (by file type) and the schema is valid; an invalid schema is stored as none; a record that fails to parse keeps half its confidence |
| EnhancedExplorer.ConvertScraped | backend/enhanced_mcp_explorer.py:199-243 | the conversion loop yields one converted record per scraped record, in order |
| EnhancedExplorer.StoredSchemaIsValid | backend/enhanced_mcp_explorer.py:207-215 | a stored schema is always valid and MCP-shaped |
| EnhancedExplorer.DeduplicateResults | backend/enhanced_mcp_explorer.py:570-581 | results are deduplicated first-wins by (lower(name), source URL), in input order |
| EnhancedExplorer.DedupIgnoresCase | backend/enhanced_mcp_explorer.py:576 | two results whose names differ only in case, at the same address, leave one |
| EnhancedExplorer.CombinedResults | backend/enhanced_mcp_explorer.py:249-253 | the final list has at most `limit` items, is sorted by confidence descending, and holds only input records |
| EnhancedExplorer.CombinedResultsSelection | backend/enhanced_mcp_explorer.py:249-253 | the final list has `min(limit, #unique)` items (the slice rule for a negative `limit`), is drawn from the de-duplicated records, has no two records with the same (lower-cased name, URL) key, keeps records of equal confidence in input order, and leaves out no record more confident than one it keeps |
| EnhancedExplorer.StoredThenLookup | backend/enhanced_mcp_explorer.py:684-708 | data stored at `now` with `ttl` is returned exactly by reads before `now + ttl` |
| EnhancedExplorer.StoreKeepsOtherKeys | backend/enhanced_mcp_explorer.py:705-708 | storing under one key leaves every other key's lookups unchanged |
| EnhancedExplorer.LookupEvictsOnlyExpired | backend/enhanced_mcp_explorer.py:684-689 | a hit leaves the cache as it was; a miss removes that key; no other entry is removed or changed |
| EnhancedExplorer.ApiRequestSize | backend/enhanced_mcp_explorer.py:246 | the API sources are asked for `limit // 2` results |
| EnhancedExplorer.CacheKeyInjective | backend/enhanced_mcp_explorer.py:182 | different (query, limit) pairs have different cache keys |
| EnhancedExplorer.SplitAtLastColon | backend/enhanced_mcp_explorer.py:182 | two `a:b` strings with colon-free `b` are equal only when both parts are |
| EnhancedExplorer.Explorer.constructor | backend/enhanced_mcp_explorer.py:159 | a new explorer starts with an empty memory cache |
| EnhancedExplorer.LookupKeepsInvariant | backend/enhanced_mcp_explorer.py:684-692 | a cache read, evicting or not, keeps every entry within its search's `limit` and sorted by confidence |
| EnhancedExplorer.StoreKeepsInvariant | backend/enhanced_mcp_explorer.py:697-708 | storing at most `limit` results sorted by confidence under the key of a search for `limit` keeps the cache invariant |
| EnhancedExplorer.Explorer.GetCachedResults | backend/enhanced_mcp_explorer.py:675-695 | a read returns the stored data when it has not expired, and otherwise deletes that entry and returns nothing; it keeps the cache invariant |
| EnhancedExplorer.Explorer.CacheResults | backend/enhanced_mcp_explorer.py:697-708 | a write sets the key's entry to the data expiring at `now + ttl` (default 3600 seconds) and leaves all other keys unchanged |
| EnhancedExplorer.Explorer.SearchWebMcps | backend/enhanced_mcp_explorer.py:180-264 | a non-empty cache hit is returned as is; a failed scrape returns nothing; otherwise the converted records and API results are deduplicated, sorted by confidence and cut to `limit`, then cached; the result never exceeds `limit`, is sorted, and the cache keeps that invariant |
| MainApp.RawUrlRewrite | backend/main.py:232 | `/blob/` becomes `/raw/` in the fetch address, the same rewrite as the scraper's, and a URL without `/blob/` is unchanged |
| MainApp.RepoAt | backend/main.py:228 | a match of `github\.com/([^/]+/[^/]+)` at a position captures `owner/repo` with non-empty, slash-free parts right after `github.com/` |
| MainApp.GroupAt | backend/main.py:228 | the group `[^/]+/[^/]+` read from a text is a prefix of it made of two non-empty, slash-free parts joined by `/` |
| MainApp.MatchPosition | backend/main.py:228-229 | `re.search` scans from the left: the position found matches and no earlier one does, or past the end when none matches |
| MainApp.Repository | backend/main.py:228-229 | the repository is none exactly when the URL has no match; otherwise it is the group of the leftmost match, `github.com/` + repository occurs in the URL, and it has the owner/repo shape |
| MainApp.MatchOccurs | backend/main.py:228-229 | a match at a position occurs in the URL |
| MainApp.RepositoryOfGithubLink | backend/main.py:225-229 | for `https://github.com/owner/repo/...` the repository is `owner/repo` |
| MainApp.NoMatchInScheme | backend/main.py:228 | no match starts inside the `https://` scheme |
| MainApp.MatchAtHost | backend/main.py:228 | a GitHub link matches right after its scheme |
| MainApp.MatchAt | backend/main.py:228 | text starting with `github.com/owner/repo` matches at its start |
| MainApp.GroupOfLink | backend/main.py:228 | the group read from `owner/repo/...` is `owner/repo` |
| MainApp.FallbackNameOfRepository | backend/main.py:240 | without an extracted name, the name is `mcp-` plus the last segment of the repository, or `mcp-unknown` |
| MainApp.FallbackDescription | backend/main.py:241 | without an extracted description, it is `MCP from ` followed by the repository, or by `None` |
| MainApp.FileType | backend/main.py:248 | the file type is `json` exactly when the URL ends with `.json`, and `yaml` otherwise |
| MainApp.ParseGithubResult | backend/main.py:213-274 | an empty link, a failed fetch or content that is not MCP-shaped produces no result; a result has `validated` exactly when a schema parsed, the json/yaml file type rule, the source URL and its repository, a score between 50 and 100, the fallback name when none was extracted, and the schema parsed by file type |
| MainApp.DeduplicateResults | backend/main.py:596-609 | results are deduplicated first-wins by the name + URL key, in input order |
| MainApp.DedupKeyIsCaseSensitive | backend/main.py:603 | names differing only in case are different keys, so both results stay |
| MainApp.RankResults | backend/main.py:611-630 | ranking is a permutation ordered non-increasingly by relevance, stable among ties |
| MainApp.NameMatchOutranks | backend/main.py:615-628 | with descriptions and domains alike, a result whose name contains the query outranks one less than 20 points more confident whose name does not |
| MainApp.SourceLimit | backend/main.py:153-161 | each of the three sources is asked for `limit // 3` results |
| MainApp.SearchWebMcps | backend/main.py:141-169 | the search returns the dedup-then-rank of the three sources' results cut to `limit`, drawn from those results and ordered by relevance |
| MainApp.ConfidenceFilter | backend/main.py:873 | exactly the results with confidence at least `min_confidence` are kept, in their original relative order |
| MainApp.SearchHandler | backend/main.py:836-888 | a cache hit returns at most `limit` cached items; otherwise the scraped results (none when scraping is off) are filtered by confidence; never more than `limit` |
| MainApp.EnhancedSearchHandler | backend/main.py:894-911 | the handler returns the confidence-filtered search, at most `limit` items, and nothing when web scraping is off |
| Scenarios.WeatherDocumentAccepted | backend/enhanced_mcp_explorer.py:68-123 | the one-tool weather document passes both the loose check and the strict validator |
| Scenarios.WeatherDocumentScore | backend/web_scraper.py:794-831 | the weather document, fetched from a plain address with the title `weather-tool`, scores 70 |
| Scenarios.WeatherDocumentTags | backend/web_scraper.py:759-785 | the tool `get_weather` contributes the tag `get`, and `weather` is not a tag |
| Scenarios.PlainTextRejected | backend/web_scraper.py:650-662 | plain text, which YAML reads as a string, is not MCP content |
| Scenarios.SameServerTwice | backend/enhanced_mcp_explorer.py:570-581 | the same name at the same address twice gives one result in the explorer and in the API server |
| Scenarios.ExpiredAfterAnHour | backend/enhanced_mcp_explorer.py:684-708 | a read 3601 seconds after a write with the default TTL misses and evicts the entry |

## Left out

- Network I/O and concurrency: HTTP sessions, `asyncio.gather`, sleeps, rate limiting, page and file fetching. What each source returned is a parameter; a source that raised is a `Failed` outcome.
- HTML scraping (BeautifulSoup selectors) and markdown link extraction: these work on remote pages. `urljoin` is not modelled either: the joined URL is a parameter of `MainApp.ParseGithubResult`.
- The JSON and YAML parsers and the `jsonschema` library. Parser output is an input. The schema rules are written out as predicates, and the regular expressions as character-class predicates.
- The per-platform search and parse functions, such as `_search_github`, `_parse_gitlab_result` and `_process_github_file_enhanced`, and their internal `[:limit]` cuts. They assemble records from remote data. Only the shared assembly of `backend/main.py`'s `_parse_github_result` is modelled.
- The Hugging Face and GitHub API processing of the enhanced explorer (`_search_api_sources` and what it calls). Its results are a parameter of `EnhancedExplorer.Explorer.SearchWebMcps`.
- md5: keys are compared as the strings they hash.
- Redis, sqlite (including the cache insert of the `/mcps/search` handler, and its cache lookup, whose outcome is a parameter), FastAPI routing and CORS: persistence and transport.
- Floating point: scores are whole hundredths (thousandths in the enhanced explorer's records). Inexact sums such as 0.1 + 0.2 are not reproduced.
- Floats inside parsed documents: `Value` has no float case, so a document holding, say, `version: 1.0` or a fractional star count is not represented.
- Unicode: lower-casing, `\d` and the name pattern are modelled on ASCII only.
- `str()` of nested values is modelled without Python's exact quoting and escaping of `repr`.
- Python's `1 == True` key identity in dicts and sets is not reproduced: `Int(1)` and `Bool(true)` are different values.
- pydantic and dataclass coercion. `MainApp.ParseGithubResult` assumes pydantic v2 behaviour: a name, description or domain that is not a string, non-string tags, or a schema that is not a mapping makes the record fail to build, which the `except` turns into no result. Schema key types are not checked.
- A non-string name making `result.name.lower()` raise during ranking cannot arise in the model, because every record's name is a string.
- WebScraper.SearchWebMcps: always returns a ranked list, because `WebScraper.ScrapedMcp` holds its description as a string. In the source a record's description is `None` when the search hit has none and the document has no `description` key (web_scraper.py:225 and 246); `result.description.lower()` then raises in `_rank_results` (web_scraper.py:858) and the whole search raises. The records are built by the per-platform parsers, which are not part of this model. The enhanced explorer's side of that failure is modelled: its `scraped` parameter is `Raised` and the search returns `[]` (enhanced_mcp_explorer.py:262-264).
- The enhanced cache stores `result.__dict__` and rebuilds records on a hit. The model stores the records themselves, so aliasing between cached and returned records is not captured.
- Field types of the `/mcps/search/enhanced` request other than those of its declared use (an integer limit and threshold, a boolean flag).
- The surrounding scripts: `backend/sample_mcps.py` (static data and sqlite inserts) and `backend/run_server.py` (environment and server start). The weather scenario uses a document of the same form as those records.
