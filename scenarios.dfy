/**
 * Concrete documents run through the model: the one-tool weather document,
 * text that is neither JSON nor a YAML mapping, two sources reporting the
 * same server, and a cache read after the time-to-live has passed.
 */
module Scenarios {

  import opened Python
  import Aggregation
  import WebScraper
  import EnhancedExplorer
  import MainApp
  import Keywords

  /** `{"name":"weather-tool","version":"1.0.0","tools":[{"name":"get_weather",
      "description":"Get the current weather for a city","parameters":{"location":"string"}}]}` */
  function WeatherTool(): Value {
    Map([Entry(Str("name"), Str("get_weather")),
         Entry(Str("description"), Str("Get the current weather for a city")),
         Entry(Str("parameters"), Map([Entry(Str("location"), Str("string"))]))])
  }

  function WeatherDocument(): Value {
    Map([Entry(Str("name"), Str("weather-tool")),
         Entry(Str("version"), Str("1.0.0")),
         Entry(Str("tools"), List([WeatherTool()]))])
  }

  function WeatherContent(): WebScraper.Content {
    WebScraper.Content("{...}", Some(WeatherDocument()), Some(WeatherDocument()))
  }

  /** Both the loose check and the strict validator accept the document. */
  lemma WeatherDocumentAccepted(doc: Value)
    requires doc == WeatherDocument()
    ensures WebScraper.IsValidMcpDocument(Some(doc))
    ensures EnhancedExplorer.ValidateSchema(doc) == EnhancedExplorer.Valid
  {
    var tool := WeatherTool();
    WeatherDocumentKeys(doc);
    WeatherToolConforms(tool);
    NameMatches("weather-tool");
    VersionMatches("1.0.0");
    ConformsFromParts(doc, "weather-tool", "1.0.0", tool);
    AcceptedFromParts(doc, tool);
  }

  lemma WeatherDocumentKeys(doc: Value)
    requires doc == WeatherDocument()
    ensures doc.Map? && Lookup(doc.entries, Str("name")) == Some(Str("weather-tool"))
    ensures Lookup(doc.entries, Str("version")) == Some(Str("1.0.0"))
    ensures Lookup(doc.entries, Str("tools")) == Some(List([WeatherTool()]))
    ensures Lookup(doc.entries, Str("description")) == None
    ensures Lookup(doc.entries, Str("tags")) == None
  {
  }

  lemma ConformsFromParts(doc: Value, name: string, version: string, tool: Value)
    requires doc.Map? && Lookup(doc.entries, Str("name")) == Some(Str(name))
    requires Lookup(doc.entries, Str("version")) == Some(Str(version))
    requires Lookup(doc.entries, Str("tools")) == Some(List([tool]))
    requires Lookup(doc.entries, Str("description")) == None
    requires EnhancedExplorer.MatchesNamePattern(name) && EnhancedExplorer.MatchesVersionPattern(version)
    requires EnhancedExplorer.ToolConforms(tool)
    ensures EnhancedExplorer.ConformsToMcpSchema(doc)
  {
  }

  lemma AcceptedFromParts(doc: Value, tool: Value)
    requires EnhancedExplorer.ConformsToMcpSchema(doc)
    requires Lookup(doc.entries, Str("tools")) == Some(List([tool]))
    requires EnhancedExplorer.ToolConforms(tool) && EnhancedExplorer.ToolParametersOk(tool)
    ensures WebScraper.IsValidMcpDocument(Some(doc))
    ensures EnhancedExplorer.ValidateSchema(doc) == EnhancedExplorer.Valid
  {
    EnhancedExplorer.StrictImpliesLoose(doc);
  }

  lemma NameMatches(s: string)
    requires s == "weather-tool" || s == "get_weather"
    ensures EnhancedExplorer.MatchesNamePattern(s)
  {
  }

  lemma WeatherToolConforms(tool: Value)
    requires tool == WeatherTool()
    ensures EnhancedExplorer.ToolConforms(tool) && EnhancedExplorer.ToolParametersOk(tool)
  {
    var description := "Get the current weather for a city";
    WeatherToolKeys(tool, "get_weather", description);
    NameMatches("get_weather");
    assert |description| >= 10;
    assert EnhancedExplorer.ParametersWellKeyed(Map([Entry(Str("location"), Str("string"))]));
  }

  /** The three keys of the weather tool. */
  lemma WeatherToolKeys(tool: Value, name: string, description: string)
    requires tool == WeatherTool() && name == "get_weather" && description == "Get the current weather for a city"
    ensures tool.Map? && Lookup(tool.entries, Str("name")) == Some(Str(name))
    ensures Lookup(tool.entries, Str("description")) == Some(Str(description))
    ensures Lookup(tool.entries, Str("parameters")) == Some(Map([Entry(Str("location"), Str("string"))]))
  {
  }

  lemma VersionMatches(s: string)
    requires s == "1.0.0"
    ensures EnhancedExplorer.MatchesVersionPattern(s)
  {
    var body := EnhancedExplorer.PatternSubject(s);
    assert body == s;
    assert body[1] == '.' && body[3] == '.';
    assert EnhancedExplorer.DigitRun(body[..1]) && EnhancedExplorer.DigitRun(body[2..3]) && EnhancedExplorer.DigitRun(body[4..]);
  }

  /** Version 1.0.0, one tool with parameters and a description longer than
      20 characters: 0.5 + 0.1 + 0.05 + 0.05 = 0.70, with no address or title
      bonus. */
  lemma WeatherDocumentScore(url: string, title: string)
    requires url == "https://example.net/weather.json" && title == "weather-tool"
    ensures WebScraper.ConfidenceScore(WeatherContent(), url, title) == 70
  {
    var doc := WeatherDocument();
    WeatherDocumentKeys(doc);
    WeatherToolPoints(WeatherTool());
    AddressChars(url);
    PlainAddress(url);
    TitleChars(title);
    PlainTitle(Text.Lower(title));
    ScoreFromParts(WeatherContent(), doc.entries, WeatherTool(), url, title);
  }

  /** A dict with a version, no description and one tool worth 0.1, from an
      address and title that earn nothing, scores 0.70. */
  lemma ScoreFromParts(c: WebScraper.Content, e: seq<Entry>, tool: Value, url: string, title: string)
    requires WebScraper.Load(c) == Some(Map(e))
    requires Lookup(e, Str("version")) == Some(Str("1.0.0"))
    requires Lookup(e, Str("description")) == None
    requires Lookup(e, Str("tools")) == Some(List([tool]))
    requires WebScraper.ToolPoints([tool]) == WebScraper.Partial(10, false)
    requires WebScraper.SourcePoints(url, title) == 0
    ensures WebScraper.ConfidenceScore(c, url, title) == 70
  {
    WebScraper.DocumentPointsOfDict(e, url, title, [tool]);
  }

  lemma WeatherToolPoints(tool: Value)
    requires tool == WeatherTool()
    ensures WebScraper.ToolPoints([tool]) == WebScraper.Partial(10, false)
  {
    WeatherToolKeys(tool, "get_weather", "Get the current weather for a city");
    ToolPointsFromParts(tool, "Get the current weather for a city");
  }

  /** One dict tool with parameters and a description longer than 20
      characters earns 0.05 + 0.05. */
  lemma ToolPointsFromParts(tool: Value, description: string)
    requires tool.Map? && Lookup(tool.entries, Str("description")) == Some(Str(description))
    requires |description| > 20
    requires Lookup(tool.entries, Str("parameters")) == Some(Map([Entry(Str("location"), Str("string"))]))
    ensures WebScraper.ToolPoints([tool]) == WebScraper.Partial(10, false)
  {
    assert WebScraper.ToolBonus(tool) == WebScraper.Partial(10, false);
    assert [tool][..0] == [];
  }

  lemma AddressChars(url: string)
    requires url == "https://example.net/weather.json"
    ensures 'g' !in url && 'c' !in url
  {
  }

  /** An address without a 'g' and without a 'c' mentions neither
      'github.com' nor '.mcp.'. */
  lemma PlainAddress(url: string)
    requires 'g' !in url && 'c' !in url
    ensures !Text.Contains(url, "github.com") && !Text.Contains(url, ".mcp.")
  {
    Text.CharOfOccurrence(url, "github.com", 0);
    Text.CharOfOccurrence(url, ".mcp.", 2);
  }

  lemma TitleChars(title: string)
    requires title == "weather-tool"
    ensures 'm' !in Text.Lower(title)
  {
    assert Text.Lower(title) == title;
  }

  /** A lower-cased title without an 'm' mentions neither 'mcp' nor
      'model context protocol'. */
  lemma PlainTitle(lowered: string)
    requires 'm' !in lowered
    ensures !Text.Contains(lowered, "mcp") && !Text.Contains(lowered, "model context protocol")
  {
    Text.CharOfOccurrence(lowered, "mcp", 0);
    Text.CharOfOccurrence(lowered, "model context protocol", 0);
  }

  /** The tool's name up to its first underscore becomes a tag; the word
      `weather` does not. */
  lemma WeatherDocumentTags(c: WebScraper.Content, title: string, description: string)
    requires c == WeatherContent() && title == "weather-tool" && description == "Get the current weather for a city"
    ensures Str("get") in WebScraper.TagsFromContent(c, title, description)
    ensures Str("weather") !in WebScraper.TagsFromContent(c, title, description)
  {
    WeatherIsNoTagLabel("weather");
    var doc := WeatherDocument();
    var tool := WeatherTool();
    WeatherDocumentKeys(doc);
    WeatherToolKeys(tool, "get_weather", "Get the current weather for a city");
    WeatherPrefix("get_weather");
    assert WebScraper.Load(c) == Some(doc);
    TagsFromParts(c, doc.entries, tool, "get_weather", "get", title, description);
  }

  lemma WeatherIsNoTagLabel(w: string)
    requires w == "weather"
    ensures w !in Keywords.Labels(WebScraper.TagTable)
  {
  }

  lemma WeatherPrefix(name: string)
    requires name == "get_weather"
    ensures Text.SplitFirst(Text.Lower(name), '_') == "get"
  {
    assert Text.Lower(name) == "get" + "_weather";
    Text.SplitFirstOf("get", "_weather", '_');
  }

  /** A dict without `tags` whose one tool is named `name` is tagged with the
      name's first `_`-segment, lower-cased. */
  lemma TagsFromParts(c: WebScraper.Content, e: seq<Entry>, tool: Value, name: string, prefix: string,
                      title: string, description: string)
    requires WebScraper.Load(c) == Some(Map(e))
    requires Lookup(e, Str("tags")) == None
    requires Lookup(e, Str("tools")) == Some(List([tool]))
    requires tool.Map? && Lookup(tool.entries, Str("name")) == Some(Str(name))
    requires Text.SplitFirst(Text.Lower(name), '_') == prefix
    ensures Str(prefix) in WebScraper.TagsFromContent(c, title, description)
    ensures forall t :: t in WebScraper.TagsFromContent(c, title, description) ==>
      t == Str(prefix) || (t.Str? && t.s in Keywords.Labels(WebScraper.TagTable))
  {
    forall t | t in WebScraper.TagsFromContent(c, title, description)
      ensures t == Str(prefix) || (t.Str? && t.s in Keywords.Labels(WebScraper.TagTable))
    {
      WebScraper.TagsSound(c, title, description, t);
      assert WebScraper.ExplicitTagItems(e) == Some([]);
      assert Iter(GetOr(e, "tools", List([]))).value == [tool];
    }
    var tools := [tool];
    assert WebScraper.ToolPrefix(tool) == Some(prefix);
    assert WebScraper.ToolPrefixLen(tools) == 1 by {
      assert tools[1..] == [];
    }
    assert Str(prefix) in WebScraper.ToolTags(tools, 1);
  }

  /** `not json at all` is no JSON, and YAML reads it as a string, which is
      not a mapping. */
  lemma PlainTextRejected()
    ensures !WebScraper.IsValidMcpContent(WebScraper.Content("not json at all", None, Some(Str("not json at all"))))
  {
  }

  /** Two sources reporting the same name at the same address yield one
      result in the enhanced explorer and in the API server. */
  lemma SameServerTwice(a: EnhancedExplorer.SearchResult, b: EnhancedExplorer.SearchResult,
                        c: MainApp.WebMcpResult, d: MainApp.WebMcpResult)
    requires a.name == "x" && b.name == "x" && a.sourceUrl == "http://a" && b.sourceUrl == "http://a"
    requires c.name == "x" && d.name == "x" && c.sourceUrl == "http://a" && d.sourceUrl == "http://a"
    ensures Aggregation.FirstOccurrences([a, b], EnhancedExplorer.DedupKey) == [a]
    ensures Aggregation.FirstOccurrences([c, d], MainApp.DedupKey) == [c]
  {
    EnhancedExplorer.DedupIgnoresCase(a, b);
    Aggregation.FirstOccurrencesOfTwo(c, d, MainApp.DedupKey);
  }

  /** An hour's time-to-live: a read 3601 seconds after the write misses and
      evicts the entry. */
  lemma ExpiredAfterAnHour(cache: map<string, EnhancedExplorer.CacheEntry>, key: string,
                           data: seq<EnhancedExplorer.SearchResult>, now: int)
    ensures var stored := EnhancedExplorer.Stored(cache, key, data, now, EnhancedExplorer.DefaultTtl);
      EnhancedExplorer.CacheLookup(stored, key, now + 3601).None? &&
      key !in EnhancedExplorer.AfterLookup(stored, key, now + 3601)
  {
  }
}
