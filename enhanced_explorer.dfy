/**
 * The deterministic part of the enhanced explorer
 * (backend/enhanced_mcp_explorer.py): the strict schema validator, the
 * star-aware confidence scorer, domain and tag extraction for API and
 * Hugging Face results, the post-processing of scraped results, and the
 * in-memory result cache with its expiry times.
 */
module EnhancedExplorer {

  import opened Python
  import opened Text
  import opened Keywords
  import Aggregation
  import WebScraper

  // ---------------------------------------------------------------------
  // The strict schema (MCP_SCHEMA and MCPSchemaValidator)
  // ---------------------------------------------------------------------

  predicate NameChar(c: char) {
    'a' <= c <= 'z' || 'A' <= c <= 'Z' || '0' <= c <= '9' || c == '.' || c == '_' || c == '-'
  }

  predicate IsDigit(c: char) {
    '0' <= c <= '9'
  }

  /** What a `^...$` pattern has to match: `$` also matches just before a
      final newline, so one trailing newline is not part of the match. */
  function PatternSubject(s: string): string {
    if |s| > 0 && s[|s| - 1] == '\n' then s[..|s| - 1] else s
  }

  /** `^[a-zA-Z0-9._-]+$` */
  predicate MatchesNamePattern(s: string) {
    var body := PatternSubject(s);
    |body| > 0 && forall i :: 0 <= i < |body| ==> NameChar(body[i])
  }

  predicate DigitRun(s: string) {
    |s| > 0 && forall i :: 0 <= i < |s| ==> IsDigit(s[i])
  }

  /** `^\d+\.\d+\.\d+$` (ASCII digits) */
  predicate MatchesVersionPattern(s: string) {
    var body := PatternSubject(s);
    exists i, j | 0 <= i < j < |body| ::
      body[i] == '.' && body[j] == '.' &&
      DigitRun(body[..i]) && DigitRun(body[i + 1..j]) && DigitRun(body[j + 1..])
  }

  /** A `name` property: a string matching the name pattern. */
  predicate NameConforms(v: Value) {
    v.Str? && MatchesNamePattern(v.s)
  }

  /** One item of `tools`: an object with a conforming name, a description
      of at least 10 characters and an object of parameters. */
  predicate ToolConforms(t: Value) {
    t.Map? &&
    HasKey(t.entries, "name") && HasKey(t.entries, "description") && HasKey(t.entries, "parameters") &&
    NameConforms(GetOr(t.entries, "name", Null)) &&
    GetOr(t.entries, "description", Null).Str? && |GetOr(t.entries, "description", Null).s| >= 10 &&
    GetOr(t.entries, "parameters", Null).Map?
  }

  /** `jsonschema.validate(instance, MCP_SCHEMA)` succeeds. */
  predicate ConformsToMcpSchema(v: Value) {
    v.Map? &&
    var e := v.entries;
    HasKey(e, "name") && HasKey(e, "version") && HasKey(e, "tools") &&
    NameConforms(GetOr(e, "name", Null)) &&
    GetOr(e, "version", Null).Str? && MatchesVersionPattern(GetOr(e, "version", Null).s) &&
    (HasKey(e, "description") ==> GetOr(e, "description", Null).Str?) &&
    GetOr(e, "tools", Null).List? && |GetOr(e, "tools", Null).items| >= 1 &&
    forall t :: t in GetOr(e, "tools", Null).items ==> ToolConforms(t)
  }

  /** Every parameter name is a non-empty string. */
  predicate ParametersWellKeyed(p: Value) {
    p.Map? && forall k :: 0 <= k < |p.entries| ==> p.entries[k].key.Str? && p.entries[k].key.s != ""
  }

  predicate ToolParametersOk(t: Value) {
    t.Map? && ParametersWellKeyed(GetOr(t.entries, "parameters", Map([])))
  }

  /** `_validate_tools` over a list of tools: False at the first tool whose
      parameters are not a dict or have a bad name; `.get` on a tool that is
      not a dict raises. */
  function ValidateToolList(tools: seq<Value>): (r: Outcome<bool>)
    ensures r == Ok(true) <==> forall k :: 0 <= k < |tools| ==> ToolParametersOk(tools[k])
    ensures (forall k :: 0 <= k < |tools| ==> tools[k].Map?) ==> r.Ok?
    decreases |tools|
  {
    if tools == [] then Ok(true)
    else if !tools[0].Map? then Raised
    else if !ParametersWellKeyed(GetOr(tools[0].entries, "parameters", Map([]))) then Ok(false)
    else ValidateToolList(tools[1..])
  }

  /** `_validate_tools(tools)`: iterating something that is not iterable raises. */
  function ValidateTools(tools: Value): Outcome<bool> {
    match Iter(tools)
    case None => Raised
    case Some(items) => ValidateToolList(items)
  }

  datatype ValidationError = SchemaViolation | InvalidToolDefinitions | ValidationFailure

  /** The pair `validate_schema` returns: valid, or invalid with the kind of
      message. */
  datatype Verdict = Valid | Invalid(error: ValidationError)

  /** `validate_schema`: the schema rules first, then the parameter check. */
  function ValidateSchema(schema: Value): (r: Verdict)
    ensures r == Valid <==>
      ConformsToMcpSchema(schema) &&
      forall t :: t in GetOr(schema.entries, "tools", Null).items ==> ToolParametersOk(t)
    ensures !ConformsToMcpSchema(schema) ==> r == Invalid(SchemaViolation)
    ensures ConformsToMcpSchema(schema) ==> r != Invalid(ValidationFailure)
  {
    if !ConformsToMcpSchema(schema) then Invalid(SchemaViolation)
    else
      var tools := GetOr(schema.entries, "tools", List([]));
      assert tools == GetOr(schema.entries, "tools", Null);
      assert forall k :: 0 <= k < |tools.items| ==> tools.items[k].Map? by {
        forall k | 0 <= k < |tools.items| ensures tools.items[k].Map? {
          assert ToolConforms(tools.items[k]);
        }
      }
      match ValidateTools(tools)
      case Ok(true) => Valid
      case Ok(false) => Invalid(InvalidToolDefinitions)
      case Raised => Invalid(ValidationFailure)
  }

  /** A schema the strict validator accepts also passes the loose check. */
  lemma StrictImpliesLoose(schema: Value)
    requires ValidateSchema(schema) == Valid
    ensures WebScraper.IsValidMcpDocument(Some(schema))
  {
    var tools := GetOr(schema.entries, "tools", Null).items;
    forall t | t in tools ensures WebScraper.ToolShaped(t) {
      assert ToolConforms(t);
    }
  }

  /** Once the schema rules pass, the only remaining reason for rejection is
      a parameter name that is empty or not a string. */
  lemma ToolDefinitionRejection(schema: Value)
    requires ValidateSchema(schema) == Invalid(InvalidToolDefinitions)
    ensures exists t :: (t in GetOr(schema.entries, "tools", Null).items && t.Map? &&
      var p := GetOr(t.entries, "parameters", Map([]));
      p.Map? && exists k :: 0 <= k < |p.entries| && !(p.entries[k].key.Str? && p.entries[k].key.s != ""))
  {
    var tools := GetOr(schema.entries, "tools", Null).items;
    var t :| t in tools && !ToolParametersOk(t);
    assert ToolConforms(t);
    assert GetOr(t.entries, "parameters", Map([])) == GetOr(t.entries, "parameters", Null);
  }

  /** Because `$` also matches before a final newline, a name ending in one
      newline passes the name pattern. */
  lemma NamePatternAcceptsTrailingNewline(s: string)
    requires MatchesNamePattern(s) && (|s| == 0 || s[|s| - 1] != '\n')
    ensures MatchesNamePattern(s + "\n")
  {
    assert PatternSubject(s + "\n") == s;
  }

  /** A version with one dot is rejected. */
  lemma TwoPartVersionRejected()
    ensures !MatchesVersionPattern("1.0")
  {
    var body := PatternSubject("1.0");
    assert body == "1.0";
    forall i, j | 0 <= i < j < |body| ensures !(body[i] == '.' && body[j] == '.') {
    }
  }

  // ---------------------------------------------------------------------
  // Confidence (API results)
  // ---------------------------------------------------------------------

  /** `v > bound` for an integer bound: booleans compare as 0 and 1, every
      other type raises `TypeError`. */
  function GreaterThan(v: Value, bound: int): Option<bool> {
    match v
    case Int(i) => Some(i > bound)
    case Bool(b) => Some((if b then 1 else 0) > bound)
    case _ => None
  }

  /** The increment table of `_calculate_confidence_score`, in hundredths. */
  function ScoreFrom(described: bool, versioned: bool, toolCount: nat, stars: int, mcpName: bool): (r: int)
    ensures 50 <= r <= 100
  {
    Min(50 + (if described then 10 else 0) + (if versioned then 10 else 0) +
        (if toolCount > 1 then 10 else 0) + (if stars > 10 then 10 else 0) +
        (if stars > 100 then 10 else 0) + (if mcpName then 10 else 0), 100)
  }

  /** The star count `item.get('repository', {}).get('stargazers_count', 0)`
      as a number (a boolean counts as 0 or 1). */
  function StarCount(item: Value): Outcome<int> {
    match Get(item, "repository", Map([]))
    case Raised => Raised
    case Ok(repo) =>
      match Get(repo, "stargazers_count", Int(0))
      case Raised => Raised
      case Ok(Int(n)) => Ok(n)
      case Ok(Bool(b)) => Ok(if b then 1 else 0)
      case Ok(_) => Raised
  }

  /** `_calculate_confidence_score(schema, item)`: Raised where one of its
      lookups or comparisons raises. */
  function ConfidenceScore(schema: Value, item: Value): (r: Outcome<int>)
    ensures r.Ok? ==> 50 <= r.value <= 100
    ensures r.Ok? <==> schema.Map? && Len(GetOr(schema.entries, "tools", List([]))).Some? &&
                       StarCount(item).Ok? && In(".mcp.", GetOr(item.entries, "name", Str(""))).Some?
  {
    if !schema.Map? then Raised
    else
      var e := schema.entries;
      match Len(GetOr(e, "tools", List([])))
      case None => Raised
      case Some(count) =>
        match StarCount(item)
        case Raised => Raised
        case Ok(stars) =>
          match In(".mcp.", GetOr(item.entries, "name", Str("")))
          case None => Raised
          case Some(mcpName) =>
            Ok(ScoreFrom(Truthy(GetOr(e, "description", Null)), Truthy(GetOr(e, "version", Null)),
                         count, stars, mcpName))
  }

  /** The scorer as the source writes it: one running score, one bonus at a
      time. */
  method CalculateConfidenceScore(schema: Value, item: Value) returns (r: Outcome<int>)
    ensures r == ConfidenceScore(schema, item)
  {
    if !schema.Map? {
      return Raised;
    }
    var e := schema.entries;
    var score := 50;
    if Truthy(GetOr(e, "description", Null)) {
      score := score + 10;
    }
    if Truthy(GetOr(e, "version", Null)) {
      score := score + 10;
    }
    var count := Len(GetOr(e, "tools", List([])));
    if count.None? {
      return Raised;
    }
    if count.value > 1 {
      score := score + 10;
    }
    var stars := StarCount(item);
    if stars.Raised? {
      return Raised;
    }
    if stars.value > 10 {
      score := score + 10;
    }
    if stars.value > 100 {
      score := score + 10;
    }
    var mcpName := In(".mcp.", GetOr(item.entries, "name", Str("")));
    if mcpName.None? {
      return Raised;
    }
    if mcpName.value {
      score := score + 10;
    }
    r := Ok(Min(score, 100));
  }

  /** More than 100 stars earns both star bonuses. */
  lemma StarBonuses(described: bool, versioned: bool, toolCount: nat, stars: int, mcpName: bool)
    requires stars > 100
    ensures ScoreFrom(described, versioned, toolCount, stars, mcpName) ==
            Min(ScoreFrom(described, versioned, toolCount, 0, mcpName) + 20, 100)
  {
  }

  /** More stars never lower the score. */
  lemma StarsMonotone(described: bool, versioned: bool, toolCount: nat, fewer: int, more: int, mcpName: bool)
    requires fewer <= more
    ensures ScoreFrom(described, versioned, toolCount, fewer, mcpName) <=
            ScoreFrom(described, versioned, toolCount, more, mcpName)
  {
  }

  // ---------------------------------------------------------------------
  // Domains
  // ---------------------------------------------------------------------

  const DomainTable: seq<Row> := [
    Row("weather", ["weather", "climate", "forecast", "temperature", "meteorology"]),
    Row("finance", ["finance", "trading", "stock", "crypto", "payment", "banking"]),
    Row("travel", ["travel", "booking", "hotel", "flight", "airbnb", "tourism"]),
    Row("productivity", ["calendar", "task", "note", "email", "schedule", "todo"]),
    Row("development", ["code", "git", "github", "deploy", "api", "programming"]),
    Row("social", ["social", "twitter", "facebook", "instagram", "post", "media"]),
    Row("ecommerce", ["shop", "store", "product", "cart", "order", "commerce"]),
    Row("data", ["data", "analytics", "database", "query", "search", "analysis"]),
    Row("ai", ["ai", "ml", "llm", "gpt", "model", "intelligence"]),
    Row("communication", ["chat", "message", "slack", "discord", "teams"])
  ]

  /** `f"{name} {description}".lower()` */
  function MetadataText(name: Value, description: Value): string {
    Lower(PyStr(name) + " " + PyStr(description))
  }

  /** `_extract_domain`: the first row, in table order, with a keyword in
      the text, else 'general'. */
  function ExtractDomain(name: Value, description: Value): (r: string)
    ensures var text := MetadataText(name, description);
      (exists i :: 0 <= i < |DomainTable| && AnyOccurs(DomainTable[i].keywords, text) && r == DomainTable[i].category &&
         forall j :: 0 <= j < i ==> !AnyOccurs(DomainTable[j].keywords, text)) ||
      (r == "general" && forall i :: 0 <= i < |DomainTable| ==> !AnyOccurs(DomainTable[i].keywords, text))
  {
    FirstMatchLabel(DomainTable, MetadataText(name, description), "general")
  }

  /** Hugging Face tags that mark an item as AI. */
  const AiItemTags: seq<Value> := [Str("nlp"), Str("computer-vision"), Str("audio"), Str("tabular")]

  /** The loop over the item's tags: the position of the first AI tag. */
  function FirstAiTag(tags: seq<Value>): (i: nat)
    ensures i <= |tags|
    ensures i < |tags| ==> tags[i] in AiItemTags
    ensures forall j :: 0 <= j < i ==> tags[j] !in AiItemTags
    decreases |tags|
  {
    if tags == [] || tags[0] in AiItemTags then 0 else 1 + FirstAiTag(tags[1..])
  }

  /** `_extract_domain_from_hf_item(item, schema)` */
  function ExtractDomainFromHfItem(item: Value, schema: Value): (r: Outcome<string>)
    ensures item.Map? && Iter(GetOr(item.entries, "tags", List([]))).Some? &&
            (exists t :: t in Iter(GetOr(item.entries, "tags", List([]))).value && t in AiItemTags) ==>
              r == Ok("ai")
  {
    match Get(item, "tags", List([]))
    case Raised => Raised
    case Ok(tags) =>
      match Iter(tags)
      case None => Raised
      case Some(items) =>
        if FirstAiTag(items) < |items| then Ok("ai")
        else
          match Get(schema, "name", Str(""))
          case Raised => Raised
          case Ok(name) => Ok(ExtractDomain(name, GetOr(schema.entries, "description", Str(""))))
  }

  /** Without an AI tag the domain is the one `_extract_domain` infers from
      the schema's name and description. */
  lemma HfDomainFallsBack(item: Value, schema: Value, tags: seq<Value>)
    requires item.Map? && Iter(GetOr(item.entries, "tags", List([]))) == Some(tags)
    requires forall t :: t in tags ==> t !in AiItemTags
    requires schema.Map?
    ensures ExtractDomainFromHfItem(item, schema) ==
      Ok(ExtractDomain(GetOr(schema.entries, "name", Str("")), GetOr(schema.entries, "description", Str(""))))
  {
    var i := FirstAiTag(tags);
    assert i == |tags|;
  }

  // ---------------------------------------------------------------------
  // Tags
  // ---------------------------------------------------------------------

  const TagTable: seq<Row> := [
    Row("api", ["api", "rest", "endpoint", "service"]),
    Row("ai", ["ai", "ml", "llm", "gpt", "model"]),
    Row("web", ["web", "http", "url", "browser", "scraping"]),
    Row("database", ["db", "database", "sql", "mongo", "redis"]),
    Row("cloud", ["aws", "azure", "gcp", "cloud", "serverless"]),
    Row("automation", ["auto", "script", "workflow", "cron"]),
    Row("integration", ["integrate", "connect", "sync", "webhook"]),
    Row("realtime", ["realtime", "live", "stream", "websocket"]),
    Row("security", ["auth", "security", "encrypt", "token"]),
    Row("monitoring", ["monitor", "log", "metric", "alert"])
  ]

  /** The tags a tool name earns by the words it contains. */
  const ToolWordTable: seq<Row> := [
    Row("search", ["search"]),
    Row("retrieval", ["fetch", "get", "retrieve"]),
    Row("creation", ["create", "add", "post"]),
    Row("modification", ["update", "edit", "modify"])
  ]

  /** `tool.get('name', '').lower()`; None where `.get` or `.lower` raises. */
  function ToolNameLower(tool: Value): Option<string> {
    if !tool.Map? then None
    else match GetOr(tool.entries, "name", Str(""))
      case Str(s) => Some(Lower(s))
      case _ => None
  }

  /** The word tags of the tool names, one tool after the other. */
  function ToolWordTags(tools: seq<Value>): set<string>
    requires forall k :: 0 <= k < |tools| ==> ToolNameLower(tools[k]).Some?
    decreases |tools|
  {
    if tools == [] then {}
    else ToolWordTags(tools[..|tools| - 1]) + MatchingLabels(ToolWordTable, ToolNameLower(tools[|tools| - 1]).value)
  }

  /** A word tag comes from some tool name, and every tool name contributes
      its word tags. */
  lemma {:induction false} ToolWordTagsMembers(tools: seq<Value>, tag: string)
    requires forall k :: 0 <= k < |tools| ==> ToolNameLower(tools[k]).Some?
    ensures tag in ToolWordTags(tools) <==>
      exists k :: 0 <= k < |tools| && tag in MatchingLabels(ToolWordTable, ToolNameLower(tools[k]).value)
    decreases |tools|
  {
    if tools != [] {
      var init := tools[..|tools| - 1];
      ToolWordTagsMembers(init, tag);
      assert forall k :: 0 <= k < |init| ==> init[k] == tools[k];
    }
  }

  /** What `_extract_tags(name, description, schema)` returns, or Raised. */
  function TagsOf(name: Value, description: Value, schema: Value): Outcome<set<string>> {
    if !schema.Map? then Raised
    else
      match Iter(GetOr(schema.entries, "tools", List([])))
      case None => Raised
      case Some(tools) =>
        if exists k :: 0 <= k < |tools| && ToolNameLower(tools[k]).None? then Raised
        else Ok(MatchingLabels(TagTable, MetadataText(name, description)) + ToolWordTags(tools))
  }

  /** The tool loop of `_extract_tags`: the word tags of every tool name
      ('search', 'retrieval', 'creation', 'modification'), Raised at the
      first tool without a string name. */
  method AddToolWordTags(tools: seq<Value>) returns (r: Outcome<set<string>>)
    ensures (exists k :: 0 <= k < |tools| && ToolNameLower(tools[k]).None?) <==> r.Raised?
    ensures r.Ok? ==> r.value == ToolWordTags(tools)
  {
    var tags: set<string> := {};
    var i := 0;
    while i < |tools|
      invariant 0 <= i <= |tools|
      invariant forall k :: 0 <= k < i ==> ToolNameLower(tools[k]).Some?
      invariant tags == ToolWordTags(tools[..i])
    {
      var tool := tools[i];
      if !tool.Map? {
        return Raised;
      }
      var name := GetOr(tool.entries, "name", Str(""));
      if !name.Str? {
        return Raised;
      }
      var wordTags := CollectMatching(ToolWordTable, Lower(name.s));
      tags := tags + wordTags;
      assert tools[..i + 1][..i] == tools[..i];
      i := i + 1;
    }
    assert tools[..i] == tools;
    r := Ok(tags);
  }

  /** `_extract_tags`: the pattern tags of the name and description, then
      the word tags of each tool name. */
  method ExtractTags(name: Value, description: Value, schema: Value) returns (r: Outcome<set<string>>)
    ensures r == TagsOf(name, description, schema)
  {
    var patternTags := CollectMatching(TagTable, MetadataText(name, description));
    if !schema.Map? {
      return Raised;
    }
    var tools := Iter(GetOr(schema.entries, "tools", List([])));
    if tools.None? {
      return Raised;
    }
    var toolTags := AddToolWordTags(tools.value);
    if toolTags.Raised? {
      return Raised;
    }
    r := Ok(patternTags + toolTags.value);
  }

  /** 'search' is a tag exactly when some tool name contains "search". */
  lemma SearchTagRule(name: Value, description: Value, schema: Value, tools: seq<Value>)
    requires TagsOf(name, description, schema).Ok?
    requires Iter(GetOr(schema.entries, "tools", List([]))) == Some(tools)
    ensures "search" in TagsOf(name, description, schema).value <==>
      exists k :: 0 <= k < |tools| && Contains(ToolNameLower(tools[k]).value, "search")
  {
    WordTagRule(name, description, schema, tools, 0);
  }

  /** 'retrieval', 'creation' and 'modification' likewise, for their words. */
  lemma RetrievalTagRule(name: Value, description: Value, schema: Value, tools: seq<Value>)
    requires TagsOf(name, description, schema).Ok?
    requires Iter(GetOr(schema.entries, "tools", List([]))) == Some(tools)
    ensures "retrieval" in TagsOf(name, description, schema).value <==>
      exists k :: 0 <= k < |tools| && AnyOccurs(["fetch", "get", "retrieve"], ToolNameLower(tools[k]).value)
  {
    WordTagRule(name, description, schema, tools, 1);
  }

  lemma CreationTagRule(name: Value, description: Value, schema: Value, tools: seq<Value>)
    requires TagsOf(name, description, schema).Ok?
    requires Iter(GetOr(schema.entries, "tools", List([]))) == Some(tools)
    ensures "creation" in TagsOf(name, description, schema).value <==>
      exists k :: 0 <= k < |tools| && AnyOccurs(["create", "add", "post"], ToolNameLower(tools[k]).value)
  {
    WordTagRule(name, description, schema, tools, 2);
  }

  lemma ModificationTagRule(name: Value, description: Value, schema: Value, tools: seq<Value>)
    requires TagsOf(name, description, schema).Ok?
    requires Iter(GetOr(schema.entries, "tools", List([]))) == Some(tools)
    ensures "modification" in TagsOf(name, description, schema).value <==>
      exists k :: 0 <= k < |tools| && AnyOccurs(["update", "edit", "modify"], ToolNameLower(tools[k]).value)
  {
    WordTagRule(name, description, schema, tools, 3);
  }

  /** The word tags do not occur in the pattern table, so a word tag is due
      to a tool name alone. */
  lemma WordTagRule(name: Value, description: Value, schema: Value, tools: seq<Value>, w: nat)
    requires w < |ToolWordTable|
    requires TagsOf(name, description, schema).Ok?
    requires Iter(GetOr(schema.entries, "tools", List([]))) == Some(tools)
    ensures ToolWordTable[w].category in TagsOf(name, description, schema).value <==>
      exists k :: 0 <= k < |tools| && AnyOccurs(ToolWordTable[w].keywords, ToolNameLower(tools[k]).value)
  {
    var tag := ToolWordTable[w].category;
    WordTagNotPatternTag(w, MetadataText(name, description));
    ToolWordTagsMembers(tools, tag);
    forall k | 0 <= k < |tools|
      ensures tag in MatchingLabels(ToolWordTable, ToolNameLower(tools[k]).value) <==>
              AnyOccurs(ToolWordTable[w].keywords, ToolNameLower(tools[k]).value)
    {
      WordTagOfName(w, ToolNameLower(tools[k]).value);
    }
  }

  lemma WordTagNotPatternTag(w: nat, text: string)
    requires w < |ToolWordTable|
    ensures ToolWordTable[w].category !in MatchingLabels(TagTable, text)
  {
    var tag := ToolWordTable[w].category;
    forall i | 0 <= i < |TagTable| ensures TagTable[i].category != tag {
    }
  }

  /** The word tables' categories are distinct, so a name earns a word tag
      exactly through that tag's own words. */
  lemma WordTagOfName(w: nat, toolName: string)
    requires w < |ToolWordTable|
    ensures ToolWordTable[w].category in MatchingLabels(ToolWordTable, toolName) <==>
            AnyOccurs(ToolWordTable[w].keywords, toolName)
  {
    var tag := ToolWordTable[w].category;
    if tag in MatchingLabels(ToolWordTable, toolName) {
      var i :| 0 <= i < |ToolWordTable| && AnyOccurs(ToolWordTable[i].keywords, toolName) &&
               ToolWordTable[i].category == tag;
      assert i == w;
    }
  }

  /** `item['tags'][:5]`, as the items `list.extend` adds: a string slice
      adds its characters; other types raise. */
  function FirstFiveTags(tags: Value): (r: Outcome<seq<Value>>)
    ensures r.Ok? <==> tags.List? || tags.Str?
    ensures tags.List? ==> r == Ok(Aggregation.Take(tags.items, 5))
    ensures r.Ok? ==> |r.value| <= 5
  {
    match tags
    case List(items) => Ok(Aggregation.Take(items, 5))
    case Str(s) => Ok(seq(|Aggregation.Take(s, 5)|, i requires 0 <= i < |Aggregation.Take(s, 5)| => Str([s[i]])))
    case _ => Raised
  }

  /** The item tags `_extract_tags_from_hf_item` starts from: none without a
      'tags' key, else the first five. */
  function ItemTagPrefix(item: Value): (r: Outcome<seq<Value>>)
    ensures r.Ok? ==> |r.value| <= 5
    ensures item.Map? && !HasKey(item.entries, "tags") ==> r == Ok([])
  {
    match In("tags", item)
    case None => Raised
    case Some(hasTags) =>
      if !hasTags then Ok([])
      else if !item.Map? then Raised
      else FirstFiveTags(GetOr(item.entries, "tags", Null))
  }

  /** `_extract_tags(schema.get('name', ''), schema.get('description', ''), schema)` */
  function SchemaTags(schema: Value): Outcome<set<string>> {
    if !schema.Map? then Raised
    else TagsOf(GetOr(schema.entries, "name", Str("")), GetOr(schema.entries, "description", Str("")), schema)
  }

  /** `_extract_tags_from_hf_item(item, schema)`: at most five item tags plus
      the schema's tags, as a set (unhashable item tags raise). */
  function HfItemTags(item: Value, schema: Value): (r: Outcome<set<Value>>)
    ensures r.Ok? <==> ItemTagPrefix(item).Ok? && SchemaTags(schema).Ok? &&
                       forall t :: t in ItemTagPrefix(item).value ==> Hashable(t)
    ensures r.Ok? ==> forall t :: t in r.value <==>
      (t in ItemTagPrefix(item).value || (t.Str? && t.s in SchemaTags(schema).value))
  {
    match ItemTagPrefix(item)
    case Raised => Raised
    case Ok(first) =>
      match SchemaTags(schema)
      case Raised => Raised
      case Ok(own) =>
        if exists k :: 0 <= k < |first| && !Hashable(first[k]) then Raised
        else
          assert forall t :: t in (set k | 0 <= k < |first| :: first[k]) <==> t in first by {
            forall t | t in first ensures t in (set k | 0 <= k < |first| :: first[k]) {
              var k :| 0 <= k < |first| && first[k] == t;
            }
          }
          Ok((set k | 0 <= k < |first| :: first[k]) + set l | l in own :: Str(l))
  }

  /** At most five of the tags come from the item itself. */
  lemma HfItemTagsFromItem(item: Value, schema: Value)
    requires HfItemTags(item, schema).Ok?
    ensures |set t | t in HfItemTags(item, schema).value && !(t.Str? && t.s in SchemaTags(schema).value)| <= 5
  {
    var first := ItemTagPrefix(item).value;
    var extra := set t | t in HfItemTags(item, schema).value && !(t.Str? && t.s in SchemaTags(schema).value);
    assert extra <= set k | 0 <= k < |first| :: first[k];
    SetOfSeqSize(first);
    SetSizeMonotone(extra, set k | 0 <= k < |first| :: first[k]);
  }

  lemma {:induction false} SetOfSeqSize<T>(xs: seq<T>)
    ensures |set k | 0 <= k < |xs| :: xs[k]| <= |xs|
    decreases |xs|
  {
    if xs != [] {
      var init := xs[..|xs| - 1];
      SetOfSeqSize(init);
      assert (set k | 0 <= k < |xs| :: xs[k]) == (set k | 0 <= k < |init| :: init[k]) + {xs[|xs| - 1]};
    }
  }

  lemma SetSizeMonotone<T>(a: set<T>, b: set<T>)
    requires a <= b
    ensures |a| <= |b|
  {
    assert b == a + (b - a);
  }

  // ---------------------------------------------------------------------
  // Search results and the scraped-result post-processing
  // ---------------------------------------------------------------------

  /** An `MCPSearchResult`. Its confidence is kept in thousandths, since
      halving a score in hundredths need not give whole hundredths. */
  datatype SearchResult = SearchResult(
    name: string,
    description: string,
    sourceUrl: string,
    tags: set<Value>,
    domain: Value,
    validated: bool,
    schema: Option<Value>,
    fileType: string,
    repository: Option<string>,
    stars: Option<int>,
    sourcePlatform: string,
    confidence: int)

  /** The parser the file type selects: `json.loads` for 'json', otherwise
      `yaml.safe_load`. */
  function ParseByFileType(s: WebScraper.ScrapedMcp): Option<Value> {
    if s.fileType == "json" then s.content.json else s.content.yaml
  }

  /** One scraped result turned into a search result: a parse failure keeps
      the item unvalidated at half confidence; a parsed schema is kept only
      when the validator accepts it. */
  function ToSearchResult(s: WebScraper.ScrapedMcp): (r: SearchResult)
    ensures r.name == s.name && r.description == s.description && r.sourceUrl == s.sourceUrl
    ensures r.tags == s.tags && r.domain == s.domain && r.fileType == s.fileType
    ensures r.repository == s.repository && r.stars == s.stars && r.sourcePlatform == "web_scraping"
    ensures r.validated <==> ParseByFileType(s).Some? && ValidateSchema(ParseByFileType(s).value) == Valid
    ensures r.validated ==> r.schema == ParseByFileType(s)
    ensures !r.validated ==> r.schema.None?
    ensures r.confidence == if ParseByFileType(s).None? then 5 * s.confidence else 10 * s.confidence
  {
    match ParseByFileType(s)
    case None =>
      SearchResult(s.name, s.description, s.sourceUrl, s.tags, s.domain, false, None,
                   s.fileType, s.repository, s.stars, "web_scraping", 5 * s.confidence)
    case Some(schema) =>
      var valid := ValidateSchema(schema) == Valid;
      SearchResult(s.name, s.description, s.sourceUrl, s.tags, s.domain, valid,
                   if valid then Some(schema) else None,
                   s.fileType, s.repository, s.stars, "web_scraping", 10 * s.confidence)
  }

  /** The conversion loop over the scraper's results, one `ToSearchResult`
      per item in order. */
  method ConvertScraped(items: seq<WebScraper.ScrapedMcp>) returns (results: seq<SearchResult>)
    ensures results == seq(|items|, k requires 0 <= k < |items| => ToSearchResult(items[k]))
  {
    results := [];
    var i := 0;
    while i < |items|
      invariant 0 <= i <= |items|
      invariant results == seq(i, k requires 0 <= k < i => ToSearchResult(items[k]))
    {
      results := results + [ToSearchResult(items[i])];
      i := i + 1;
    }
  }

  /** A stored schema always passes the strict validator and the loose check. */
  lemma StoredSchemaIsValid(s: WebScraper.ScrapedMcp)
    requires ToSearchResult(s).schema.Some?
    ensures ValidateSchema(ToSearchResult(s).schema.value) == Valid
    ensures WebScraper.IsValidMcpDocument(ToSearchResult(s).schema)
  {
    StrictImpliesLoose(ToSearchResult(s).schema.value);
  }

  /** The de-duplication key `(result.name.lower(), result.source_url)`. */
  function DedupKey(r: SearchResult): (string, string) {
    (Lower(r.name), r.sourceUrl)
  }

  /** `_deduplicate_results`: the loop with its `seen` set of keys. */
  method DeduplicateResults(results: seq<SearchResult>) returns (unique: seq<SearchResult>)
    ensures unique == Aggregation.FirstOccurrences(results, DedupKey)
  {
    unique := Aggregation.Deduplicate(results, DedupKey);
  }

  /** Names that differ only in letter case are duplicates. */
  lemma DedupIgnoresCase(a: SearchResult, b: SearchResult)
    requires Lower(a.name) == Lower(b.name) && a.sourceUrl == b.sourceUrl
    ensures Aggregation.FirstOccurrences([a, b], DedupKey) == [a]
  {
    Aggregation.FirstOccurrencesOfTwo(a, b, DedupKey);
  }

  function ConfidenceOf(): SearchResult -> int {
    (r: SearchResult) => r.confidence
  }

  /** The de-duplicated records. */
  function Unique(results: seq<SearchResult>): seq<SearchResult> {
    Aggregation.FirstOccurrences(results, DedupKey)
  }

  /** Everything after the searches: de-duplicate, sort by confidence, and
      keep the first `limit`. */
  function CombinedResults(results: seq<SearchResult>, limit: int): (r: seq<SearchResult>)
    ensures limit >= 0 ==> |r| <= limit
    ensures forall i, j :: 0 <= i < j < |r| ==> r[i].confidence >= r[j].confidence
    ensures forall x :: x in r ==> x in results
  {
    var unique := Unique(results);
    var r := Aggregation.Take(Aggregation.SortDesc(unique, ConfidenceOf()), limit);
    CombinedResultsFacts(results, limit, unique, r);
    r
  }

  /** The combined results are drawn from the de-duplicated records, have as
      many items as the slice allows, keep the keys distinct, keep ties in
      input order, and leave out no record more confident than one they
      keep. */
  lemma CombinedResultsSelection(results: seq<SearchResult>, limit: int)
    ensures var r := CombinedResults(results, limit);
      (limit >= 0 ==> |r| == Min(limit, |Unique(results)|)) &&
      (limit < 0 ==> |r| == if |Unique(results)| + limit < 0 then 0 else |Unique(results)| + limit) &&
      multiset(r) <= multiset(Unique(results)) &&
      (forall i, j :: 0 <= i < j < |r| ==> DedupKey(r[i]) != DedupKey(r[j])) &&
      (forall v :: Aggregation.WithScore(r, ConfidenceOf(), v) <= Aggregation.WithScore(Unique(results), ConfidenceOf(), v)) &&
      (forall x, y :: x in Unique(results) && x !in r && y in r ==> y.confidence >= x.confidence)
  {
    CombinedResultsFacts(results, limit, Unique(results), CombinedResults(results, limit));
  }

  lemma CombinedResultsFacts(results: seq<SearchResult>, limit: int, unique: seq<SearchResult>, r: seq<SearchResult>)
    requires unique == Aggregation.FirstOccurrences(results, DedupKey)
    requires r == Aggregation.Take(Aggregation.SortDesc(unique, ConfidenceOf()), limit)
    ensures limit >= 0 ==> |r| == Min(limit, |unique|)
    ensures limit < 0 ==> |r| == if |unique| + limit < 0 then 0 else |unique| + limit
    ensures multiset(r) <= multiset(unique)
    ensures forall i, j :: 0 <= i < j < |r| ==> DedupKey(r[i]) != DedupKey(r[j])
    ensures forall v :: Aggregation.WithScore(r, ConfidenceOf(), v) <= Aggregation.WithScore(unique, ConfidenceOf(), v)
    ensures forall x, y :: x in unique && x !in r && y in r ==> y.confidence >= x.confidence
    ensures forall i, j :: 0 <= i < j < |r| ==> r[i].confidence >= r[j].confidence
    ensures forall x :: x in r ==> x in results
  {
    var f := ConfidenceOf();
    Aggregation.DedupKeysDistinct(results, DedupKey);
    Aggregation.TopBySortedPrefix(unique, f, DedupKey, limit);
    assert Aggregation.KeysDistinct(r, DedupKey);
    var sorted := Aggregation.SortDesc(unique, f);
    assert |sorted| == |unique| by {
      Aggregation.SortDescCorrect(unique, f);
      assert |multiset(sorted)| == |multiset(unique)|;
    }
    forall i, j | 0 <= i < j < |r| ensures r[i].confidence >= r[j].confidence {
      assert f(r[i]) >= f(r[j]);
    }
    forall x, y | x in unique && x !in r && y in r ensures y.confidence >= x.confidence {
      assert f(y) >= f(x);
    }
    forall x | x in r ensures x in results {
      assert x in multiset(unique);
      Aggregation.DedupMembers(results, DedupKey, x);
    }
  }

  // ---------------------------------------------------------------------
  // The memory cache
  // ---------------------------------------------------------------------

  /** A cache entry: the cached results and the time they expire. */
  datatype CacheEntry = CacheEntry(data: seq<SearchResult>, expires: int)

  const DefaultTtl: int := 3600

  /** What `_get_cached_results` returns at time `now`. */
  function CacheLookup(cache: map<string, CacheEntry>, key: string, now: int): Option<seq<SearchResult>> {
    if key in cache && cache[key].expires > now then Some(cache[key].data) else None
  }

  /** The cache after that read: an expired entry is deleted, nothing else
      changes. */
  function AfterLookup(cache: map<string, CacheEntry>, key: string, now: int): map<string, CacheEntry> {
    if key in cache && !(cache[key].expires > now) then cache - {key} else cache
  }

  /** The cache after `_cache_results(key, data, ttl)` at time `now`. */
  function Stored(cache: map<string, CacheEntry>, key: string, data: seq<SearchResult>, now: int, ttl: int): map<string, CacheEntry> {
    cache[key := CacheEntry(data, now + ttl)]
  }

  /** What was stored is returned until `ttl` seconds have passed, and not
      from then on. */
  lemma StoredThenLookup(cache: map<string, CacheEntry>, key: string, data: seq<SearchResult>, now: int, ttl: int, later: int)
    ensures CacheLookup(Stored(cache, key, data, now, ttl), key, later) ==
            if later < now + ttl then Some(data) else None
  {
  }

  /** Storing under one key does not affect another. */
  lemma StoreKeepsOtherKeys(cache: map<string, CacheEntry>, key: string, other: string, data: seq<SearchResult>, now: int, ttl: int, later: int)
    requires other != key
    ensures CacheLookup(Stored(cache, key, data, now, ttl), other, later) == CacheLookup(cache, other, later)
  {
  }

  /** A read that misses because the entry expired removes it; a hit or an
      absent key leaves the cache as it was. */
  lemma LookupEvictsOnlyExpired(cache: map<string, CacheEntry>, key: string, now: int)
    ensures CacheLookup(cache, key, now).Some? ==> AfterLookup(cache, key, now) == cache
    ensures CacheLookup(cache, key, now).None? ==> key !in AfterLookup(cache, key, now)
    ensures forall k :: k in AfterLookup(cache, key, now) ==> k in cache && AfterLookup(cache, key, now)[k] == cache[k]
    ensures forall k :: k in cache && k != key ==> k in AfterLookup(cache, key, now)
  {
  }

  /** The API searches are asked for `limit // 2` results. */
  function ApiRequestSize(limit: int): (each: int)
    ensures 2 * each <= limit < 2 * each + 2
  {
    FloorDiv(limit, 2)
  }

  /** `f"mcp_search:{md5(f'{query}:{limit}')}"`, with the hash as the
      identity on its input. */
  function CacheKey(query: string, limit: int): string {
    "mcp_search:" + query + ":" + IntToString(limit)
  }

  /** Different searches use different cache keys. */
  lemma CacheKeyInjective(q1: string, l1: int, q2: string, l2: int)
    requires CacheKey(q1, l1) == CacheKey(q2, l2)
    ensures q1 == q2 && l1 == l2
  {
    var s := CacheKey(q1, l1);
    var n1 := IntToString(l1);
    var n2 := IntToString(l2);
    IntToStringHasNoColon(l1);
    IntToStringHasNoColon(l2);
    assert ("mcp_search:" + q1) + ":" + n1 == ("mcp_search:" + q2) + ":" + n2;
    SplitAtLastColon("mcp_search:" + q1, n1, "mcp_search:" + q2, n2);
    IntToStringInjective(l1, l2);
    assert q1 == ("mcp_search:" + q1)[11..];
    assert q2 == ("mcp_search:" + q2)[11..];
  }

  /** A string `a + ":" + b` whose `b` has no colon splits at its last colon. */
  lemma SplitAtLastColon(a1: string, b1: string, a2: string, b2: string)
    requires a1 + ":" + b1 == a2 + ":" + b2
    requires ':' !in b1 && ':' !in b2
    ensures a1 == a2 && b1 == b2
  {
    var s := a1 + ":" + b1;
    LastSegmentAfter(a1, ':', b1);
    LastSegmentAfter(a2, ':', b2);
    assert a1 == s[..|a1|] == a2;
  }

  predicate SortedByConfidence(data: seq<SearchResult>) {
    forall i, j :: 0 <= i < j < |data| ==> data[i].confidence >= data[j].confidence
  }

  /** Every entry written under the key of a search for `limit` results
      holds at most `limit` results, in decreasing confidence. */
  ghost predicate CacheInvariant(cache: map<string, CacheEntry>) {
    forall q, l :: CacheKey(q, l) in cache ==>
      (l >= 0 ==> |cache[CacheKey(q, l)].data| <= l) && SortedByConfidence(cache[CacheKey(q, l)].data)
  }

  /** A cache read, which may evict, keeps the invariant. */
  lemma LookupKeepsInvariant(cache: map<string, CacheEntry>, key: string, now: int)
    requires CacheInvariant(cache)
    ensures CacheInvariant(AfterLookup(cache, key, now))
  {
    var after := AfterLookup(cache, key, now);
    forall q, l | CacheKey(q, l) in after
      ensures CacheKey(q, l) in cache && after[CacheKey(q, l)] == cache[CacheKey(q, l)]
    {
    }
  }

  /** Storing at most `limit` results in decreasing confidence under the key
      of a search for `limit` keeps the invariant. */
  lemma StoreKeepsInvariant(cache: map<string, CacheEntry>, query: string, limit: int,
                            data: seq<SearchResult>, now: int, ttl: int)
    requires CacheInvariant(cache)
    requires (limit >= 0 ==> |data| <= limit) && SortedByConfidence(data)
    ensures CacheInvariant(Stored(cache, CacheKey(query, limit), data, now, ttl))
  {
    var stored := Stored(cache, CacheKey(query, limit), data, now, ttl);
    forall q, l | CacheKey(q, l) in stored
      ensures (l >= 0 ==> |stored[CacheKey(q, l)].data| <= l) && SortedByConfidence(stored[CacheKey(q, l)].data)
    {
      if CacheKey(q, l) == CacheKey(query, limit) {
        CacheKeyInjective(q, l, query, limit);
      } else {
        assert CacheKey(q, l) in cache;
      }
    }
  }

  /** The explorer and its in-memory cache (the Redis branch is not part of
      this model). */
  class Explorer {
    var memoryCache: map<string, CacheEntry>

    ghost predicate Valid()
      reads this
    {
      CacheInvariant(memoryCache)
    }

    constructor ()
      ensures memoryCache == map[] && Valid()
    {
      memoryCache := map[];
    }

    /** `_get_cached_results` with the memory cache. */
    method GetCachedResults(key: string, now: int) returns (r: Option<seq<SearchResult>>)
      modifies this
      ensures r == CacheLookup(old(memoryCache), key, now)
      ensures memoryCache == AfterLookup(old(memoryCache), key, now)
      ensures old(Valid()) ==> Valid()
    {
      ghost var before := memoryCache;
      if key in memoryCache {
        var entry := memoryCache[key];
        if entry.expires > now {
          return Some(entry.data);
        } else {
          memoryCache := memoryCache - {key};
        }
      }
      r := None;
      if CacheInvariant(before) {
        LookupKeepsInvariant(before, key, now);
      }
    }

    /** `_cache_results` with the memory cache. */
    method CacheResults(key: string, results: seq<SearchResult>, now: int, ttl: int := DefaultTtl)
      modifies this
      ensures memoryCache == Stored(old(memoryCache), key, results, now, ttl)
    {
      memoryCache := memoryCache[key := CacheEntry(results, now + ttl)];
    }

    /** `search_web_mcps(query, limit)` once the searches are done: `scraped`
        is what the web scraper returned (Raised if it raised), `apiResults`
        what the API searches, asked for `ApiRequestSize(limit)` results,
        returned; the cache is read at `readTime` and
        written at `writeTime`. */
    method SearchWebMcps(query: string, limit: int, readTime: int, writeTime: int,
                         scraped: Outcome<seq<WebScraper.ScrapedMcp>>, apiResults: seq<SearchResult>)
      returns (r: seq<SearchResult>)
      requires Valid()
      modifies this
      ensures Valid()
      ensures limit >= 0 ==> |r| <= limit
      ensures forall i, j :: 0 <= i < j < |r| ==> r[i].confidence >= r[j].confidence
      ensures var key := CacheKey(query, limit);
        var hit := CacheLookup(old(memoryCache), key, readTime);
        if hit.Some? && hit.value != [] then
          r == hit.value && memoryCache == old(memoryCache)
        else if scraped.Raised? then
          r == [] && memoryCache == AfterLookup(old(memoryCache), key, readTime)
        else
          r == CombinedResults(seq(|scraped.value|, i requires 0 <= i < |scraped.value| => ToSearchResult(scraped.value[i])) + apiResults, limit) &&
          memoryCache == Stored(AfterLookup(old(memoryCache), key, readTime), key, r, writeTime, DefaultTtl)
    {
      var key := CacheKey(query, limit);
      var cached := GetCachedResults(key, readTime);
      if cached.Some? && cached.value != [] {
        assert key in old(memoryCache) && cached.value == old(memoryCache)[key].data;
        return cached.value;
      }
      if scraped.Raised? {
        return [];
      }
      var results := ConvertScraped(scraped.value);
      results := results + apiResults;
      var unique := DeduplicateResults(results);
      r := Aggregation.Take(Aggregation.SortDesc(unique, ConfidenceOf()), limit);
      assert r == CombinedResults(results, limit);
      StoreKeepsInvariant(memoryCache, query, limit, r, writeTime, DefaultTtl);
      CacheResults(key, r, writeTime);
    }
  }
}
