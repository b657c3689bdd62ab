/**
 * The deterministic part of the stand-alone web scraper (backend/web_scraper.py):
 * the loose "is this MCP-shaped" check, the metadata extractors, the
 * confidence scorer, de-duplication by content and URL, ranking by
 * relevance, and the merge of the five platform searches.
 */
module WebScraper {

  import opened Python
  import opened Text
  import opened Keywords
  import Aggregation

  /** A fetched file: its text and what the two parsers make of it
      (`json.loads(text)` and `yaml.safe_load(text)`, None where the parser
      raises). */
  datatype Content = Content(text: string, json: Option<Value>, yaml: Option<Value>)

  /** JSON first; YAML only when JSON fails; None when both fail. */
  function Load(c: Content): Option<Value> {
    if c.json.Some? then c.json else c.yaml
  }

  // ---------------------------------------------------------------------
  // The loose structure check
  // ---------------------------------------------------------------------

  predicate ToolShaped(t: Value) {
    t.Map? && HasKey(t.entries, "name") && HasKey(t.entries, "description")
  }

  /** The per-tool loop of the check: stops at the first tool that is not a
      dict with a name and a description. */
  function AllToolsShaped(tools: seq<Value>): (r: bool)
    ensures r <==> forall k :: 0 <= k < |tools| ==> ToolShaped(tools[k])
    decreases |tools|
  {
    if tools == [] then true
    else if !tools[0].Map? then false
    else if !HasKey(tools[0].entries, "name") || !HasKey(tools[0].entries, "description") then false
    else AllToolsShaped(tools[1..])
  }

  /** `_is_valid_mcp_content` on the loaded document (None: neither parser
      accepted the text). */
  function IsValidMcpDocument(data: Option<Value>): (r: bool)
    ensures r <==>
      data.Some? && data.value.Map? &&
      HasKey(data.value.entries, "name") && HasKey(data.value.entries, "tools") &&
      GetOr(data.value.entries, "tools", Null).List? &&
      forall t :: t in GetOr(data.value.entries, "tools", Null).items ==> ToolShaped(t)
  {
    if data.None? then false
    else if !data.value.Map? then false
    else
      var e := data.value.entries;
      if !HasKey(e, "name") || !HasKey(e, "tools") then false
      else
        match GetOr(e, "tools", Null)
        case List(tools) => AllToolsShaped(tools)
        case _ => false
  }

  function IsValidMcpContent(c: Content): bool {
    IsValidMcpDocument(Load(c))
  }

  /** Text that neither parser accepts is never MCP-shaped. */
  lemma UnparseableRejected(c: Content)
    requires c.json.None? && c.yaml.None?
    ensures !IsValidMcpContent(c)
  {
  }

  /** A document with a name and an empty tool list is accepted. */
  lemma EmptyToolListAccepted(name: Value)
    ensures IsValidMcpDocument(Some(Map([Entry(Str("name"), name), Entry(Str("tools"), List([]))])))
  {
    var e := [Entry(Str("name"), name), Entry(Str("tools"), List([]))];
    assert Lookup(e, Str("name")) == Some(name);
    assert Lookup(e, Str("tools")) == Some(List([]));
  }

  // ---------------------------------------------------------------------
  // Metadata extraction
  // ---------------------------------------------------------------------

  /** `data.get('name')`, None (`Null`) when loading or `.get` raises. */
  function ExtractName(c: Content): (r: Value)
    ensures Load(c).Some? && Load(c).value.Map? && HasKey(Load(c).value.entries, "name") ==>
              Lookup(Load(c).value.entries, Str("name")) == Some(r)
    ensures Load(c).Some? && Load(c).value.Map? && !HasKey(Load(c).value.entries, "name") ==> r == Null
    ensures !(Load(c).Some? && Load(c).value.Map?) ==> r == Null
  {
    match Load(c)
    case Some(Map(e)) => GetOr(e, "name", Null)
    case _ => Null
  }

  /** `data.get('description')`, None (`Null`) when loading or `.get` raises. */
  function ExtractDescription(c: Content): (r: Value)
    ensures Load(c).Some? && Load(c).value.Map? && HasKey(Load(c).value.entries, "description") ==>
              Lookup(Load(c).value.entries, Str("description")) == Some(r)
    ensures Load(c).Some? && Load(c).value.Map? && !HasKey(Load(c).value.entries, "description") ==> r == Null
    ensures !(Load(c).Some? && Load(c).value.Map?) ==> r == Null
  {
    match Load(c)
    case Some(Map(e)) => GetOr(e, "description", Null)
    case _ => Null
  }

  /** The domain table, in the order the source's dictionary lists it. */
  const DomainTable: seq<Row> := [
    Row("weather", ["weather", "climate", "forecast", "temperature"]),
    Row("finance", ["finance", "trading", "stock", "crypto", "payment"]),
    Row("travel", ["travel", "booking", "hotel", "flight", "airbnb"]),
    Row("productivity", ["calendar", "task", "note", "email", "schedule"]),
    Row("development", ["code", "git", "github", "deploy", "api"]),
    Row("social", ["social", "twitter", "facebook", "instagram", "post"]),
    Row("ecommerce", ["shop", "store", "product", "cart", "order"]),
    Row("data", ["data", "analytics", "database", "query", "search"]),
    Row("ai", ["ai", "ml", "llm", "gpt", "model"]),
    Row("communication", ["chat", "message", "slack", "discord", "teams"])
  ]

  /** The text domains are inferred from: `f"{name} {description}".lower()`. */
  function DomainText(e: seq<Entry>): string {
    Lower(PyStr(GetOr(e, "name", Str(""))) + " " + PyStr(GetOr(e, "description", Str(""))))
  }

  /** `_extract_domain_from_content`. An explicit `domain` entry is returned
      as it is (whatever its type); a document that is not a dict always
      ends in the handler that answers 'general'. */
  function ExtractDomainFromContent(c: Content): (r: Value)
    ensures Load(c).Some? && Load(c).value.Map? && HasKey(Load(c).value.entries, "domain") ==>
              Lookup(Load(c).value.entries, Str("domain")) == Some(r)
    ensures !(Load(c).Some? && Load(c).value.Map? && HasKey(Load(c).value.entries, "domain")) ==>
              r.Str? && (r.s == "general" || r.s in Labels(DomainTable))
  {
    match Load(c)
    case Some(Map(e)) =>
      if HasKey(e, "domain") then GetOr(e, "domain", Null)
      else Str(FirstMatchLabel(DomainTable, DomainText(e), "general"))
    case _ => Str("general")
  }

  /** Without an explicit domain, the first table row with a keyword in the
      name and description wins; without any, the domain is 'general'. */
  lemma DomainInference(c: Content, i: int)
    requires Load(c).Some? && Load(c).value.Map? && !HasKey(Load(c).value.entries, "domain")
    requires 0 <= i < |DomainTable|
    requires AnyOccurs(DomainTable[i].keywords, DomainText(Load(c).value.entries))
    requires forall j :: 0 <= j < i ==> !AnyOccurs(DomainTable[j].keywords, DomainText(Load(c).value.entries))
    ensures ExtractDomainFromContent(c) == Str(DomainTable[i].category)
  {
    var text := DomainText(Load(c).value.entries);
    var k := FirstMatchIndex(DomainTable, text);
  }

  lemma DomainDefault(c: Content)
    requires Load(c).Some? && Load(c).value.Map? && !HasKey(Load(c).value.entries, "domain")
    requires forall j :: 0 <= j < |DomainTable| ==> !AnyOccurs(DomainTable[j].keywords, DomainText(Load(c).value.entries))
    ensures ExtractDomainFromContent(c) == Str("general")
  {
  }

  // ---------------------------------------------------------------------
  // Tags
  // ---------------------------------------------------------------------

  const TagTable: seq<Row> := [
    Row("api", ["api", "rest", "endpoint"]),
    Row("web", ["web", "http", "url", "browser"]),
    Row("database", ["db", "database", "sql"]),
    Row("cloud", ["aws", "azure", "gcp", "cloud"]),
    Row("automation", ["auto", "script", "workflow"]),
    Row("integration", ["integrate", "connect", "sync"]),
    Row("realtime", ["realtime", "live", "stream"]),
    Row("security", ["auth", "security", "encrypt"]),
    Row("monitoring", ["monitor", "log", "metric"])
  ]

  /** How many items `set.update(items)` adds before the first unhashable one
      raises `TypeError`. */
  function HashablePrefixLen(items: seq<Value>): (n: nat)
    ensures n <= |items|
    ensures forall k :: 0 <= k < n ==> Hashable(items[k])
    ensures n < |items| ==> !Hashable(items[n])
    decreases |items|
  {
    if items == [] || !Hashable(items[0]) then 0 else 1 + HashablePrefixLen(items[1..])
  }

  /** `tool.get('name', '').lower().split('_')[0]`; None where `.get` or
      `.lower` raises. */
  function ToolPrefix(tool: Value): Option<string> {
    if !tool.Map? then None
    else match GetOr(tool.entries, "name", Str(""))
      case Str(s) => Some(SplitFirst(Lower(s), '_'))
      case _ => None
  }

  /** How many tools are processed before one raises. */
  function ToolPrefixLen(tools: seq<Value>): (n: nat)
    ensures n <= |tools|
    ensures forall k :: 0 <= k < n ==> ToolPrefix(tools[k]).Some?
    ensures n < |tools| ==> ToolPrefix(tools[n]).None?
    decreases |tools|
  {
    if tools == [] || ToolPrefix(tools[0]).None? then 0 else 1 + ToolPrefixLen(tools[1..])
  }

  /** The tags of the first `n` tools. */
  function ToolTags(tools: seq<Value>, n: nat): set<Value>
    requires n <= |tools| && forall k :: 0 <= k < n ==> ToolPrefix(tools[k]).Some?
  {
    set k | 0 <= k < n :: Str(ToolPrefix(tools[k]).value)
  }

  /** The text pattern tags are looked for in. */
  function TagText(title: string, description: string, e: seq<Entry>): string {
    Lower(title + " " + description + " " + PyStr(GetOr(e, "name", Str(""))) + " " +
          PyStr(GetOr(e, "description", Str(""))))
  }

  function PatternTags(text: string): set<Value> {
    set l | l in MatchingLabels(TagTable, text) :: Str(l)
  }

  /** The explicit tags of a dict document: the items of `data['tags']` when
      present (what iterating it yields), and no items when absent; None
      when it cannot be iterated. */
  function ExplicitTagItems(e: seq<Entry>): Option<seq<Value>> {
    if HasKey(e, "tags") then Iter(GetOr(e, "tags", Null)) else Some([])
  }

  /** What `_extract_tags_from_content` returns: the tags collected before
      the first exception, if any. */
  function TagsFromContent(c: Content, title: string, description: string): set<Value> {
    match Load(c)
    case None => {}
    case Some(data) =>
      if !data.Map? then {}
      else
        var e := data.entries;
        match ExplicitTagItems(e)
        case None => {}
        case Some(items) =>
          var n := HashablePrefixLen(items);
          var explicit := set k | 0 <= k < n :: items[k];
          if n < |items| then explicit
          else
            match Iter(GetOr(e, "tools", List([])))
            case None => explicit
            case Some(tools) =>
              var m := ToolPrefixLen(tools);
              if m < |tools| then explicit + ToolTags(tools, m)
              else explicit + ToolTags(tools, m) + PatternTags(TagText(title, description, e))
  }

  /** `tags.update(items)`: the items before the first unhashable one, and
      whether that one raised. */
  method UpdateTags(items: seq<Value>) returns (tags: set<Value>, raised: bool)
    ensures tags == set k | 0 <= k < HashablePrefixLen(items) :: items[k]
    ensures raised <==> HashablePrefixLen(items) < |items|
  {
    tags := {};
    var i := 0;
    while i < |items|
      invariant 0 <= i <= |items|
      invariant forall k :: 0 <= k < i ==> Hashable(items[k])
      invariant tags == set k | 0 <= k < i :: items[k]
    {
      if !Hashable(items[i]) {
        assert HashablePrefixLen(items) == i;
        return tags, true;
      }
      tags := tags + {items[i]};
      i := i + 1;
    }
    assert HashablePrefixLen(items) == |items|;
    raised := false;
  }

  /** The tool loop: each tool name's lower-cased prefix before `_`, until a
      tool raises. */
  method AddToolPrefixes(tools: seq<Value>) returns (prefixes: set<Value>, raised: bool)
    ensures prefixes == ToolTags(tools, ToolPrefixLen(tools))
    ensures raised <==> ToolPrefixLen(tools) < |tools|
  {
    prefixes := {};
    var j := 0;
    while j < |tools|
      invariant 0 <= j <= |tools|
      invariant forall k :: 0 <= k < j ==> ToolPrefix(tools[k]).Some?
      invariant prefixes == ToolTags(tools, j)
    {
      var tool := tools[j];
      if !tool.Map? {
        assert ToolPrefixLen(tools) == j;
        return prefixes, true;
      }
      var name := GetOr(tool.entries, "name", Str(""));
      if !name.Str? {
        assert ToolPrefixLen(tools) == j;
        return prefixes, true;
      }
      prefixes := prefixes + {Str(SplitFirst(Lower(name.s), '_'))};
      assert ToolTags(tools, j + 1) == ToolTags(tools, j) + {Str(ToolPrefix(tools[j]).value)};
      j := j + 1;
    }
    assert ToolPrefixLen(tools) == |tools|;
    raised := false;
  }

  /** `_extract_tags_from_content`: explicit tags, then tool prefixes, then
      pattern tags, stopping with what it has at the first exception. */
  method ExtractTagsFromContent(c: Content, title: string, description: string) returns (tags: set<Value>)
    ensures tags == TagsFromContent(c, title, description)
  {
    tags := {};
    var loaded := Load(c);
    if loaded.None? {
      return;
    }
    var data := loaded.value;
    var hasTags := In("tags", data);
    if hasTags.None? || !data.Map? {
      return;
    }
    var e := data.entries;
    var items := ExplicitTagItems(e);
    if items.None? {
      return;
    }
    var raised;
    tags, raised := UpdateTags(items.value);
    if raised {
      return;
    }
    var tools := Iter(GetOr(e, "tools", List([])));
    if tools.None? {
      return;
    }
    var prefixes;
    prefixes, raised := AddToolPrefixes(tools.value);
    tags := tags + prefixes;
    if raised {
      return;
    }
    var labels := CollectMatching(TagTable, TagText(title, description, e));
    tags := tags + set l | l in labels :: Str(l);
  }

  /** The name prefix of each tool, for tools that all have string names. */
  function NamePrefixes(tools: seq<Value>): set<Value>
    requires forall k :: 0 <= k < |tools| ==> tools[k].Map? && GetOr(tools[k].entries, "name", Str("")).Str?
  {
    set k | 0 <= k < |tools| :: Str(SplitFirst(Lower(GetOr(tools[k].entries, "name", Str("")).s), '_'))
  }

  /** For a dict whose explicit tags are hashable and whose tools all have
      string names, the tags are the union of the explicit tags, the tool
      name prefixes and the pattern tags. */
  lemma TagsOfWellFormedDocument(c: Content, title: string, description: string, explicit: seq<Value>, tools: seq<Value>)
    requires Load(c).Some? && Load(c).value.Map?
    requires ExplicitTagItems(Load(c).value.entries) == Some(explicit)
    requires forall k :: 0 <= k < |explicit| ==> Hashable(explicit[k])
    requires GetOr(Load(c).value.entries, "tools", List([])) == List(tools)
    requires forall k :: 0 <= k < |tools| ==> tools[k].Map? && GetOr(tools[k].entries, "name", Str("")).Str?
    ensures TagsFromContent(c, title, description) ==
      (set t | t in explicit) + NamePrefixes(tools) + PatternTags(TagText(title, description, Load(c).value.entries))
  {
    var n := HashablePrefixLen(explicit);
    var m := ToolPrefixLen(tools);
    assert n == |explicit|;
    assert m == |tools|;
    assert (set k | 0 <= k < n :: explicit[k]) == (set t | t in explicit) by {
      forall t | t in explicit ensures t in (set k | 0 <= k < n :: explicit[k]) {
        var k :| 0 <= k < |explicit| && explicit[k] == t;
      }
    }
    assert ToolTags(tools, m) == NamePrefixes(tools);
  }

  /** Every tag comes from an explicit tag, a tool-name prefix or the
      pattern table. */
  lemma TagsSound(c: Content, title: string, description: string, t: Value)
    requires t in TagsFromContent(c, title, description)
    ensures Load(c).Some? && Load(c).value.Map?
    ensures var e := Load(c).value.entries;
      (ExplicitTagItems(e).Some? && t in ExplicitTagItems(e).value) ||
      (exists tool :: tool in Iter(GetOr(e, "tools", List([]))).value && ToolPrefix(tool) == Some(t.s) && t.Str?) ||
      (t.Str? && t.s in Labels(TagTable))
  {
    assert Load(c).Some? && Load(c).value.Map?;
    var e := Load(c).value.entries;
    assert ExplicitTagItems(e).Some?;
    var items := ExplicitTagItems(e).value;
    var n := HashablePrefixLen(items);
    var explicit := set k | 0 <= k < n :: items[k];
    if t in explicit {
      var k :| 0 <= k < n && items[k] == t;
      assert t in items;
    } else {
      assert n == |items| && Iter(GetOr(e, "tools", List([]))).Some?;
      var tools := Iter(GetOr(e, "tools", List([]))).value;
      var m := ToolPrefixLen(tools);
      if t in ToolTags(tools, m) {
        var k :| 0 <= k < m && t == Str(ToolPrefix(tools[k]).value);
        assert tools[k] in tools;
      } else {
        PatternTagIsLabel(TagText(title, description, e), t);
      }
    }
  }

  lemma PatternTagIsLabel(text: string, t: Value)
    requires t in PatternTags(text)
    ensures t.Str? && t.s in Labels(TagTable)
  {
    var l :| l in MatchingLabels(TagTable, text) && t == Str(l);
    var i :| 0 <= i < |TagTable| && AnyOccurs(TagTable[i].keywords, text) && TagTable[i].category == l;
  }

  // ---------------------------------------------------------------------
  // Confidence
  // ---------------------------------------------------------------------

  /** Points (hundredths) collected so far, and whether an exception cut the
      computation short. */
  datatype Partial = Partial(points: nat, raised: bool)

  /** One pass of the tool loop: +0.05 for truthy parameters, then +0.05 for
      a description longer than 20; `.get` on a non-dict and `len` of a
      description without a length raise. */
  function ToolBonus(tool: Value): Partial {
    if !tool.Map? then Partial(0, true)
    else
      var p := if Truthy(GetOr(tool.entries, "parameters", Null)) then 5 else 0;
      match Len(GetOr(tool.entries, "description", Str("")))
      case None => Partial(p, true)
      case Some(n) => Partial(p + (if n > 20 then 5 else 0), false)
  }

  /** The points of the tool loop, up to and including the tool that raises. */
  function ToolPoints(tools: seq<Value>): Partial
    decreases |tools|
  {
    if tools == [] then Partial(0, false)
    else
      var prev := ToolPoints(tools[..|tools| - 1]);
      if prev.raised then prev
      else
        var b := ToolBonus(tools[|tools| - 1]);
        Partial(prev.points + b.points, b.raised)
  }

  /** Once the loop has raised, later tools do not count. */
  lemma {:induction false} ToolPointsStopAtRaise(tools: seq<Value>, i: nat)
    requires i <= |tools| && ToolPoints(tools[..i]).raised
    ensures ToolPoints(tools) == ToolPoints(tools[..i])
    decreases |tools| - i
  {
    if i < |tools| {
      assert tools[..i + 1][..i] == tools[..i];
      ToolPointsStopAtRaise(tools, i + 1);
    } else {
      assert tools[..i] == tools;
    }
  }

  /** +0.1 each for 'github.com' in the URL, '.mcp.' in the URL, and 'mcp' or
      'model context protocol' in the lower-cased title. */
  function SourcePoints(url: string, title: string): nat {
    (if Contains(url, "github.com") then 10 else 0) +
    (if Contains(url, ".mcp.") then 10 else 0) +
    (if Contains(Lower(title), "mcp") || Contains(Lower(title), "model context protocol") then 10 else 0)
  }

  /** Everything added to the base score of 0.5 before an exception, if any. */
  function DocumentPoints(data: Option<Value>, url: string, title: string): nat {
    match data
    case None => 0
    case Some(d) =>
      if !d.Map? then 0
      else
        var e := d.entries;
        var completeness := (if Truthy(GetOr(e, "description", Null)) then 10 else 0) +
                            (if Truthy(GetOr(e, "version", Null)) then 10 else 0);
        var tools := GetOr(e, "tools", List([]));
        match Len(tools)
        case None => completeness
        case Some(count) =>
          var tp := ToolPoints(Iter(tools).value);
          var before := completeness + (if count > 1 then 10 else 0) + tp.points;
          if tp.raised then before else before + SourcePoints(url, title)
  }

  /** `_calculate_confidence_score`, in hundredths. */
  function ConfidenceScore(c: Content, url: string, title: string): int {
    Min(50 + DocumentPoints(Load(c), url, title), 100)
  }

  /** The tool loop of the scorer: the points it adds and whether a tool
      raised. */
  method ScoreTools(tools: seq<Value>) returns (points: nat, raised: bool)
    ensures Partial(points, raised) == ToolPoints(tools)
  {
    points := 0;
    var i := 0;
    while i < |tools|
      invariant 0 <= i <= |tools|
      invariant ToolPoints(tools[..i]) == Partial(points, false)
    {
      assert tools[..i + 1][..i] == tools[..i];
      var tool := tools[i];
      if !tool.Map? {
        ToolPointsStopAtRaise(tools, i + 1);
        return points, true;
      }
      if Truthy(GetOr(tool.entries, "parameters", Null)) {
        points := points + 5;
      }
      var descLen := Len(GetOr(tool.entries, "description", Str("")));
      if descLen.None? {
        ToolPointsStopAtRaise(tools, i + 1);
        return points, true;
      }
      if descLen.value > 20 {
        points := points + 5;
      }
      i := i + 1;
    }
    assert tools[..i] == tools;
    raised := false;
  }

  /** The scorer as the source writes it: a running score and an exception
      handler that keeps what was added so far. */
  method CalculateConfidenceScore(c: Content, url: string, title: string) returns (score: int)
    ensures score == ConfidenceScore(c, url, title)
    ensures 50 <= score <= 100
  {
    score := 50;
    var loaded := Load(c);
    if loaded.None? || !loaded.value.Map? {
      return;
    }
    var e := loaded.value.entries;
    if Truthy(GetOr(e, "description", Null)) {
      score := score + 10;
    }
    if Truthy(GetOr(e, "version", Null)) {
      score := score + 10;
    }
    var count := Len(GetOr(e, "tools", List([])));
    if count.None? {
      score := Min(score, 100);
      return;
    }
    if count.value > 1 {
      score := score + 10;
    }
    var points, raised := ScoreTools(Iter(GetOr(e, "tools", List([]))).value);
    score := score + points;
    if !raised {
      if Contains(url, "github.com") {
        score := score + 10;
      }
      if Contains(url, ".mcp.") {
        score := score + 10;
      }
      if Contains(Lower(title), "mcp") || Contains(Lower(title), "model context protocol") {
        score := score + 10;
      }
    }
    score := Min(score, 100);
  }

  predicate HasParameters(tool: Value) {
    tool.Map? && Truthy(GetOr(tool.entries, "parameters", Null))
  }

  predicate HasLongDescription(tool: Value) {
    tool.Map? && match Len(GetOr(tool.entries, "description", Str("")))
      case Some(n) => n > 20
      case None => false
  }

  /** A tool the loop gets through without raising. */
  predicate ToolScorable(tool: Value) {
    tool.Map? && Len(GetOr(tool.entries, "description", Str(""))).Some?
  }

  /** Without exceptions the tool loop adds 0.05 per tool with parameters and
      0.05 per tool with a long description. */
  lemma {:induction false} ToolPointsCount(tools: seq<Value>)
    requires forall k :: 0 <= k < |tools| ==> ToolScorable(tools[k])
    ensures ToolPoints(tools) ==
      Partial(5 * |Aggregation.KeepWhere(tools, HasParameters)| +
              5 * |Aggregation.KeepWhere(tools, HasLongDescription)|, false)
    decreases |tools|
  {
    if tools != [] {
      ToolPointsCount(tools[..|tools| - 1]);
    }
  }

  /** The increment table: for a dict whose tools all get through the loop,
      the score is min(0.5 + the increments that apply, 1.0). */
  lemma ConfidenceFormula(c: Content, url: string, title: string, e: seq<Entry>, tools: seq<Value>)
    requires Load(c) == Some(Map(e))
    requires GetOr(e, "tools", List([])) == List(tools)
    requires forall k :: 0 <= k < |tools| ==> ToolScorable(tools[k])
    ensures ConfidenceScore(c, url, title) == Min(50 +
      (if Truthy(GetOr(e, "description", Null)) then 10 else 0) +
      (if Truthy(GetOr(e, "version", Null)) then 10 else 0) +
      (if |tools| > 1 then 10 else 0) +
      5 * |Aggregation.KeepWhere(tools, HasParameters)| +
      5 * |Aggregation.KeepWhere(tools, HasLongDescription)| +
      (if Contains(url, "github.com") then 10 else 0) +
      (if Contains(url, ".mcp.") then 10 else 0) +
      (if Contains(Lower(title), "mcp") || Contains(Lower(title), "model context protocol") then 10 else 0), 100)
  {
    ToolPointsCount(tools);
    DocumentPointsOfDict(e, url, title, tools);
  }

  lemma DocumentPointsOfDict(e: seq<Entry>, url: string, title: string, tools: seq<Value>)
    requires GetOr(e, "tools", List([])) == List(tools)
    requires !ToolPoints(tools).raised
    ensures DocumentPoints(Some(Map(e)), url, title) ==
      (if Truthy(GetOr(e, "description", Null)) then 10 else 0) +
      (if Truthy(GetOr(e, "version", Null)) then 10 else 0) +
      (if |tools| > 1 then 10 else 0) + ToolPoints(tools).points + SourcePoints(url, title)
  {
    assert Len(List(tools)) == Some(|tools|);
  }

  /** A scorer exception keeps the base score: text that does not load, or a
      document that is not a dict, scores exactly 0.5. */
  lemma ConfidenceOfUnusableDocument(c: Content, url: string, title: string)
    requires Load(c).None? || !Load(c).value.Map?
    ensures ConfidenceScore(c, url, title) == 50
  {
  }

  // ---------------------------------------------------------------------
  // Results, de-duplication and ranking
  // ---------------------------------------------------------------------

  /** A `ScrapedMCP` record (the never-set `last_updated` and `author` are
      omitted). */
  datatype ScrapedMcp = ScrapedMcp(
    name: string,
    description: string,
    sourceUrl: string,
    content: Content,
    fileType: string,
    domain: Value,
    tags: set<Value>,
    confidence: int,
    repository: Option<string>,
    stars: Option<int>)

  /** The de-duplication key: the md5 of `f"{content}{source_url}"`, so the
      concatenation of both strings. */
  function DedupKey(r: ScrapedMcp): string {
    r.content.text + r.sourceUrl
  }

  method DeduplicateResults(results: seq<ScrapedMcp>) returns (unique: seq<ScrapedMcp>)
    ensures unique == Aggregation.FirstOccurrences(results, DedupKey)
  {
    unique := Aggregation.Deduplicate(results, DedupKey);
  }

  /** The key is a plain concatenation: two results whose content and URL
      differ but concatenate to the same text count as duplicates. */
  lemma DedupKeyConcatenates(a: ScrapedMcp, b: ScrapedMcp)
    requires a.content.text == "ab" && a.sourceUrl == "c"
    requires b.content.text == "a" && b.sourceUrl == "bc"
    ensures DedupKey(a) == DedupKey(b) && |Aggregation.FirstOccurrences([a, b], DedupKey)| == 1
  {
    assert [a, b][..1] == [a];
    assert [a][..0] == [];
    assert Aggregation.KeySet([a], DedupKey) == {DedupKey(a)};
    assert Aggregation.FirstOccurrences([a], DedupKey) == [a];
  }

  const PreferredDomains: seq<Value> := [Str("ai"), Str("development"), Str("productivity")]

  /** `relevance_score` in `_rank_results`, in hundredths. */
  function Relevance(r: ScrapedMcp, query: string): int {
    r.confidence +
    (if Contains(Lower(r.name), Lower(query)) then 20 else 0) +
    (if Contains(Lower(r.description), Lower(query)) then 10 else 0) +
    (if r.domain in PreferredDomains then 5 else 0)
  }

  function RelevanceOf(query: string): ScrapedMcp -> int {
    r => Relevance(r, query)
  }

  /** `_rank_results`: the results, ordered by decreasing relevance, ties in
      input order, records themselves untouched. */
  function RankResults(results: seq<ScrapedMcp>, query: string): (ranked: seq<ScrapedMcp>)
    ensures multiset(ranked) == multiset(results)
    ensures forall i, j :: 0 <= i < j < |ranked| ==> Relevance(ranked[i], query) >= Relevance(ranked[j], query)
    ensures forall v :: Aggregation.WithScore(ranked, RelevanceOf(query), v) == Aggregation.WithScore(results, RelevanceOf(query), v)
  {
    Aggregation.SortDescCorrect(results, RelevanceOf(query));
    Aggregation.SortDesc(results, RelevanceOf(query))
  }

  /** A relevance bonus puts a result ahead of every less relevant one. */
  lemma MoreRelevantFirst(results: seq<ScrapedMcp>, query: string, i: int, j: int)
    requires var ranked := RankResults(results, query);
      0 <= i < |ranked| && 0 <= j < |ranked| &&
      Relevance(ranked[i], query) > Relevance(ranked[j], query)
    ensures i < j
  {
  }

  // ---------------------------------------------------------------------
  // The search merge
  // ---------------------------------------------------------------------

  datatype Platform = GitHub | GitLab | HuggingFace | AwesomeLists | GeneralWeb

  /** The five searches `search_web_mcps` starts, each asked for
      `max_results // 4` results. */
  function SearchPlan(maxResults: int): (plan: seq<(Platform, int)>)
    ensures |plan| == 5
    ensures forall k :: 0 <= k < 5 ==> 4 * plan[k].1 <= maxResults < 4 * plan[k].1 + 4
  {
    var each := FloorDiv(maxResults, 4);
    [(GitHub, each), (GitLab, each), (HuggingFace, each), (AwesomeLists, each), (GeneralWeb, each)]
  }

  /** What `asyncio.gather(..., return_exceptions=True)` returned for one search. */
  datatype SourceOutcome = Found(results: seq<ScrapedMcp>) | Failed

  /** The results of the searches that succeeded, concatenated in order. */
  function Gathered(outcomes: seq<SourceOutcome>): seq<ScrapedMcp>
    decreases |outcomes|
  {
    if outcomes == [] then []
    else
      var last := outcomes[|outcomes| - 1];
      Gathered(outcomes[..|outcomes| - 1]) + (if last.Found? then last.results else [])
  }

  lemma {:induction false} GatheredMembers(outcomes: seq<SourceOutcome>, x: ScrapedMcp)
    requires x in Gathered(outcomes)
    ensures exists k :: 0 <= k < |outcomes| && outcomes[k].Found? && x in outcomes[k].results
    decreases |outcomes|
  {
    var n := |outcomes| - 1;
    var init := outcomes[..n];
    if x in Gathered(init) {
      GatheredMembers(init, x);
      var k :| 0 <= k < |init| && init[k].Found? && x in init[k].results;
      assert outcomes[k] == init[k];
    }
  }

  /** `search_web_mcps` after the searches: merge, de-duplicate, rank and
      truncate. */
  method SearchWebMcps(query: string, maxResults: int, outcomes: seq<SourceOutcome>) returns (r: seq<ScrapedMcp>)
    requires |outcomes| == |SearchPlan(maxResults)|
    ensures r == Aggregation.Take(RankResults(Aggregation.FirstOccurrences(Gathered(outcomes), DedupKey), query), maxResults)
    ensures maxResults >= 0 ==> |r| <= maxResults
    ensures forall x :: x in r ==> exists k :: 0 <= k < |outcomes| && outcomes[k].Found? && x in outcomes[k].results
    ensures forall i, j :: 0 <= i < j < |r| ==> Relevance(r[i], query) >= Relevance(r[j], query)
  {
    var allResults: seq<ScrapedMcp> := [];
    var i := 0;
    while i < |outcomes|
      invariant 0 <= i <= |outcomes|
      invariant allResults == Gathered(outcomes[..i])
    {
      assert outcomes[..i + 1][..i] == outcomes[..i];
      if outcomes[i].Found? {
        allResults := allResults + outcomes[i].results;
      }
      i := i + 1;
    }
    assert outcomes[..i] == outcomes;
    var unique := DeduplicateResults(allResults);
    var ranked := RankResults(unique, query);
    r := Aggregation.Take(ranked, maxResults);
    forall x | x in r
      ensures exists k :: 0 <= k < |outcomes| && outcomes[k].Found? && x in outcomes[k].results
    {
      assert x in ranked;
      assert x in multiset(ranked);
      assert x in unique;
      Aggregation.DedupMembers(allResults, DedupKey, x);
      GatheredMembers(outcomes, x);
    }
  }

  // ---------------------------------------------------------------------
  // GitHub links
  // ---------------------------------------------------------------------

  /** The raw-file URL `_parse_github_result` fetches for a `/blob/` link;
      None for other links, which go through the repository search. */
  function RawFileUrl(url: string): Option<string> {
    if Contains(url, "/blob/") then Some(ReplaceAll(url, "/blob/", "/raw/")) else None
  }

  /** A link with one `/blob/` segment is fetched from the same path with
      `/raw/` in its place. */
  lemma RawFileUrlOfBlobLink(pre: string, rest: string)
    requires forall i :: 0 <= i < |pre| ==> !("/blob/" <= (pre + "/blob/" + rest)[i..])
    requires !Contains(rest, "/blob/")
    ensures RawFileUrl(pre + "/blob/" + rest) == Some(pre + "/raw/" + rest)
  {
    var url := pre + "/blob/" + rest;
    assert url[|pre|..|pre| + 6] == "/blob/";
    ContainsAt(url, "/blob/", |pre|);
    ReplaceLeftmost(pre, "/blob/", "/raw/", rest);
    ReplaceAbsent(rest, "/blob/", "/raw/");
  }

  /** A link without `/blob/` is not fetched as a file. */
  lemma RawFileUrlOfOtherLink(url: string)
    requires !Contains(url, "/blob/")
    ensures RawFileUrl(url).None?
  {
  }
}
