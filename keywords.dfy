/**
 * Keyword tables: an ordered list of labels, each with the keywords that
 * select it. Domains are chosen by the first row with a keyword in the text
 * (dictionary order in the source); tags collect every row that matches.
 */
module Keywords {

  import opened Text

  datatype Row = Row(category: string, keywords: seq<string>)

  /** `any(keyword in text for keyword in keywords)` */
  predicate AnyOccurs(keywords: seq<string>, text: string) {
    exists k :: k in keywords && Contains(text, k)
  }

  /** Position of the first row with a keyword in `text`; `|table|` when no
      row matches. */
  function FirstMatchIndex(table: seq<Row>, text: string): (i: nat)
    ensures i <= |table|
    ensures i < |table| ==> AnyOccurs(table[i].keywords, text)
    ensures forall j :: 0 <= j < i ==> !AnyOccurs(table[j].keywords, text)
    decreases |table|
  {
    if table == [] then 0
    else if AnyOccurs(table[0].keywords, text) then 0
    else 1 + FirstMatchIndex(table[1..], text)
  }

  /** The category of the first matching row, or `fallback` when none matches. */
  function FirstMatchLabel(table: seq<Row>, text: string, fallback: string): (r: string)
    ensures (exists i :: 0 <= i < |table| && AnyOccurs(table[i].keywords, text)) ==>
              exists i :: 0 <= i < |table| && AnyOccurs(table[i].keywords, text) && r == table[i].category &&
                forall j :: 0 <= j < i ==> !AnyOccurs(table[j].keywords, text)
    ensures (forall i :: 0 <= i < |table| ==> !AnyOccurs(table[i].keywords, text)) ==> r == fallback
  {
    var i := FirstMatchIndex(table, text);
    if i < |table| then table[i].category else fallback
  }

  /** Labels of every row with a keyword in `text`. */
  function MatchingLabels(table: seq<Row>, text: string): set<string> {
    set i | 0 <= i < |table| && AnyOccurs(table[i].keywords, text) :: table[i].category
  }

  /** The loop `for tag, patterns in table.items(): if any(...): tags.add(tag)`. */
  method CollectMatching(table: seq<Row>, text: string) returns (found: set<string>)
    ensures found == MatchingLabels(table, text)
  {
    found := {};
    var r := 0;
    while r < |table|
      invariant 0 <= r <= |table|
      invariant found == MatchingLabels(table[..r], text)
    {
      if AnyOccurs(table[r].keywords, text) {
        found := found + {table[r].category};
      }
      assert MatchingLabels(table[..r + 1], text) ==
        MatchingLabels(table[..r], text) + (if AnyOccurs(table[r].keywords, text) then {table[r].category} else {});
      r := r + 1;
    }
    assert table[..r] == table;
  }

  /** The labels of a table. */
  function Labels(table: seq<Row>): set<string> {
    set i | 0 <= i < |table| :: table[i].category
  }
}
