/**
 * What `json.loads` and `yaml.safe_load` hand to the discovery code, and the
 * Python built-ins the code applies to it: dictionary lookup, `dict.get`,
 * the `in` operator, truthiness, `len`, iteration, hashing into a set and
 * `str()` inside f-strings.
 */
module Python {

  import opened Text

  datatype Option<+T> = None | Some(value: T)

  /** The outcome of a Python expression that may raise: a value, or an
      exception (of whatever class) that the caller's handler sees. */
  datatype Outcome<+T> = Ok(value: T) | Raised

  /** A parsed document. A dict keeps its entries in insertion order; floats
      are not represented. The JSON and YAML parsers never produce two
      entries with the same key, so `Lookup` taking the first one and `Len`
      counting entries agree with a Python dict on every parsed document. */
  datatype Value =
    | Map(entries: seq<Entry>)
    | List(items: seq<Value>)
    | Str(s: string)
    | Int(i: int)
    | Bool(b: bool)
    | Null

  datatype Entry = Entry(key: Value, val: Value)

  /** `d[key]`: the value stored under `key`, None when `KeyError` would be raised. */
  function Lookup(entries: seq<Entry>, key: Value): (r: Option<Value>)
    ensures r.Some? <==> exists i :: 0 <= i < |entries| && entries[i].key == key
    ensures r.Some? ==> Entry(key, r.value) in entries
    decreases |entries|
  {
    if entries == [] then None
    else if entries[0].key == key then Some(entries[0].val)
    else Lookup(entries[1..], key)
  }

  /** `key in d` for a string key */
  predicate HasKey(entries: seq<Entry>, key: string) {
    Lookup(entries, Str(key)).Some?
  }

  /** `d.get(key, default)` for a string key */
  function GetOr(entries: seq<Entry>, key: string, default: Value): Value {
    match Lookup(entries, Str(key))
    case Some(v) => v
    case None => default
  }

  /** `d.get(key, default)` on a value the code believes to be a dict: anything
      else has no `get` attribute and raises. */
  function Get(d: Value, key: string, default: Value): (r: Outcome<Value>)
    ensures r.Ok? <==> d.Map?
    ensures d.Map? && !HasKey(d.entries, key) ==> r == Ok(default)
  {
    if d.Map? then Ok(GetOr(d.entries, key, default)) else Raised
  }

  /** `bool(v)` */
  predicate Truthy(v: Value) {
    match v
    case Map(entries) => entries != []
    case List(items) => items != []
    case Str(s) => s != ""
    case Int(i) => i != 0
    case Bool(b) => b
    case Null => false
  }

  /** Only strings, numbers, booleans and None can go into a Python set or be
      a dictionary key. */
  predicate Hashable(v: Value) {
    !v.Map? && !v.List?
  }

  /** `for x in v`: a dict yields its keys, a string its characters; integers,
      booleans and None are not iterable. */
  function Iter(v: Value): Option<seq<Value>> {
    match v
    case Map(entries) => Some(seq(|entries|, i requires 0 <= i < |entries| => entries[i].key))
    case List(items) => Some(items)
    case Str(s) => Some(seq(|s|, i requires 0 <= i < |s| => Str([s[i]])))
    case _ => None
  }

  /** `len(v)`: defined exactly for what can be iterated, and equal to the
      number of items an iteration yields. */
  function Len(v: Value): (r: Option<nat>)
    ensures r.Some? <==> Iter(v).Some?
    ensures r.Some? ==> r.value == |Iter(v).value|
  {
    match v
    case Map(entries) => Some(|entries|)
    case List(items) => Some(|items|)
    case Str(s) => Some(|s|)
    case _ => None
  }

  /** `key in container` for a string key: a key of a dict, an element of a
      list, a substring of a string; `TypeError` (None) otherwise. */
  function In(key: string, container: Value): (r: Option<bool>)
    ensures r.Some? <==> Iter(container).Some?
    ensures container.Map? ==> r == Some(HasKey(container.entries, key))
    ensures container.List? ==> r == Some(Str(key) in container.items)
  {
    match container
    case Map(entries) => Some(HasKey(entries, key))
    case List(items) => Some(Str(key) in items)
    case Str(s) => Some(Contains(s, key))
    case _ => None
  }

  function Join(parts: seq<string>, sep: string): string
    decreases |parts|
  {
    if parts == [] then ""
    else if |parts| == 1 then parts[0]
    else parts[0] + sep + Join(parts[1..], sep)
  }

  /** `str(v)`, as an f-string placeholder renders it. */
  function PyStr(v: Value): string {
    if v.Str? then v.s else Repr(v)
  }

  /** `repr(v)` (strings are quoted but not escaped). */
  function Repr(v: Value): string
    decreases v
  {
    match v
    case Map(entries) =>
      "{" + Join(seq(|entries|, i requires 0 <= i < |entries| =>
                       Repr(entries[i].key) + ": " + Repr(entries[i].val)), ", ") + "}"
    case List(items) =>
      "[" + Join(seq(|items|, i requires 0 <= i < |items| => Repr(items[i])), ", ") + "]"
    case Str(s) => "'" + s + "'"
    case Int(i) => IntToString(i)
    case Bool(b) => if b then "True" else "False"
    case Null => "None"
  }

  /** Python's `a // b` for a positive divisor. */
  function FloorDiv(a: int, b: int): (q: int)
    requires b > 0
    ensures b * q <= a < b * q + b
  {
    a / b
  }

  function Min(a: int, b: int): int {
    if a <= b then a else b
  }
}
