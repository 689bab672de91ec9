/**
 * Decoded JSON (and YAML) values as the Python code sees them: numbers are
 * integers, objects are dicts with unique keys in document order.
 */
module Json {
  import opened Wrappers
  import opened OrderedDict
  import opened Text

  datatype Json =
    | JNull
    | JBool(b: bool)
    | JNum(n: int)
    | JStr(s: string)
    | JArr(items: seq<Json>)
    | JObj(members: ODict<string, Json>)

  /** Python truthiness: None, False, 0, "", [] and {} are false. */
  predicate Truthy(j: Json) {
    match j
    case JNull => false
    case JBool(b) => b
    case JNum(n) => n != 0
    case JStr(s) => s != []
    case JArr(items) => items != []
    case JObj(members) => members != []
  }

  /** `j[key]`: KeyError for a dict without key, TypeError for anything but a dict. */
  function Subscript(j: Json, key: string): (r: Result<Json>)
    ensures r.Ok? <==> j.JObj? && Get(j.members, key).Some?
    ensures r.Ok? ==> r.value == Get(j.members, key).value
    ensures r.Err? ==> r.error == (if j.JObj? then KeyError else TypeError)
  {
    if !j.JObj? then Err(TypeError)
    else match Get(j.members, key)
      case Some(v) => Ok(v)
      case None => Err(KeyError)
  }

  /** `j.get(key, dflt)`: AttributeError when j is not a dict. */
  function DictGet(j: Json, key: string, dflt: Json): (r: Result<Json>)
    ensures r.Ok? <==> j.JObj?
    ensures j.JObj? ==> r.value == (if Get(j.members, key).Some? then Get(j.members, key).value else dflt)
  {
    if !j.JObj? then Err(AttributeError)
    else match Get(j.members, key)
      case Some(v) => Ok(v)
      case None => Ok(dflt)
  }

  /** A dict in which `key` holds `v`. */
  predicate Holds(j: Json, key: string, v: Json) {
    j.JObj? && Get(j.members, key) == Some(v)
  }

  /**
   * `for x in j` (and `list += j`): a list gives its items, a string its
   * characters, a dict its keys; any other value is not iterable.
   */
  function Iterate(j: Json): (r: Result<seq<Json>>)
    ensures r.Ok? <==> j.JArr? || j.JStr? || j.JObj?
    ensures r.Err? ==> r.error == TypeError
    ensures j.JArr? ==> r == Ok(j.items)
    ensures j.JStr? ==> r.Ok? && |r.value| == |j.s| && forall i | 0 <= i < |j.s| :: r.value[i] == JStr([j.s[i]])
    ensures j.JObj? ==> r.Ok? && |r.value| == |j.members| && forall i | 0 <= i < |j.members| :: r.value[i] == JStr(j.members[i].0)
  {
    match j
    case JArr(items) => Ok(items)
    case JStr(s) => Ok(seq(|s|, i requires 0 <= i < |s| => JStr([s[i]])))
    case JObj(m) => Ok(seq(|m|, i requires 0 <= i < |m| => JStr(m[i].0)))
    case _ => Err(TypeError)
  }

  /** The truthy values, in order: `[x for x in items if x]`. */
  function TruthyItems(items: seq<Json>): (r: seq<Json>)
    ensures |r| <= |items|
    ensures forall x :: x in r <==> x in items && Truthy(x)
  {
    if items == [] then []
    else (if Truthy(items[0]) then [items[0]] else []) + TruthyItems(items[1..])
  }

  /** str() of the JSON values that pydantic accepts for a `str` field: strings, numbers and booleans. */
  function AsStr(j: Json): (r: Option<string>)
    ensures j.JStr? ==> r == Some(j.s)
    ensures r.None? <==> j.JNull? || j.JArr? || j.JObj?
  {
    match j
    case JStr(s) => Some(s)
    case JNum(n) => Some(IntToString(n))
    case JBool(b) => Some(if b then "True" else "False")
    case _ => None
  }


  // ------------------------------------------------------------------ str()

  /** str(): a string is itself; any other value is its repr(). */
  function PyStr(j: Json): (r: string)
    ensures j.JStr? ==> r == j.s
    ensures j.JNum? ==> r == IntToString(j.n)
    ensures j.JArr? ==> |r| >= 2 && r[0] == '[' && r[|r| - 1] == ']'
    ensures j.JObj? ==> |r| >= 2 && r[0] == '{' && r[|r| - 1] == '}'
  {
    if j.JStr? then j.s else Repr(j)
  }

  /**
   * repr() of a value: None, True, False, the digits of an integer, a quoted
   * string, and lists and dicts with their items' reprs separated by ", ".
   */
  function Repr(j: Json): string
    decreases j
  {
    match j
    case JNull => "None"
    case JBool(b) => if b then "True" else "False"
    case JNum(n) => IntToString(n)
    case JStr(s) => StrRepr(s)
    case JArr(items) => "[" + Listed(seq(|items|, i requires 0 <= i < |items| => Repr(items[i]))) + "]"
    case JObj(m) => "{" + Listed(seq(|m|, i requires 0 <= i < |m| => StrRepr(m[i].0) + ": " + Repr(m[i].1))) + "}"
  }

  /** The parts separated by ", ". */
  function Listed(parts: seq<string>): string {
    if parts == [] then ""
    else if |parts| == 1 then parts[0]
    else parts[0] + ", " + Listed(parts[1..])
  }

  /**
   * repr() of a str: in single quotes, or in double quotes when the text
   * holds a single quote and no double quote.
   */
  function StrRepr(s: string): (r: string)
    ensures |r| >= 2 && r[0] == r[|r| - 1] && (r[0] == '\'' || r[0] == '"')
  {
    var q := if '\'' in s && '"' !in s then '"' else '\'';
    [q] + Escaped(s, q) + [q]
  }

  function Escaped(s: string, q: char): string {
    if s == [] then [] else EscapedChar(s[0], q) + Escaped(s[1..], q)
  }

  /**
   * One character inside a repr: the backslash and the quote in use are
   * escaped, tab, newline and carriage return by name, and the other
   * control characters of Latin-1 (and the no-break space and soft hyphen,
   * which Python does not count printable) as \x and two hex digits.
   */
  function EscapedChar(c: char, q: char): string {
    if c == '\\' then "\\\\"
    else if c == q then ['\\', q]
    else if c == '\t' then "\\t"
    else if c == '\n' then "\\n"
    else if c == '\r' then "\\r"
    else if c as int < 0x20 || 0x7f <= c as int <= 0xa0 || c as int == 0xad then
      "\\x" + [HexDigit(c as int / 16), HexDigit(c as int % 16)]
    else [c]
  }

  function HexDigit(d: int): char
    requires 0 <= d < 16
  {
    if d < 10 then ('0' as int + d) as char else ('a' as int + d - 10) as char
  }
}
