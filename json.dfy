/**
 * JSON values as the backend builds them (dicts keep their insertion order) and
 * Python's `json.dumps` with its default arguments: separators ", " and ": ",
 * no indentation, and `ensure_ascii=True`, which escapes every character outside
 * the printable ASCII range.
 */
module Json {
  import opened Text
  import opened Wrappers
  import opened Errors

  datatype Json =
    | JNull
    | JBool(b: bool)
    | JInt(i: int)
    | JString(s: string)
    | JArray(items: seq<Json>)
    | JObject(members: seq<(string, Json)>)

  /** Python truthiness (`bool(value)`) of a decoded JSON value. */
  predicate Truthy(j: Json) {
    match j
    case JNull => false
    case JBool(b) => b
    case JInt(i) => i != 0
    case JString(s) => s != []
    case JArray(items) => items != []
    case JObject(members) => members != []
  }

  /** `d.get(key)` on a dict: the value stored under `key`, if any. */
  function Get(members: seq<(string, Json)>, key: string): (r: Option<Json>)
    ensures r.Some? <==> exists i :: 0 <= i < |members| && members[i].0 == key
    ensures r.Some? ==> exists i :: 0 <= i < |members| && members[i] == (key, r.value)
  {
    if members == [] then None
    else if members[0].0 == key then Some(members[0].1)
    else
      var r := Get(members[1..], key);
      assert forall i :: 1 <= i < |members| ==> members[i] == members[1..][i - 1];
      r
  }

  /** With no earlier entry under the same key, `d.get(k)` finds entry `i`. */
  lemma {:induction false} GetAt(members: seq<(string, Json)>, i: nat)
    requires i < |members|
    requires forall j :: 0 <= j < i ==> members[j].0 != members[i].0
    ensures Get(members, members[i].0) == Some(members[i].1)
  {
    if i > 0 {
      assert forall j :: 0 <= j < i - 1 ==> members[1..][j] == members[j + 1];
      GetAt(members[1..], i - 1);
    }
  }

  // ---------------------------------------------------------------------------
  // What Python does with a decoded value: `type(v).__name__`, `v[key]`,
  // `v.get(key, default)` and `for x in v`.
  // ---------------------------------------------------------------------------

  function TypeName(j: Json): string {
    match j
    case JNull => "NoneType"
    case JBool(_) => "bool"
    case JInt(_) => "int"
    case JString(_) => "str"
    case JArray(_) => "list"
    case JObject(_) => "dict"
  }

  /** `v[key]` with a string key: only a dict answers, a missing key raises `KeyError`. */
  function Subscript(j: Json, key: string): (r: Result<Json, Exc>)
    ensures j.JObject? && Get(j.members, key).Some? ==> r == Ok(Get(j.members, key).value)
    ensures j.JObject? && Get(j.members, key).None? ==> r == Err(KeyError(key))
    ensures !j.JObject? ==> r.Err? && r.error.TypeError?
  {
    match j
    case JObject(members) =>
      var v := Get(members, key);
      if v.Some? then Ok(v.value) else Err(KeyError(key))
    case JArray(_) => Err(TypeError("list indices must be integers or slices, not str"))
    case JString(_) => Err(TypeError("string indices must be integers, not 'str'"))
    case _ => Err(TypeError("'" + TypeName(j) + "' object is not subscriptable"))
  }

  /** `v.get(key, default)`: only a dict has the method. */
  function GetOr(j: Json, key: string, default: Json): (r: Result<Json, Exc>)
    ensures j.JObject? ==> r == Ok(if Get(j.members, key).Some? then Get(j.members, key).value else default)
    ensures !j.JObject? ==> r == Err(AttributeError("'" + TypeName(j) + "' object has no attribute 'get'"))
  {
    if j.JObject? then
      var v := Get(j.members, key);
      Ok(if v.Some? then v.value else default)
    else Err(AttributeError("'" + TypeName(j) + "' object has no attribute 'get'"))
  }

  /** The items `for x in v` visits: a list's elements, a dict's keys, a string's characters. */
  function Iterate(j: Json): (r: Result<seq<Json>, Exc>)
    ensures j.JArray? ==> r == Ok(j.items)
    ensures r.Err? <==> j.JNull? || j.JBool? || j.JInt?
  {
    match j
    case JArray(items) => Ok(items)
    case JObject(members) => Ok(seq(|members|, i requires 0 <= i < |members| => JString(members[i].0)))
    case JString(s) => Ok(seq(|s|, i requires 0 <= i < |s| => JString([s[i]])))
    case _ => Err(TypeError("'" + TypeName(j) + "' object is not iterable"))
  }

  /** Every character lies between the space and the tilde. */
  predicate Printable(s: string) {
    forall i :: 0 <= i < |s| ==> ' ' <= s[i] <= '~'
  }

  lemma PrintableConcat(a: string, b: string)
    requires Printable(a) && Printable(b)
    ensures Printable(a + b)
  {
    forall i | 0 <= i < |a + b| ensures ' ' <= (a + b)[i] <= '~' {
      if i >= |a| { assert (a + b)[i] == b[i - |a|]; }
    }
  }

  /** `'{0:04x}'.format(n)`: four lower-case hexadecimal digits. */
  function Hex4(n: nat): (r: string)
    requires n < 0x10000
    ensures |r| == 4 && Printable(r)
  {
    [HexDigit(n / 0x1000), HexDigit(n / 0x100 % 0x10), HexDigit(n / 0x10 % 0x10), HexDigit(n % 0x10)]
  }

  /**
   * How `ensure_ascii` writes one character: two-character escapes for the
   * quote, the backslash and five control characters, the printable ASCII
   * characters as themselves, everything else as `\uXXXX`, a character beyond
   * the Basic Multilingual Plane as a UTF-16 surrogate pair.
   */
  function EscapeChar(c: char): (r: string)
    ensures Printable(r)
    ensures ' ' <= c <= '~' && c != '"' && c != '\\' ==> r == [c]
  {
    if c == '"' then "\\\""
    else if c == '\\' then "\\\\"
    else if c == '\n' then "\\n"
    else if c == '\r' then "\\r"
    else if c == '\t' then "\\t"
    else if c == '\U{8}' then "\\b"
    else if c == '\U{C}' then "\\f"
    else if ' ' <= c <= '~' then [c]
    else if (c as int) < 0x10000 then "\\u" + Hex4(c as int)
    else
      var n := c as int - 0x10000;
      "\\u" + Hex4(0xD800 + n / 0x400) + "\\u" + Hex4(0xDC00 + n % 0x400)
  }

  /** The body of a JSON string literal for `s`. */
  function Escape(s: string): (r: string)
    ensures Printable(r)
  {
    if s == [] then ""
    else
      PrintableConcat(EscapeChar(s[0]), Escape(s[1..]));
      EscapeChar(s[0]) + Escape(s[1..])
  }

  /** Text with no quote, no backslash and no control or non-ASCII character is written as is. */
  lemma {:induction false} EscapePlain(s: string)
    requires Printable(s)
    requires forall i :: 0 <= i < |s| ==> s[i] != '"' && s[i] != '\\'
    ensures Escape(s) == s
  {
    if s != [] {
      EscapePlain(s[1..]);
    }
  }

  function Quote(s: string): (r: string)
    ensures Printable(r)
  {
    PrintableConcat("\"", Escape(s));
    PrintableConcat("\"" + Escape(s), "\"");
    "\"" + Escape(s) + "\""
  }

  /** `json.dumps(j)`. Its output is printable ASCII: no line break can occur in it. */
  function Dumps(j: Json): (r: string)
    ensures Printable(r)
    decreases j
  {
    match j
    case JNull => "null"
    case JBool(b) => if b then "true" else "false"
    case JInt(i) => IntToString(i)
    case JString(s) => Quote(s)
    case JArray(items) =>
      var inner := DumpsItems(items);
      PrintableConcat("[", inner);
      PrintableConcat("[" + inner, "]");
      "[" + inner + "]"
    case JObject(members) =>
      var inner := DumpsMembers(members);
      PrintableConcat("{", inner);
      PrintableConcat("{" + inner, "}");
      "{" + inner + "}"
  }

  /** The elements of a list, separated by ", ". */
  function DumpsItems(items: seq<Json>): (r: string)
    ensures Printable(r)
    decreases items
  {
    if items == [] then ""
    else if |items| == 1 then Dumps(items[0])
    else
      var head, tail := Dumps(items[0]), DumpsItems(items[1..]);
      PrintableConcat(head, ", ");
      PrintableConcat(head + ", ", tail);
      head + ", " + tail
  }

  /** The `"key": value` pairs of a dict, separated by ", ". */
  function DumpsMembers(members: seq<(string, Json)>): (r: string)
    ensures Printable(r)
    decreases members
  {
    if members == [] then ""
    else
      var (name, v) := members[0];
      assert members[0] in members;
      assert v < members[0];
      var key, value := Quote(name), Dumps(v);
      PrintableConcat(key, ": ");
      PrintableConcat(key + ": ", value);
      var pair := key + ": " + value;
      if |members| == 1 then pair
      else
        var tail := DumpsMembers(members[1..]);
        PrintableConcat(pair, ", ");
        PrintableConcat(pair + ", ", tail);
        pair + ", " + tail
  }

  /** A dumped value is never empty, which the event-stream data lines rely on. */
  lemma DumpsNonEmpty(j: Json)
    ensures Dumps(j) != []
  {
  }
}
