/**
 A reader of compact JSON, written from RFC 8259 and independent of the writer: the value that a text stands for.
 */
module JsonReader {
  import opened Domain
  import opened JsonValue

  /** A value and the text after it. */
  type Reading<T> = Option<(T, string)>

  // ---- strings: section 7 ----

  /** The character behind a two-character escape. */
  function Escape(c: char): Option<char> {
    match c
    case '"' => Some('"')
    case '\\' => Some('\\')
    case '/' => Some('/')
    case 'b' => Some(0x08 as char)
    case 'f' => Some(0x0C as char)
    case 'n' => Some(0x0A as char)
    case 'r' => Some(0x0D as char)
    case 't' => Some(0x09 as char)
    case _ => None
  }

  function HexValue(c: char): Option<nat> {
    if '0' <= c <= '9' then Some(c as int - 0x30)
    else if 'A' <= c <= 'F' then Some(c as int - 0x41 + 10)
    else if 'a' <= c <= 'f' then Some(c as int - 0x61 + 10)
    else None
  }

  /** The code unit of four hexadecimal digits; a surrogate is half a character and no character by itself. */
  function CodeUnit(s: string): Option<char>
    requires |s| == 4
  {
    var a, b, c, d := HexValue(s[0]), HexValue(s[1]), HexValue(s[2]), HexValue(s[3]);
    if a.None? || b.None? || c.None? || d.None? then None
    else
      var n := ((a.value * 16 + b.value) * 16 + c.value) * 16 + d.value;
      if n < 0xD800 || 0xE000 <= n < 0x1_0000 then Some(n as char) else None
  }

  /** One character of a string, escaped or not. A quote, a backslash and a control character must be escaped. */
  function ReadChar(s: string): (r: Reading<char>)
    ensures r.Some? ==> |r.value.1| < |s|
  {
    if s == [] || s[0] == '"' || s[0] as int < 0x20 then None
    else if s[0] != '\\' then Some((s[0], s[1..]))
    else if |s| >= 6 && s[1] == 'u' then
      var c := CodeUnit(s[2..6]);
      if c.None? then None else Some((c.value, s[6..]))
    else if |s| >= 2 && Escape(s[1]).Some? then Some((Escape(s[1]).value, s[2..]))
    else None
  }

  /** The characters up to the closing quote. */
  function ReadChars(s: string): (r: Reading<string>)
    ensures r.Some? ==> |r.value.1| < |s|
    decreases |s|
  {
    if s != [] && s[0] == '"' then Some(([], s[1..]))
    else
      var c := ReadChar(s);
      if c.None? then None
      else
        var more := ReadChars(c.value.1);
        if more.None? then None else Some(([c.value.0] + more.value.0, more.value.1))
  }

  // ---- numbers ----

  predicate InNumber(c: char) {
    '0' <= c <= '9' || c == '+' || c == '-' || c == '.' || c == 'e' || c == 'E'
  }

  /** A number is kept as its text, which runs on as long as it can. */
  function ReadDigits(s: string): (r: (string, string))
    ensures |r.0| + |r.1| == |s|
    decreases |s|
  {
    if s != [] && InNumber(s[0]) then
      var more := ReadDigits(s[1..]);
      ([s[0]] + more.0, more.1)
    else ([], s)
  }

  // ---- values: sections 3 to 5 ----

  function Word(s: string, word: string, v: Json): (r: Reading<Json>)
    requires word != []
    ensures r.Some? ==> |r.value.1| < |s|
  {
    if |s| >= |word| && s[..|word|] == word then Some((v, s[|word|..])) else None
  }

  function ReadValue(s: string): (r: Reading<Json>)
    ensures r.Some? ==> |r.value.1| < |s|
    decreases |s|, 0
  {
    if s == [] then None
    else if s[0] == 'n' then Word(s, "null", Null)
    else if s[0] == 't' then Word(s, "true", Bool(true))
    else if s[0] == 'f' then Word(s, "false", Bool(false))
    else if s[0] == '"' then
      var r := ReadChars(s[1..]);
      if r.None? then None else Some((String(r.value.0), r.value.1))
    else if s[0] == '[' then
      var r := ReadList(s[1..]);
      if r.None? then None else Some((Array(r.value.0), r.value.1))
    else if s[0] == '{' then
      var r := ReadMembers(s[1..]);
      if r.None? then None else Some((Object(r.value.0), r.value.1))
    else if s[0] == '-' || '0' <= s[0] <= '9' then
      var r := ReadDigits(s);
      Some((Number(r.0), r.1))
    else None
  }

  /** The values of an array up to its closing bracket. */
  function ReadList(s: string): (r: Reading<seq<Json>>)
    ensures r.Some? ==> |r.value.1| < |s|
    decreases |s|, 2
  {
    if s != [] && s[0] == ']' then Some(([], s[1..])) else ReadSome(s)
  }

  /** At least one value, separated by commas, up to the closing bracket. */
  function ReadSome(s: string): (r: Reading<seq<Json>>)
    ensures r.Some? ==> |r.value.1| < |s|
    decreases |s|, 1
  {
    var v := ReadValue(s);
    if v.None? || v.value.1 == [] then None
    else if v.value.1[0] == ']' then Some(([v.value.0], v.value.1[1..]))
    else if v.value.1[0] != ',' then None
    else
      var more := ReadSome(v.value.1[1..]);
      if more.None? then None else Some(([v.value.0] + more.value.0, more.value.1))
  }

  /** A name, a colon and a value. */
  function ReadMember(s: string): (r: Reading<Entry>)
    ensures r.Some? ==> |r.value.1| < |s|
    decreases |s|, 1
  {
    if s == [] || s[0] != '"' then None
    else
      var key := ReadChars(s[1..]);
      if key.None? || key.value.1 == [] || key.value.1[0] != ':' then None
      else
        var v := ReadValue(key.value.1[1..]);
        if v.None? then None else Some((Entry(key.value.0, v.value.0), v.value.1))
  }

  function ReadMembers(s: string): (r: Reading<seq<Entry>>)
    ensures r.Some? ==> |r.value.1| < |s|
    decreases |s|, 3
  {
    if s != [] && s[0] == '}' then Some(([], s[1..])) else ReadSomeMembers(s)
  }

  function ReadSomeMembers(s: string): (r: Reading<seq<Entry>>)
    ensures r.Some? ==> |r.value.1| < |s|
    decreases |s|, 2
  {
    var e := ReadMember(s);
    if e.None? || e.value.1 == [] then None
    else if e.value.1[0] == '}' then Some(([e.value.0], e.value.1[1..]))
    else if e.value.1[0] != ',' then None
    else
      var more := ReadSomeMembers(e.value.1[1..]);
      if more.None? then None else Some(([e.value.0] + more.value.0, more.value.1))
  }

  /** The value of a whole text. */
  function ReadJson(s: string): Option<Json> {
    var r := ReadValue(s);
    if r.Some? && r.value.1 == [] then Some(r.value.0) else None
  }
}
