/**
 The compact text of a JSON value with its entries in the order given, and the proof that this text is unambiguous:
 no two values share it, whatever follows them. Strings are escaped as in section 7 of RFC 8259.
 */
module CanonicalText {
  import opened JsonValue

  // ---- strings ----

  function HexDigit(d: nat): char
    requires d < 16
  {
    if d < 10 then '0' + d as char else 'a' + (d - 10) as char
  }

  function EscapedChar(c: char): string {
    match c
    case '"' => "\\\""
    case '\\' => "\\\\"
    case '\n' => "\\n"
    case '\r' => "\\r"
    case '\t' => "\\t"
    case _ =>
      var n := c as int;
      if n == 8 then "\\b"
      else if n == 12 then "\\f"
      else if n < 32 then ['\\', 'u', '0', '0', HexDigit(n / 16), HexDigit(n % 16)]
      else [c]
  }

  function Escaped(s: string): string {
    if s == [] then [] else EscapedChar(s[0]) + Escaped(s[1..])
  }

  function Quoted(s: string): string {
    ['"'] + Escaped(s) + ['"']
  }

  // ---- values ----

  function Render(v: Json): string
    decreases v
  {
    match v
    case Null => "null"
    case Bool(b) => if b then "true" else "false"
    case Number(text) => text
    case String(chars) => Quoted(chars)
    case Array(items) => ['['] + RenderItems(items)
    case Object(entries) => ['{'] + RenderEntries(entries)
  }

  /** The items and the closing bracket. */
  function RenderItems(items: seq<Json>): string
    decreases items
  {
    if items == [] then [']'] else Render(items[0]) + MoreItems(items[1..])
  }

  /** The items after the first, each behind a comma, and the closing bracket. */
  function MoreItems(items: seq<Json>): string
    decreases items
  {
    if items == [] then [']'] else [','] + (Render(items[0]) + MoreItems(items[1..]))
  }

  function RenderEntry(e: Entry): string
    decreases e
  {
    Quoted(e.key) + ([':'] + Render(e.value))
  }

  function RenderEntries(entries: seq<Entry>): string
    decreases entries
  {
    if entries == [] then ['}'] else RenderEntry(entries[0]) + MoreEntries(entries[1..])
  }

  function MoreEntries(entries: seq<Entry>): string
    decreases entries
  {
    if entries == [] then ['}'] else [','] + (RenderEntry(entries[0]) + MoreEntries(entries[1..]))
  }

  // ---- unambiguous ----

  predicate IsNumberChar(c: char) {
    '0' <= c <= '9' || c == '-' || c == '+' || c == '.' || c == 'e' || c == 'E'
  }

  predicate IsNumberText(s: string) {
    s != [] && ('0' <= s[0] <= '9' || s[0] == '-') && forall i :: 0 <= i < |s| ==> IsNumberChar(s[i])
  }

  /** Every number in the value is a number's text. */
  predicate WellFormed(v: Json)
    decreases v
  {
    match v
    case Number(text) => IsNumberText(text)
    case Array(items) => forall i :: 0 <= i < |items| ==> WellFormed(items[i])
    case Object(entries) => forall i :: 0 <= i < |entries| ==> WellFormed(entries[i].value)
    case _ => true
  }

  /** What may follow a value: nothing, or the punctuation of the container it is in. */
  predicate Follows(s: string) {
    s == [] || s[0] == ',' || s[0] == ']' || s[0] == '}'
  }

  lemma SameHead(a: char, x: string, b: char, y: string)
    requires [a] + x == [b] + y
    ensures a == b && x == y
  {
    assert ([a] + x)[0] == ([b] + y)[0];
    assert ([a] + x)[1..] == x && ([b] + y)[1..] == y;
  }

  lemma HexDigitUnique(a: nat, b: nat)
    requires a < 16 && b < 16 && HexDigit(a) == HexDigit(b)
    ensures a == b
  {
  }

  /** Two escapes that differ already differ in their first characters. */
  lemma EscapeIsPrefixFree(a: char, b: char, x: string, y: string)
    requires EscapedChar(a) + x == EscapedChar(b) + y
    ensures a == b && x == y
  {
    var s, t := EscapedChar(a) + x, EscapedChar(b) + y;
    assert s[0] == EscapedChar(a)[0] && t[0] == EscapedChar(b)[0];
    if s[0] == '\\' {
      assert s[1] == EscapedChar(a)[1] && t[1] == EscapedChar(b)[1];
      if s[1] == 'u' {
        assert s[4] == EscapedChar(a)[4] && t[4] == EscapedChar(b)[4];
        assert s[5] == EscapedChar(a)[5] && t[5] == EscapedChar(b)[5];
        HexDigitUnique(a as int / 16, b as int / 16);
        HexDigitUnique(a as int % 16, b as int % 16);
      }
    }
    assert s[|EscapedChar(a)|..] == x && t[|EscapedChar(b)|..] == y;
  }

  /** The closing quote cannot be taken for an escaped character, nor the other way round. */
  lemma EscapedHead(a: string, x: string)
    ensures var s := Escaped(a) + (['"'] + x);
            s != [] && (s[0] == '"' <==> a == [])
  {
    if a != [] {
      assert (Escaped(a) + (['"'] + x))[0] == EscapedChar(a[0])[0];
    }
  }

  lemma {:induction false} EscapedUnique(a: string, b: string, x: string, y: string)
    requires Escaped(a) + (['"'] + x) == Escaped(b) + (['"'] + y)
    ensures a == b && x == y
    decreases |a|
  {
    EscapedHead(a, x);
    EscapedHead(b, y);
    var s, t := ['"'] + x, ['"'] + y;
    if a == [] {
      assert Escaped(a) + s == s && Escaped(b) + t == t;
      SameHead('"', x, '"', y);
    } else {
      Assoc(EscapedChar(a[0]), Escaped(a[1..]), s);
      Assoc(EscapedChar(b[0]), Escaped(b[1..]), t);
      EscapeIsPrefixFree(a[0], b[0], Escaped(a[1..]) + s, Escaped(b[1..]) + t);
      EscapedUnique(a[1..], b[1..], x, y);
      assert a == [a[0]] + a[1..] && b == [b[0]] + b[1..];
    }
  }

  lemma QuotedUnique(a: string, b: string, x: string, y: string)
    requires Quoted(a) + x == Quoted(b) + y
    ensures a == b && x == y
  {
    assert Quoted(a) + x == ['"'] + (Escaped(a) + (['"'] + x));
    assert Quoted(b) + y == ['"'] + (Escaped(b) + (['"'] + y));
    SameHead('"', Escaped(a) + (['"'] + x), '"', Escaped(b) + (['"'] + y));
    EscapedUnique(a, b, x, y);
  }

  /** A number runs on as long as there are number characters. */
  lemma NumberEnds(a: string, b: string, x: string, y: string)
    requires IsNumberText(a) && IsNumberText(b) && Follows(x) && a + x == b + y
    ensures |b| <= |a|
  {
    assert x != [] ==> !IsNumberChar((a + x)[|a|]);
    assert forall i :: 0 <= i < |b| ==> IsNumberChar((b + y)[i]);
  }

  lemma NumberUnique(a: string, b: string, x: string, y: string)
    requires IsNumberText(a) && IsNumberText(b) && Follows(x) && Follows(y) && a + x == b + y
    ensures a == b && x == y
  {
    NumberEnds(a, b, x, y);
    NumberEnds(b, a, y, x);
    assert (a + x)[..|a|] == a && (b + y)[..|b|] == b;
    assert (a + x)[|a|..] == x && (b + y)[|b|..] == y;
  }

  /** The first character tells which kind of value it is. */
  function Head(v: Json): char {
    match v
    case Null => 'n'
    case Bool(b) => if b then 't' else 'f'
    case Number(text) => if text == [] then ' ' else text[0]
    case String(_) => '"'
    case Array(_) => '['
    case Object(_) => '{'
  }

  lemma StartsWithHead(v: Json, x: string)
    requires WellFormed(v)
    ensures Render(v) != [] && (Render(v) + x)[0] == Head(v)
  {
  }

  lemma Assoc(a: string, b: string, c: string)
    ensures (a + b) + c == a + (b + c)
  {
  }

  /** The text of a value ends where the value ends, and says which value it is. */
  lemma {:induction false} RenderUnique(a: Json, b: Json, x: string, y: string)
    requires WellFormed(a) && WellFormed(b) && Follows(x) && Follows(y) && Render(a) + x == Render(b) + y
    ensures a == b && x == y
    decreases a
  {
    StartsWithHead(a, x);
    StartsWithHead(b, y);
    match a {
      case Number(text) => NumberUnique(text, b.text, x, y);
      case String(chars) => QuotedUnique(chars, b.chars, x, y);
      case Array(items) => {
        Assoc(['['], RenderItems(items), x);
        Assoc(['['], RenderItems(b.items), y);
        SameHead('[', RenderItems(items) + x, '[', RenderItems(b.items) + y);
        ItemsUnique(items, b.items, x, y);
      }
      case Object(entries) => {
        Assoc(['{'], RenderEntries(entries), x);
        Assoc(['{'], RenderEntries(b.entries), y);
        SameHead('{', RenderEntries(entries) + x, '{', RenderEntries(b.entries) + y);
        EntriesUnique(entries, b.entries, x, y);
      }
      case _ => {
        var n := |Render(a)|;
        assert (Render(a) + x)[n..] == x && (Render(b) + y)[n..] == y;
      }
    }
  }

  ghost predicate ItemsWellFormed(items: seq<Json>) {
    forall i :: 0 <= i < |items| ==> WellFormed(items[i])
  }

  ghost predicate EntriesWellFormed(entries: seq<Entry>) {
    forall i :: 0 <= i < |entries| ==> WellFormed(entries[i].value)
  }

  lemma ItemsHead(items: seq<Json>, x: string)
    requires ItemsWellFormed(items)
    ensures RenderItems(items) != [] && ((RenderItems(items) + x)[0] == ']' <==> items == [])
    ensures MoreItems(items) != [] && Follows(MoreItems(items) + x)
    ensures (MoreItems(items) + x)[0] == ']' <==> items == []
  {
    if items != [] {
      StartsWithHead(items[0], MoreItems(items[1..]) + x);
      Assoc(Render(items[0]), MoreItems(items[1..]), x);
    }
  }

  lemma {:induction false} ItemsUnique(a: seq<Json>, b: seq<Json>, x: string, y: string)
    requires ItemsWellFormed(a) && ItemsWellFormed(b) && Follows(x) && Follows(y)
    requires RenderItems(a) + x == RenderItems(b) + y
    ensures a == b && x == y
    decreases a, 2
  {
    ItemsHead(a, x);
    ItemsHead(b, y);
    if a == [] {
      SameHead(']', x, ']', y);
    } else {
      Assoc(Render(a[0]), MoreItems(a[1..]), x);
      Assoc(Render(b[0]), MoreItems(b[1..]), y);
      FirstItemUnique(a, b, x, y);
    }
  }

  lemma {:induction false} FirstItemUnique(a: seq<Json>, b: seq<Json>, x: string, y: string)
    requires ItemsWellFormed(a) && ItemsWellFormed(b) && Follows(x) && Follows(y) && a != [] && b != []
    requires Render(a[0]) + (MoreItems(a[1..]) + x) == Render(b[0]) + (MoreItems(b[1..]) + y)
    ensures a == b && x == y
    decreases a, 1
  {
    ItemsHead(a[1..], x);
    ItemsHead(b[1..], y);
    RenderUnique(a[0], b[0], MoreItems(a[1..]) + x, MoreItems(b[1..]) + y);
    MoreItemsUnique(a[1..], b[1..], x, y);
    assert a == [a[0]] + a[1..] && b == [b[0]] + b[1..];
  }

  lemma {:induction false} MoreItemsUnique(a: seq<Json>, b: seq<Json>, x: string, y: string)
    requires ItemsWellFormed(a) && ItemsWellFormed(b) && Follows(x) && Follows(y)
    requires MoreItems(a) + x == MoreItems(b) + y
    ensures a == b && x == y
    decreases a, 2
  {
    ItemsHead(a, x);
    ItemsHead(b, y);
    if a == [] {
      SameHead(']', x, ']', y);
    } else {
      Comma(Render(a[0]), MoreItems(a[1..]), x);
      Comma(Render(b[0]), MoreItems(b[1..]), y);
      SameHead(',', Render(a[0]) + (MoreItems(a[1..]) + x), ',', Render(b[0]) + (MoreItems(b[1..]) + y));
      FirstItemUnique(a, b, x, y);
    }
  }

  lemma Comma(a: string, b: string, c: string)
    ensures ([','] + (a + b)) + c == [','] + (a + (b + c))
  {
  }

  lemma EntriesHead(entries: seq<Entry>, x: string)
    ensures RenderEntries(entries) != [] && ((RenderEntries(entries) + x)[0] == '}' <==> entries == [])
    ensures MoreEntries(entries) != [] && Follows(MoreEntries(entries) + x)
    ensures (MoreEntries(entries) + x)[0] == '}' <==> entries == []
  {
  }

  lemma {:induction false} EntriesUnique(a: seq<Entry>, b: seq<Entry>, x: string, y: string)
    requires EntriesWellFormed(a) && EntriesWellFormed(b) && Follows(x) && Follows(y)
    requires RenderEntries(a) + x == RenderEntries(b) + y
    ensures a == b && x == y
    decreases a, 2
  {
    EntriesHead(a, x);
    EntriesHead(b, y);
    if a == [] {
      SameHead('}', x, '}', y);
    } else {
      Assoc(RenderEntry(a[0]), MoreEntries(a[1..]), x);
      Assoc(RenderEntry(b[0]), MoreEntries(b[1..]), y);
      FirstEntryUnique(a, b, x, y);
    }
  }

  lemma {:induction false} FirstEntryUnique(a: seq<Entry>, b: seq<Entry>, x: string, y: string)
    requires EntriesWellFormed(a) && EntriesWellFormed(b) && Follows(x) && Follows(y) && a != [] && b != []
    requires RenderEntry(a[0]) + (MoreEntries(a[1..]) + x) == RenderEntry(b[0]) + (MoreEntries(b[1..]) + y)
    ensures a == b && x == y
    decreases a, 1
  {
    EntriesHead(a[1..], x);
    EntriesHead(b[1..], y);
    var s, t := MoreEntries(a[1..]) + x, MoreEntries(b[1..]) + y;
    EntrySplits(a[0], s);
    EntrySplits(b[0], t);
    QuotedUnique(a[0].key, b[0].key, [':'] + (Render(a[0].value) + s), [':'] + (Render(b[0].value) + t));
    SameHead(':', Render(a[0].value) + s, ':', Render(b[0].value) + t);
    RenderUnique(a[0].value, b[0].value, s, t);
    MoreEntriesUnique(a[1..], b[1..], x, y);
    assert a == [a[0]] + a[1..] && b == [b[0]] + b[1..];
  }

  lemma EntrySplits(e: Entry, x: string)
    ensures RenderEntry(e) + x == Quoted(e.key) + ([':'] + (Render(e.value) + x))
  {
    var colon, text := [':'], Render(e.value);
    Assoc(Quoted(e.key), colon + text, x);
    Assoc(colon, text, x);
  }

  lemma {:induction false} MoreEntriesUnique(a: seq<Entry>, b: seq<Entry>, x: string, y: string)
    requires EntriesWellFormed(a) && EntriesWellFormed(b) && Follows(x) && Follows(y)
    requires MoreEntries(a) + x == MoreEntries(b) + y
    ensures a == b && x == y
    decreases a, 2
  {
    EntriesHead(a, x);
    EntriesHead(b, y);
    if a == [] {
      SameHead('}', x, '}', y);
    } else {
      Comma(RenderEntry(a[0]), MoreEntries(a[1..]), x);
      Comma(RenderEntry(b[0]), MoreEntries(b[1..]), y);
      SameHead(',', RenderEntry(a[0]) + (MoreEntries(a[1..]) + x), ',', RenderEntry(b[0]) + (MoreEntries(b[1..]) + y));
      FirstEntryUnique(a, b, x, y);
    }
  }
}
