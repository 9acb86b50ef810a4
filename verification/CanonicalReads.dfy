/** The canonical text is JSON for the value it came from: a reader of RFC 8259 gets the canonical form back. */
module CanonicalReads {
  import opened Domain
  import opened JsonValue
  import opened JsonReader
  import opened CanonicalText
  import opened Canonical

  // ---- strings ----

  lemma HexReads(d: nat)
    requires d < 16
    ensures HexValue(HexDigit(d)) == Some(d)
  {
  }

  lemma CodeReads(n: nat, x: string)
    requires n < 32
    ensures var s := ['\\', 'u', '0', '0', HexDigit(n / 16), HexDigit(n % 16)] + x;
            ReadChar(s) == Some((n as char, x))
  {
    var s := ['\\', 'u', '0', '0', HexDigit(n / 16), HexDigit(n % 16)] + x;
    HexReads(n / 16);
    HexReads(n % 16);
    assert s[2..6] == ['0', '0', HexDigit(n / 16), HexDigit(n % 16)] && s[6..] == x;
  }

  lemma CharReads(c: char, x: string)
    ensures ReadChar(EscapedChar(c) + x) == Some((c, x))
  {
    var e := EscapedChar(c);
    assert (e + x)[|e|..] == x;
    if |e| == 6 {
      CodeReads(c as int, x);
    } else {
      assert |e| == 2 ==> (e + x)[2..] == x && (e + x)[1] == e[1];
      assert |e| == 1 ==> (e + x)[1..] == x;
    }
  }

  predicate NoCapitals(e: string) {
    forall i :: 0 <= i < |e| ==> !('A' <= e[i] <= 'F')
  }

  lemma HexIsDigit(c: char)
    requires HexValue(c).Some? && !('A' <= c <= 'F')
    ensures HexValue(c).value < 16 && c == HexDigit(HexValue(c).value)
  {
  }

  lemma CodeUnitIs(s: string, c: char)
    requires |s| == 4 && CodeUnit(s) == Some(c) && c as int < 32 && NoCapitals(s)
    ensures s == ['0', '0', HexDigit(c as int / 16), HexDigit(c as int % 16)]
  {
    HexIsDigit(s[0]);
    HexIsDigit(s[1]);
    HexIsDigit(s[2]);
    HexIsDigit(s[3]);
  }

  /** Of all the ways to write a character, the writer takes the shortest, and hexadecimal digits in lower case. */
  lemma ShortestEscape(c: char, e: string)
    requires ReadChar(e) == Some((c, []))
    ensures |EscapedChar(c)| <= |e|
    ensures |e| == |EscapedChar(c)| && NoCapitals(e) ==> e == EscapedChar(c)
  {
    if |e| >= 6 && e[0] == '\\' && e[1] == 'u' {
      assert e[6..] == [];
      if |EscapedChar(c)| == 6 && NoCapitals(e) {
        CodeUnitIs(e[2..6], c);
        assert e == ['\\', 'u'] + e[2..6];
      }
    } else if e[0] == '\\' {
      assert e == [e[0], e[1]];
    } else {
      assert e == [e[0]];
    }
  }

  /** Unescaping undoes escaping, up to the closing quote. */
  lemma {:induction false} CharsRead(s: string, x: string)
    ensures ReadChars(Escaped(s) + (['"'] + x)) == Some((s, x))
    decreases |s|
  {
    var rest := ['"'] + x;
    if s == [] {
      assert Escaped(s) + rest == rest;
    } else {
      Assoc(EscapedChar(s[0]), Escaped(s[1..]), rest);
      CharReads(s[0], Escaped(s[1..]) + rest);
      CharsRead(s[1..], x);
      EscapedHead(s, x);
      assert s == [s[0]] + s[1..];
    }
  }

  lemma QuotedReads(s: string, x: string)
    ensures Quoted(s) + x != [] && (Quoted(s) + x)[0] == '"'
    ensures ReadChars((Quoted(s) + x)[1..]) == Some((s, x))
  {
    assert Quoted(s) + x == ['"'] + (Escaped(s) + (['"'] + x));
    CharsRead(s, x);
  }

  // ---- values ----

  lemma {:induction false} DigitsRead(text: string, x: string)
    requires (forall i :: 0 <= i < |text| ==> IsNumberChar(text[i])) && Follows(x)
    ensures ReadDigits(text + x) == (text, x)
    decreases |text|
  {
    if text == [] {
      assert text + x == x;
    } else {
      assert (text + x)[1..] == text[1..] + x;
      DigitsRead(text[1..], x);
      assert text == [text[0]] + text[1..];
    }
  }

  lemma WordReads(word: string, v: Json, x: string)
    requires word != []
    ensures Word(word + x, word, v) == Some((v, x))
  {
    assert (word + x)[..|word|] == word && (word + x)[|word|..] == x;
  }

  lemma NameReads(v: Json, x: string)
    requires v.Null? || v.Bool?
    ensures ReadValue(Render(v) + x) == Some((v, x))
  {
    WordReads(Render(v), v, x);
    assert (Render(v) + x)[0] == Render(v)[0];
  }

  lemma NumberReads(text: string, x: string)
    requires IsNumberText(text) && Follows(x)
    ensures ReadValue(text + x) == Some((Number(text), x))
  {
    DigitsRead(text, x);
    assert (text + x)[0] == text[0];
  }

  lemma StringReads(chars: string, x: string)
    ensures ReadValue(Quoted(chars) + x) == Some((String(chars), x))
  {
    QuotedReads(chars, x);
  }

  /** The text behind an opening bracket. */
  lemma Behind(bracket: char, text: string, x: string)
    ensures ([bracket] + text) + x != [] && (([bracket] + text) + x)[0] == bracket
    ensures (([bracket] + text) + x)[1..] == text + x
  {
  }

  lemma {:induction false} ValueReads(v: Json, x: string)
    requires WellFormed(v) && Follows(x)
    ensures ReadValue(Render(v) + x) == Some((v, x))
    decreases v, 0
  {
    if v.Array? {
      Behind('[', RenderItems(v.items), x);
      ListReads(v.items, x);
    } else if v.Object? {
      Behind('{', RenderEntries(v.entries), x);
      MembersRead(v.entries, x);
    } else if v.Number? {
      NumberReads(v.text, x);
    } else if v.String? {
      StringReads(v.chars, x);
    } else {
      NameReads(v, x);
    }
  }

  lemma {:induction false} ListReads(items: seq<Json>, x: string)
    requires ItemsWellFormed(items) && Follows(x)
    ensures ReadList(RenderItems(items) + x) == Some((items, x))
    decreases items, 2
  {
    ItemsHead(items, x);
    if items == [] {
      assert ([']'] + x)[1..] == x;
    } else {
      Assoc(Render(items[0]), MoreItems(items[1..]), x);
      SomeRead(items, x);
    }
  }

  lemma {:induction false} SomeRead(items: seq<Json>, x: string)
    requires ItemsWellFormed(items) && Follows(x) && items != []
    ensures ReadSome(Render(items[0]) + (MoreItems(items[1..]) + x)) == Some((items, x))
    decreases items, 1
  {
    var others := items[1..];
    var rest := MoreItems(others) + x;
    ItemsHead(others, x);
    ValueReads(items[0], rest);
    if others == [] {
      assert rest[1..] == x;
      assert items == [items[0]];
    } else {
      Comma(Render(others[0]), MoreItems(others[1..]), x);
      assert rest[1..] == Render(others[0]) + (MoreItems(others[1..]) + x);
      SomeRead(others, x);
      assert items == [items[0]] + others;
    }
  }

  lemma {:induction false} MemberReads(e: Entry, x: string)
    requires WellFormed(e.value) && Follows(x)
    ensures ReadMember(RenderEntry(e) + x) == Some((e, x))
    decreases e, 1
  {
    var rest := [':'] + (Render(e.value) + x);
    EntrySplits(e, x);
    QuotedReads(e.key, rest);
    assert rest[1..] == Render(e.value) + x;
    ValueReads(e.value, x);
  }

  lemma {:induction false} MembersRead(entries: seq<Entry>, x: string)
    requires EntriesWellFormed(entries) && Follows(x)
    ensures ReadMembers(RenderEntries(entries) + x) == Some((entries, x))
    decreases entries, 4
  {
    EntriesHead(entries, x);
    if entries == [] {
      assert (['}'] + x)[1..] == x;
    } else {
      Assoc(RenderEntry(entries[0]), MoreEntries(entries[1..]), x);
      SomeMembersRead(entries, x);
    }
  }

  lemma {:induction false} SomeMembersRead(entries: seq<Entry>, x: string)
    requires EntriesWellFormed(entries) && Follows(x) && entries != []
    ensures ReadSomeMembers(RenderEntry(entries[0]) + (MoreEntries(entries[1..]) + x)) == Some((entries, x))
    decreases entries, 3
  {
    var others := entries[1..];
    var rest := MoreEntries(others) + x;
    EntriesHead(others, x);
    MemberReads(entries[0], rest);
    if others == [] {
      assert rest[1..] == x;
      assert entries == [entries[0]];
    } else {
      Comma(RenderEntry(others[0]), MoreEntries(others[1..]), x);
      assert rest[1..] == RenderEntry(others[0]) + (MoreEntries(others[1..]) + x);
      SomeMembersRead(others, x);
      assert entries == [entries[0]] + others;
    }
  }

  // ---- the canonical text ----

  /** The canonical form is the value itself, up to normalisation and the order of entries. */
  lemma {:induction false} CanonIsSame(v: Json, nfc: Normaliser)
    requires Idempotent(nfc)
    ensures Same(v, Canon(v, nfc), nfc)
    decreases v
  {
    match v
    case Array(items) =>
      forall i | 0 <= i < |items| ensures Same(items[i], Canon(items[i], nfc), nfc) {
        CanonIsSame(items[i], nfc);
      }
    case Object(entries) =>
      var values := CanonValues(entries, nfc);
      var es := Canon(v, nfc).entries;
      SortContents(values);
      forall i | 0 <= i < |entries| ensures SomeSame(entries[i], es, nfc) {
        CanonIsSame(entries[i].value, nfc);
        var j := PlaceOf(values, i);
        assert es[j] == Entry(nfc(entries[i].key), Canon(entries[i].value, nfc));
      }
    case _ =>
  }

  lemma PlaceOf(s: seq<Entry>, i: nat) returns (j: nat)
    requires i < |s|
    ensures j < |Sort(s)| && Sort(s)[j] == s[i]
  {
    SortContents(s);
    assert s[i] in multiset(Sort(s));
    j :| 0 <= j < |Sort(s)| && Sort(s)[j] == s[i];
  }

  /** Reading the canonical text of a parsed value gives its canonical form, which is that same value. */
  lemma ReadsBack(v: Json, nfc: Normaliser)
    requires Parsed(v) && Idempotent(nfc)
    ensures ReadJson(CanonicalJson(v, nfc)) == Some(Canon(v, nfc))
    ensures Same(v, Canon(v, nfc), nfc)
  {
    CanonIsWellFormed(v, nfc);
    ValueReads(Canon(v, nfc), []);
    assert CanonicalJson(v, nfc) + [] == CanonicalJson(v, nfc);
    CanonIsSame(v, nfc);
  }
}
