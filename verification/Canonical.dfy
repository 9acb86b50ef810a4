/**
 The canonical encoding behind content fingerprints: entries sorted by key, strings normalised, then compact text.
 `nfc` is the Unicode normalisation; all that is used of it is that normalising twice changes nothing more.
 */
module Canonical {
  import opened JsonValue
  import opened CanonicalText

  type Normaliser = string -> string

  ghost predicate Idempotent(nfc: Normaliser) {
    forall s :: nfc(nfc(s)) == nfc(s)
  }

  // ---- the order of keys ----

  /** Lexicographic order of scalar values; `Utf8.LessIsByteOrder` shows it to be the order of the UTF-8 bytes. */
  predicate Less(a: string, b: string) {
    b != [] && (a == [] || a[0] < b[0] || (a[0] == b[0] && Less(a[1..], b[1..])))
  }

  lemma {:induction false} LessIsTotal(a: string, b: string)
    ensures a == b || Less(a, b) || Less(b, a)
    decreases |a|
  {
    if a != [] && b != [] && a[0] == b[0] {
      LessIsTotal(a[1..], b[1..]);
      assert a == [a[0]] + a[1..] && b == [b[0]] + b[1..];
    }
  }

  lemma {:induction false} LessIsStrict(a: string, b: string)
    requires Less(a, b)
    ensures a != b && !Less(b, a)
    decreases |a|
  {
    if a != [] && a[0] == b[0] {
      LessIsStrict(a[1..], b[1..]);
    }
  }

  lemma {:induction false} LessIsTransitive(a: string, b: string, c: string)
    requires Less(a, b) && Less(b, c)
    ensures Less(a, c)
    decreases |a|
  {
    if a != [] && a[0] == b[0] == c[0] {
      LessIsTransitive(a[1..], b[1..], c[1..]);
    }
  }

  // ---- sorting entries ----

  function Insert(s: seq<Entry>, e: Entry): seq<Entry>
    decreases |s|
  {
    if s == [] || Less(e.key, s[0].key) then [e] + s else [s[0]] + Insert(s[1..], e)
  }

  function Sort(s: seq<Entry>): seq<Entry>
    decreases |s|
  {
    if s == [] then [] else Insert(Sort(s[1..]), s[0])
  }

  ghost predicate StrictlySorted(s: seq<Entry>) {
    forall i, j :: 0 <= i < j < |s| ==> Less(s[i].key, s[j].key)
  }

  ghost predicate DistinctKeys(s: seq<Entry>) {
    forall i, j :: 0 <= i < j < |s| ==> s[i].key != s[j].key
  }

  lemma {:induction false} InsertContents(s: seq<Entry>, e: Entry)
    ensures multiset(Insert(s, e)) == multiset(s) + multiset{e}
    decreases |s|
  {
    if s != [] && !Less(e.key, s[0].key) {
      InsertContents(s[1..], e);
      assert s == [s[0]] + s[1..];
    }
  }

  lemma {:induction false} SortContents(s: seq<Entry>)
    ensures multiset(Sort(s)) == multiset(s) && |Sort(s)| == |s|
    decreases |s|
  {
    if s != [] {
      SortContents(s[1..]);
      InsertContents(Sort(s[1..]), s[0]);
      assert s == [s[0]] + s[1..];
    }
    assert |multiset(Sort(s))| == |multiset(s)|;
  }

  /** Sorting adds, drops and repeats nothing. */
  lemma SortElements(s: seq<Entry>, e: Entry)
    ensures e in Sort(s) <==> e in s
  {
    SortContents(s);
    assert e in multiset(Sort(s)) <==> e in multiset(s);
  }

  lemma {:induction false} InsertSorts(s: seq<Entry>, e: Entry)
    requires StrictlySorted(s) && forall i :: 0 <= i < |s| ==> s[i].key != e.key
    ensures StrictlySorted(Insert(s, e))
    decreases |s|
  {
    if s != [] {
      LessIsTotal(e.key, s[0].key);
      if Less(e.key, s[0].key) {
        forall j | 1 <= j < |s| ensures Less(e.key, s[j].key) {
          LessIsTransitive(e.key, s[0].key, s[j].key);
        }
      } else {
        InsertSorts(s[1..], e);
        forall j | 0 <= j < |Insert(s[1..], e)| ensures Less(s[0].key, Insert(s[1..], e)[j].key) {
          InsertContents(s[1..], e);
          assert Insert(s[1..], e)[j] in multiset(Insert(s[1..], e));
          assert Insert(s[1..], e)[j] == e || Insert(s[1..], e)[j] in s[1..];
        }
      }
    }
  }

  lemma {:induction false} SortSorts(s: seq<Entry>)
    requires DistinctKeys(s)
    ensures StrictlySorted(Sort(s))
    decreases |s|
  {
    if s != [] {
      SortSorts(s[1..]);
      var rest := Sort(s[1..]);
      forall i | 0 <= i < |rest| ensures rest[i].key != s[0].key {
        SortElements(s[1..], rest[i]);
        assert rest[i] in s[1..];
      }
      InsertSorts(rest, s[0]);
    }
  }

  /** There is one way to list entries in strict key order. */
  lemma {:induction false} SortedUnique(s: seq<Entry>, t: seq<Entry>)
    requires StrictlySorted(s) && StrictlySorted(t) && multiset(s) == multiset(t)
    ensures s == t
    decreases |s|
  {
    assert |multiset(s)| == |multiset(t)|;
    if s != [] {
      FirstIsLeast(s, t);
      FirstIsLeast(t, s);
      if s[0] != t[0] {
        LessIsStrict(s[0].key, t[0].key);
      }
      assert s == [s[0]] + s[1..] && t == [t[0]] + t[1..];
      assert multiset(s[1..]) == multiset(s) - multiset{s[0]} && multiset(t[1..]) == multiset(t) - multiset{t[0]};
      SortedUnique(s[1..], t[1..]);
    }
  }

  lemma FirstIsLeast(s: seq<Entry>, t: seq<Entry>)
    requires StrictlySorted(t) && s != [] && t != [] && multiset(s) == multiset(t)
    ensures s[0] == t[0] || Less(t[0].key, s[0].key)
  {
    assert s[0] in multiset(t);
  }

  // ---- the canonical form ----

  function Rekeyed(entries: seq<Entry>, nfc: Normaliser): seq<Entry> {
    seq(|entries|, i requires 0 <= i < |entries| => Entry(nfc(entries[i].key), entries[i].value))
  }

  /** Entries are sorted by the key as given; only then are keys normalised. */
  function Canon(v: Json, nfc: Normaliser): Json
    decreases v
  {
    match v
    case String(chars) => String(nfc(chars))
    case Array(items) => Array(seq(|items|, i requires 0 <= i < |items| => Canon(items[i], nfc)))
    case Object(entries) => Object(Rekeyed(Sort(CanonValues(entries, nfc)), nfc))
    case _ => v
  }

  function CanonValues(entries: seq<Entry>, nfc: Normaliser): (r: seq<Entry>)
    ensures |r| == |entries| && forall i :: 0 <= i < |r| ==> r[i].key == entries[i].key
    decreases entries
  {
    seq(|entries|, i requires 0 <= i < |entries| => Entry(entries[i].key, Canon(entries[i].value, nfc)))
  }

  function CanonicalJson(v: Json, nfc: Normaliser): string {
    Render(Canon(v, nfc))
  }

  // ---- what the text identifies ----

  /** What a parser hands over: numbers are numbers, and no object has a key twice. */
  ghost predicate Parsed(v: Json)
    decreases v
  {
    match v
    case Number(text) => IsNumberText(text)
    case Array(items) => forall i :: 0 <= i < |items| ==> Parsed(items[i])
    case Object(entries) => DistinctKeys(entries) && forall i :: 0 <= i < |entries| ==> Parsed(entries[i].value)
    case _ => true
  }

  /** Normalising keeps the order of any two keys of one object. */
  ghost predicate KeepsOrder(entries: seq<Entry>, nfc: Normaliser) {
    forall i, j :: 0 <= i < |entries| && 0 <= j < |entries| && Less(entries[i].key, entries[j].key) ==>
      Less(nfc(entries[i].key), nfc(entries[j].key))
  }

  /** In every object of the value, normalising keeps the order of the keys. */
  ghost predicate Stable(v: Json, nfc: Normaliser)
    decreases v
  {
    match v
    case Array(items) => forall i :: 0 <= i < |items| ==> Stable(items[i], nfc)
    case Object(entries) => KeepsOrder(entries, nfc) && forall i :: 0 <= i < |entries| ==> Stable(entries[i].value, nfc)
    case _ => true
  }

  /** Every key is normalised already. */
  ghost predicate NfcKeys(v: Json, nfc: Normaliser)
    decreases v
  {
    match v
    case Array(items) => forall i :: 0 <= i < |items| ==> NfcKeys(items[i], nfc)
    case Object(entries) =>
      forall i :: 0 <= i < |entries| ==> nfc(entries[i].key) == entries[i].key && NfcKeys(entries[i].value, nfc)
    case _ => true
  }

  /** Equal once every string is normalised and the order of entries is forgotten. */
  ghost predicate Same(a: Json, b: Json, nfc: Normaliser)
    decreases a
  {
    match a
    case String(chars) => b.String? && nfc(chars) == nfc(b.chars)
    case Array(items) =>
      b.Array? && |items| == |b.items| && forall i :: 0 <= i < |items| ==> Same(items[i], b.items[i], nfc)
    case Object(entries) =>
      b.Object? && |entries| == |b.entries| && forall i :: 0 <= i < |entries| ==> SomeSame(entries[i], b.entries, nfc)
    case _ => a == b
  }

  ghost predicate SomeSame(e: Entry, others: seq<Entry>, nfc: Normaliser)
    decreases e
  {
    exists j :: 0 <= j < |others| && nfc(e.key) == nfc(others[j].key) && Same(e.value, others[j].value, nfc)
  }

  // ---- sorting and normalising ----

  lemma RekeyedContents(s: seq<Entry>, e: Entry, nfc: Normaliser)
    ensures multiset(Rekeyed([e] + s, nfc)) == multiset(Rekeyed(s, nfc)) + multiset{Entry(nfc(e.key), e.value)}
  {
    assert Rekeyed([e] + s, nfc) == [Entry(nfc(e.key), e.value)] + Rekeyed(s, nfc);
  }

  lemma {:induction false} RekeyedInsert(s: seq<Entry>, e: Entry, nfc: Normaliser)
    ensures multiset(Rekeyed(Insert(s, e), nfc)) == multiset(Rekeyed(s, nfc)) + multiset{Entry(nfc(e.key), e.value)}
    decreases |s|
  {
    if s == [] || Less(e.key, s[0].key) {
      RekeyedContents(s, e, nfc);
    } else {
      RekeyedInsert(s[1..], e, nfc);
      RekeyedContents(Insert(s[1..], e), s[0], nfc);
      RekeyedContents(s[1..], s[0], nfc);
      assert s == [s[0]] + s[1..];
    }
  }

  lemma {:induction false} RekeyedSort(s: seq<Entry>, nfc: Normaliser)
    ensures multiset(Rekeyed(Sort(s), nfc)) == multiset(Rekeyed(s, nfc))
    decreases |s|
  {
    if s != [] {
      RekeyedSort(s[1..], nfc);
      RekeyedInsert(Sort(s[1..]), s[0], nfc);
      RekeyedContents(s[1..], s[0], nfc);
      assert s == [s[0]] + s[1..];
    }
  }

  /** Sorted keys are still sorted after normalising exactly when normalising keeps their order. */
  lemma SortedStays(s: seq<Entry>, nfc: Normaliser)
    requires DistinctKeys(s)
    ensures StrictlySorted(Rekeyed(Sort(s), nfc)) <==> KeepsOrder(s, nfc)
  {
    SortSorts(s);
    var t := Sort(s);
    if KeepsOrder(s, nfc) {
      forall i, j | 0 <= i < j < |t| ensures Less(nfc(t[i].key), nfc(t[j].key)) {
        SortElements(s, t[i]);
        SortElements(s, t[j]);
      }
    }
    if StrictlySorted(Rekeyed(t, nfc)) {
      forall i, j | 0 <= i < |s| && 0 <= j < |s| && Less(s[i].key, s[j].key)
        ensures Less(nfc(s[i].key), nfc(s[j].key))
      {
        var m := PlaceOf(s, i);
        var n := PlaceOf(s, j);
        Placed(t, m, n);
        assert Rekeyed(t, nfc)[m].key == nfc(s[i].key) && Rekeyed(t, nfc)[n].key == nfc(s[j].key);
      }
    }
  }

  lemma PlaceOf(s: seq<Entry>, i: nat) returns (m: nat)
    requires i < |s|
    ensures m < |Sort(s)| && Sort(s)[m] == s[i]
  {
    SortElements(s, s[i]);
    m :| m < |Sort(s)| && Sort(s)[m] == s[i];
  }

  /** In sorted entries the smaller key comes first. */
  lemma Placed(t: seq<Entry>, m: nat, n: nat)
    requires StrictlySorted(t) && m < |t| && n < |t| && Less(t[m].key, t[n].key)
    ensures m < n
  {
    LessIsStrict(t[m].key, t[n].key);
  }

  /** Where normalising keeps the order, sorting first or last makes no difference. */
  lemma SortCommutes(s: seq<Entry>, nfc: Normaliser)
    requires DistinctKeys(s) && KeepsOrder(s, nfc)
    ensures Rekeyed(Sort(s), nfc) == Sort(Rekeyed(s, nfc)) && DistinctKeys(Rekeyed(s, nfc))
  {
    SortedStays(s, nfc);
    var r := Rekeyed(s, nfc);
    forall i, j | 0 <= i < j < |r| ensures r[i].key != r[j].key {
      LessIsTotal(s[i].key, s[j].key);
      if Less(s[i].key, s[j].key) {
        LessIsStrict(r[i].key, r[j].key);
      } else {
        LessIsStrict(r[j].key, r[i].key);
      }
    }
    SortSorts(r);
    SortContents(r);
    RekeyedSort(s, nfc);
    SortedUnique(Rekeyed(Sort(s), nfc), Sort(r));
  }

  lemma {:induction false} DistinctOnce(s: seq<Entry>, e: Entry)
    requires DistinctKeys(s)
    ensures multiset(s)[e] <= 1
    decreases |s|
  {
    if s != [] {
      DistinctOnce(s[1..], e);
      assert s == [s[0]] + s[1..];
      assert e == s[0] ==> e !in s[1..];
    }
  }

  /** Distinct entries sort alike exactly when they are the same entries. */
  lemma SortsAlike(p: seq<Entry>, q: seq<Entry>)
    requires DistinctKeys(p) && DistinctKeys(q)
    ensures Sort(p) == Sort(q) <==> |p| == |q| && forall i :: 0 <= i < |p| ==> p[i] in q
  {
    SortContents(p);
    SortContents(q);
    if Sort(p) == Sort(q) {
      forall i | 0 <= i < |p| ensures p[i] in q {
        SortElements(p, p[i]);
        SortElements(q, p[i]);
      }
    } else if |p| == |q| && forall i :: 0 <= i < |p| ==> p[i] in q {
      SubsetIsAll(p, q);
      SortSorts(p);
      SortSorts(q);
      SortedUnique(Sort(p), Sort(q));
    }
  }

  lemma SubsetIsAll(p: seq<Entry>, q: seq<Entry>)
    requires DistinctKeys(p) && |p| == |q| && forall i :: 0 <= i < |p| ==> p[i] in q
    ensures multiset(p) == multiset(q)
  {
    forall e ensures multiset(p)[e] <= multiset(q)[e] {
      DistinctOnce(p, e);
      if e in p {
        assert e in multiset(q);
      }
    }
    var rest := multiset(q) - multiset(p);
    assert multiset(q) == multiset(p) + rest;
    assert |rest| == 0;
  }

  // ---- the theorem ----

  lemma {:induction false} CanonIsWellFormed(v: Json, nfc: Normaliser)
    requires Parsed(v)
    ensures WellFormed(Canon(v, nfc))
    decreases v
  {
    match v
    case Array(items) =>
      forall i | 0 <= i < |items| ensures WellFormed(Canon(items[i], nfc)) {
        CanonIsWellFormed(items[i], nfc);
      }
    case Object(entries) =>
      var values := CanonValues(entries, nfc);
      forall i | 0 <= i < |entries| ensures WellFormed(values[i].value) {
        CanonIsWellFormed(entries[i].value, nfc);
      }
      forall i | 0 <= i < |Sort(values)| ensures WellFormed(Sort(values)[i].value) {
        SortElements(values, Sort(values)[i]);
      }
    case _ =>
  }

  /** Two values print alike exactly when their canonical forms are equal, whatever their keys. */
  lemma PrintsAlike(a: Json, b: Json, nfc: Normaliser)
    requires Parsed(a) && Parsed(b)
    ensures CanonicalJson(a, nfc) == CanonicalJson(b, nfc) <==> Canon(a, nfc) == Canon(b, nfc)
  {
    CanonIsWellFormed(a, nfc);
    CanonIsWellFormed(b, nfc);
    if CanonicalJson(a, nfc) == CanonicalJson(b, nfc) {
      RenderUnique(Canon(a, nfc), Canon(b, nfc), [], []);
    }
  }

  lemma {:induction false} CanonIsSame(a: Json, b: Json, nfc: Normaliser)
    requires Parsed(a) && Parsed(b) && Stable(a, nfc) && Stable(b, nfc)
    ensures Canon(a, nfc) == Canon(b, nfc) <==> Same(a, b, nfc)
    decreases a, 1
  {
    match a
    case Array(items) =>
      if b.Array? && |items| == |b.items| {
        forall i | 0 <= i < |items|
          ensures Canon(items[i], nfc) == Canon(b.items[i], nfc) <==> Same(items[i], b.items[i], nfc)
        {
          CanonIsSame(items[i], b.items[i], nfc);
        }
        ItemsAlike(items, b.items, nfc);
      } else if b.Array? {
        assert |Canon(a, nfc).items| == |items| && |Canon(b, nfc).items| == |b.items|;
      }
    case Object(entries) => if b.Object? { ObjectsAlike(entries, b.entries, nfc); }
    case _ =>
  }

  lemma ItemsAlike(a: seq<Json>, b: seq<Json>, nfc: Normaliser)
    requires |a| == |b|
    ensures Canon(Array(a), nfc) == Canon(Array(b), nfc) <==>
            forall i :: 0 <= i < |a| ==> Canon(a[i], nfc) == Canon(b[i], nfc)
  {
    var x, y := Canon(Array(a), nfc).items, Canon(Array(b), nfc).items;
    assert |x| == |a| && |y| == |b|;
    assert forall i :: 0 <= i < |a| ==> x[i] == Canon(a[i], nfc) && y[i] == Canon(b[i], nfc);
  }

  lemma {:induction false} ObjectsAlike(a: seq<Entry>, b: seq<Entry>, nfc: Normaliser)
    requires Parsed(Object(a)) && Parsed(Object(b)) && Stable(Object(a), nfc) && Stable(Object(b), nfc)
    ensures Canon(Object(a), nfc) == Canon(Object(b), nfc) <==> Same(Object(a), Object(b), nfc)
    decreases Object(a), 0
  {
    var p, q := Rekeyed(CanonValues(a, nfc), nfc), Rekeyed(CanonValues(b, nfc), nfc);
    SortCommutes(CanonValues(a, nfc), nfc);
    SortCommutes(CanonValues(b, nfc), nfc);
    SortsAlike(p, q);
    forall i | 0 <= i < |a| ensures p[i] in q <==> SomeSame(a[i], b, nfc) {
      forall j | 0 <= j < |b|
        ensures p[i] == q[j] <==> nfc(a[i].key) == nfc(b[j].key) && Same(a[i].value, b[j].value, nfc)
      {
        CanonIsSame(a[i].value, b[j].value, nfc);
      }
    }
  }

  /** Among values whose keys keep their order, the text identifies a value up to normalisation and key order. */
  lemma Unambiguous(a: Json, b: Json, nfc: Normaliser)
    requires Parsed(a) && Parsed(b) && Stable(a, nfc) && Stable(b, nfc)
    ensures CanonicalJson(a, nfc) == CanonicalJson(b, nfc) <==> Same(a, b, nfc)
  {
    PrintsAlike(a, b, nfc);
    CanonIsSame(a, b, nfc);
  }

  lemma {:induction false} NfcKeysAreStable(v: Json, nfc: Normaliser)
    requires NfcKeys(v, nfc)
    ensures Stable(v, nfc)
    decreases v
  {
    match v
    case Array(items) => forall i | 0 <= i < |items| ensures Stable(items[i], nfc) { NfcKeysAreStable(items[i], nfc); }
    case Object(entries) =>
      forall i | 0 <= i < |entries| ensures Stable(entries[i].value, nfc) {
        NfcKeysAreStable(entries[i].value, nfc);
      }
    case _ =>
  }

  /** In particular among values whose keys are normalised already. */
  lemma UnambiguousForNfcKeys(a: Json, b: Json, nfc: Normaliser)
    requires Parsed(a) && Parsed(b) && NfcKeys(a, nfc) && NfcKeys(b, nfc)
    ensures CanonicalJson(a, nfc) == CanonicalJson(b, nfc) <==> Same(a, b, nfc)
  {
    NfcKeysAreStable(a, nfc);
    NfcKeysAreStable(b, nfc);
    Unambiguous(a, b, nfc);
  }

  // ---- and no further ----

  /** The same value with its keys normalised. */
  function WithNfcKeys(v: Json, nfc: Normaliser): Json
    decreases v
  {
    match v
    case Array(items) => Array(seq(|items|, i requires 0 <= i < |items| => WithNfcKeys(items[i], nfc)))
    case Object(entries) =>
      Object(seq(|entries|, i requires 0 <= i < |entries| =>
        Entry(nfc(entries[i].key), WithNfcKeys(entries[i].value, nfc))))
    case _ => v
  }

  /** No object has two keys that normalise to the same. */
  ghost predicate DistinctNfcKeys(v: Json, nfc: Normaliser)
    decreases v
  {
    match v
    case Array(items) => forall i :: 0 <= i < |items| ==> DistinctNfcKeys(items[i], nfc)
    case Object(entries) =>
      DistinctKeys(Rekeyed(entries, nfc)) && forall i :: 0 <= i < |entries| ==> DistinctNfcKeys(entries[i].value, nfc)
    case _ => true
  }

  lemma {:induction false} WithNfcKeysIsSame(v: Json, nfc: Normaliser)
    requires Idempotent(nfc) && Parsed(v) && DistinctNfcKeys(v, nfc)
    ensures Same(v, WithNfcKeys(v, nfc), nfc) && Parsed(WithNfcKeys(v, nfc)) && NfcKeys(WithNfcKeys(v, nfc), nfc)
    decreases v
  {
    match v
    case Array(items) =>
      forall i | 0 <= i < |items|
        ensures Same(items[i], WithNfcKeys(items[i], nfc), nfc)
        ensures Parsed(WithNfcKeys(items[i], nfc)) && NfcKeys(WithNfcKeys(items[i], nfc), nfc)
      {
        WithNfcKeysIsSame(items[i], nfc);
      }
    case Object(entries) =>
      var es := WithNfcKeys(v, nfc).entries;
      forall i | 0 <= i < |entries|
        ensures SomeSame(entries[i], es, nfc) && Parsed(es[i].value) && NfcKeys(es[i].value, nfc)
      {
        WithNfcKeysIsSame(entries[i].value, nfc);
        assert nfc(entries[i].key) == nfc(es[i].key);
      }
      assert forall i :: 0 <= i < |entries| ==> es[i].key == Rekeyed(entries, nfc)[i].key;
    case _ =>
  }

  /** Every object lists its entries in strict key order. */
  ghost predicate InKeyOrder(v: Json)
    decreases v
  {
    match v
    case Array(items) => forall i :: 0 <= i < |items| ==> InKeyOrder(items[i])
    case Object(entries) => StrictlySorted(entries) && forall i :: 0 <= i < |entries| ==> InKeyOrder(entries[i].value)
    case _ => true
  }

  lemma {:induction false} CanonInKeyOrder(v: Json, nfc: Normaliser)
    requires Parsed(v)
    ensures InKeyOrder(Canon(v, nfc)) <==> Stable(v, nfc)
    decreases v
  {
    match v
    case Array(items) =>
      forall i | 0 <= i < |items| ensures InKeyOrder(Canon(items[i], nfc)) <==> Stable(items[i], nfc) {
        CanonInKeyOrder(items[i], nfc);
      }
      var canon := Canon(v, nfc).items;
      assert forall i :: 0 <= i < |items| ==> canon[i] == Canon(items[i], nfc);
    case Object(entries) =>
      var values := CanonValues(entries, nfc);
      forall i | 0 <= i < |entries| ensures InKeyOrder(values[i].value) <==> Stable(entries[i].value, nfc) {
        CanonInKeyOrder(entries[i].value, nfc);
      }
      SortedStays(values, nfc);
      AllSorted(values, nfc);
    case _ =>
  }

  lemma AllSorted(s: seq<Entry>, nfc: Normaliser)
    ensures (forall i :: 0 <= i < |s| ==> InKeyOrder(s[i].value)) <==>
            (forall i :: 0 <= i < |Sort(s)| ==> InKeyOrder(Rekeyed(Sort(s), nfc)[i].value))
  {
    var t := Sort(s);
    if forall i :: 0 <= i < |s| ==> InKeyOrder(s[i].value) {
      forall i | 0 <= i < |t| ensures InKeyOrder(Rekeyed(t, nfc)[i].value) {
        SortElements(s, t[i]);
      }
    }
    if forall i :: 0 <= i < |t| ==> InKeyOrder(Rekeyed(t, nfc)[i].value) {
      forall i | 0 <= i < |s| ensures InKeyOrder(s[i].value) {
        var m := PlaceOf(s, i);
        assert Rekeyed(t, nfc)[m].value == s[i].value;
      }
    }
  }

  /**
   The condition is exact: a value prints like its twin with normalised keys, which is the same value, if and only if
   normalising keeps the order of the keys of every object in it.
   */
  lemma StableIffPrintsLikeNfcTwin(v: Json, nfc: Normaliser)
    requires Idempotent(nfc) && Parsed(v) && DistinctNfcKeys(v, nfc)
    ensures var twin := WithNfcKeys(v, nfc);
            && Same(v, twin, nfc) && Parsed(twin) && NfcKeys(twin, nfc)
            && (CanonicalJson(v, nfc) == CanonicalJson(twin, nfc) <==> Stable(v, nfc))
  {
    var twin := WithNfcKeys(v, nfc);
    WithNfcKeysIsSame(v, nfc);
    NfcKeysAreStable(twin, nfc);
    PrintsAlike(v, twin, nfc);
    CanonInKeyOrder(v, nfc);
    CanonInKeyOrder(twin, nfc);
    if Stable(v, nfc) {
      CanonIsSame(v, twin, nfc);
    }
  }

  /** A key in decomposed form sorts before "f", its normal form after it: two renderings of one object. */
  lemma DecomposedKeyPrintsDifferently(nfc: Normaliser)
    requires Idempotent(nfc) && nfc(['e', '\U{301}']) == ['\U{E9}'] && nfc(['f']) == ['f']
    ensures var v := Object([Entry(['e', '\U{301}'], Number("1")), Entry(['f'], Number("2"))]);
            var twin := WithNfcKeys(v, nfc);
            Same(v, twin, nfc) && CanonicalJson(v, nfc) != CanonicalJson(twin, nfc)
  {
    var first, second := Entry(['e', '\U{301}'], Number("1")), Entry(['f'], Number("2"));
    var v := Object([first, second]);
    assert Parsed(first.value) && Parsed(second.value);
    assert Less(first.key, second.key) && !Less(nfc(first.key), nfc(second.key));
    assert v.entries[0] == first && v.entries[1] == second;
    assert !KeepsOrder(v.entries, nfc);
    StableIffPrintsLikeNfcTwin(v, nfc);
  }

  // ---- the writer ----

  class Buffer {
    var text: string

    constructor ()
      ensures text == ""
    {
      text := "";
    }
  }

  lemma {:induction false} InsertCanon(s: seq<Entry>, e: Entry, nfc: Normaliser)
    ensures CanonValues(Insert(s, e), nfc) == Insert(CanonValues(s, nfc), Entry(e.key, Canon(e.value, nfc)))
    decreases |s|
  {
    if s != [] && !Less(e.key, s[0].key) {
      InsertCanon(s[1..], e, nfc);
      assert CanonValues(s, nfc)[1..] == CanonValues(s[1..], nfc);
    }
  }

  /** Sorting the entries and writing each in turn is sorting the written entries. */
  lemma {:induction false} SortCanon(s: seq<Entry>, nfc: Normaliser)
    ensures CanonValues(Sort(s), nfc) == Sort(CanonValues(s, nfc))
    decreases |s|
  {
    if s != [] {
      SortCanon(s[1..], nfc);
      InsertCanon(Sort(s[1..]), s[0], nfc);
      assert CanonValues(s, nfc)[1..] == CanonValues(s[1..], nfc);
    }
  }

  /** What is still to be written of a list when `i` of its items are out. */
  function ItemsLeft(items: seq<Json>, i: nat): string
    requires i <= |items|
  {
    if i == 0 then RenderItems(items) else MoreItems(items[i..])
  }

  function EntriesLeft(entries: seq<Entry>, i: nat): string
    requires i <= |entries|
  {
    if i == 0 then RenderEntries(entries) else MoreEntries(entries[i..])
  }

  lemma NextItem(items: seq<Json>, i: nat)
    requires i < |items|
    ensures ItemsLeft(items, i) == (if i > 0 then [','] else []) + Render(items[i]) + ItemsLeft(items, i + 1)
  {
    assert items[i..][1..] == items[i + 1..];
    Assoc([','], Render(items[i]), MoreItems(items[i + 1..]));
  }

  lemma NextEntry(entries: seq<Entry>, i: nat)
    requires i < |entries|
    ensures EntriesLeft(entries, i) ==
            (if i > 0 then [','] else []) + Quoted(entries[i].key) + [':'] + Render(entries[i].value)
            + EntriesLeft(entries, i + 1)
  {
    assert entries[i..][1..] == entries[i + 1..];
    var key, text, rest := Quoted(entries[i].key), Render(entries[i].value), MoreEntries(entries[i + 1..]);
    assert RenderEntry(entries[i]) == key + [':'] + text;
    assert [','] + ((key + [':'] + text) + rest) == [','] + key + [':'] + text + rest;
  }

  method WriteJsonString(s: string, out: Buffer)
    modifies out
    ensures out.text == old(out.text) + Quoted(s)
  {
    out.text := out.text + Quoted(s);
  }

  /** The recursive writer appends exactly the text of the canonical form. */
  method WriteCanonical(v: Json, nfc: Normaliser, out: Buffer)
    modifies out
    ensures out.text == old(out.text) + CanonicalJson(v, nfc)
    decreases v, 1
  {
    match v {
      case Null => out.text := out.text + "null";
      case Bool(b) => out.text := out.text + (if b then "true" else "false");
      case Number(text) => out.text := out.text + text;
      case String(chars) => WriteJsonString(nfc(chars), out);
      case Array(items) => WriteItems(v, nfc, out);
      case Object(entries) => WriteEntries(v, nfc, out);
    }
  }

  method WriteItems(v: Json, nfc: Normaliser, out: Buffer)
    requires v.Array?
    modifies out
    ensures out.text == old(out.text) + CanonicalJson(v, nfc)
    decreases v, 0
  {
    ghost var before, done := out.text, Canon(v, nfc).items;
    out.text := out.text + ['['];
    Assoc(before, ['['], RenderItems(done));
    for i := 0 to |v.items|
      invariant |done| == |v.items| && out.text + ItemsLeft(done, i) == before + CanonicalJson(v, nfc)
    {
      NextItem(done, i);
      ghost var text, comma, rest := out.text, if i > 0 then [','] else [], ItemsLeft(done, i + 1);
      if i > 0 {
        out.text := out.text + [','];
      }
      WriteCanonical(v.items[i], nfc, out);
      assert out.text == text + comma + Render(done[i]);
      Assoc4(text, comma, Render(done[i]), rest);
    }
    out.text := out.text + [']'];
  }

  lemma Assoc4(a: string, b: string, c: string, d: string)
    ensures (a + b + c) + d == a + (b + c + d)
  {
  }

  lemma Assoc6(a: string, b: string, c: string, d: string, e: string, f: string)
    ensures (a + b + c + d + e) + f == a + (b + c + d + e + f)
  {
  }

  /** One entry, behind a comma unless it is the first. */
  method WriteEntry(e: Entry, first: bool, nfc: Normaliser, out: Buffer)
    modifies out
    ensures out.text == old(out.text) + (if first then [] else [','])
            + Quoted(nfc(e.key)) + [':'] + CanonicalJson(e.value, nfc)
    decreases e.value, 2
  {
    if !first {
      out.text := out.text + [','];
    }
    WriteJsonString(nfc(e.key), out);
    out.text := out.text + [':'];
    WriteCanonical(e.value, nfc, out);
  }

  /** What is left after an entry is written is what was left before it, without the entry. */
  lemma EntryWritten(text: string, text': string, goal: string, done: seq<Entry>, i: nat)
    requires i < |done| && text + EntriesLeft(done, i) == goal
    requires text' == text + (if i == 0 then [] else [',']) + Quoted(done[i].key) + [':'] + Render(done[i].value)
    ensures text' + EntriesLeft(done, i + 1) == goal
  {
    NextEntry(done, i);
    Assoc6(
      text, if i > 0 then [','] else [], Quoted(done[i].key), [':'], Render(done[i].value), EntriesLeft(done, i + 1));
  }

  /** The canonical entries are the sorted ones, each normalised. */
  lemma CanonEntry(v: Json, nfc: Normaliser, i: nat)
    requires v.Object? && i < |Sort(v.entries)|
    ensures var e, done := Sort(v.entries)[i], Canon(v, nfc).entries;
            i < |done| == |Sort(v.entries)| && done[i] == Entry(nfc(e.key), Canon(e.value, nfc))
  {
    SortCanon(v.entries, nfc);
  }

  method WriteEntries(v: Json, nfc: Normaliser, out: Buffer)
    requires v.Object?
    modifies out
    ensures out.text == old(out.text) + CanonicalJson(v, nfc)
    decreases v, 0
  {
    var sorted := Sort(v.entries);
    ghost var before, done, goal := out.text, Canon(v, nfc).entries, out.text + CanonicalJson(v, nfc);
    SortCanon(v.entries, nfc);
    assert |done| == |sorted|;
    out.text := out.text + ['{'];
    Assoc(before, ['{'], RenderEntries(done));
    for i := 0 to |sorted|
      invariant out.text + EntriesLeft(done, i) == goal
    {
      CanonEntry(v, nfc, i);
      ghost var text := out.text;
      SortElements(v.entries, sorted[i]);
      WriteEntry(sorted[i], i == 0, nfc, out);
      EntryWritten(text, out.text, goal, done, i);
    }
    out.text := out.text + ['}'];
  }

  method ToCanonicalJson(v: Json, nfc: Normaliser) returns (text: string)
    ensures text == CanonicalJson(v, nfc)
  {
    var out := new Buffer();
    WriteCanonical(v, nfc, out);
    text := out.text;
  }
}
