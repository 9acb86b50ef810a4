/**
 The order of UTF-8 encodings. The canonical writer sorts keys by their bytes; the model compares their characters.
 The two orders are the same.
 */
module Utf8 {
  import opened Canonical

  /** `n` in `k` continuation bytes of six bits each, behind a first byte that carries `mark` and what is left. */
  function Code(n: nat, k: nat, mark: nat): (code: seq<nat>)
    ensures code != []
    decreases k
  {
    if k == 0 then [mark + n] else Code(n / 64, k - 1, mark) + [0x80 + n % 64]
  }

  /** How many continuation bytes a character needs: section 3 of RFC 3629. */
  function Continuations(c: char): nat {
    var n := c as int;
    if n < 0x80 then 0 else if n < 0x800 then 1 else if n < 0x1_0000 then 2 else 3
  }

  function Mark(k: nat): nat {
    if k == 0 then 0 else if k == 1 then 0xC0 else if k == 2 then 0xE0 else 0xF0
  }

  function Encoded(c: char): seq<nat> {
    Code(c as int, Continuations(c), Mark(Continuations(c)))
  }

  function Bytes(s: string): seq<nat> {
    if s == [] then [] else Encoded(s[0]) + Bytes(s[1..])
  }

  /** The order of byte slices: the first difference decides, and a prefix comes first. */
  predicate BytesLess(a: seq<nat>, b: seq<nat>) {
    b != [] && (a == [] || a[0] < b[0] || (a[0] == b[0] && BytesLess(a[1..], b[1..])))
  }

  lemma {:induction false} BytesLessIsStrict(a: seq<nat>, b: seq<nat>)
    requires BytesLess(a, b)
    ensures !BytesLess(b, a)
    decreases |a|
  {
    if a != [] && a[0] == b[0] {
      BytesLessIsStrict(a[1..], b[1..]);
    }
  }

  lemma {:induction false} SamePrefix(p: seq<nat>, x: seq<nat>, y: seq<nat>)
    ensures BytesLess(p + x, p + y) <==> BytesLess(x, y)
    decreases |p|
  {
    if p == [] {
      assert p + x == x && p + y == y;
    } else {
      SamePrefix(p[1..], x, y);
      assert (p + x)[1..] == p[1..] + x && (p + y)[1..] == p[1..] + y;
    }
  }

  lemma Assoc(a: seq<nat>, b: seq<nat>, c: seq<nat>)
    ensures (a + b) + c == a + (b + c)
  {
  }

  /** Among codes of one length the smaller number comes first, whatever follows. */
  lemma {:induction false} CodeKeepsOrder(n: nat, m: nat, k: nat, mark: nat, x: seq<nat>, y: seq<nat>)
    requires n < m
    ensures BytesLess(Code(n, k, mark) + x, Code(m, k, mark) + y)
    decreases k
  {
    if k > 0 {
      var p, q, a, b := Code(n / 64, k - 1, mark), Code(m / 64, k - 1, mark), [0x80 + n % 64], [0x80 + m % 64];
      Assoc(p, a, x);
      Assoc(q, b, y);
      if n / 64 < m / 64 {
        CodeKeepsOrder(n / 64, m / 64, k - 1, mark, a + x, b + y);
      } else {
        SamePrefix(p, a + x, b + y);
      }
    }
  }

  /** The first byte of a code. */
  lemma LeadByte(n: nat)
    ensures Code(n, 0, Mark(0))[0] == n
    ensures Code(n, 1, Mark(1))[0] == 0xC0 + n / 64
    ensures Code(n, 2, Mark(2))[0] == 0xE0 + n / 64 / 64
    ensures Code(n, 3, Mark(3))[0] == 0xF0 + n / 64 / 64 / 64
  {
    assert Code(n / 64 / 64, 0, 0xE0) == [0xE0 + n / 64 / 64];
    assert Code(n / 64, 1, 0xE0)[0] == 0xE0 + n / 64 / 64;
    assert Code(n / 64 / 64 / 64, 0, 0xF0) == [0xF0 + n / 64 / 64 / 64];
    assert Code(n / 64 / 64, 1, 0xF0)[0] == 0xF0 + n / 64 / 64 / 64;
    assert Code(n / 64, 2, 0xF0)[0] == 0xF0 + n / 64 / 64 / 64;
  }

  /** A character that takes more bytes starts with a larger one. */
  lemma LongerStartsLarger(c: char, d: char)
    requires Continuations(c) < Continuations(d)
    ensures Encoded(c)[0] < Encoded(d)[0]
  {
    LeadByte(c as int);
    LeadByte(d as int);
  }

  lemma SmallerCharFirst(c: char, d: char, x: seq<nat>, y: seq<nat>)
    requires c < d
    ensures BytesLess(Encoded(c) + x, Encoded(d) + y)
  {
    if Continuations(c) < Continuations(d) {
      LongerStartsLarger(c, d);
    } else {
      CodeKeepsOrder(c as int, d as int, Continuations(c), Mark(Continuations(c)), x, y);
    }
  }

  /** Comparing keys by their characters is comparing them by their bytes. */
  lemma {:induction false} LessIsByteOrder(a: string, b: string)
    ensures Less(a, b) <==> BytesLess(Bytes(a), Bytes(b))
    decreases |a|
  {
    if a != [] && b != [] {
      if a[0] < b[0] {
        SmallerCharFirst(a[0], b[0], Bytes(a[1..]), Bytes(b[1..]));
      } else if b[0] < a[0] {
        SmallerCharFirst(b[0], a[0], Bytes(b[1..]), Bytes(a[1..]));
        BytesLessIsStrict(Bytes(b), Bytes(a));
      } else {
        SamePrefix(Encoded(a[0]), Bytes(a[1..]), Bytes(b[1..]));
        LessIsByteOrder(a[1..], b[1..]);
      }
    }
  }
}
