/** Saturating sums of usage figures: capping late or early, and in any order, gives the same total. */
module UsageSums {
  import opened Domain

  /** A response and one of its attempts. */
  type Slot = (ResponseId, nat)

  /** The two counters of a usage figure. */
  datatype Side = In | Out

  function Count(u: Usage, side: Side): nat {
    if side == In then u.input else u.output
  }

  /** An exact total as a saturating counter shows it. */
  function Cap(n: nat): nat {
    if n <= U64_MAX then n else U64_MAX
  }

  function Sum(us: seq<Usage>, side: Side): nat {
    if us == [] then 0 else Sum(us[..|us| - 1], side) + Count(us[|us| - 1], side)
  }

  lemma SumPush(us: seq<Usage>, u: Usage, side: Side)
    ensures Sum(us + [u], side) == Sum(us, side) + Count(u, side)
  {
    assert (us + [u])[..|us|] == us;
  }

  lemma AccumulateCaps(a: Usage, b: Usage, side: Side)
    ensures Count(a.Accumulate(b), side) == Cap(Count(a, side) + Count(b, side))
  {
  }

  ghost function Pick(keys: set<Slot>): (k: Slot)
    requires keys != {}
    ensures k in keys
  {
    var k :| k in keys; k
  }

  /** The exact sum of the entries under `keys`. */
  ghost function SumOver(m: map<Slot, Usage>, keys: set<Slot>, side: Side): nat
    requires keys <= m.Keys
    decreases |keys|
  {
    if keys == {} then 0 else Count(m[Pick(keys)], side) + SumOver(m, keys - {Pick(keys)}, side)
  }

  /** Any entry may be taken out first. */
  lemma {:induction false} SumOverAny(m: map<Slot, Usage>, keys: set<Slot>, k: Slot, side: Side)
    requires keys <= m.Keys && k in keys
    ensures SumOver(m, keys, side) == Count(m[k], side) + SumOver(m, keys - {k}, side)
    decreases |keys|
  {
    var p := Pick(keys);
    if p != k {
      SumOverAny(m, keys - {p}, k, side);
      SumOverAny(m, keys - {k}, p, side);
      assert keys - {p} - {k} == keys - {k} - {p};
    }
  }

  lemma {:induction false} SumOverSame(m: map<Slot, Usage>, m': map<Slot, Usage>, keys: set<Slot>, side: Side)
    requires keys <= m.Keys && keys <= m'.Keys && forall k :: k in keys ==> m[k] == m'[k]
    ensures SumOver(m, keys, side) == SumOver(m', keys, side)
    decreases |keys|
  {
    if keys != {} {
      SumOverSame(m, m', keys - {Pick(keys)}, side);
    }
  }

  function SlotsOf(m: map<Slot, Usage>, r: ResponseId): set<Slot> {
    set k | k in m && k.0 == r
  }

  /** Everything booked against the attempts of `r`. */
  ghost function PartialSum(m: map<Slot, Usage>, r: ResponseId, side: Side): nat {
    SumOver(m, SlotsOf(m, r), side)
  }

  lemma NoneLeft(m: map<Slot, Usage>, r: ResponseId, side: Side)
    requires forall k :: k in m ==> k.0 != r
    ensures PartialSum(m, r, side) == 0
  {
    assert SlotsOf(m, r) == {};
  }

  lemma WithoutSlots(m: map<Slot, Usage>, id: ResponseId, r: ResponseId, side: Side)
    requires r != id
    ensures PartialSum(map k | k in m && k.0 != id :: m[k], r, side) == PartialSum(m, r, side)
  {
    var m' := map k | k in m && k.0 != id :: m[k];
    assert SlotsOf(m', r) == SlotsOf(m, r);
    SumOverSame(m, m', SlotsOf(m, r), side);
  }

  /** Accumulating into one slot moves that response's capped total by the amount, and no other's. */
  lemma AccumulateAt(m: map<Slot, Usage>, k: Slot, u: Usage, base: nat, r: ResponseId, side: Side)
    ensures var entry := if k in m then m[k] else ZERO_USAGE;
            var m' := m[k := entry.Accumulate(u)];
            && (r != k.0 ==> PartialSum(m', r, side) == PartialSum(m, r, side))
            && (r == k.0 ==> Cap(base + PartialSum(m', r, side)) == Cap(base + PartialSum(m, r, side) + Count(u, side)))
  {
    var entry := if k in m then m[k] else ZERO_USAGE;
    var m' := m[k := entry.Accumulate(u)];
    AccumulateCaps(entry, u, side);
    if r != k.0 {
      assert SlotsOf(m', r) == SlotsOf(m, r);
      SumOverSame(m, m', SlotsOf(m, r), side);
    } else {
      var rest := SlotsOf(m, r) - {k};
      assert SlotsOf(m', r) - {k} == rest;
      SumOverSame(m, m', rest, side);
      SumOverAny(m', SlotsOf(m', r), k, side);
      if k in m {
        SumOverAny(m, SlotsOf(m, r), k, side);
      } else {
        assert SlotsOf(m, r) == rest;
      }
    }
  }
}
