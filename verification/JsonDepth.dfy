/** JSON values and the guard on their nesting depth. */
module JsonValue {

  /** A number is kept as the text it renders to; an object lists its entries in the order its map yields them. */
  datatype Json =
    | Null
    | Bool(value: bool)
    | Number(text: string)
    | String(chars: string)
    | Array(items: seq<Json>)
    | Object(entries: seq<Entry>)

  datatype Entry = Entry(key: string, value: Json)
}

module JsonDepth {
  import opened Domain
  import opened JsonValue

  datatype LimitViolation = TooDeep(actual: nat, max: nat)

  function Max(a: nat, b: nat): nat {
    if a >= b then a else b
  }

  // ---- what depth means ----

  function Depth(v: Json): nat
    decreases v
  {
    match v
    case Array(items) => 1 + DeepestItem(items)
    case Object(entries) => 1 + DeepestEntry(entries)
    case _ => 1
  }

  function DeepestItem(items: seq<Json>): nat
    decreases items
  {
    if items == [] then 0 else Max(Depth(items[0]), DeepestItem(items[1..]))
  }

  function DeepestEntry(entries: seq<Entry>): nat
    decreases entries
  {
    if entries == [] then 0 else Max(Depth(entries[0].value), DeepestEntry(entries[1..]))
  }

  predicate IsChild(child: Json, v: Json) {
    || (v.Array? && child in v.items)
    || (v.Object? && exists i :: 0 <= i < |v.entries| && v.entries[i].value == child)
  }

  /** Values nested in one another, from `v` inwards. */
  predicate IsChain(v: Json, chain: seq<Json>) {
    && chain != [] && chain[0] == v
    && forall i :: 0 < i < |chain| ==> IsChild(chain[i], chain[i - 1])
  }

  lemma {:induction false} ItemIsShallower(items: seq<Json>, child: Json)
    requires child in items
    ensures Depth(child) <= DeepestItem(items)
    decreases |items|
  {
    if items[0] != child {
      ItemIsShallower(items[1..], child);
    }
  }

  lemma {:induction false} EntryIsShallower(entries: seq<Entry>, i: nat)
    requires i < |entries|
    ensures Depth(entries[i].value) <= DeepestEntry(entries)
    decreases |entries|
  {
    if i > 0 {
      EntryIsShallower(entries[1..], i - 1);
    }
  }

  lemma ChildIsShallower(child: Json, v: Json)
    requires IsChild(child, v)
    ensures Depth(child) < Depth(v)
  {
    if v.Array? {
      ItemIsShallower(v.items, child);
    } else {
      var i :| 0 <= i < |v.entries| && v.entries[i].value == child;
      EntryIsShallower(v.entries, i);
    }
  }

  /** No chain of nested values is longer than the depth. */
  lemma {:induction false} ChainFits(v: Json, chain: seq<Json>)
    requires IsChain(v, chain)
    ensures |chain| <= Depth(v)
    decreases |chain|
  {
    if |chain| > 1 {
      assert IsChild(chain[1], v);
      ChildIsShallower(chain[1], v);
      forall i | 0 < i < |chain| - 1 ensures IsChild(chain[1..][i], chain[1..][i - 1]) {
        assert IsChild(chain[i + 1], chain[i]);
      }
      ChainFits(chain[1], chain[1..]);
    }
  }

  lemma {:induction false} DeepestOfItems(items: seq<Json>) returns (child: Json)
    requires items != []
    ensures child in items && Depth(child) == DeepestItem(items)
    decreases |items|
  {
    child := items[0];
    if |items| > 1 {
      var other := DeepestOfItems(items[1..]);
      if Depth(other) > Depth(child) {
        child := other;
      }
    }
  }

  lemma {:induction false} DeepestOfEntries(entries: seq<Entry>) returns (i: nat)
    requires entries != []
    ensures i < |entries| && Depth(entries[i].value) == DeepestEntry(entries)
    decreases |entries|
  {
    i := 0;
    if |entries| > 1 {
      var j := DeepestOfEntries(entries[1..]);
      if Depth(entries[1..][j].value) > Depth(entries[0].value) {
        i := j + 1;
      }
    }
  }

  lemma ChainPush(v: Json, chain: seq<Json>)
    requires chain != [] && IsChain(chain[0], chain) && IsChild(chain[0], v)
    ensures IsChain(v, [v] + chain)
  {
    var longer := [v] + chain;
    forall i | 0 < i < |longer| ensures IsChild(longer[i], longer[i - 1]) {
      assert i > 1 ==> IsChild(chain[i - 1], chain[i - 2]);
    }
  }

  /** And there is one as long. */
  lemma {:induction false} ChainReaches(v: Json) returns (chain: seq<Json>)
    ensures IsChain(v, chain) && |chain| == Depth(v)
    decreases v
  {
    chain := [v];
    if v.Array? && v.items != [] {
      var child := DeepestOfItems(v.items);
      var more := ChainReaches(child);
      ChainPush(v, more);
      chain := [v] + more;
    } else if v.Object? && v.entries != [] {
      var i := DeepestOfEntries(v.entries);
      var more := ChainReaches(v.entries[i].value);
      ChainPush(v, more);
      chain := [v] + more;
    }
  }

  /** Depth is the length of the longest chain: a value is within a limit exactly when all its chains are. */
  lemma DepthIsLongestChain(v: Json, limit: nat)
    ensures Depth(v) <= limit <==> forall chain :: IsChain(v, chain) ==> |chain| <= limit
  {
    forall chain | IsChain(v, chain) ensures |chain| <= Depth(v) {
      ChainFits(v, chain);
    }
    var longest := ChainReaches(v);
  }

  /** How many nodes a value has. */
  function Nodes(v: Json): nat
    decreases v
  {
    match v
    case Array(items) => 1 + ItemNodes(items)
    case Object(entries) => 1 + EntryNodes(entries)
    case _ => 1
  }

  function ItemNodes(items: seq<Json>): nat
    decreases items
  {
    if items == [] then 0 else Nodes(items[0]) + ItemNodes(items[1..])
  }

  function EntryNodes(entries: seq<Entry>): nat
    decreases entries
  {
    if entries == [] then 0 else Nodes(entries[0].value) + EntryNodes(entries[1..])
  }

  // ---- the work on the stack ----

  /** The root is at level 1. */
  type Level = d: int | d >= 1 witness 1

  type Frame = (Json, Level)

  /** The deepest level any pending node reaches. */
  function Reach(stack: seq<Frame>): nat
    decreases |stack|
  {
    if stack == [] then 0
    else
      var (node, depth) := stack[|stack| - 1];
      Max(Reach(stack[..|stack| - 1]), depth - 1 + Depth(node))
  }

  function Pending(stack: seq<Frame>): nat
    decreases |stack|
  {
    if stack == [] then 0 else Pending(stack[..|stack| - 1]) + Nodes(stack[|stack| - 1].0)
  }

  lemma PushFrame(stack: seq<Frame>, node: Json, depth: Level)
    ensures Reach(stack + [(node, depth)]) == Max(Reach(stack), depth - 1 + Depth(node))
    ensures Pending(stack + [(node, depth)]) == Pending(stack) + Nodes(node)
  {
    assert (stack + [(node, depth)])[..|stack|] == stack;
  }

  lemma OneFrame(value: Json)
    ensures Reach([(value, 1)]) == Depth(value)
  {
    PushFrame([], value, 1);
    assert [(value, 1)] == [] + [(value, 1)];
  }

  lemma MaxMoves(a: nat, b: nat, c: nat, d: nat)
    ensures Max(a, d + Max(b, c)) == Max(Max(a, d + b), d + c)
  {
  }

  /** Pushing the next item moves it from what is left of the list to the stack. */
  lemma PushItem(stack: seq<Frame>, items: seq<Json>, i: nat, depth: Level)
    requires i < |items|
    ensures var stack' := stack + [(items[i], depth + 1)];
            && Max(Reach(stack'), depth + DeepestItem(items[i + 1..]))
               == Max(Reach(stack), depth + DeepestItem(items[i..]))
            && Pending(stack') + ItemNodes(items[i + 1..]) == Pending(stack) + ItemNodes(items[i..])
  {
    assert items[i..][1..] == items[i + 1..];
    PushFrame(stack, items[i], depth + 1);
    MaxMoves(Reach(stack), Depth(items[i]), DeepestItem(items[i + 1..]), depth);
  }

  lemma PushEntry(stack: seq<Frame>, entries: seq<Entry>, i: nat, depth: Level)
    requires i < |entries|
    ensures var stack' := stack + [(entries[i].value, depth + 1)];
            && Max(Reach(stack'), depth + DeepestEntry(entries[i + 1..]))
               == Max(Reach(stack), depth + DeepestEntry(entries[i..]))
            && Pending(stack') + EntryNodes(entries[i + 1..]) == Pending(stack) + EntryNodes(entries[i..])
  {
    assert entries[i..][1..] == entries[i + 1..];
    PushFrame(stack, entries[i].value, depth + 1);
    MaxMoves(Reach(stack), Depth(entries[i].value), DeepestEntry(entries[i + 1..]), depth);
  }

  method PushItems(stack: seq<Frame>, items: seq<Json>, depth: Level) returns (stack': seq<Frame>)
    ensures Max(depth, Reach(stack')) == Max(Reach(stack), depth + DeepestItem(items))
    ensures Pending(stack') == Pending(stack) + ItemNodes(items)
  {
    stack' := stack;
    for i := 0 to |items|
      invariant Max(Reach(stack'), depth + DeepestItem(items[i..])) == Max(Reach(stack), depth + DeepestItem(items))
      invariant Pending(stack') + ItemNodes(items[i..]) == Pending(stack) + ItemNodes(items)
    {
      PushItem(stack', items, i, depth);
      stack' := stack' + [(items[i], depth + 1)];
    }
  }

  method PushEntries(stack: seq<Frame>, entries: seq<Entry>, depth: Level) returns (stack': seq<Frame>)
    ensures Max(depth, Reach(stack')) == Max(Reach(stack), depth + DeepestEntry(entries))
    ensures Pending(stack') == Pending(stack) + EntryNodes(entries)
  {
    stack' := stack;
    for i := 0 to |entries|
      invariant Max(Reach(stack'), depth + DeepestEntry(entries[i..]))
                == Max(Reach(stack), depth + DeepestEntry(entries))
      invariant Pending(stack') + EntryNodes(entries[i..]) == Pending(stack) + EntryNodes(entries)
    {
      PushEntry(stack', entries, i, depth);
      stack' := stack' + [(entries[i].value, depth + 1)];
    }
  }

  method PushChildren(stack: seq<Frame>, node: Json, depth: Level) returns (stack': seq<Frame>)
    ensures Max(depth, Reach(stack')) == Max(Reach(stack), depth - 1 + Depth(node))
    ensures Pending(stack') < Pending(stack) + Nodes(node)
  {
    match node {
      case Array(items) => stack' := PushItems(stack, items, depth);
      case Object(entries) => stack' := PushEntries(stack, entries, depth);
      case _ => stack' := stack;
    }
  }

  lemma MaxSettles(max: nat, depth: nat, before: nat, reach: nat, after: nat)
    requires Max(depth, after) == Max(before, reach)
    ensures Max(Max(max, depth), after) == Max(max, Max(before, reach))
  {
  }

  /** The explicit stack runs dry, and by then it has measured the recursive depth. */
  method Measure(value: Json) returns (maxDepth: nat)
    ensures maxDepth == Depth(value)
  {
    maxDepth := 0;
    var stack: seq<Frame> := [(value, 1)];
    OneFrame(value);
    while stack != []
      invariant Max(maxDepth, Reach(stack)) == Depth(value)
      decreases Pending(stack)
    {
      var (node, depth) := stack[|stack| - 1];
      var rest := stack[..|stack| - 1];
      ghost var was := maxDepth;
      maxDepth := Max(maxDepth, depth);
      stack := PushChildren(rest, node, depth);
      MaxSettles(was, depth, Reach(rest), depth - 1 + Depth(node), Reach(stack));
      assert Max(maxDepth, Reach(stack)) == Depth(value);
    }
  }

  /** Accepts exactly the values no deeper than the limit. */
  method ValidateDepth(value: Json, maxJsonDepth: nat) returns (out: Result<(), LimitViolation>)
    ensures out.Ok? <==> forall chain :: IsChain(value, chain) ==> |chain| <= maxJsonDepth
    ensures out.Err? ==> out.error == TooDeep(Depth(value), maxJsonDepth)
  {
    var actual := Measure(value);
    DepthIsLongestChain(value, maxJsonDepth);
    if actual > maxJsonDepth {
      return Err(TooDeep(actual, maxJsonDepth));
    }
    return Ok(());
  }
}
