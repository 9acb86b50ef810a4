/**
 Admission through a node's ledger client. The client reads the shared in-flight count and then asks the carrier to
 create, two separate calls, so other creators get in between: the node's limit is a soft one. How soft is proved here.
 */
module Admission {
  import opened Domain
  import opened LedgerSpec
  import R = LedgerRuns

  /** The carrier's ledger and the creators that have seen room and not yet created. */
  datatype State = State(w: R.World, passed: set<nat>)

  const START := State(R.START, {})

  datatype Step =
    | Check(creator: nat, readOnly: bool)
    | Forward(creator: nat, rec: ResponseRecord, key: IdempotencyKey, carrier: Config)
    | Serve(call: R.Call)

  /** The node's limit, and how many creators may be under way at once. */
  datatype Node = Node(limit: nat, creators: nat)

  ghost predicate Legal(s: State, step: Step, node: Node) {
    match step
    case Check(a, _) => a !in s.passed && |s.passed| < node.creators
    case Forward(a, rec, key, carrier) =>
      a in s.passed && R.Legal(s.w, R.Call.Create(rec, key, carrier), carrier.pendingLimit)
    case Serve(call) => !call.Create? && R.Legal(s.w, call, node.limit)
  }

  function Next(s: State, step: Step, node: Node): State {
    match step
    case Check(a, readOnly) =>
      if readOnly || |InFlight(s.w.l.records)| >= node.limit then s else s.(passed := s.passed + {a})
    case Forward(a, rec, key, carrier) => State(R.NextCreate(s.w, rec, key, carrier), s.passed - {a})
    case Serve(call) => s.(w := R.Next(s.w, call))
  }

  function After(steps: seq<Step>, node: Node): State
    decreases |steps|
  {
    if steps == [] then START else Next(After(steps[..|steps| - 1], node), steps[|steps| - 1], node)
  }

  ghost predicate IsRun(steps: seq<Step>, node: Node) {
    forall i {:trigger steps[i]} :: 0 <= i < |steps| ==> Legal(After(steps[..i], node), steps[i], node)
  }

  function InFlightCount(s: State): nat {
    |InFlight(s.w.l.records)|
  }

  /** A creator that has passed counts as if it had already created. */
  ghost predicate Inv(s: State, node: Node) {
    |s.passed| <= node.creators && InFlightCount(s) + |s.passed| <= node.limit + node.creators - 1
  }

  /** The check lets a creator pass exactly if its node takes writes and there is room at that moment. */
  lemma PassesExactly(s: State, a: nat, readOnly: bool, node: Node)
    requires a !in s.passed
    ensures a in Next(s, Check(a, readOnly), node).passed <==> !readOnly && InFlightCount(s) < node.limit
    ensures Next(s, Check(a, readOnly), node).w == s.w
  {
  }

  lemma StepKeepsInv(s: State, step: Step, node: Node)
    requires Inv(s, node) && Legal(s, step, node)
    ensures Inv(Next(s, step, node), node)
  {
    match step
    case Check(a, readOnly) =>
    case Forward(a, rec, key, carrier) =>
      R.CreateInserts(s.w, rec, key, carrier);
      R.OneMoreInFlight(s.w.l.records, rec);
    case Serve(call) => R.StepKeepsLimit(s.w, call, InFlightCount(s));
  }

  lemma {:induction false} RunKeepsInv(steps: seq<Step>, node: Node)
    requires IsRun(steps, node) && node.limit >= 1 && node.creators >= 1
    ensures Inv(After(steps, node), node)
    decreases |steps|
  {
    if steps == [] {
      assert InFlight(START.w.l.records) == {};
    } else {
      var n := |steps| - 1;
      var before := steps[..n];
      forall i | 0 <= i < n ensures Legal(After(before[..i], node), before[i], node) {
        assert before[..i] == steps[..i] && before[i] == steps[i];
      }
      RunKeepsInv(before, node);
      assert Legal(After(before, node), steps[n], node);
      StepKeepsInv(After(before, node), steps[n], node);
    }
  }

  /** With `k` creators under way at once, the check-then-create gap lets at most `k - 1` extra responses in. */
  lemma OvershootIsBounded(steps: seq<Step>, node: Node)
    requires IsRun(steps, node) && node.limit >= 1 && node.creators >= 1
    ensures InFlightCount(After(steps, node)) <= node.limit + node.creators - 1
  {
    RunKeepsInv(steps, node);
  }

  // ---- the bound is reached ----

  lemma Extend(steps: seq<Step>, step: Step, node: Node)
    requires IsRun(steps, node) && Legal(After(steps, node), step, node)
    ensures IsRun(steps + [step], node)
    ensures After(steps + [step], node) == Next(After(steps, node), step, node)
  {
    var more := steps + [step];
    assert more[..|steps|] == steps;
    forall i | 0 <= i < |more| ensures Legal(After(more[..i], node), more[i], node) {
      if i < |steps| {
        assert more[..i] == steps[..i] && more[i] == steps[i];
      }
    }
  }

  /** Ids and keys below `n` were accepted and are all in flight. */
  ghost predicate Holds(w: R.World, n: nat) {
    && |InFlight(w.l.records)| == n && |w.l.records| == n
    && (forall r :: r in w.l.records ==> r < n)
    && (forall r :: r in w.created ==> r < n)
    && (forall k :: k in w.l.idem ==> k < n)
  }

  lemma InsertHolds(w: R.World, w': R.World, rec: ResponseRecord, n: nat)
    requires Holds(w, n) && rec.responseId == n && rec.Live()
    requires w'.l.records == w.l.records[n := rec] && w'.created == w.created + [n] && w'.l.idem == w.l.idem[n := n]
    ensures Holds(w', n + 1)
  {
    assert InFlight(w'.l.records) == InFlight(w.l.records) + {n};
  }

  lemma Accepts(w: R.World, rec: ResponseRecord, carrier: Config, n: nat)
    requires Holds(w, n) && rec.responseId == n && rec.Live()
    requires !carrier.readOnly && n < carrier.pendingLimit && n < carrier.maxRecords
    ensures Holds(R.NextCreate(w, rec, n, carrier), n + 1)
  {
    InsertHolds(w, R.NextCreate(w, rec, n, carrier), rec, n);
  }

  function Fresh(n: nat): (rec: ResponseRecord)
    ensures rec.responseId == n && rec.Live()
  {
    QueuedRecord(n, 0, Root, false, [], 0, 0)
  }

  lemma Accept(steps: seq<Step>, a: nat, carrier: Config, n: nat, node: Node) returns (more: seq<Step>)
    requires IsRun(steps, node) && Holds(After(steps, node).w, n) && a in After(steps, node).passed
    requires !carrier.readOnly && n < carrier.pendingLimit && n < carrier.maxRecords
    ensures IsRun(more, node) && Holds(After(more, node).w, n + 1)
    ensures After(more, node).passed == After(steps, node).passed - {a}
  {
    Accepts(After(steps, node).w, Fresh(n), carrier, n);
    Extend(steps, Forward(a, Fresh(n), n, carrier), node);
    more := steps + [Forward(a, Fresh(n), n, carrier)];
  }

  lemma Pass(steps: seq<Step>, a: nat, node: Node) returns (more: seq<Step>)
    requires IsRun(steps, node) && InFlightCount(After(steps, node)) < node.limit
    requires a !in After(steps, node).passed && |After(steps, node).passed| < node.creators
    ensures IsRun(more, node) && After(more, node) == After(steps, node).(passed := After(steps, node).passed + {a})
  {
    Extend(steps, Check(a, false), node);
    more := steps + [Check(a, false)];
  }

  /** One creator after the other leaves the gap unused. */
  lemma {:induction false} Fill(node: Node, carrier: Config, n: nat) returns (steps: seq<Step>)
    requires n < node.limit && node.creators >= 1 && !carrier.readOnly && n <= carrier.pendingLimit
    requires n <= carrier.maxRecords
    ensures IsRun(steps, node) && Holds(After(steps, node).w, n) && After(steps, node).passed == {}
    decreases n
  {
    if n == 0 {
      steps := [];
      assert InFlight(START.w.l.records) == {};
    } else {
      steps := Fill(node, carrier, n - 1);
      steps := Pass(steps, 0, node);
      steps := Accept(steps, 0, carrier, n - 1, node);
    }
  }

  ghost predicate ExactlyBelow(passed: set<nat>, j: nat) {
    |passed| == j && forall a: nat :: a in passed <==> a < j
  }

  lemma OneMore(passed: set<nat>, j: nat)
    requires ExactlyBelow(passed, j)
    ensures j !in passed && ExactlyBelow(passed + {j}, j + 1)
  {
  }

  lemma NoneBelow(passed: set<nat>)
    requires passed == {}
    ensures ExactlyBelow(passed, 0)
  {
  }

  lemma {:induction false} PassAll(start: seq<Step>, node: Node, j: nat) returns (steps: seq<Step>)
    requires IsRun(start, node) && InFlightCount(After(start, node)) < node.limit && After(start, node).passed == {}
    requires j <= node.creators
    ensures IsRun(steps, node) && After(steps, node).w == After(start, node).w
    ensures ExactlyBelow(After(steps, node).passed, j)
    decreases j
  {
    if j == 0 {
      steps := start;
      NoneBelow(After(steps, node).passed);
    } else {
      steps := PassAll(start, node, j - 1);
      OneMore(After(steps, node).passed, j - 1);
      steps := Pass(steps, j - 1, node);
    }
  }

  lemma {:induction false} AcceptAll(start: seq<Step>, carrier: Config, n: nat, node: Node, j: nat)
    returns (steps: seq<Step>)
    requires IsRun(start, node) && Holds(After(start, node).w, n)
    requires forall a: nat :: a < j ==> a in After(start, node).passed
    requires !carrier.readOnly && n + j <= carrier.pendingLimit && n + j <= carrier.maxRecords
    ensures IsRun(steps, node) && Holds(After(steps, node).w, n + j)
    decreases j
  {
    if j == 0 {
      steps := start;
    } else {
      steps := Accept(start, j - 1, carrier, n, node);
      steps := AcceptAll(steps, carrier, n + 1, node, j - 1);
    }
  }

  /** Fill up to the last place, then everybody looks before anybody creates. */
  lemma BoundIsReached(node: Node, carrier: Config) returns (steps: seq<Step>)
    requires node.limit >= 1 && node.creators >= 1 && !carrier.readOnly
    requires carrier.pendingLimit >= node.limit + node.creators && carrier.maxRecords >= node.limit + node.creators
    ensures IsRun(steps, node) && InFlightCount(After(steps, node)) == node.limit + node.creators - 1
  {
    steps := Fill(node, carrier, node.limit - 1);
    steps := PassAll(steps, node, node.creators);
    steps := AcceptAll(steps, carrier, node.limit - 1, node, node.creators);
  }
}
