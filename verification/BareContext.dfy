/**
 The context of a response outside any conversation, rebuilt from its event log by the service and by the runtime, each
 with its own loop: the service keeps the latest response object, the runtime collects the output of every one.
 */
module BareContext {
  import opened Domain
  import opened ResponseEvents
  import opened EventLogSpec
  import opened SinkReplay
  import S = EventLogStore

  datatype ContextError = ChainBroken(id: ResponseId)

  function ObjectOf(event: AppendEvent): Option<ResponseObject> {
    if event.body.Response? then Some(event.body.response) else None
  }

  function OutputOf(event: AppendEvent): seq<ResponseItem> {
    if event.body.Response? then event.body.response.output else []
  }

  function Latest(hist: seq<AppendEvent>): Option<ResponseObject> {
    if hist == [] then None
    else if hist[|hist| - 1].body.Response? then ObjectOf(hist[|hist| - 1])
    else Latest(hist[..|hist| - 1])
  }

  function LatestOutput(hist: seq<AppendEvent>): seq<ResponseItem> {
    if Latest(hist).Some? then Latest(hist).value.output else []
  }

  function AllOutput(hist: seq<AppendEvent>): seq<ResponseItem> {
    if hist == [] then [] else AllOutput(hist[..|hist| - 1]) + OutputOf(hist[|hist| - 1])
  }

  /** Nothing before the last event ends the stream. */
  predicate TerminalOnlyLast(hist: seq<AppendEvent>) {
    forall i :: 0 <= i < |hist| - 1 ==> !hist[i].kind.IsTerminal()
  }

  predicate AnyTerminal(batch: seq<ResponseEvent>) {
    exists i :: 0 <= i < |batch| && batch[i].event.kind.IsTerminal()
  }

  predicate TerminalWithin(hist: seq<AppendEvent>, lo: nat, hi: nat)
    requires lo <= hi <= |hist|
  {
    exists i :: lo <= i < hi && hist[i].kind.IsTerminal()
  }

  lemma LatestPush(hist: seq<AppendEvent>, n: nat)
    requires n < |hist|
    ensures Latest(hist[..n + 1]) == if hist[n].body.Response? then ObjectOf(hist[n]) else Latest(hist[..n])
    ensures AllOutput(hist[..n + 1]) == AllOutput(hist[..n]) + OutputOf(hist[n])
  {
    assert hist[..n + 1][..n] == hist[..n];
  }

  /**
   How much of a history a reader with this page size looks at: up to the end of the first page with a terminal event.
   */
  function Scanned(hist: seq<AppendEvent>, page: nat, from: nat): (n: nat)
    requires page >= 1 && from <= |hist|
    ensures from <= n <= |hist|
    decreases |hist| - from
  {
    if from == |hist| then from
    else
      var hi := Min(from + page, |hist|);
      if TerminalWithin(hist, from, hi) then hi else Scanned(hist, page, hi)
  }

  lemma ScanStep(hist: seq<AppendEvent>, page: nat, n: nat, batch: seq<ResponseEvent>)
    requires page >= 1 && IsStretch(batch, hist, n) && |batch| == Min(n + page, |hist|) - n && batch != []
    ensures Scanned(hist, page, n) == if AnyTerminal(batch) then n + |batch| else Scanned(hist, page, n + |batch|)
  {
    if AnyTerminal(batch) {
      var i :| 0 <= i < |batch| && batch[i].event.kind.IsTerminal();
      assert hist[n + i].kind.IsTerminal();
    }
    if TerminalWithin(hist, n, n + |batch|) {
      var i :| n <= i < n + |batch| && hist[i].kind.IsTerminal();
      assert batch[i - n].event.kind.IsTerminal();
    }
  }

  /** With no terminal event before the last one, every page size reads everything. */
  lemma {:induction false} ScansAll(hist: seq<AppendEvent>, page: nat, from: nat)
    requires page >= 1 && from <= |hist| && TerminalOnlyLast(hist)
    ensures Scanned(hist, page, from) == |hist|
    decreases |hist| - from
  {
    if from < |hist| && !TerminalWithin(hist, from, Min(from + page, |hist|)) {
      ScansAll(hist, page, Min(from + page, |hist|));
    }
  }

  /** Event `i` ends the stream. */
  predicate EndsAt(hist: seq<AppendEvent>, i: nat)
    requires i < |hist|
  {
    hist[i].kind in {CompletedKind, FailedKind, IncompleteKind}
  }

  lemma NoneWithin(hist: seq<AppendEvent>, lo: nat, hi: nat)
    requires lo <= hi <= |hist| && forall i :: 0 <= i < hi ==> !EndsAt(hist, i)
    ensures !TerminalWithin(hist, lo, hi)
  {
    forall i | lo <= i < hi ensures !hist[i].kind.IsTerminal() {
      assert !EndsAt(hist, i);
    }
  }

  lemma PagesAscend(q: nat, p: nat, page: nat)
    requires q < p
    ensures (q + 1) * page <= p * page
  {
    assert p * page == (q + 1) * page + (p - q - 1) * page;
  }

  /** From page `q` on, the scan goes to the end of page `p`, which holds the first terminal event `k`. */
  lemma {:induction false} ScansFrom(hist: seq<AppendEvent>, page: nat, k: nat, p: nat, q: nat)
    requires page >= 1 && q * page <= |hist| && q <= p && p * page <= k < (p + 1) * page && k < |hist|
    requires EndsAt(hist, k) && forall i :: 0 <= i < k ==> !EndsAt(hist, i)
    ensures Scanned(hist, page, q * page) == Min((p + 1) * page, |hist|)
    decreases p - q
  {
    var from := q * page;
    if q == p {
      assert from + page == (p + 1) * page;
      assert hist[k].kind.IsTerminal() && TerminalWithin(hist, from, Min(from + page, |hist|));
    } else {
      PagesAscend(q, p, page);
      assert from + page == (q + 1) * page;
      NoneWithin(hist, from, from + page);
      ScansFrom(hist, page, k, p, q + 1);
    }
  }

  lemma {:induction false} ScansOn(hist: seq<AppendEvent>, page: nat, from: nat)
    requires page >= 1 && from <= |hist| && forall i :: 0 <= i < |hist| ==> !EndsAt(hist, i)
    ensures Scanned(hist, page, from) == |hist|
    decreases |hist| - from
  {
    if from < |hist| {
      NoneWithin(hist, from, Min(from + page, |hist|));
      ScansOn(hist, page, Min(from + page, |hist|));
    }
  }

  /** A scan reads up to the end of the page with the first terminal event; without one it reads everything. */
  lemma ScansExactly(hist: seq<AppendEvent>, page: nat, k: nat, p: nat)
    requires page >= 1 && k <= |hist| && forall i :: 0 <= i < k ==> !EndsAt(hist, i)
    requires k < |hist| ==> EndsAt(hist, k) && p * page <= k < (p + 1) * page
    ensures Scanned(hist, page, 0) == if k == |hist| then |hist| else Min((p + 1) * page, |hist|)
  {
    if k < |hist| {
      assert 0 * page == 0;
      ScansFrom(hist, page, k, p, 0);
    } else {
      ScansOn(hist, page, 0);
    }
  }

  method LatestOfPage(
      latest: Option<ResponseObject>, batch: seq<ResponseEvent>, ghost hist: seq<AppendEvent>, ghost n: nat)
    returns (latest': Option<ResponseObject>)
    requires IsStretch(batch, hist, n) && latest == Latest(hist[..n])
    ensures latest' == Latest(hist[..n + |batch|])
  {
    latest' := latest;
    for i := 0 to |batch|
      invariant latest' == Latest(hist[..n + i])
    {
      LatestPush(hist, n + i);
      var found := ObjectOf(batch[i].event);
      if found.Some? {
        latest' := found;
      }
    }
  }

  /** The items the runtime has after the first `n` events. */
  function Collected(input: seq<ResponseItem>, hist: seq<AppendEvent>, n: nat): seq<ResponseItem>
    requires n <= |hist|
  {
    if n == 0 then input else Collected(input, hist, n - 1) + OutputOf(hist[n - 1])
  }

  lemma {:induction false} CollectedIs(input: seq<ResponseItem>, hist: seq<AppendEvent>, n: nat)
    requires n <= |hist|
    ensures Collected(input, hist, n) == input + AllOutput(hist[..n])
  {
    if n > 0 {
      CollectedIs(input, hist, n - 1);
      LatestPush(hist, n - 1);
      Assoc(input, AllOutput(hist[..n - 1]), OutputOf(hist[n - 1]));
    }
  }

  lemma Assoc(a: seq<ResponseItem>, b: seq<ResponseItem>, c: seq<ResponseItem>)
    ensures (a + b) + c == a + (b + c)
  {
  }

  method CollectPage(
      items: seq<ResponseItem>, batch: seq<ResponseEvent>, ghost input: seq<ResponseItem>,
      ghost hist: seq<AppendEvent>, ghost n: nat)
    returns (items': seq<ResponseItem>)
    requires IsStretch(batch, hist, n) && items == Collected(input, hist, n)
    ensures items' == Collected(input, hist, n + |batch|)
  {
    items' := items;
    for i := 0 to |batch|
      invariant items' == Collected(input, hist, n + i)
    {
      var found := ObjectOf(batch[i].event);
      if found.Some? {
        items' := items' + found.value.output;
      }
    }
  }

  /** The service's loop. A log that is gone or no longer whole is no failure: there is just nothing to add. */
  method LatestResponseObject(log: S.MemEventLog, id: ResponseId, page: nat, ghost hist: seq<AppendEvent>)
    returns (latest: Option<ResponseObject>)
    requires page >= 1 && (id in log.logs ==> Stands(log, id, hist))
    ensures latest == if id in log.logs && Readable(log, id) then Latest(hist[..Scanned(hist, page, 0)]) else None
  {
    var cursor: Option<nat> := None;
    latest := None;
    ghost var n: nat := 0;
    while true
      invariant n <= |hist| && cursor == CursorAt(n) && latest == Latest(hist[..n])
      invariant Scanned(hist, page, n) == Scanned(hist, page, 0)
      invariant n > 0 ==> id in log.logs && Readable(log, id)
      invariant n == 0 ==> latest == None
      decreases |hist| - n
    {
      var batch := ReadPage(log, id, cursor, page, hist, n);
      if batch.Err? {
        return latest;
      }
      if batch.value == [] {
        break;
      }
      ScanStep(hist, page, n, batch.value);
      var terminal := AnyTerminal(batch.value);
      cursor := Some(batch.value[|batch.value| - 1].seqNo);
      latest := LatestOfPage(latest, batch.value, hist, n);
      if terminal {
        break;
      }
      n := n + |batch.value|;
    }
  }

  method ReconstructInService(log: S.MemEventLog, rec: ResponseRecord, page: nat, ghost hist: seq<AppendEvent>)
    returns (items: seq<ResponseItem>)
    requires page >= 1 && (rec.responseId in log.logs ==> Stands(log, rec.responseId, hist))
    ensures items == rec.input +
            if rec.responseId in log.logs && Readable(log, rec.responseId)
            then LatestOutput(hist[..Scanned(hist, page, 0)]) else []
  {
    items := rec.input;
    var found := LatestResponseObject(log, rec.responseId, page, hist);
    if found.Some? {
      items := items + found.value.output;
    }
  }

  /** The runtime's loop. */
  method CollectItems(
      log: S.MemEventLog, id: ResponseId, input: seq<ResponseItem>, page: nat, ghost hist: seq<AppendEvent>)
    returns (items: Option<seq<ResponseItem>>)
    requires page >= 1 && (id in log.logs ==> Stands(log, id, hist))
    ensures items ==
            if id in log.logs && Readable(log, id) then Some(Collected(input, hist, Scanned(hist, page, 0))) else None
  {
    var cursor: Option<nat> := None;
    var collected := input;
    ghost var n: nat := 0;
    while true
      invariant n <= |hist| && cursor == CursorAt(n) && collected == Collected(input, hist, n)
      invariant Scanned(hist, page, n) == Scanned(hist, page, 0)
      invariant n > 0 ==> id in log.logs && Readable(log, id)
      decreases |hist| - n
    {
      var batch := ReadPage(log, id, cursor, page, hist, n);
      if batch.Err? {
        return None;
      }
      if batch.value == [] {
        return Some(collected);
      }
      ScanStep(hist, page, n, batch.value);
      cursor := Some(batch.value[|batch.value| - 1].seqNo);
      collected := CollectPage(collected, batch.value, input, hist, n);
      if AnyTerminal(batch.value) {
        return Some(collected);
      }
      n := n + |batch.value|;
    }
  }

  /** In the runtime an unreadable log breaks the chain. */
  method ReconstructInRuntime(log: S.MemEventLog, rec: ResponseRecord, page: nat, ghost hist: seq<AppendEvent>)
    returns (out: Result<seq<ResponseItem>, ContextError>)
    requires page >= 1 && (rec.responseId in log.logs ==> Stands(log, rec.responseId, hist))
    ensures out ==
            if rec.responseId in log.logs && Readable(log, rec.responseId)
            then Ok(rec.input + AllOutput(hist[..Scanned(hist, page, 0)]))
                   else Err(ChainBroken(rec.responseId))
  {
    var items := CollectItems(log, rec.responseId, rec.input, page, hist);
    if items.None? {
      return Err(ChainBroken(rec.responseId));
    }
    CollectedIs(rec.input, hist, Scanned(hist, page, 0));
    return Ok(items.value);
  }

  // ---- when the two agree ----

  /** No response object but the latest one carries output. */
  predicate OnlyLatestCarries(hist: seq<AppendEvent>) {
    forall i, j :: 0 <= i < j < |hist| && hist[i].body.Response? && hist[j].body.Response? ==> OutputOf(hist[i]) == []
  }

  lemma {:induction false} NoOutput(hist: seq<AppendEvent>)
    ensures AllOutput(hist) == [] <==> forall i :: 0 <= i < |hist| ==> OutputOf(hist[i]) == []
    decreases |hist|
  {
    if hist != [] {
      var init := hist[..|hist| - 1];
      NoOutput(init);
      assert forall i :: 0 <= i < |init| ==> init[i] == hist[i];
    }
  }

  /** What the objects before the latest one carry. */
  function PriorOutput(hist: seq<AppendEvent>): seq<ResponseItem> {
    if hist == [] then []
    else if hist[|hist| - 1].body.Response? then AllOutput(hist[..|hist| - 1])
    else PriorOutput(hist[..|hist| - 1])
  }

  lemma {:induction false} OutputSplits(hist: seq<AppendEvent>)
    ensures AllOutput(hist) == PriorOutput(hist) + LatestOutput(hist)
    decreases |hist|
  {
    if hist != [] {
      OutputSplits(hist[..|hist| - 1]);
    }
  }

  lemma {:induction false} PriorIsEmpty(hist: seq<AppendEvent>)
    ensures PriorOutput(hist) == [] <==> OnlyLatestCarries(hist)
    decreases |hist|
  {
    if hist != [] {
      var init, last := hist[..|hist| - 1], hist[|hist| - 1];
      if last.body.Response? {
        NoOutput(init);
        if OnlyLatestCarries(hist) {
          forall i | 0 <= i < |init| ensures OutputOf(init[i]) == [] {
            assert init[i] == hist[i];
          }
        } else {
          var i, j :|
            0 <= i < j < |hist| && hist[i].body.Response? && hist[j].body.Response? && OutputOf(hist[i]) != [];
          assert init[i] == hist[i];
        }
      } else {
        PriorIsEmpty(init);
        assert forall i :: 0 <= i < |init| ==> init[i] == hist[i];
      }
    }
  }

  /**
   The two reconstructions of a whole history give the same context exactly when no earlier response object carries
   output; page sizes play no part.
   */
  lemma ReconstructionsAgree(input: seq<ResponseItem>, hist: seq<AppendEvent>)
    ensures input + LatestOutput(hist) == input + AllOutput(hist) <==> OnlyLatestCarries(hist)
  {
    OutputSplits(hist);
    PriorIsEmpty(hist);
    if PriorOutput(hist) == [] {
      assert AllOutput(hist) == LatestOutput(hist);
    } else {
      assert |input + AllOutput(hist)| > |input + LatestOutput(hist)|;
    }
  }

  /**
   The promised case: only a final terminal event carries output, so both end with exactly that output, whatever the
   page sizes.
   */
  lemma TerminalOutputIsContext(hist: seq<AppendEvent>, servicePage: nat, runtimePage: nat)
    requires servicePage >= 1 && runtimePage >= 1 && TerminalOnlyLast(hist)
    requires hist != [] && hist[|hist| - 1].kind.IsTerminal() && hist[|hist| - 1].body.Response?
    requires forall i :: 0 <= i < |hist| - 1 ==> OutputOf(hist[i]) == []
    ensures LatestOutput(hist[..Scanned(hist, servicePage, 0)]) == hist[|hist| - 1].body.response.output
    ensures AllOutput(hist[..Scanned(hist, runtimePage, 0)]) == hist[|hist| - 1].body.response.output
  {
    ScansAll(hist, servicePage, 0);
    ScansAll(hist, runtimePage, 0);
    assert hist[..|hist|] == hist;
    NoOutput(hist[..|hist| - 1]);
  }
}
