/**
 The archival replay beside a log that does not stand still: appends, evictions and sweeps may come between any two of
 its pages.
 */
module ReplayRuns {
  import opened Domain
  import opened ResponseEvents
  import opened EventLogSpec
  import opened SinkSpec
  import L = EventLogRuns

  /** A replay under way, or its result with the history as it was when the last page came back empty. */
  datatype Reader =
    | Reading(cursor: Option<nat>, replay: Replay)
    | Finished(result: Result<seq<ResponseItem>, LogError>, hist: seq<AppendEvent>)

  datatype State = State(world: L.World, reader: Reader)

  datatype Action = OnLog(op: L.Op) | ReadPage

  const FRESH := Reading(None, NOTHING)

  function ReplayBatch(p: Replay, batch: seq<ResponseEvent>): Replay
    decreases |batch|
  {
    if batch == [] then p else Replayed(ReplayBatch(p, batch[..|batch| - 1]), batch[|batch| - 1].event)
  }

  function Paged(w: L.World, reader: Reader, page: nat): Reader {
    if reader.Finished? then reader
    else
      match L.ReadSlot(w.slot, reader.cursor, page)
      case Err(e) => Finished(Err(e), w.hist)
      case Ok(batch) =>
        if batch == [] then Finished(Ok(Values(SortByIndex(WithPartial(reader.replay)))), w.hist)
        else Reading(Some(batch[|batch| - 1].seqNo), ReplayBatch(reader.replay, batch))
  }

  predicate Allowed(s: State, action: Action) {
    action.OnLog? ==> L.Legal(s.world, action.op)
  }

  function Next(s: State, action: Action, cap: nat, page: nat): State {
    match action
    case OnLog(op) => s.(world := L.Next(s.world, op, cap))
    case ReadPage => s.(reader := Paged(s.world, s.reader, page))
  }

  function After(s: State, actions: seq<Action>, cap: nat, page: nat): State
    decreases |actions|
  {
    if actions == [] then s else After(Next(s, actions[0], cap, page), actions[1..], cap, page)
  }

  predicate IsRun(s: State, actions: seq<Action>, cap: nat, page: nat)
    decreases |actions|
  {
    actions != [] ==> Allowed(s, actions[0]) && IsRun(Next(s, actions[0], cap, page), actions[1..], cap, page)
  }

  // ---- the invariant ----

  /** A reader has replayed exactly what is before its cursor; a result is about the history it ended with. */
  ghost predicate ReaderOk(w: L.World, reader: Reader) {
    match reader
    case Reading(cursor, replay) =>
      var n := Target(cursor);
      && n <= |w.hist| && (cursor.Some? ==> cursor.value < |w.hist|)
      && replay == ReplayAll(w.hist[..n])
    case Finished(result, hist) => hist <= w.hist && (result.Ok? ==> result.value == Archived(hist))
  }

  lemma {:induction false} BatchReplays(hist: seq<AppendEvent>, n: nat, batch: seq<ResponseEvent>)
    requires n + |batch| <= |hist| && forall i :: 0 <= i < |batch| ==> batch[i].event == hist[n + i]
    ensures ReplayBatch(ReplayAll(hist[..n]), batch) == ReplayAll(hist[..n + |batch|])
    decreases |batch|
  {
    if batch != [] {
      var k := n + |batch|;
      BatchReplays(hist, n, batch[..|batch| - 1]);
      assert hist[..k][..k - 1] == hist[..k - 1] && hist[..k][k - 1] == batch[|batch| - 1].event;
    }
  }

  lemma LogKeepsReader(w: L.World, w': L.World, reader: Reader)
    requires ReaderOk(w, reader) && w.hist <= w'.hist
    ensures ReaderOk(w', reader)
  {
    if reader.Reading? {
      assert w'.hist[..Target(reader.cursor)] == w.hist[..Target(reader.cursor)];
    }
  }

  /** Batch `batch` is the part of the history that starts at `n`, and is empty only at its end. */
  ghost predicate IsPage(hist: seq<AppendEvent>, n: nat, batch: seq<ResponseEvent>) {
    && n + |batch| <= |hist|
    && (forall i :: 0 <= i < |batch| ==> batch[i] == ResponseEvent(n + i, hist[n + i]))
    && (batch == [] ==> n == |hist|)
  }

  lemma PageOf(w: L.World, cursor: Option<nat>, page: nat, cap: nat)
    requires L.Inv(w, cap) && Target(cursor) <= |w.hist| && page >= 1
    requires L.ReadSlot(w.slot, cursor, page).Ok?
    ensures IsPage(w.hist, Target(cursor), L.ReadSlot(w.slot, cursor, page).value)
  {
    ReadExact(w.slot.log, w.hist, cursor, page, cap);
  }

  lemma BatchMoves(hist: seq<AppendEvent>, n: nat, batch: seq<ResponseEvent>)
    requires IsPage(hist, n, batch) && batch != [] && |hist| <= U64_MAX
    ensures var last := batch[|batch| - 1].seqNo;
            last < |hist| && Target(Some(last)) == n + |batch|
    ensures ReplayBatch(ReplayAll(hist[..n]), batch) == ReplayAll(hist[..n + |batch|])
  {
    BatchReplays(hist, n, batch);
  }

  lemma PageKeepsReader(w: L.World, reader: Reader, page: nat, cap: nat)
    requires L.Inv(w, cap) && ReaderOk(w, reader) && page >= 1
    ensures ReaderOk(w, Paged(w, reader, page))
  {
    if reader.Reading? && L.ReadSlot(w.slot, reader.cursor, page).Ok? {
      var n, batch := Target(reader.cursor), L.ReadSlot(w.slot, reader.cursor, page).value;
      PageOf(w, reader.cursor, page, cap);
      if batch == [] {
        assert w.hist[..n] == w.hist;
      } else {
        BatchMoves(w.hist, n, batch);
      }
    }
  }

  lemma {:induction false} RunKeepsReader(s: State, actions: seq<Action>, cap: nat, page: nat)
    requires L.Inv(s.world, cap) && ReaderOk(s.world, s.reader) && IsRun(s, actions, cap, page) && page >= 1
    ensures L.Inv(After(s, actions, cap, page).world, cap)
    ensures ReaderOk(After(s, actions, cap, page).world, After(s, actions, cap, page).reader)
    decreases |actions|
  {
    if actions != [] {
      match actions[0] {
        case OnLog(op) =>
          L.StepKeepsInv(s.world, op, cap);
          LogKeepsReader(s.world, L.Next(s.world, op, cap), s.reader);
        case ReadPage => PageKeepsReader(s.world, s.reader, page, cap);
      }
      RunKeepsReader(Next(s, actions[0], cap, page), actions[1..], cap, page);
    }
  }

  lemma OneIgnored(hist: seq<AppendEvent>, event: AppendEvent)
    requires IsLifecycle(event)
    ensures ReplayAll(hist + [event]) == ReplayAll(hist)
  {
    var all := hist + [event];
    assert all[..|all| - 1] == hist && all[|all| - 1] == event;
  }

  /** Lifecycle events say nothing about items. */
  lemma {:induction false} LifecycleIgnored(hist: seq<AppendEvent>, more: seq<AppendEvent>)
    requires forall i :: 0 <= i < |more| ==> IsLifecycle(more[i])
    ensures ReplayAll(hist + more) == ReplayAll(hist)
    decreases |more|
  {
    if more == [] {
      assert hist + more == hist;
    } else {
      var init, last := more[..|more| - 1], more[|more| - 1];
      LifecycleIgnored(hist, init);
      OneIgnored(hist + init, last);
      assert hist + more == hist + init + [last];
    }
  }

  /**
   However a replay races with the log, a result it returns is what the whole history says at the moment its last page
   came back empty; what was appended in the meantime is in it, nothing is skipped and nothing is taken twice.
   */
  lemma RacingReplay(before: seq<L.Op>, actions: seq<Action>, cap: nat, page: nat)
    requires page >= 1 && L.IsRun(L.START, before, cap)
    requires IsRun(State(L.After(L.START, before, cap), FRESH), actions, cap, page)
    ensures var s := After(State(L.After(L.START, before, cap), FRESH), actions, cap, page);
            s.reader.Finished? && s.reader.result.Ok? ==>
              s.reader.hist <= s.world.hist && s.reader.result.value == Archived(s.reader.hist)
  {
    L.RunKeepsInv(L.START, before, cap);
    var w := L.After(L.START, before, cap);
    assert w.hist[..0] == [];
    RunKeepsReader(State(w, FRESH), actions, cap, page);
  }

  /**
   The events that come once a response is over are lifecycle events, so the race does not change what is archived.
   */
  lemma RaceIsHarmless(hist: seq<AppendEvent>, more: seq<AppendEvent>)
    requires forall i :: 0 <= i < |more| ==> IsLifecycle(more[i])
    ensures Archived(hist + more) == Archived(hist)
  {
    LifecycleIgnored(hist, more);
  }
}
