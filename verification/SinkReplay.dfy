/** The sink and the replay as they run: fields changed call by call, a log read page by page. */
module SinkReplay {
  import opened Domain
  import opened ResponseEvents
  import opened EventLogSpec
  import opened SinkSpec
  import S = EventLogStore

  datatype Verdict = Continue | Stop

  /** What the log answers to an event of `id` in the state it is in. */
  function Answer(log: S.MemEventLog, id: ResponseId, event: AppendEvent): (map<ResponseId, Log>, Result<nat, LogError>)
    reads log, log.ledger
  {
    var refused := S.FenceError(log.ledger.State(), log.ledger.readOnly, id, event.attempt);
    if refused.Some? then (log.logs, Err(refused.value)) else S.Appended(log.logs, id, event, log.cap, log.maxLogs)
  }

  /** A stale append stops the sink for good; any other refusal is the caller's to handle. */
  function VerdictOf(reply: Result<nat, LogError>): Result<Verdict, LogError> {
    if reply.Ok? then Ok(Continue)
    else if reply.error == StaleAttempt then Ok(Stop)
    else Err(reply.error)
  }

  class EventSink {
    const log: S.MemEventLog
    const id: ResponseId
    const attempt: nat
    var stopped: bool
    var outputIndex: nat
    var currentItemId: Option<string>
    var currentContentIndex: Option<nat>
    var reasoning: string
    var completed: seq<ResponseItem>
    var openItem: Option<ResponseItem>
    var openText: string

    constructor (log: S.MemEventLog, id: ResponseId, attempt: nat)
      ensures State() == NewSink(attempt) && this.log == log && this.id == id
    {
      this.log, this.id, this.attempt := log, id, attempt;
      stopped, outputIndex, currentItemId, currentContentIndex := false, 0, None, None;
      reasoning, completed, openItem, openText := "", [], None, "";
    }

    function State(): Sink
      reads this
    {
      Sink(attempt, stopped, outputIndex, currentItemId, currentContentIndex, reasoning, completed, openItem, openText)
    }

    /** The whole effect of a call: bookkeeping, then the append unless the sink has stopped. */
    twostate predicate Did(call: Call, new verdict: Result<Verdict, LogError>)
      reads this, log, log.ledger
    {
      var (logs, reply) := old(Answer(log, id, EventOf(State(), call)));
      if old(stopped) then
        verdict == Ok(Stop) && log.logs == old(log.logs) && State() == Noted(old(State()), call)
      else
        && verdict == VerdictOf(reply) && log.logs == logs
        && State() == Noted(old(State()), call).(stopped := verdict == Ok(Stop))
    }

    method Push(event: AppendEvent) returns (verdict: Result<Verdict, LogError>)
      modifies this`stopped, log`logs
      ensures old(stopped) ==> verdict == Ok(Stop) && stopped && log.logs == old(log.logs)
      ensures !old(stopped) ==>
                var (logs, reply) := old(Answer(log, id, event));
                verdict == VerdictOf(reply) && log.logs == logs && stopped == (verdict == Ok(Stop))
      ensures !old(stopped) ==>
                match old(Answer(log, id, event)).1
                case Ok(_) => verdict == Ok(Continue) && !stopped
                case Err(StaleAttempt) => verdict == Ok(Stop) && stopped
                case Err(e) => verdict == Err(e) && !stopped
    {
      if stopped {
        return Ok(Stop);
      }
      var reply := log.Append(id, event);
      if reply.Ok? {
        return Ok(Continue);
      }
      if reply.error == StaleAttempt {
        stopped := true;
        return Ok(Stop);
      }
      return Err(reply.error);
    }

    method TextDelta(text: string) returns (verdict: Result<Verdict, LogError>)
      modifies this, log`logs
      ensures Did(Call.TextDelta(text), verdict)
    {
      var event := AppendEvent(
        OutputTextDelta, Some(attempt),
        Delta(CurrentItem(State()), CurrentIndex(State()), Some(CurrentPart(State())), text));
      openText := openText + text;
      verdict := Push(event);
    }

    method ReasoningTextDelta(text: string) returns (verdict: Result<Verdict, LogError>)
      modifies this, log`logs
      ensures Did(Call.ReasoningDelta(text), verdict)
    {
      reasoning := reasoning + text;
      verdict := Push(AppendEvent(Kind.ReasoningTextDelta, Some(attempt), Delta("", 0, None, text)));
    }

    method OutputItemAdded(item: ResponseItem) returns (verdict: Result<Verdict, LogError>)
      modifies this, log`logs
      ensures Did(Call.ItemAdded(item), verdict)
    {
      var index := outputIndex;
      outputIndex := outputIndex + 1;
      currentItemId := Some(StreamItemId(item));
      openItem := Some(item);
      openText := "";
      verdict := Push(AppendEvent(Kind.OutputItemAdded, Some(attempt), Item(index, item)));
    }

    method OutputItemDone(item: ResponseItem) returns (verdict: Result<Verdict, LogError>)
      modifies this, log`logs
      ensures Did(Call.ItemDone(item), verdict)
    {
      completed := completed + [item];
      openItem := None;
      openText := "";
      verdict := Push(AppendEvent(Kind.OutputItemDone, Some(attempt), Item(CurrentIndex(State()), item)));
    }

    method ContentPartAdded(itemId: string, contentIndex: nat) returns (verdict: Result<Verdict, LogError>)
      modifies this, log`logs
      ensures Did(Call.PartAdded(itemId, contentIndex), verdict)
    {
      currentContentIndex := Some(contentIndex);
      verdict := Push(AppendEvent(
        Kind.ContentPartAdded, Some(attempt), Part(itemId, CurrentIndex(State()), contentIndex, OutputText(""))));
    }

    method FunctionCallArgumentsDelta(itemId: string, delta: string) returns (verdict: Result<Verdict, LogError>)
      modifies this, log`logs
      ensures Did(Call.ArgumentsDelta(itemId, delta), verdict)
    {
      verdict := Push(AppendEvent(
        Kind.ArgumentsDelta, Some(attempt), Delta(itemId, CurrentIndex(State()), None, delta)));
    }

    method FunctionCallArgumentsDone(itemId: string, arguments: string) returns (verdict: Result<Verdict, LogError>)
      modifies this, log`logs
      ensures Did(Call.ArgumentsDone(itemId, arguments), verdict)
    {
      verdict := Push(AppendEvent(
        Kind.ArgumentsDone, Some(attempt), Arguments(CurrentIndex(State()), itemId, arguments)));
    }

    method OutputTextDone(text: string) returns (verdict: Result<Verdict, LogError>)
      modifies this, log`logs
      ensures Did(Call.TextDone(text), verdict)
    {
      verdict := Push(AppendEvent(
        Kind.OutputTextDone, Some(attempt),
        Text(CurrentItem(State()), CurrentIndex(State()), CurrentPart(State()), text)));
    }

    method ContentPartDone(itemId: string, contentIndex: nat, text: string) returns (verdict: Result<Verdict, LogError>)
      modifies this, log`logs
      ensures Did(Call.PartDone(itemId, contentIndex, text), verdict)
    {
      verdict := Push(AppendEvent(
        Kind.ContentPartDone, Some(attempt), Part(itemId, CurrentIndex(State()), contentIndex, OutputText(text))));
    }

    /** Any one of the calls a runner can make. */
    method Perform(call: Call) returns (verdict: Result<Verdict, LogError>)
      modifies this, log`logs
      ensures Did(call, verdict)
    {
      match call {
        case TextDelta(text) => verdict := TextDelta(text);
        case ReasoningDelta(text) => verdict := ReasoningTextDelta(text);
        case ItemAdded(item) => verdict := OutputItemAdded(item);
        case ItemDone(item) => verdict := OutputItemDone(item);
        case ArgumentsDelta(itemId, delta) => verdict := FunctionCallArgumentsDelta(itemId, delta);
        case ArgumentsDone(itemId, arguments) => verdict := FunctionCallArgumentsDone(itemId, arguments);
        case PartAdded(itemId, contentIndex) => verdict := ContentPartAdded(itemId, contentIndex);
        case TextDone(text) => verdict := OutputTextDone(text);
        case PartDone(itemId, contentIndex, text) => verdict := ContentPartDone(itemId, contentIndex, text);
      }
    }

    method Partial() returns (item: Option<ResponseItem>)
      ensures item == PartialItem(State())
    {
      if openItem.None? || !openItem.value.Message? || openText == "" {
        return None;
      }
      return Some(Message(openItem.value.role, [OutputText(openText)], openItem.value.id, Some(ItemIncomplete)));
    }
  }

  // ---- replay ----

  /** The log of `id` stands for `hist`. */
  ghost predicate Stands(log: S.MemEventLog, id: ResponseId, hist: seq<AppendEvent>)
    reads log
  {
    id in log.logs && Refines(log.logs[id], hist, log.cap) && |hist| <= U64_MAX
  }

  /** Everything ever appended can still be read. */
  predicate Readable(log: S.MemEventLog, id: ResponseId)
    requires id in log.logs
    reads log
  {
    !log.logs[id].swept && log.logs[id].evictedBefore == 0
  }

  /** The cursor of a reader that has seen `n` events. */
  function CursorAt(n: nat): Option<nat> {
    if n == 0 then None else Some(n - 1)
  }

  /** The next page of a readable log. */
  lemma PageIs(log: Log, hist: seq<AppendEvent>, n: nat, page: nat, cap: nat)
    requires Refines(log, hist, cap) && |hist| <= U64_MAX && n <= |hist|
    requires !log.swept && log.evictedBefore == 0
    ensures Read(log, CursorAt(n), page) == Ok(Slice(hist, n, Min(n + page, |hist|)))
  {
    ReadExact(log, hist, CursorAt(n), page, cap);
    if n == |hist| {
      assert Slice(hist, n, n) == [];
    }
  }

  /** The batch is the stretch of the history that starts at `n`, numbers included. */
  ghost predicate IsStretch(batch: seq<ResponseEvent>, hist: seq<AppendEvent>, n: nat) {
    n + |batch| <= |hist| && forall i :: 0 <= i < |batch| ==> batch[i] == ResponseEvent(n + i, hist[n + i])
  }

  /** What a reader that has seen `n` events gets next: a full page or all that is left, unless something is lost. */
  method ReadPage(
      log: S.MemEventLog, id: ResponseId, cursor: Option<nat>, page: nat, ghost hist: seq<AppendEvent>, ghost n: nat)
    returns (batch: Result<seq<ResponseEvent>, LogError>)
    requires id in log.logs ==> Stands(log, id, hist)
    requires n <= |hist| && cursor == CursorAt(n) && (n > 0 ==> id in log.logs && Readable(log, id))
    ensures id !in log.logs ==> batch == Err(Unknown)
    ensures id in log.logs && !Readable(log, id) ==> batch == Err(Expired)
    ensures id in log.logs && Readable(log, id) ==>
              batch.Ok? && IsStretch(batch.value, hist, n) && |batch.value| == Min(n + page, |hist|) - n
  {
    batch := log.ReadAfter(id, cursor, page);
    if id in log.logs && Readable(log, id) {
      PageIs(log.logs[id], hist, n, page, log.cap);
    }
  }

  lemma ReplayPush(hist: seq<AppendEvent>, n: nat)
    requires n < |hist|
    ensures ReplayAll(hist[..n + 1]) == Replayed(ReplayAll(hist[..n]), hist[n])
  {
    assert hist[..n + 1][..n] == hist[..n];
  }

  /**
   Page by page over the log, whatever the page size, it archives what the whole history says; an incomplete log is an
   error.
   */
  method ReplayCompletedItems(log: S.MemEventLog, id: ResponseId, page: nat, ghost hist: seq<AppendEvent>)
    returns (out: Result<seq<ResponseItem>, LogError>)
    requires page >= 1 && (id in log.logs ==> Stands(log, id, hist))
    ensures out ==
            if id !in log.logs then Err(Unknown)
            else if Readable(log, id) then Ok(Archived(hist)) else Err(Expired)
  {
    var items: seq<(nat, ResponseItem)> := [];
    var open: Option<(nat, ResponseItem)> := None;
    var openText := "";
    var cursor: Option<nat> := None;
    ghost var n: nat := 0;
    while true
      invariant n <= |hist| && cursor == CursorAt(n) && Replay(items, open, openText) == ReplayAll(hist[..n])
      invariant n > 0 ==> id in log.logs && Readable(log, id)
      decreases |hist| - n
    {
      var batch := ReadPage(log, id, cursor, page, hist, n);
      if batch.Err? {
        return Err(batch.error);
      }
      if batch.value == [] {
        assert hist[..n] == hist;
        break;
      }
      cursor := Some(batch.value[|batch.value| - 1].seqNo);
      items, open, openText := ReplayPage(items, open, openText, batch.value, hist, n);
      n := n + |batch.value|;
    }
    if open.Some? && open.value.1.Message? && openText != "" {
      items := items +
        [(open.value.0, Message(open.value.1.role, [OutputText(openText)], open.value.1.id, Some(ItemIncomplete)))];
    }
    return Ok(Values(SortByIndex(items)));
  }

  method ReplayPage(
      items: seq<(nat, ResponseItem)>, open: Option<(nat, ResponseItem)>, openText: string, batch: seq<ResponseEvent>,
      ghost hist: seq<AppendEvent>, ghost n: nat)
    returns (items': seq<(nat, ResponseItem)>, open': Option<(nat, ResponseItem)>, openText': string)
    requires IsStretch(batch, hist, n) && Replay(items, open, openText) == ReplayAll(hist[..n])
    ensures Replay(items', open', openText') == ReplayAll(hist[..n + |batch|])
  {
    items', open', openText' := items, open, openText;
    for i := 0 to |batch|
      invariant Replay(items', open', openText') == ReplayAll(hist[..n + i])
    {
      ReplayPush(hist, n + i);
      items', open', openText' := ReplayEvent(items', open', openText', batch[i].event);
    }
  }

  method ReplayEvent(
      items: seq<(nat, ResponseItem)>, open: Option<(nat, ResponseItem)>, openText: string, event: AppendEvent)
    returns (items': seq<(nat, ResponseItem)>, open': Option<(nat, ResponseItem)>, openText': string)
    ensures Replay(items', open', openText') == Replayed(Replay(items, open, openText), event)
  {
    items', open', openText' := items, open, openText;
    match event.kind {
      case OutputItemAdded =>
        if event.body.Item? {
          open', openText' := Some((event.body.outputIndex, event.body.item)), "";
        }
      case OutputItemDone =>
        if event.body.Item? {
          if open.Some? && open.value.0 == event.body.outputIndex {
            open', openText' := None, "";
          }
          items' := items + [(event.body.outputIndex, event.body.item)];
        }
      case OutputTextDelta =>
        if event.body.Delta? && open.Some? && open.value.0 == event.body.outputIndex {
          openText' := openText + event.body.delta;
        }
      case _ =>
    }
  }

  // ---- the sink's own log ----

  /** The log of `id` stands for `hist`, or is still to be opened. */
  ghost predicate Holds(logs: map<ResponseId, Log>, cap: nat, id: ResponseId, hist: seq<AppendEvent>) {
    |hist| <= U64_MAX && if id in logs then Refines(logs[id], hist, cap) else hist == []
  }

  /** An accepted append adds its event to the history the log stands for. */
  lemma AppendHolds(
      logs: map<ResponseId, Log>, id: ResponseId, hist: seq<AppendEvent>, event: AppendEvent, cap: nat, maxLogs: nat)
    requires Holds(logs, cap, id, hist) && |hist| < U64_MAX && S.Appended(logs, id, event, cap, maxLogs).1.Ok?
    ensures Holds(S.Appended(logs, id, event, cap, maxLogs).0, cap, id, hist + [event])
  {
    assert Slice([], 0, 0) == [];
    AppendRefines(if id in logs then logs[id] else NEW_LOG, hist, event, cap);
  }

  lemma {:induction false} RunNeverStops(attempt: nat, steps: seq<Step>)
    ensures !Run(attempt, steps).0.stopped && Run(attempt, steps).0.attempt == attempt
    ensures |Run(attempt, steps).1| == |steps|
    decreases |steps|
  {
    if steps != [] {
      RunNeverStops(attempt, steps[..|steps| - 1]);
    }
  }

  lemma RunPush(attempt: nat, steps: seq<Step>, step: Step)
    ensures var (s, hist) := Run(attempt, steps);
            Run(attempt, steps + [step]) ==
            if step.BySink? then (Noted(s, step.call), hist + [EventOf(s, step.call)]) else (s, hist + [step.event])
  {
    assert (steps + [step])[..|steps|] == steps;
  }

  /** The sink is where these steps take it, and its log stands for the events they append. */
  ghost predicate Tracks(sink: EventSink, steps: seq<Step>)
    reads sink, sink.log
  {
    && Legal(steps) && sink.State() == Run(sink.attempt, steps).0
    && Holds(sink.log.logs, sink.log.cap, sink.id, Run(sink.attempt, steps).1)
  }

  /** One more step takes the sink and the history it has appended one step on. */
  lemma StepTracks(
      attempt: nat, steps: seq<Step>, step: Step, logs: map<ResponseId, Log>, id: ResponseId, cap: nat, maxLogs: nat)
    requires var (sink, hist) := Run(attempt, steps);
             var event := if step.BySink? then EventOf(sink, step.call) else step.event;
             && Legal(steps) && (step.Lifecycle? ==> IsLifecycle(step.event)) && |hist| < U64_MAX
             && Holds(logs, cap, id, hist) && S.Appended(logs, id, event, cap, maxLogs).1.Ok?
    ensures var sink := Run(attempt, steps).0;
            var event := if step.BySink? then EventOf(sink, step.call) else step.event;
            && Legal(steps + [step])
            && Run(attempt, steps + [step]).0 == (if step.BySink? then Noted(sink, step.call) else sink)
            && Holds(S.Appended(logs, id, event, cap, maxLogs).0, cap, id, Run(attempt, steps + [step]).1)
  {
    var (sink, hist) := Run(attempt, steps);
    RunPush(attempt, steps, step);
    AppendHolds(logs, id, hist, if step.BySink? then EventOf(sink, step.call) else step.event, cap, maxLogs);
  }

  /** A call that is answered `Continue` is one more step. */
  method StreamOne(sink: EventSink, call: Call, ghost steps: seq<Step>) returns (verdict: Result<Verdict, LogError>)
    requires Tracks(sink, steps) && |steps| < U64_MAX
    modifies sink, sink.log`logs
    ensures verdict == Ok(Continue) ==> Tracks(sink, steps + [BySink(call)])
  {
    ghost var logs := sink.log.logs;
    RunNeverStops(sink.attempt, steps);
    verdict := sink.Perform(call);
    if verdict == Ok(Continue) {
      StepTracks(sink.attempt, steps, BySink(call), logs, sink.id, sink.log.cap, sink.log.maxLogs);
    }
  }

  /** So is a lifecycle event that somebody else appends to the same log. */
  method AppendLifecycle(sink: EventSink, event: AppendEvent, ghost steps: seq<Step>)
    returns (out: Result<nat, LogError>)
    requires Tracks(sink, steps) && IsLifecycle(event) && |steps| < U64_MAX
    modifies sink.log`logs
    ensures out.Ok? ==> Tracks(sink, steps + [Lifecycle(event)])
  {
    ghost var logs := sink.log.logs;
    RunNeverStops(sink.attempt, steps);
    out := sink.log.Append(sink.id, event);
    if out.Ok? {
      StepTracks(sink.attempt, steps, Lifecycle(event), logs, sink.id, sink.log.cap, sink.log.maxLogs);
    }
  }

  function Calls(calls: seq<Call>): seq<Step> {
    seq(|calls|, i requires 0 <= i < |calls| => BySink(calls[i]))
  }

  lemma CallsPush(steps: seq<Step>, calls: seq<Call>, i: nat)
    requires i < |calls|
    ensures steps + Calls(calls[..i + 1]) == (steps + Calls(calls[..i])) + [BySink(calls[i])]
  {
  }

  /** Makes the calls in order until one is not answered `Continue`. */
  method StreamAll(sink: EventSink, calls: seq<Call>, ghost steps: seq<Step>) returns (accepted: bool)
    requires Tracks(sink, steps) && |steps| + |calls| <= U64_MAX
    modifies sink, sink.log`logs
    ensures accepted ==> Tracks(sink, steps + Calls(calls))
  {
    ghost var made := steps;
    assert steps + Calls(calls[..0]) == steps;
    for i := 0 to |calls|
      invariant made == steps + Calls(calls[..i]) && |made| == |steps| + i && Tracks(sink, made)
    {
      var verdict := StreamOne(sink, calls[i], made);
      if verdict != Ok(Continue) {
        return false;
      }
      CallsPush(steps, calls, i);
      made := made + [BySink(calls[i])];
    }
    assert calls[..|calls|] == calls;
    return true;
  }

  /** End to end: replaying the log a sink wrote, in pages of any size, archives what the sink holds. */
  method ReplayOf(sink: EventSink, page: nat, ghost steps: seq<Step>) returns (out: Result<seq<ResponseItem>, LogError>)
    requires page >= 1 && Tracks(sink, steps)
    ensures sink.id in sink.log.logs && Readable(sink.log, sink.id) ==> out == Ok(Produced(sink.State()))
    ensures sink.id in sink.log.logs && !Readable(sink.log, sink.id) ==> out == Err(Expired)
    ensures sink.id !in sink.log.logs ==> out == Err(Unknown) && Produced(sink.State()) == []
  {
    ghost var hist := Run(sink.attempt, steps).1;
    out := ReplayCompletedItems(sink.log, sink.id, page, hist);
    ReplayMatchesSink(sink.attempt, steps);
    if hist == [] {
      assert ReplayAll(hist) == NOTHING;
    }
  }
}
