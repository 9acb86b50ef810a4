/**
 The executor's event sink as a value, and the archival replay of the events it appended. Two reconstructions of one
 thing: the sink keeps the finished items and the one under way, the replay rebuilds both from the log.
 */
module SinkSpec {
  import opened Domain
  import opened ResponseEvents

  datatype Sink = Sink(
    attempt: nat,
    stopped: bool,
    outputIndex: nat,
    currentItemId: Option<string>,
    currentContentIndex: Option<nat>,
    reasoning: string,
    completed: seq<ResponseItem>,
    openItem: Option<ResponseItem>,
    openText: string)

  function NewSink(attempt: nat): Sink {
    Sink(attempt, false, 0, None, None, "", [], None, "")
  }

  datatype Call =
    | TextDelta(text: string)
    | ReasoningDelta(text: string)
    | ItemAdded(item: ResponseItem)
    | ItemDone(item: ResponseItem)
    | ArgumentsDelta(itemId: string, delta: string)
    | ArgumentsDone(itemId: string, arguments: string)
    | PartAdded(itemId: string, contentIndex: nat)
    | TextDone(text: string)
    | PartDone(itemId: string, contentIndex: nat, text: string)

  function StreamItemId(item: ResponseItem): string {
    match item
    case FunctionCall(callId, _, _, _, _) => callId
    case FunctionCallOutput(callId, _, _, _) => callId
    case Message(_, _, id, _) => if id.Some? then id.value else ""
  }

  /** `output_index` counts items added, so the open one has the previous number. */
  function CurrentIndex(s: Sink): nat {
    if s.outputIndex == 0 then 0 else s.outputIndex - 1
  }

  function CurrentItem(s: Sink): string {
    if s.currentItemId.Some? then s.currentItemId.value else ""
  }

  function CurrentPart(s: Sink): nat {
    if s.currentContentIndex.Some? then s.currentContentIndex.value else 0
  }

  /** The bookkeeping a call does before its event goes out, whether or not the append is then refused. */
  function Noted(s: Sink, call: Call): Sink {
    match call
    case TextDelta(text) => s.(openText := s.openText + text)
    case ReasoningDelta(text) => s.(reasoning := s.reasoning + text)
    case ItemAdded(item) =>
      s.(outputIndex := s.outputIndex + 1, currentItemId := Some(StreamItemId(item)),
        openItem := Some(item), openText := "")
    case ItemDone(item) => s.(completed := s.completed + [item], openItem := None, openText := "")
    case PartAdded(_, contentIndex) => s.(currentContentIndex := Some(contentIndex))
    case _ => s
  }

  /** The event a call appends. */
  function EventOf(s: Sink, call: Call): AppendEvent {
    var fence := Some(s.attempt);
    match call
    case TextDelta(text) =>
      AppendEvent(OutputTextDelta, fence, Delta(CurrentItem(s), CurrentIndex(s), Some(CurrentPart(s)), text))
    case ReasoningDelta(text) => AppendEvent(ReasoningTextDelta, fence, Delta("", 0, None, text))
    case ItemAdded(item) => AppendEvent(OutputItemAdded, fence, Item(s.outputIndex, item))
    case ItemDone(item) => AppendEvent(OutputItemDone, fence, Item(CurrentIndex(s), item))
    case ArgumentsDelta(itemId, delta) =>
      AppendEvent(Kind.ArgumentsDelta, fence, Delta(itemId, CurrentIndex(s), None, delta))
    case ArgumentsDone(itemId, arguments) =>
      AppendEvent(Kind.ArgumentsDone, fence, Arguments(CurrentIndex(s), itemId, arguments))
    case PartAdded(itemId, contentIndex) =>
      AppendEvent(ContentPartAdded, fence, Part(itemId, CurrentIndex(s), contentIndex, OutputText("")))
    case TextDone(text) =>
      AppendEvent(OutputTextDone, fence, Text(CurrentItem(s), CurrentIndex(s), CurrentPart(s), text))
    case PartDone(itemId, contentIndex, text) =>
      AppendEvent(ContentPartDone, fence, Part(itemId, CurrentIndex(s), contentIndex, OutputText(text)))
  }

  function HalfMessage(item: ResponseItem, text: string): ResponseItem
    requires item.Message?
  {
    Message(item.role, [OutputText(text)], item.id, Some(ItemIncomplete))
  }

  /** The message still being streamed, if it carries any text. */
  function PartialItem(s: Sink): Option<ResponseItem> {
    if s.openItem.None? || !s.openItem.value.Message? || s.openText == "" then None
    else Some(HalfMessage(s.openItem.value, s.openText))
  }

  /** What a turn that dies archives. */
  function Produced(s: Sink): seq<ResponseItem> {
    s.completed + if PartialItem(s).Some? then [PartialItem(s).value] else []
  }

  // ---- replaying the log ----

  datatype Replay = Replay(items: seq<(nat, ResponseItem)>, open: Option<(nat, ResponseItem)>, openText: string)

  const NOTHING := Replay([], None, "")

  predicate OpenAt(p: Replay, index: nat) {
    p.open.Some? && p.open.value.0 == index
  }

  function Replayed(p: Replay, event: AppendEvent): Replay {
    if event.kind == OutputItemAdded && event.body.Item? then
      p.(open := Some((event.body.outputIndex, event.body.item)), openText := "")
    else if event.kind == OutputItemDone && event.body.Item? then
      var p' := if OpenAt(p, event.body.outputIndex) then p.(open := None, openText := "") else p;
      p'.(items := p.items + [(event.body.outputIndex, event.body.item)])
    else if event.kind == OutputTextDelta && event.body.Delta? && OpenAt(p, event.body.outputIndex) then
      p.(openText := p.openText + event.body.delta)
    else p
  }

  function ReplayAll(hist: seq<AppendEvent>): Replay {
    if hist == [] then NOTHING else Replayed(ReplayAll(hist[..|hist| - 1]), hist[|hist| - 1])
  }

  function WithPartial(p: Replay): seq<(nat, ResponseItem)> {
    if p.open.Some? && p.open.value.1.Message? && p.openText != ""
    then p.items + [(p.open.value.0, HalfMessage(p.open.value.1, p.openText))]
    else p.items
  }

  // ---- the stable sort by output index ----

  function Insert<T>(s: seq<(nat, T)>, x: (nat, T)): seq<(nat, T)> {
    if s == [] || s[|s| - 1].0 <= x.0 then s + [x] else Insert(s[..|s| - 1], x) + [s[|s| - 1]]
  }

  function SortByIndex<T>(s: seq<(nat, T)>): seq<(nat, T)> {
    if s == [] then [] else Insert(SortByIndex(s[..|s| - 1]), s[|s| - 1])
  }

  predicate Sorted<T>(s: seq<(nat, T)>) {
    forall i, j :: 0 <= i < j < |s| ==> s[i].0 <= s[j].0
  }

  /** The elements under one index, in order. */
  function Under<T>(s: seq<(nat, T)>, k: nat): seq<(nat, T)> {
    if s == [] then [] else Under(s[..|s| - 1], k) + if s[|s| - 1].0 == k then [s[|s| - 1]] else []
  }

  lemma UnderPush<T>(s: seq<(nat, T)>, x: (nat, T), k: nat)
    ensures Under(s + [x], k) == Under(s, k) + if x.0 == k then [x] else []
  {
    assert (s + [x])[..|s|] == s;
  }

  lemma {:induction false} InsertSorts<T>(s: seq<(nat, T)>, x: (nat, T))
    requires Sorted(s)
    ensures Sorted(Insert(s, x))
    ensures forall i :: 0 <= i < |Insert(s, x)| ==> Insert(s, x)[i] == x || Insert(s, x)[i] in s
    decreases |s|
  {
    if s != [] && s[|s| - 1].0 > x.0 {
      InsertSorts(s[..|s| - 1], x);
    }
  }

  lemma {:induction false} InsertUnder<T>(s: seq<(nat, T)>, x: (nat, T), k: nat)
    ensures Under(Insert(s, x), k) == Under(s, k) + if x.0 == k then [x] else []
    decreases |s|
  {
    if s == [] || s[|s| - 1].0 <= x.0 {
      UnderPush(s, x, k);
    } else {
      InsertUnder(s[..|s| - 1], x, k);
      UnderPush(Insert(s[..|s| - 1], x), s[|s| - 1], k);
    }
  }

  /** The sort orders by index and keeps the order of elements with the same index. */
  lemma {:induction false} SortIsStable<T>(s: seq<(nat, T)>, k: nat)
    ensures Sorted(SortByIndex(s)) && Under(SortByIndex(s), k) == Under(s, k)
    decreases |s|
  {
    if s != [] {
      var init, last := s[..|s| - 1], s[|s| - 1];
      SortIsStable(init, k);
      InsertSorts(SortByIndex(init), last);
      InsertUnder(SortByIndex(init), last, k);
    }
  }

  lemma {:induction false} SortedIsFixed<T>(s: seq<(nat, T)>)
    requires Sorted(s)
    ensures SortByIndex(s) == s
    decreases |s|
  {
    if s != [] {
      SortedIsFixed(s[..|s| - 1]);
    }
  }

  function Values<T>(s: seq<(nat, T)>): (v: seq<T>)
    ensures |v| == |s| && forall i :: 0 <= i < |s| ==> v[i] == s[i].1
  {
    seq(|s|, i requires 0 <= i < |s| => s[i].1)
  }

  /** What the replay of a whole history archives. */
  function Archived(hist: seq<AppendEvent>): seq<ResponseItem> {
    Values(SortByIndex(WithPartial(ReplayAll(hist))))
  }

  // ---- the two agree ----

  /** A log gets the sink's events and, in between, lifecycle events of other actors. */
  datatype Step = BySink(call: Call) | Lifecycle(event: AppendEvent)

  predicate IsLifecycle(event: AppendEvent) {
    event.body.Response? && event.kind in {Created, InProgressKind, CompletedKind, FailedKind, IncompleteKind}
  }

  predicate Legal(steps: seq<Step>) {
    forall i :: 0 <= i < |steps| && steps[i].Lifecycle? ==> IsLifecycle(steps[i].event)
  }

  /** The sink and the log's history when every append is accepted. */
  function Run(attempt: nat, steps: seq<Step>): (Sink, seq<AppendEvent>) {
    if steps == [] then (NewSink(attempt), [])
    else
      var (s, hist) := Run(attempt, steps[..|steps| - 1]);
      match steps[|steps| - 1]
      case BySink(call) => (Noted(s, call), hist + [EventOf(s, call)])
      case Lifecycle(event) => (s, hist + [event])
  }

  /** The replay so far holds what the sink holds, under indexes that never decrease. */
  ghost predicate Agree(s: Sink, p: Replay) {
    && Values(p.items) == s.completed && Sorted(p.items)
    && (forall i :: 0 <= i < |p.items| ==> p.items[i].0 <= CurrentIndex(s))
    && (p.open.Some? <==> s.openItem.Some?)
    && (p.open.Some? ==>
          p.open.value == (CurrentIndex(s), s.openItem.value) && s.outputIndex >= 1 && p.openText == s.openText)
  }

  lemma CallAgrees(s: Sink, p: Replay, call: Call)
    requires Agree(s, p)
    ensures Agree(Noted(s, call), Replayed(p, EventOf(s, call)))
  {
  }

  lemma {:induction false} RunAgrees(attempt: nat, steps: seq<Step>)
    requires Legal(steps)
    ensures Agree(Run(attempt, steps).0, ReplayAll(Run(attempt, steps).1))
    decreases |steps|
  {
    if steps != [] {
      var init, last := steps[..|steps| - 1], steps[|steps| - 1];
      RunAgrees(attempt, init);
      var (s, hist) := Run(attempt, init);
      var hist' := Run(attempt, steps).1;
      assert hist'[..|hist'| - 1] == hist;
      if last.BySink? {
        CallAgrees(s, ReplayAll(hist), last.call);
      }
    }
  }

  /** Whatever the sink was asked to stream, the replay archives exactly what the sink itself would have. */
  lemma ReplayMatchesSink(attempt: nat, steps: seq<Step>)
    requires Legal(steps)
    ensures var (s, hist) := Run(attempt, steps);
            Archived(hist) == Produced(s)
  {
    RunAgrees(attempt, steps);
    var (s, hist) := Run(attempt, steps);
    var all := WithPartial(ReplayAll(hist));
    assert Sorted(all);
    SortedIsFixed(all);
    assert Values(all) == Produced(s);
  }
}
