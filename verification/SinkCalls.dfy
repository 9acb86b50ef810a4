/**
 The sink and the archive in terms of the calls alone: which events a sequence of calls puts in the log, and which items
 it leaves to be archived, the half-streamed message included.
 */
module SinkCalls {
  import opened Domain
  import opened ResponseEvents
  import opened SinkSpec

  /** The items reported done, in order. */
  function Finished(steps: seq<Step>): seq<ResponseItem> {
    if steps == [] then []
    else
      var last := steps[|steps| - 1];
      Finished(steps[..|steps| - 1]) + if last.BySink? && last.call.ItemDone? then [last.call.item] else []
  }

  /** The items reported added, in order. */
  function Added(steps: seq<Step>): seq<ResponseItem> {
    if steps == [] then []
    else
      var last := steps[|steps| - 1];
      Added(steps[..|steps| - 1]) + if last.BySink? && last.call.ItemAdded? then [last.call.item] else []
  }

  /** The text that came in deltas. */
  function Streamed(steps: seq<Step>): string {
    if steps == [] then ""
    else
      var last := steps[|steps| - 1];
      Streamed(steps[..|steps| - 1]) + if last.BySink? && last.call.TextDelta? then last.call.text else ""
  }

  function Reasoned(steps: seq<Step>): string {
    if steps == [] then ""
    else
      var last := steps[|steps| - 1];
      Reasoned(steps[..|steps| - 1]) + if last.BySink? && last.call.ReasoningDelta? then last.call.text else ""
  }

  /** The content index of the part added last. */
  function Part(steps: seq<Step>): Option<nat> {
    if steps == [] then None
    else
      var last := steps[|steps| - 1];
      if last.BySink? && last.call.PartAdded? then Some(last.call.contentIndex) else Part(steps[..|steps| - 1])
  }

  predicate Adds(step: Step) {
    step.BySink? && step.call.ItemAdded?
  }

  predicate Finishes(step: Step) {
    step.BySink? && step.call.ItemDone?
  }

  // ---- the items ----

  lemma {:induction false} SinkKeeps(attempt: nat, steps: seq<Step>)
    ensures var s := Run(attempt, steps).0;
            s.completed == Finished(steps) && s.reasoning == Reasoned(steps) && s.attempt == attempt
    decreases |steps|
  {
    if steps != [] {
      SinkKeeps(attempt, steps[..|steps| - 1]);
    }
  }

  function IdOfLast(items: seq<ResponseItem>): Option<string> {
    if items == [] then None else Some(Label(items[|items| - 1]))
  }

  lemma {:induction false} SinkPlaces(attempt: nat, steps: seq<Step>)
    ensures var s := Run(attempt, steps).0;
            && s.outputIndex == |Added(steps)| && s.currentContentIndex == Part(steps)
            && s.currentItemId == IdOfLast(Added(steps))
    decreases |steps|
  {
    if steps != [] {
      SinkPlaces(attempt, steps[..|steps| - 1]);
    }
  }

  /** Since an item was added and neither another was nor any was done, it is open with the text streamed since. */
  lemma {:induction false} OpenSince(attempt: nat, before: seq<Step>, item: ResponseItem, after: seq<Step>)
    requires forall i :: 0 <= i < |after| ==> !Adds(after[i]) && !Finishes(after[i])
    ensures var s := Run(attempt, before + [BySink(ItemAdded(item))] + after).0;
            s.openItem == Some(item) && s.openText == Streamed(after)
    decreases |after|
  {
    var steps := before + [BySink(ItemAdded(item))] + after;
    if after == [] {
      assert steps[..|steps| - 1] == before;
    } else {
      var init := after[..|after| - 1];
      OpenSince(attempt, before, item, init);
      assert steps[..|steps| - 1] == before + [BySink(ItemAdded(item))] + init;
    }
  }

  lemma {:induction false} ClosedSince(attempt: nat, before: seq<Step>, after: seq<Step>)
    requires before == [] || Finishes(before[|before| - 1])
    requires forall i :: 0 <= i < |after| ==> !Adds(after[i])
    ensures Run(attempt, before + after).0.openItem == None
    decreases |after|
  {
    var steps := before + after;
    if after == [] {
      assert steps == before;
    } else {
      ClosedSince(attempt, before, after[..|after| - 1]);
      assert steps[..|steps| - 1] == before + after[..|after| - 1];
    }
  }

  /**
   With an item added last and none done since, what is archived is the items done, in order, and then, if the item is a
   message and text was streamed for it, that message with exactly this text, marked incomplete.
   */
  lemma HalfStreamed(attempt: nat, before: seq<Step>, item: ResponseItem, after: seq<Step>)
    requires Legal(before + [BySink(ItemAdded(item))] + after)
    requires forall i :: 0 <= i < |after| ==> !Adds(after[i]) && !Finishes(after[i])
    ensures var steps, text := before + [BySink(ItemAdded(item))] + after, Streamed(after);
            Archived(Run(attempt, steps).1) ==
            Finished(steps) + if item.Message? && text != ""
                              then [Message(item.role, [OutputText(text)], item.id, Some(ItemIncomplete))] else []
  {
    var steps := before + [BySink(ItemAdded(item))] + after;
    OpenSince(attempt, before, item, after);
    SinkKeeps(attempt, steps);
    ReplayMatchesSink(attempt, steps);
  }

  /** With every item done that was added, exactly the items done are archived. */
  lemma NothingOpen(attempt: nat, before: seq<Step>, after: seq<Step>)
    requires Legal(before + after) && (before == [] || Finishes(before[|before| - 1]))
    requires forall i :: 0 <= i < |after| ==> !Adds(after[i])
    ensures Archived(Run(attempt, before + after).1) == Finished(before + after)
  {
    ClosedSince(attempt, before, after);
    SinkKeeps(attempt, before + after);
    ReplayMatchesSink(attempt, before + after);
  }

  // ---- the events ----

  /** The id an item is streamed under. */
  function Label(item: ResponseItem): string {
    if item.Message? then (if item.id.Some? then item.id.value else "") else item.callId
  }

  /** The event of a call that comes after `before`: it names the item added last, by its place among those added. */
  function EventFor(attempt: nat, before: seq<Step>, call: Call): AppendEvent {
    var n := |Added(before)|;
    var place, id := if n == 0 then 0 else n - 1, if n == 0 then "" else Label(Added(before)[n - 1]);
    var part := if Part(before).Some? then Part(before).value else 0;
    match call
    case TextDelta(text) => AppendEvent(OutputTextDelta, Some(attempt), Delta(id, place, Some(part), text))
    case ReasoningDelta(text) => AppendEvent(ReasoningTextDelta, Some(attempt), Delta("", 0, None, text))
    case ItemAdded(item) => AppendEvent(OutputItemAdded, Some(attempt), Item(n, item))
    case ItemDone(item) => AppendEvent(OutputItemDone, Some(attempt), Item(place, item))
    case ArgumentsDelta(itemId, text) =>
      AppendEvent(Kind.ArgumentsDelta, Some(attempt), Delta(itemId, place, None, text))
    case ArgumentsDone(itemId, text) => AppendEvent(Kind.ArgumentsDone, Some(attempt), Arguments(place, itemId, text))
    case PartAdded(itemId, index) =>
      AppendEvent(ContentPartAdded, Some(attempt), Body.Part(itemId, place, index, OutputText("")))
    case TextDone(text) => AppendEvent(OutputTextDone, Some(attempt), Text(id, place, part, text))
    case PartDone(itemId, index, text) =>
      AppendEvent(ContentPartDone, Some(attempt), Body.Part(itemId, place, index, OutputText(text)))
  }

  lemma EventTold(attempt: nat, before: seq<Step>, call: Call)
    ensures EventOf(Run(attempt, before).0, call) == EventFor(attempt, before, call)
  {
    SinkKeeps(attempt, before);
    SinkPlaces(attempt, before);
  }

  /** Event `i` of the log is that of step `i`, whatever comes later. */
  lemma {:induction false} EventsTold(attempt: nat, steps: seq<Step>, i: nat)
    requires i < |steps|
    ensures var hist := Run(attempt, steps).1;
            && |hist| == |steps|
            && hist[i] == if steps[i].BySink? then EventFor(attempt, steps[..i], steps[i].call) else steps[i].event
    decreases |steps|
  {
    var n := |steps| - 1;
    LogCounts(attempt, steps[..n]);
    if i < n {
      EventsTold(attempt, steps[..n], i);
      assert steps[..n][..i] == steps[..i];
    } else if steps[n].BySink? {
      EventTold(attempt, steps[..n], steps[n].call);
    }
  }

  lemma {:induction false} LogCounts(attempt: nat, steps: seq<Step>)
    ensures |Run(attempt, steps).1| == |steps|
    decreases |steps|
  {
    if steps != [] {
      LogCounts(attempt, steps[..|steps| - 1]);
    }
  }
}
