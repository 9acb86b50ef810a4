/**
 The archival replay of any history at all, event by event: also of one that no sink wrote, with items added, streamed
 and finished in whatever order and under whatever indexes.
 */
module ReplayEvents {
  import opened Domain
  import opened ResponseEvents
  import opened SinkSpec

  predicate AddsItem(e: AppendEvent) {
    e.kind == OutputItemAdded && e.body.Item?
  }

  predicate FinishesItem(e: AppendEvent) {
    e.kind == OutputItemDone && e.body.Item?
  }

  /** The items reported finished, with their indexes, in order. */
  function FinishedItems(hist: seq<AppendEvent>): seq<(nat, ResponseItem)> {
    if hist == [] then []
    else
      var last := hist[|hist| - 1];
      FinishedItems(hist[..|hist| - 1]) + if FinishesItem(last) then [(last.body.outputIndex, last.body.item)] else []
  }

  /** The text streamed under one index. */
  function TextUnder(hist: seq<AppendEvent>, index: nat): string {
    if hist == [] then ""
    else
      var last := hist[|hist| - 1];
      TextUnder(hist[..|hist| - 1], index) +
      if last.kind == OutputTextDelta && last.body.Delta? && last.body.outputIndex == index then last.body.delta else ""
  }

  lemma {:induction false} ReplaysItems(hist: seq<AppendEvent>)
    ensures ReplayAll(hist).items == FinishedItems(hist)
    decreases |hist|
  {
    if hist != [] {
      ReplaysItems(hist[..|hist| - 1]);
    }
  }

  lemma ReplayPush(hist: seq<AppendEvent>, e: AppendEvent)
    ensures ReplayAll(hist + [e]) == Replayed(ReplayAll(hist), e)
  {
    var all := hist + [e];
    assert all[..|all| - 1] == hist;
  }

  /** An item stays open while no other is added and none is finished under its index, and takes that index's text. */
  lemma {:induction false} StaysOpen(before: seq<AppendEvent>, added: AppendEvent, after: seq<AppendEvent>)
    requires AddsItem(added)
    requires forall i :: 0 <= i < |after| ==>
               !AddsItem(after[i]) && !(FinishesItem(after[i]) && after[i].body.outputIndex == added.body.outputIndex)
    ensures var p := ReplayAll(before + [added] + after);
            && p.open == Some((added.body.outputIndex, added.body.item))
            && p.openText == TextUnder(after, added.body.outputIndex)
    decreases |after|
  {
    if after == [] {
      assert before + [added] + after == before + [added];
      ReplayPush(before, added);
    } else {
      var init, last := after[..|after| - 1], after[|after| - 1];
      StaysOpen(before, added, init);
      assert before + [added] + after == before + [added] + init + [last];
      ReplayPush(before + [added] + init, last);
    }
  }

  /** Once finished under its own index it is closed, until another item is added. */
  lemma {:induction false} StaysClosed(before: seq<AppendEvent>, after: seq<AppendEvent>)
    requires ReplayAll(before).open == None && forall i :: 0 <= i < |after| ==> !AddsItem(after[i])
    ensures ReplayAll(before + after).open == None
    decreases |after|
  {
    if after == [] {
      assert before + after == before;
    } else {
      var init, last := after[..|after| - 1], after[|after| - 1];
      StaysClosed(before, init);
      assert before + after == before + init + [last];
      ReplayPush(before + init, last);
    }
  }

  /** The half-streamed message, if the open item is one and has text. */
  function Half(index: nat, item: ResponseItem, text: string): seq<(nat, ResponseItem)> {
    if item.Message? && text != ""
    then [(index, Message(item.role, [OutputText(text)], item.id, Some(ItemIncomplete)))] else []
  }

  lemma PartialIsHalf(p: Replay)
    ensures WithPartial(p) ==
            p.items + if p.open.Some? then Half(p.open.value.0, p.open.value.1, p.openText) else []
  {
  }

  /**
   What is archived of a history whose last item added is still open: the finished items by index, and among them under
   its own index, after those, the message with the text streamed for it, marked incomplete.
   */
  lemma OpenItemArchived(before: seq<AppendEvent>, added: AppendEvent, after: seq<AppendEvent>)
    requires AddsItem(added)
    requires forall i :: 0 <= i < |after| ==>
               !AddsItem(after[i]) && !(FinishesItem(after[i]) && after[i].body.outputIndex == added.body.outputIndex)
    ensures var hist, index, item := before + [added] + after, added.body.outputIndex, added.body.item;
            var text := TextUnder(after, index);
            Archived(hist) == Values(SortByIndex(FinishedItems(hist) + Half(index, item, text)))
  {
    var hist := before + [added] + after;
    StaysOpen(before, added, after);
    ReplaysItems(hist);
    PartialIsHalf(ReplayAll(hist));
  }

  /** And of one whose last item added is finished, or that never added any: the finished items by index. */
  lemma FinishedArchived(
      before: seq<AppendEvent>, added: AppendEvent, between: seq<AppendEvent>, done: AppendEvent,
      after: seq<AppendEvent>)
    requires AddsItem(added) && FinishesItem(done) && done.body.outputIndex == added.body.outputIndex
    requires forall i :: 0 <= i < |between| ==>
               && !AddsItem(between[i])
               && !(FinishesItem(between[i]) && between[i].body.outputIndex == added.body.outputIndex)
    requires forall i :: 0 <= i < |after| ==> !AddsItem(after[i])
    ensures var hist := before + [added] + between + [done] + after;
            Archived(hist) == Values(SortByIndex(FinishedItems(hist)))
  {
    var closed := before + [added] + between + [done];
    StaysOpen(before, added, between);
    ReplayPush(before + [added] + between, done);
    StaysClosed(closed, after);
    ReplaysItems(closed + after);
  }

  lemma NeverAddedArchived(hist: seq<AppendEvent>)
    requires forall i :: 0 <= i < |hist| ==> !AddsItem(hist[i])
    ensures Archived(hist) == Values(SortByIndex(FinishedItems(hist)))
  {
    StaysClosed([], hist);
    assert [] + hist == hist;
    ReplaysItems(hist);
  }
}
