/**
 The in-memory conversation store, updated in place. A conversation is spread over three maps (the row with its marker,
 the event stream, the snapshot), the last two filled on first use; `View` puts it together again.
 */
module ConversationStore {
  import opened Domain
  import opened ConversationSpec

  datatype Row = Row(tenant: TenantId, tail: Option<ResponseId>, active: Option<ResponseId>)

  datatype Stream = Stream(
    nextSeq: nat, events: seq<Event>, lockSeq: Option<nat>, lastCompleted: Option<(ResponseId, nat)>)

  const NEW_STREAM := Stream(0, [], None, None)

  class MemConversationStore {
    var rows: map<ConversationId, Row>
    var streams: map<ConversationId, Stream>
    var snapshots: map<ConversationId, Snapshot>
    var readOnly: bool
    var unavailable: bool
    var maxEvents: nat

    constructor ()
      ensures rows == map[] && !readOnly && !unavailable
    {
      rows, streams, snapshots := map[], map[], map[];
      readOnly, unavailable, maxEvents := false, false, 100_000;
    }

    function StreamOf(id: ConversationId): Stream
      reads this
    {
      if id in streams then streams[id] else NEW_STREAM
    }

    function SnapshotOf(id: ConversationId): Snapshot
      reads this
    {
      if id in snapshots then snapshots[id] else EMPTY_SNAPSHOT
    }

    /** One conversation, whole. */
    function View(id: ConversationId): Conversation
      requires id in rows
      reads this
    {
      var row, stream := rows[id], StreamOf(id);
      Conversation(
        row.tenant, row.tail, row.active, stream.nextSeq, stream.events, stream.lockSeq, stream.lastCompleted,
        SnapshotOf(id))
    }

    /** A conversation of another tenant reads as absent. */
    predicate Owned(tenant: TenantId, id: ConversationId)
      reads this
    {
      id in rows && rows[id].tenant == tenant
    }

    function Refusal(): Option<Error>
      reads this
    {
      if unavailable then Some(Unavailable) else if readOnly then Some(ReadOnly) else None
    }

    /** Only this conversation may have changed. */
    twostate predicate OnlyTouches(id: ConversationId)
      reads this
    {
      && rows.Keys == old(rows).Keys
      && forall other :: other in rows && other != id && other in old(rows) ==> View(other) == old(View(other))
    }

    twostate predicate Untouched()
      reads this
    {
      rows == old(rows) && streams == old(streams) && snapshots == old(snapshots)
    }

    method PushEvent(id: ConversationId, kind: EventKind, now: nat) returns (no: nat)
      modifies this`streams
      ensures no == old(StreamOf(id)).nextSeq
      ensures streams == old(streams)[
              id := old(StreamOf(id)).(nextSeq := no + 1,
                                        events := old(StreamOf(id)).events + [Event(no, kind, now)])]
    {
      var stream := StreamOf(id);
      no := stream.nextSeq;
      streams := streams[id := stream.(nextSeq := no + 1, events := stream.events + [Event(no, kind, now)])];
    }

    /** The marker and its boundary event change together. */
    method MarkTurn(id: ConversationId, active: Option<ResponseId>, kind: EventKind, now: nat) returns (no: nat)
      requires id in rows
      modifies this`rows, this`streams
      ensures OnlyTouches(id) && id in rows && id in streams && no == old(StreamOf(id)).nextSeq
      ensures View(id) == ConversationSpec.PushEvent(old(View(id)), kind, now).(active := active)
    {
      rows := rows[id := rows[id].(active := active)];
      no := PushEvent(id, kind, now);
    }

    method AcquireActive(tenant: TenantId, id: ConversationId, r: ResponseId, now: nat)
      returns (out: Result<nat, Error>)
      modifies this`rows, this`streams
      ensures OnlyTouches(id)
      ensures unavailable ==> out == Err(Unavailable) && Untouched()
      ensures !unavailable && readOnly ==> out == Err(ReadOnly) && Untouched()
      ensures !unavailable && !readOnly && (id !in old(rows) || old(rows)[id].tenant != tenant) ==>
                out == Err(NotFound) && Untouched()
      ensures !unavailable && !readOnly && id in old(rows) && old(rows)[id].tenant == tenant ==>
                (View(id), out) == ConversationSpec.AcquireActive(old(View(id)), r, now, maxEvents)
    {
      if Refusal().Some? {
        return Err(Refusal().value);
      }
      if !Owned(tenant, id) {
        return Err(NotFound);
      }
      var row := rows[id];
      if row.active.None? {
        if StreamOf(id).nextSeq >= maxEvents {
          return Err(CapacityExceeded);
        }
        var no := MarkTurn(id, Some(r), TurnStarted(r), now);
        streams := streams[id := streams[id].(lockSeq := Some(no))];
        return Ok(no);
      }
      if row.active.value == r {
        var lock := StreamOf(id).lockSeq;
        return Ok(if lock.Some? then lock.value else 0);
      }
      return Err(Busy(row.active.value));
    }

    method ReleaseActive(tenant: TenantId, id: ConversationId, r: ResponseId, status: ResponseStatus, now: nat)
      returns (out: Result<nat, Error>)
      modifies this`rows, this`streams
      ensures OnlyTouches(id)
      ensures unavailable ==> out == Err(Unavailable) && Untouched()
      ensures !unavailable && readOnly ==> out == Err(ReadOnly) && Untouched()
      ensures !unavailable && !readOnly && (id !in old(rows) || old(rows)[id].tenant != tenant) ==>
                out == Ok(0) && Untouched()
      ensures !unavailable && !readOnly && id in old(rows) && old(rows)[id].tenant == tenant ==>
                (View(id), out) == ConversationSpec.ReleaseActive(old(View(id)), r, status, now, maxEvents)
    {
      if Refusal().Some? {
        return Err(Refusal().value);
      }
      if !Owned(tenant, id) || rows[id].active != Some(r) {
        return Ok(0);
      }
      var last := StreamOf(id).lastCompleted;
      if last.Some? && last.value.0 == r {
        return Ok(last.value.1);
      }
      if StreamOf(id).nextSeq >= maxEvents {
        return Err(CapacityExceeded);
      }
      var no := MarkTurn(id, None, TurnCompleted(r, status), now);
      streams := streams[id := streams[id].(lastCompleted := Some((r, no)))];
      return Ok(no);
    }

    method ReleaseStaleActive(tenant: TenantId, id: ConversationId, holder: ResponseId)
      returns (out: Result<bool, Error>)
      modifies this`rows
      ensures OnlyTouches(id)
      ensures unavailable ==> out == Err(Unavailable) && Untouched()
      ensures !unavailable && readOnly ==> out == Err(ReadOnly) && Untouched()
      ensures !unavailable && !readOnly && (id !in old(rows) || old(rows)[id].tenant != tenant) ==>
                out == Ok(false) && Untouched()
      ensures !unavailable && !readOnly && id in old(rows) && old(rows)[id].tenant == tenant ==>
                var (c, cleared) := ReleaseStale(old(View(id)), holder);
                View(id) == c && out == Ok(cleared)
    {
      if Refusal().Some? {
        return Err(Refusal().value);
      }
      if !Owned(tenant, id) || rows[id].active != Some(holder) {
        return Ok(false);
      }
      rows := rows[id := rows[id].(active := None)];
      return Ok(true);
    }

    method AppendEvent(tenant: TenantId, id: ConversationId, kind: EventKind, now: nat)
      returns (out: Result<nat, Error>)
      modifies this`streams
      ensures OnlyTouches(id)
      ensures unavailable ==> out == Err(Unavailable) && Untouched()
      ensures !unavailable && readOnly ==> out == Err(ReadOnly) && Untouched()
      ensures !unavailable && !readOnly && (id !in old(rows) || old(rows)[id].tenant != tenant) ==>
                out == Err(NotFound) && Untouched()
      ensures !unavailable && !readOnly && id in old(rows) && old(rows)[id].tenant == tenant ==>
                (View(id), out) == ConversationSpec.AppendEvent(old(View(id)), kind, now, maxEvents)
    {
      if Refusal().Some? {
        return Err(Refusal().value);
      }
      if !Owned(tenant, id) {
        return Err(NotFound);
      }
      if StreamOf(id).nextSeq >= maxEvents {
        return Err(CapacityExceeded);
      }
      var no := PushEvent(id, kind, now);
      return Ok(no);
    }

    /** The reasoning goes to the first output item, which takes it away from the rest. */
    method AppendTurn(tenant: TenantId, id: ConversationId, r: ResponseId, commit: TurnCommit)
      returns (out: Result<nat, Error>)
      modifies this`snapshots
      ensures OnlyTouches(id)
      ensures unavailable ==> out == Err(Unavailable) && Untouched()
      ensures !unavailable && readOnly ==> out == Err(ReadOnly) && Untouched()
      ensures !unavailable && !readOnly && (id !in old(rows) || old(rows)[id].tenant != tenant) ==>
                out == Err(NotFound) && Untouched()
      ensures !unavailable && !readOnly && id in old(rows) && old(rows)[id].tenant == tenant ==>
                var (c, index) := ConversationSpec.AppendTurn(old(View(id)), r, commit);
                View(id) == c && out == Ok(index)
    {
      if Refusal().Some? {
        return Err(Refusal().value);
      }
      if !Owned(tenant, id) {
        return Err(NotFound);
      }
      var snap := SnapshotOf(id);
      if r in snap.appended {
        return Ok(snap.appended[r]);
      }
      var entries := snap.entries + Plain(commit.input);
      var reasoning := commit.reasoning;
      for i := 0 to |commit.output|
        invariant reasoning == if i == 0 then commit.reasoning else None
        invariant entries == snap.entries + Plain(commit.input) + WithReasoning(commit.output, commit.reasoning)[..i]
      {
        entries := entries + [ContextEntry(commit.output[i], reasoning)];
        reasoning := None;
      }
      assert entries == snap.entries + TurnEntries(commit);
      snapshots := snapshots[id := Snapshot(entries, snap.turns + 1, snap.appended[r := snap.turns])];
      return Ok(snap.turns);
    }

    /** Events after a cursor, a page at a time; the stream never loses any. */
    method ReadAfter(tenant: TenantId, id: ConversationId, after: Option<nat>, limit: nat)
      returns (out: Result<seq<Event>, Error>)
      ensures unavailable ==> out == Err(Unavailable)
      ensures !unavailable && (id !in rows || rows[id].tenant != tenant) ==> out == Err(NotFound)
      ensures !unavailable && id in rows && rows[id].tenant == tenant ==>
                var events, from := View(id).events, if after.Some? then after.value + 1 else 0;
                && out.Ok?
                && |out.value| == (if from >= |events| then 0
                                   else if from + limit <= |events| then limit
                                   else |events| - from)
                && forall i :: 0 <= i < |out.value| ==> out.value[i] == events[from + i]
    {
      if unavailable {
        return Err(Unavailable);
      }
      if !Owned(tenant, id) {
        return Err(NotFound);
      }
      var from := if after.Some? then after.value + 1 else 0;
      var events := StreamOf(id).events;
      var lo := if from <= |events| then from else |events|;
      var hi := if lo + limit <= |events| then lo + limit else |events|;
      return Ok(events[lo..hi]);
    }
  }
}
