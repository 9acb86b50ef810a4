/**
 One conversation of the shared store as a value: the in-flight marker, the event stream
 and the materialised snapshot, with one function per port call. Every function is the
 whole effect of one call under the store's mutex.
 */
module ConversationSpec {
  import opened Domain

  datatype EventKind =
    | TurnStarted(started: ResponseId)
    | TurnCompleted(completed: ResponseId, status: ResponseStatus)
    | ResponseDeleted(deleted: ResponseId)
    | Business(topic: string, payload: string)
  {
    /** Turn boundaries travel with the marker; the other two kinds do not. */
    predicate IsBoundary() {
      TurnStarted? || TurnCompleted?
    }
  }

  datatype Event = Event(no: nat, kind: EventKind, at: nat)

  datatype TurnCommit = TurnCommit(
    input: seq<ResponseItem>,
    output: seq<ResponseItem>,
    reasoning: Option<string>,
    usage: Usage,
    status: ResponseStatus)

  datatype ContextEntry = ContextEntry(item: ResponseItem, reasoning: Option<string>)

  datatype Snapshot = Snapshot(entries: seq<ContextEntry>, turns: nat, appended: map<ResponseId, nat>)

  datatype Conversation = Conversation(
    tenant: TenantId,
    tail: Option<ResponseId>,
    active: Option<ResponseId>,
    nextSeq: nat,
    events: seq<Event>,
    lockSeq: Option<nat>,
    lastCompleted: Option<(ResponseId, nat)>,
    snapshot: Snapshot)

  datatype Error = NotFound | Busy(holder: ResponseId) | CapacityExceeded | Unavailable | ReadOnly

  const EMPTY_SNAPSHOT := Snapshot([], 0, map[])

  function Fresh(tenant: TenantId): Conversation {
    Conversation(tenant, None, None, 0, [], None, None, EMPTY_SNAPSHOT)
  }

  function PushEvent(c: Conversation, kind: EventKind, now: nat): Conversation {
    c.(nextSeq := c.nextSeq + 1, events := c.events + [Event(c.nextSeq, kind, now)])
  }

  /** Occupy the marker and announce `TurnStarted`; a refusal changes nothing. */
  function AcquireActive(c: Conversation, r: ResponseId, now: nat, maxEvents: nat)
    : (res: (Conversation, Result<nat, Error>))
    ensures res.1.Err? ==> res.0 == c
    ensures res.1.Ok? ==> res.0.active == Some(r)
    ensures res.1.Ok? <==> c.active == Some(r) || (c.active == None && c.nextSeq < maxEvents)
  {
    match c.active
    case None =>
      if c.nextSeq >= maxEvents then (c, Err(CapacityExceeded))
      else (PushEvent(c, TurnStarted(r), now).(active := Some(r), lockSeq := Some(c.nextSeq)), Ok(c.nextSeq))
    case Some(holder) =>
      if holder == r then (c, Ok(if c.lockSeq.Some? then c.lockSeq.value else 0))
      else (c, Err(Busy(holder)))
  }

  /** Clear the marker and announce `TurnCompleted`, if `r` still holds it. */
  function ReleaseActive(c: Conversation, r: ResponseId, status: ResponseStatus, now: nat, maxEvents: nat)
    : (res: (Conversation, Result<nat, Error>))
    ensures res.1.Err? ==> res.0 == c
    ensures c.active != Some(r) ==> res == (c, Ok(0))
  {
    if c.active != Some(r) then (c, Ok(0))
    else if c.lastCompleted.Some? && c.lastCompleted.value.0 == r then (c, Ok(c.lastCompleted.value.1))
    else if c.nextSeq >= maxEvents then (c, Err(CapacityExceeded))
    else
      (PushEvent(c, TurnCompleted(r, status), now).(active := None, lastCompleted := Some((r, c.nextSeq))),
       Ok(c.nextSeq))
  }

  /** Clear a marker left behind by `holder`, without an event. */
  function ReleaseStale(c: Conversation, holder: ResponseId): (Conversation, bool) {
    if c.active == Some(holder) then (c.(active := None), true) else (c, false)
  }

  /** Append an event that is not a turn boundary. */
  function AppendEvent(c: Conversation, kind: EventKind, now: nat, maxEvents: nat): (Conversation, Result<nat, Error>) {
    if c.nextSeq >= maxEvents then (c, Err(CapacityExceeded))
    else (PushEvent(c, kind, now), Ok(c.nextSeq))
  }

  function Plain(items: seq<ResponseItem>): seq<ContextEntry> {
    seq(|items|, i requires 0 <= i < |items| => ContextEntry(items[i], None))
  }

  /** The output block: the reasoning text sits on its first entry and nowhere else. */
  function WithReasoning(items: seq<ResponseItem>, reasoning: Option<string>): seq<ContextEntry> {
    seq(|items|, i requires 0 <= i < |items| => ContextEntry(items[i], if i == 0 then reasoning else None))
  }

  /** What one turn contributes to the history. */
  function TurnEntries(commit: TurnCommit): seq<ContextEntry> {
    Plain(commit.input) + WithReasoning(commit.output, commit.reasoning)
  }

  /** Archive a turn once; a repeat for the same response returns the index it already has. */
  function AppendTurn(c: Conversation, r: ResponseId, commit: TurnCommit): (res: (Conversation, nat))
    ensures r in res.0.snapshot.appended && res.0.snapshot.appended[r] == res.1
    ensures res.0 == c.(snapshot := res.0.snapshot)
  {
    var s := c.snapshot;
    if r in s.appended then (c, s.appended[r])
    else
      (c.(snapshot := Snapshot(s.entries + TurnEntries(commit), s.turns + 1, s.appended[r := s.turns])), s.turns)
  }

  function Advance(c: Conversation, last: ResponseId): Conversation {
    c.(tail := Some(last))
  }
}
