/**
 The generation ledger as a value, one function per port call. The record-level transitions
 come first; the turn protocol uses them on its own.
 */
module LedgerSpec {
  import opened Domain

  datatype LedgerError = NotFound | StaleAttempt | InvalidTransition | ReadOnly | Unavailable | SigningFailed

  const UNCLAIMED: nat := 0

  function NextAttempt(attempt: nat): nat {
    SatAdd(attempt, 1)
  }

  // ---- one record ----

  function QueuedRecord(
      id: ResponseId, tenant: TenantId, anchor: ContextAnchor, store: bool, input: seq<ResponseItem>,
      now: nat, retention: nat): (rec: ResponseRecord)
    ensures rec.Live() && rec.usage.IsZero() && rec.owner.None? && rec.completedAt.None?
    ensures rec.expiresAt == if !store then None else if now + retention <= U64_MAX then Some(now + retention)
                             else Some(U64_MAX)
  {
    ResponseRecord(id, tenant, anchor, store, input, Queued, ZERO_USAGE, None,
                   if store then Some(SatAdd(now, retention)) else None, None, UNCLAIMED, None)
  }

  function Claimed(rec: ResponseRecord, agent: AgentId): ResponseRecord {
    rec.(attempt := NextAttempt(rec.attempt), status := InProgress, owner := Some(agent))
  }

  /** The fence: only the attempt that holds the running claim may write. */
  predicate FenceHolds(rec: ResponseRecord, attempt: nat) {
    rec.attempt == attempt && rec.status == InProgress
  }

  function CompletedWith(rec: ResponseRecord, expected: nat, status: ResponseStatus, usage: Usage, now: nat)
    : (res: Result<ResponseRecord, LedgerError>)
    ensures res.Ok? <==> status.IsTerminal() && FenceHolds(rec, expected)
    ensures res.Ok? ==> res.value.status == status && res.value.attempt == rec.attempt
  {
    if !status.IsTerminal() then Err(InvalidTransition)
    else if !FenceHolds(rec, expected) then Err(StaleAttempt)
    else Ok(rec.(status := status, owner := None, usage := usage, completedAt := Some(now)))
  }

  /** End a record from outside its execution; raising the attempt shuts the old holder out. */
  function Aborted(rec: ResponseRecord, status: ResponseStatus, now: nat): ResponseRecord {
    rec.(attempt := NextAttempt(rec.attempt), status := status, owner := None, completedAt := Some(now))
  }

  function CancelledBy(rec: ResponseRecord, tenant: TenantId, now: nat)
    : (res: Result<ResponseRecord, LedgerError>)
    ensures res.Ok? <==> rec.tenant == tenant && rec.Live()
  {
    if rec.tenant != tenant then Err(NotFound)
    else if rec.status.IsTerminal() then Err(InvalidTransition)
    else Ok(Aborted(rec, Cancelled, now))
  }

  // ---- the whole ledger ----

  datatype Ledger = Ledger(
    records: map<ResponseId, ResponseRecord>,
    byTenant: map<TenantId, set<ResponseId>>,
    expiry: set<(nat, ResponseId)>,
    queued: seq<ResponseId>,
    idem: map<IdempotencyKey, ResponseId>,
    heartbeats: map<AgentId, nat>,
    partials: map<(ResponseId, nat), Usage>)

  datatype CreateOutcome =
    | Accepted(record: ResponseRecord)
    | Duplicate(record: ResponseRecord)
    | RefusedReadOnly
    | Overloaded

  /** The node's switches and bounds. */
  datatype Config = Config(readOnly: bool, pendingLimit: nat, maxRecords: nat)

  const EMPTY := Ledger(map[], map[], {}, [], map[], map[], map[])

  function Indexed(index: map<TenantId, set<ResponseId>>, tenant: TenantId, id: ResponseId)
    : map<TenantId, set<ResponseId>>
  {
    index[tenant := (if tenant in index then index[tenant] else {}) + {id}]
  }

  /** Drop `id` from the index, and its tenant with it once nothing is left. */
  function Unindexed(index: map<TenantId, set<ResponseId>>, tenant: TenantId, id: ResponseId)
    : map<TenantId, set<ResponseId>>
  {
    if tenant !in index then index
    else if index[tenant] - {id} == {} then index - {tenant}
    else index[tenant := index[tenant] - {id}]
  }

  function TenantIds(l: Ledger, tenant: TenantId): set<ResponseId> {
    if tenant in l.byTenant then l.byTenant[tenant] else {}
  }

  function InsertRecord(l: Ledger, rec: ResponseRecord): Ledger {
    l.(records := l.records[rec.responseId := rec],
       byTenant := Indexed(l.byTenant, rec.tenant, rec.responseId),
       expiry := if rec.expiresAt.Some? then l.expiry + {(rec.expiresAt.value, rec.responseId)} else l.expiry)
  }

  function RemoveRecord(l: Ledger, id: ResponseId): Ledger {
    if id !in l.records then l
    else
      var rec := l.records[id];
      l.(records := l.records - {id},
         byTenant := Unindexed(l.byTenant, rec.tenant, id),
         expiry := if rec.expiresAt.Some? then l.expiry - {(rec.expiresAt.value, id)} else l.expiry,
         partials := map k | k in l.partials && k.0 != id :: l.partials[k])
  }

  function InFlight(records: map<ResponseId, ResponseRecord>): set<ResponseId> {
    set r | r in records && records[r].Live()
  }

  function Create(l: Ledger, rec: ResponseRecord, key: IdempotencyKey, cfg: Config)
    : (Ledger, Result<CreateOutcome, LedgerError>)
  {
    if key in l.idem then
      if l.idem[key] in l.records then (l, Ok(Duplicate(l.records[l.idem[key]]))) else (l, Err(NotFound))
    else if cfg.readOnly then (l, Ok(RefusedReadOnly))
    else if |InFlight(l.records)| >= cfg.pendingLimit then (l, Ok(Overloaded))
    else if |l.records| >= cfg.maxRecords then (l, Err(Unavailable))
    else
      (InsertRecord(l.(queued := l.queued + [rec.responseId], idem := l.idem[key := rec.responseId]), rec),
       Ok(Accepted(rec)))
  }

  /** Pop until a record that is still queued turns up; ids of cancelled or deleted records are dropped. */
  function Claim(l: Ledger, agent: AgentId, now: nat): (Ledger, Option<ResponseRecord>)
    decreases |l.queued|
  {
    if l.queued == [] then (l, None)
    else
      var id := l.queued[0];
      var rest := l.(queued := l.queued[1..]);
      if id !in l.records || l.records[id].status != Queued then Claim(rest, agent, now)
      else
        var rec := Claimed(l.records[id], agent);
        (rest.(records := l.records[id := rec], heartbeats := l.heartbeats[agent := now]), Some(rec))
  }

  function Heartbeat(l: Ledger, agent: AgentId, now: nat): Ledger {
    l.(heartbeats := l.heartbeats[agent := now])
  }

  function Complete(l: Ledger, id: ResponseId, expected: nat, status: ResponseStatus, usage: Usage, now: nat)
    : (Ledger, Result<ResponseRecord, LedgerError>)
  {
    if !status.IsTerminal() then (l, Err(InvalidTransition))
    else if id !in l.records then (l, Err(NotFound))
    else
      var res := CompletedWith(l.records[id], expected, status, usage, now);
      if res.Err? then (l, res) else (l.(records := l.records[id := res.value]), res)
  }

  /** The fence check of the append path. */
  function Checked(l: Ledger, readOnly: bool, id: ResponseId, attempt: nat): Result<(), LedgerError> {
    if readOnly then Err(ReadOnly)
    else if id !in l.records then Err(NotFound)
    else if FenceHolds(l.records[id], attempt) then Ok(()) else Err(StaleAttempt)
  }

  /** Usage already on a record that is aborted is booked against the superseded attempt. */
  function Booked(
      partials: map<(ResponseId, nat), Usage>, id: ResponseId, rec: ResponseRecord): map<(ResponseId, nat), Usage> {
    if rec.usage.IsZero() then partials else partials[(id, rec.attempt) := rec.usage]
  }

  function Cancel(
      l: Ledger, tenant: TenantId, id: ResponseId, now: nat): (Ledger, Result<ResponseRecord, LedgerError>) {
    if id !in l.records then (l, Err(NotFound))
    else
      var res := CancelledBy(l.records[id], tenant, now);
      if res.Err? then (l, res)
      else (l.(records := l.records[id := res.value], partials := Booked(l.partials, id, l.records[id])), res)
  }

  /** `now.saturating_sub(heartbeat) > ttl`, or no heartbeat to go by. */
  predicate Lost(l: Ledger, rec: ResponseRecord, now: nat, ttl: nat) {
    rec.owner.None? || rec.owner.value !in l.heartbeats ||
    (if now >= l.heartbeats[rec.owner.value] then now - l.heartbeats[rec.owner.value] else 0) > ttl
  }

  function LostClaims(l: Ledger, now: nat, ttl: nat): set<ResponseId> {
    set r | r in l.records && l.records[r].status == InProgress && Lost(l, l.records[r], now, ttl)
  }

  /** Fail one lost claim. */
  function ReapOne(l: Ledger, id: ResponseId, now: nat): Ledger {
    if id !in l.records then l
    else l.(records := l.records[id := Aborted(l.records[id], Failed, now)],
            partials := Booked(l.partials, id, l.records[id]))
  }

  function RecordPartialUsage(
      l: Ledger, id: ResponseId, attempt: nat, usage: Usage): (Ledger, Result<(), LedgerError>) {
    if id !in l.records then (l, Err(NotFound))
    else
      var entry := if (id, attempt) in l.partials then l.partials[(id, attempt)] else ZERO_USAGE;
      (l.(partials := l.partials[(id, attempt) := entry.Accumulate(usage)]), Ok(()))
  }

  // ---- bulk calls ----

  /** `order` lists a set, each element once; which order a sweep takes depends on the map it iterates over. */
  ghost predicate Enumerates(order: seq<ResponseId>, ids: set<ResponseId>) {
    && (forall r :: r in order <==> r in ids)
    && (forall i, j :: 0 <= i < j < |order| ==> order[i] != order[j])
  }

  function ReapAll(l: Ledger, ids: seq<ResponseId>, now: nat): Ledger
    decreases |ids|
  {
    if ids == [] then l else ReapOne(ReapAll(l, ids[..|ids| - 1], now), ids[|ids| - 1], now)
  }

  function RemoveAll(l: Ledger, ids: seq<ResponseId>): Ledger
    decreases |ids|
  {
    if ids == [] then l else RemoveRecord(RemoveAll(l, ids[..|ids| - 1]), ids[|ids| - 1])
  }
}
