/**
 What every run of ledger calls keeps: no queued work is stranded, a key is accepted once, the limit holds,
 the indexes agree with the records, and no token is lost.
 */
module LedgerRuns {
  import opened Domain
  import opened LedgerSpec
  import opened UsageSums

  /**
   A ledger beside its history: the accepted ids with the keys they were accepted under, and per record every
   usage figure reported for it.
   */
  datatype World = World(
    l: Ledger, created: seq<ResponseId>, keys: seq<IdempotencyKey>, reported: map<ResponseId, seq<Usage>>)

  const START := World(EMPTY, [], [], map[])

  function Reported(w: World, r: ResponseId): seq<Usage> {
    if r in w.reported then w.reported[r] else []
  }

  /** Bulk calls are runs of `ReapOne` and `Remove`; they hold the lock throughout, so nothing comes in between. */
  datatype Call =
    | Create(rec: ResponseRecord, key: IdempotencyKey, cfg: Config)
    | Claim(agent: AgentId, now: nat)
    | Heartbeat(agent: AgentId, now: nat)
    | Complete(id: ResponseId, attempt: nat, status: ResponseStatus, usage: Usage, now: nat)
    | Cancel(tenant: TenantId, id: ResponseId, now: nat)
    | ReapOne(id: ResponseId, now: nat, ttl: nat)
    | Report(id: ResponseId, attempt: nat, usage: Usage)
    | Remove(id: ResponseId)

  /** Ids are fresh, records come from `ResponseRecord::queued`, and a sweep fails only claims that look lost. */
  ghost predicate Legal(w: World, call: Call, limit: nat) {
    match call
    case Create(rec, _, cfg) =>
      && rec.responseId !in w.created && rec.status == Queued && rec.usage == ZERO_USAGE && rec.owner == None
      && rec.attempt == UNCLAIMED && cfg.pendingLimit == limit
    case ReapOne(id, now, ttl) => id in LostClaims(w.l, now, ttl)
    case _ => true
  }

  function WithLedger(w: World, l: Ledger): World {
    w.(l := l)
  }

  function WithReport(w: World, l: Ledger, id: ResponseId, usage: Usage): World {
    w.(l := l, reported := w.reported[id := Reported(w, id) + [usage]])
  }

  function NextCreate(w: World, rec: ResponseRecord, key: IdempotencyKey, cfg: Config): World {
    var (l, out) := LedgerSpec.Create(w.l, rec, key, cfg);
    if out.Ok? && out.value.Accepted?
    then w.(l := l, created := w.created + [rec.responseId], keys := w.keys + [key])
    else WithLedger(w, l)
  }

  function NextComplete(w: World, id: ResponseId, attempt: nat, status: ResponseStatus, usage: Usage, now: nat): World {
    var (l, out) := LedgerSpec.Complete(w.l, id, attempt, status, usage, now);
    if out.Err? then WithLedger(w, l) else WithReport(w, l, id, usage)
  }

  function NextReport(w: World, id: ResponseId, attempt: nat, usage: Usage): World {
    var (l, out) := RecordPartialUsage(w.l, id, attempt, usage);
    if out.Err? then WithLedger(w, l) else WithReport(w, l, id, usage)
  }

  function NextRemove(w: World, id: ResponseId): World {
    w.(l := RemoveRecord(w.l, id), reported := w.reported[id := []])
  }

  function Next(w: World, call: Call): World {
    match call
    case Create(rec, key, cfg) => NextCreate(w, rec, key, cfg)
    case Claim(agent, now) => WithLedger(w, LedgerSpec.Claim(w.l, agent, now).0)
    case Heartbeat(agent, now) => WithLedger(w, LedgerSpec.Heartbeat(w.l, agent, now))
    case Complete(id, attempt, status, usage, now) => NextComplete(w, id, attempt, status, usage, now)
    case Cancel(tenant, id, now) => WithLedger(w, LedgerSpec.Cancel(w.l, tenant, id, now).0)
    case ReapOne(id, now, _) => WithLedger(w, LedgerSpec.ReapOne(w.l, id, now))
    case Report(id, attempt, usage) => NextReport(w, id, attempt, usage)
    case Remove(id) => NextRemove(w, id)
  }

  function After(w: World, calls: seq<Call>): World
    decreases |calls|
  {
    if calls == [] then w else Next(After(w, calls[..|calls| - 1]), calls[|calls| - 1])
  }

  ghost predicate IsRun(calls: seq<Call>, limit: nat) {
    forall i {:trigger calls[i]} :: 0 <= i < |calls| ==> Legal(After(START, calls[..i]), calls[i], limit)
  }

  // ---- what a call does to the records ----

  /** A record between two states of the ledger: untouched, claimed, or ended. */
  predicate Evolves(a: ResponseRecord, b: ResponseRecord, heartbeats: map<AgentId, nat>) {
    && b.responseId == a.responseId && b.tenant == a.tenant && b.expiresAt == a.expiresAt
    && (|| b == a
        || (a.status == Queued && b.owner.Some? && b.owner.value in heartbeats && b == Claimed(a, b.owner.value))
        || (a.Live() && !b.Live() && b.owner == None
            && (b.attempt == NextAttempt(a.attempt) || (a.status == InProgress && b.attempt == a.attempt))))
  }

  predicate EvolvesAt(l: Ledger, l': Ledger, r: ResponseId)
    requires r in l.records && r in l'.records
  {
    Evolves(l.records[r], l'.records[r], l'.heartbeats)
  }

  /** No record appears or goes, and each one evolves. */
  ghost predicate Moves(l: Ledger, l': Ledger) {
    && l'.records.Keys == l.records.Keys && l.heartbeats.Keys <= l'.heartbeats.Keys
    && l'.byTenant == l.byTenant && l'.expiry == l.expiry && l'.idem == l.idem
    && (forall r :: r in l.records ==> EvolvesAt(l, l', r))
  }

  lemma UpdateMoves(l: Ledger, l': Ledger, id: ResponseId)
    requires id in l.records && l'.records.Keys == l.records.Keys && l.heartbeats.Keys <= l'.heartbeats.Keys
    requires forall r :: r in l.records && r != id ==> l'.records[r] == l.records[r]
    requires l'.byTenant == l.byTenant && l'.expiry == l.expiry && l'.idem == l.idem
    requires EvolvesAt(l, l', id)
    ensures Moves(l, l')
  {
    forall r | r in l.records ensures EvolvesAt(l, l', r) {
    }
  }

  predicate IsQueued(records: map<ResponseId, ResponseRecord>, id: ResponseId) {
    id in records && records[id].status == Queued
  }

  /** How many stale ids `claim` discards. */
  function Stale(l: Ledger): (n: nat)
    ensures n <= |l.queued|
    ensures forall i :: 0 <= i < n ==> !IsQueued(l.records, l.queued[i])
    ensures n < |l.queued| ==> IsQueued(l.records, l.queued[n])
    decreases |l.queued|
  {
    if l.queued == [] || IsQueued(l.records, l.queued[0]) then 0
    else
      var rest := l.(queued := l.queued[1..]);
      assert forall i :: 1 <= i < |l.queued| ==> l.queued[i] == rest.queued[i - 1];
      1 + Stale(rest)
  }

  lemma {:induction false} ClaimTakes(l: Ledger, agent: AgentId, now: nat)
    ensures var n := Stale(l);
            LedgerSpec.Claim(l, agent, now) ==
            if n == |l.queued| then (l.(queued := []), None)
            else
              var rec := Claimed(l.records[l.queued[n]], agent);
              (l.(queued := l.queued[n + 1..], records := l.records[l.queued[n] := rec],
                  heartbeats := l.heartbeats[agent := now]), Some(rec))
    decreases |l.queued|
  {
    if l.queued == [] {
      assert l == l.(queued := []);
    } else if !IsQueued(l.records, l.queued[0]) {
      var rest := l.(queued := l.queued[1..]);
      ClaimTakes(rest, agent, now);
      var n := Stale(rest);
      if n < |rest.queued| {
        assert rest.queued[n + 1..] == l.queued[n + 2..];
      }
    }
  }

  lemma ClaimMoves(l: Ledger, agent: AgentId, now: nat)
    ensures var (l', out) := LedgerSpec.Claim(l, agent, now);
            && Moves(l, l') && l'.partials == l.partials
            && |l'.queued| <= |l.queued| && l'.queued == l.queued[|l.queued| - |l'.queued|..]
            && (forall i :: 0 <= i < |l.queued| - |l'.queued| ==> !IsQueued(l'.records, l.queued[i]))
  {
    ClaimTakes(l, agent, now);
    var n, l' := Stale(l), LedgerSpec.Claim(l, agent, now).0;
    if n < |l.queued| {
      UpdateMoves(l, l', l.queued[n]);
      forall i | 0 <= i < n + 1 ensures !IsQueued(l'.records, l.queued[i]) {
      }
    }
  }

  /** A refused creation changes nothing; an accepted one is a single insertion. */
  lemma CreateInserts(w: World, rec: ResponseRecord, key: IdempotencyKey, cfg: Config)
    ensures var w' := NextCreate(w, rec, key, cfg);
            || w' == w
            || (&& key !in w.l.idem && |InFlight(w.l.records)| < cfg.pendingLimit
                && w'.created == w.created + [rec.responseId] && w'.keys == w.keys + [key] && w'.reported == w.reported
                && w'.l == InsertRecord(
                    w.l.(queued := w.l.queued + [rec.responseId], idem := w.l.idem[key := rec.responseId]), rec))
  {
  }

  lemma CompleteMoves(l: Ledger, id: ResponseId, attempt: nat, status: ResponseStatus, usage: Usage, now: nat)
    ensures var l' := LedgerSpec.Complete(l, id, attempt, status, usage, now).0;
            Moves(l, l') && l'.queued == l.queued && l'.partials == l.partials
  {
    var l' := LedgerSpec.Complete(l, id, attempt, status, usage, now).0;
    if l' != l {
      UpdateMoves(l, l', id);
    }
  }

  lemma CancelMoves(l: Ledger, tenant: TenantId, id: ResponseId, now: nat)
    ensures var l' := LedgerSpec.Cancel(l, tenant, id, now).0;
            Moves(l, l') && l'.queued == l.queued
  {
    var l' := LedgerSpec.Cancel(l, tenant, id, now).0;
    if l' != l {
      UpdateMoves(l, l', id);
    }
  }

  lemma ReapMoves(l: Ledger, id: ResponseId, now: nat)
    requires id in l.records && l.records[id].Live()
    ensures var l' := LedgerSpec.ReapOne(l, id, now);
            Moves(l, l') && l'.queued == l.queued
  {
    UpdateMoves(l, LedgerSpec.ReapOne(l, id, now), id);
  }

  lemma CallMoves(w: World, call: Call, limit: nat)
    requires Legal(w, call, limit) && !call.Create? && !call.Remove?
    ensures var w' := Next(w, call);
            && Moves(w.l, w'.l) && w'.created == w.created && w'.keys == w.keys
            && |w'.l.queued| <= |w.l.queued| && w'.l.queued == w.l.queued[|w.l.queued| - |w'.l.queued|..]
            && (forall i :: 0 <= i < |w.l.queued| - |w'.l.queued| ==> !IsQueued(w'.l.records, w.l.queued[i]))
  {
    match call
    case Claim(agent, now) => ClaimMoves(w.l, agent, now);
    case Complete(id, attempt, status, usage, now) => CompleteMoves(w.l, id, attempt, status, usage, now);
    case Cancel(tenant, id, now) => CancelMoves(w.l, tenant, id, now);
    case ReapOne(id, now, _) => ReapMoves(w.l, id, now);
    case _ =>
  }

  // ---- the queue ----

  /** The queue is the tail of the order of creation, and nothing before that tail still waits. */
  ghost predicate QueueOk(l: Ledger, created: seq<ResponseId>) {
    && (forall i, j :: 0 <= i < j < |created| ==> created[i] != created[j])
    && (forall r :: r in l.records ==> r in created)
    && |l.queued| <= |created| && l.queued == created[|created| - |l.queued|..]
    && (forall i :: 0 <= i < |created| - |l.queued| ==> !IsQueued(l.records, created[i]))
  }

  /** Dropping a prefix of the queue that no longer waits keeps the queue right. */
  lemma QueueAfterPop(l: Ledger, l': Ledger, created: seq<ResponseId>, n: nat)
    requires QueueOk(l, created) && n <= |l.queued| && l'.queued == l.queued[n..]
    requires forall r :: r in l'.records ==> r in l.records && (IsQueued(l'.records, r) ==> IsQueued(l.records, r))
    requires forall i :: 0 <= i < n ==> !IsQueued(l'.records, l.queued[i])
    ensures QueueOk(l', created)
  {
    var popped := |created| - |l.queued|;
    forall i | 0 <= i < popped + n
      ensures !IsQueued(l'.records, created[i])
    {
      if i >= popped {
        assert created[i] == l.queued[i - popped];
      } else {
        assert !IsQueued(l.records, created[i]);
      }
    }
  }

  lemma QueueAfterInsert(l: Ledger, l': Ledger, created: seq<ResponseId>, id: ResponseId)
    requires QueueOk(l, created) && id !in created
    requires l'.queued == l.queued + [id] && l'.records.Keys == l.records.Keys + {id}
    requires forall r :: r in l.records ==> l'.records[r] == l.records[r]
    ensures QueueOk(l', created + [id])
  {
    var created' := created + [id];
    forall i | 0 <= i < |created'| - |l'.queued|
      ensures !IsQueued(l'.records, created'[i])
    {
      assert created'[i] == created[i] && !IsQueued(l.records, created[i]);
    }
  }

  lemma StepKeepsQueue(w: World, call: Call, limit: nat)
    requires Legal(w, call, limit) && QueueOk(w.l, w.created)
    ensures QueueOk(Next(w, call).l, Next(w, call).created)
  {
    if call.Create? {
      CreateInserts(w, call.rec, call.key, call.cfg);
      if Next(w, call) != w { QueueAfterInsert(w.l, Next(w, call).l, w.created, call.rec.responseId); }
    } else if call.Remove? {
      QueueAfterPop(w.l, RemoveRecord(w.l, call.id), w.created, 0);
    } else {
      CallMoves(w, call, limit);
      MovesQueue(w.l, Next(w, call).l);
      QueueAfterPop(w.l, Next(w, call).l, w.created, |w.l.queued| - |Next(w, call).l.queued|);
    }
  }

  lemma MovesQueue(l: Ledger, l': Ledger)
    requires Moves(l, l')
    ensures forall r :: r in l'.records ==> r in l.records
    ensures forall r :: IsQueued(l'.records, r) ==> IsQueued(l.records, r)
  {
    forall r | r in l'.records
      ensures r in l.records && (IsQueued(l'.records, r) ==> IsQueued(l.records, r))
    {
      assert r in l.records.Keys && EvolvesAt(l, l', r);
    }
  }

  // ---- the shape of records ----

  /** What a record's status says about its claim: the attempt counts the claim and the abort, and nothing else. */
  predicate RecordOk(l: Ledger, r: ResponseId)
    requires r in l.records
  {
    var rec := l.records[r];
    && rec.responseId == r
    && (rec.status == Queued ==> rec.attempt == UNCLAIMED && rec.owner == None)
    && (rec.status == InProgress ==> rec.attempt == 1 && rec.owner.Some? && rec.owner.value in l.heartbeats)
    && (rec.Live() ==> rec.usage == ZERO_USAGE)
    && (!rec.Live() ==> 1 <= rec.attempt <= 2 && rec.owner == None)
  }

  ghost predicate RecordsOk(l: Ledger) {
    forall r :: r in l.records ==> RecordOk(l, r)
  }

  lemma StepKeepsRecords(w: World, call: Call, limit: nat)
    requires Legal(w, call, limit) && RecordsOk(w.l)
    ensures RecordsOk(Next(w, call).l)
  {
    if !call.Create? && !call.Remove? {
      CallMoves(w, call, limit);
      MovesRecords(w.l, Next(w, call).l);
    } else {
      var l' := Next(w, call).l;
      forall r | r in l'.records ensures RecordOk(l', r) {
        assert r in w.l.records ==> RecordOk(w.l, r);
      }
    }
  }

  lemma MovesRecords(l: Ledger, l': Ledger)
    requires Moves(l, l') && RecordsOk(l)
    ensures RecordsOk(l')
  {
    forall r | r in l'.records ensures RecordOk(l', r) {
      assert r in l.records.Keys && RecordOk(l, r) && EvolvesAt(l, l', r);
    }
  }

  // ---- keys and the limit ----

  /** The gate is the history of acceptances: each key was accepted once, for the id it still maps to. */
  ghost predicate GateOk(idem: map<IdempotencyKey, ResponseId>, keys: seq<IdempotencyKey>, created: seq<ResponseId>) {
    && |keys| == |created|
    && (forall i, j :: 0 <= i < j < |keys| ==> keys[i] != keys[j])
    && (forall i :: 0 <= i < |keys| ==> keys[i] in idem && idem[keys[i]] == created[i])
    && (forall k :: k in idem ==> k in keys)
  }

  ghost predicate KeysOk(w: World) {
    GateOk(w.l.idem, w.keys, w.created)
  }

  lemma GateAccepts(
      idem: map<IdempotencyKey, ResponseId>, keys: seq<IdempotencyKey>, created: seq<ResponseId>,
      key: IdempotencyKey, id: ResponseId)
    requires GateOk(idem, keys, created) && key !in idem
    ensures GateOk(idem[key := id], keys + [key], created + [id])
  {
  }

  lemma StepKeepsKeys(w: World, call: Call, limit: nat)
    requires Legal(w, call, limit) && KeysOk(w)
    ensures KeysOk(Next(w, call))
  {
    if call.Create? {
      CreateInserts(w, call.rec, call.key, call.cfg);
      if Next(w, call) != w { GateAccepts(w.l.idem, w.keys, w.created, call.key, call.rec.responseId); }
    } else if !call.Remove? {
      CallMoves(w, call, limit);
    }
  }

  lemma {:induction false} SubsetSize(a: set<ResponseId>, b: set<ResponseId>)
    requires a <= b
    ensures |a| <= |b|
  {
    if a != {} {
      var x :| x in a;
      SubsetSize(a - {x}, b - {x});
    }
  }

  lemma StepKeepsLimit(w: World, call: Call, limit: nat)
    requires Legal(w, call, limit) && |InFlight(w.l.records)| <= limit
    ensures |InFlight(Next(w, call).l.records)| <= limit
  {
    if call.Create? {
      CreateInserts(w, call.rec, call.key, call.cfg);
      if Next(w, call) != w { OneMoreInFlight(w.l.records, call.rec); }
    } else if call.Remove? {
      SubsetSize(InFlight(RemoveRecord(w.l, call.id).records), InFlight(w.l.records));
    } else {
      CallMoves(w, call, limit);
      MovesLive(w.l, Next(w, call).l);
      SubsetSize(InFlight(Next(w, call).l.records), InFlight(w.l.records));
    }
  }

  lemma OneMoreInFlight(records: map<ResponseId, ResponseRecord>, rec: ResponseRecord)
    ensures |InFlight(records[rec.responseId := rec])| <= |InFlight(records)| + 1
  {
    var more := InFlight(records) + {rec.responseId};
    SubsetSize(InFlight(records[rec.responseId := rec]), more);
  }

  lemma MovesLive(l: Ledger, l': Ledger)
    requires Moves(l, l')
    ensures InFlight(l'.records) <= InFlight(l.records)
  {
    forall r | r in InFlight(l'.records) ensures r in InFlight(l.records) {
      assert r in l'.records.Keys && EvolvesAt(l, l', r);
    }
  }

  // ---- the indexes ----

  ghost predicate TenantsAgree(records: map<ResponseId, ResponseRecord>, byTenant: map<TenantId, set<ResponseId>>) {
    && (forall t, r :: t in byTenant && r in byTenant[t] ==> r in records && records[r].tenant == t)
    && (forall r :: r in records ==> records[r].tenant in byTenant && r in byTenant[records[r].tenant])
    && (forall t :: t in byTenant ==> byTenant[t] != {})
  }

  ghost predicate ExpiryAgrees(records: map<ResponseId, ResponseRecord>, expiry: set<(nat, ResponseId)>) {
    forall d, r :: (d, r) in expiry <==> r in records && records[r].expiresAt == Some(d)
  }

  ghost predicate IndexesOk(l: Ledger) {
    TenantsAgree(l.records, l.byTenant) && ExpiryAgrees(l.records, l.expiry)
  }

  lemma IndexesKept(l: Ledger, l': Ledger)
    requires IndexesOk(l) && Moves(l, l')
    ensures IndexesOk(l')
  {
    forall r | r in l.records || r in l'.records
      ensures r in l.records && r in l'.records
      ensures l'.records[r].tenant == l.records[r].tenant && l'.records[r].expiresAt == l.records[r].expiresAt
    {
      assert r in l.records.Keys && r in l'.records.Keys && EvolvesAt(l, l', r);
    }
  }

  lemma InsertKeepsIndexes(l: Ledger, rec: ResponseRecord)
    requires IndexesOk(l) && rec.responseId !in l.records
    ensures IndexesOk(InsertRecord(l, rec))
  {
  }

  lemma RemoveKeepsIndexes(l: Ledger, id: ResponseId)
    requires IndexesOk(l)
    ensures IndexesOk(RemoveRecord(l, id))
  {
    var l' := RemoveRecord(l, id);
    if id in l.records {
      var t := l.records[id].tenant;
      forall r | r in l'.records
        ensures l'.records[r].tenant in l'.byTenant && r in l'.byTenant[l'.records[r].tenant]
      {
        if l.records[r].tenant == t {
          assert r in l.byTenant[t] - {id};
        }
      }
    }
  }

  lemma CreateKeepsIndexes(w: World, rec: ResponseRecord, key: IdempotencyKey, cfg: Config)
    requires rec.responseId !in w.l.records && IndexesOk(w.l)
    ensures IndexesOk(NextCreate(w, rec, key, cfg).l)
  {
    CreateInserts(w, rec, key, cfg);
    if NextCreate(w, rec, key, cfg) != w {
      InsertKeepsIndexes(w.l.(queued := w.l.queued + [rec.responseId], idem := w.l.idem[key := rec.responseId]), rec);
    }
  }

  lemma StepKeepsIndexes(w: World, call: Call, limit: nat)
    requires Legal(w, call, limit) && QueueOk(w.l, w.created) && IndexesOk(w.l)
    ensures IndexesOk(Next(w, call).l)
  {
    if call.Create? {
      CreateKeepsIndexes(w, call.rec, call.key, call.cfg);
    } else if call.Remove? {
      RemoveKeepsIndexes(w.l, call.id);
    } else {
      CallMoves(w, call, limit);
      IndexesKept(w.l, Next(w, call).l);
    }
  }

  // ---- usage ----

  function OwnUsage(l: Ledger, r: ResponseId): Usage {
    if r in l.records then l.records[r].usage else ZERO_USAGE
  }

  /** What a response has cost: its own figure and everything booked against its attempts. */
  ghost function TotalUsage(l: Ledger, r: ResponseId, side: Side): nat {
    Cap(Count(OwnUsage(l, r), side) + PartialSum(l.partials, r, side))
  }

  ghost predicate UsageOkAt(w: World, r: ResponseId, side: Side) {
    TotalUsage(w.l, r, side) == Cap(Sum(Reported(w, r), side))
  }

  ghost predicate UsageOk(w: World) {
    && (forall k :: k in w.l.partials ==> k.0 in w.l.records)
    && (forall r, side :: UsageOkAt(w, r, side))
  }

  /** A live record carries no usage, so aborting it books nothing: no booked amount is ever overwritten. */
  lemma AbortBooksNothing(l: Ledger, id: ResponseId)
    requires RecordsOk(l) && id in l.records && l.records[id].Live()
    ensures Booked(l.partials, id, l.records[id]) == l.partials
  {
    assert RecordOk(l, id);
  }

  /** A call that reports nothing leaves every total alone. */
  lemma UsageKept(w: World, w': World)
    requires UsageOk(w) && w'.l.partials == w.l.partials && w'.reported == w.reported
    requires w.l.records.Keys <= w'.l.records.Keys
    requires forall r :: OwnUsage(w'.l, r) == OwnUsage(w.l, r)
    ensures UsageOk(w')
  {
    assert forall r :: r in w.l.records.Keys ==> r in w'.l.records;
    forall r, side ensures UsageOkAt(w', r, side) {
      assert UsageOkAt(w, r, side) && OwnUsage(w'.l, r) == OwnUsage(w.l, r);
    }
  }

  /** The figure of a completion goes onto a record that had none. */
  lemma OwnFigureCounts(w: World, w': World, id: ResponseId, usage: Usage, side: Side)
    requires UsageOkAt(w, id, side) && OwnUsage(w.l, id) == ZERO_USAGE && OwnUsage(w'.l, id) == usage
    requires w'.l.partials == w.l.partials && Reported(w', id) == Reported(w, id) + [usage]
    ensures UsageOkAt(w', id, side)
  {
    SumPush(Reported(w, id), usage, side);
  }

  lemma UsageAfterComplete(w: World, id: ResponseId, attempt: nat, status: ResponseStatus, usage: Usage, now: nat)
    requires UsageOk(w) && RecordsOk(w.l)
    ensures UsageOk(NextComplete(w, id, attempt, status, usage, now))
  {
    var w' := NextComplete(w, id, attempt, status, usage, now);
    if LedgerSpec.Complete(w.l, id, attempt, status, usage, now).1.Ok? {
      assert RecordOk(w.l, id);
      forall r, side ensures UsageOkAt(w', r, side) {
        if r == id {
          OwnFigureCounts(w, w', id, usage, side);
        } else {
          assert UsageOkAt(w, r, side);
        }
      }
    }
  }

  lemma UsageAfterReport(w: World, id: ResponseId, attempt: nat, usage: Usage)
    requires UsageOk(w)
    ensures UsageOk(NextReport(w, id, attempt, usage))
  {
    var w' := NextReport(w, id, attempt, usage);
    if id in w.l.records {
      forall r, side ensures UsageOkAt(w', r, side) {
        assert UsageOkAt(w, r, side);
        AccumulateAt(w.l.partials, (id, attempt), usage, Count(OwnUsage(w.l, id), side), r, side);
        SumPush(Reported(w, id), usage, side);
      }
    }
  }

  lemma UsageAfterRemove(w: World, id: ResponseId)
    requires UsageOk(w)
    ensures UsageOk(NextRemove(w, id))
  {
    var w' := NextRemove(w, id);
    forall r, side ensures UsageOkAt(w', r, side) {
      assert UsageOkAt(w, r, side);
      if r == id {
        NoneLeft(w'.l.partials, r, side);
      } else if id in w.l.records {
        WithoutSlots(w.l.partials, id, r, side);
      }
    }
  }

  lemma UsageAfterClaim(w: World, agent: AgentId, now: nat)
    requires UsageOk(w)
    ensures UsageOk(WithLedger(w, LedgerSpec.Claim(w.l, agent, now).0))
  {
    ClaimTakes(w.l, agent, now);
    UsageKept(w, WithLedger(w, LedgerSpec.Claim(w.l, agent, now).0));
  }

  lemma UsageAfterAbort(w: World, w': World, id: ResponseId, status: ResponseStatus, now: nat)
    requires UsageOk(w) && RecordsOk(w.l) && id in w.l.records && w.l.records[id].Live()
    requires w'.l.records == w.l.records[id := Aborted(w.l.records[id], status, now)]
    requires w'.l.partials == Booked(w.l.partials, id, w.l.records[id]) && w'.reported == w.reported
    ensures UsageOk(w')
  {
    AbortBooksNothing(w.l, id);
    UsageKept(w, w');
  }

  lemma StepKeepsUsage(w: World, call: Call, limit: nat)
    requires Legal(w, call, limit) && RecordsOk(w.l) && QueueOk(w.l, w.created) && UsageOk(w)
    ensures UsageOk(Next(w, call))
  {
    match call
    case Complete(id, attempt, status, usage, now) => UsageAfterComplete(w, id, attempt, status, usage, now);
    case Report(id, attempt, usage) => UsageAfterReport(w, id, attempt, usage);
    case Remove(id) => UsageAfterRemove(w, id);
    case Claim(agent, now) => UsageAfterClaim(w, agent, now);
    case Cancel(tenant, id, now) =>
      if id in w.l.records && CancelledBy(w.l.records[id], tenant, now).Ok? {
        UsageAfterAbort(w, Next(w, call), id, Cancelled, now);
      }
    case ReapOne(id, now, _) => UsageAfterAbort(w, Next(w, call), id, Failed, now);
    case Create(rec, key, cfg) =>
      CreateInserts(w, rec, key, cfg);
      if Next(w, call) != w { UsageKept(w, Next(w, call)); }
    case Heartbeat(_, _) => UsageKept(w, Next(w, call));
  }

  // ---- every run ----

  ghost predicate Inv(w: World, limit: nat) {
    && QueueOk(w.l, w.created) && RecordsOk(w.l) && KeysOk(w) && |InFlight(w.l.records)| <= limit
    && IndexesOk(w.l) && UsageOk(w)
  }

  lemma StartInv(limit: nat)
    ensures Inv(START, limit)
  {
    assert InFlight(START.l.records) == {};
    forall r, side ensures UsageOkAt(START, r, side) {
      NoneLeft(START.l.partials, r, side);
    }
  }

  lemma StepKeepsInv(w: World, call: Call, limit: nat)
    requires Inv(w, limit) && Legal(w, call, limit)
    ensures Inv(Next(w, call), limit)
  {
    StepKeepsQueue(w, call, limit);
    StepKeepsRecords(w, call, limit);
    StepKeepsKeys(w, call, limit);
    StepKeepsLimit(w, call, limit);
    StepKeepsIndexes(w, call, limit);
    StepKeepsUsage(w, call, limit);
  }

  lemma {:induction false} RunKeepsInv(calls: seq<Call>, limit: nat)
    requires IsRun(calls, limit)
    ensures Inv(After(START, calls), limit)
    decreases |calls|
  {
    if calls == [] {
      StartInv(limit);
    } else {
      var n := |calls| - 1;
      var before := calls[..n];
      forall i | 0 <= i < n ensures Legal(After(START, before[..i]), before[i], limit) {
        assert before[..i] == calls[..i] && before[i] == calls[i];
      }
      RunKeepsInv(before, limit);
      assert Legal(After(START, before), calls[n], limit);
      StepKeepsInv(After(START, before), calls[n], limit);
    }
  }

  // ---- bulk calls are runs ----

  function Sweep(ids: seq<ResponseId>, now: nat, ttl: nat): seq<Call> {
    seq(|ids|, i requires 0 <= i < |ids| => Call.ReapOne(ids[i], now, ttl))
  }

  function Purge(ids: seq<ResponseId>): seq<Call> {
    seq(|ids|, i requires 0 <= i < |ids| => Call.Remove(ids[i]))
  }

  lemma {:induction false} SweepFolds(w: World, ids: seq<ResponseId>, now: nat, ttl: nat)
    ensures var w' := After(w, Sweep(ids, now, ttl));
            && w'.l == ReapAll(w.l, ids, now) && w'.l.heartbeats == w.l.heartbeats
            && forall r :: r in w.l.records && r !in ids ==> r in w'.l.records && w'.l.records[r] == w.l.records[r]
    decreases |ids|
  {
    if ids != [] {
      SweepFolds(w, ids[..|ids| - 1], now, ttl);
      assert Sweep(ids, now, ttl)[..|ids| - 1] == Sweep(ids[..|ids| - 1], now, ttl);
    }
  }

  /** A sweep over the lost claims is a run of single aborts, each of a claim that still looks lost. */
  lemma SweepIsRun(w: World, ids: seq<ResponseId>, now: nat, ttl: nat, limit: nat, i: nat)
    requires Enumerates(ids, LostClaims(w.l, now, ttl)) && i < |ids|
    ensures After(w, Sweep(ids, now, ttl)).l == ReapAll(w.l, ids, now)
    ensures Legal(After(w, Sweep(ids, now, ttl)[..i]), Sweep(ids, now, ttl)[i], limit)
  {
    SweepFolds(w, ids, now, ttl);
    SweepFolds(w, ids[..i], now, ttl);
    assert Sweep(ids, now, ttl)[..i] == Sweep(ids[..i], now, ttl);
    assert ids[i] in LostClaims(w.l, now, ttl) && ids[i] !in ids[..i];
  }

  lemma {:induction false} PurgeIsRun(w: World, ids: seq<ResponseId>)
    ensures After(w, Purge(ids)).l == RemoveAll(w.l, ids)
    decreases |ids|
  {
    if ids != [] {
      PurgeIsRun(w, ids[..|ids| - 1]);
      assert Purge(ids)[..|Purge(ids)| - 1] == Purge(ids[..|ids| - 1]);
    }
  }

  // ---- what callers see ----

  /** `a` was accepted before `b`. */
  ghost predicate CreatedBefore(created: seq<ResponseId>, a: ResponseId, b: ResponseId) {
    exists i, j :: 0 <= i < j < |created| && created[i] == a && created[j] == b
  }

  /** Work is neither stranded nor reordered: a claim answers exactly when something waits, with the oldest of it. */
  lemma ClaimTakesOldest(calls: seq<Call>, limit: nat, agent: AgentId, now: nat)
    requires IsRun(calls, limit)
    ensures var w := After(START, calls);
            var out := LedgerSpec.Claim(w.l, agent, now).1;
            && (out.None? <==> forall r :: !IsQueued(w.l.records, r))
            && (out.Some? ==> TakesOldest(w.l, w.created, out.value, agent))
  {
    RunKeepsInv(calls, limit);
    OldestOf(After(START, calls).l, After(START, calls).created, agent, now);
  }

  ghost predicate TakesOldest(l: Ledger, created: seq<ResponseId>, rec: ResponseRecord, agent: AgentId) {
    && IsQueued(l.records, rec.responseId) && rec == Claimed(l.records[rec.responseId], agent) && rec.attempt == 1
    && forall r :: IsQueued(l.records, r) && r != rec.responseId ==> CreatedBefore(created, rec.responseId, r)
  }

  lemma OldestOf(l: Ledger, created: seq<ResponseId>, agent: AgentId, now: nat)
    requires QueueOk(l, created) && RecordsOk(l)
    ensures var out := LedgerSpec.Claim(l, agent, now).1;
            && (out.None? <==> forall r :: !IsQueued(l.records, r))
            && (out.Some? ==> TakesOldest(l, created, out.value, agent))
  {
    ClaimTakes(l, agent, now);
    var n := Stale(l);
    forall r | IsQueued(l.records, r)
      ensures n < |l.queued| && (r == l.queued[n] || CreatedBefore(created, l.queued[n], r))
    {
      QueuedLater(l, created, r);
    }
    if n < |l.queued| {
      assert RecordOk(l, l.queued[n]);
    }
  }

  lemma QueuedLater(l: Ledger, created: seq<ResponseId>, r: ResponseId)
    requires QueueOk(l, created) && IsQueued(l.records, r)
    ensures Stale(l) < |l.queued| && (r == l.queued[Stale(l)] || CreatedBefore(created, l.queued[Stale(l)], r))
  {
    var j := PlaceInQueue(l, created, r);
    StaleComesFirst(l, created, j);
  }

  lemma StaleComesFirst(l: Ledger, created: seq<ResponseId>, j: nat)
    requires |l.queued| <= |created| && l.queued == created[|created| - |l.queued|..]
    requires j < |l.queued| && IsQueued(l.records, l.queued[j])
    ensures Stale(l) <= j && (j == Stale(l) || CreatedBefore(created, l.queued[Stale(l)], l.queued[j]))
  {
    if Stale(l) < j {
      TailKeepsOrder(created, l.queued, Stale(l), j);
    }
  }

  lemma PlaceInQueue(l: Ledger, created: seq<ResponseId>, r: ResponseId) returns (j: nat)
    requires QueueOk(l, created) && IsQueued(l.records, r)
    ensures j < |l.queued| && l.queued[j] == r
  {
    var i :| 0 <= i < |created| && created[i] == r;
    assert i >= |created| - |l.queued|;
    j := i - (|created| - |l.queued|);
  }

  lemma TailKeepsOrder(created: seq<ResponseId>, tail: seq<ResponseId>, n: nat, j: nat)
    requires |tail| <= |created| && tail == created[|created| - |tail|..] && n < j < |tail|
    ensures CreatedBefore(created, tail[n], tail[j])
  {
    var p := |created| - |tail|;
    assert created[p + n] == tail[n] && created[p + j] == tail[j];
  }

  /** Every waiting record has one place in the queue. */
  lemma QueuedExactlyOnce(calls: seq<Call>, limit: nat, r: ResponseId)
    requires IsRun(calls, limit) && IsQueued(After(START, calls).l.records, r)
    ensures multiset(After(START, calls).l.queued)[r] == 1
  {
    RunKeepsInv(calls, limit);
    OnceInQueue(After(START, calls).l, After(START, calls).created, r);
  }

  lemma OnceInQueue(l: Ledger, created: seq<ResponseId>, r: ResponseId)
    requires QueueOk(l, created) && IsQueued(l.records, r)
    ensures multiset(l.queued)[r] == 1
  {
    var q, popped := l.queued, |created| - |l.queued|;
    var i :| 0 <= i < |created| && created[i] == r;
    var j := i - popped;
    forall k | 0 <= k < |q| && k != j ensures q[k] != r {
      assert q[k] == created[popped + k];
    }
    OnceIn(q, j);
  }

  lemma OnceIn(q: seq<ResponseId>, j: nat)
    requires j < |q| && forall k :: 0 <= k < |q| && k != j ==> q[k] != q[j]
    ensures multiset(q)[q[j]] == 1
  {
    assert q == q[..j] + [q[j]] + q[j + 1..];
    assert q[j] !in q[..j] && q[j] !in q[j + 1..];
  }

  /** A key that was accepted answers with that record for good, or with `NotFound` once the record is gone. */
  lemma AcceptedOnce(calls: seq<Call>, limit: nat, i: nat, rec: ResponseRecord, cfg: Config)
    requires IsRun(calls, limit) && i < |After(START, calls).created|
    ensures var w := After(START, calls);
            && i < |w.keys| && w.keys[i] !in w.keys[..i] && w.keys[i] !in w.keys[i + 1..]
            && LedgerSpec.Create(w.l, rec, w.keys[i], cfg) ==
               (w.l, if w.created[i] in w.l.records then Ok(Duplicate(w.l.records[w.created[i]])) else Err(NotFound))
  {
    RunKeepsInv(calls, limit);
  }

  lemma LimitHolds(calls: seq<Call>, limit: nat)
    requires IsRun(calls, limit)
    ensures |InFlight(After(START, calls).l.records)| <= limit
  {
    RunKeepsInv(calls, limit);
  }

  /** A purge by tenant sees exactly the tenant's records. */
  lemma TenantIndexExact(calls: seq<Call>, limit: nat, t: TenantId)
    requires IsRun(calls, limit)
    ensures var l := After(START, calls).l;
            TenantIds(l, t) == (set r | r in l.records && l.records[r].tenant == t)
  {
    RunKeepsInv(calls, limit);
    TenantIdsExact(After(START, calls).l, t);
  }

  lemma TenantIdsExact(l: Ledger, t: TenantId)
    requires IndexesOk(l)
    ensures TenantIds(l, t) == (set r | r in l.records && l.records[r].tenant == t)
  {
  }

  /** Usage is conserved: the total is the sum of everything reported, whatever was aborted along the way. */
  lemma UsageConserved(calls: seq<Call>, limit: nat, r: ResponseId, side: Side)
    requires IsRun(calls, limit)
    ensures var w := After(START, calls);
            TotalUsage(w.l, r, side) == Cap(Sum(Reported(w, r), side))
  {
    RunKeepsInv(calls, limit);
    assert UsageOkAt(After(START, calls), r, side);
  }
}
