/** The in-memory generation ledger, updated in place; each method is one critical section of its lock. */
module LedgerStore {
  import opened Domain
  import opened LedgerSpec
  import opened UsageSums
  import LedgerRuns

  datatype ClaimedResponse = ClaimedResponse(record: ResponseRecord, execDeadline: nat)

  datatype AbortedClaim = AbortedClaim(
    responseId: ResponseId, previousAttempt: nat, tenant: TenantId, conversation: Option<ConversationId>,
    input: seq<ResponseItem>, store: bool)

  /** What the sweeper is told about a claim it is about to end, read off the record as it was. */
  function ClaimOf(id: ResponseId, rec: ResponseRecord): AbortedClaim {
    AbortedClaim(id, rec.attempt, rec.tenant, rec.anchor.ConversationOf(), rec.input, rec.store)
  }

  lemma {:induction false} ReapAllLeaves(l: Ledger, ids: seq<ResponseId>, now: nat, r: ResponseId)
    requires r in l.records && r !in ids
    ensures r in ReapAll(l, ids, now).records && ReapAll(l, ids, now).records[r] == l.records[r]
    decreases |ids|
  {
    if ids != [] {
      ReapAllLeaves(l, ids[..|ids| - 1], now, r);
    }
  }

  /** Produces the tag over the canonical text of the input items, or fails. */
  type Signer = seq<ResponseItem> -> Option<string>

  /** The record as it is stored: with its input's tag if the store signs. */
  function Signed(signer: Option<Signer>, rec: ResponseRecord): Option<ResponseRecord> {
    if signer.None? then Some(rec)
    else if signer.value(rec.input).None? then None
    else Some(rec.(integrity := signer.value(rec.input)))
  }

  class MemLedger {
    const signer: Option<Signer>
    var records: map<ResponseId, ResponseRecord>
    var byTenant: map<TenantId, set<ResponseId>>
    var expiry: set<(nat, ResponseId)>
    var queued: seq<ResponseId>
    var idem: map<IdempotencyKey, ResponseId>
    var heartbeats: map<AgentId, nat>
    var partials: map<(ResponseId, nat), Usage>
    var readOnly: bool
    var pendingLimit: nat
    var maxRecords: nat

    constructor (signer: Option<Signer>)
      ensures State() == EMPTY && !readOnly && this.signer == signer
    {
      this.signer := signer;
      records, byTenant, expiry, queued, idem, heartbeats, partials := map[], map[], {}, [], map[], map[], map[];
      readOnly, pendingLimit, maxRecords := false, 10_000, 100_000;
    }

    function State(): Ledger
      reads this
    {
      Ledger(records, byTenant, expiry, queued, idem, heartbeats, partials)
    }

    function Settings(): Config
      reads this
    {
      Config(readOnly, pendingLimit, maxRecords)
    }

    method Insert(rec: ResponseRecord)
      modifies this`records, this`byTenant, this`expiry
      ensures State() == InsertRecord(old(State()), rec)
    {
      if rec.expiresAt.Some? {
        expiry := expiry + {(rec.expiresAt.value, rec.responseId)};
      }
      if rec.tenant !in byTenant {
        byTenant := byTenant[rec.tenant := {}];
      }
      byTenant := byTenant[rec.tenant := byTenant[rec.tenant] + {rec.responseId}];
      records := records[rec.responseId := rec];
      assert byTenant == Indexed(old(byTenant), rec.tenant, rec.responseId);
    }

    method Remove(id: ResponseId) returns (removed: Option<ResponseRecord>)
      modifies this`records, this`byTenant, this`expiry, this`partials
      ensures State() == RemoveRecord(old(State()), id)
      ensures removed == if id in old(records) then Some(old(records[id])) else None
    {
      if id !in records {
        return None;
      }
      var rec := records[id];
      records := records - {id};
      if rec.expiresAt.Some? {
        expiry := expiry - {(rec.expiresAt.value, id)};
      }
      if rec.tenant in byTenant {
        byTenant := byTenant[rec.tenant := byTenant[rec.tenant] - {id}];
        if byTenant[rec.tenant] == {} {
          byTenant := byTenant - {rec.tenant};
        }
      }
      assert byTenant == Unindexed(old(byTenant), rec.tenant, id);
      partials := map k | k in partials && k.0 != id :: partials[k];
      return Some(rec);
    }

    /** Counts the records that are not terminal, in whatever order the map yields them. */
    method InFlightCount() returns (n: nat)
      ensures n == |InFlight(records)|
    {
      n := 0;
      var todo, seen := records.Keys, {};
      while todo != {}
        invariant todo <= records.Keys && seen == records.Keys - todo
        invariant n == |set r | r in seen && records[r].Live()|
        decreases |todo|
      {
        var id :| id in todo;
        ghost var counted := set r | r in seen && records[r].Live();
        todo, seen := todo - {id}, seen + {id};
        if records[id].Live() {
          n := n + 1;
          assert (set r | r in seen && records[r].Live()) == counted + {id};
        } else {
          assert (set r | r in seen && records[r].Live()) == counted;
        }
      }
      assert (set r | r in seen && records[r].Live()) == InFlight(records);
    }

    method Create(rec: ResponseRecord, key: IdempotencyKey) returns (out: Result<CreateOutcome, LedgerError>)
      modifies this`records, this`byTenant, this`expiry, this`queued, this`idem
      ensures var signed := Signed(signer, rec);
              (State(), out) == if signed.None? then (old(State()), Err(SigningFailed))
                                else LedgerSpec.Create(old(State()), signed.value, key, old(Settings()))
    {
      var rec := rec;
      if signer.Some? {
        var tag := signer.value(rec.input);
        if tag.None? {
          return Err(SigningFailed);
        }
        rec := rec.(integrity := tag);
      }
      if key in idem {
        if idem[key] !in records {
          return Err(NotFound);
        }
        return Ok(Duplicate(records[idem[key]]));
      }
      if readOnly {
        return Ok(RefusedReadOnly);
      }
      var inFlight := InFlightCount();
      if inFlight >= pendingLimit {
        return Ok(Overloaded);
      }
      if |records| >= maxRecords {
        return Err(Unavailable);
      }
      queued := queued + [rec.responseId];
      idem := idem[key := rec.responseId];
      Insert(rec);
      return Ok(Accepted(rec));
    }

    method Claim(agent: AgentId, now: nat, execTtl: nat) returns (out: Result<Option<ClaimedResponse>, LedgerError>)
      modifies this`records, this`queued, this`heartbeats
      ensures readOnly ==> out == Err(ReadOnly) && State() == old(State())
      ensures !readOnly ==>
                var (l, rec) := LedgerSpec.Claim(old(State()), agent, now);
                && State() == l
                && out == Ok(if rec.Some? then Some(ClaimedResponse(rec.value, SatAdd(now, execTtl))) else None)
    {
      if readOnly {
        return Err(ReadOnly);
      }
      while queued != []
        invariant records == old(records) && heartbeats == old(heartbeats)
        invariant LedgerSpec.Claim(State(), agent, now) == LedgerSpec.Claim(old(State()), agent, now)
        decreases |queued|
      {
        var id := queued[0];
        queued := queued[1..];
        if id in records && records[id].status == Queued {
          var rec := Claimed(records[id], agent);
          records := records[id := rec];
          heartbeats := heartbeats[agent := now];
          return Ok(Some(ClaimedResponse(rec, SatAdd(now, execTtl))));
        }
      }
      return Ok(None);
    }

    method Heartbeat(agent: AgentId, now: nat)
      modifies this`heartbeats
      ensures State() == LedgerSpec.Heartbeat(old(State()), agent, now)
    {
      heartbeats := heartbeats[agent := now];
    }

    method Complete(id: ResponseId, expected: nat, status: ResponseStatus, usage: Usage, now: nat)
      returns (out: Result<(), LedgerError>)
      modifies this`records
      ensures readOnly ==> out == Err(ReadOnly) && State() == old(State())
      ensures !readOnly ==>
                var (l, res) := LedgerSpec.Complete(old(State()), id, expected, status, usage, now);
                State() == l && out == if res.Ok? then Ok(()) else Err(res.error)
    {
      if readOnly {
        return Err(ReadOnly);
      }
      if !status.IsTerminal() {
        return Err(InvalidTransition);
      }
      if id !in records {
        return Err(NotFound);
      }
      var rec := records[id];
      if rec.attempt != expected || rec.status != InProgress {
        return Err(StaleAttempt);
      }
      records := records[id := rec.(status := status, owner := None, usage := usage, completedAt := Some(now))];
      return Ok(());
    }

    /** Raises the fence of one record and books what it has spent so far. */
    method Abort(id: ResponseId, status: ResponseStatus, now: nat)
      requires id in records
      modifies this`records, this`partials
      ensures State() == old(State()).(
                records := old(records)[id := Aborted(old(records[id]), status, now)],
                partials := Booked(old(partials), id, old(records[id])))
    {
      var rec := records[id];
      var previous, partial := rec.attempt, rec.usage;
      records := records[id := rec.(attempt := NextAttempt(previous), status := status, owner := None,
                                      completedAt := Some(now))];
      if !partial.IsZero() {
        partials := partials[(id, previous) := partial];
      }
    }

    method Cancel(tenant: TenantId, id: ResponseId, now: nat) returns (out: Result<(), LedgerError>)
      modifies this`records, this`partials
      ensures readOnly ==> out == Err(ReadOnly) && State() == old(State())
      ensures !readOnly ==>
                var (l, res) := LedgerSpec.Cancel(old(State()), tenant, id, now);
                State() == l && out == if res.Ok? then Ok(()) else Err(res.error)
    {
      if readOnly {
        return Err(ReadOnly);
      }
      if id !in records || records[id].tenant != tenant {
        return Err(NotFound);
      }
      if records[id].status.IsTerminal() {
        return Err(InvalidTransition);
      }
      Abort(id, Cancelled, now);
      return Ok(());
    }

    /** The claims whose holder stopped beating, listed in whatever order the map yields them. */
    method FindLost(now: nat, ttl: nat) returns (lost: seq<ResponseId>)
      ensures forall id :: id in lost <==> id in LostClaims(State(), now, ttl)
      ensures forall id :: id in lost <==>
                && id in records && records[id].status == InProgress
                && (|| records[id].owner.None? || records[id].owner.value !in heartbeats
                    || now > heartbeats[records[id].owner.value] + ttl)
      ensures forall i, j :: 0 <= i < j < |lost| ==> lost[i] != lost[j]
    {
      lost := [];
      var todo := records.Keys;
      while todo != {}
        invariant todo <= records.Keys
        invariant forall id :: id in lost <==> id in LostClaims(State(), now, ttl) && id !in todo
        invariant forall i, j :: 0 <= i < j < |lost| ==> lost[i] != lost[j]
        decreases |todo|
      {
        var id :| id in todo;
        todo := todo - {id};
        var rec := records[id];
        if rec.status == InProgress {
          var gone := rec.owner.None? || rec.owner.value !in heartbeats;
          if !gone {
            var beat := heartbeats[rec.owner.value];
            gone := (if now >= beat then now - beat else 0) > ttl;
          }
          if gone {
            lost := lost + [id];
          }
        }
      }
    }

    method Reap(now: nat, ttl: nat) returns (aborted: seq<AbortedClaim>)
      modifies this`records, this`partials
      ensures Enumerates(Ids(aborted), LostClaims(old(State()), now, ttl))
      ensures State() == ReapAll(old(State()), Ids(aborted), now)
      ensures ReadOff(aborted, old(records))
    {
      var lost := FindLost(now, ttl);
      aborted := [];
      for i := 0 to |lost|
        invariant Ids(aborted) == lost[..i] && ReadOff(aborted, old(records))
        invariant State() == ReapAll(old(State()), lost[..i], now)
      {
        var id := lost[i];
        assert lost[..i + 1] == lost[..i] + [id] && lost[..i + 1][..i] == lost[..i] && id !in lost[..i];
        assert id in LostClaims(old(State()), now, ttl);
        ReapAllLeaves(old(State()), lost[..i], now, id);
        aborted := aborted + [ClaimOf(id, records[id])];
        Abort(id, Failed, now);
      }
      assert lost[..|lost|] == lost;
    }

    method CheckAttempt(id: ResponseId, attempt: nat) returns (out: Result<(), LedgerError>)
      ensures out == Checked(State(), readOnly, id, attempt)
    {
      if readOnly {
        return Err(ReadOnly);
      }
      if id !in records {
        return Err(NotFound);
      }
      if records[id].attempt != attempt || records[id].status != InProgress {
        return Err(StaleAttempt);
      }
      return Ok(());
    }

    method RecordPartialUsage(id: ResponseId, attempt: nat, usage: Usage) returns (out: Result<(), LedgerError>)
      modifies this`partials
      ensures (State(), out) == LedgerSpec.RecordPartialUsage(old(State()), id, attempt, usage)
    {
      if id !in records {
        return Err(NotFound);
      }
      var entry := if (id, attempt) in partials then partials[(id, attempt)] else ZERO_USAGE;
      partials := partials[(id, attempt) := entry.Accumulate(usage)];
      return Ok(());
    }

    method DeleteByTenant(tenant: TenantId) returns (out: Result<nat, LedgerError>, ghost order: seq<ResponseId>)
      modifies this`records, this`byTenant, this`expiry, this`partials
      ensures readOnly ==> out == Err(ReadOnly) && State() == old(State())
      ensures !readOnly ==>
                && Enumerates(order, TenantIds(old(State()), tenant))
                && State() == RemoveAll(old(State()), order)
                && |records| <= |old(records)| && out == Ok(|old(records)| - |records|)
    {
      order := [];
      if readOnly {
        return Err(ReadOnly), order;
      }
      var todo, removed := if tenant in byTenant then byTenant[tenant] else {}, 0;
      ghost var all := todo;
      while todo != {}
        invariant todo <= all && Enumerates(order, all - todo)
        invariant State() == RemoveAll(old(State()), order)
        invariant removed + |records| == |old(records)|
        decreases |todo|
      {
        var id :| id in todo;
        todo := todo - {id};
        var was := Remove(id);
        if was.Some? {
          removed := removed + 1;
        }
        assert (order + [id])[..|order|] == order;
        order := order + [id];
      }
      return Ok(removed), order;
    }

    /** Folds the booked amounts in whatever order the map yields them. */
    method TotalUsage(id: ResponseId) returns (total: Usage)
      requires id in records ==> records[id].usage.InRange()
      ensures forall side :: Count(total, side) == LedgerRuns.TotalUsage(State(), id, side)
    {
      total := if id in records then records[id].usage else ZERO_USAGE;
      var todo := partials.Keys;
      ghost var base, seen := total, {};
      while todo != {}
        invariant todo <= partials.Keys && seen == SlotsOf(partials, id) - todo
        invariant Folded(partials, base, seen, total)
        decreases |todo|
      {
        var k :| k in todo;
        todo := todo - {k};
        if k.0 == id {
          FoldOne(partials, base, seen, total, k);
          total := total.Accumulate(partials[k]);
          seen := seen + {k};
        }
      }
      assert seen == SlotsOf(partials, id);
    }
  }

  /** `total` is `base` and the entries under `seen`, capped. */
  ghost predicate Folded(m: map<Slot, Usage>, base: Usage, seen: set<Slot>, total: Usage) {
    seen <= m.Keys && forall side :: Count(total, side) == Cap(Count(base, side) + SumOver(m, seen, side))
  }

  lemma FoldOne(m: map<Slot, Usage>, base: Usage, seen: set<Slot>, total: Usage, k: Slot)
    requires Folded(m, base, seen, total) && k in m && k !in seen
    ensures Folded(m, base, seen + {k}, total.Accumulate(m[k]))
  {
    forall side ensures Count(total.Accumulate(m[k]), side) == Cap(Count(base, side) + SumOver(m, seen + {k}, side)) {
      AccumulateCaps(total, m[k], side);
      SumOverAny(m, seen + {k}, k, side);
      assert seen + {k} - {k} == seen;
    }
  }

  function Ids(aborted: seq<AbortedClaim>): seq<ResponseId> {
    seq(|aborted|, i requires 0 <= i < |aborted| => aborted[i].responseId)
  }

  /** Every notice describes its record as it was before the sweep. */
  ghost predicate ReadOff(aborted: seq<AbortedClaim>, records: map<ResponseId, ResponseRecord>) {
    forall i :: 0 <= i < |aborted| ==> Describes(aborted[i], records)
  }

  predicate Describes(claim: AbortedClaim, records: map<ResponseId, ResponseRecord>) {
    && claim.responseId in records
    && var rec := records[claim.responseId];
       && claim.previousAttempt == rec.attempt && claim.tenant == rec.tenant
       && claim.conversation == (match rec.anchor case InConversation(c) => Some(c) case _ => None)
       && claim.input == rec.input && claim.store == rec.store
  }
}
