/**
 The life of a record as its callers know it: what the answers to the calls so far say about it. After every run the
 ledger holds exactly that, and answers every call about it accordingly.
 */
module LedgerLives {
  import opened Domain
  import opened LedgerSpec
  import opened LedgerRuns
  import E = EventLogSpec
  import EventLogStore

  /** What callers were told about a response; `born` is the record accepted, `claimed` the one a claim answered. */
  datatype Fate =
    | Unborn
    | Waiting(born: ResponseRecord)
    | Running(born: ResponseRecord, claimed: ResponseRecord, agent: AgentId)
    | Over(born: ResponseRecord, status: ResponseStatus, usage: Usage, at: nat, attempt: nat)
    | Deleted

  /** How many claims and aborts the record has seen. */
  function Attempts(f: Fate): nat {
    match f
    case Running(_, claimed, _) => claimed.attempt
    case Over(_, _, _, _, attempt) => attempt
    case _ => 0
  }

  predicate Alive(f: Fate) {
    f.Waiting? || f.Running?
  }

  /** What the answer to one call adds. */
  function Told(w: World, call: Call, r: ResponseId, f: Fate): Fate {
    match call
    case Create(rec, key, cfg) =>
      var out := LedgerSpec.Create(w.l, rec, key, cfg).1;
      if out.Ok? && out.value.Accepted? && out.value.record.responseId == r then Waiting(out.value.record) else f
    case Claim(agent, now) =>
      var out := LedgerSpec.Claim(w.l, agent, now).1;
      if out.Some? && out.value.responseId == r && f.Waiting? then Running(f.born, out.value, agent) else f
    case Complete(id, attempt, status, usage, now) =>
      if id == r && Alive(f) && LedgerSpec.Complete(w.l, id, attempt, status, usage, now).1.Ok?
      then Over(f.born, status, usage, now, attempt) else f
    case Cancel(tenant, id, now) =>
      if id == r && Alive(f) && LedgerSpec.Cancel(w.l, tenant, id, now).1.Ok?
      then Over(f.born, Cancelled, ZERO_USAGE, now, Attempts(f) + 1) else f
    case ReapOne(id, now, _) =>
      if id == r && Alive(f) then Over(f.born, Failed, ZERO_USAGE, now, Attempts(f) + 1) else f
    case Remove(id) => if id == r && !f.Unborn? then Deleted else f
    case _ => f
  }

  function FateAfter(calls: seq<Call>, r: ResponseId): Fate
    decreases |calls|
  {
    if calls == [] then Unborn
    else
      var n := |calls| - 1;
      Told(After(START, calls[..n]), calls[n], r, FateAfter(calls[..n], r))
  }

  /** The record is what its life says: the one accepted, but for the claim and the end it has been told about. */
  ghost predicate Holds(l: Ledger, r: ResponseId, f: Fate) {
    match f
    case Unborn => r !in l.records
    case Deleted => r !in l.records
    case Waiting(born) => r in l.records && l.records[r] == born && born.status == Queued && born.usage == ZERO_USAGE
    case Running(born, claimed, agent) =>
      && r in l.records && l.records[r] == claimed && born.usage == ZERO_USAGE
      && claimed == born.(status := InProgress, owner := Some(agent), attempt := 1)
    case Over(born, status, usage, at, attempt) =>
      && r in l.records && status.IsTerminal() && 1 <= attempt <= 2
      && l.records[r] == born.(status := status, usage := usage, completedAt := Some(at), owner := None,
                               attempt := attempt)
  }

  lemma ClaimTold(w: World, agent: AgentId, now: nat, r: ResponseId, f: Fate)
    requires RecordsOk(w.l) && Holds(w.l, r, f)
    ensures Holds(LedgerSpec.Claim(w.l, agent, now).0, r, Told(w, Call.Claim(agent, now), r, f))
  {
    ClaimTakes(w.l, agent, now);
    var n := Stale(w.l);
    if n < |w.l.queued| {
      assert RecordOk(w.l, w.l.queued[n]);
    }
  }

  lemma CreateTold(w: World, rec: ResponseRecord, key: IdempotencyKey, cfg: Config, limit: nat, r: ResponseId, f: Fate)
    requires QueueOk(w.l, w.created) && Legal(w, Call.Create(rec, key, cfg), limit) && Holds(w.l, r, f)
    ensures Holds(NextCreate(w, rec, key, cfg).l, r, Told(w, Call.Create(rec, key, cfg), r, f))
  {
  }

  lemma CompleteTold(w: World, call: Call, r: ResponseId, f: Fate)
    requires RecordsOk(w.l) && Holds(w.l, r, f) && call.Complete?
    ensures Holds(Next(w, call).l, r, Told(w, call, r, f))
  {
    assert r in w.l.records ==> RecordOk(w.l, r);
  }

  lemma AbortTold(w: World, call: Call, limit: nat, r: ResponseId, f: Fate)
    requires RecordsOk(w.l) && Legal(w, call, limit) && Holds(w.l, r, f) && (call.Cancel? || call.ReapOne?)
    ensures Holds(Next(w, call).l, r, Told(w, call, r, f))
  {
    assert r in w.l.records ==> RecordOk(w.l, r);
  }

  lemma StepTold(w: World, call: Call, limit: nat, r: ResponseId, f: Fate)
    requires QueueOk(w.l, w.created) && RecordsOk(w.l) && Legal(w, call, limit) && Holds(w.l, r, f)
    ensures Holds(Next(w, call).l, r, Told(w, call, r, f))
  {
    match call
    case Create(rec, key, cfg) => CreateTold(w, rec, key, cfg, limit, r, f);
    case Claim(agent, now) => ClaimTold(w, agent, now, r, f);
    case Complete(_, _, _, _, _) => CompleteTold(w, call, r, f);
    case Cancel(_, _, _) => AbortTold(w, call, limit, r, f);
    case ReapOne(_, _, _) => AbortTold(w, call, limit, r, f);
    case _ =>
  }

  lemma RunBefore(calls: seq<Call>, limit: nat, n: nat)
    requires IsRun(calls, limit) && n <= |calls|
    ensures IsRun(calls[..n], limit)
  {
    forall i | 0 <= i < n ensures Legal(After(START, calls[..n][..i]), calls[..n][i], limit) {
      assert calls[..n][..i] == calls[..i] && calls[..n][i] == calls[i];
    }
  }

  /** After every run the record is exactly what the answers so far say. */
  lemma {:induction false} RecordIsFate(calls: seq<Call>, limit: nat, r: ResponseId)
    requires IsRun(calls, limit)
    ensures Holds(After(START, calls).l, r, FateAfter(calls, r))
    decreases |calls|
  {
    if calls != [] {
      var n := |calls| - 1;
      RunBefore(calls, limit, n);
      RecordIsFate(calls[..n], limit, r);
      RunKeepsInv(calls[..n], limit);
      assert Legal(After(START, calls[..n]), calls[n], limit);
      StepTold(After(START, calls[..n]), calls[n], limit, r, FateAfter(calls[..n], r));
    }
  }

  // ---- what calls are answered ----

  /** The fence opens for the attempt that the running claim was answered with, and for no other. */
  function FenceAnswer(f: Fate, attempt: nat): Result<(), LedgerError> {
    match f
    case Unborn => Err(NotFound)
    case Deleted => Err(NotFound)
    case Running(_, claimed, _) => if attempt == claimed.attempt then Ok(()) else Err(StaleAttempt)
    case _ => Err(StaleAttempt)
  }

  function Plainly<T>(out: Result<T, LedgerError>): Result<(), LedgerError> {
    if out.Ok? then Ok(()) else Err(out.error)
  }

  lemma FenceAnswers(
      calls: seq<Call>, limit: nat, r: ResponseId, attempt: nat, status: ResponseStatus, usage: Usage, now: nat)
    requires IsRun(calls, limit) && status.IsTerminal()
    ensures var l, answer := After(START, calls).l, FenceAnswer(FateAfter(calls, r), attempt);
            && Plainly(LedgerSpec.Complete(l, r, attempt, status, usage, now).1) == answer
            && Checked(l, false, r, attempt) == answer
  {
    RecordIsFate(calls, limit, r);
  }

  /** The accepted responses that are not over, and those that are not deleted. */
  ghost function AliveOf(calls: seq<Call>): set<ResponseId> {
    set r | r in After(START, calls).created && Alive(FateAfter(calls, r))
  }

  ghost function KeptOf(calls: seq<Call>): set<ResponseId> {
    set r | r in After(START, calls).created && !FateAfter(calls, r).Unborn? && !FateAfter(calls, r).Deleted?
  }

  /** A new key is accepted if the node takes writes and both bounds leave room, in that order of refusal. */
  lemma CreateAnswers(calls: seq<Call>, limit: nat, rec: ResponseRecord, key: IdempotencyKey, cfg: Config)
    requires IsRun(calls, limit) && key !in After(START, calls).keys
    ensures LedgerSpec.Create(After(START, calls).l, rec, key, cfg).1 ==
            if cfg.readOnly then Ok(RefusedReadOnly)
            else if |AliveOf(calls)| >= cfg.pendingLimit then Ok(Overloaded)
            else if |KeptOf(calls)| >= cfg.maxRecords then Err(Unavailable)
            else Ok(Accepted(rec))
  {
    RunKeepsInv(calls, limit);
    var w := After(START, calls);
    forall r
      ensures r in w.l.records <==> r in KeptOf(calls)
      ensures r in InFlight(w.l.records) <==> r in AliveOf(calls)
    {
      RecordIsFate(calls, limit, r);
    }
    assert InFlight(w.l.records) == AliveOf(calls);
    assert w.l.records.Keys == KeptOf(calls);
    assert |w.l.records| == |w.l.records.Keys|;
  }

  /** A cancellation is for the owner of a response that is not over. */
  lemma CancelAnswers(calls: seq<Call>, limit: nat, r: ResponseId, tenant: TenantId, now: nat)
    requires IsRun(calls, limit)
    ensures var f := FateAfter(calls, r);
            Plainly(LedgerSpec.Cancel(After(START, calls).l, tenant, r, now).1) ==
            if f.Unborn? || f.Deleted? || f.born.tenant != tenant then Err(NotFound)
            else if f.Over? then Err(InvalidTransition) else Ok(())
  {
    RecordIsFate(calls, limit, r);
  }

  /** The append fence of the event log asks the same question; an event without an attempt is not fenced. */
  lemma AppendFenceAnswers(calls: seq<Call>, limit: nat, r: ResponseId, attempt: Option<nat>)
    requires IsRun(calls, limit)
    ensures var l, f := After(START, calls).l, FateAfter(calls, r);
            && EventLogStore.FenceError(l, true, r, attempt) == Some(E.ReadOnly)
            && EventLogStore.FenceError(l, false, r, attempt) ==
               if attempt.None? then None
               else if f.Unborn? || f.Deleted? then Some(E.Unknown)
               else if f.Running? && f.claimed.attempt == attempt.value then None
               else Some(E.StaleAttempt)
  {
    RecordIsFate(calls, limit, r);
  }

  // ---- from a claim to its end ----

  /** Call `i` of the run is a claim, answered with this record. */
  ghost predicate ClaimedAt(calls: seq<Call>, i: nat, rec: ResponseRecord) {
    i < |calls| && calls[i].Claim? &&
    LedgerSpec.Claim(After(START, calls[..i]).l, calls[i].agent, calls[i].now).1 == Some(rec)
  }

  /** The call was told that it ended or removed `r`. */
  predicate Ends(w: World, call: Call, r: ResponseId) {
    match call
    case Complete(id, attempt, status, usage, now) =>
      id == r && LedgerSpec.Complete(w.l, id, attempt, status, usage, now).1.Ok?
    case Cancel(tenant, id, now) => id == r && LedgerSpec.Cancel(w.l, tenant, id, now).1.Ok?
    case ReapOne(id, _, _) => id == r
    case Remove(id) => id == r
    case _ => false
  }

  ghost predicate EndsAt(calls: seq<Call>, j: nat, r: ResponseId) {
    j < |calls| && Ends(After(START, calls[..j]), calls[j], r)
  }

  lemma ClaimStarts(w: World, agent: AgentId, now: nat, rec: ResponseRecord, f: Fate)
    requires RecordsOk(w.l) && LedgerSpec.Claim(w.l, agent, now).1 == Some(rec) && Holds(w.l, rec.responseId, f)
    ensures Told(w, Call.Claim(agent, now), rec.responseId, f).Running?
    ensures Told(w, Call.Claim(agent, now), rec.responseId, f).claimed == rec
    ensures Told(w, Call.Claim(agent, now), rec.responseId, f).agent == agent
  {
    ClaimTakes(w.l, agent, now);
    assert RecordOk(w.l, w.l.queued[Stale(w.l)]);
  }

  lemma RunsOn(w: World, call: Call, limit: nat, r: ResponseId, f: Fate)
    requires QueueOk(w.l, w.created) && Legal(w, call, limit) && Holds(w.l, r, f) && f.Running? && !Ends(w, call, r)
    ensures Told(w, call, r, f) == f
  {
  }

  lemma FateStep(calls: seq<Call>, r: ResponseId, k: nat)
    requires k < |calls|
    ensures FateAfter(calls[..k + 1], r) == Told(After(START, calls[..k]), calls[k], r, FateAfter(calls[..k], r))
  {
    assert calls[..k + 1][..k] == calls[..k];
  }

  /** What is known in the middle of a run. */
  lemma Midway(calls: seq<Call>, limit: nat, r: ResponseId, k: nat)
    requires IsRun(calls, limit) && k < |calls|
    ensures var w := After(START, calls[..k]);
            && QueueOk(w.l, w.created) && RecordsOk(w.l) && Holds(w.l, r, FateAfter(calls[..k], r))
            && Legal(w, calls[k], limit)
  {
    RunBefore(calls, limit, k);
    RunKeepsInv(calls[..k], limit);
    RecordIsFate(calls[..k], limit, r);
  }

  /** A claim runs until a call is told that it ended it. */
  lemma {:induction false} ClaimRunsTo(calls: seq<Call>, limit: nat, i: nat, rec: ResponseRecord, k: nat)
    requires IsRun(calls, limit) && ClaimedAt(calls, i, rec) && i < k <= |calls|
    requires forall j :: i < j < k ==> !EndsAt(calls, j, rec.responseId)
    ensures var f := FateAfter(calls[..k], rec.responseId);
            f.Running? && f.claimed == rec && f.agent == calls[i].agent
    decreases k
  {
    var n, r := k - 1, rec.responseId;
    Midway(calls, limit, r, n);
    FateStep(calls, r, n);
    var w, f := After(START, calls[..n]), FateAfter(calls[..n], r);
    if i == n {
      ClaimStarts(w, calls[n].agent, calls[n].now, rec, f);
    } else {
      ClaimRunsTo(calls, limit, i, rec, n);
      assert !EndsAt(calls, n, r);
      RunsOn(w, calls[n], limit, r, f);
    }
  }

  lemma ClaimRuns(calls: seq<Call>, limit: nat, i: nat, rec: ResponseRecord)
    requires IsRun(calls, limit) && ClaimedAt(calls, i, rec)
    requires forall j :: i < j < |calls| ==> !EndsAt(calls, j, rec.responseId)
    ensures var f := FateAfter(calls, rec.responseId);
            f.Running? && f.claimed == rec && f.agent == calls[i].agent
  {
    ClaimRunsTo(calls, limit, i, rec, |calls|);
    assert calls[..|calls|] == calls;
  }

  /**
   While nobody has been told that the response ended, the attempt a claim was answered with completes it, passes the
   fence check and may append; every other attempt is stale.
   */
  lemma ClaimHolds(
      calls: seq<Call>, limit: nat, i: nat, rec: ResponseRecord, attempt: nat, status: ResponseStatus, usage: Usage,
      now: nat)
    requires IsRun(calls, limit) && ClaimedAt(calls, i, rec) && status.IsTerminal()
    requires forall j :: i < j < |calls| ==> !EndsAt(calls, j, rec.responseId)
    ensures var l, r, rightful := After(START, calls).l, rec.responseId, attempt == rec.attempt;
            && LedgerSpec.Complete(l, r, attempt, status, usage, now).1.Ok? == rightful
            && Checked(l, false, r, attempt) == (if rightful then Ok(()) else Err(StaleAttempt))
            && EventLogStore.FenceError(l, false, r, Some(attempt)) == (if rightful then None else Some(E.StaleAttempt))
            && (!rightful ==> LedgerSpec.Complete(l, r, attempt, status, usage, now).1 == Err(StaleAttempt))
  {
    ClaimRuns(calls, limit, i, rec);
    FenceAnswers(calls, limit, rec.responseId, attempt, status, usage, now);
    AppendFenceAnswers(calls, limit, rec.responseId, Some(attempt));
  }

  // ---- which claims look lost ----

  /** When the agent was last heard of: a heartbeat, or a claim that was answered with work. */
  function Heard(w: World, call: Call, agent: AgentId, beat: Option<nat>): Option<nat> {
    match call
    case Heartbeat(x, now) => if x == agent then Some(now) else beat
    case Claim(x, now) => if x == agent && LedgerSpec.Claim(w.l, x, now).1.Some? then Some(now) else beat
    case _ => beat
  }

  function LastHeard(calls: seq<Call>, agent: AgentId): Option<nat>
    decreases |calls|
  {
    if calls == [] then None
    else
      var n := |calls| - 1;
      Heard(After(START, calls[..n]), calls[n], agent, LastHeard(calls[..n], agent))
  }

  function BeatOf(l: Ledger, agent: AgentId): Option<nat> {
    if agent in l.heartbeats then Some(l.heartbeats[agent]) else None
  }

  lemma StepBeats(w: World, call: Call, agent: AgentId)
    ensures BeatOf(Next(w, call).l, agent) == Heard(w, call, agent, BeatOf(w.l, agent))
  {
    if call.Claim? {
      ClaimTakes(w.l, call.agent, call.now);
    }
  }

  lemma {:induction false} BeatsAreLast(calls: seq<Call>, agent: AgentId)
    ensures BeatOf(After(START, calls).l, agent) == LastHeard(calls, agent)
    decreases |calls|
  {
    if calls != [] {
      var n := |calls| - 1;
      BeatsAreLast(calls[..n], agent);
      StepBeats(After(START, calls[..n]), calls[n], agent);
    }
  }

  /**
   A sweep sees as lost exactly the running responses whose agent was last heard of longer ago than the time to live;
   every running response has an agent that was heard of.
   */
  lemma LostExactly(calls: seq<Call>, limit: nat, r: ResponseId, now: nat, ttl: nat)
    requires IsRun(calls, limit)
    ensures var f := FateAfter(calls, r);
            && (f.Running? ==> LastHeard(calls, f.agent).Some?)
            && (r in LostClaims(After(START, calls).l, now, ttl) <==>
                  f.Running? && now > LastHeard(calls, f.agent).value + ttl)
  {
    RecordIsFate(calls, limit, r);
    RunKeepsInv(calls, limit);
    var l, f := After(START, calls).l, FateAfter(calls, r);
    if f.Running? {
      assert RecordOk(l, r);
      BeatsAreLast(calls, f.agent);
    }
  }
}
