/** The in-memory event log: one ring per response, changed in place under one lock. */
module EventLogStore {
  import opened Domain
  import opened ResponseEvents
  import opened EventLogSpec
  import LedgerSpec
  import LedgerStore

  /** The append fence refuses an event of a superseded attempt, of a missing record, or on a read-only node. */
  function FenceError(l: LedgerSpec.Ledger, readOnly: bool, id: ResponseId, attempt: Option<nat>): Option<LogError> {
    if readOnly then Some(ReadOnly)
    else if attempt.None? then None
    else if id !in l.records then Some(Unknown)
    else if !LedgerSpec.FenceHolds(l.records[id], attempt.value) then Some(StaleAttempt)
    else None
  }

  /** An append past the fence: the logs afterwards, and the number given or the refusal. */
  function Appended(logs: map<ResponseId, Log>, id: ResponseId, event: AppendEvent, cap: nat, maxLogs: nat)
    : (map<ResponseId, Log>, Result<nat, LogError>)
  {
    var log := if id in logs then logs[id] else NEW_LOG;
    if id !in logs && |logs| >= maxLogs then (logs, Err(CapacityExceeded))
    else if log.swept then (logs, Err(Expired))
    else (logs[id := EventLogSpec.Append(log, event, cap)], Ok(log.nextSeq))
  }

  /** What remains of every log after a sweep. */
  function SweptLogs(logs: map<ResponseId, Log>, now: nat): map<ResponseId, Log> {
    map id | id in logs && SweepOne(logs[id], now).Some? :: SweepOne(logs[id], now).value
  }

  /** The logs a sweep changes. */
  function Touched(logs: map<ResponseId, Log>, now: nat): set<ResponseId> {
    set id | id in logs && SweepOne(logs[id], now) != Some(logs[id])
  }

  /** `skip` and `take` of an iterator: both stop at the end. */
  function Drop<T>(s: seq<T>, n: nat): seq<T> {
    if n <= |s| then s[n..] else []
  }

  function Take<T>(s: seq<T>, n: nat): seq<T> {
    if n <= |s| then s[..n] else s
  }

  lemma TakeOfDrop<T>(s: seq<T>, n: nat, limit: nat)
    ensures var offset := Min(n, |s|); Take(Drop(s, n), limit) == s[offset..Min(offset + limit, |s|)]
  {
  }

  /** The answer is the requested stretch of the history, or says that it is lost. */
  ghost predicate ReadsHistory(
      log: Log, hist: seq<AppendEvent>, after: Option<nat>, limit: nat, cap: nat,
      out: Result<seq<ResponseEvent>, LogError>)
  {
    var target := Target(after);
    if log.swept || target < FirstKept(hist, cap) then out == Err(Expired)
    else if target >= |hist| then out == Ok([])
    else out == Ok(Slice(hist, target, Min(target + limit, |hist|)))
  }

  class MemEventLog {
    const ledger: LedgerStore.MemLedger
    const cap: nat
    const maxLogs: nat
    var logs: map<ResponseId, Log>

    constructor (ledger: LedgerStore.MemLedger, capacityPerResponse: nat, maxLogs: nat)
      ensures logs == map[] && cap >= 1 && this.maxLogs >= 1 && this.ledger == ledger
    {
      this.ledger := ledger;
      this.cap := if capacityPerResponse >= 1 then capacityPerResponse else 1;
      this.maxLogs := if maxLogs >= 1 then maxLogs else 1;
      logs := map[];
    }

    method Append(id: ResponseId, event: AppendEvent) returns (out: Result<nat, LogError>)
      modifies this`logs
      ensures var refused := FenceError(ledger.State(), ledger.readOnly, id, event.attempt);
              (logs, out) == if refused.Some? then (old(logs), Err(refused.value))
                             else Appended(old(logs), id, event, cap, maxLogs)
      ensures out.Ok? <==>
                && !ledger.readOnly
                && (event.attempt.Some? ==>
                      && id in ledger.records && ledger.records[id].attempt == event.attempt.value
                      && ledger.records[id].status == InProgress)
                && (if id in old(logs) then !old(logs)[id].swept else |old(logs)| < maxLogs)
      ensures out.Ok? ==> out.value == if id in old(logs) then old(logs)[id].nextSeq else 0
    {
      if ledger.readOnly {
        return Err(ReadOnly);
      }
      if event.attempt.Some? {
        var fence := ledger.CheckAttempt(id, event.attempt.value);
        if fence.Err? {
          return Err(if fence.error == LedgerSpec.StaleAttempt then StaleAttempt else Unknown);
        }
      }
      if id !in logs && |logs| >= maxLogs {
        return Err(CapacityExceeded);
      }
      var log := if id in logs then logs[id] else NEW_LOG;
      if log.swept {
        return Err(Expired);
      }
      var seqNo := log.nextSeq;
      log := log.(nextSeq := seqNo + 1, ring := log.ring + [ResponseEvent(seqNo, event)]);
      ghost var grown := log;
      while |log.ring| > cap
        invariant Evicted(log, cap) == Evicted(grown, cap)
        decreases |log.ring|
      {
        log := log.(ring := log.ring[1..], evictedBefore := log.evictedBefore + 1);
      }
      logs := logs[id := log];
      return Ok(seqNo);
    }

    /** One poll: contiguity turns the position asked for into an offset in the ring. */
    method ReadAfter(id: ResponseId, after: Option<nat>, limit: nat) returns (out: Result<seq<ResponseEvent>, LogError>)
      ensures out == if id in logs then Read(logs[id], after, limit) else Err(Unknown)
      ensures forall hist :: id in logs && Refines(logs[id], hist, cap) ==>
                ReadsHistory(logs[id], hist, after, limit, cap, out)
    {
      if id !in logs {
        return Err(Unknown);
      }
      var log := logs[id];
      forall hist | Refines(log, hist, cap)
        ensures ReadsHistory(log, hist, after, limit, cap, Read(log, after, limit))
      {
        ReadExact(log, hist, after, limit, cap);
      }
      if log.swept {
        return Err(Expired);
      }
      var target := match after case None => 0 case Some(n) => SatAdd(n, 1);
      if target < log.evictedBefore {
        return Err(Expired);
      }
      if target < log.nextSeq {
        TakeOfDrop(log.ring, target - log.evictedBefore, limit);
        var batch := Take(Drop(log.ring, target - log.evictedBefore), limit);
        if batch != [] {
          return Ok(batch);
        }
      }
      return Ok([]);
    }

    method Close(id: ResponseId, now: nat, retain: nat) returns (out: Result<(), LogError>)
      modifies this`logs
      ensures if id in old(logs)
              then out == Ok(()) && logs == old(logs)[id := EventLogSpec.Close(old(logs[id]), now, retain)]
              else out == Err(Unknown) && logs == old(logs)
    {
      if id !in logs {
        return Err(Unknown);
      }
      logs := logs[id := logs[id].(retain := retain, terminalAt := Some(now))];
      return Ok(());
    }

    /** Empties what is past its retention and collects what is past its tombstone. */
    method MarkExpired(now: nat) returns (dropped: set<ResponseId>, emptied: nat, ghost marked: set<ResponseId>)
      modifies this`logs
      ensures logs.Keys == old(logs).Keys && emptied == |marked|
      ensures forall id :: id in old(logs) ==> Marked(old(logs[id]), logs[id], id in dropped, id in marked, now)
      ensures dropped <= old(logs).Keys && marked <= old(logs).Keys
    {
      emptied, dropped, marked := 0, {}, {};
      var todo := logs.Keys;
      while todo != {}
        invariant todo <= logs.Keys && logs.Keys == old(logs).Keys && emptied == |marked|
        invariant dropped <= old(logs).Keys - todo && marked <= old(logs).Keys - todo
        invariant forall id :: id in old(logs) ==>
                    if id in todo then logs[id] == old(logs[id])
                    else Marked(old(logs[id]), logs[id], id in dropped, id in marked, now)
        decreases |todo|
      {
        var id :| id in todo;
        todo := todo - {id};
        var log := logs[id];
        MarkOne(log, now);
        if PastTombstone(log, now) {
          dropped := dropped + {id};
        } else if !log.swept && PastRetention(log, now) {
          logs := logs[id := log.(ring := [], evictedBefore := log.nextSeq, swept := true)];
          emptied := emptied + 1;
          marked := marked + {id};
        }
      }
    }

    method SweepExpired(now: nat) returns (swept: nat)
      modifies this`logs
      ensures logs == SweptLogs(old(logs), now)
      ensures swept == |Touched(old(logs), now)|
      ensures forall id :: id in Touched(old(logs), now) <==>
                id in old(logs) && (id in logs ==> logs[id] != old(logs)[id])
    {
      ghost var was := logs;
      var dropped, emptied, marked := MarkExpired(now);
      forall id | id in was
        ensures id in dropped <==> SweepOne(was[id], now).None?
        ensures id in marked + dropped <==> id in Touched(was, now)
        ensures id !in dropped ==> SweepOne(was[id], now) == Some(logs[id])
      {
        assert Marked(was[id], logs[id], id in dropped, id in marked, now);
      }
      assert Touched(was, now) == marked + dropped && marked !! dropped;
      swept := emptied + |dropped|;
      logs := logs - dropped;
    }
  }

  /** What the first pass of a sweep does with one log. */
  predicate Marked(was: Log, log: Log, dropped: bool, emptied: bool, now: nat) {
    && SweepOne(was, now) == (if dropped then None else Some(log))
    && (dropped ==> !emptied)
    && (emptied <==> log != was)
  }

  lemma MarkOne(log: Log, now: nat)
    ensures if PastTombstone(log, now) then Marked(log, log, true, false, now)
            else if !log.swept && PastRetention(log, now)
            then Marked(log, log.(ring := [], evictedBefore := log.nextSeq, swept := true), false, true, now)
            else Marked(log, log, false, false, now)
  {
  }
}
