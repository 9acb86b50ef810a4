/**
 One response's bounded event buffer as a value. The log assigns contiguous numbers from zero, keeps the newest
 `cap` events, and answers reads below what it kept with an error.
 */
module EventLogSpec {
  import opened Domain
  import opened ResponseEvents

  datatype LogError = Unknown | Expired | StaleAttempt | CapacityExceeded | ReadOnly

  const TOMBSTONE_FACTOR := 10

  datatype Log = Log(
    ring: seq<ResponseEvent>,
    nextSeq: nat,
    evictedBefore: nat,
    terminalAt: Option<nat>,
    retain: nat,
    swept: bool)

  const NEW_LOG := Log([], 0, 0, None, 0, false)

  function Min(a: nat, b: nat): nat {
    if a <= b then a else b
  }

  // ---- the calls ----

  function Numbered(log: Log, event: AppendEvent): Log {
    log.(nextSeq := log.nextSeq + 1, ring := log.ring + [ResponseEvent(log.nextSeq, event)])
  }

  /** Drop the oldest events until the ring fits. */
  function Evicted(log: Log, cap: nat): Log
    decreases |log.ring|
  {
    if |log.ring| <= cap then log
    else Evicted(log.(ring := log.ring[1..], evictedBefore := log.evictedBefore + 1), cap)
  }

  function Append(log: Log, event: AppendEvent, cap: nat): Log {
    if log.swept then log else Evicted(Numbered(log, event), cap)
  }

  /** The first number the caller still needs; sequence 0 is a number like any other. */
  function Target(after: Option<nat>): nat {
    if after.None? then 0 else SatAdd(after.value, 1)
  }

  function Read(log: Log, after: Option<nat>, limit: nat): Result<seq<ResponseEvent>, LogError> {
    var target := Target(after);
    if log.swept || target < log.evictedBefore then Err(Expired)
    else if target < log.nextSeq then
      var offset := Min(target - log.evictedBefore, |log.ring|);
      Ok(log.ring[offset..Min(offset + limit, |log.ring|)])
    else Ok([])
  }

  function Close(log: Log, now: nat, retain: nat): Log {
    log.(retain := retain, terminalAt := Some(now))
  }

  function SatMul(a: nat, b: nat): nat {
    if a * b <= U64_MAX then a * b else U64_MAX
  }

  predicate PastRetention(log: Log, now: nat) {
    log.terminalAt.Some? && now >= SatAdd(log.terminalAt.value, log.retain)
  }

  predicate PastTombstone(log: Log, now: nat) {
    log.terminalAt.Some? && now >= SatAdd(log.terminalAt.value, SatMul(log.retain, TOMBSTONE_FACTOR))
  }

  /** One log under a sweep: gone, emptied into a tombstone, or left alone. */
  function SweepOne(log: Log, now: nat): Option<Log> {
    if PastTombstone(log, now) then None
    else if !log.swept && PastRetention(log, now)
    then Some(log.(ring := [], evictedBefore := log.nextSeq, swept := true))
    else Some(log)
  }

  // ---- the history it stands for ----

  /** Events `lo..hi` of a history with the numbers the log gave them. */
  function Slice(hist: seq<AppendEvent>, lo: nat, hi: nat): (s: seq<ResponseEvent>)
    requires lo <= hi <= |hist|
  {
    seq(hi - lo, i requires 0 <= i < hi - lo => ResponseEvent(lo + i, hist[lo + i]))
  }

  function FirstKept(hist: seq<AppendEvent>, cap: nat): nat {
    if |hist| <= cap then 0 else |hist| - cap
  }

  /** A live log holds exactly the newest `cap` events of its history; a tombstone holds none. */
  ghost predicate Refines(log: Log, hist: seq<AppendEvent>, cap: nat) {
    && log.nextSeq == |hist|
    && log.evictedBefore == (if log.swept then |hist| else FirstKept(hist, cap))
    && log.ring == Slice(hist, log.evictedBefore, |hist|)
  }

  lemma {:induction false} EvictedDrops(log: Log, cap: nat)
    ensures var drop := if |log.ring| <= cap then 0 else |log.ring| - cap;
            Evicted(log, cap) == log.(ring := log.ring[drop..], evictedBefore := log.evictedBefore + drop)
    decreases |log.ring|
  {
    if |log.ring| > cap {
      var rest := log.(ring := log.ring[1..], evictedBefore := log.evictedBefore + 1);
      EvictedDrops(rest, cap);
      assert rest.ring[|rest.ring| - cap..] == log.ring[|log.ring| - cap..];
    }
  }

  lemma AppendRefines(log: Log, hist: seq<AppendEvent>, event: AppendEvent, cap: nat)
    requires Refines(log, hist, cap)
    ensures Refines(Append(log, event, cap), if log.swept then hist else hist + [event], cap)
  {
    if !log.swept {
      EvictedDrops(Numbered(log, event), cap);
      assert Append(log, event, cap).ring == Slice(hist + [event], FirstKept(hist + [event], cap), |hist| + 1);
    }
  }

  lemma SweepRefines(log: Log, hist: seq<AppendEvent>, now: nat, cap: nat)
    requires Refines(log, hist, cap)
    ensures SweepOne(log, now).Some? ==> Refines(SweepOne(log, now).value, hist, cap)
    ensures SweepOne(log, now).Some? && log.swept ==> SweepOne(log, now).value.swept
  {
    assert Slice(hist, |hist|, |hist|) == [];
  }

  lemma SliceOfSlice(hist: seq<AppendEvent>, first: nat, lo: nat, hi: nat)
    requires first <= lo <= hi <= |hist|
    ensures Slice(hist, first, |hist|)[lo - first..hi - first] == Slice(hist, lo, hi)
  {
    var whole, part := Slice(hist, first, |hist|), Slice(hist, lo, hi);
    forall i | 0 <= i < hi - lo ensures whole[lo - first..hi - first][i] == part[i] {
      assert whole[lo - first..hi - first][i] == whole[lo - first + i];
    }
  }

  /** A read is the requested slice of the history, or an error: never part of it, never something else. */
  lemma ReadExact(log: Log, hist: seq<AppendEvent>, after: Option<nat>, limit: nat, cap: nat)
    requires Refines(log, hist, cap)
    ensures var target := Target(after);
            Read(log, after, limit) ==
            if log.swept || target < FirstKept(hist, cap) then Err(Expired)
            else if target >= |hist| then Ok([])
            else Ok(Slice(hist, target, Min(target + limit, |hist|)))
  {
    var target := Target(after);
    if !log.swept && FirstKept(hist, cap) <= target < |hist| {
      SliceOfSlice(hist, log.evictedBefore, target, Min(target + limit, |hist|));
    }
  }
}
