/** One incarnation of a response's log over every run of calls: from the first append to the removal. */
module EventLogRuns {
  import opened Domain
  import opened ResponseEvents
  import opened EventLogSpec

  datatype Slot = Absent | Present(log: Log) | Gone

  /** The slot beside every event it ever accepted. */
  datatype World = World(slot: Slot, hist: seq<AppendEvent>)

  const START := World(Absent, [])

  datatype Op = Append(event: AppendEvent) | Close(now: nat, retain: nat) | Sweep(now: nat) | Remove

  /** A later append would start a new incarnation; numbers are 64 bits wide. */
  predicate Legal(w: World, op: Op) {
    op.Append? ==> !w.slot.Gone? && |w.hist| < U64_MAX
  }

  function Next(w: World, op: Op, cap: nat): World {
    match op
    case Append(event) =>
      if w.slot.Gone? then w
      else
        var log := if w.slot.Present? then w.slot.log else NEW_LOG;
        World(Present(EventLogSpec.Append(log, event, cap)), if log.swept then w.hist else w.hist + [event])
    case Close(now, retain) =>
      if w.slot.Present? then w.(slot := Present(EventLogSpec.Close(w.slot.log, now, retain))) else w
    case Sweep(now) =>
      if !w.slot.Present? then w
      else
        var left := SweepOne(w.slot.log, now);
        w.(slot := if left.Some? then Present(left.value) else Gone)
    case Remove => if w.slot.Present? then w.(slot := Gone) else w
  }

  function ReadSlot(slot: Slot, after: Option<nat>, limit: nat): Result<seq<ResponseEvent>, LogError> {
    if slot.Present? then Read(slot.log, after, limit) else Err(Unknown)
  }

  ghost predicate Inv(w: World, cap: nat) {
    && (w.slot.Absent? ==> w.hist == [])
    && (w.slot.Present? ==> Refines(w.slot.log, w.hist, cap))
    && |w.hist| <= U64_MAX
  }

  /** How far a log is along live, expired, unknown. */
  function Stage(w: World): nat {
    match w.slot
    case Absent => 0
    case Present(log) => if log.swept then 2 else 1
    case Gone => 3
  }

  /** A log never goes back, and its history only grows, and only while it is live. */
  predicate Onward(w: World, w': World) {
    && Stage(w) <= Stage(w')
    && w.hist <= w'.hist
    && (Stage(w) >= 2 ==> w'.hist == w.hist)
  }

  lemma StepKeepsInv(w: World, op: Op, cap: nat)
    requires Inv(w, cap) && Legal(w, op)
    ensures Inv(Next(w, op, cap), cap) && Onward(w, Next(w, op, cap))
  {
    match op
    case Append(event) =>
      if !w.slot.Gone? {
        var log := if w.slot.Present? then w.slot.log else NEW_LOG;
        assert w.slot.Absent? ==> Slice(w.hist, 0, 0) == [];
        AppendRefines(log, w.hist, event, cap);
        EvictedDrops(Numbered(log, event), cap);
      }
    case Sweep(now) => if w.slot.Present? { SweepRefines(w.slot.log, w.hist, now, cap); }
    case _ =>
  }

  function After(w: World, ops: seq<Op>, cap: nat): World
    decreases |ops|
  {
    if ops == [] then w else After(Next(w, ops[0], cap), ops[1..], cap)
  }

  predicate IsRun(w: World, ops: seq<Op>, cap: nat)
    decreases |ops|
  {
    ops != [] ==> Legal(w, ops[0]) && IsRun(Next(w, ops[0], cap), ops[1..], cap)
  }

  lemma {:induction false} RunKeepsInv(w: World, ops: seq<Op>, cap: nat)
    requires Inv(w, cap) && IsRun(w, ops, cap)
    ensures Inv(After(w, ops, cap), cap) && Onward(w, After(w, ops, cap))
    decreases |ops|
  {
    if ops != [] {
      StepKeepsInv(w, ops[0], cap);
      RunKeepsInv(Next(w, ops[0], cap), ops[1..], cap);
    }
  }

  /** After any run the ring is the newest `cap` events of the history, numbered from where they stand in it. */
  lemma RingIsHistory(ops: seq<Op>, cap: nat)
    requires IsRun(START, ops, cap) && After(START, ops, cap).slot.Present?
    ensures var w := After(START, ops, cap);
            var log := w.slot.log;
            && log.nextSeq == |w.hist| && log.evictedBefore + |log.ring| == |w.hist| && |log.ring| <= cap
            && (forall i :: 0 <= i < |log.ring| ==>
                  log.ring[i] == ResponseEvent(log.evictedBefore + i, w.hist[log.evictedBefore + i]))
            && |log.ring| == if log.swept then 0 else Min(|w.hist|, cap)
  {
    RunKeepsInv(START, ops, cap);
  }

  /** What every read answers after any run. */
  lemma ReadsAreExact(ops: seq<Op>, cap: nat, after: Option<nat>, limit: nat)
    requires IsRun(START, ops, cap)
    ensures var w := After(START, ops, cap);
            var target := Target(after);
            ReadSlot(w.slot, after, limit) ==
            if !w.slot.Present? then Err(Unknown)
            else if w.slot.log.swept || target < FirstKept(w.hist, cap) then Err(Expired)
            else if target >= |w.hist| then Ok([])
            else Ok(Slice(w.hist, target, Min(target + limit, |w.hist|)))
  {
    RunKeepsInv(START, ops, cap);
    var w := After(START, ops, cap);
    if w.slot.Present? {
      ReadExact(w.slot.log, w.hist, after, limit, cap);
    }
  }

  /** A position that was lost once is lost for good, and `Unknown` comes after `Expired`, never before. */
  lemma LostStaysLost(ops: seq<Op>, more: seq<Op>, cap: nat, after: Option<nat>, limit: nat, limit': nat)
    requires IsRun(START, ops, cap) && IsRun(After(START, ops, cap), more, cap)
    requires !After(START, ops, cap).slot.Absent? && ReadSlot(After(START, ops, cap).slot, after, limit).Err?
    ensures var earlier := ReadSlot(After(START, ops, cap).slot, after, limit);
            var later := ReadSlot(After(After(START, ops, cap), more, cap).slot, after, limit');
            later.Err? && (later.error == earlier.error || later.error == Unknown)
  {
    RunKeepsInv(START, ops, cap);
    var w := After(START, ops, cap);
    RunKeepsInv(w, more, cap);
    var w' := After(w, more, cap);
    if w.slot.Present? {
      ReadExact(w.slot.log, w.hist, after, limit, cap);
    }
    if w'.slot.Present? {
      ReadExact(w'.slot.log, w'.hist, after, limit', cap);
    }
  }

  // ---- when a log expires and when it is gone ----

  /** The end of a period that starts at `t`, on a 64-bit clock. */
  function Until(t: nat, period: nat): nat {
    if t + period <= U64_MAX then t + period else U64_MAX
  }

  /** Some sweep comes at that time or later. */
  ghost predicate SweptFrom(ops: seq<Op>, time: nat) {
    exists i :: 0 <= i < |ops| && ops[i].Sweep? && ops[i].now >= time
  }

  predicate NoEnd(ops: seq<Op>) {
    forall i :: 0 <= i < |ops| ==> !ops[i].Close? && !ops[i].Remove?
  }

  lemma SweptHead(ops: seq<Op>, time: nat)
    requires ops != []
    ensures SweptFrom(ops, time) <==> (ops[0].Sweep? && ops[0].now >= time) || SweptFrom(ops[1..], time)
  {
    if SweptFrom(ops[1..], time) {
      var i :| 0 <= i < |ops| - 1 && ops[1..][i].Sweep? && ops[1..][i].now >= time;
      assert ops[i + 1] == ops[1..][i];
    }
    if SweptFrom(ops, time) && !(ops[0].Sweep? && ops[0].now >= time) {
      var i :| 0 <= i < |ops| && ops[i].Sweep? && ops[i].now >= time;
      assert ops[1..][i - 1] == ops[i];
    }
  }

  predicate ClosedSo(w: World, t: nat, retain: nat) {
    w.slot.Present? && w.slot.log.terminalAt == Some(t) && w.slot.log.retain == retain
  }

  lemma {:induction false} GoneStays(w: World, ops: seq<Op>, cap: nat)
    requires w.slot.Gone? && IsRun(w, ops, cap)
    ensures After(w, ops, cap).slot.Gone?
    decreases |ops|
  {
    if ops != [] {
      GoneStays(Next(w, ops[0], cap), ops[1..], cap);
    }
  }

  lemma {:induction false} AppendKeepsClose(log: Log, cap: nat)
    ensures var log' := Evicted(log, cap);
            log'.terminalAt == log.terminalAt && log'.retain == log.retain && log'.swept == log.swept
    decreases |log.ring|
  {
    if |log.ring| > cap {
      AppendKeepsClose(log.(ring := log.ring[1..], evictedBefore := log.evictedBefore + 1), cap);
    }
  }

  lemma SinceCloseStep(w: World, op: Op, t: nat, retain: nat, cap: nat)
    requires ClosedSo(w, t, retain) && !op.Close? && !op.Remove?
    ensures var w' := Next(w, op, cap);
            var gone := op.Sweep? && op.now >= Until(t, if 10 * retain <= U64_MAX then 10 * retain else U64_MAX);
            && (w'.slot.Gone? <==> gone)
            && (!gone ==>
                  && ClosedSo(w', t, retain)
                  && (w'.slot.log.swept <==> w.slot.log.swept || (op.Sweep? && op.now >= Until(t, retain))))
  {
    if op.Append? {
      AppendKeepsClose(Numbered(w.slot.log, op.event), cap);
    }
  }

  /**
   From its close on, unless closed or removed again, a log is gone once a sweep has come at ten times its retention,
   and expired once one has come at the end of its retention; and not before.
   */
  lemma {:induction false} SinceClose(w: World, t: nat, retain: nat, ops: seq<Op>, cap: nat)
    requires ClosedSo(w, t, retain) && IsRun(w, ops, cap) && NoEnd(ops)
    ensures var w' := After(w, ops, cap);
            var gone := SweptFrom(ops, Until(t, if 10 * retain <= U64_MAX then 10 * retain else U64_MAX));
            && (w'.slot.Gone? <==> gone)
            && (!gone ==> w'.slot.Present?)
            && (!gone ==> (w'.slot.log.swept <==> w.slot.log.swept || SweptFrom(ops, Until(t, retain))))
    decreases |ops|
  {
    if ops != [] {
      var w1, rest := Next(w, ops[0], cap), ops[1..];
      SinceCloseStep(w, ops[0], t, retain, cap);
      SweptHead(ops, Until(t, if 10 * retain <= U64_MAX then 10 * retain else U64_MAX));
      SweptHead(ops, Until(t, retain));
      if w1.slot.Gone? {
        GoneStays(w1, rest, cap);
      } else {
        SinceClose(w1, t, retain, rest, cap);
      }
    }
  }

  /** What a reader is told after a close at `t`: `Unknown`, `Expired`, or still the events. */
  lemma ReadsSinceClose(
      w: World, t: nat, retain: nat, ops: seq<Op>, cap: nat, after: Option<nat>, limit: nat)
    requires Inv(w, cap) && w.slot.Present? && !w.slot.log.swept && NoEnd(ops)
    requires IsRun(Next(w, Close(t, retain), cap), ops, cap)
    ensures var w' := After(Next(w, Close(t, retain), cap), ops, cap);
            var read := ReadSlot(w'.slot, after, limit);
            if SweptFrom(ops, Until(t, if 10 * retain <= U64_MAX then 10 * retain else U64_MAX))
            then read == Err(Unknown)
            else if SweptFrom(ops, Until(t, retain)) || Target(after) < FirstKept(w'.hist, cap)
            then read == Err(Expired)
            else read.Ok?
  {
    var w1 := Next(w, Close(t, retain), cap);
    StepKeepsInv(w, Close(t, retain), cap);
    RunKeepsInv(w1, ops, cap);
    SinceClose(w1, t, retain, ops, cap);
    var w' := After(w1, ops, cap);
    if w'.slot.Present? {
      ReadExact(w'.slot.log, w'.hist, after, limit, cap);
    }
  }

  /** A log that nobody closes or removes outlives every sweep. */
  lemma {:induction false} UnclosedLives(w: World, ops: seq<Op>, cap: nat)
    requires w.slot.Present? && w.slot.log.terminalAt == None && !w.slot.log.swept && NoEnd(ops) && IsRun(w, ops, cap)
    ensures After(w, ops, cap).slot.Present? && !After(w, ops, cap).slot.log.swept
    decreases |ops|
  {
    if ops != [] {
      if ops[0].Append? {
        AppendKeepsClose(Numbered(w.slot.log, ops[0].event), cap);
      }
      UnclosedLives(Next(w, ops[0], cap), ops[1..], cap);
    }
  }
}
