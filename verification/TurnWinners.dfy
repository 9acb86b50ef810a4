/** Who wins: the executor whose claim still runs, an owner who cancels in time, a sweeper; nobody else. */
module TurnWinners {
  import opened Domain
  import opened TurnProtocol
  import opened TurnSafety
  import opened TurnAccounts

  /** Task `a` has ended `r` with this status and now has its funnel, and only that, in hand. */
  predicate Ended(s: State, a: nat, r: ResponseId, status: ResponseStatus, via: Via) {
    && r in s.records && s.records[r].status == status && Hist(s.books.wins, r) == [Win(status, via, a)]
    && a in s.tasks && s.tasks[a].Ending? && |s.tasks[a].queue| == 1 && s.tasks[a].queue[0].id == r
  }

  predicate Rightful(s: State, a: nat)
    requires ExecutingAt(s, a)
  {
    var r := s.tasks[a].id;
    r in s.records && s.records[r].status == InProgress
  }

  /** A running record carries the attempt its executor was given. */
  lemma RightfulAttempt(s: State, a: nat)
    requires Inv(s) && ExecutingAt(s, a) && Rightful(s, a)
    ensures var t := s.tasks[a];
            && s.records[t.id].attempt == t.attempt && Hist(s.books.wins, t.id) == [] && t.rec.responseId == t.id
  {
    var t := s.tasks[a];
    assert TaskOk(s, a) && RecordOk(s, t.id) && HistoryOk(s, t.id);
  }

  lemma RightfulEnds(s: State, a: nat, via: Via, status: ResponseStatus, usage: Usage, now: nat)
    requires Inv(s) && ExecutingAt(s, a) && Rightful(s, a) && status.IsTerminal()
    ensures var s', r := NextEnd(s, a, via, status, usage, now), s.tasks[a].id;
            Ended(s', a, r, status, via) && s'.records[r].usage == usage
  {
    RightfulAttempt(s, a);
  }

  /** The executor of a claim that still runs passes the fence. */
  lemma ClaimantPasses(states: seq<State>, steps: seq<Step>, cap: nat, k: nat, a: nat)
    requires IsRun(states, steps, cap) && k < |states| && ExecutingAt(states[k], a) && Rightful(states[k], a)
    requires !states[k].tasks[a].fencePassed
    ensures var s' := Next(states[k], CheckFence(a, true)); ExecutingAt(s', a) && s'.tasks[a].fencePassed
  {
    RunKeepsInv(states, steps, cap, k);
    RightfulAttempt(states[k], a);
  }

  /** And it ends its response as it says. */
  lemma ClaimantFinishes(
      states: seq<State>, steps: seq<Step>, cap: nat, k: nat, a: nat, status: ResponseStatus, usage: Usage, now: nat)
    requires IsRun(states, steps, cap) && k < |states| && ExecutingAt(states[k], a) && Rightful(states[k], a)
    requires Enabled(states[k], Finish(a, status, usage, now))
    ensures var s', r := Next(states[k], Finish(a, status, usage, now)), states[k].tasks[a].id;
            Ended(s', a, r, status, ByComplete) && s'.records[r].usage == usage
  {
    RunKeepsInv(states, steps, cap, k);
    RightfulEnds(states[k], a, ByComplete, status, usage, now);
  }

  lemma ClaimantFails(states: seq<State>, steps: seq<Step>, cap: nat, k: nat, a: nat, usage: Usage, now: nat)
    requires IsRun(states, steps, cap) && k < |states| && ExecutingAt(states[k], a) && Rightful(states[k], a)
    requires Enabled(states[k], Fail(a, usage, now))
    ensures var s', r := Next(states[k], Fail(a, usage, now)), states[k].tasks[a].id;
            Ended(s', a, r, Failed, ByFail) && s'.records[r].usage == usage
  {
    RunKeepsInv(states, steps, cap, k);
    RightfulEnds(states[k], a, ByFail, Failed, usage, now);
  }

  /** Once the claim is gone, its executor passes no fence and ends nothing. */
  lemma SupersededLoses(s: State, a: nat, status: ResponseStatus, usage: Usage, now: nat)
    requires ExecutingAt(s, a) && !Rightful(s, a) && !s.tasks[a].fencePassed
    requires status == Completed || status == Incomplete
    ensures && Next(s, CheckFence(a, true)) == s
            && Next(s, Fail(a, usage, now)) == s.(tasks := s.tasks - {a})
            && (s.tasks[a].contextRead ==> Next(s, Finish(a, status, usage, now)) == s.(tasks := s.tasks - {a}))
  {
  }

  /** A cancellation ends a live response of that tenant, waiting or running, and raises its fence, or is idle. */
  lemma OwnerCancels(
      states: seq<State>, steps: seq<Step>, cap: nat, k: nat, a: nat, r: ResponseId, tenant: TenantId, now: nat)
    requires IsRun(states, steps, cap) && k < |states| && NewTask(states[k], a)
    ensures var s, s' := states[k], Next(states[k], Cancel(a, r, tenant, now));
            if r in s.records && s.records[r].tenant == tenant && !s.records[r].status.IsTerminal()
            then Ended(s', a, r, Cancelled, ByCancel) && s'.records[r].attempt == s.records[r].attempt + 1
            else s' == s
  {
    RunKeepsInv(states, steps, cap, k);
    assert HistoryOk(states[k], r) && (r in states[k].records ==> RecordOk(states[k], r));
  }

  /** A sweep fails exactly the claims it found lost, raises their fences and has a funnel for each. */
  lemma SweepFails(
      states: seq<State>, steps: seq<Step>, cap: nat, k: nat, a: nat, lost: seq<ResponseId>, now: nat, r: ResponseId)
    requires IsRun(states, steps, cap) && k < |states| && NewTask(states[k], a) && Reapable(states[k], lost)
    requires r in states[k].records
    ensures var s, s' := states[k], NextReap(states[k], a, lost, now);
            && r in s'.records
            && if r in lost
               then && s'.records[r].status == Failed && s'.records[r].attempt == s.records[r].attempt + 1
                    && Hist(s'.books.wins, r) == [Win(Failed, ByReap, a)]
                    && exists i :: 0 <= i < |s'.tasks[a].queue| && s'.tasks[a].queue[i].id == r
               else s'.records[r] == s.records[r] && Hist(s'.books.wins, r) == Hist(s.books.wins, r)
  {
    RunKeepsInv(states, steps, cap, k);
    var s, s' := states[k], NextReap(states[k], a, lost, now);
    assert RecordOk(s, r) && HistoryOk(s, r);
    if r in lost {
      var i :| 0 <= i < |lost| && lost[i] == r;
      assert s'.tasks[a].queue[i].id == r;
    }
  }

  /** An event pushed past the fence is in the log, with the attempt of its executor. */
  lemma PushLands(s: State, a: nat)
    requires ExecutingAt(s, a) && s.tasks[a].fencePassed
    ensures var s', r := Next(s, PushFenced(a, true)), s.tasks[a].id;
            && Hist(s'.books.fenced, r) == Hist(s.books.fenced, r) + [s.tasks[a].attempt]
            && ExecutingAt(s', a) && !s'.tasks[a].fencePassed
  {
  }

  // ---- creators come to an end ----

  /** How many calls a creator can still make. */
  function CallsLeft(pc: CreatePc): nat {
    match pc
    case AcquireFirst => 7
    case ReadingHolder(_) => 6
    case DroppingStale(_) => 5
    case AcquireAgain => 4
    case Admitting => 3
    case AppendingCreated => 2
    case GivingBack => 1
  }

  function CreatorWork(s: State, a: nat): nat {
    if CreatingAt(s, a) then CallsLeft(s.tasks[a].pc) else 0
  }

  lemma AcquirerMovesOn(s: State, a: nat, up: bool, now: nat)
    requires CreatingAt(s, a) && s.tasks[a].conv.Some? && a in s.used.tasks
    requires s.tasks[a].pc == AcquireFirst || s.tasks[a].pc == AcquireAgain
    ensures var s' := NextTryAcquire(s, a, up, now);
            CreatorWork(s', a) < CreatorWork(s, a) && a in s'.used.tasks && (a in s'.tasks ==> CreatingAt(s', a))
  {
  }

  lemma CreatorMovesOn(s: State, step: Step, s': State, a: nat)
    requires Enabled(s, step) && s' == Next(s, step) && Actor(step) == Some(a) && CreatingAt(s, a) && a in s.used.tasks
    ensures CreatorWork(s', a) < CreatorWork(s, a) && a in s'.used.tasks && (a in s'.tasks ==> CreatingAt(s', a))
  {
    if step.TryAcquire? {
      AcquirerMovesOn(s, a, step.up, step.now);
    }
  }

  /** How many steps task `a` takes. */
  function StepsOf(steps: seq<Step>, a: nat): nat {
    if steps == [] then 0
    else StepsOf(steps[..|steps| - 1], a) + if Actor(steps[|steps| - 1]) == Some(a) then 1 else 0
  }

  ghost predicate CreatesAt(s: State, a: nat) {
    a in s.used.tasks && (a in s.tasks ==> CreatingAt(s, a))
  }

  lemma CreatorWorksOn(s: State, step: Step, s': State, a: nat)
    requires Enabled(s, step) && s' == Next(s, step) && CreatesAt(s, a)
    ensures CreatesAt(s', a)
    ensures CreatorWork(s', a) + (if Actor(step) == Some(a) then 1 else 0) <= CreatorWork(s, a)
  {
    if Actor(step) != Some(a) {
      OnlyActorMoves(s, step, s');
    } else if CreatingAt(s, a) {
      CreatorMovesOn(s, step, s', a);
    } else {
      GoneStaysGone(s, step, s', a);
    }
  }

  /**
   A creator takes over at most once and comes to an end: from any moment of any run on it makes no more calls than its
   place in the code leaves it, seven at the most.
   */
  lemma {:induction false} CreatorsEnd(states: seq<State>, steps: seq<Step>, cap: nat, i: nat, k: nat, a: nat)
    requires IsRun(states, steps, cap) && i <= k < |states| && CreatingAt(states[i], a)
    ensures CreatorWork(states[k], a) + StepsOf(steps[i..k], a) <= CreatorWork(states[i], a) <= 7
    ensures CreatesAt(states[k], a)
    decreases k - i
  {
    if i == k {
      RunKeepsInv(states, steps, cap, i);
      assert TaskOk(states[i], a);
    } else {
      CreatorsEnd(states, steps, cap, i, k - 1, a);
      assert StepAt(states, steps, k - 1);
      assert steps[i..k][..k - 1 - i] == steps[i..k - 1];
      CreatorWorksOn(states[k - 1], steps[k - 1], states[k], a);
    }
  }
}
