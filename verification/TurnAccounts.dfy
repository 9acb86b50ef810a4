/**
 What becomes of a won response, in every run: its funnel is in hand, served to its end, or its task has stopped; and at
 every moment what is on the books is exactly what the calls already made account for.
 */
module TurnAccounts {
  import opened Domain
  import opened TurnProtocol
  import opened TurnSafety

  // ---- what is settled and what is left ----

  predicate EndingAt(s: State, a: nat) {
    a in s.tasks && s.tasks[a].Ending?
  }

  predicate CallFailed(s: State, r: ResponseId, op: Op) {
    (r, op) in s.trail.failed
  }

  predicate Produces(status: ResponseStatus) {
    status == Completed || status == Incomplete
  }

  /** A turn that produced output which could not be stored is not announced. */
  predicate GivenUp(s: State, r: ResponseId, status: ResponseStatus) {
    Produces(status) && CallFailed(s, r, Archive)
  }

  /** The terminal event and the end of the log, with the calls `left` still to come. */
  predicate LogSettled(s: State, r: ResponseId, status: ResponseStatus, left: seq<Op>) {
    && Hist(s.books.ends, r) ==
       (if Announce in left || CallFailed(s, r, Announce) || GivenUp(s, r, status) then [] else [AnnouncedAs(status)])
    && (r in s.trail.closed <==> !(CloseLog in left || CallFailed(s, r, CloseLog) || GivenUp(s, r, status)))
    && (Announce in left || CloseLog in left ==> !GivenUp(s, r, status))
  }

  predicate ArchiveSettled(s: State, r: ResponseId, status: ResponseStatus, left: seq<Op>)
    requires r in s.books.accepted
  {
    var spec := s.books.accepted[r];
    && Hist(s.books.archives, r) ==
       (if Archive in left || spec.conv.None? || !spec.store || CallFailed(s, r, ReadBack) then [] else [status])
    && (r in s.trail.given <==> Hist(s.books.archives, r) != [] && !CallFailed(s, r, Archive))
  }

  predicate ReleaseSettled(s: State, r: ResponseId, left: seq<Op>)
    requires r in s.books.accepted
  {
    r in s.trail.freed <==>
      s.books.accepted[r].conv.Some? && !(Release in left || CallFailed(s, r, Release) || CallFailed(s, r, ReadBack))
  }

  /** The tail is moved for a stored turn that produced output, and for no other. */
  ghost predicate TailSettled(s: State, r: ResponseId, status: ResponseStatus, left: seq<Op>)
    requires r in s.books.accepted
  {
    var spec := s.books.accepted[r];
    forall c: ConversationId ::
      r in Moves(s.trail, c) <==>
        && Produces(status) && spec == Spec(Some(c), true)
        && !(Archive in left || MoveTail in left || CallFailed(s, r, Archive) || CallFailed(s, r, MoveTail))
  }

  ghost predicate NoneFailed(s: State, r: ResponseId, left: seq<Op>) {
    && (forall op :: op in left ==> !CallFailed(s, r, op))
    && (Archive in left ==> !CallFailed(s, r, MoveTail))
    && (MoveTail in left ==> !CallFailed(s, r, Archive))
    && (Archive in left || Release in left ==> !CallFailed(s, r, ReadBack))
  }

  ghost predicate SettledFor(s: State, r: ResponseId, left: seq<Op>) {
    var wins := Hist(s.books.wins, r);
    && wins != [] && r in s.books.accepted
    && LogSettled(s, r, wins[0].status, left) && ArchiveSettled(s, r, wins[0].status, left)
    && ReleaseSettled(s, r, left) && TailSettled(s, r, wins[0].status, left) && NoneFailed(s, r, left)
  }

  /** Nothing has been done for a response that nobody has ended. */
  ghost predicate Untouched(s: State, r: ResponseId) {
    && (forall op: Op :: !CallFailed(s, r, op))
    && r !in s.trail.closed && r !in s.trail.freed && r !in s.trail.given && r !in s.trail.served
    && (forall c: ConversationId :: r !in Moves(s.trail, c))
  }

  /** Which calls can still be in a plan together. */
  predicate Shape(f: Funnel) {
    && (ReadBack in f.plan ==>
          && f.via.ByCancel? && CloseLog in f.plan && Announce in f.plan
          && (f.conv.Some? ==> Release in f.plan) && (f.conv.Some? && f.store ==> Archive in f.plan))
    && (Archive in f.plan ==> f.conv.Some? && f.store && Release in f.plan && MoveTail !in f.plan)
    && (Archive in f.plan && f.via.ByComplete? ==> f.plan[0] == Archive && Announce in f.plan && CloseLog in f.plan)
    && (MoveTail in f.plan ==> f.via.ByComplete? && f.conv.Some? && f.store)
    && (Release in f.plan ==> f.conv.Some?)
  }

  ghost predicate FunnelSettled(s: State, f: Funnel) {
    SettledFor(s, f.id, f.plan) && Shape(f) && f.id !in s.trail.served
  }

  ghost predicate QueueSettled(s: State, q: seq<Funnel>) {
    forall i :: 0 <= i < |q| ==> FunnelSettled(s, q[i])
  }

  ghost predicate InQueue(q: seq<Funnel>, r: ResponseId) {
    exists i :: 0 <= i < |q| && q[i].id == r
  }

  /** The winner is still at it, has served the response to the end, or has stopped. */
  ghost predicate InHand(s: State, r: ResponseId, a: nat) {
    || r in s.trail.served
    || a in s.trail.stopped
    || (EndingAt(s, a) && InQueue(s.tasks[a].queue, r))
  }

  ghost predicate AccountOk(s: State, r: ResponseId) {
    var wins := Hist(s.books.wins, r);
    && (wins == [] ==> Untouched(s, r))
    && (wins != [] ==> InHand(s, r, wins[0].task))
    && (r in s.trail.served ==> SettledFor(s, r, []))
  }

  ghost predicate Accounts(s: State) {
    && (forall r :: AccountOk(s, r))
    && (forall a :: EndingAt(s, a) ==> QueueSettled(s, s.tasks[a].queue))
  }

  // ---- steps outside the funnels ----

  /** What is on the books about `r` is as it was. */
  ghost predicate SameAccount(s: State, s': State, r: ResponseId) {
    && Hist(s'.books.wins, r) == Hist(s.books.wins, r) && Hist(s'.books.ends, r) == Hist(s.books.ends, r)
    && Hist(s'.books.archives, r) == Hist(s.books.archives, r)
    && (r in s.books.accepted ==> r in s'.books.accepted && s'.books.accepted[r] == s.books.accepted[r])
    && (forall op: Op :: CallFailed(s', r, op) <==> CallFailed(s, r, op))
    && (r in s'.trail.closed <==> r in s.trail.closed) && (r in s'.trail.freed <==> r in s.trail.freed)
    && (r in s'.trail.given <==> r in s.trail.given)
    && (forall c: ConversationId :: r in Moves(s'.trail, c) <==> r in Moves(s.trail, c))
  }

  lemma SameSettled(s: State, s': State, r: ResponseId, left: seq<Op>)
    requires SettledFor(s, r, left) && SameAccount(s, s', r)
    ensures SettledFor(s', r, left)
  {
    assert CallFailed(s', r, Archive) <==> CallFailed(s, r, Archive);
    assert CallFailed(s', r, ReadBack) <==> CallFailed(s, r, ReadBack);
    assert CallFailed(s', r, Release) <==> CallFailed(s, r, Release);
    assert CallFailed(s', r, MoveTail) <==> CallFailed(s, r, MoveTail);
    assert CallFailed(s', r, Announce) <==> CallFailed(s, r, Announce);
    assert CallFailed(s', r, CloseLog) <==> CallFailed(s, r, CloseLog);
  }

  lemma SameFunnels(s: State, s': State, q: seq<Funnel>)
    requires QueueSettled(s, q) && s'.trail.served == s.trail.served
    requires forall i :: 0 <= i < |q| ==> SameAccount(s, s', q[i].id)
    ensures QueueSettled(s', q)
  {
    forall i | 0 <= i < |q| ensures FunnelSettled(s', q[i]) {
      assert FunnelSettled(s, q[i]);
      SameSettled(s, s', q[i].id, q[i].plan);
    }
  }

  /** Nothing changes but what was asked for and who has stopped. */
  ghost predicate SameTrail(s: State, s': State) {
    && s'.trail.failed == s.trail.failed && s'.trail.closed == s.trail.closed && s'.trail.freed == s.trail.freed
    && s'.trail.given == s.trail.given && s'.trail.moves == s.trail.moves && s'.trail.served == s.trail.served
    && s.trail.stopped <= s'.trail.stopped
  }

  ghost predicate SameEnds(s: State, s': State) {
    && s'.books.ends == s.books.ends && s'.books.archives == s.books.archives
    && (forall r :: r in s.books.accepted ==> r in s'.books.accepted && s'.books.accepted[r] == s.books.accepted[r])
  }

  ghost predicate SameEnding(s: State, s': State) {
    && (forall a :: EndingAt(s', a) ==> EndingAt(s, a) && s'.tasks[a] == s.tasks[a])
    && (forall a :: EndingAt(s, a) ==> EndingAt(s', a) || a in s'.trail.stopped)
  }

  lemma SameAll(s: State, s': State, r: ResponseId)
    requires SameTrail(s, s') && SameEnds(s, s') && Hist(s'.books.wins, r) == Hist(s.books.wins, r)
    ensures SameAccount(s, s', r)
  {
  }

  ghost predicate Aside(s: State, s': State) {
    SameTrail(s, s') && SameEnds(s, s') && SameEnding(s, s') && s'.books.wins == s.books.wins
  }

  lemma BesideAccounts(s: State, s': State)
    requires Accounts(s) && Aside(s, s')
    ensures Accounts(s')
  {
    forall r ensures SameAccount(s, s', r) && AccountOk(s', r) {
      SameAll(s, s', r);
      assert AccountOk(s, r);
      if r in s.trail.served {
        SameSettled(s, s', r, []);
      }
    }
    forall a | EndingAt(s', a) ensures QueueSettled(s', s'.tasks[a].queue) {
      SameFunnels(s, s', s.tasks[a].queue);
    }
  }

  // ---- winning ----

  lemma FreshShape(f: Funnel)
    requires f.plan == Plan(f.via, f.conv, f.store)
    ensures Shape(f) && Announce in f.plan && CloseLog in f.plan && MoveTail !in f.plan
    ensures Release in f.plan <==> f.conv.Some?
    ensures Archive in f.plan <==> f.conv.Some? && f.store
  {
  }

  lemma FreshSettles(s: State, s': State, a: nat, f: Funnel)
    requires HistoryOk(s, f.id) && Hist(s.books.wins, f.id) == [] && Untouched(s, f.id)
    requires SameTrail(s, s') && SameEnds(s, s') && FunnelOk(s', a, f) && f.plan == Plan(f.via, f.conv, f.store)
    ensures FunnelSettled(s', f)
  {
    FreshShape(f);
    assert forall op: Op :: CallFailed(s', f.id, op) <==> CallFailed(s, f.id, op);
    assert forall c: ConversationId :: Moves(s'.trail, c) == Moves(s.trail, c);
  }

  /** The first transition of `r`, won by the new task `a`, which has a fresh funnel for it. */
  ghost predicate Won(s: State, s': State, a: nat, r: ResponseId) {
    && EndingAt(s', a) && Hist(s.books.wins, r) == []
    && Hist(s'.books.wins, r) != [] && Hist(s'.books.wins, r)[0].task == a && InQueue(s'.tasks[a].queue, r)
  }

  ghost predicate FreshQueue(s: State, q: seq<Funnel>) {
    forall i :: 0 <= i < |q| ==>
      q[i].plan == Plan(q[i].via, q[i].conv, q[i].store) && Hist(s.books.wins, q[i].id) == []
  }

  lemma WinAccounts(s: State, s': State, a: nat)
    requires Inv(s) && Inv(s') && Accounts(s) && SameTrail(s, s') && SameEnds(s, s')
    requires EndingAt(s', a) && FreshQueue(s, s'.tasks[a].queue) && !EndingAt(s, a)
    requires forall b :: b != a && EndingAt(s', b) ==> EndingAt(s, b) && s'.tasks[b] == s.tasks[b]
    requires forall b :: b != a && EndingAt(s, b) ==> EndingAt(s', b)
    requires forall r :: Won(s, s', a, r) || Hist(s'.books.wins, r) == Hist(s.books.wins, r)
    ensures Accounts(s')
  {
    forall r ensures AccountOk(s', r) {
      assert AccountOk(s, r);
      if !Won(s, s', a, r) {
        SameAll(s, s', r);
        if r in s.trail.served {
          SameSettled(s, s', r, []);
        }
      }
    }
    var q := s'.tasks[a].queue;
    forall i | 0 <= i < |q| ensures FunnelSettled(s', q[i]) {
      assert TaskOk(s', a) && FunnelOk(s', a, q[i]) && HistoryOk(s, q[i].id) && AccountOk(s, q[i].id);
      FreshSettles(s, s', a, q[i]);
    }
    forall b | EndingAt(s', b) ensures QueueSettled(s', s'.tasks[b].queue) {
      if b != a {
        OthersKeepFunnels(s, s', a, b);
      }
    }
  }

  lemma OthersKeepFunnels(s: State, s': State, a: nat, b: nat)
    requires Inv(s) && Accounts(s) && SameTrail(s, s') && SameEnds(s, s') && EndingAt(s, b)
    requires EndingAt(s', b) && s'.tasks[b] == s.tasks[b]
    requires forall r :: Won(s, s', a, r) || Hist(s'.books.wins, r) == Hist(s.books.wins, r)
    ensures QueueSettled(s', s'.tasks[b].queue)
  {
    var q := s.tasks[b].queue;
    forall i | 0 <= i < |q| ensures SameAccount(s, s', q[i].id) {
      assert TaskOk(s, b) && FunnelOk(s, b, q[i]) && !Won(s, s', a, q[i].id);
      SameAll(s, s', q[i].id);
    }
    SameFunnels(s, s', q);
  }

  lemma OneWinAccounts(s: State, s': State, a: nat, r: ResponseId)
    requires Inv(s) && Inv(s') && Accounts(s) && SameTrail(s, s') && SameEnds(s, s')
    requires IsLive(s, r) && !EndingAt(s, a) && EndingAt(s', a)
    requires s'.tasks == s.tasks[a := s'.tasks[a]] && |s'.tasks[a].queue| == 1
    requires var f := s'.tasks[a].queue[0];
             && f.id == r && f.plan == Plan(f.via, f.conv, f.store)
             && s'.books.wins == Log(s.books.wins, r, Win(f.status, f.via, a))
    ensures Accounts(s')
  {
    assert RecordOk(s, r);
    assert s'.tasks[a].queue[0].id == r;
    WinAccounts(s, s', a);
  }

  lemma EndAccounts(s: State, a: nat, via: Via, status: ResponseStatus, usage: Usage, now: nat)
    requires Inv(s) && Accounts(s) && ExecutingAt(s, a) && Fits(Win(status, via, a))
    ensures Accounts(NextEnd(s, a, via, status, usage, now))
  {
    var s', t := NextEnd(s, a, via, status, usage, now), s.tasks[a];
    OnEnd(s, a, via, status, usage, now);
    assert TaskOk(s, a);
    if EndingAt(s', a) {
      OneWinAccounts(s, s', a, t.id);
    } else {
      BesideAccounts(s, s');
    }
  }

  lemma CancelAccounts(s: State, a: nat, id: ResponseId, tenant: TenantId, now: nat)
    requires Inv(s) && Accounts(s) && NewTask(s, a)
    ensures Accounts(NextCancel(s, a, id, tenant, now))
  {
    var s' := NextCancel(s, a, id, tenant, now);
    OnCancel(s, a, id, tenant, now);
    assert a in s.tasks ==> TaskOk(s, a);
    if EndingAt(s', a) {
      OneWinAccounts(s, s', a, id);
    } else {
      BesideAccounts(s, s');
    }
  }

  lemma ReapQueue(s: State, a: nat, lost: seq<ResponseId>, now: nat)
    requires Inv(s) && NewTask(s, a) && Reapable(s, lost)
    ensures var q := NextReap(s, a, lost, now).tasks[a].queue;
            FreshQueue(s, q) && |q| == |lost| && forall i :: 0 <= i < |lost| ==> q[i].id == lost[i]
  {
    var q := NextReap(s, a, lost, now).tasks[a].queue;
    forall i | 0 <= i < |q|
      ensures q[i].plan == Plan(q[i].via, q[i].conv, q[i].store) && Hist(s.books.wins, q[i].id) == []
      ensures q[i].id == lost[i]
    {
      assert RecordOk(s, lost[i]) && q[i] == FunnelOf(s.records[lost[i]], ByReap, Failed);
    }
  }

  lemma ReapAccounts(s: State, a: nat, lost: seq<ResponseId>, now: nat)
    requires Inv(s) && Accounts(s) && NewTask(s, a) && Reapable(s, lost)
    ensures Accounts(NextReap(s, a, lost, now))
  {
    var s' := NextReap(s, a, lost, now);
    OnReap(s, a, lost, now);
    ReapQueue(s, a, lost, now);
    assert a in s.tasks ==> TaskOk(s, a);
    forall r ensures Won(s, s', a, r) || Hist(s'.books.wins, r) == Hist(s.books.wins, r) {
      ReapBooks(s, a, lost, now, r);
      if r in lost {
        var i :| 0 <= i < |lost| && lost[i] == r;
        assert s'.tasks[a].queue[i].id == r && RecordOk(s, r);
      }
    }
    WinAccounts(s, s', a);
  }

  // ---- a funnel makes its next call ----

  lemma TailOf(plan: seq<Op>)
    requires plan != [] && PlanOk(plan)
    ensures forall op :: op in plan[1..] <==> op in plan && op != plan[0]
  {
    assert plan == [plan[0]] + plan[1..];
    assert forall i :: 0 <= i < |plan| - 1 ==> plan[1..][i] == plan[i + 1];
  }

  /** A call that ends the plan early. */
  predicate CutsShort(s: State, f: Funnel, up: bool)
    requires f.plan != []
  {
    match f.plan[0]
    case Archive => f.via.ByComplete? && !(up && Owned(s, f.conv, f.tenant))
    case ReadBack => !(up && f.id in s.records)
    case _ => false
  }

  lemma RestHas(s: State, f: Funnel, up: bool)
    requires f.plan != [] && PlanOk(f.plan)
    ensures forall op ::
              op in Rest(s, f, up) <==>
              if !CutsShort(s, f, up)
              then (op in f.plan && op != f.plan[0]) || (op == MoveTail && f.plan[0] == Archive && f.via.ByComplete?)
              else if f.plan[0] == Archive then op == Release
              else op == Announce || op == CloseLog
  {
    TailOf(f.plan);
  }

  /** Funnel `f` makes its next call. */
  ghost predicate Calls(s: State, s': State, a: nat, f: Funnel, up: bool, marked: bool, given: Given, now: nat) {
    && f.plan != [] && FunnelOk(s, a, f) && FunnelSettled(s, f) && Fits(Win(f.status, f.via, a))
    && s'.books == BooksAfter(s.books, f, up)
    && s'.trail == TrailAfter(s.trail, f, Fails(s, f, up, now), marked, given)
  }

  /** What a call puts on the trail: its failure, or the one thing it does. */
  lemma CallTrail(s: State, s': State, a: nat, f: Funnel, up: bool, marked: bool, given: Given, now: nat)
    requires Calls(s, s', a, f, up, marked, given, now)
    ensures var op, fails := f.plan[0], Fails(s, f, up, now);
            && (forall x: Op :: CallFailed(s', f.id, x) <==> CallFailed(s, f.id, x) || (x == op && fails))
            && (f.id in s'.trail.closed <==> f.id in s.trail.closed || (op == CloseLog && !fails))
            && (f.id in s'.trail.freed <==> f.id in s.trail.freed || (op == Release && !fails))
            && (f.id in s'.trail.given <==> f.id in s.trail.given || (op == Archive && !fails))
            && s'.trail.served == s.trail.served
    ensures var op, fails := f.plan[0], Fails(s, f, up, now);
            forall c: ConversationId ::
              f.id in Moves(s'.trail, c) <==>
                f.id in Moves(s.trail, c) || (op == MoveTail && !fails && f.conv == Some(c))
  {
  }

  lemma CallBooks(s: State, s': State, a: nat, f: Funnel, up: bool, marked: bool, given: Given, now: nat)
    requires Calls(s, s', a, f, up, marked, given, now)
    ensures Hist(s'.books.wins, f.id) == [Win(f.status, f.via, a)]
    ensures f.id in s'.books.accepted && s'.books.accepted[f.id] == Spec(f.conv, f.store)
    ensures Hist(s'.books.ends, f.id) ==
            Hist(s.books.ends, f.id) +
            if f.plan[0] == Announce && !Fails(s, f, up, now) then [AnnouncedAs(f.status)] else []
    ensures Hist(s'.books.archives, f.id) ==
            Hist(s.books.archives, f.id) + if f.plan[0] == Archive then [f.status] else []
  {
  }

  lemma LogSettles(s: State, s': State, a: nat, f: Funnel, up: bool, marked: bool, given: Given, now: nat)
    requires Calls(s, s', a, f, up, marked, given, now)
    ensures LogSettled(s', f.id, f.status, Rest(s, f, up))
  {
    CallTrail(s, s', a, f, up, marked, given, now);
    CallBooks(s, s', a, f, up, marked, given, now);
    RestHas(s, f, up);
    assert f.plan[0] in f.plan;
  }

  lemma ArchiveSettles(s: State, s': State, a: nat, f: Funnel, up: bool, marked: bool, given: Given, now: nat)
    requires Calls(s, s', a, f, up, marked, given, now)
    ensures ArchiveSettled(s', f.id, f.status, Rest(s, f, up))
  {
    CallTrail(s, s', a, f, up, marked, given, now);
    CallBooks(s, s', a, f, up, marked, given, now);
    RestHas(s, f, up);
    assert f.plan[0] in f.plan;
  }

  lemma ReleaseSettles(s: State, s': State, a: nat, f: Funnel, up: bool, marked: bool, given: Given, now: nat)
    requires Calls(s, s', a, f, up, marked, given, now)
    ensures ReleaseSettled(s', f.id, Rest(s, f, up))
  {
    CallTrail(s, s', a, f, up, marked, given, now);
    CallBooks(s, s', a, f, up, marked, given, now);
    RestHas(s, f, up);
    assert f.plan[0] in f.plan;
  }

  lemma TailSettles(s: State, s': State, a: nat, f: Funnel, up: bool, marked: bool, given: Given, now: nat)
    requires Calls(s, s', a, f, up, marked, given, now)
    ensures TailSettled(s', f.id, f.status, Rest(s, f, up))
  {
    CallTrail(s, s', a, f, up, marked, given, now);
    CallBooks(s, s', a, f, up, marked, given, now);
    RestHas(s, f, up);
    assert f.plan[0] in f.plan;
  }

  lemma FailuresSettle(s: State, s': State, a: nat, f: Funnel, up: bool, marked: bool, given: Given, now: nat)
    requires Calls(s, s', a, f, up, marked, given, now)
    ensures NoneFailed(s', f.id, Rest(s, f, up)) && Shape(f.(plan := Rest(s, f, up)))
  {
    CallTrail(s, s', a, f, up, marked, given, now);
    CallBooks(s, s', a, f, up, marked, given, now);
    RestHas(s, f, up);
    assert f.plan[0] in f.plan;
  }

  /** The call is made, and what is left is still exactly what is not yet on the books. */
  lemma CallSettles(s: State, s': State, a: nat, f: Funnel, up: bool, marked: bool, given: Given, now: nat)
    requires Calls(s, s', a, f, up, marked, given, now)
    ensures FunnelSettled(s', f.(plan := Rest(s, f, up)))
  {
    CallTrail(s, s', a, f, up, marked, given, now);
    CallBooks(s, s', a, f, up, marked, given, now);
    LogSettles(s, s', a, f, up, marked, given, now);
    ArchiveSettles(s, s', a, f, up, marked, given, now);
    ReleaseSettles(s, s', a, f, up, marked, given, now);
    TailSettles(s, s', a, f, up, marked, given, now);
    FailuresSettle(s, s', a, f, up, marked, given, now);
  }

  lemma TrailOfOthers(t: Trail, f: Funnel, fails: bool, marked: bool, given: Given, r: ResponseId)
    requires f.plan != [] && r != f.id
    ensures var t' := TrailAfter(t, f, fails, marked, given);
            && (forall op: Op :: (r, op) in t'.failed <==> (r, op) in t.failed)
            && (r in t'.closed <==> r in t.closed) && (r in t'.freed <==> r in t.freed)
            && (r in t'.given <==> r in t.given) && t'.served == t.served && t'.stopped == t.stopped
            && (forall c: ConversationId :: r in Moves(t', c) <==> r in Moves(t, c))
  {
  }

  /** A call of one funnel changes nothing on the books about any other response. */
  lemma OthersSame(
      s: State, s': State, a: nat, f: Funnel, up: bool, marked: bool, given: Given, now: nat, r: ResponseId)
    requires Calls(s, s', a, f, up, marked, given, now) && r != f.id
    ensures SameAccount(s, s', r) && s'.trail.served == s.trail.served && s'.trail.stopped == s.trail.stopped
  {
    TrailOfOthers(s.trail, f, Fails(s, f, up, now), marked, given, r);
    assert forall op: Op :: CallFailed(s', r, op) <==> (r, op) in s'.trail.failed;
  }

  lemma FunnelsOfOthers(s: State, a: nat, b: nat, i: nat, j: nat)
    requires Inv(s) && EndingAt(s, a) && EndingAt(s, b) && i < |s.tasks[a].queue| && j < |s.tasks[b].queue|
    requires a != b || i != j
    ensures s.tasks[a].queue[i].id != s.tasks[b].queue[j].id
  {
    assert TaskOk(s, a) && TaskOk(s, b);
    assert FunnelOk(s, a, s.tasks[a].queue[i]) && FunnelOk(s, b, s.tasks[b].queue[j]);
  }

  /** The first funnel in the hands of `a` makes its next call. */
  ghost predicate CallsAt(s: State, s': State, a: nat, f: Funnel, up: bool, marked: bool, given: Given, now: nat) {
    && EndingAt(s, a) && s.tasks[a].queue != [] && f == s.tasks[a].queue[0]
    && Calls(s, s', a, f, up, marked, given, now)
    && s'.tasks == s.tasks[a := Ending([f.(plan := Rest(s, f, up))] + s.tasks[a].queue[1..])]
  }

  lemma QueueStays(q: seq<Funnel>, f': Funnel, r: ResponseId)
    requires q != [] && f'.id == q[0].id
    ensures InQueue(q, r) ==> InQueue([f'] + q[1..], r)
  {
    var q' := [f'] + q[1..];
    assert forall i :: 0 <= i < |q| ==> q'[i].id == q[i].id;
  }

  lemma CallAccount(
      s: State, s': State, a: nat, f: Funnel, up: bool, marked: bool, given: Given, now: nat, r: ResponseId)
    requires CallsAt(s, s', a, f, up, marked, given, now) && AccountOk(s, r)
    requires FunnelSettled(s', f.(plan := Rest(s, f, up)))
    ensures AccountOk(s', r)
  {
    QueueStays(s.tasks[a].queue, f.(plan := Rest(s, f, up)), r);
    if r != f.id {
      OthersSame(s, s', a, f, up, marked, given, now, r);
      if r in s.trail.served {
        SameSettled(s, s', r, []);
      }
    } else {
      CallBooks(s, s', a, f, up, marked, given, now);
      assert s'.tasks[a].queue[0].id == r;
    }
  }

  lemma CallQueue(s: State, s': State, a: nat, f: Funnel, up: bool, marked: bool, given: Given, now: nat, b: nat)
    requires Inv(s) && Accounts(s) && CallsAt(s, s', a, f, up, marked, given, now) && EndingAt(s', b)
    requires FunnelSettled(s', f.(plan := Rest(s, f, up)))
    ensures QueueSettled(s', s'.tasks[b].queue)
  {
    forall i | 0 <= i < |s'.tasks[b].queue| ensures FunnelSettled(s', s'.tasks[b].queue[i]) {
      if b != a || i > 0 {
        FunnelsOfOthers(s, a, b, 0, i);
        var g := s.tasks[b].queue[i];
        assert s'.tasks[b].queue[i] == g && QueueSettled(s, s.tasks[b].queue) && FunnelSettled(s, g);
        OthersSame(s, s', a, f, up, marked, given, now, g.id);
        SameSettled(s, s', g.id, g.plan);
      }
    }
  }

  lemma CallAccounts(s: State, a: nat, up: bool, output: seq<ResponseItem>, reasoning: Option<string>, now: nat)
    requires Inv(s) && Accounts(s) && EndingAt(s, a) && s.tasks[a].queue != [] && s.tasks[a].queue[0].plan != []
    ensures Accounts(NextProceed(s, a, up, output, reasoning, now))
  {
    var f, s' := s.tasks[a].queue[0], NextProceed(s, a, up, output, reasoning, now);
    var marked, given := Marks(s, f), Given(output, reasoning);
    assert TaskOk(s, a) && FunnelOk(s, a, f) && HistoryOk(s, f.id) && FunnelSettled(s, f);
    CallSettles(s, s', a, f, up, marked, given, now);
    forall r ensures AccountOk(s', r) {
      CallAccount(s, s', a, f, up, marked, given, now, r);
    }
    forall b | EndingAt(s', b) ensures QueueSettled(s', s'.tasks[b].queue) {
      CallQueue(s, s', a, f, up, marked, given, now, b);
    }
  }

  /** The first funnel in the hands of `a` has run out and is put away. */
  ghost predicate Pops(s: State, s': State, a: nat, f: Funnel) {
    && EndingAt(s, a) && s.tasks[a].queue != [] && f == s.tasks[a].queue[0] && f.plan == []
    && s'.books == s.books && s'.trail == s.trail.(served := s.trail.served + {f.id})
    && (forall b :: b != a ==> (EndingAt(s', b) <==> EndingAt(s, b)) && (EndingAt(s, b) ==> s'.tasks[b] == s.tasks[b]))
    && (if |s.tasks[a].queue| == 1 then !EndingAt(s', a)
        else EndingAt(s', a) && s'.tasks[a].queue == s.tasks[a].queue[1..])
  }

  lemma PopAccount(s: State, s': State, a: nat, f: Funnel, r: ResponseId)
    requires Pops(s, s', a, f) && AccountOk(s, r) && FunnelSettled(s, f)
    ensures SameAccount(s, s', r) && AccountOk(s', r)
  {
    assert SameAccount(s, s', r);
    if r in s'.trail.served {
      SameSettled(s, s', r, []);
    }
    var q := s.tasks[a].queue;
    assert forall i :: 0 < i < |q| ==> q[i] == q[1..][i - 1];
  }

  lemma PopQueue(s: State, s': State, a: nat, f: Funnel, b: nat)
    requires Inv(s) && Accounts(s) && Pops(s, s', a, f) && EndingAt(s', b)
    requires forall r :: SameAccount(s, s', r)
    ensures QueueSettled(s', s'.tasks[b].queue)
  {
    forall i | 0 <= i < |s'.tasks[b].queue| ensures FunnelSettled(s', s'.tasks[b].queue[i]) {
      var j := if b == a then i + 1 else i;
      FunnelsOfOthers(s, a, b, 0, j);
      var g := s.tasks[b].queue[j];
      assert s'.tasks[b].queue[i] == g && QueueSettled(s, s.tasks[b].queue) && FunnelSettled(s, g);
      SameSettled(s, s', g.id, g.plan);
    }
  }

  lemma PopAccounts(s: State, a: nat, up: bool, output: seq<ResponseItem>, reasoning: Option<string>, now: nat)
    requires Inv(s) && Accounts(s) && EndingAt(s, a) && s.tasks[a].queue != [] && s.tasks[a].queue[0].plan == []
    ensures Accounts(NextProceed(s, a, up, output, reasoning, now))
  {
    var f, s' := s.tasks[a].queue[0], NextProceed(s, a, up, output, reasoning, now);
    assert QueueSettled(s, s.tasks[a].queue) && FunnelSettled(s, f);
    forall r ensures SameAccount(s, s', r) && AccountOk(s', r) {
      PopAccount(s, s', a, f, r);
    }
    forall b | EndingAt(s', b) ensures QueueSettled(s', s'.tasks[b].queue) {
      PopQueue(s, s', a, f, b);
    }
  }

  lemma ProceedAccounts(s: State, a: nat, up: bool, output: seq<ResponseItem>, reasoning: Option<string>, now: nat)
    requires Inv(s) && Accounts(s) && EndingAt(s, a) && s.tasks[a].queue != []
    ensures Accounts(NextProceed(s, a, up, output, reasoning, now))
  {
    if s.tasks[a].queue[0].plan == [] {
      PopAccounts(s, a, up, output, reasoning, now);
    } else {
      CallAccounts(s, a, up, output, reasoning, now);
    }
  }

  // ---- every run ----

  /** The task that takes a step; conversations and records come and go by themselves. */
  function Actor(step: Step): Option<nat> {
    if step.OpenConversation? || step.DeleteConversation? || step.PostEvent? || step.DeleteRecord? then None
    else Some(step.a)
  }

  lemma TryAcquireAside(s: State, a: nat, up: bool, now: nat)
    requires CreatingAt(s, a) && s.tasks[a].conv.Some?
    ensures Aside(s, NextTryAcquire(s, a, up, now))
  {
  }

  lemma ReadHolderAside(s: State, a: nat, up: bool)
    requires CreatingAt(s, a) && s.tasks[a].pc.ReadingHolder?
    ensures Aside(s, NextReadHolder(s, a, up))
  {
  }

  lemma DropStaleAside(s: State, a: nat, up: bool)
    requires CreatingAt(s, a) && s.tasks[a].pc.DroppingStale?
    ensures Aside(s, NextDropStale(s, a, up))
  {
  }

  lemma AdmitAside(s: State, a: nat, answer: Answer, input: seq<ResponseItem>, now: nat, retention: nat)
    requires CreatingAt(s, a) && s.tasks[a].id !in s.books.accepted
    ensures Aside(s, NextAdmit(s, a, answer, input, now, retention))
  {
  }

  lemma GiveBackAside(s: State, a: nat, up: bool, now: nat)
    requires CreatingAt(s, a) && s.tasks[a].conv.Some?
    ensures Aside(s, NextGiveBack(s, a, up, now))
  {
  }

  lemma FenceAside(s: State, a: nat, up: bool)
    requires ExecutingAt(s, a)
    ensures Aside(s, NextCheckFence(s, a, up)) && Aside(s, NextPushFenced(s, a, up))
  {
  }

  lemma ReadContextAside(s: State, a: nat, up: bool)
    requires ExecutingAt(s, a)
    ensures Aside(s, NextReadContext(s, a, up))
  {
  }

  lemma ClaimAside(s: State, a: nat, id: ResponseId, agent: AgentId)
    requires id in s.records && !EndingAt(s, a)
    ensures Aside(s, NextClaim(s, a, id, agent))
  {
  }

  lemma BeginAside(s: State, a: nat, t: Task)
    requires !EndingAt(s, a) && t.Creating?
    ensures Aside(s, WithTask(s.(used := s.used.(ids := s.used.ids + {t.id})), a, t))
  {
  }

  lemma OutsideAside(s: State, step: Step, s': State)
    requires Enabled(s, step) && s' == Next(s, step) && Actor(step).None?
    ensures Aside(s, s')
  {
    assert s'.books == s.books && s'.trail == s.trail && s'.tasks == s.tasks;
  }

  lemma AppendCreatedAside(s: State, a: nat, up: bool)
    requires CreatingAt(s, a)
    ensures Aside(s, if up then Done(s, a) else WithTask(s, a, s.tasks[a].(pc := GivingBack)))
  {
  }

  lemma StopAside(s: State, a: nat)
    ensures Aside(s, Done(s, a).(trail := s.trail.(stopped := s.trail.stopped + {a})))
  {
  }

  lemma NewIsNotEnding(s: State, a: nat)
    requires Inv(s) && NewTask(s, a)
    ensures !EndingAt(s, a)
  {
    assert a in s.tasks ==> TaskOk(s, a);
  }

  /** Every step by which no response is ended and no funnel moves. */
  lemma StepAside(s: State, step: Step, s': State)
    requires Inv(s) && Enabled(s, step) && s' == Next(s, step)
    requires !IsEnding(step)
    ensures Aside(s, s')
  {
    match step
    case TryAcquire(a, up, now) => TryAcquireAside(s, a, up, now);
    case ReadHolder(a, up) => ReadHolderAside(s, a, up);
    case DropStale(a, up) => DropStaleAside(s, a, up);
    case Admit(a, answer, input, now, retention) =>
      assert TaskOk(s, a);
      AdmitAside(s, a, answer, input, now, retention);
    case GiveBack(a, up, now) => GiveBackAside(s, a, up, now);
    case CheckFence(a, up) => FenceAside(s, a, up);
    case PushFenced(a, up) => FenceAside(s, a, up);
    case ReadContext(a, up) => ReadContextAside(s, a, up);
    case Claim(a, id, agent) => NewIsNotEnding(s, a); ClaimAside(s, a, id, agent);
    case BeginCreate(a, id, tenant, conv, store) =>
      NewIsNotEnding(s, a);
      BeginAside(s, a, Creating(id, tenant, conv, store, if conv.Some? then AcquireFirst else Admitting));
    case AppendCreated(a, up) => AppendCreatedAside(s, a, up);
    case Stop(a) => StopAside(s, a);
    case _ => OutsideAside(s, step, s');
  }

  /** The steps that end a response, or go on with one that has ended. */
  predicate IsEnding(step: Step) {
    step.Finish? || step.Fail? || step.Cancel? || step.Reap? || step.Proceed?
  }

  lemma EndingAccounts(s: State, step: Step, s': State)
    requires Inv(s) && Accounts(s) && Enabled(s, step) && s' == Next(s, step) && IsEnding(step)
    ensures Accounts(s')
  {
    match step
    case Finish(a, status, usage, now) => EndAccounts(s, a, ByComplete, status, usage, now);
    case Fail(a, usage, now) => EndAccounts(s, a, ByFail, Failed, usage, now);
    case Cancel(a, id, tenant, now) => CancelAccounts(s, a, id, tenant, now);
    case Reap(a, lost, now) => ReapAccounts(s, a, lost, now);
    case Proceed(a, up, output, reasoning, now) => ProceedAccounts(s, a, up, output, reasoning, now);
  }

  lemma StepAccounts(s: State, step: Step, s': State)
    requires Inv(s) && Accounts(s) && Enabled(s, step) && s' == Next(s, step)
    ensures Accounts(s')
  {
    if IsEnding(step) {
      EndingAccounts(s, step, s');
    } else {
      StepAside(s, step, s');
      BesideAccounts(s, s');
    }
  }

  lemma {:induction false} RunAccounts(states: seq<State>, steps: seq<Step>, cap: nat, k: nat)
    requires IsRun(states, steps, cap) && k < |states|
    ensures Inv(states[k]) && Accounts(states[k])
  {
    RunKeepsInv(states, steps, cap, k);
    if k > 0 {
      RunAccounts(states, steps, cap, k - 1);
      assert StepAt(states, steps, k - 1);
      StepAccounts(states[k - 1], steps[k - 1], states[k]);
    }
  }

  /** Nobody who wins a response forgets about it: it is in hand, it is served, or its task has stopped. */
  lemma WonIsInHand(states: seq<State>, steps: seq<Step>, cap: nat, k: nat, r: ResponseId)
    requires IsRun(states, steps, cap) && k < |states| && Hist(states[k].books.wins, r) != []
    ensures var s, a := states[k], Hist(states[k].books.wins, r)[0].task;
            || r in s.trail.served
            || a in s.trail.stopped
            || (a in s.tasks && s.tasks[a].Ending? && InQueue(s.tasks[a].queue, r))
  {
    RunAccounts(states, steps, cap, k);
    assert AccountOk(states[k], r);
  }

  // ---- funnels end ----

  /** The calls a funnel can still make: a completion that is archived moves the tail too. */
  function Work(f: Funnel): nat {
    |f.plan| + (if Archive in f.plan && f.via.ByComplete? then 2 else 1)
  }

  function QueueWork(q: seq<Funnel>): nat {
    if q == [] then 0 else Work(q[0]) + QueueWork(q[1..])
  }

  function WorkAt(s: State, a: nat): nat {
    if EndingAt(s, a) then QueueWork(s.tasks[a].queue) else 0
  }

  /** There are six calls, so a plan that has none twice is no longer than six. */
  lemma PlanIsShort(plan: seq<Op>)
    requires forall i, j :: 0 <= i < j < |plan| ==> plan[i] != plan[j]
    ensures |plan| <= 6
  {
    var ops := {ReadBack, Archive, MoveTail, Release, Announce, CloseLog};
    forall i | 0 <= i < |plan| ensures plan[i] in ops {
      match plan[i] case ReadBack => case Archive => case MoveTail => case Release => case Announce => case CloseLog =>
    }
    DistinctFit(plan, ops);
  }

  lemma {:induction false} DistinctFit(plan: seq<Op>, ops: set<Op>)
    requires forall i, j :: 0 <= i < j < |plan| ==> plan[i] != plan[j]
    requires forall i :: 0 <= i < |plan| ==> plan[i] in ops
    ensures |plan| <= |ops|
    decreases |plan|
  {
    if plan != [] {
      var n := |plan| - 1;
      DistinctFit(plan[..n], ops - {plan[n]});
    }
  }

  /** A funnel has at most seven steps left: its calls, and one to be put away. */
  lemma WorkIsShort(f: Funnel)
    requires PlanOk(f.plan)
    ensures Work(f) <= 7
  {
    PlanIsShort(f.plan);
    if Archive in f.plan {
      var more := f.plan + [MoveTail];
      forall i, j | 0 <= i < j < |more| ensures more[i] != more[j] {
        assert more[i] == f.plan[i] && (j < |f.plan| ==> more[j] == f.plan[j]);
      }
      PlanIsShort(more);
    }
  }

  lemma {:induction false} QueueIsShort(q: seq<Funnel>)
    requires forall i :: 0 <= i < |q| ==> PlanOk(q[i].plan)
    ensures QueueWork(q) <= 7 * |q|
    decreases |q|
  {
    if q != [] {
      WorkIsShort(q[0]);
      QueueIsShort(q[1..]);
    }
  }

  lemma CallIsWork(s: State, f: Funnel, up: bool)
    requires f.plan != [] && PlanOk(f.plan) && Shape(f)
    ensures Work(f.(plan := Rest(s, f, up))) < Work(f)
  {
    RestHas(s, f, up);
    TailOf(f.plan);
    if f.plan[0] == ReadBack {
      assert |f.plan| >= 3 by {
        DistinctFit([ReadBack, Announce, CloseLog], set op | op in f.plan);
        PlanHolds(f.plan);
      }
    }
  }

  lemma {:induction false} PlanHolds(plan: seq<Op>)
    ensures |set op | op in plan| <= |plan|
    decreases |plan|
  {
    if plan != [] {
      var n := |plan| - 1;
      PlanHolds(plan[..n]);
      assert (set op | op in plan) == (set op | op in plan[..n]) + {plan[n]};
    }
  }

  lemma ProceedIsWork(s: State, a: nat, up: bool, output: seq<ResponseItem>, reasoning: Option<string>, now: nat)
    requires Inv(s) && Accounts(s) && EndingAt(s, a) && s.tasks[a].queue != []
    ensures WorkAt(NextProceed(s, a, up, output, reasoning, now), a) < WorkAt(s, a)
  {
    var q, s' := s.tasks[a].queue, NextProceed(s, a, up, output, reasoning, now);
    var f := q[0];
    assert TaskOk(s, a) && FunnelOk(s, a, f) && QueueSettled(s, q) && FunnelSettled(s, f);
    if f.plan != [] {
      CallIsWork(s, f, up);
      assert s'.tasks[a].queue[1..] == q[1..];
    }
  }

  /** Every task but `a` is where it was. */
  ghost predicate Beside(s: State, s': State, a: nat) {
    && (forall b :: b != a ==> (b in s'.tasks <==> b in s.tasks))
    && (forall b :: b != a && b in s.tasks ==> s'.tasks[b] == s.tasks[b])
    && s.used.tasks <= s'.used.tasks
  }

  lemma CreatorBeside(s: State, a: nat, up: bool, now: nat)
    requires CreatingAt(s, a) && s.tasks[a].conv.Some?
    ensures Beside(s, NextTryAcquire(s, a, up, now), a) && Beside(s, NextGiveBack(s, a, up, now), a)
  {
  }

  lemma ReadHolderBeside(s: State, a: nat, up: bool)
    requires CreatingAt(s, a) && s.tasks[a].pc.ReadingHolder?
    ensures Beside(s, NextReadHolder(s, a, up), a)
  {
  }

  lemma DropStaleBeside(s: State, a: nat, up: bool)
    requires CreatingAt(s, a) && s.tasks[a].pc.DroppingStale?
    ensures Beside(s, NextDropStale(s, a, up), a)
  {
  }

  lemma AdmitBeside(s: State, a: nat, answer: Answer, input: seq<ResponseItem>, now: nat, retention: nat)
    requires CreatingAt(s, a)
    ensures Beside(s, NextAdmit(s, a, answer, input, now, retention), a)
  {
  }

  lemma ExecutorBeside(s: State, a: nat, up: bool)
    requires ExecutingAt(s, a)
    ensures Beside(s, NextCheckFence(s, a, up), a) && Beside(s, NextPushFenced(s, a, up), a)
    ensures Beside(s, NextReadContext(s, a, up), a)
  {
  }

  lemma EndBeside(s: State, a: nat, via: Via, status: ResponseStatus, usage: Usage, now: nat)
    requires ExecutingAt(s, a)
    ensures Beside(s, NextEnd(s, a, via, status, usage, now), a)
  {
  }

  lemma CancelBeside(s: State, a: nat, id: ResponseId, tenant: TenantId, now: nat)
    ensures Beside(s, NextCancel(s, a, id, tenant, now), a)
  {
  }

  lemma ReapBeside(s: State, a: nat, lost: seq<ResponseId>, now: nat)
    requires Reapable(s, lost)
    ensures Beside(s, NextReap(s, a, lost, now), a)
  {
  }

  lemma ProceedBeside(s: State, a: nat, up: bool, output: seq<ResponseItem>, reasoning: Option<string>, now: nat)
    requires EndingAt(s, a) && s.tasks[a].queue != []
    ensures Beside(s, NextProceed(s, a, up, output, reasoning, now), a)
  {
  }

  /** Only the task that takes the step moves. */
  lemma OnlyActorMoves(s: State, step: Step, s': State)
    requires Enabled(s, step) && s' == Next(s, step)
    ensures if Actor(step).None? then s'.tasks == s.tasks && s'.used.tasks == s.used.tasks
            else Beside(s, s', Actor(step).value)
  {
    match step
    case TryAcquire(a, up, now) => CreatorBeside(s, a, up, now);
    case GiveBack(a, up, now) => CreatorBeside(s, a, up, now);
    case ReadHolder(a, up) => ReadHolderBeside(s, a, up);
    case DropStale(a, up) => DropStaleBeside(s, a, up);
    case Admit(a, answer, input, now, retention) => AdmitBeside(s, a, answer, input, now, retention);
    case CheckFence(a, up) => ExecutorBeside(s, a, up);
    case PushFenced(a, up) => ExecutorBeside(s, a, up);
    case ReadContext(a, up) => ExecutorBeside(s, a, up);
    case Finish(a, status, usage, now) => EndBeside(s, a, ByComplete, status, usage, now);
    case Fail(a, usage, now) => EndBeside(s, a, ByFail, Failed, usage, now);
    case Cancel(a, id, tenant, now) => CancelBeside(s, a, id, tenant, now);
    case Reap(a, lost, now) => ReapBeside(s, a, lost, now);
    case Proceed(a, up, output, reasoning, now) => ProceedBeside(s, a, up, output, reasoning, now);
    case _ =>
  }

  /** A task that is at the end of responses goes on with that or is gone. */
  lemma EndsOrEnding(s: State, step: Step, s': State, a: nat)
    requires EndingAt(s, a) && TaskOk(s, a) && Enabled(s, step) && s' == Next(s, step) && Actor(step) == Some(a)
    ensures step.Proceed? || step.Stop?
    ensures a in s'.used.tasks && (EndingAt(s', a) || a !in s'.tasks)
  {
  }

  lemma GoneStaysGone(s: State, step: Step, s': State, a: nat)
    requires Enabled(s, step) && a in s.used.tasks && a !in s.tasks
    ensures Actor(step) != Some(a)
  {
  }

  ghost predicate EndsAt(s: State, a: nat) {
    EndingAt(s, a) || (a in s.used.tasks && a !in s.tasks)
  }

  lemma WorksOn(s: State, step: Step, s': State, a: nat)
    requires Inv(s) && Accounts(s) && Enabled(s, step) && s' == Next(s, step) && EndsAt(s, a)
    ensures WorkAt(s', a) + (if step.Proceed? && step.a == a then 1 else 0) <= WorkAt(s, a)
    ensures EndsAt(s', a)
  {
    assert a in s.tasks ==> TaskOk(s, a);
    if Actor(step) != Some(a) {
      OnlyActorMoves(s, step, s');
    } else if EndingAt(s, a) {
      EndsOrEnding(s, step, s', a);
      if step.Proceed? {
        ProceedIsWork(s, a, step.up, step.output, step.reasoning, step.now);
      }
    } else {
      GoneStaysGone(s, step, s', a);
    }
  }

  /** How often `a` proceeds. */
  function Turns(steps: seq<Step>, a: nat): nat {
    if steps == [] then 0
    else Turns(steps[..|steps| - 1], a) + if steps[|steps| - 1].Proceed? && steps[|steps| - 1].a == a then 1 else 0
  }

  lemma TurnsPush(steps: seq<Step>, i: nat, n: nat, a: nat)
    requires i <= n < |steps|
    ensures Turns(steps[i..n + 1], a) ==
            Turns(steps[i..n], a) + if steps[n].Proceed? && steps[n].a == a then 1 else 0
  {
    assert steps[i..n + 1][..n - i] == steps[i..n];
  }

  lemma RunWorksOn(states: seq<State>, steps: seq<Step>, cap: nat, k: nat, a: nat)
    requires IsRun(states, steps, cap) && k < |steps| && EndsAt(states[k], a)
    ensures WorkAt(states[k + 1], a) + (if steps[k].Proceed? && steps[k].a == a then 1 else 0) <= WorkAt(states[k], a)
    ensures EndsAt(states[k + 1], a)
  {
    RunAccounts(states, steps, cap, k);
    assert StepAt(states, steps, k);
    WorksOn(states[k], steps[k], states[k + 1], a);
  }

  lemma {:induction false} WorkRunsOut(states: seq<State>, steps: seq<Step>, cap: nat, i: nat, k: nat, a: nat)
    requires IsRun(states, steps, cap) && i <= k < |states| && EndingAt(states[i], a)
    ensures WorkAt(states[k], a) + Turns(steps[i..k], a) <= WorkAt(states[i], a)
    ensures EndsAt(states[k], a)
    decreases k - i
  {
    if i < k {
      WorkRunsOut(states, steps, cap, i, k - 1, a);
      RunWorksOn(states, steps, cap, k - 1, a);
      TurnsPush(steps, i, k - 1, a);
    }
  }

  lemma WorkAtIsShort(s: State, a: nat)
    requires Inv(s) && EndingAt(s, a)
    ensures WorkAt(s, a) <= 7 * |s.tasks[a].queue|
  {
    var q := s.tasks[a].queue;
    assert TaskOk(s, a);
    forall j | 0 <= j < |q| ensures PlanOk(q[j].plan) { assert FunnelOk(s, a, q[j]); }
    QueueIsShort(q);
  }

  lemma QueuedIsWon(s: State, a: nat, r: ResponseId)
    requires Inv(s) && EndingAt(s, a) && InQueue(s.tasks[a].queue, r)
    ensures Hist(s.books.wins, r) != [] && Hist(s.books.wins, r)[0].task == a
  {
    var q := s.tasks[a].queue;
    var j :| 0 <= j < |q| && q[j].id == r;
    assert TaskOk(s, a) && FunnelOk(s, a, q[j]);
  }

  /**
   A funnel comes to its end: a task proceeds at most seven times for each response in its hands, whatever fails and
   whoever runs in between, and until it has stopped or served a response it can proceed.
   */
  lemma FunnelsEnd(states: seq<State>, steps: seq<Step>, cap: nat, i: nat, k: nat, a: nat, r: ResponseId)
    requires IsRun(states, steps, cap) && i <= k < |states|
    requires a in states[i].tasks && states[i].tasks[a].Ending? && InQueue(states[i].tasks[a].queue, r)
    ensures Turns(steps[i..k], a) <= 7 * |states[i].tasks[a].queue|
    ensures var s := states[k];
            || r in s.trail.served
            || a in s.trail.stopped
            || (a in s.tasks && s.tasks[a].Ending? && s.tasks[a].queue != [])
  {
    RunAccounts(states, steps, cap, i);
    WorkRunsOut(states, steps, cap, i, k, a);
    WorkAtIsShort(states[i], a);
    QueuedIsWon(states[i], a, r);
    WinsStay(states, steps, cap, i, k, r);
    WonIsInHand(states, steps, cap, k, r);
  }

  /** A first win is never undone or replaced. */
  lemma {:induction false} WinsStay(states: seq<State>, steps: seq<Step>, cap: nat, i: nat, k: nat, r: ResponseId)
    requires IsRun(states, steps, cap) && i <= k < |states| && Hist(states[i].books.wins, r) != []
    ensures Hist(states[k].books.wins, r) == Hist(states[i].books.wins, r)
    decreases k - i
  {
    if i < k {
      WinsStay(states, steps, cap, i, k - 1, r);
      WinStays(states, steps, cap, k - 1, r);
    }
  }

  lemma WinStays(states: seq<State>, steps: seq<Step>, cap: nat, k: nat, r: ResponseId)
    requires IsRun(states, steps, cap) && k < |steps| && Hist(states[k].books.wins, r) != []
    ensures Hist(states[k + 1].books.wins, r) == Hist(states[k].books.wins, r)
  {
    RunKeepsInv(states, steps, cap, k);
    assert StepAt(states, steps, k);
    WinsGrow(states[k], steps[k], states[k + 1], r);
    AtMostOneWin(states, steps, cap, k + 1, r);
  }

  lemma AtMostOneWin(states: seq<State>, steps: seq<Step>, cap: nat, k: nat, r: ResponseId)
    requires IsRun(states, steps, cap) && k < |states|
    ensures |Hist(states[k].books.wins, r)| <= 1
  {
    RunKeepsInv(states, steps, cap, k);
    assert HistoryOk(states[k], r);
  }

  lemma EndingGrows(s: State, step: Step, s': State, r: ResponseId)
    requires Inv(s) && Enabled(s, step) && s' == Next(s, step) && IsEnding(step)
    ensures Hist(s.books.wins, r) <= Hist(s'.books.wins, r)
  {
    match step
    case Finish(a, status, usage, now) => EndGrows(s, a, ByComplete, status, usage, now, r);
    case Fail(a, usage, now) => EndGrows(s, a, ByFail, Failed, usage, now, r);
    case Cancel(a, id, tenant, now) => CancelGrows(s, a, id, tenant, now, r);
    case Reap(a, lost, now) => ReapBooks(s, a, lost, now, r);
    case Proceed(a, up, output, reasoning, now) => ProceedSame(s, a, up, output, reasoning, now);
  }

  lemma WinsGrow(s: State, step: Step, s': State, r: ResponseId)
    requires Inv(s) && Enabled(s, step) && s' == Next(s, step)
    ensures Hist(s.books.wins, r) <= Hist(s'.books.wins, r)
  {
    if IsEnding(step) {
      EndingGrows(s, step, s', r);
    } else {
      StepAside(s, step, s');
    }
  }

  lemma EndGrows(s: State, a: nat, via: Via, status: ResponseStatus, usage: Usage, now: nat, r: ResponseId)
    requires ExecutingAt(s, a)
    ensures Hist(s.books.wins, r) <= Hist(NextEnd(s, a, via, status, usage, now).books.wins, r)
    ensures NextEnd(s, a, via, status, usage, now).books.accepted == s.books.accepted
  {
  }

  lemma CancelGrows(s: State, a: nat, id: ResponseId, tenant: TenantId, now: nat, r: ResponseId)
    ensures Hist(s.books.wins, r) <= Hist(NextCancel(s, a, id, tenant, now).books.wins, r)
    ensures NextCancel(s, a, id, tenant, now).books.accepted == s.books.accepted
  {
  }

  lemma CallSame(books: Books, f: Funnel, up: bool)
    requires f.plan != []
    ensures BooksAfter(books, f, up).wins == books.wins && BooksAfter(books, f, up).accepted == books.accepted
  {
  }

  lemma ProceedSame(s: State, a: nat, up: bool, output: seq<ResponseItem>, reasoning: Option<string>, now: nat)
    requires EndingAt(s, a) && s.tasks[a].queue != []
    ensures NextProceed(s, a, up, output, reasoning, now).books.wins == s.books.wins
    ensures NextProceed(s, a, up, output, reasoning, now).books.accepted == s.books.accepted
  {
    if s.tasks[a].queue[0].plan != [] {
      CallSame(s.books, s.tasks[a].queue[0], up);
    }
  }
}
