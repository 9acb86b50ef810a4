/**
 What a served response leaves behind: its terminal event, its closed log, its turn in the conversation's snapshot, a
 free marker and `TurnCompleted` on the stream, in every run and whatever else is going on.
 */
module TurnDelivery {
  import opened Domain
  import C = ConversationSpec
  import opened TurnProtocol
  import opened TurnSafety
  import opened TurnContents
  import opened TurnAccounts
  import opened TurnRequests

  // ---- conversations ----

  ghost predicate OnStream(conv: C.Conversation, kind: C.EventKind) {
    exists i :: 0 <= i < |conv.events| && conv.events[i].kind == kind
  }

  /** Nobody is about to have `x` accepted, and nobody ever will be. */
  ghost predicate Decided(s: State, x: ResponseId) {
    x in s.used.ids && forall a :: CreatingAt(s, a) && s.tasks[a].id == x ==> !s.tasks[a].pc.Undecided()
  }

  /** The response completed last does not hold the marker, so no release stops at the idempotent early return. */
  ghost predicate StreamOk(s: State, c: ConversationId)
    requires c in s.convs
  {
    var conv := s.convs[c];
    conv.lastCompleted.Some? ==>
      Decided(s, conv.lastCompleted.value.0) && conv.active != Some(conv.lastCompleted.value.0)
  }

  function LastOf(moves: seq<ResponseId>): Option<ResponseId> {
    if moves == [] then None else Some(moves[|moves| - 1])
  }

  /** The tail is the response that was moved onto it last. */
  predicate TailOk(s: State, c: ConversationId) {
    && (c in s.convs ==> s.convs[c].tail == LastOf(Moves(s.trail, c)))
    && (Moves(s.trail, c) != [] ==> c in s.used.convs)
  }

  predicate IsTurn(
      entries: seq<C.ContextEntry>, input: seq<ResponseItem>, output: seq<ResponseItem>, reasoning: Option<string>)
  {
    && |entries| == |input| + |output|
    && (forall i :: 0 <= i < |input| ==> entries[i] == C.ContextEntry(input[i], None))
    && (forall i :: 0 <= i < |output| ==>
          entries[|input| + i] == C.ContextEntry(output[i], if i == 0 then reasoning else None))
  }

  /** An archived turn is what was asked and what was given; only a turn that produced output keeps its reasoning. */
  ghost predicate TurnTold(s: State, r: ResponseId) {
    && (r in s.notes.turns <==> r in s.trail.given)
    && (r in s.notes.turns ==>
          && r in s.trail.asked && Hist(s.books.wins, r) != []
          && IsTurn(s.notes.turns[r], s.trail.asked[r].input, s.trail.given[r].output,
                    if Produces(Hist(s.books.wins, r)[0].status) then s.trail.given[r].reasoning else None))
  }

  /** What the trail says about a response is so in its conversation. */
  ghost predicate TurnFact(s: State, r: ResponseId) {
    r in s.books.accepted && s.books.accepted[r].conv.Some? && s.books.accepted[r].conv.value in s.convs ==>
      var conv := s.convs[s.books.accepted[r].conv.value];
      && (r in s.trail.given ==> r in conv.snapshot.appended)
      && (r in s.trail.freed ==> conv.active != Some(r))
      && (r in s.trail.freed && s.trail.freed[r] ==>
            && Hist(s.books.wins, r) != []
            && OnStream(conv, C.TurnCompleted(r, Hist(s.books.wins, r)[0].status)))
  }

  ghost predicate Facts(s: State) {
    && (forall c :: c in s.convs ==> StreamOk(s, c))
    && (forall c :: TailOk(s, c))
    && (forall r :: TurnFact(s, r))
    && (forall r :: TurnTold(s, r))
  }

  // ---- steps outside the funnels ----

  /** A conversation only gains; its marker goes free or to somebody not decided yet. */
  ghost predicate ConvSteady(s: State, s': State, c: ConversationId) {
    && (c in s'.convs && c in s.used.convs ==>
          && c in s.convs
          && var v, v' := s.convs[c], s'.convs[c];
             && v.snapshot.appended.Keys <= v'.snapshot.appended.Keys && v.events <= v'.events
             && (|| v'.active == v.active || v'.active.None?
                 || (v'.active.value !in s.books.accepted && !Decided(s, v'.active.value)))
             && (|| v'.lastCompleted == v.lastCompleted
                 || (v'.active.None? && v'.lastCompleted.Some? && Decided(s', v'.lastCompleted.value.0))))
    && (c in s'.convs && c !in s.used.convs ==> s'.convs[c].lastCompleted.None?)
  }

  ghost predicate Steady(s: State, s': State) {
    && (forall c :: ConvSteady(s, s', c))
    && (forall x :: Decided(s, x) ==> Decided(s', x))
    && (forall r :: Hist(s.books.wins, r) <= Hist(s'.books.wins, r))
    && (forall r :: r in s.books.accepted ==> r in s'.books.accepted && s'.books.accepted[r] == s.books.accepted[r])
  }

  lemma StreamSteady(s: State, s': State, c: ConversationId)
    requires Facts(s) && Steady(s, s') && c in s'.convs && s.convs.Keys <= s.used.convs
    ensures StreamOk(s', c)
  {
    assert ConvSteady(s, s', c);
    if c in s.used.convs {
      assert StreamOk(s, c);
    }
  }

  lemma FactSteady(s: State, s': State, r: ResponseId)
    requires Known(s) && TurnFact(s, r) && Steady(s, s') && r in s.books.accepted
    requires r in s'.trail.given <==> r in s.trail.given
    requires r in s'.trail.freed <==> r in s.trail.freed
    requires r in s.trail.freed ==> s'.trail.freed[r] == s.trail.freed[r]
    ensures TurnFact(s', r)
  {
    var conv := s.books.accepted[r].conv;
    assert ConvKnown(s, conv) && Hist(s.books.wins, r) <= Hist(s'.books.wins, r);
    if conv.Some? && conv.value in s'.convs {
      var c := conv.value;
      assert ConvSteady(s, s', c);
      if r in s.trail.freed && s.trail.freed[r] {
        StreamGrows(s.convs[c], s'.convs[c], C.TurnCompleted(r, Hist(s.books.wins, r)[0].status));
      }
    }
  }

  lemma StreamGrows(v: C.Conversation, v': C.Conversation, kind: C.EventKind)
    requires OnStream(v, kind) && v.events <= v'.events
    ensures OnStream(v', kind)
  {
    var i :| 0 <= i < |v.events| && v.events[i].kind == kind;
    assert v'.events[i] == v.events[i];
  }

  /** Nothing is archived, released or moved. */
  ghost predicate SameDeeds(s: State, s': State) {
    && s'.trail.given == s.trail.given && s'.trail.freed == s.trail.freed && s'.trail.moves == s.trail.moves
    && s'.notes.turns == s.notes.turns
    && (forall c :: c in s'.convs ==> if c in s.convs then s'.convs[c].tail == s.convs[c].tail else
          c !in s.used.convs && s'.convs[c].tail.None?)
    && s.used.convs <= s'.used.convs
    && (forall r :: r in s.trail.asked && r in s.books.accepted ==>
          r in s'.trail.asked && s'.trail.asked[r] == s.trail.asked[r])
  }

  lemma SteadyFacts(s: State, s': State)
    requires Inv(s) && Known(s) && Accounts(s) && Facts(s) && Steady(s, s') && SameDeeds(s, s')
    ensures Facts(s')
  {
    forall c | c in s'.convs ensures StreamOk(s', c) { StreamSteady(s, s', c); }
    forall c ensures TailOk(s', c) { assert TailOk(s, c); }
    forall r ensures TurnFact(s', r) {
      assert TurnFact(s, r);
      if r in s.books.accepted {
        FactSteady(s, s', r);
      } else {
        assert HistoryOk(s, r) && AccountOk(s, r);
        NewFact(s, s', r);
      }
    }
    forall r ensures TurnTold(s', r) {
      assert TurnTold(s, r) && HistoryOk(s, r) && Hist(s.books.wins, r) <= Hist(s'.books.wins, r);
    }
  }

  lemma NewFact(s: State, s': State, r: ResponseId)
    requires r !in s.trail.given && r !in s.trail.freed && SameDeeds(s, s')
    ensures TurnFact(s', r)
  {
  }

  // ---- what every step keeps ----

  lemma AcquirerUndecided(s: State, a: nat, up: bool, now: nat)
    requires CreatingAt(s, a) && s.tasks[a].conv.Some?
    requires CreatingAt(NextTryAcquire(s, a, up, now), a)
    ensures NextTryAcquire(s, a, up, now).tasks[a].id == s.tasks[a].id
  {
  }

  /** A creator that still waits for the ledger waited before, or its id is new. */
  lemma ActorUndecided(s: State, step: Step, s': State, a: nat)
    requires Enabled(s, step) && s' == Next(s, step) && Actor(step) == Some(a)
    requires CreatingAt(s', a) && s'.tasks[a].pc.Undecided()
    ensures || (CreatingAt(s, a) && s.tasks[a].id == s'.tasks[a].id && s.tasks[a].pc.Undecided())
            || s'.tasks[a].id !in s.used.ids
  {
    if step.TryAcquire? {
      AcquirerUndecided(s, a, step.up, step.now);
    }
  }

  lemma IdsStay(s: State, step: Step, s': State)
    requires Enabled(s, step) && s' == Next(s, step)
    ensures s.used.ids <= s'.used.ids && s.used.convs <= s'.used.convs
  {
  }

  lemma DecidedStays(s: State, step: Step, s': State, x: ResponseId)
    requires Enabled(s, step) && s' == Next(s, step) && Decided(s, x) && s.used.ids <= s'.used.ids
    ensures Decided(s', x)
  {
    forall a | CreatingAt(s', a) && s'.tasks[a].id == x ensures !s'.tasks[a].pc.Undecided() {
      OnlyActorMoves(s, step, s');
      if Actor(step) == Some(a) && s'.tasks[a].pc.Undecided() {
        ActorUndecided(s, step, s', a);
      }
    }
  }

  lemma AcceptedDecided(s: State, r: ResponseId)
    requires Inv(s) && r in s.books.accepted
    ensures Decided(s, r)
  {
    assert HistoryOk(s, r);
    forall a | CreatingAt(s, a) && s.tasks[a].id == r ensures !s.tasks[a].pc.Undecided() { assert TaskOk(s, a); }
  }

  /** What a step owes the conversations. */
  ghost predicate Owes(s: State, s': State) {
    (forall c :: ConvSteady(s, s', c)) && SameDeeds(s, s')
  }

  lemma SameConvs(s: State, s': State)
    requires s'.convs.Keys <= s.convs.Keys && (forall c :: c in s'.convs ==> s'.convs[c] == s.convs[c])
    requires s.convs.Keys <= s.used.convs <= s'.used.convs
    requires s'.trail.given == s.trail.given && s'.trail.freed == s.trail.freed && s'.trail.moves == s.trail.moves
    requires s'.notes.turns == s.notes.turns
    requires forall r :: r in s.trail.asked && r in s.books.accepted ==>
               r in s'.trail.asked && s'.trail.asked[r] == s.trail.asked[r]
    ensures Owes(s, s')
  {
    forall c | c in s'.convs ensures c in s.convs && s'.convs[c] == s.convs[c] { assert c in s'.convs.Keys; }
  }

  lemma TryAcquireOwes(s: State, a: nat, up: bool, now: nat)
    requires TasksOk(s, a) && Known(s) && CreatingAt(s, a) && s.tasks[a].conv.Some? && s.tasks[a].pc.Undecided()
    ensures Owes(s, NextTryAcquire(s, a, up, now))
  {
    assert !Decided(s, s.tasks[a].id);
  }

  ghost predicate TasksOk(s: State, a: nat) {
    a in s.tasks ==> TaskOk(s, a)
  }

  lemma DropStaleOwes(s: State, a: nat, up: bool)
    requires Known(s) && CreatingAt(s, a) && s.tasks[a].pc.DroppingStale?
    ensures Owes(s, NextDropStale(s, a, up))
  {
  }

  lemma GiveBackOwes(s: State, a: nat, up: bool, now: nat)
    requires Inv(s) && Known(s) && CreatingAt(s, a) && s.tasks[a].conv.Some? && s.tasks[a].pc == GivingBack
    ensures Owes(s, NextGiveBack(s, a, up, now))
  {
    var s' := NextGiveBack(s, a, up, now);
    assert Decided(s', s.tasks[a].id) by {
      assert TaskOk(s, a);
      assert forall b :: CreatingAt(s', b) ==> b != a && CreatingAt(s, b) && s'.tasks[b] == s.tasks[b];
    }
    ReleaseOwes(s, s', a, now);
  }

  lemma ReleaseOwes(s: State, s': State, a: nat, now: nat)
    requires Known(s) && CreatingAt(s, a) && s.tasks[a].conv.Some? && Decided(s', s.tasks[a].id)
    requires s' == NextGiveBack(s, a, true, now) || s' == NextGiveBack(s, a, false, now)
    ensures Owes(s, s')
  {
  }

  lemma OpenOwes(s: State, c: ConversationId, tenant: TenantId)
    requires Known(s) && c !in s.used.convs
    ensures Owes(s, s.(convs := s.convs[c := C.Fresh(tenant)], used := s.used.(convs := s.used.convs + {c})))
  {
  }

  lemma PostEventOwes(s: State, c: ConversationId, kind: C.EventKind, now: nat)
    requires Known(s) && c in s.convs
    ensures Owes(s, WithConv(s, c, C.AppendEvent(s.convs[c], kind, now, s.cap).0))
  {
  }

  lemma DeleteOwes(s: State, c: ConversationId)
    requires Known(s)
    ensures Owes(s, s.(convs := s.convs - {c}))
  {
    SameConvs(s, s.(convs := s.convs - {c}));
  }

  lemma AdmitOwes(s: State, a: nat, answer: Answer, input: seq<ResponseItem>, now: nat, retention: nat)
    requires Known(s) && CreatingAt(s, a) && s.tasks[a].id !in s.books.accepted
    ensures Owes(s, NextAdmit(s, a, answer, input, now, retention))
  {
    SameConvs(s, NextAdmit(s, a, answer, input, now, retention));
  }

  lemma QuietOwes(s: State, step: Step, s': State)
    requires Known(s) && Enabled(s, step) && s' == Next(s, step)
    requires step.DeleteRecord? || step.BeginCreate? || step.ReadHolder? || step.AppendCreated? || step.Stop?
    ensures Owes(s, s')
  {
    SameConvs(s, s');
  }

  /** Nothing happens to conversations, nor to what is noted about them. */
  ghost predicate Still(s: State, s': State) {
    && s'.convs == s.convs && s'.used.convs == s.used.convs && s'.notes.turns == s.notes.turns
    && s'.trail == s.trail
  }

  lemma ClaimIsStill(s: State, a: nat, id: ResponseId, agent: AgentId)
    requires id in s.records
    ensures Still(s, NextClaim(s, a, id, agent))
  {
  }

  lemma ExecutorIsStill(s: State, a: nat, up: bool)
    requires ExecutingAt(s, a)
    ensures Still(s, NextCheckFence(s, a, up)) && Still(s, NextPushFenced(s, a, up))
    ensures Still(s, NextReadContext(s, a, up))
  {
  }

  lemma EndIsStill(s: State, a: nat, via: Via, status: ResponseStatus, usage: Usage, now: nat)
    requires ExecutingAt(s, a)
    ensures Still(s, NextEnd(s, a, via, status, usage, now))
  {
  }

  lemma CancelIsStill(s: State, a: nat, id: ResponseId, tenant: TenantId, now: nat)
    ensures Still(s, NextCancel(s, a, id, tenant, now))
  {
  }

  lemma ReapIsStill(s: State, a: nat, lost: seq<ResponseId>, now: nat)
    requires Reapable(s, lost)
    ensures Still(s, NextReap(s, a, lost, now))
  {
  }

  lemma WorkerIsStill(s: State, step: Step, s': State)
    requires Enabled(s, step) && s' == Next(s, step)
    requires IsWork(step)
    ensures Still(s, s')
  {
    match step
    case Claim(a, id, agent) => ClaimIsStill(s, a, id, agent);
    case CheckFence(a, up) => ExecutorIsStill(s, a, up);
    case PushFenced(a, up) => ExecutorIsStill(s, a, up);
    case ReadContext(a, up) => ExecutorIsStill(s, a, up);
    case Finish(a, status, usage, now) => EndIsStill(s, a, ByComplete, status, usage, now);
    case Fail(a, usage, now) => EndIsStill(s, a, ByFail, Failed, usage, now);
    case Cancel(a, id, tenant, now) => CancelIsStill(s, a, id, tenant, now);
    case Reap(a, lost, now) => ReapIsStill(s, a, lost, now);
  }

  predicate IsWork(step: Step) {
    step.Claim? || step.CheckFence? || step.PushFenced? || step.ReadContext? || step.Finish? || step.Fail?
    || step.Cancel? || step.Reap?
  }

  lemma StepOwes(s: State, step: Step, s': State)
    requires Inv(s) && Known(s) && Enabled(s, step) && s' == Next(s, step) && !step.Proceed?
    ensures Owes(s, s')
  {
    if IsWork(step) {
      WorkerIsStill(s, step, s');
      SameConvs(s, s');
    } else {
      CreatorOwes(s, step, s');
    }
  }

  lemma CreatorOwes(s: State, step: Step, s': State)
    requires Inv(s) && Known(s) && Enabled(s, step) && s' == Next(s, step) && !step.Proceed? && !IsWork(step)
    ensures Owes(s, s')
  {
    match step
    case OpenConversation(c, tenant) => OpenOwes(s, c, tenant);
    case DeleteConversation(c) => DeleteOwes(s, c);
    case PostEvent(c, kind, now) => PostEventOwes(s, c, kind, now);
    case TryAcquire(a, up, now) => assert TaskOk(s, a); TryAcquireOwes(s, a, up, now);
    case DropStale(a, up) => DropStaleOwes(s, a, up);
    case GiveBack(a, up, now) => GiveBackOwes(s, a, up, now);
    case Admit(a, answer, input, now, retention) => assert TaskOk(s, a); AdmitOwes(s, a, answer, input, now, retention);
    case _ => QuietOwes(s, step, s');
  }

  lemma WinnersAcceptNobody(s: State, step: Step, s': State)
    requires Enabled(s, step) && s' == Next(s, step)
    requires IsEnding(step)
    ensures s'.books.accepted == s.books.accepted
  {
    match step
    case Finish(a, status, usage, now) => EndGrows(s, a, ByComplete, status, usage, now, 0);
    case Fail(a, usage, now) => EndGrows(s, a, ByFail, Failed, usage, now, 0);
    case Cancel(a, id, tenant, now) => CancelGrows(s, a, id, tenant, now, 0);
    case Proceed(a, up, output, reasoning, now) => ProceedSame(s, a, up, output, reasoning, now);
    case Reap(_, _, _) =>
  }

  /** Whoever is accepted stays accepted, on the same terms. */
  lemma AcceptedStays(s: State, step: Step, s': State)
    requires Inv(s) && Enabled(s, step) && s' == Next(s, step)
    ensures forall r :: r in s.books.accepted ==> r in s'.books.accepted && s'.books.accepted[r] == s.books.accepted[r]
  {
    if IsEnding(step) {
      WinnersAcceptNobody(s, step, s');
    } else {
      StepAside(s, step, s');
    }
  }

  lemma StepSteady(s: State, step: Step, s': State)
    requires Inv(s) && Enabled(s, step) && s' == Next(s, step) && forall c :: ConvSteady(s, s', c)
    ensures Steady(s, s')
  {
    AcceptedStays(s, step, s');
    IdsStay(s, step, s');
    forall x | Decided(s, x) ensures Decided(s', x) { DecidedStays(s, step, s', x); }
    forall r ensures Hist(s.books.wins, r) <= Hist(s'.books.wins, r) { WinsGrow(s, step, s', r); }
  }

  // ---- a funnel's call ----

  /** The conversation the next call of `f` reaches, as the call leaves it. */
  ghost predicate CallsOn(s: State, s': State, f: Funnel, up: bool, given: Given, now: nat) {
    && f.plan != [] && s'.used == s.used && s'.cap == s.cap
    && s'.convs == (if up && Owned(s, f.conv, f.tenant)
                    then s.convs[f.conv.value :=
                                   ConvAfter(s.convs[f.conv.value], f, given.output, given.reasoning, now, s.cap)]
                    else s.convs)
    && s'.trail == TrailAfter(s.trail, f, Fails(s, f, up, now), Marks(s, f), given)
    && s'.notes == NotesAfter(s.notes, f, up && Owned(s, f.conv, f.tenant), given.output, given.reasoning)
  }

  lemma CallSteady(s: State, s': State, f: Funnel, up: bool, given: Given, now: nat, c: ConversationId)
    requires CallsOn(s, s', f, up, given, now) && s.convs.Keys <= s.used.convs && Decided(s', f.id)
    ensures ConvSteady(s, s', c)
  {
  }

  lemma CallTail(s: State, s': State, f: Funnel, up: bool, given: Given, now: nat, c: ConversationId)
    requires CallsOn(s, s', f, up, given, now) && s.convs.Keys <= s.used.convs && TailOk(s, c)
    ensures TailOk(s', c)
  {
  }

  /** After a release that went through, the response does not hold the marker; if it did, its end is on the stream. */
  lemma ReleasedFact(s: State, s': State, f: Funnel, given: Given, now: nat)
    requires f.plan != [] && f.plan[0] == Release && Owned(s, f.conv, f.tenant) && StreamOk(s, f.conv.value)
    requires CallsOn(s, s', f, true, given, now) && !Fails(s, f, true, now)
    ensures f.conv.value in s'.convs && s'.convs[f.conv.value].active != Some(f.id)
    ensures Marks(s, f) ==> OnStream(s'.convs[f.conv.value], C.TurnCompleted(f.id, f.status))
  {
    var v, v' := s.convs[f.conv.value], s'.convs[f.conv.value];
    if v.active == Some(f.id) {
      assert v'.events[|v.events|].kind == C.TurnCompleted(f.id, f.status);
    }
  }

  /** What the call adds is so: for its own response. */
  lemma CallOwnFact(s: State, s': State, a: nat, f: Funnel, up: bool, given: Given, now: nat)
    requires CallsOn(s, s', f, up, given, now) && FunnelOk(s, a, f) && Steady(s, s') && Known(s) && TurnFact(s, f.id)
    requires Hist(s'.books.wins, f.id) == Hist(s.books.wins, f.id)
    requires f.conv.Some? && f.conv.value in s.convs ==> StreamOk(s, f.conv.value)
    ensures TurnFact(s', f.id)
  {
    if Fails(s, f, up, now) || (f.plan[0] != Archive && f.plan[0] != Release) {
      FactSteady(s, s', f.id);
    } else if f.plan[0] == Archive {
      ArchivedFact(s, s', a, f, given, now);
    } else {
      ReleasedFact(s, s', f, given, now);
      ReleasedTurn(s, s', a, f, given, now);
    }
  }

  lemma ArchivedFact(s: State, s': State, a: nat, f: Funnel, given: Given, now: nat)
    requires CallsOn(s, s', f, true, given, now) && FunnelOk(s, a, f) && Steady(s, s') && Known(s) && TurnFact(s, f.id)
    requires Hist(s'.books.wins, f.id) == Hist(s.books.wins, f.id)
    requires f.plan[0] == Archive && Owned(s, f.conv, f.tenant)
    ensures TurnFact(s', f.id)
  {
    var c := f.conv.value;
    assert ConvSteady(s, s', c) && c in s.convs.Keys;
    assert f.id in s'.convs[c].snapshot.appended;
    if f.id in s.trail.freed && s.trail.freed[f.id] {
      StreamGrows(s.convs[c], s'.convs[c], C.TurnCompleted(f.id, f.status));
    }
  }

  lemma ReleasedTurn(s: State, s': State, a: nat, f: Funnel, given: Given, now: nat)
    requires CallsOn(s, s', f, true, given, now) && FunnelOk(s, a, f) && Steady(s, s') && Known(s) && TurnFact(s, f.id)
    requires Hist(s'.books.wins, f.id) == Hist(s.books.wins, f.id)
    requires f.plan[0] == Release && Owned(s, f.conv, f.tenant) && !Fails(s, f, true, now)
    requires f.conv.value in s'.convs && s'.convs[f.conv.value].active != Some(f.id)
    requires Marks(s, f) ==> OnStream(s'.convs[f.conv.value], C.TurnCompleted(f.id, f.status))
    ensures TurnFact(s', f.id)
  {
    assert ConvSteady(s, s', f.conv.value) && f.conv.value in s.convs.Keys;
  }

  /** The entries of a commit, one by one. */
  lemma CommitIsTurn(f: Funnel, given: Given)
    requires f.via.ByComplete? <==> Produces(f.status)
    ensures IsTurn(C.TurnEntries(CommitOf(f, given.output, given.reasoning)), f.input, given.output,
                   if Produces(f.status) then given.reasoning else None)
  {
    assert |C.Plain(f.input)| == |f.input|;
  }

  lemma NotesOfCall(s: State, s': State, f: Funnel, up: bool, given: Given, now: nat)
    requires CallsOn(s, s', f, up, given, now) && (Archive in f.plan ==> f.id !in s.notes.turns)
    ensures s'.trail.asked == s.trail.asked
    ensures var archived := f.plan[0] == Archive && !Fails(s, f, up, now);
            && s'.trail.given == (if archived then s.trail.given[f.id := given] else s.trail.given)
            && s'.notes.turns == (if archived
                                  then s.notes.turns[f.id := C.TurnEntries(CommitOf(f, given.output, given.reasoning))]
                                  else s.notes.turns)
  {
    assert f.plan[0] in f.plan;
  }

  lemma CallTold(s: State, s': State, a: nat, f: Funnel, up: bool, given: Given, now: nat, r: ResponseId)
    requires CallsOn(s, s', f, up, given, now) && FunnelOk(s, a, f) && TurnTold(s, r) && Fits(Win(f.status, f.via, a))
    requires AskedAs(s, f.id, f.tenant, f.input) && s'.books.wins == s.books.wins
    requires Archive in f.plan ==> f.id !in s.notes.turns
    ensures TurnTold(s', r)
  {
    NotesOfCall(s, s', f, up, given, now);
    CommitIsTurn(f, given);
  }

  /** Funnel `f` of task `a` makes its next call, and nobody wins or loses by it. */
  ghost predicate CallsBy(s: State, s': State, a: nat, f: Funnel, up: bool, given: Given, now: nat) {
    && CallsOn(s, s', f, up, given, now) && Steady(s, s') && s'.books.wins == s.books.wins
    && s'.books.accepted == s.books.accepted && FunnelOk(s, a, f) && Fits(Win(f.status, f.via, a))
    && AskedAs(s, f.id, f.tenant, f.input) && (Archive in f.plan ==> f.id !in s.notes.turns)
  }

  lemma CallFact(s: State, s': State, a: nat, f: Funnel, up: bool, given: Given, now: nat, r: ResponseId)
    requires Known(s) && Facts(s) && CallsBy(s, s', a, f, up, given, now)
    ensures TurnFact(s', r) && TurnTold(s', r)
  {
    assert TurnFact(s, r) && TurnTold(s, r);
    CallTold(s, s', a, f, up, given, now, r);
    if r == f.id {
      CallOwnFact(s, s', a, f, up, given, now);
    } else if r in s.books.accepted {
      OthersDeeds(s, s', f, up, given, now, r);
      FactSteady(s, s', r);
    }
  }

  lemma CallsFacts(s: State, s': State, a: nat, f: Funnel, up: bool, given: Given, now: nat)
    requires Known(s) && Facts(s) && CallsBy(s, s', a, f, up, given, now)
    ensures Facts(s')
  {
    forall c | c in s'.convs ensures StreamOk(s', c) { StreamSteady(s, s', c); }
    forall c ensures TailOk(s', c) {
      assert TailOk(s, c);
      CallTail(s, s', f, up, given, now, c);
    }
    forall r ensures TurnFact(s', r) && TurnTold(s', r) { CallFact(s, s', a, f, up, given, now, r); }
  }

  lemma CallFacts(s: State, a: nat, up: bool, output: seq<ResponseItem>, reasoning: Option<string>, now: nat)
    requires Inv(s) && Stands(s) && AskedOk(s) && Facts(s)
    requires EndingAt(s, a) && s.tasks[a].queue != [] && s.tasks[a].queue[0].plan != []
    requires Steady(s, NextProceed(s, a, up, output, reasoning, now))
    ensures Facts(NextProceed(s, a, up, output, reasoning, now))
  {
    var f := s.tasks[a].queue[0];
    assert TaskOk(s, a) && FunnelOk(s, a, f) && HistoryOk(s, f.id) && TaskAsked(s, a);
    ProceedSame(s, a, up, output, reasoning, now);
    CallsFacts(s, NextProceed(s, a, up, output, reasoning, now), a, f, up, Given(output, reasoning), now);
  }

  lemma OthersDeeds(s: State, s': State, f: Funnel, up: bool, given: Given, now: nat, r: ResponseId)
    requires CallsOn(s, s', f, up, given, now) && r != f.id
    ensures r in s'.trail.given <==> r in s.trail.given
    ensures r in s'.trail.freed <==> r in s.trail.freed
    ensures r in s.trail.freed ==> s'.trail.freed[r] == s.trail.freed[r]
  {
  }

  // ---- every run ----

  lemma PopFacts(s: State, s': State)
    requires Facts(s) && s'.convs == s.convs && s'.used == s.used && s'.notes == s.notes && s'.books == s.books
    requires s'.trail == s.trail.(served := s'.trail.served)
    requires forall x :: Decided(s, x) ==> Decided(s', x)
    ensures Facts(s')
  {
    forall c | c in s'.convs ensures StreamOk(s', c) { assert StreamOk(s, c); }
    forall c ensures TailOk(s', c) { assert TailOk(s, c); }
    forall r ensures TurnFact(s', r) && TurnTold(s', r) { assert TurnFact(s, r) && TurnTold(s, r); }
  }

  lemma ProceedSteady(s: State, a: nat, up: bool, output: seq<ResponseItem>, reasoning: Option<string>, now: nat)
    requires Inv(s) && Known(s) && EndingAt(s, a) && s.tasks[a].queue != []
    requires forall x :: Decided(s, x) ==> Decided(NextProceed(s, a, up, output, reasoning, now), x)
    ensures forall c :: ConvSteady(s, NextProceed(s, a, up, output, reasoning, now), c)
  {
    var f, s' := s.tasks[a].queue[0], NextProceed(s, a, up, output, reasoning, now);
    assert TaskOk(s, a) && FunnelOk(s, a, f);
    AcceptedDecided(s, f.id);
    forall c ensures ConvSteady(s, s', c) {
      if f.plan != [] {
        CallSteady(s, s', f, up, Given(output, reasoning), now, c);
      }
    }
  }

  lemma ProceedFacts(s: State, step: Step, s': State)
    requires Inv(s) && Stands(s) && AskedOk(s) && Facts(s) && Enabled(s, step) && s' == Next(s, step) && step.Proceed?
    ensures Facts(s')
  {
    IdsStay(s, step, s');
    forall x | Decided(s, x) ensures Decided(s', x) { DecidedStays(s, step, s', x); }
    if s.tasks[step.a].queue[0].plan == [] {
      PopFacts(s, s');
    } else {
      CallKeepsFacts(s, step, s');
    }
  }

  lemma CallKeepsFacts(s: State, step: Step, s': State)
    requires Inv(s) && Stands(s) && AskedOk(s) && Facts(s) && Enabled(s, step) && s' == Next(s, step) && step.Proceed?
    requires s.tasks[step.a].queue[0].plan != [] && forall x :: Decided(s, x) ==> Decided(s', x)
    ensures Facts(s')
  {
    ProceedSteady(s, step.a, step.up, step.output, step.reasoning, step.now);
    StepSteady(s, step, s');
    CallFacts(s, step.a, step.up, step.output, step.reasoning, step.now);
  }

  lemma StepFacts(s: State, step: Step, s': State)
    requires Inv(s) && Stands(s) && Accounts(s) && AskedOk(s) && Facts(s) && Enabled(s, step) && s' == Next(s, step)
    ensures Facts(s')
  {
    if step.Proceed? {
      ProceedFacts(s, step, s');
    } else {
      StepOwes(s, step, s');
      StepSteady(s, step, s');
      SteadyFacts(s, s');
    }
  }

  ghost predicate Delivers(s: State) {
    Inv(s) && Stands(s) && Accounts(s) && AskedOk(s) && Facts(s)
  }

  lemma InitDelivers(cap: nat)
    ensures AskedOk(Init(cap)) && Facts(Init(cap))
  {
  }

  lemma {:induction false} RunDelivers(states: seq<State>, steps: seq<Step>, cap: nat, k: nat)
    requires IsRun(states, steps, cap) && k < |states|
    ensures Delivers(states[k])
  {
    RunStands(states, steps, cap, k);
    RunAccounts(states, steps, cap, k);
    if k == 0 {
      InitDelivers(cap);
    } else {
      RunDelivers(states, steps, cap, k - 1);
      assert StepAt(states, steps, k - 1);
      StepAsked(states[k - 1], steps[k - 1], states[k]);
      StepFacts(states[k - 1], steps[k - 1], states[k]);
    }
  }

  /** Not one call made for `r` after its end has failed. */
  ghost predicate NothingFailed(s: State, r: ResponseId) {
    forall op: Op :: (r, op) !in s.trail.failed
  }

  /**
   A response that has been served, in any run: its log ends with the event of its status and is closed, unless that
   very call failed or the output of a completed turn could not be stored; and each of its other calls was made and did
   what it says, or failed. A cancelled response whose record could not be read back is neither archived nor released.
   */
  lemma ServedExactly(states: seq<State>, steps: seq<Step>, cap: nat, k: nat, r: ResponseId)
    requires IsRun(states, steps, cap) && k < |states| && r in states[k].trail.served
    ensures var s, failed := states[k], states[k].trail.failed;
            && Hist(s.books.wins, r) != [] && r in s.books.accepted
            && var status, conv, store :=
                 Hist(s.books.wins, r)[0].status, s.books.accepted[r].conv, s.books.accepted[r].store;
               var unstored := (status == Completed || status == Incomplete) && (r, Archive) in failed;
               && Hist(s.books.ends, r) == (if (r, Announce) in failed || unstored then [] else [AnnouncedAs(status)])
               && (r in s.trail.closed <==> (r, CloseLog) !in failed && !unstored)
               && (r in s.trail.given <==>
                     conv.Some? && store && (r, Archive) !in failed && (r, ReadBack) !in failed)
               && (r in s.trail.freed <==> conv.Some? && (r, Release) !in failed && (r, ReadBack) !in failed)
               && (conv.Some? ==>
                     (r in Moves(s.trail, conv.value) <==>
                        && store && (status == Completed || status == Incomplete)
                        && (r, Archive) !in failed && (r, MoveTail) !in failed))
  {
    RunDelivers(states, steps, cap, k);
    assert AccountOk(states[k], r) && TurnFact(states[k], r);
  }

  /**
   What a turn leaves in its conversation, while that exists: archived is in the snapshot, with the input it was created
   with and the output and reasoning it was archived with; released is off the marker, and announced if it held it.
   */
  lemma LeavesBehind(states: seq<State>, steps: seq<Step>, cap: nat, k: nat, r: ResponseId)
    requires IsRun(states, steps, cap) && k < |states| && r in states[k].books.accepted
    requires states[k].books.accepted[r].conv.Some? && states[k].books.accepted[r].conv.value in states[k].convs
    ensures var s, trail, conv := states[k], states[k].trail, states[k].convs[states[k].books.accepted[r].conv.value];
            var wins := Hist(s.books.wins, r);
            && (r in trail.given ==>
                  && r in conv.snapshot.appended && r in s.notes.turns && r in trail.asked && wins != []
                  && IsBlock(s.notes.turns[r], conv.snapshot.entries)
                  && IsTurn(s.notes.turns[r], trail.asked[r].input, trail.given[r].output,
                            if wins[0].status == Completed || wins[0].status == Incomplete
                            then trail.given[r].reasoning else None))
            && (r in trail.freed ==> conv.active != Some(r))
            && (r in trail.freed && trail.freed[r] ==>
                  && wins != []
                  && exists i :: 0 <= i < |conv.events| && conv.events[i].kind == C.TurnCompleted(r, wins[0].status))
  {
    RunDelivers(states, steps, cap, k);
    var s := states[k];
    assert TurnFact(s, r) && TurnTold(s, r);
    assert SnapshotOk(s.notes.turns, s.convs[s.books.accepted[r].conv.value].snapshot);
  }

  /** And where nothing fails, all of it: the event, the closed log, the turn in the snapshot, the marker given back. */
  lemma ServedWhole(states: seq<State>, steps: seq<Step>, cap: nat, k: nat, r: ResponseId)
    requires IsRun(states, steps, cap) && k < |states| && r in states[k].trail.served && NothingFailed(states[k], r)
    ensures var s := states[k];
            && Hist(s.books.wins, r) != [] && r in s.books.accepted
            && var status, spec := Hist(s.books.wins, r)[0].status, s.books.accepted[r];
               && Hist(s.books.ends, r) == [AnnouncedAs(status)] && r in s.trail.closed
               && (spec.conv.Some? && spec.conv.value in s.convs ==>
                     var conv := s.convs[spec.conv.value];
                     && conv.active != Some(r) && r in s.trail.freed
                     && (s.trail.freed[r] ==>
                           exists i :: 0 <= i < |conv.events| && conv.events[i].kind == C.TurnCompleted(r, status))
                     && (spec.store ==> r in conv.snapshot.appended))
  {
    ServedExactly(states, steps, cap, k, r);
    var s := states[k];
    if s.books.accepted[r].conv.Some? && s.books.accepted[r].conv.value in s.convs {
      LeavesBehind(states, steps, cap, k, r);
    }
  }

  /** The tail of a conversation is the response moved onto it last, in every run. */
  lemma TailIsLastMoved(states: seq<State>, steps: seq<Step>, cap: nat, k: nat, c: ConversationId)
    requires IsRun(states, steps, cap) && k < |states| && c in states[k].convs
    ensures var moves := Moves(states[k].trail, c);
            states[k].convs[c].tail == if moves == [] then None else Some(moves[|moves| - 1])
  {
    RunDelivers(states, steps, cap, k);
    assert TailOk(states[k], c);
  }

  lemma OnlyProceedFails(s: State, step: Step, s': State)
    requires Inv(s) && Enabled(s, step) && s' == Next(s, step) && !step.Proceed?
    ensures s'.trail.failed == s.trail.failed
  {
    if step.Finish? || step.Fail? || step.Cancel? || step.Reap? {
      WorkerIsStill(s, step, s');
    } else {
      StepAside(s, step, s');
    }
  }

  lemma ProceedFails(s: State, a: nat, up: bool, output: seq<ResponseItem>, reasoning: Option<string>, now: nat)
    requires EndingAt(s, a) && s.tasks[a].queue != []
    ensures var f, failed := s.tasks[a].queue[0], NextProceed(s, a, up, output, reasoning, now).trail.failed;
            failed ==
            s.trail.failed + if f.plan != [] && Fails(s, f, up, now) then {(f.id, f.plan[0])} else {}
  {
  }

  lemma FunnelReaches(s: State, a: nat, f: Funnel)
    requires FunnelOk(s, a, f) && AskedAs(s, f.id, f.tenant, f.input) && AcceptedAsked(s, f.id)
    ensures f.conv.Some? && f.conv.value in s.convs ==> Owned(s, f.conv, f.tenant)
  {
  }

  lemma CallReason(s: State, f: Funnel, up: bool, now: nat)
    requires f.plan != [] && Shape(f) && Fails(s, f, up, now)
    requires f.conv.Some? && f.conv.value in s.convs ==> Owned(s, f.conv, f.tenant)
    ensures || !up
            || (f.plan[0] == ReadBack && f.id !in s.records)
            || (&& f.plan[0] in {Archive, MoveTail, Release} && f.conv.Some?
                && (f.conv.value !in s.convs || (f.plan[0] == Release && s.convs[f.conv.value].nextSeq >= s.cap)))
  {
    assert f.plan[0] in f.plan;
  }

  /**
   A call fails for a reason: the store is down, the record to be read back is deleted, the conversation is deleted, or
   its stream is full. It is never refused for want of the right tenant.
   */
  lemma FailsForReason(states: seq<State>, steps: seq<Step>, cap: nat, k: nat, r: ResponseId, op: Op)
    requires IsRun(states, steps, cap) && k < |steps|
    requires (r, op) in states[k + 1].trail.failed && (r, op) !in states[k].trail.failed
    ensures var s, step := states[k], steps[k];
            && step.Proceed? && r in s.books.accepted
            && (|| !step.up
                || (op == ReadBack && r !in s.records)
                || (&& op in {Archive, MoveTail, Release} && s.books.accepted[r].conv.Some?
                    && var c := s.books.accepted[r].conv.value;
                       c !in s.convs || (op == Release && s.convs[c].nextSeq >= s.cap)))
  {
    RunDelivers(states, steps, cap, k);
    assert StepAt(states, steps, k);
    var s, step := states[k], steps[k];
    if !step.Proceed? {
      OnlyProceedFails(s, step, states[k + 1]);
    } else {
      ProceedFails(s, step.a, step.up, step.output, step.reasoning, step.now);
      var f := s.tasks[step.a].queue[0];
      assert TaskOk(s, step.a) && FunnelOk(s, step.a, f) && TaskAsked(s, step.a) && AcceptedAsked(s, f.id);
      assert QueueSettled(s, s.tasks[step.a].queue) && FunnelSettled(s, f);
      FunnelReaches(s, step.a, f);
      CallReason(s, f, step.up, step.now);
    }
  }
}
