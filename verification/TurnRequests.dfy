/** What a creator asked for goes with its response to the end: to the record, to the executor and to every funnel. */
module TurnRequests {
  import opened Domain
  import opened TurnProtocol
  import opened TurnSafety
  import opened TurnContents
  import opened TurnAccounts

  predicate AskedAs(s: State, r: ResponseId, tenant: TenantId, input: seq<ResponseItem>) {
    r in s.trail.asked && s.trail.asked[r] == Asked(tenant, input)
  }

  predicate TenantIs(s: State, conv: Option<ConversationId>, tenant: TenantId) {
    conv.Some? && conv.value in s.convs ==> s.convs[conv.value].tenant == tenant
  }

  ghost predicate TaskAsked(s: State, a: nat)
    requires a in s.tasks
  {
    match s.tasks[a]
    case Creating(_, tenant, conv, _, pc) => pc == Admitting ==> TenantIs(s, conv, tenant)
    case Executing(id, _, rec, _, _) => AskedAs(s, id, rec.tenant, rec.input)
    case Ending(q) => forall i :: 0 <= i < |q| ==> AskedAs(s, q[i].id, q[i].tenant, q[i].input)
  }

  predicate AcceptedAsked(s: State, r: ResponseId) {
    r in s.books.accepted ==>
      r in s.trail.asked && TenantIs(s, s.books.accepted[r].conv, s.trail.asked[r].tenant)
  }

  predicate RecordAsked(s: State, r: ResponseId)
    requires r in s.records
  {
    AskedAs(s, r, s.records[r].tenant, s.records[r].input)
  }

  ghost predicate AskedOk(s: State) {
    && (forall r :: AcceptedAsked(s, r))
    && (forall r :: r in s.records ==> RecordAsked(s, r))
    && (forall a :: a in s.tasks ==> TaskAsked(s, a))
  }

  /** Conversations keep their tenant; a new one is nobody's. */
  ghost predicate TenantsStay(s: State, s': State) {
    forall c :: c in s'.convs && c in s.used.convs ==> c in s.convs && s'.convs[c].tenant == s.convs[c].tenant
  }

  ghost predicate AskedStays(s: State, s': State) {
    && TenantsStay(s, s') && s'.trail.asked == s.trail.asked && s'.books.accepted == s.books.accepted
    && (forall r :: r in s'.records ==>
          r in s.records && s'.records[r].tenant == s.records[r].tenant && s'.records[r].input == s.records[r].input)
  }

  lemma TaskStaysAsked(s: State, s': State, a: nat)
    requires Known(s) && TenantsStay(s, s') && s'.trail.asked == s.trail.asked
    requires a in s.tasks && TaskAsked(s, a) && a in s'.tasks && s'.tasks[a] == s.tasks[a]
    ensures TaskAsked(s', a)
  {
    if CreatingAt(s, a) && s.tasks[a].pc == Admitting {
      assert ConvKnown(s, s.tasks[a].conv);
    }
  }

  lemma AskedKept(s: State, s': State, a: nat)
    requires AskedOk(s) && Known(s) && AskedStays(s, s') && Beside(s, s', a)
    requires a in s'.tasks ==> (a in s.tasks && s'.tasks[a] == s.tasks[a]) || TaskAsked(s', a)
    ensures AskedOk(s')
  {
    forall r ensures AcceptedAsked(s', r) {
      assert AcceptedAsked(s, r) && (r in s.books.accepted ==> ConvKnown(s, s.books.accepted[r].conv));
    }
    forall r | r in s'.records ensures RecordAsked(s', r) { assert RecordAsked(s, r); }
    forall b | b in s'.tasks ensures TaskAsked(s', b) {
      if b in s.tasks && s'.tasks[b] == s.tasks[b] {
        TaskStaysAsked(s, s', b);
      }
    }
  }

  // ---- steps ----

  lemma AskedTryAcquire(s: State, a: nat, up: bool, now: nat)
    requires AskedOk(s) && Known(s) && CreatingAt(s, a) && s.tasks[a].conv.Some?
    ensures AskedOk(NextTryAcquire(s, a, up, now))
  {
    CreatorBeside(s, a, up, now);
    AskedKept(s, NextTryAcquire(s, a, up, now), a);
  }

  lemma AskedGiveBack(s: State, a: nat, up: bool, now: nat)
    requires AskedOk(s) && Known(s) && CreatingAt(s, a) && s.tasks[a].conv.Some?
    ensures AskedOk(NextGiveBack(s, a, up, now))
  {
    CreatorBeside(s, a, up, now);
    AskedKept(s, NextGiveBack(s, a, up, now), a);
  }

  lemma AskedReadHolder(s: State, a: nat, up: bool)
    requires AskedOk(s) && Known(s) && CreatingAt(s, a) && s.tasks[a].pc.ReadingHolder?
    ensures AskedOk(NextReadHolder(s, a, up))
  {
    ReadHolderBeside(s, a, up);
    AskedKept(s, NextReadHolder(s, a, up), a);
  }

  lemma AskedDropStale(s: State, a: nat, up: bool)
    requires AskedOk(s) && Known(s) && CreatingAt(s, a) && s.tasks[a].pc.DroppingStale?
    ensures AskedOk(NextDropStale(s, a, up))
  {
    DropStaleBeside(s, a, up);
    AskedKept(s, NextDropStale(s, a, up), a);
  }

  lemma OldTaskAsked(s: State, s': State, r: ResponseId, b: nat)
    requires b in s.tasks && TaskAsked(s, b) && TaskOk(s, b) && r !in s.books.accepted
    requires b in s'.tasks && s'.tasks[b] == s.tasks[b] && s'.convs == s.convs
    requires forall q :: q != r && q in s.trail.asked ==> q in s'.trail.asked && s'.trail.asked[q] == s.trail.asked[q]
    ensures TaskAsked(s', b)
  {
    if s.tasks[b].Ending? {
      var q := s.tasks[b].queue;
      forall i | 0 <= i < |q| ensures AskedAs(s', q[i].id, q[i].tenant, q[i].input) {
        assert FunnelOk(s, b, q[i]);
      }
    }
  }

  lemma AskedAdmit(s: State, a: nat, answer: Answer, input: seq<ResponseItem>, now: nat, retention: nat)
    requires Inv(s) && AskedOk(s) && Known(s) && CreatingAt(s, a) && s.tasks[a].pc == Admitting
    ensures AskedOk(NextAdmit(s, a, answer, input, now, retention))
  {
    var t, s' := s.tasks[a], NextAdmit(s, a, answer, input, now, retention);
    assert TaskOk(s, a) && TaskAsked(s, a);
    AdmitBeside(s, a, answer, input, now, retention);
    if answer == Refused {
      AskedKept(s, s', a);
    } else {
      forall r ensures AcceptedAsked(s', r) { assert AcceptedAsked(s, r); }
      forall r | r in s'.records ensures RecordAsked(s', r) { assert r != t.id ==> RecordAsked(s, r); }
      forall b | b in s'.tasks ensures TaskAsked(s', b) {
        if b != a {
          assert TaskOk(s, b) && TaskAsked(s, b);
          OldTaskAsked(s, s', t.id, b);
        }
      }
    }
  }

  /** An executor goes on with the record it claimed. */
  lemma ExecutorAsked(s: State, s': State, a: nat)
    requires AskedOk(s) && Known(s) && ExecutingAt(s, a) && AskedStays(s, s') && Beside(s, s', a)
    requires ExecutingAt(s', a) && s'.tasks[a].id == s.tasks[a].id && s'.tasks[a].rec == s.tasks[a].rec
    ensures AskedOk(s')
  {
    assert TaskAsked(s, a);
    AskedKept(s, s', a);
  }

  lemma AskedCheckFence(s: State, a: nat, up: bool)
    requires AskedOk(s) && Known(s) && ExecutingAt(s, a)
    ensures AskedOk(NextCheckFence(s, a, up))
  {
    ExecutorBeside(s, a, up);
    ExecutorAsked(s, NextCheckFence(s, a, up), a);
  }

  lemma AskedPushFenced(s: State, a: nat, up: bool)
    requires AskedOk(s) && Known(s) && ExecutingAt(s, a)
    ensures AskedOk(NextPushFenced(s, a, up))
  {
    ExecutorBeside(s, a, up);
    ExecutorAsked(s, NextPushFenced(s, a, up), a);
  }

  lemma AskedReadContext(s: State, a: nat, up: bool)
    requires AskedOk(s) && Known(s) && ExecutingAt(s, a)
    ensures AskedOk(NextReadContext(s, a, up))
  {
    ExecutorBeside(s, a, up);
    ExecutorAsked(s, NextReadContext(s, a, up), a);
  }

  lemma AskedClaim(s: State, a: nat, id: ResponseId, agent: AgentId)
    requires AskedOk(s) && Known(s) && id in s.records
    ensures AskedOk(NextClaim(s, a, id, agent))
  {
    assert RecordAsked(s, id);
    AskedKept(s, NextClaim(s, a, id, agent), a);
  }

  lemma EndStays(s: State, a: nat, via: Via, status: ResponseStatus, usage: Usage, now: nat)
    requires ExecutingAt(s, a)
    ensures AskedStays(s, NextEnd(s, a, via, status, usage, now))
  {
  }

  lemma EndedAsked(s: State, a: nat, via: Via, status: ResponseStatus, usage: Usage, now: nat)
    requires ExecutingAt(s, a) && TaskAsked(s, a) && s.tasks[a].rec.responseId == s.tasks[a].id
    ensures var s' := NextEnd(s, a, via, status, usage, now); a in s'.tasks ==> TaskAsked(s', a)
  {
  }

  lemma AskedEnd(s: State, a: nat, via: Via, status: ResponseStatus, usage: Usage, now: nat)
    requires Inv(s) && AskedOk(s) && Known(s) && ExecutingAt(s, a)
    ensures AskedOk(NextEnd(s, a, via, status, usage, now))
  {
    assert TaskOk(s, a) && TaskAsked(s, a);
    EndBeside(s, a, via, status, usage, now);
    EndStays(s, a, via, status, usage, now);
    EndedAsked(s, a, via, status, usage, now);
    AskedKept(s, NextEnd(s, a, via, status, usage, now), a);
  }

  lemma CancelStays(s: State, a: nat, id: ResponseId, tenant: TenantId, now: nat)
    ensures AskedStays(s, NextCancel(s, a, id, tenant, now))
  {
  }

  lemma CancelledAsked(s: State, a: nat, id: ResponseId, tenant: TenantId, now: nat)
    requires id in s.records && RecordAsked(s, id) && s.records[id].responseId == id
    ensures var s' := NextCancel(s, a, id, tenant, now); s' == s || (a in s'.tasks && TaskAsked(s', a))
  {
  }

  lemma AskedCancel(s: State, a: nat, id: ResponseId, tenant: TenantId, now: nat)
    requires Inv(s) && AskedOk(s) && Known(s)
    ensures AskedOk(NextCancel(s, a, id, tenant, now))
  {
    if id in s.records {
      assert RecordOk(s, id) && RecordAsked(s, id);
      CancelledAsked(s, a, id, tenant, now);
      CancelBeside(s, a, id, tenant, now);
      CancelStays(s, a, id, tenant, now);
      AskedKept(s, NextCancel(s, a, id, tenant, now), a);
    }
  }

  lemma AskedReap(s: State, a: nat, lost: seq<ResponseId>, now: nat)
    requires Inv(s) && AskedOk(s) && Known(s) && Reapable(s, lost)
    ensures AskedOk(NextReap(s, a, lost, now))
  {
    var s' := NextReap(s, a, lost, now);
    var q := s'.tasks[a].queue;
    forall i | 0 <= i < |q| ensures AskedAs(s', q[i].id, q[i].tenant, q[i].input) {
      assert RecordOk(s, lost[i]) && RecordAsked(s, lost[i]) && q[i] == FunnelOf(s.records[lost[i]], ByReap, Failed);
    }
    ReapBeside(s, a, lost, now);
    AskedKept(s, s', a);
  }

  lemma EffectStays(s: State, f: Funnel, up: bool, output: seq<ResponseItem>, reasoning: Option<string>, now: nat)
    requires f.plan != []
    ensures AskedStays(s, Effect(s, f, up, output, reasoning, now))
  {
    assert TrailAfter(s.trail, f, Fails(s, f, up, now), Marks(s, f), Given(output, reasoning)).asked == s.trail.asked;
  }

  lemma ProceedStays(s: State, a: nat, up: bool, output: seq<ResponseItem>, reasoning: Option<string>, now: nat)
    requires EndingAt(s, a) && s.tasks[a].queue != []
    ensures AskedStays(s, NextProceed(s, a, up, output, reasoning, now))
  {
    if s.tasks[a].queue[0].plan != [] {
      EffectStays(s, s.tasks[a].queue[0], up, output, reasoning, now);
    }
  }

  /** The funnels in hand are the ones before, but for their plans and the one served. */
  lemma ProceedQueue(s: State, a: nat, up: bool, output: seq<ResponseItem>, reasoning: Option<string>, now: nat, i: nat)
    requires EndingAt(s, a) && s.tasks[a].queue != []
    requires var s' := NextProceed(s, a, up, output, reasoning, now); EndingAt(s', a) && i < |s'.tasks[a].queue|
    ensures var s', q := NextProceed(s, a, up, output, reasoning, now), s.tasks[a].queue;
            var j := if q[0].plan == [] then i + 1 else i;
            j < |q| && s'.tasks[a].queue[i].(plan := q[j].plan) == q[j]
  {
  }

  lemma AskedProceed(s: State, a: nat, up: bool, output: seq<ResponseItem>, reasoning: Option<string>, now: nat)
    requires AskedOk(s) && Known(s) && EndingAt(s, a) && s.tasks[a].queue != []
    ensures AskedOk(NextProceed(s, a, up, output, reasoning, now))
  {
    var s' := NextProceed(s, a, up, output, reasoning, now);
    assert TaskAsked(s, a);
    ProceedBeside(s, a, up, output, reasoning, now);
    ProceedStays(s, a, up, output, reasoning, now);
    if a in s'.tasks {
      forall i | 0 <= i < |s'.tasks[a].queue|
        ensures var g := s'.tasks[a].queue[i]; AskedAs(s', g.id, g.tenant, g.input)
      {
        ProceedQueue(s, a, up, output, reasoning, now, i);
      }
    }
    AskedKept(s, s', a);
  }

  lemma AskedOutside(s: State, step: Step, s': State)
    requires AskedOk(s) && Known(s) && Enabled(s, step) && s' == Next(s, step)
    requires step.OpenConversation? || step.DeleteConversation? || step.PostEvent? || step.DeleteRecord?
    ensures AskedOk(s')
  {
    AskedKept(s, s', 0);
  }

  lemma AskedBegin(s: State, a: nat, t: Task)
    requires AskedOk(s) && Known(s) && t.Creating? && (t.pc == Admitting ==> t.conv.None?)
    ensures AskedOk(WithTask(s.(used := s.used.(ids := s.used.ids + {t.id})), a, t))
  {
    AskedKept(s, WithTask(s.(used := s.used.(ids := s.used.ids + {t.id})), a, t), a);
  }

  lemma AskedAppendCreated(s: State, a: nat, up: bool)
    requires AskedOk(s) && Known(s) && CreatingAt(s, a)
    ensures AskedOk(if up then Done(s, a) else WithTask(s, a, s.tasks[a].(pc := GivingBack)))
  {
    AskedKept(s, if up then Done(s, a) else WithTask(s, a, s.tasks[a].(pc := GivingBack)), a);
  }

  lemma AskedStop(s: State, a: nat)
    requires AskedOk(s) && Known(s)
    ensures AskedOk(Done(s, a).(trail := s.trail.(stopped := s.trail.stopped + {a})))
  {
    AskedKept(s, Done(s, a).(trail := s.trail.(stopped := s.trail.stopped + {a})), a);
  }

  lemma StepAsked(s: State, step: Step, s': State)
    requires Inv(s) && Known(s) && AskedOk(s) && Enabled(s, step) && s' == Next(s, step)
    ensures AskedOk(s')
  {
    match step
    case TryAcquire(a, up, now) => AskedTryAcquire(s, a, up, now);
    case ReadHolder(a, up) => AskedReadHolder(s, a, up);
    case DropStale(a, up) => AskedDropStale(s, a, up);
    case Admit(a, answer, input, now, retention) => AskedAdmit(s, a, answer, input, now, retention);
    case GiveBack(a, up, now) => AskedGiveBack(s, a, up, now);
    case Claim(a, id, agent) => AskedClaim(s, a, id, agent);
    case CheckFence(a, up) => AskedCheckFence(s, a, up);
    case PushFenced(a, up) => AskedPushFenced(s, a, up);
    case ReadContext(a, up) => AskedReadContext(s, a, up);
    case Finish(a, status, usage, now) => AskedEnd(s, a, ByComplete, status, usage, now);
    case Fail(a, usage, now) => AskedEnd(s, a, ByFail, Failed, usage, now);
    case Cancel(a, id, tenant, now) => AskedCancel(s, a, id, tenant, now);
    case Reap(a, lost, now) => AskedReap(s, a, lost, now);
    case Proceed(a, up, output, reasoning, now) => AskedProceed(s, a, up, output, reasoning, now);
    case BeginCreate(a, id, tenant, conv, store) =>
      AskedBegin(s, a, Creating(id, tenant, conv, store, if conv.Some? then AcquireFirst else Admitting));
    case AppendCreated(a, up) => AskedAppendCreated(s, a, up);
    case Stop(a) => AskedStop(s, a);
    case _ => AskedOutside(s, step, s');
  }
}
