/**
 One conversation, one turn. A live response holds the marker of its conversation, through takeovers, deletions and
 stopped tasks, exactly as long as none of three steps is taken. Two descriptions of the runs without them: the steps
 themselves (`Breaks`), which is exact, and what has to go wrong before one can be taken (`Clean`).
 */
module TurnExclusion {
  import opened Domain
  import C = ConversationSpec
  import opened TurnProtocol
  import opened TurnSafety
  import opened TurnContents

  // ---- the invariant ----

  ghost predicate HoldsMarker(s: State, conv: Option<ConversationId>, r: ResponseId) {
    conv.Some? && conv.value in s.convs ==> s.convs[conv.value].active == Some(r)
  }

  /** Neither running nor able to start: releasing its marker harms nobody. Once dead, always dead. */
  ghost predicate Dead(s: State, h: ResponseId) {
    h in s.used.ids && !IsLive(s, h) && !Pending(s, h)
  }

  ghost predicate LiveOk(s: State, r: ResponseId) {
    IsLive(s, r) && r in s.books.accepted ==> HoldsMarker(s, s.books.accepted[r].conv, r)
  }

  ghost predicate CreatorOk(s: State, a: nat)
    requires CreatingAt(s, a)
  {
    var t := s.tasks[a];
    match t.pc
    case Admitting => HoldsMarker(s, t.conv, t.id)
    case ReadingHolder(h) => h in s.used.ids
    case DroppingStale(h) => Dead(s, h)
    case GivingBack => t.conv.None? || Dead(s, t.id)
    case _ => true
  }

  ghost predicate ConvOk(s: State, c: ConversationId)
    requires c in s.convs
  {
    s.convs[c].active.Some? ==> s.convs[c].active.value in s.used.ids
  }

  ghost predicate Excl(s: State) {
    && (forall r :: LiveOk(s, r))
    && (forall a :: CreatingAt(s, a) ==> CreatorOk(s, a))
    && (forall c :: c in s.convs ==> ConvOk(s, c))
  }

  // ---- steps that admit nobody ----

  /** Markers stay put, except that the marker of `h` may be cleared. */
  ghost predicate MarkerKept(s: State, s': State, c: ConversationId, h: ResponseId) {
    c in s'.convs ==>
      c in s.convs &&
      (s'.convs[c].active == s.convs[c].active || (s.convs[c].active == Some(h) && s'.convs[c].active == None))
  }

  /** No response gains life, no creator appears, and any creator that moved is fine where it is. */
  ghost predicate NobodyEnters(s: State, s': State) {
    && s'.books.accepted == s.books.accepted && s'.used.ids == s.used.ids && s.used.convs <= s'.used.convs
    && (forall r :: IsLive(s', r) ==> IsLive(s, r))
    && (forall a :: CreatingAt(s', a) ==>
          CreatingAt(s, a) && s'.tasks[a].id == s.tasks[a].id
          && (s'.tasks[a].pc.Undecided() ==> s.tasks[a].pc.Undecided()))
    && (forall a :: CreatingAt(s', a) && s'.tasks[a] != s.tasks[a] ==> CreatorOk(s', a))
  }

  lemma DeadStaysDead(s: State, s': State, h: ResponseId)
    requires NobodyEnters(s, s') && Dead(s, h)
    ensures Dead(s', h)
  {
    PendingSame(s, s', h);
  }

  /** The only marker a step clears belongs to a dead response, so every other holder keeps its own. */
  ghost predicate MarkersKept(s: State, s': State, h: ResponseId) {
    && (forall c :: MarkerKept(s, s', c, h))
    && (Dead(s, h) || forall c :: c in s'.convs && c in s.convs ==> s'.convs[c].active == s.convs[c].active)
  }

  lemma MarkerSurvives(s: State, s': State, h: ResponseId, conv: Option<ConversationId>, r: ResponseId)
    requires MarkersKept(s, s', h) && HoldsMarker(s, conv, r)
    requires IsLive(s, r) || Pending(s, r)
    ensures HoldsMarker(s', conv, r)
  {
    if conv.Some? {
      assert MarkerKept(s, s', conv.value, h);
    }
  }

  lemma PendingSelf(s: State, a: nat)
    requires CreatingAt(s, a) && s.tasks[a].pc.Undecided()
    ensures Pending(s, s.tasks[a].id)
  {
  }

  lemma NobodyEntersKeeps(s: State, s': State, h: ResponseId)
    requires Excl(s) && NobodyEnters(s, s') && MarkersKept(s, s', h)
    ensures Excl(s')
  {
    forall r ensures LiveOk(s', r) {
      assert LiveOk(s, r);
      if IsLive(s', r) && r in s.books.accepted {
        MarkerSurvives(s, s', h, s.books.accepted[r].conv, r);
      }
    }
    forall a | CreatingAt(s', a) ensures CreatorOk(s', a) {
      if s'.tasks[a] == s.tasks[a] {
        var t := s.tasks[a];
        assert CreatorOk(s, a);
        if t.pc.DroppingStale? {
          DeadStaysDead(s, s', t.pc.holder);
        } else if t.pc.GivingBack? {
          if t.conv.Some? { DeadStaysDead(s, s', t.id); }
        } else if t.pc.Admitting? {
          PendingSelf(s, a);
          MarkerSurvives(s, s', h, t.conv, t.id);
        }
      }
    }
    forall c | c in s'.convs ensures ConvOk(s', c) { assert MarkerKept(s, s', c, h) && ConvOk(s, c); }
  }

  // ---- the creator ----

  lemma BeginExcl(s: State, a: nat, t: Task)
    requires Inv(s) && Excl(s) && NewTask(s, a) && t.Creating? && t.id !in s.used.ids
    requires t.pc == AcquireFirst || (t.pc == Admitting && t.conv == None)
    ensures Excl(WithTask(s.(used := s.used.(ids := s.used.ids + {t.id})), a, t))
  {
    var s' := WithTask(s.(used := s.used.(ids := s.used.ids + {t.id})), a, t);
    forall r ensures LiveOk(s', r) { assert LiveOk(s, r); }
    forall b | CreatingAt(s', b) ensures CreatorOk(s', b) {
      if b != a {
        assert CreatorOk(s, b);
      }
    }
    forall c | c in s'.convs ensures ConvOk(s', c) { assert ConvOk(s, c); }
  }

  lemma AdmitDead(s: State, a: nat, answer: Answer, input: seq<ResponseItem>, now: nat, retention: nat, h: ResponseId)
    requires CreatingAt(s, a) && s.tasks[a].pc == Admitting && Dead(s, h)
    ensures Dead(NextAdmit(s, a, answer, input, now, retention), h)
  {
    PendingSelf(s, a);
    PendingSame(s, NextAdmit(s, a, answer, input, now, retention), h);
  }

  lemma AdmitExcl(s: State, a: nat, answer: Answer, input: seq<ResponseItem>, now: nat, retention: nat)
    requires Inv(s) && Excl(s) && CreatingAt(s, a) && s.tasks[a].pc == Admitting
    requires answer != AcceptedUnheard || s.tasks[a].conv.None?
    ensures Excl(NextAdmit(s, a, answer, input, now, retention))
  {
    var s', id := NextAdmit(s, a, answer, input, now, retention), s.tasks[a].id;
    assert CreatorOk(s, a) && TaskOk(s, a);
    forall r ensures LiveOk(s', r) { assert LiveOk(s, r); }
    forall b | CreatingAt(s', b) ensures CreatorOk(s', b) {
      if b == a {
        if answer == Refused { RefusedIsDead(s, s', a); }
      } else {
        assert CreatorOk(s, b);
        if s.tasks[b].pc.DroppingStale? {
          AdmitDead(s, a, answer, input, now, retention, s.tasks[b].pc.holder);
        } else if s.tasks[b].pc.GivingBack? && s.tasks[b].conv.Some? {
          AdmitDead(s, a, answer, input, now, retention, s.tasks[b].id);
        }
      }
    }
    forall c | c in s'.convs ensures ConvOk(s', c) { assert ConvOk(s, c); }
  }

  /** A refused response is neither live nor pending any more. */
  lemma RefusedIsDead(s: State, s': State, a: nat)
    requires Inv(s) && CreatingAt(s, a) && s.tasks[a].pc == Admitting
    requires s' == WithTask(s, a, s.tasks[a].(pc := GivingBack))
    ensures Dead(s', s.tasks[a].id)
  {
    var id := s.tasks[a].id;
    assert TaskOk(s, a) && (id in s.records ==> RecordOk(s, id));
    forall b | b in s'.tasks && s'.tasks[b].Creating? && s'.tasks[b].id == id ensures !s'.tasks[b].pc.Undecided() {
      assert CreatingAt(s, b) && CreatingAt(s, a);
    }
  }

  /** Acquiring: the marker was free or already ours, so no live response and no other creator had it. */
  lemma AcquiredExcl(s: State, s': State, a: nat, c: ConversationId)
    requires Inv(s) && Excl(s) && CreatingAt(s, a) && s.tasks[a].conv == Some(c) && c in s.convs
    requires s.tasks[a].pc.Undecided()
    requires s.convs[c].active == None || s.convs[c].active == Some(s.tasks[a].id)
    requires s'.tasks == s.tasks[a := s.tasks[a].(pc := Admitting)]
    requires s'.convs.Keys == s.convs.Keys && s'.convs[c].active == Some(s.tasks[a].id)
    requires forall d :: d in s.convs && d != c ==> s'.convs[d] == s.convs[d]
    requires s'.records == s.records && s'.books == s.books && s'.used.ids == s.used.ids
    requires s'.used.convs == s.used.convs
    ensures Excl(s')
  {
    assert TaskOk(s, a) && ConvOk(s, c);
    forall r ensures LiveOk(s', r) { assert LiveOk(s, r); }
    forall b | CreatingAt(s', b) ensures CreatorOk(s', b) {
      if b != a {
        assert CreatorOk(s, b);
        if s.tasks[b].pc.DroppingStale? {
          PendingSame(s, s', s.tasks[b].pc.holder);
        } else if s.tasks[b].pc.GivingBack? {
          PendingSame(s, s', s.tasks[b].id);
        }
      }
    }
    forall d | d in s'.convs ensures ConvOk(s', d) { assert ConvOk(s, d); }
  }

  lemma PendingSame(s: State, s': State, h: ResponseId)
    requires forall b :: CreatingAt(s', b) ==>
               CreatingAt(s, b) && s'.tasks[b].id == s.tasks[b].id &&
               (s'.tasks[b].pc.Undecided() ==> s.tasks[b].pc.Undecided())
    ensures Pending(s', h) ==> Pending(s, h)
  {
    if Pending(s', h) {
      var b :| b in s'.tasks && s'.tasks[b].Creating? && s'.tasks[b].id == h && s'.tasks[b].pc.Undecided();
      assert CreatingAt(s', b);
    }
  }

  lemma AcceptedNotPending(s: State, r: ResponseId)
    requires Inv(s) && r in s.books.accepted
    ensures !Pending(s, r)
  {
    forall b | b in s.tasks && s.tasks[b].Creating? && s.tasks[b].id == r ensures !s.tasks[b].pc.Undecided() {
      assert TaskOk(s, b);
    }
  }

  lemma TryAcquireExcl(s: State, a: nat, up: bool, now: nat)
    requires Inv(s) && Excl(s) && CreatingAt(s, a) && s.tasks[a].conv.Some? && s.tasks[a].pc.Undecided()
    ensures Excl(NextTryAcquire(s, a, up, now))
  {
    var t, s' := s.tasks[a], NextTryAcquire(s, a, up, now);
    if up && Owned(s, t.conv, t.tenant) {
      var c := t.conv.value;
      assert ConvOk(s, c);
      if C.AcquireActive(s.convs[c], t.id, now, s.cap).1.Ok? {
        AcquiredExcl(s, s', a, c);
      } else {
        NobodyEntersKeeps(s, s', t.id);
      }
    } else {
      NobodyEntersKeeps(s, s', t.id);
    }
  }

  /** A clean look at the holder only ever condemns the dead. */
  lemma ReadHolderExcl(s: State, a: nat, up: bool)
    requires Inv(s) && Excl(s) && Enabled(s, ReadHolder(a, up)) && Clean(s, ReadHolder(a, up))
    ensures Excl(NextReadHolder(s, a, up))
  {
    var h, s' := s.tasks[a].pc.holder, NextReadHolder(s, a, up);
    assert CreatorOk(s, a);
    if !IsLive(s, h) {
      if h in s.records {
        assert RecordOk(s, h);
        AcceptedNotPending(s, h);
      }
      PendingSame(s, s', h);
    }
    NobodyEntersKeeps(s, s', h);
  }

  lemma DropStaleExcl(s: State, a: nat, up: bool)
    requires Excl(s) && CreatingAt(s, a) && s.tasks[a].pc.DroppingStale?
    ensures Excl(NextDropStale(s, a, up))
  {
    assert CreatorOk(s, a);
    NobodyEntersKeeps(s, NextDropStale(s, a, up), s.tasks[a].pc.holder);
  }

  lemma GiveBackExcl(s: State, a: nat, up: bool, now: nat)
    requires Inv(s) && Excl(s) && Enabled(s, GiveBack(a, up, now))
    ensures Excl(NextGiveBack(s, a, up, now))
  {
    var id := s.tasks[a].id;
    assert CreatorOk(s, a);
    NobodyEntersKeeps(s, NextGiveBack(s, a, up, now), id);
  }

  // ---- everybody else ----

  /** A response somebody has won is dead. */
  lemma WonIsDead(s: State, r: ResponseId)
    requires Inv(s) && Hist(s.books.wins, r) != []
    ensures Dead(s, r)
  {
    assert HistoryOk(s, r) && (r in s.records ==> RecordOk(s, r));
    AcceptedNotPending(s, r);
  }

  /** A funnel's call leaves the marker alone or clears its own response's. */
  lemma ConvAfterMarker(
      conv: C.Conversation, f: Funnel, output: seq<ResponseItem>, reasoning: Option<string>, now: nat, cap: nat)
    requires f.plan != []
    ensures var conv' := ConvAfter(conv, f, output, reasoning, now, cap);
            conv'.active == conv.active || (conv.active == Some(f.id) && conv'.active == None)
  {
  }

  lemma EffectMarkers(s: State, f: Funnel, up: bool, output: seq<ResponseItem>, reasoning: Option<string>, now: nat)
    requires f.plan != []
    ensures forall c :: MarkerKept(s, Effect(s, f, up, output, reasoning, now), c, f.id)
  {
    if Owned(s, f.conv, f.tenant) {
      ConvAfterMarker(s.convs[f.conv.value], f, output, reasoning, now, s.cap);
    }
  }

  /** What a funnel's step leaves alone. */
  lemma ProceedLeaves(s: State, a: nat, up: bool, output: seq<ResponseItem>, reasoning: Option<string>, now: nat)
    requires a in s.tasks && s.tasks[a].Ending? && s.tasks[a].queue != []
    ensures var s', f := NextProceed(s, a, up, output, reasoning, now), s.tasks[a].queue[0];
            && s'.convs == (if f.plan == [] then s.convs else Effect(s, f, up, output, reasoning, now).convs)
            && s'.records == s.records && s'.books.accepted == s.books.accepted
            && s'.used.ids == s.used.ids && s'.used.convs == s.used.convs
            && forall b :: CreatingAt(s', b) ==> CreatingAt(s, b) && s'.tasks[b] == s.tasks[b]
  {
  }

  lemma ProceedExcl(s: State, a: nat, up: bool, output: seq<ResponseItem>, reasoning: Option<string>, now: nat)
    requires Inv(s) && Excl(s) && a in s.tasks && s.tasks[a].Ending? && s.tasks[a].queue != []
    ensures Excl(NextProceed(s, a, up, output, reasoning, now))
  {
    var f := s.tasks[a].queue[0];
    ProceedLeaves(s, a, up, output, reasoning, now);
    if f.plan == [] {
      LedgerExcl(s, NextProceed(s, a, up, output, reasoning, now));
    } else {
      assert Hist(s.books.wins, f.id) != [] by {
        assert TaskOk(s, a) && FunnelOk(s, a, f);
      }
      WonIsDead(s, f.id);
      EffectMarkers(s, f, up, output, reasoning, now);
      FunnelExcl(s, Effect(s, f, up, output, reasoning, now), NextProceed(s, a, up, output, reasoning, now), f.id);
    }
  }

  lemma FunnelExcl(s: State, s1: State, s': State, h: ResponseId)
    requires Excl(s) && Dead(s, h) && s'.convs == s1.convs && (forall c :: MarkerKept(s, s1, c, h))
    requires s'.records == s.records && s'.books.accepted == s.books.accepted
    requires s'.used.ids == s.used.ids && s'.used.convs == s.used.convs
    requires forall b :: CreatingAt(s', b) ==> CreatingAt(s, b) && s'.tasks[b] == s.tasks[b]
    ensures Excl(s')
  {
    assert forall c :: MarkerKept(s, s1, c, h) ==> MarkerKept(s, s', c, h);
    NobodyEntersKeeps(s, s', h);
  }

  /** Steps of executors, cancellers and sweepers on the ledger: markers and creators are not involved. */
  lemma LedgerExcl(s: State, s': State)
    requires Excl(s) && s'.convs == s.convs && s'.books.accepted == s.books.accepted
    requires s'.used.ids == s.used.ids && s'.used.convs == s.used.convs
    requires forall r :: IsLive(s', r) ==> IsLive(s, r)
    requires forall b :: CreatingAt(s', b) ==> CreatingAt(s, b) && s'.tasks[b] == s.tasks[b]
    ensures Excl(s')
  {
    NobodyEntersKeeps(s, s', 0);
  }

  lemma OpenExcl(s: State, c: ConversationId, tenant: TenantId)
    requires Inv(s) && Known(s) && Excl(s) && Enabled(s, OpenConversation(c, tenant))
    ensures Excl(Next(s, OpenConversation(c, tenant)))
  {
    var s' := s.(convs := s.convs[c := C.Fresh(tenant)], used := s.used.(convs := s.used.convs + {c}));
    forall r ensures LiveOk(s', r) {
      assert LiveOk(s, r) && (r in s.books.accepted ==> ConvKnown(s, s.books.accepted[r].conv));
    }
    forall b | CreatingAt(s', b) ensures CreatorOk(s', b) { assert CreatorOk(s, b); }
    forall d | d in s'.convs ensures ConvOk(s', d) { if d != c { assert ConvOk(s, d); } }
  }

  lemma EndExcl(s: State, a: nat, via: Via, status: ResponseStatus, usage: Usage, now: nat)
    requires Excl(s) && ExecutingAt(s, a)
    ensures Excl(NextEnd(s, a, via, status, usage, now))
  {
    LedgerExcl(s, NextEnd(s, a, via, status, usage, now));
  }

  lemma CancelExcl(s: State, a: nat, id: ResponseId, tenant: TenantId, now: nat)
    requires Inv(s) && Excl(s) && NewTask(s, a)
    ensures Excl(NextCancel(s, a, id, tenant, now))
  {
    LedgerExcl(s, NextCancel(s, a, id, tenant, now));
  }

  lemma ReapExcl(s: State, a: nat, lost: seq<ResponseId>, now: nat)
    requires Excl(s) && NewTask(s, a) && Reapable(s, lost)
    ensures Excl(NextReap(s, a, lost, now))
  {
    LedgerExcl(s, NextReap(s, a, lost, now));
  }

  lemma ClaimExcl(s: State, a: nat, id: ResponseId, agent: AgentId)
    requires Excl(s) && NewTask(s, a) && id in s.records && s.records[id].Live()
    ensures Excl(NextClaim(s, a, id, agent))
  {
    LedgerExcl(s, NextClaim(s, a, id, agent));
  }

  lemma CheckFenceExcl(s: State, a: nat, up: bool)
    requires Excl(s) && ExecutingAt(s, a)
    ensures Excl(NextCheckFence(s, a, up))
  {
    LedgerExcl(s, NextCheckFence(s, a, up));
  }

  lemma PushFencedExcl(s: State, a: nat, up: bool)
    requires Excl(s) && ExecutingAt(s, a)
    ensures Excl(NextPushFenced(s, a, up))
  {
    LedgerExcl(s, NextPushFenced(s, a, up));
  }

  lemma ReadContextExcl(s: State, a: nat, up: bool)
    requires Excl(s) && ExecutingAt(s, a)
    ensures Excl(NextReadContext(s, a, up))
  {
    LedgerExcl(s, NextReadContext(s, a, up));
  }

  /** Conversations appear, disappear or receive an event; records are deleted; tasks stop. */
  lemma OutsideExcl(s: State, step: Step, s': State)
    requires Excl(s) && Enabled(s, step) && s' == Next(s, step)
    requires step.DeleteConversation? || step.PostEvent? || step.DeleteRecord? || step.Stop?
    ensures Excl(s')
  {
    NobodyEntersKeeps(s, s', 0);
  }

  /** Losing the `Created` event of a response that is over, or outside any conversation, harms nobody. */
  lemma AppendCreatedExcl(s: State, a: nat, up: bool)
    requires Inv(s) && Excl(s) && Enabled(s, AppendCreated(a, up)) && Clean(s, AppendCreated(a, up))
    ensures Excl(Next(s, AppendCreated(a, up)))
  {
    var s', id := Next(s, AppendCreated(a, up)), s.tasks[a].id;
    if !up && s.tasks[a].conv.Some? {
      assert TaskOk(s, a);
      forall b | b in s.tasks && s.tasks[b].Creating? && s.tasks[b].id == id ensures !s.tasks[b].pc.Undecided() {
        assert CreatingAt(s, b);
      }
    }
    NobodyEntersKeeps(s, s', 0);
  }

  lemma CleanStepKeepsExcl(s: State, step: Step, s': State)
    requires Inv(s) && Known(s) && Excl(s) && Enabled(s, step) && Clean(s, step) && s' == Next(s, step)
    ensures Excl(s')
  {
    match step
    case OpenConversation(c, tenant) => OpenExcl(s, c, tenant);
    case BeginCreate(a, id, tenant, conv, store) =>
      BeginExcl(s, a, Creating(id, tenant, conv, store, if conv.Some? then AcquireFirst else Admitting));
    case TryAcquire(a, up, now) => TryAcquireExcl(s, a, up, now);
    case ReadHolder(a, up) => ReadHolderExcl(s, a, up);
    case DropStale(a, up) => DropStaleExcl(s, a, up);
    case Admit(a, answer, input, now, retention) => AdmitExcl(s, a, answer, input, now, retention);
    case AppendCreated(a, up) => AppendCreatedExcl(s, a, up);
    case GiveBack(a, up, now) => GiveBackExcl(s, a, up, now);
    case Claim(a, id, agent) => ClaimExcl(s, a, id, agent);
    case CheckFence(a, up) => CheckFenceExcl(s, a, up);
    case PushFenced(a, up) => PushFencedExcl(s, a, up);
    case ReadContext(a, up) => ReadContextExcl(s, a, up);
    case Finish(a, status, usage, now) => EndExcl(s, a, ByComplete, status, usage, now);
    case Fail(a, usage, now) => EndExcl(s, a, ByFail, Failed, usage, now);
    case Cancel(a, id, tenant, now) => CancelExcl(s, a, id, tenant, now);
    case Reap(a, lost, now) => ReapExcl(s, a, lost, now);
    case Proceed(a, up, output, reasoning, now) => ProceedExcl(s, a, up, output, reasoning, now);
    case _ => OutsideExcl(s, step, s');
  }

  // ---- every clean run ----

  lemma {:induction false} CleanRunKeepsExcl(states: seq<State>, steps: seq<Step>, cap: nat, k: nat)
    requires IsCleanRun(states, steps, cap) && k < |states|
    ensures Inv(states[k]) && Known(states[k]) && Excl(states[k])
  {
    RunStands(states, steps, cap, k);
    if k == 0 {
      assert forall r :: LiveOk(Init(cap), r);
    } else {
      CleanRunKeepsExcl(states, steps, cap, k - 1);
      assert CleanAt(states, steps, k - 1);
      CleanStepKeepsExcl(states[k - 1], steps[k - 1], states[k]);
    }
  }

  // ---- exactly when a turn loses its marker ----

  /** A live response of this conversation. */
  predicate LiveIn(s: State, c: ConversationId, r: ResponseId) {
    IsLive(s, r) && s.records[r].anchor == InConversation(c)
  }

  /** Every live response of an existing conversation holds that conversation's marker. */
  ghost predicate Marked(s: State) {
    forall c: ConversationId, r: ResponseId :: c in s.convs && LiveIn(s, c, r) ==> s.convs[c].active == Some(r)
  }

  /**
   The three steps that leave a live turn without its marker: a takeover that clears it, a creator that gives it back
   although the ledger accepted, and an acceptance that comes when the creator no longer has it.
   */
  predicate Breaks(s: State, step: Step)
    requires Enabled(s, step)
  {
    match step
    case DropStale(a, up) =>
      var t := s.tasks[a];
      up && Owned(s, t.conv, t.tenant) && s.convs[t.conv.value].active == Some(t.pc.holder)
      && LiveIn(s, t.conv.value, t.pc.holder)
    case GiveBack(a, up, now) =>
      var t := s.tasks[a];
      && up && Owned(s, t.conv, t.tenant) && LiveIn(s, t.conv.value, t.id) && s.convs[t.conv.value].active == Some(t.id)
      && C.ReleaseActive(s.convs[t.conv.value], t.id, Failed, now, s.cap).0.active == None
    case Admit(a, answer, _, _, _) =>
      var t := s.tasks[a];
      answer != Refused && t.conv.Some? && t.conv.value in s.convs && s.convs[t.conv.value].active != Some(t.id)
    case _ => false
  }

  /** A marker moves only if no live turn of its conversation has it. */
  ghost predicate Harmless(s: State, s': State, c: ConversationId) {
    c in s'.convs ==>
      && c in s.convs
      && (s'.convs[c].active == s.convs[c].active || s.convs[c].active == None
          || !LiveIn(s, c, s.convs[c].active.value))
  }

  lemma HarmlessKeepsMarked(s: State, s': State)
    requires Marked(s) && (forall c :: Harmless(s, s', c))
    requires forall c: ConversationId, r :: LiveIn(s', c, r) ==> LiveIn(s, c, r)
    ensures Marked(s')
  {
    forall c: ConversationId, r: ResponseId | c in s'.convs && LiveIn(s', c, r) ensures s'.convs[c].active == Some(r) {
      assert Harmless(s, s', c) && LiveIn(s, c, r);
    }
  }

  lemma SameMarkersKeepMarked(s: State, s': State)
    requires Marked(s)
    requires forall c :: c in s'.convs ==> c in s.convs && s'.convs[c].active == s.convs[c].active
    requires forall c: ConversationId, r :: LiveIn(s', c, r) ==> LiveIn(s, c, r)
    ensures Marked(s')
  {
    HarmlessKeepsMarked(s, s');
  }

  lemma OpenMarks(s: State, c: ConversationId, tenant: TenantId)
    requires Inv(s) && Known(s) && Marked(s) && c !in s.used.convs
    ensures Marked(s.(convs := s.convs[c := C.Fresh(tenant)], used := s.used.(convs := s.used.convs + {c})))
  {
    forall r | r in s.records && s.records[r].anchor.InConversation?
      ensures s.records[r].anchor.conversation in s.used.convs
    {
      assert RecordOk(s, r) && ConvKnown(s, s.books.accepted[r].conv);
    }
  }

  lemma TryAcquireMarks(s: State, a: nat, up: bool, now: nat)
    requires Marked(s) && CreatingAt(s, a) && s.tasks[a].conv.Some?
    ensures Marked(NextTryAcquire(s, a, up, now))
  {
    HarmlessKeepsMarked(s, NextTryAcquire(s, a, up, now));
  }

  lemma DropStaleMarks(s: State, a: nat, up: bool)
    requires Marked(s) && Enabled(s, DropStale(a, up))
    ensures Marked(NextDropStale(s, a, up)) <==> !Breaks(s, DropStale(a, up))
  {
    var t, s' := s.tasks[a], NextDropStale(s, a, up);
    if Breaks(s, DropStale(a, up)) {
      assert LiveIn(s', t.conv.value, t.pc.holder) && s'.convs[t.conv.value].active == None;
    } else {
      HarmlessKeepsMarked(s, s');
    }
  }

  lemma GiveBackMarks(s: State, a: nat, up: bool, now: nat)
    requires Marked(s) && Enabled(s, GiveBack(a, up, now))
    ensures Marked(NextGiveBack(s, a, up, now)) <==> !Breaks(s, GiveBack(a, up, now))
  {
    var t, s' := s.tasks[a], NextGiveBack(s, a, up, now);
    if Breaks(s, GiveBack(a, up, now)) {
      assert LiveIn(s', t.conv.value, t.id) && s'.convs[t.conv.value].active == None;
    } else {
      HarmlessKeepsMarked(s, s');
    }
  }

  lemma AdmitMarks(s: State, a: nat, answer: Answer, input: seq<ResponseItem>, now: nat, retention: nat)
    requires Inv(s) && Marked(s) && Enabled(s, Admit(a, answer, input, now, retention))
    ensures Marked(NextAdmit(s, a, answer, input, now, retention))
            <==> !Breaks(s, Admit(a, answer, input, now, retention))
  {
    var t, s' := s.tasks[a], NextAdmit(s, a, answer, input, now, retention);
    if answer == Refused {
      SameMarkersKeepMarked(s, s');
    } else {
      assert forall c: ConversationId :: LiveIn(s', c, t.id) <==> t.conv == Some(c);
      assert forall c: ConversationId, r :: r != t.id && LiveIn(s', c, r) ==> LiveIn(s, c, r);
      if t.conv.Some? && t.conv.value in s.convs {
        assert LiveIn(s', t.conv.value, t.id);
      }
    }
  }

  lemma ProceedMarks(s: State, a: nat, up: bool, output: seq<ResponseItem>, reasoning: Option<string>, now: nat)
    requires Inv(s) && Marked(s) && a in s.tasks && s.tasks[a].Ending? && s.tasks[a].queue != []
    ensures Marked(NextProceed(s, a, up, output, reasoning, now))
  {
    var f, s' := s.tasks[a].queue[0], NextProceed(s, a, up, output, reasoning, now);
    ProceedLeaves(s, a, up, output, reasoning, now);
    if f.plan == [] {
      SameMarkersKeepMarked(s, s');
    } else {
      assert !IsLive(s, f.id) by {
        assert TaskOk(s, a) && FunnelOk(s, a, f) && (f.id in s.records ==> RecordOk(s, f.id));
      }
      EffectMarkers(s, f, up, output, reasoning, now);
      forall c ensures Harmless(s, s', c) {
        assert MarkerKept(s, Effect(s, f, up, output, reasoning, now), c, f.id);
      }
      HarmlessKeepsMarked(s, s');
    }
  }

  lemma EndMarks(s: State, a: nat, via: Via, status: ResponseStatus, usage: Usage, now: nat)
    requires Marked(s) && ExecutingAt(s, a)
    ensures Marked(NextEnd(s, a, via, status, usage, now))
  {
    SameMarkersKeepMarked(s, NextEnd(s, a, via, status, usage, now));
  }

  lemma CancelMarks(s: State, a: nat, id: ResponseId, tenant: TenantId, now: nat)
    requires Marked(s)
    ensures Marked(NextCancel(s, a, id, tenant, now))
  {
    SameMarkersKeepMarked(s, NextCancel(s, a, id, tenant, now));
  }

  lemma ReapMarks(s: State, a: nat, lost: seq<ResponseId>, now: nat)
    requires Marked(s) && Reapable(s, lost)
    ensures Marked(NextReap(s, a, lost, now))
  {
    SameMarkersKeepMarked(s, NextReap(s, a, lost, now));
  }

  lemma ClaimMarks(s: State, a: nat, id: ResponseId, agent: AgentId)
    requires Marked(s) && id in s.records && s.records[id].Live()
    ensures Marked(NextClaim(s, a, id, agent))
  {
    SameMarkersKeepMarked(s, NextClaim(s, a, id, agent));
  }

  lemma ExecutorMarks(s: State, a: nat, up: bool)
    requires Marked(s) && ExecutingAt(s, a)
    ensures Marked(NextCheckFence(s, a, up)) && Marked(NextPushFenced(s, a, up)) && Marked(NextReadContext(s, a, up))
  {
    SameMarkersKeepMarked(s, NextCheckFence(s, a, up));
    SameMarkersKeepMarked(s, NextPushFenced(s, a, up));
    SameMarkersKeepMarked(s, NextReadContext(s, a, up));
  }

  lemma OutsideMarks(s: State, step: Step, s': State)
    requires Marked(s) && Enabled(s, step) && s' == Next(s, step)
    requires step.DeleteConversation? || step.PostEvent? || step.DeleteRecord? || step.BeginCreate? ||
             step.ReadHolder? || step.AppendCreated? || step.Stop?
    ensures Marked(s')
  {
    SameMarkersKeepMarked(s, s');
  }

  /** A step leaves some live turn without its marker exactly when it is one of the three. */
  lemma StepMarks(s: State, step: Step, s': State)
    requires Inv(s) && Known(s) && Marked(s) && Enabled(s, step) && s' == Next(s, step)
    ensures Marked(s') <==> !Breaks(s, step)
  {
    match step
    case OpenConversation(c, tenant) => OpenMarks(s, c, tenant);
    case TryAcquire(a, up, now) => TryAcquireMarks(s, a, up, now);
    case DropStale(a, up) => DropStaleMarks(s, a, up);
    case GiveBack(a, up, now) => GiveBackMarks(s, a, up, now);
    case Admit(a, answer, input, now, retention) => AdmitMarks(s, a, answer, input, now, retention);
    case Claim(a, id, agent) => ClaimMarks(s, a, id, agent);
    case CheckFence(a, up) => ExecutorMarks(s, a, up);
    case PushFenced(a, up) => ExecutorMarks(s, a, up);
    case ReadContext(a, up) => ExecutorMarks(s, a, up);
    case Finish(a, status, usage, now) => EndMarks(s, a, ByComplete, status, usage, now);
    case Fail(a, usage, now) => EndMarks(s, a, ByFail, Failed, usage, now);
    case Cancel(a, id, tenant, now) => CancelMarks(s, a, id, tenant, now);
    case Reap(a, lost, now) => ReapMarks(s, a, lost, now);
    case Proceed(a, up, output, reasoning, now) => ProceedMarks(s, a, up, output, reasoning, now);
    case _ => OutsideMarks(s, step, s');
  }

  ghost predicate BreaksAt(states: seq<State>, steps: seq<Step>, i: nat)
    requires i < |steps| < |states|
  {
    StepAt(states, steps, i) && Breaks(states[i], steps[i])
  }

  /** Up to `k`, nothing broke. */
  ghost predicate Unbroken(states: seq<State>, steps: seq<Step>, k: nat)
    requires k <= |steps| < |states|
  {
    forall i :: 0 <= i < k ==> !BreaksAt(states, steps, i)
  }

  lemma {:induction false} UnbrokenIsMarked(states: seq<State>, steps: seq<Step>, cap: nat, k: nat)
    requires IsRun(states, steps, cap) && k < |states| && Unbroken(states, steps, k)
    ensures Marked(states[k])
  {
    if k > 0 {
      UnbrokenIsMarked(states, steps, cap, k - 1);
      RunStands(states, steps, cap, k - 1);
      assert StepAt(states, steps, k - 1) && !BreaksAt(states, steps, k - 1);
      StepMarks(states[k - 1], steps[k - 1], states[k]);
    }
  }

  /** The exact condition: live turns hold their markers throughout a run if and only if no step of it breaks that. */
  lemma MarkedIffUnbroken(states: seq<State>, steps: seq<Step>, cap: nat)
    requires IsRun(states, steps, cap)
    ensures (forall k :: 0 <= k < |states| ==> Marked(states[k])) <==> Unbroken(states, steps, |steps|)
  {
    if Unbroken(states, steps, |steps|) {
      forall k | 0 <= k < |states| ensures Marked(states[k]) {
        UnbrokenIsMarked(states, steps, cap, k);
      }
    }
    if forall k :: 0 <= k < |states| ==> Marked(states[k]) {
      forall i | 0 <= i < |steps| ensures !BreaksAt(states, steps, i) {
        RunStands(states, steps, cap, i);
        assert StepAt(states, steps, i) && Marked(states[i]) && Marked(states[i + 1]);
        StepMarks(states[i], steps[i], states[i + 1]);
      }
    }
  }

  /** A clean run breaks nothing: the three steps have no other causes than the ones it excludes. */
  lemma CleanIsUnbroken(states: seq<State>, steps: seq<Step>, cap: nat)
    requires IsCleanRun(states, steps, cap)
    ensures Unbroken(states, steps, |steps|)
  {
    forall i | 0 <= i < |steps| ensures !BreaksAt(states, steps, i) {
      CleanRunKeepsExcl(states, steps, cap, i);
      assert CleanAt(states, steps, i);
      ExclBreaksNot(states[i], steps[i]);
    }
  }

  lemma ExclBreaksNot(s: State, step: Step)
    requires Excl(s) && Enabled(s, step)
    ensures !Breaks(s, step)
  {
    if step.DropStale? || step.GiveBack? || step.Admit? {
      assert CreatorOk(s, step.a);
    }
  }

  /**
   Until a step breaks it, a live response anchored to an existing conversation holds its marker,
   so the conversation never has two turns in flight.
   */
  lemma OneTurnInFlight(
      states: seq<State>, steps: seq<Step>, cap: nat, k: nat, c: ConversationId, r: ResponseId, q: ResponseId)
    requires IsRun(states, steps, cap) && k < |states| && Unbroken(states, steps, k)
    requires c in states[k].convs && LiveIn(states[k], c, r)
    ensures states[k].convs[c].active == Some(r)
    ensures LiveIn(states[k], c, q) ==> q == r
  {
    UnbrokenIsMarked(states, steps, cap, k);
  }
}
