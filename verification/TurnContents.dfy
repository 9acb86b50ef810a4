/**
 What every run of the turn protocol keeps about conversations and what is in them: an id of a conversation is never
 reused, a snapshot only grows, and whatever snapshot an execution reads holds each turn in it as one block.
 */
module TurnContents {
  import opened Domain
  import C = ConversationSpec
  import opened TurnProtocol
  import opened TurnSafety

  // ---- the invariant ----

  predicate ConvKnown(s: State, conv: Option<ConversationId>) {
    conv.Some? ==> conv.value in s.used.convs
  }

  /** Conversations that exist, that a response was accepted for, or that a creator is in, were opened once. */
  ghost predicate Known(s: State) {
    && s.convs.Keys <= s.used.convs
    && (forall r :: r in s.books.accepted ==> ConvKnown(s, s.books.accepted[r].conv))
    && (forall a :: CreatingAt(s, a) && s.tasks[a].pc == Admitting ==> ConvKnown(s, s.tasks[a].conv))
  }

  predicate BlockAt(block: seq<C.ContextEntry>, entries: seq<C.ContextEntry>, i: nat) {
    i + |block| <= |entries| && entries[i..i + |block|] == block
  }

  /** The entries stand together somewhere in the history. */
  ghost predicate IsBlock(block: seq<C.ContextEntry>, entries: seq<C.ContextEntry>) {
    exists i: nat :: BlockAt(block, entries, i)
  }

  /** Every turn listed in a snapshot is there with the entries it was archived with. */
  ghost predicate SnapshotOk(turns: map<ResponseId, seq<C.ContextEntry>>, snapshot: C.Snapshot) {
    forall r :: r in snapshot.appended ==> r in turns && IsBlock(turns[r], snapshot.entries)
  }

  ghost predicate Contents(s: State) {
    && (forall r :: r in s.notes.turns ==> Hist(s.books.archives, r) != [])
    && (forall c :: c in s.convs ==> SnapshotOk(s.notes.turns, s.convs[c].snapshot))
    && (forall q :: q in s.notes.contexts ==> SnapshotOk(s.notes.turns, s.notes.contexts[q]))
  }

  /** A conversation never comes back, and while it lasts its snapshot only gains turns. */
  ghost predicate Kept(s: State, s': State, c: ConversationId) {
    && (c in s.used.convs ==> c in s'.used.convs)
    && (c in s.used.convs && c in s'.convs ==>
          c in s.convs && s.convs[c].snapshot.appended.Keys <= s'.convs[c].snapshot.appended.Keys)
  }

  ghost predicate Stands(s: State) {
    Known(s) && Contents(s)
  }

  ghost predicate StandsOn(s: State, s': State) {
    Stands(s') && forall c :: Kept(s, s', c)
  }

  // ---- steps that archive nothing ----

  ghost predicate SameSnapshots(s: State, s': State) {
    && s'.notes.turns == s.notes.turns && s'.notes.contexts == s.notes.contexts
    && forall c :: c in s'.convs ==> c in s.convs && s'.convs[c].snapshot == s.convs[c].snapshot
  }

  /** No conversation appears, none is entered, and nothing is archived. */
  ghost predicate Quiet(s: State, s': State) {
    && SameSnapshots(s, s') && s'.used.convs == s.used.convs
    && s'.books.accepted == s.books.accepted && s'.books.archives == s.books.archives
    && (forall a :: CreatingAt(s', a) && s'.tasks[a].pc == Admitting ==>
          CreatingAt(s, a) && s.tasks[a].pc == Admitting && s'.tasks[a].conv == s.tasks[a].conv)
  }

  lemma QuietStands(s: State, s': State)
    requires Stands(s) && Quiet(s, s')
    ensures StandsOn(s, s')
  {
    assert forall r :: r in s'.books.accepted ==> ConvKnown(s, s.books.accepted[r].conv);
    forall c | c in s'.convs ensures SnapshotOk(s'.notes.turns, s'.convs[c].snapshot) {
      assert SnapshotOk(s.notes.turns, s.convs[c].snapshot);
    }
    forall q | q in s'.notes.contexts ensures SnapshotOk(s'.notes.turns, s'.notes.contexts[q]) {
      assert SnapshotOk(s.notes.turns, s.notes.contexts[q]);
    }
  }

  lemma OpenStands(s: State, c: ConversationId, tenant: TenantId)
    requires Stands(s) && c !in s.used.convs
    ensures StandsOn(s, s.(convs := s.convs[c := C.Fresh(tenant)], used := s.used.(convs := s.used.convs + {c})))
  {
    var s' := s.(convs := s.convs[c := C.Fresh(tenant)], used := s.used.(convs := s.used.convs + {c}));
    forall d | d in s'.convs ensures SnapshotOk(s'.notes.turns, s'.convs[d].snapshot) {
      if d != c {
        assert SnapshotOk(s.notes.turns, s.convs[d].snapshot);
      }
    }
    forall r | r in s'.books.accepted ensures ConvKnown(s', s'.books.accepted[r].conv) {
      assert ConvKnown(s, s.books.accepted[r].conv);
    }
  }

  lemma BeginStands(s: State, a: nat, t: Task)
    requires Stands(s) && NewTask(s, a) && t.Creating? && (t.pc == Admitting ==> t.conv.None?)
    ensures StandsOn(s, WithTask(s.(used := s.used.(ids := s.used.ids + {t.id})), a, t))
  {
    var s' := WithTask(s.(used := s.used.(ids := s.used.ids + {t.id})), a, t);
    forall c | c in s'.convs ensures SnapshotOk(s'.notes.turns, s'.convs[c].snapshot) {
      assert SnapshotOk(s.notes.turns, s.convs[c].snapshot);
    }
    forall r | r in s'.books.accepted ensures ConvKnown(s', s'.books.accepted[r].conv) {
      assert ConvKnown(s, s.books.accepted[r].conv);
    }
  }

  /** A creator enters a conversation that exists. */
  lemma EnterStands(s: State, s': State, a: nat)
    requires Stands(s) && SameSnapshots(s, s') && s'.used.convs == s.used.convs && s'.books == s.books
    requires CreatingAt(s', a) && s'.tasks[a].conv.Some? && s'.tasks[a].conv.value in s.convs
    requires forall b :: b != a && CreatingAt(s', b) ==> CreatingAt(s, b) && s'.tasks[b] == s.tasks[b]
    ensures StandsOn(s, s')
  {
    assert s'.tasks[a].conv.value in s.convs.Keys;
    forall c | c in s'.convs ensures SnapshotOk(s'.notes.turns, s'.convs[c].snapshot) {
      assert SnapshotOk(s.notes.turns, s.convs[c].snapshot);
    }
    forall r | r in s'.books.accepted ensures ConvKnown(s', s'.books.accepted[r].conv) {
      assert ConvKnown(s, s.books.accepted[r].conv);
    }
  }

  lemma TryAcquireStands(s: State, a: nat, up: bool, now: nat)
    requires Stands(s) && CreatingAt(s, a) && s.tasks[a].conv.Some?
    ensures StandsOn(s, NextTryAcquire(s, a, up, now))
  {
    var t, s' := s.tasks[a], NextTryAcquire(s, a, up, now);
    if CreatingAt(s', a) {
      EnterStands(s, s', a);
    } else {
      QuietStands(s, s');
    }
  }

  lemma AdmitStands(s: State, a: nat, answer: Answer, input: seq<ResponseItem>, now: nat, retention: nat)
    requires Stands(s) && CreatingAt(s, a) && s.tasks[a].pc == Admitting
    ensures StandsOn(s, NextAdmit(s, a, answer, input, now, retention))
  {
    var s' := NextAdmit(s, a, answer, input, now, retention);
    forall c | c in s'.convs ensures SnapshotOk(s'.notes.turns, s'.convs[c].snapshot) {
      assert SnapshotOk(s.notes.turns, s.convs[c].snapshot);
    }
    forall r | r in s'.books.accepted ensures ConvKnown(s', s'.books.accepted[r].conv) {
      assert r in s.books.accepted ==> ConvKnown(s, s.books.accepted[r].conv);
    }
  }

  lemma ReadContextStands(s: State, a: nat, up: bool)
    requires Stands(s) && ExecutingAt(s, a)
    ensures StandsOn(s, NextReadContext(s, a, up))
  {
    var s' := NextReadContext(s, a, up);
    forall c | c in s'.convs ensures SnapshotOk(s'.notes.turns, s'.convs[c].snapshot) {
      assert SnapshotOk(s.notes.turns, s.convs[c].snapshot);
    }
    forall r | r in s'.books.accepted ensures ConvKnown(s', s'.books.accepted[r].conv) {
      assert ConvKnown(s, s.books.accepted[r].conv);
    }
  }

  // ---- archiving ----

  lemma BlockGrows(block: seq<C.ContextEntry>, entries: seq<C.ContextEntry>, more: seq<C.ContextEntry>)
    ensures IsBlock(block, entries) ==> IsBlock(block, entries + more)
    ensures IsBlock(more, entries + more)
  {
    var all := entries + more;
    if IsBlock(block, entries) {
      var i: nat :| BlockAt(block, entries, i);
      assert all[i..i + |block|] == entries[i..i + |block|];
      assert BlockAt(block, all, i);
    }
    assert all[|entries|..|entries| + |more|] == more;
    assert BlockAt(more, all, |entries|);
  }

  lemma AppendTurnOk(
      turns: map<ResponseId, seq<C.ContextEntry>>, conv: C.Conversation, r: ResponseId, commit: C.TurnCommit)
    requires SnapshotOk(turns, conv.snapshot) && r !in turns
    ensures SnapshotOk(turns[r := C.TurnEntries(commit)], C.AppendTurn(conv, r, commit).0.snapshot)
  {
    var after := C.AppendTurn(conv, r, commit).0.snapshot;
    var turns' := turns[r := C.TurnEntries(commit)];
    forall q | q in after.appended ensures q in turns' && IsBlock(turns'[q], after.entries) {
      BlockGrows(turns'[q], conv.snapshot.entries, C.TurnEntries(commit));
    }
  }

  lemma TurnsGrow(
      turns: map<ResponseId, seq<C.ContextEntry>>, r: ResponseId, entries: seq<C.ContextEntry>, snapshot: C.Snapshot)
    requires SnapshotOk(turns, snapshot) && r !in turns
    ensures SnapshotOk(turns[r := entries], snapshot)
  {
  }

  /** A funnel's call that is not an archive. */
  lemma CallIsQuiet(s: State, a: nat, up: bool, output: seq<ResponseItem>, reasoning: Option<string>, now: nat)
    requires a in s.tasks && s.tasks[a].Ending? && s.tasks[a].queue != []
    requires s.tasks[a].queue[0].plan != [] ==> s.tasks[a].queue[0].plan[0] != Archive
    ensures Quiet(s, NextProceed(s, a, up, output, reasoning, now))
  {
  }

  /** An archive call that fails is on the books, and that is all. */
  lemma FailedArchiveStands(s: State, a: nat, up: bool, output: seq<ResponseItem>, reasoning: Option<string>, now: nat)
    requires Stands(s) && a in s.tasks && s.tasks[a].Ending? && s.tasks[a].queue != []
    requires s.tasks[a].queue[0].plan != [] && s.tasks[a].queue[0].plan[0] == Archive
    requires !up || !Owned(s, s.tasks[a].queue[0].conv, s.tasks[a].queue[0].tenant)
    ensures StandsOn(s, NextProceed(s, a, up, output, reasoning, now))
  {
    var f, s' := s.tasks[a].queue[0], NextProceed(s, a, up, output, reasoning, now);
    var s1 := s'.(books := s'.books.(archives := s.books.archives));
    QuietStands(s, s1);
    assert forall r :: Hist(s.books.archives, r) != [] ==> Hist(s'.books.archives, r) != [];
    ArchivesStand(s1, s');
  }

  lemma ArchivesStand(s: State, s': State)
    requires Stands(s) && s' == s.(books := s.books.(archives := s'.books.archives))
    requires forall r :: Hist(s.books.archives, r) != [] ==> Hist(s'.books.archives, r) != []
    ensures Stands(s')
  {
    forall c | c in s'.convs ensures SnapshotOk(s'.notes.turns, s'.convs[c].snapshot) {
      assert SnapshotOk(s.notes.turns, s.convs[c].snapshot);
    }
    forall r | r in s'.books.accepted ensures ConvKnown(s', s'.books.accepted[r].conv) {
      assert ConvKnown(s, s.books.accepted[r].conv);
    }
  }

  lemma ArchiveStands(s: State, a: nat, output: seq<ResponseItem>, reasoning: Option<string>, now: nat)
    requires Inv(s) && Stands(s) && a in s.tasks && s.tasks[a].Ending? && s.tasks[a].queue != []
    requires var f := s.tasks[a].queue[0]; f.plan != [] && f.plan[0] == Archive && Owned(s, f.conv, f.tenant)
    ensures StandsOn(s, NextProceed(s, a, true, output, reasoning, now))
  {
    var f, s' := s.tasks[a].queue[0], NextProceed(s, a, true, output, reasoning, now);
    var c, commit := f.conv.value, CommitOf(f, output, reasoning);
    assert f.id !in s.notes.turns by {
      assert TaskOk(s, a) && FunnelOk(s, a, f) && Archive in f.plan;
    }
    assert s'.notes.turns == s.notes.turns[f.id := C.TurnEntries(commit)] && s'.notes.contexts == s.notes.contexts;
    forall d | d in s'.convs ensures SnapshotOk(s'.notes.turns, s'.convs[d].snapshot) {
      assert SnapshotOk(s.notes.turns, s.convs[d].snapshot);
      if d == c {
        AppendTurnOk(s.notes.turns, s.convs[c], f.id, commit);
      } else {
        TurnsGrow(s.notes.turns, f.id, C.TurnEntries(commit), s.convs[d].snapshot);
      }
    }
    forall q | q in s'.notes.contexts ensures SnapshotOk(s'.notes.turns, s'.notes.contexts[q]) {
      TurnsGrow(s.notes.turns, f.id, C.TurnEntries(commit), s.notes.contexts[q]);
    }
    forall r | r in s'.books.accepted ensures ConvKnown(s', s'.books.accepted[r].conv) {
      assert ConvKnown(s, s.books.accepted[r].conv);
    }
  }

  lemma ProceedStands(s: State, a: nat, up: bool, output: seq<ResponseItem>, reasoning: Option<string>, now: nat)
    requires Inv(s) && Stands(s) && a in s.tasks && s.tasks[a].Ending? && s.tasks[a].queue != []
    ensures StandsOn(s, NextProceed(s, a, up, output, reasoning, now))
  {
    var f := s.tasks[a].queue[0];
    if f.plan != [] && f.plan[0] == Archive {
      if up && Owned(s, f.conv, f.tenant) {
        ArchiveStands(s, a, output, reasoning, now);
      } else {
        FailedArchiveStands(s, a, up, output, reasoning, now);
      }
    } else {
      CallIsQuiet(s, a, up, output, reasoning, now);
      QuietStands(s, NextProceed(s, a, up, output, reasoning, now));
    }
  }

  // ---- every run ----

  lemma ReadHolderIsQuiet(s: State, a: nat, up: bool)
    requires CreatingAt(s, a) && s.tasks[a].pc.ReadingHolder?
    ensures Quiet(s, NextReadHolder(s, a, up))
  {
  }

  lemma DropStaleIsQuiet(s: State, a: nat, up: bool)
    requires CreatingAt(s, a) && s.tasks[a].pc.DroppingStale?
    ensures Quiet(s, NextDropStale(s, a, up))
  {
  }

  lemma GiveBackIsQuiet(s: State, a: nat, up: bool, now: nat)
    requires CreatingAt(s, a) && s.tasks[a].conv.Some?
    ensures Quiet(s, NextGiveBack(s, a, up, now))
  {
  }

  lemma EndIsQuiet(s: State, a: nat, via: Via, status: ResponseStatus, usage: Usage, now: nat)
    requires ExecutingAt(s, a)
    ensures Quiet(s, NextEnd(s, a, via, status, usage, now))
  {
  }

  lemma CancelIsQuiet(s: State, a: nat, id: ResponseId, tenant: TenantId, now: nat)
    ensures Quiet(s, NextCancel(s, a, id, tenant, now))
  {
  }

  lemma ReapIsQuiet(s: State, a: nat, lost: seq<ResponseId>, now: nat)
    requires Reapable(s, lost)
    ensures Quiet(s, NextReap(s, a, lost, now))
  {
  }

  lemma ClaimIsQuiet(s: State, a: nat, id: ResponseId, agent: AgentId)
    requires id in s.records
    ensures Quiet(s, NextClaim(s, a, id, agent))
  {
  }

  lemma FenceIsQuiet(s: State, a: nat, up: bool)
    requires ExecutingAt(s, a)
    ensures Quiet(s, NextCheckFence(s, a, up)) && Quiet(s, NextPushFenced(s, a, up))
  {
  }

  /** Conversations go away or receive an event, records are deleted, tasks stop. */
  lemma OutsideIsQuiet(s: State, step: Step, s': State)
    requires Enabled(s, step) && s' == Next(s, step)
    requires step.DeleteConversation? || step.PostEvent? || step.DeleteRecord? || step.Stop? || step.AppendCreated?
    ensures Quiet(s, s')
  {
  }

  lemma StepStands(s: State, step: Step, s': State)
    requires Inv(s) && Stands(s) && Enabled(s, step) && s' == Next(s, step)
    ensures StandsOn(s, s')
  {
    match step
    case OpenConversation(c, tenant) => OpenStands(s, c, tenant);
    case BeginCreate(a, id, tenant, conv, store) =>
      BeginStands(s, a, Creating(id, tenant, conv, store, if conv.Some? then AcquireFirst else Admitting));
    case TryAcquire(a, up, now) => TryAcquireStands(s, a, up, now);
    case Admit(a, answer, input, now, retention) => AdmitStands(s, a, answer, input, now, retention);
    case ReadContext(a, up) => ReadContextStands(s, a, up);
    case Proceed(a, up, output, reasoning, now) => ProceedStands(s, a, up, output, reasoning, now);
    case _ => OtherStands(s, step, s');
  }

  lemma OtherStands(s: State, step: Step, s': State)
    requires Stands(s) && Enabled(s, step) && s' == Next(s, step)
    requires !step.OpenConversation? && !step.BeginCreate? && !step.TryAcquire?
    requires !step.Admit? && !step.ReadContext? && !step.Proceed?
    ensures StandsOn(s, s')
  {
    match step {
      case ReadHolder(a, up) => ReadHolderIsQuiet(s, a, up);
      case DropStale(a, up) => DropStaleIsQuiet(s, a, up);
      case GiveBack(a, up, now) => GiveBackIsQuiet(s, a, up, now);
      case Finish(a, status, usage, now) => EndIsQuiet(s, a, ByComplete, status, usage, now);
      case Fail(a, usage, now) => EndIsQuiet(s, a, ByFail, Failed, usage, now);
      case Cancel(a, id, tenant, now) => CancelIsQuiet(s, a, id, tenant, now);
      case Reap(a, lost, now) => ReapIsQuiet(s, a, lost, now);
      case Claim(a, id, agent) => ClaimIsQuiet(s, a, id, agent);
      case CheckFence(a, up) => FenceIsQuiet(s, a, up);
      case PushFenced(a, up) => FenceIsQuiet(s, a, up);
      case _ => OutsideIsQuiet(s, step, s');
    }
    QuietStands(s, s');
  }

  lemma {:induction false} RunStands(states: seq<State>, steps: seq<Step>, cap: nat, k: nat)
    requires IsRun(states, steps, cap) && k < |states|
    ensures Inv(states[k]) && Stands(states[k])
  {
    RunKeepsInv(states, steps, cap, k);
    if k > 0 {
      RunStands(states, steps, cap, k - 1);
      assert StepAt(states, steps, k - 1);
      StepStands(states[k - 1], steps[k - 1], states[k]);
    }
  }

  /** Once in the snapshot of a conversation, a turn stays there for as long as the conversation does. */
  lemma ArchivedStays(states: seq<State>, steps: seq<Step>, cap: nat, i: nat, k: nat, c: ConversationId)
    requires IsRun(states, steps, cap) && i <= k < |states| && c in states[i].convs && c in states[k].convs
    ensures states[i].convs[c].snapshot.appended.Keys <= states[k].convs[c].snapshot.appended.Keys
  {
    RunStands(states, steps, cap, i);
    assert c in states[i].convs.Keys;
    KeptOver(states, steps, cap, i, k, c);
  }

  lemma {:induction false} KeptOver(states: seq<State>, steps: seq<Step>, cap: nat, i: nat, k: nat, c: ConversationId)
    requires IsRun(states, steps, cap) && i <= k < |states|
    ensures Kept(states[i], states[k], c)
    decreases k - i
  {
    if i < k {
      KeptOver(states, steps, cap, i, k - 1, c);
      RunStands(states, steps, cap, k - 1);
      assert StepAt(states, steps, k - 1);
      StepStands(states[k - 1], steps[k - 1], states[k]);
      assert Kept(states[k - 1], states[k], c);
    }
  }

  /** In every run, a turn listed in what an execution read is in the entries it read, whole and in order. */
  lemma ContextHoldsTurns(states: seq<State>, steps: seq<Step>, cap: nat, k: nat, q: ResponseId, r: ResponseId)
    requires IsRun(states, steps, cap) && k < |states| && q in states[k].notes.contexts
    requires r in states[k].notes.contexts[q].appended
    ensures r in states[k].notes.turns && IsBlock(states[k].notes.turns[r], states[k].notes.contexts[q].entries)
  {
    RunStands(states, steps, cap, k);
    assert SnapshotOk(states[k].notes.turns, states[k].notes.contexts[q]);
  }
}
