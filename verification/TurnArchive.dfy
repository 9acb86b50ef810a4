/**
 Archive before announce: a stored turn whose `TurnCompleted` is on the stream is already in the snapshot, so a turn
 that starts after that event runs against a context that contains it. This holds as long as no creator gives up on a
 response that the ledger accepted and announces it failed; in particular whenever no acceptance and no `Created` event
 is lost.
 */
module TurnArchive {
  import opened Domain
  import C = ConversationSpec
  import opened TurnProtocol
  import opened TurnSafety
  import opened TurnContents
  import opened TurnExclusion

  // ---- the invariant ----

  /** Accepted, to be kept, and no archive call of it has failed. */
  predicate Stored(s: State, r: ResponseId) {
    r in s.books.accepted && s.books.accepted[r].store && r !in s.notes.archiveFailed
  }

  predicate InSnapshot(s: State, c: ConversationId, r: ResponseId)
    requires c in s.convs
  {
    r in s.convs[c].snapshot.appended
  }

  /** A completed turn can no longer be admitted; if it was, it says what the ledger says and its turn is archived. */
  ghost predicate CompletionOk(s: State, c: ConversationId, r: ResponseId, status: ResponseStatus)
    requires c in s.convs
  {
    && r in s.used.ids && !Pending(s, r)
    && (r in s.books.accepted ==> Hist(s.books.wins, r) != [] && Hist(s.books.wins, r)[0].status == status)
    && (Stored(s, r) ==> InSnapshot(s, c, r))
  }

  ghost predicate EventOk(s: State, c: ConversationId, i: nat)
    requires c in s.convs && i < |s.convs[c].events|
  {
    var kind := s.convs[c].events[i].kind;
    kind.TurnCompleted? ==> CompletionOk(s, c, kind.completed, kind.status)
  }

  /** A funnel that has no archive left to do before its release has done it, or failed at it. */
  ghost predicate ArchiveFirst(s: State, f: Funnel) {
    Release in f.plan && Archive !in f.plan && f.store && f.conv.Some? && f.conv.value in s.convs
    && f.id !in s.notes.archiveFailed ==>
      InSnapshot(s, f.conv.value, f.id)
  }

  ghost predicate QueueArchived(s: State, q: seq<Funnel>) {
    forall i :: 0 <= i < |q| ==> ArchiveFirst(s, q[i])
  }

  /** `r` was announced on the stream of `c` before `q` started on it. */
  ghost predicate Precedes(s: State, c: ConversationId, r: ResponseId, q: ResponseId)
    requires c in s.convs
  {
    exists i, j :: 0 <= i < j < |s.convs[c].events| && s.convs[c].events[i].kind.TurnCompleted? &&
                   s.convs[c].events[i].kind.completed == r && s.convs[c].events[j].kind == C.TurnStarted(q)
  }

  /** The context `q` read holds every stored turn announced before `q` started. */
  ghost predicate ContextOk(s: State, q: ResponseId)
    requires q in s.notes.contexts
  {
    q in s.books.accepted &&
    forall c, r :: s.books.accepted[q].conv == Some(c) && c in s.convs && Precedes(s, c, r, q) && Stored(s, r) ==>
                     r in s.notes.contexts[q].appended
  }

  ghost predicate EventsOk(s: State) {
    forall c, i :: c in s.convs && 0 <= i < |s.convs[c].events| ==> EventOk(s, c, i)
  }

  ghost predicate Arch(s: State) {
    && EventsOk(s)
    && (forall a :: a in s.tasks && s.tasks[a].Ending? ==> QueueArchived(s, s.tasks[a].queue))
    && (forall q :: q in s.notes.contexts ==> ContextOk(s, q))
  }

  // ---- what keeps it ----

  /** Streams and snapshots only grow, and nobody already accepted starts again. */
  ghost predicate ConvGrows(s: State, s': State, c: ConversationId) {
    c in s'.convs ==>
      if c in s.convs then
        && s.convs[c].events <= s'.convs[c].events
        && s.convs[c].snapshot.appended.Keys <= s'.convs[c].snapshot.appended.Keys
        && (forall i :: |s.convs[c].events| <= i < |s'.convs[c].events| && s'.convs[c].events[i].kind.TurnStarted? ==>
              s'.convs[c].events[i].kind.started !in s.books.accepted)
      else s'.convs[c].events == []
  }

  /** Whatever was decided about a response stays decided. */
  ghost predicate Settled(s: State, s': State, r: ResponseId) {
    && (r in s.used.ids ==> r in s'.used.ids)
    && (r in s.used.ids && !Pending(s, r) ==>
          && !Pending(s', r)
          && (r in s'.books.accepted <==> r in s.books.accepted)
          && (r in s.books.accepted ==> s'.books.accepted[r] == s.books.accepted[r])
          && (Hist(s.books.wins, r) != [] ==> Hist(s'.books.wins, r) == Hist(s.books.wins, r)))
    && (r in s.notes.archiveFailed ==> r in s'.notes.archiveFailed)
    && (r in s.books.accepted ==> r in s'.books.accepted && s'.books.accepted[r] == s.books.accepted[r])
  }

  lemma EventKept(s: State, s': State, c: ConversationId, i: nat)
    requires c in s.convs && i < |s.convs[c].events| && EventOk(s, c, i)
    requires c in s'.convs && ConvGrows(s, s', c) && forall r :: Settled(s, s', r)
    ensures EventOk(s', c, i)
  {
    var kind := s.convs[c].events[i].kind;
    assert s'.convs[c].events[i] == s.convs[c].events[i];
    if kind.TurnCompleted? {
      assert Settled(s, s', kind.completed);
    }
  }

  lemma PrecedesBack(s: State, s': State, c: ConversationId, r: ResponseId, q: ResponseId)
    requires c in s'.convs && ConvGrows(s, s', c) && Precedes(s', c, r, q) && q in s.books.accepted
    ensures c in s.convs && Precedes(s, c, r, q)
  {
    var events' := s'.convs[c].events;
    var i, j :| 0 <= i < j < |events'| && events'[i].kind.TurnCompleted? &&
                events'[i].kind.completed == r && events'[j].kind == C.TurnStarted(q);
    var events := s.convs[c].events;
    assert j < |events|;
    assert events[i] == events'[i] && events[j] == events'[j];
  }

  lemma ContextKept(s: State, s': State, q: ResponseId)
    requires q in s.notes.contexts && ContextOk(s, q) && q in s'.notes.contexts
    requires s'.notes.contexts[q] == s.notes.contexts[q]
    requires forall c, i :: c in s.convs && 0 <= i < |s.convs[c].events| ==> EventOk(s, c, i)
    requires forall c :: ConvGrows(s, s', c)
    requires forall r :: Settled(s, s', r)
    ensures ContextOk(s', q)
  {
    assert Settled(s, s', q);
    forall c, r | s'.books.accepted[q].conv == Some(c) && c in s'.convs && Precedes(s', c, r, q) && Stored(s', r)
      ensures r in s'.notes.contexts[q].appended
    {
      assert ConvGrows(s, s', c);
      PrecedesBack(s, s', c, r, q);
      var i, j :| 0 <= i < j < |s.convs[c].events| && s.convs[c].events[i].kind.TurnCompleted? &&
                  s.convs[c].events[i].kind.completed == r && s.convs[c].events[j].kind == C.TurnStarted(q);
      assert EventOk(s, c, i) && Settled(s, s', r);
    }
  }

  lemma GrowthKeepsArch(s: State, s': State)
    requires Arch(s) && s'.notes.contexts == s.notes.contexts && s'.used.convs == s.used.convs
    requires s'.convs.Keys <= s.convs.Keys
    requires forall c :: ConvGrows(s, s', c)
    requires forall r :: Settled(s, s', r)
    requires forall a :: a in s'.tasks && s'.tasks[a].Ending? ==> QueueArchived(s', s'.tasks[a].queue)
    requires forall c, i ::
               c in s'.convs && c in s.convs && |s.convs[c].events| <= i < |s'.convs[c].events| ==> EventOk(s', c, i)
    ensures Arch(s')
  {
    forall c, i | c in s'.convs && 0 <= i < |s'.convs[c].events| ensures EventOk(s', c, i) {
      assert ConvGrows(s, s', c);
      if i < |s.convs[c].events| {
        EventKept(s, s', c, i);
      }
    }
    forall q | q in s'.notes.contexts ensures ContextOk(s', q) {
      ContextKept(s, s', q);
    }
  }

  /** Streams and snapshots as they were, apart from conversations that went away. */
  ghost predicate SameContent(s: State, s': State) {
    forall c :: c in s'.convs ==>
      c in s.convs && s'.convs[c].events == s.convs[c].events && s'.convs[c].snapshot == s.convs[c].snapshot
  }

  ghost predicate CreatorsSubset(s: State, s': State) {
    forall b :: CreatingAt(s', b) ==>
      CreatingAt(s, b) && s'.tasks[b].id == s.tasks[b].id && (s'.tasks[b].pc.Undecided() ==> s.tasks[b].pc.Undecided())
  }

  ghost predicate WinsKept(s: State, s': State) {
    forall r :: Hist(s.books.wins, r) != [] ==> Hist(s'.books.wins, r) == Hist(s.books.wins, r)
  }

  lemma AllSettled(s: State, s': State)
    requires s'.books.accepted == s.books.accepted && s'.used.ids == s.used.ids
    requires s.notes.archiveFailed <= s'.notes.archiveFailed
    requires CreatorsSubset(s, s') && WinsKept(s, s')
    ensures forall r :: Settled(s, s', r)
  {
    forall r ensures Settled(s, s', r) { PendingSame(s, s', r); }
  }

  /** A step beside the streams: queues in `s'` are old ones or start with their archive. */
  lemma BesideKeepsArch(s: State, s': State)
    requires Arch(s) && SameContent(s, s') && s'.notes.contexts == s.notes.contexts
    requires s'.notes.archiveFailed == s.notes.archiveFailed
    requires s'.books.accepted == s.books.accepted && s'.used.ids == s.used.ids && s'.used.convs == s.used.convs
    requires CreatorsSubset(s, s') && WinsKept(s, s')
    requires forall a :: a in s'.tasks && s'.tasks[a].Ending? ==>
               (a in s.tasks && s'.tasks[a] == s.tasks[a]) || QueueArchived(s', s'.tasks[a].queue)
    ensures Arch(s')
  {
    AllSettled(s, s');
    forall a | a in s'.tasks && s'.tasks[a].Ending? ensures QueueArchived(s', s'.tasks[a].queue) {
      if a in s.tasks && s'.tasks[a] == s.tasks[a] {
        assert QueueArchived(s, s.tasks[a].queue);
      }
    }
    GrowthKeepsArch(s, s');
  }

  /** A fresh funnel still has its archive to do, if it owes one. */
  lemma FreshFunnelArch(s: State, rec: ResponseRecord, via: Via, status: ResponseStatus)
    ensures ArchiveFirst(s, FunnelOf(rec, via, status))
  {
  }

  lemma EndLeaves(s: State, a: nat, via: Via, status: ResponseStatus, usage: Usage, now: nat)
    requires ExecutingAt(s, a) && (s.tasks[a].id in s.records ==> RecordOk(s, s.tasks[a].id))
    ensures var s' := NextEnd(s, a, via, status, usage, now);
            && SameContent(s, s') && s'.notes.contexts == s.notes.contexts
            && s'.notes.archiveFailed == s.notes.archiveFailed
            && s'.books.accepted == s.books.accepted && s'.used.ids == s.used.ids && s'.used.convs == s.used.convs
            && CreatorsSubset(s, s') && WinsKept(s, s')
            && forall b :: b in s'.tasks && s'.tasks[b].Ending? ==>
                 (b in s.tasks && s'.tasks[b] == s.tasks[b])
                 || s'.tasks[b].queue == [FunnelOf(s.tasks[a].rec, via, status)]
  {
  }

  lemma EndArch(s: State, a: nat, via: Via, status: ResponseStatus, usage: Usage, now: nat)
    requires Inv(s) && Arch(s) && ExecutingAt(s, a)
    ensures Arch(NextEnd(s, a, via, status, usage, now))
  {
    var t, s' := s.tasks[a], NextEnd(s, a, via, status, usage, now);
    assert t.id in s.records ==> RecordOk(s, t.id);
    EndLeaves(s, a, via, status, usage, now);
    FreshFunnelArch(s', t.rec, via, status);
    BesideKeepsArch(s, s');
  }

  lemma CancelArch(s: State, a: nat, id: ResponseId, tenant: TenantId, now: nat)
    requires Inv(s) && Arch(s) && NewTask(s, a)
    ensures Arch(NextCancel(s, a, id, tenant, now))
  {
    var s' := NextCancel(s, a, id, tenant, now);
    if s' != s {
      assert RecordOk(s, id);
      FreshFunnelArch(s', s'.records[id], ByCancel, Cancelled);
      BesideKeepsArch(s, s');
    }
  }

  lemma ReapArch(s: State, a: nat, lost: seq<ResponseId>, now: nat)
    requires Inv(s) && Arch(s) && NewTask(s, a) && Reapable(s, lost)
    ensures Arch(NextReap(s, a, lost, now))
  {
    var s' := NextReap(s, a, lost, now);
    forall i | 0 <= i < |lost| ensures ArchiveFirst(s', s'.tasks[a].queue[i]) {
      FreshFunnelArch(s', s.records[lost[i]], ByReap, Failed);
    }
    forall r | Hist(s.books.wins, r) != [] ensures Hist(s'.books.wins, r) == Hist(s.books.wins, r) {
      assert r in s.records ==> RecordOk(s, r);
      ReapBooks(s, a, lost, now, r);
    }
    BesideKeepsArch(s, s');
  }

  lemma ClaimArch(s: State, a: nat, id: ResponseId, agent: AgentId)
    requires Arch(s) && NewTask(s, a) && id in s.records
    ensures Arch(NextClaim(s, a, id, agent))
  {
    BesideKeepsArch(s, NextClaim(s, a, id, agent));
  }

  lemma CheckFenceArch(s: State, a: nat, up: bool)
    requires Arch(s) && ExecutingAt(s, a)
    ensures Arch(NextCheckFence(s, a, up))
  {
    BesideKeepsArch(s, NextCheckFence(s, a, up));
  }

  lemma PushFencedArch(s: State, a: nat, up: bool)
    requires Arch(s) && ExecutingAt(s, a)
    ensures Arch(NextPushFenced(s, a, up))
  {
    BesideKeepsArch(s, NextPushFenced(s, a, up));
  }

  lemma ReadHolderArch(s: State, a: nat, up: bool)
    requires Arch(s) && CreatingAt(s, a) && s.tasks[a].pc.ReadingHolder?
    ensures Arch(NextReadHolder(s, a, up))
  {
    BesideKeepsArch(s, NextReadHolder(s, a, up));
  }

  // ---- steps on the streams ----

  /** One conversation changes: its stream gains at most one event that is fine there, its snapshot stays. */
  lemma StreamKeepsArch(s: State, s': State, c: ConversationId)
    requires Arch(s) && c in s.convs && c in s'.convs && s'.notes.contexts == s.notes.contexts
    requires s'.notes.archiveFailed == s.notes.archiveFailed
    requires s'.convs.Keys == s.convs.Keys && forall d :: d in s.convs && d != c ==> s'.convs[d] == s.convs[d]
    requires s'.convs[c].snapshot == s.convs[c].snapshot && ConvGrows(s, s', c)
    requires forall i :: |s.convs[c].events| <= i < |s'.convs[c].events| ==> EventOk(s', c, i)
    requires s'.books == s.books && s'.used.ids == s.used.ids && s'.used.convs == s.used.convs && CreatorsSubset(s, s')
    requires forall a :: a in s'.tasks && s'.tasks[a].Ending? ==>
               a in s.tasks && s.tasks[a].Ending? &&
               (s'.tasks[a] == s.tasks[a] || QueueArchived(s', s'.tasks[a].queue))
    ensures Arch(s')
  {
    AllSettled(s, s');
    forall a | a in s'.tasks && s'.tasks[a].Ending? ensures QueueArchived(s', s'.tasks[a].queue) {
      assert QueueArchived(s, s.tasks[a].queue);
    }
    forall d ensures ConvGrows(s, s', d) { }
    GrowthKeepsArch(s, s');
  }

  lemma CreatorArch(s: State, a: nat, t: Task, c: ConversationId, conv: C.Conversation)
    requires Inv(s) && Arch(s) && CreatingAt(s, a) && s.tasks[a].pc.Undecided()
    requires t.Creating? && t == s.tasks[a].(pc := t.pc)
    requires c in s.convs && conv.snapshot == s.convs[c].snapshot
    requires conv.events == s.convs[c].events ||
             (|conv.events| == |s.convs[c].events| + 1 && s.convs[c].events <= conv.events &&
              conv.events[|s.convs[c].events|].kind == C.TurnStarted(t.id))
    ensures Arch(WithTask(WithConv(s, c, conv), a, t))
  {
    assert TaskOk(s, a);
    StreamKeepsArch(s, WithTask(WithConv(s, c, conv), a, t), c);
  }

  lemma TryAcquireArch(s: State, a: nat, up: bool, now: nat)
    requires Inv(s) && Arch(s) && CreatingAt(s, a) && s.tasks[a].conv.Some? && s.tasks[a].pc.Undecided()
    ensures Arch(NextTryAcquire(s, a, up, now))
  {
    var t, s' := s.tasks[a], NextTryAcquire(s, a, up, now);
    if up && Owned(s, t.conv, t.tenant) {
      var c := t.conv.value;
      var (conv, res) := C.AcquireActive(s.convs[c], t.id, now, s.cap);
      if res.Ok? {
        CreatorArch(s, a, t.(pc := Admitting), c, conv);
      } else if res.error.Busy? && t.pc == AcquireFirst {
        BesideKeepsArch(s, s');
      } else {
        StopArch(s, a, s.trail);
      }
    } else {
      StopArch(s, a, s.trail);
    }
  }

  lemma StopArch(s: State, a: nat, trail: Trail)
    requires Arch(s)
    ensures Arch(Done(s, a).(trail := trail))
  {
    BesideKeepsArch(s, Done(s, a).(trail := trail));
  }

  lemma PostEventArch(s: State, c: ConversationId, kind: C.EventKind, now: nat)
    requires Arch(s) && c in s.convs && !kind.IsBoundary()
    ensures Arch(WithConv(s, c, C.AppendEvent(s.convs[c], kind, now, s.cap).0))
  {
    StreamKeepsArch(s, WithConv(s, c, C.AppendEvent(s.convs[c], kind, now, s.cap).0), c);
  }

  /** This step puts a `TurnCompleted` of a creator's response on the stream. */
  predicate GivesUpAloud(s: State, a: nat, up: bool, now: nat)
    requires CreatingAt(s, a) && s.tasks[a].conv.Some?
  {
    var t := s.tasks[a];
    up && Owned(s, t.conv, t.tenant) &&
    C.ReleaseActive(s.convs[t.conv.value], t.id, Failed, now, s.cap).0.nextSeq != s.convs[t.conv.value].nextSeq
  }

  /** The response was accepted, and it has not both failed and been archived: announcing it as failed is wrong. */
  predicate Wronged(s: State, c: ConversationId, r: ResponseId)
    requires c in s.convs
  {
    r in s.books.accepted &&
    (Hist(s.books.wins, r) == [] || Hist(s.books.wins, r)[0].status != Failed || (Stored(s, r) && !InSnapshot(s, c, r)))
  }

  /** The one step that announces what the ledger and the snapshot do not say. */
  predicate Misreports(s: State, step: Step)
    requires Enabled(s, step)
  {
    step.GiveBack? && GivesUpAloud(s, step.a, step.up, step.now) &&
    Wronged(s, s.tasks[step.a].conv.value, s.tasks[step.a].id)
  }

  /** What `GiveBack` does to the stream of its conversation. */
  lemma GiveBackStream(s: State, a: nat, up: bool, now: nat)
    requires CreatingAt(s, a) && s.tasks[a].conv.Some? && up && Owned(s, s.tasks[a].conv, s.tasks[a].tenant)
    ensures var t, s' := s.tasks[a], NextGiveBack(s, a, up, now);
            var c := t.conv.value;
            && c in s'.convs && s'.convs[c].snapshot == s.convs[c].snapshot
            && (GivesUpAloud(s, a, up, now) ==>
                  |s'.convs[c].events| == |s.convs[c].events| + 1 && s.convs[c].events <= s'.convs[c].events &&
                  s'.convs[c].events[|s.convs[c].events|].kind == C.TurnCompleted(t.id, Failed))
            && (!GivesUpAloud(s, a, up, now) ==> s'.convs[c].events == s.convs[c].events)
  {
  }

  lemma GiveUpNotPending(s: State, a: nat)
    requires Inv(s) && CreatingAt(s, a) && s.tasks[a].pc == GivingBack
    ensures s.tasks[a].id in s.used.ids && !Pending(s, s.tasks[a].id)
  {
    var id := s.tasks[a].id;
    assert TaskOk(s, a);
    forall b | b in s.tasks && s.tasks[b].Creating? && s.tasks[b].id == id ensures !s.tasks[b].pc.Undecided() {
      assert CreatingAt(s, b);
    }
  }

  lemma GiveBackArch(s: State, a: nat, up: bool, now: nat)
    requires Inv(s) && Arch(s) && Enabled(s, GiveBack(a, up, now)) && !Misreports(s, GiveBack(a, up, now))
    ensures Arch(NextGiveBack(s, a, up, now))
  {
    var t, s' := s.tasks[a], NextGiveBack(s, a, up, now);
    if up && Owned(s, t.conv, t.tenant) {
      GiveBackStream(s, a, up, now);
      GiveUpNotPending(s, a);
      PendingSame(s, s', t.id);
      StreamKeepsArch(s, s', t.conv.value);
    } else {
      BesideKeepsArch(s, s');
    }
  }

  lemma MisreportShows(s: State, a: nat, up: bool, now: nat)
    requires Enabled(s, GiveBack(a, up, now)) && Misreports(s, GiveBack(a, up, now))
    ensures !EventsOk(NextGiveBack(s, a, up, now))
  {
    var c := s.tasks[a].conv.value;
    GiveBackStream(s, a, up, now);
    assert !EventOk(NextGiveBack(s, a, up, now), c, |s.convs[c].events|);
  }

  lemma DropStaleArch(s: State, a: nat, up: bool)
    requires Inv(s) && Arch(s) && CreatingAt(s, a) && s.tasks[a].pc.DroppingStale?
    ensures Arch(NextDropStale(s, a, up))
  {
    var t := s.tasks[a];
    if !up {
      StopArch(s, a, s.trail);
    } else if Owned(s, t.conv, t.tenant) {
      var c := t.conv.value;
      var conv := C.ReleaseStale(s.convs[c], t.pc.holder).0;
      CreatorArch(s, a, t.(pc := AcquireAgain), c, conv);
      assert NextDropStale(s, a, up) == WithTask(WithConv(s, c, conv), a, t.(pc := AcquireAgain));
    } else {
      BesideKeepsArch(s, NextDropStale(s, a, up));
    }
  }

  // ---- the rest ----

  lemma BeginArch(s: State, a: nat, t: Task)
    requires Inv(s) && Arch(s) && NewTask(s, a) && t.Creating? && t.id !in s.used.ids
    ensures Arch(WithTask(s.(used := s.used.(ids := s.used.ids + {t.id})), a, t))
  {
    var s' := WithTask(s.(used := s.used.(ids := s.used.ids + {t.id})), a, t);
    forall r ensures Settled(s, s', r) {
      if Pending(s', r) && r != t.id {
        var b :| b in s'.tasks && s'.tasks[b].Creating? && s'.tasks[b].id == r && s'.tasks[b].pc.Undecided();
        assert b in s.tasks;
      }
    }
    forall b | b in s'.tasks && s'.tasks[b].Ending? ensures QueueArchived(s', s'.tasks[b].queue) {
      assert QueueArchived(s, s.tasks[b].queue);
    }
    GrowthKeepsArch(s, s');
  }

  lemma AdmitArch(s: State, a: nat, answer: Answer, input: seq<ResponseItem>, now: nat, retention: nat)
    requires Inv(s) && Arch(s) && CreatingAt(s, a) && s.tasks[a].pc == Admitting
    ensures Arch(NextAdmit(s, a, answer, input, now, retention))
  {
    var s' := NextAdmit(s, a, answer, input, now, retention);
    assert TaskOk(s, a);
    PendingSelf(s, a);
    forall r ensures Settled(s, s', r) { PendingSame(s, s', r); }
    forall b | b in s'.tasks && s'.tasks[b].Ending? ensures QueueArchived(s', s'.tasks[b].queue) {
      assert QueueArchived(s, s.tasks[b].queue);
    }
    GrowthKeepsArch(s, s');
  }

  lemma OpenArch(s: State, c: ConversationId, tenant: TenantId)
    requires Inv(s) && Known(s) && Arch(s) && c !in s.used.convs
    ensures Arch(s.(convs := s.convs[c := C.Fresh(tenant)], used := s.used.(convs := s.used.convs + {c})))
  {
    var s' := s.(convs := s.convs[c := C.Fresh(tenant)], used := s.used.(convs := s.used.convs + {c}));
    assert c !in s.convs.Keys;
    AllSettled(s, s');
    forall b | b in s'.tasks && s'.tasks[b].Ending? ensures QueueArchived(s', s'.tasks[b].queue) {
      var q := s.tasks[b].queue;
      assert QueueArchived(s, q) && TaskOk(s, b);
      forall i | 0 <= i < |q| ensures ArchiveFirst(s', q[i]) {
        assert FunnelOk(s, b, q[i]) && ArchiveFirst(s, q[i]) && ConvKnown(s, s.books.accepted[q[i].id].conv);
      }
    }
    forall d, i | d in s'.convs && 0 <= i < |s'.convs[d].events| ensures EventOk(s', d, i) {
      EventKept(s, s', d, i);
    }
    forall q | q in s'.notes.contexts ensures ContextOk(s', q) {
      ContextKept(s, s', q);
    }
  }

  /** What a turn reads is the whole snapshot, so every stored turn announced so far is in it. */
  lemma NewContextOk(s: State, s': State, q: ResponseId, c: ConversationId)
    requires Arch(s) && q in s.books.accepted && s.books.accepted[q].conv == Some(c) && c in s.convs
    requires s' == s.(notes := s.notes.(contexts := s.notes.contexts[q := s.convs[c].snapshot]))
    ensures ContextOk(s', q)
  {
    forall r | Precedes(s', c, r, q) && Stored(s', r) ensures r in s'.notes.contexts[q].appended {
      var i, j :| 0 <= i < j < |s.convs[c].events| && s.convs[c].events[i].kind.TurnCompleted? &&
                  s.convs[c].events[i].kind.completed == r && s.convs[c].events[j].kind == C.TurnStarted(q);
      assert EventOk(s, c, i);
    }
  }

  lemma NewContextArch(s: State, q: ResponseId, c: ConversationId)
    requires Arch(s) && q in s.books.accepted && s.books.accepted[q].conv == Some(c) && c in s.convs
    ensures Arch(s.(notes := s.notes.(contexts := s.notes.contexts[q := s.convs[c].snapshot])))
  {
    var s' := s.(notes := s.notes.(contexts := s.notes.contexts[q := s.convs[c].snapshot]));
    AllSettled(s, s');
    forall b | b in s'.tasks && s'.tasks[b].Ending? ensures QueueArchived(s', s'.tasks[b].queue) {
      assert QueueArchived(s, s.tasks[b].queue);
    }
    forall d, i | d in s'.convs && 0 <= i < |s'.convs[d].events| ensures EventOk(s', d, i) {
      EventKept(s, s', d, i);
    }
    forall p | p in s'.notes.contexts ensures ContextOk(s', p) {
      if p == q {
        NewContextOk(s, s', q, c);
      } else {
        ContextKept(s, s', p);
      }
    }
  }

  lemma ReadContextArch(s: State, a: nat, up: bool)
    requires Inv(s) && Arch(s) && ExecutingAt(s, a)
    ensures Arch(NextReadContext(s, a, up))
  {
    var t := s.tasks[a];
    var conv := t.rec.anchor.ConversationOf();
    var s1 := WithTask(s, a, t.(contextRead := true));
    assert TaskOk(s, a);
    BesideKeepsArch(s, s1);
    if up && Owned(s, conv, t.rec.tenant) {
      NewContextArch(s1, t.id, conv.value);
    }
  }

  // ---- a funnel's call ----

  /** The plan after a call: if the release is still ahead and the archive is not, the archive is done or failed. */
  lemma CallArchivesFirst(
      s: State, s': State, f: Funnel, up: bool, output: seq<ResponseItem>, reasoning: Option<string>, now: nat)
    requires f.plan != [] && PlanOk(f.plan) && ArchiveFirst(s, f) && s' == Effect(s, f, up, output, reasoning, now)
    ensures ArchiveFirst(s', f.(plan := Rest(s, f, up)))
  {
    if f.plan[0] != Archive && f.plan[0] != ReadBack {
      assert Rest(s, f, up) == f.plan[1..];
      assert Archive in f.plan ==> Archive in f.plan[1..];
    }
  }

  /** Snapshots and failures only accumulate, conversations do not appear. */
  ghost predicate Accumulates(s: State, s': State) {
    && s'.convs.Keys == s.convs.Keys && s.notes.archiveFailed <= s'.notes.archiveFailed
    && forall c :: c in s.convs ==> s.convs[c].snapshot.appended.Keys <= s'.convs[c].snapshot.appended.Keys
  }

  lemma ArchiveFirstMono(s: State, s': State, f: Funnel)
    requires Accumulates(s, s') && ArchiveFirst(s, f)
    ensures ArchiveFirst(s', f)
  {
    if f.conv.Some? && f.conv.value in s.convs {
      assert s.convs[f.conv.value].snapshot.appended.Keys <= s'.convs[f.conv.value].snapshot.appended.Keys;
    }
  }

  /** What a call does to its own conversation. */
  lemma ConvAfterContent(
      conv: C.Conversation, f: Funnel, output: seq<ResponseItem>, reasoning: Option<string>, now: nat, cap: nat)
    requires f.plan != []
    ensures var conv' := ConvAfter(conv, f, output, reasoning, now, cap);
            && conv.snapshot.appended.Keys <= conv'.snapshot.appended.Keys
            && (conv'.events == conv.events ||
                (f.plan[0] == Release && |conv'.events| == |conv.events| + 1 && conv.events <= conv'.events &&
                 conv'.events[|conv.events|].kind == C.TurnCompleted(f.id, f.status)))
  {
  }

  /** The only event a funnel puts on a stream is the completion of its own response, by a release. */
  ghost predicate Announces(s: State, s': State, f: Funnel, c: ConversationId)
    requires f.plan != []
  {
    c in s.convs && c in s'.convs && |s.convs[c].events| < |s'.convs[c].events| ==>
      f.plan[0] == Release && f.conv == Some(c) &&
      forall i :: |s.convs[c].events| <= i < |s'.convs[c].events| ==>
        s'.convs[c].events[i].kind == C.TurnCompleted(f.id, f.status)
  }

  lemma EffectGrows(s: State, f: Funnel, up: bool, output: seq<ResponseItem>, reasoning: Option<string>, now: nat)
    requires f.plan != []
    ensures var s' := Effect(s, f, up, output, reasoning, now);
            Accumulates(s, s') && (forall c :: ConvGrows(s, s', c)) && (forall c :: Announces(s, s', f, c))
  {
    if Owned(s, f.conv, f.tenant) {
      ConvAfterContent(s.convs[f.conv.value], f, output, reasoning, now, s.cap);
    }
  }

  lemma ReleaseAnnouncesArchived(s: State, s': State, a: nat, f: Funnel, c: ConversationId)
    requires Inv(s) && Accumulates(s, s') && FunnelOk(s, a, f) && ArchiveFirst(s, f)
    requires f.plan != [] && f.plan[0] == Release && f.conv == Some(c) && c in s.convs
    requires s'.books.accepted == s.books.accepted && s'.books.wins == s.books.wins && s'.used.ids == s.used.ids
    requires CreatorsSubset(s, s')
    ensures CompletionOk(s', c, f.id, f.status)
  {
    assert HistoryOk(s, f.id) && Release in f.plan && Archive !in f.plan;
    AcceptedNotPending(s, f.id);
    PendingSame(s, s', f.id);
    ArchiveFirstMono(s, s', f);
  }

  lemma CallArch(s: State, a: nat, up: bool, output: seq<ResponseItem>, reasoning: Option<string>, now: nat)
    requires Inv(s) && Arch(s) && a in s.tasks && s.tasks[a].Ending? && s.tasks[a].queue != []
    requires s.tasks[a].queue[0].plan != []
    ensures Arch(NextProceed(s, a, up, output, reasoning, now))
  {
    var q := s.tasks[a].queue;
    var f := q[0];
    var s1, s' := Effect(s, f, up, output, reasoning, now), NextProceed(s, a, up, output, reasoning, now);
    assert TaskOk(s, a) && FunnelOk(s, a, f) && QueueArchived(s, q) && ArchiveFirst(s, f);
    EffectGrows(s, f, up, output, reasoning, now);
    CallArchivesFirst(s, s1, f, up, output, reasoning, now);
    CallKeepsArch(s, s1, s', a, f, f.(plan := Rest(s, f, up)));
  }

  lemma QueuesAccumulate(s: State, s1: State, s': State, a: nat, f': Funnel, b: nat)
    requires Arch(s) && a in s.tasks && s.tasks[a].Ending? && s.tasks[a].queue != []
    requires s1.tasks == s.tasks && Accumulates(s, s1) && ArchiveFirst(s1, f')
    requires s' == WithTask(s1, a, Ending([f'] + s.tasks[a].queue[1..]))
    requires b in s'.tasks && s'.tasks[b].Ending?
    ensures QueueArchived(s', s'.tasks[b].queue)
  {
    var p, q := s'.tasks[b].queue, s.tasks[b].queue;
    assert QueueArchived(s, q);
    forall i | 0 <= i < |p| ensures ArchiveFirst(s', p[i]) {
      if b != a || i > 0 {
        assert p[i] == q[i] && ArchiveFirst(s, q[i]);
        ArchiveFirstMono(s, s', p[i]);
      }
    }
  }

  lemma CallKeepsArch(s: State, s1: State, s': State, a: nat, f: Funnel, f': Funnel)
    requires Inv(s) && Arch(s) && a in s.tasks && s.tasks[a].Ending? && s.tasks[a].queue != []
    requires f == s.tasks[a].queue[0] && f.plan != [] && FunnelOk(s, a, f) && ArchiveFirst(s, f)
    requires s' == WithTask(s1, a, Ending([f'] + s.tasks[a].queue[1..]))
    requires s1.tasks == s.tasks && s1.used == s.used && s1.notes.contexts == s.notes.contexts
    requires s1.books.accepted == s.books.accepted && s1.books.wins == s.books.wins
    requires Accumulates(s, s1) && (forall c :: ConvGrows(s, s1, c)) && ArchiveFirst(s1, f')
    requires forall c :: Announces(s, s1, f, c)
    ensures Arch(s')
  {
    AllSettled(s, s');
    forall c ensures ConvGrows(s, s', c) { assert ConvGrows(s, s1, c); }
    forall b | b in s'.tasks && s'.tasks[b].Ending? ensures QueueArchived(s', s'.tasks[b].queue) {
      QueuesAccumulate(s, s1, s', a, f', b);
    }
    forall c, i | c in s'.convs && c in s.convs && |s.convs[c].events| <= i < |s'.convs[c].events|
      ensures EventOk(s', c, i)
    {
      assert Announces(s, s1, f, c);
      ReleaseAnnouncesArchived(s, s', a, f, c);
    }
    GrowthKeepsArch(s, s');
  }

  lemma ProceedArch(s: State, a: nat, up: bool, output: seq<ResponseItem>, reasoning: Option<string>, now: nat)
    requires Inv(s) && Arch(s) && a in s.tasks && s.tasks[a].Ending? && s.tasks[a].queue != []
    ensures Arch(NextProceed(s, a, up, output, reasoning, now))
  {
    var q := s.tasks[a].queue;
    if q[0].plan != [] {
      CallArch(s, a, up, output, reasoning, now);
    } else if |q| == 1 {
      StopArch(s, a, s.trail.(served := s.trail.served + {q[0].id}));
    } else {
      PopArch(s, a, s.trail.(served := s.trail.served + {q[0].id}));
    }
  }

  lemma PopArch(s: State, a: nat, trail: Trail)
    requires Arch(s) && a in s.tasks && s.tasks[a].Ending? && s.tasks[a].queue != []
    ensures Arch(WithTask(s, a, Ending(s.tasks[a].queue[1..])).(trail := trail))
  {
    var q := s.tasks[a].queue;
    var s' := WithTask(s, a, Ending(q[1..])).(trail := trail);
    assert QueueArchived(s, q);
    forall i | 0 <= i < |q[1..]| ensures ArchiveFirst(s', q[1..][i]) { assert ArchiveFirst(s, q[i + 1]); }
    BesideKeepsArch(s, s');
  }

  // ---- every run ----

  lemma OutsideArch(s: State, step: Step, s': State)
    requires Inv(s) && Arch(s) && Enabled(s, step) && s' == Next(s, step)
    requires step.DeleteConversation? || step.DeleteRecord?
    ensures Arch(s')
  {
    BesideKeepsArch(s, s');
  }

  lemma AppendCreatedArch(s: State, a: nat, up: bool)
    requires Arch(s) && CreatingAt(s, a) && s.tasks[a].pc == AppendingCreated
    ensures Arch(if up then Done(s, a) else WithTask(s, a, s.tasks[a].(pc := GivingBack)))
  {
    BesideKeepsArch(s, if up then Done(s, a) else WithTask(s, a, s.tasks[a].(pc := GivingBack)));
  }

  lemma StepKeepsArch(s: State, step: Step, s': State)
    requires Inv(s) && Known(s) && Arch(s) && Enabled(s, step) && !Misreports(s, step) && s' == Next(s, step)
    ensures Arch(s')
  {
    match step
    case OpenConversation(c, tenant) => OpenArch(s, c, tenant);
    case PostEvent(c, kind, now) => PostEventArch(s, c, kind, now);
    case BeginCreate(a, id, tenant, conv, store) =>
      BeginArch(s, a, Creating(id, tenant, conv, store, if conv.Some? then AcquireFirst else Admitting));
    case TryAcquire(a, up, now) => TryAcquireArch(s, a, up, now);
    case ReadHolder(a, up) => ReadHolderArch(s, a, up);
    case DropStale(a, up) => DropStaleArch(s, a, up);
    case Admit(a, answer, input, now, retention) => AdmitArch(s, a, answer, input, now, retention);
    case AppendCreated(a, up) => AppendCreatedArch(s, a, up);
    case GiveBack(a, up, now) => GiveBackArch(s, a, up, now);
    case Claim(a, id, agent) => ClaimArch(s, a, id, agent);
    case CheckFence(a, up) => CheckFenceArch(s, a, up);
    case PushFenced(a, up) => PushFencedArch(s, a, up);
    case ReadContext(a, up) => ReadContextArch(s, a, up);
    case Finish(a, status, usage, now) => EndArch(s, a, ByComplete, status, usage, now);
    case Fail(a, usage, now) => EndArch(s, a, ByFail, Failed, usage, now);
    case Cancel(a, id, tenant, now) => CancelArch(s, a, id, tenant, now);
    case Reap(a, lost, now) => ReapArch(s, a, lost, now);
    case Proceed(a, up, output, reasoning, now) => ProceedArch(s, a, up, output, reasoning, now);
    case Stop(a) => StopArch(s, a, s.trail.(stopped := s.trail.stopped + {a}));
    case _ => OutsideArch(s, step, s');
  }

  /** A step puts a wrong announcement on a stream exactly when it is a creator giving up on a wronged response. */
  lemma StepReports(s: State, step: Step, s': State)
    requires Inv(s) && Known(s) && Arch(s) && Enabled(s, step) && s' == Next(s, step)
    ensures EventsOk(s') <==> !Misreports(s, step)
  {
    if Misreports(s, step) {
      MisreportShows(s, step.a, step.up, step.now);
    } else {
      StepKeepsArch(s, step, s');
    }
  }

  ghost predicate MisreportsAt(states: seq<State>, steps: seq<Step>, i: nat)
    requires i < |steps| < |states|
  {
    StepAt(states, steps, i) && Misreports(states[i], steps[i])
  }

  /** Up to `k`, nothing was misreported. */
  ghost predicate Honest(states: seq<State>, steps: seq<Step>, k: nat)
    requires k <= |steps| < |states|
  {
    forall i :: 0 <= i < k ==> !MisreportsAt(states, steps, i)
  }

  lemma {:induction false} HonestKeepsArch(states: seq<State>, steps: seq<Step>, cap: nat, k: nat)
    requires IsRun(states, steps, cap) && k < |states| && Honest(states, steps, k)
    ensures Arch(states[k])
  {
    if k > 0 {
      HonestKeepsArch(states, steps, cap, k - 1);
      RunStands(states, steps, cap, k - 1);
      assert StepAt(states, steps, k - 1) && !MisreportsAt(states, steps, k - 1);
      StepKeepsArch(states[k - 1], steps[k - 1], states[k]);
    }
  }

  lemma ReportedStep(states: seq<State>, steps: seq<Step>, cap: nat, k: nat)
    requires IsRun(states, steps, cap) && k < |steps| && Honest(states, steps, k) && EventsOk(states[k + 1])
    ensures !MisreportsAt(states, steps, k)
  {
    HonestKeepsArch(states, steps, cap, k);
    RunStands(states, steps, cap, k);
    assert StepAt(states, steps, k);
    StepReports(states[k], steps[k], states[k + 1]);
  }

  lemma {:induction false} ReportedIsHonest(states: seq<State>, steps: seq<Step>, cap: nat, k: nat)
    requires IsRun(states, steps, cap) && k <= |steps|
    requires forall i :: 0 <= i < |states| ==> EventsOk(states[i])
    ensures Honest(states, steps, k)
  {
    if k > 0 {
      ReportedIsHonest(states, steps, cap, k - 1);
      assert EventsOk(states[k]);
      ReportedStep(states, steps, cap, k - 1);
    }
  }

  /** The exact condition: every announcement of a run is right if and only if no step of it misreports. */
  lemma ReportedIffHonest(states: seq<State>, steps: seq<Step>, cap: nat)
    requires IsRun(states, steps, cap)
    ensures (forall k :: 0 <= k < |states| ==> EventsOk(states[k])) <==> Honest(states, steps, |steps|)
  {
    if Honest(states, steps, |steps|) {
      forall k | 0 <= k < |states| ensures EventsOk(states[k]) {
        HonestKeepsArch(states, steps, cap, k);
      }
    }
    if forall k :: 0 <= k < |states| ==> EventsOk(states[k]) {
      ReportedIsHonest(states, steps, cap, |steps|);
    }
  }

  // ---- runs in which every acceptance is heard of ----

  /** The acceptance and the `Created` event of a response arrive. */
  predicate Heard(step: Step) {
    (step.AppendCreated? ==> step.up) && (step.Admit? ==> step.answer != AcceptedUnheard)
  }

  /** A creator that gives up was refused. */
  ghost predicate OnlyRefusedGiveUp(s: State) {
    forall a :: CreatingAt(s, a) && s.tasks[a].pc == GivingBack ==> s.tasks[a].id !in s.books.accepted
  }

  lemma AdmitOnlyRefused(s: State, a: nat, answer: Answer, input: seq<ResponseItem>, now: nat, retention: nat)
    requires Inv(s) && OnlyRefusedGiveUp(s) && CreatingAt(s, a) && s.tasks[a].pc == Admitting
    requires answer != AcceptedUnheard
    ensures OnlyRefusedGiveUp(NextAdmit(s, a, answer, input, now, retention))
  {
    assert TaskOk(s, a);
  }

  /** Where no creator turns to giving up and nobody is accepted. */
  lemma SameGiversUp(s: State, s': State)
    requires OnlyRefusedGiveUp(s) && s'.books.accepted == s.books.accepted
    requires forall a :: CreatingAt(s', a) && s'.tasks[a].pc == GivingBack ==>
               CreatingAt(s, a) && s.tasks[a].pc == GivingBack && s'.tasks[a].id == s.tasks[a].id
    ensures OnlyRefusedGiveUp(s')
  {
  }

  lemma BeginOnlyRefused(s: State, a: nat, t: Task)
    requires OnlyRefusedGiveUp(s) && t.Creating? && t.pc != GivingBack
    ensures OnlyRefusedGiveUp(WithTask(s.(used := s.used.(ids := s.used.ids + {t.id})), a, t))
  {
    SameGiversUp(s, WithTask(s.(used := s.used.(ids := s.used.ids + {t.id})), a, t));
  }

  lemma TryAcquireOnlyRefused(s: State, a: nat, up: bool, now: nat)
    requires OnlyRefusedGiveUp(s) && CreatingAt(s, a) && s.tasks[a].conv.Some?
    ensures OnlyRefusedGiveUp(NextTryAcquire(s, a, up, now))
  {
    SameGiversUp(s, NextTryAcquire(s, a, up, now));
  }

  lemma ReadHolderOnlyRefused(s: State, a: nat, up: bool)
    requires OnlyRefusedGiveUp(s) && CreatingAt(s, a) && s.tasks[a].pc.ReadingHolder?
    ensures OnlyRefusedGiveUp(NextReadHolder(s, a, up))
  {
    SameGiversUp(s, NextReadHolder(s, a, up));
  }

  lemma DropStaleOnlyRefused(s: State, a: nat, up: bool)
    requires OnlyRefusedGiveUp(s) && CreatingAt(s, a) && s.tasks[a].pc.DroppingStale?
    ensures OnlyRefusedGiveUp(NextDropStale(s, a, up))
  {
    SameGiversUp(s, NextDropStale(s, a, up));
  }

  lemma GiveBackOnlyRefused(s: State, a: nat, up: bool, now: nat)
    requires OnlyRefusedGiveUp(s) && CreatingAt(s, a) && s.tasks[a].conv.Some?
    ensures OnlyRefusedGiveUp(NextGiveBack(s, a, up, now))
  {
    SameGiversUp(s, NextGiveBack(s, a, up, now));
  }

  lemma ProceedOnlyRefused(s: State, a: nat, up: bool, output: seq<ResponseItem>, reasoning: Option<string>, now: nat)
    requires OnlyRefusedGiveUp(s) && a in s.tasks && s.tasks[a].Ending? && s.tasks[a].queue != []
    ensures OnlyRefusedGiveUp(NextProceed(s, a, up, output, reasoning, now))
  {
    ProceedLeaves(s, a, up, output, reasoning, now);
    SameGiversUp(s, NextProceed(s, a, up, output, reasoning, now));
  }

  lemma EndOnlyRefused(s: State, a: nat, via: Via, status: ResponseStatus, usage: Usage, now: nat)
    requires OnlyRefusedGiveUp(s) && ExecutingAt(s, a)
    ensures OnlyRefusedGiveUp(NextEnd(s, a, via, status, usage, now))
  {
    SameGiversUp(s, NextEnd(s, a, via, status, usage, now));
  }

  lemma CancelOnlyRefused(s: State, a: nat, id: ResponseId, tenant: TenantId, now: nat)
    requires OnlyRefusedGiveUp(s)
    ensures OnlyRefusedGiveUp(NextCancel(s, a, id, tenant, now))
  {
    SameGiversUp(s, NextCancel(s, a, id, tenant, now));
  }

  lemma ReapOnlyRefused(s: State, a: nat, lost: seq<ResponseId>, now: nat)
    requires OnlyRefusedGiveUp(s) && Reapable(s, lost)
    ensures OnlyRefusedGiveUp(NextReap(s, a, lost, now))
  {
    SameGiversUp(s, NextReap(s, a, lost, now));
  }

  lemma CheckFenceOnlyRefused(s: State, a: nat, up: bool)
    requires OnlyRefusedGiveUp(s) && ExecutingAt(s, a)
    ensures OnlyRefusedGiveUp(NextCheckFence(s, a, up))
  {
    SameGiversUp(s, NextCheckFence(s, a, up));
  }

  lemma PushFencedOnlyRefused(s: State, a: nat, up: bool)
    requires OnlyRefusedGiveUp(s) && ExecutingAt(s, a)
    ensures OnlyRefusedGiveUp(NextPushFenced(s, a, up))
  {
    SameGiversUp(s, NextPushFenced(s, a, up));
  }

  lemma ReadContextOnlyRefused(s: State, a: nat, up: bool)
    requires OnlyRefusedGiveUp(s) && ExecutingAt(s, a)
    ensures OnlyRefusedGiveUp(NextReadContext(s, a, up))
  {
    SameGiversUp(s, NextReadContext(s, a, up));
  }

  lemma ClaimOnlyRefused(s: State, a: nat, id: ResponseId, agent: AgentId)
    requires OnlyRefusedGiveUp(s) && id in s.records
    ensures OnlyRefusedGiveUp(NextClaim(s, a, id, agent))
  {
    SameGiversUp(s, NextClaim(s, a, id, agent));
  }

  lemma OthersOnlyRefused(s: State, step: Step, s': State)
    requires OnlyRefusedGiveUp(s) && Enabled(s, step) && s' == Next(s, step)
    requires step.OpenConversation? || step.DeleteConversation? || step.PostEvent? || step.DeleteRecord? || step.Stop?
             || (step.AppendCreated? && step.up)
    ensures OnlyRefusedGiveUp(s')
  {
    SameGiversUp(s, s');
  }

  lemma HeardStepOnlyRefused(s: State, step: Step, s': State)
    requires Inv(s) && OnlyRefusedGiveUp(s) && Enabled(s, step) && Heard(step) && s' == Next(s, step)
    ensures OnlyRefusedGiveUp(s')
  {
    match step
    case BeginCreate(a, id, tenant, conv, store) =>
      BeginOnlyRefused(s, a, Creating(id, tenant, conv, store, if conv.Some? then AcquireFirst else Admitting));
    case TryAcquire(a, up, now) => TryAcquireOnlyRefused(s, a, up, now);
    case ReadHolder(a, up) => ReadHolderOnlyRefused(s, a, up);
    case DropStale(a, up) => DropStaleOnlyRefused(s, a, up);
    case Admit(a, answer, input, now, retention) => AdmitOnlyRefused(s, a, answer, input, now, retention);
    case GiveBack(a, up, now) => GiveBackOnlyRefused(s, a, up, now);
    case Claim(a, id, agent) => ClaimOnlyRefused(s, a, id, agent);
    case CheckFence(a, up) => CheckFenceOnlyRefused(s, a, up);
    case PushFenced(a, up) => PushFencedOnlyRefused(s, a, up);
    case ReadContext(a, up) => ReadContextOnlyRefused(s, a, up);
    case Finish(a, status, usage, now) => EndOnlyRefused(s, a, ByComplete, status, usage, now);
    case Fail(a, usage, now) => EndOnlyRefused(s, a, ByFail, Failed, usage, now);
    case Cancel(a, id, tenant, now) => CancelOnlyRefused(s, a, id, tenant, now);
    case Reap(a, lost, now) => ReapOnlyRefused(s, a, lost, now);
    case Proceed(a, up, output, reasoning, now) => ProceedOnlyRefused(s, a, up, output, reasoning, now);
    case _ => OthersOnlyRefused(s, step, s');
  }

  ghost predicate HeardRun(steps: seq<Step>) {
    forall i :: 0 <= i < |steps| ==> Heard(steps[i])
  }

  lemma {:induction false} HeardOnlyRefused(states: seq<State>, steps: seq<Step>, cap: nat, k: nat)
    requires IsRun(states, steps, cap) && HeardRun(steps) && k < |states|
    ensures OnlyRefusedGiveUp(states[k])
  {
    if k > 0 {
      HeardOnlyRefused(states, steps, cap, k - 1);
      RunKeepsInv(states, steps, cap, k - 1);
      assert StepAt(states, steps, k - 1) && Heard(steps[k - 1]);
      HeardStepOnlyRefused(states[k - 1], steps[k - 1], states[k]);
    }
  }

  /** If every acceptance and every `Created` event arrives, nothing is misreported, whatever else fails or races. */
  lemma HeardIsHonest(states: seq<State>, steps: seq<Step>, cap: nat)
    requires IsRun(states, steps, cap) && HeardRun(steps)
    ensures Honest(states, steps, |steps|)
  {
    forall i | 0 <= i < |steps| ensures !MisreportsAt(states, steps, i) {
      HeardOnlyRefused(states, steps, cap, i);
      assert StepAt(states, steps, i);
    }
  }

  // ---- what subscribers and later turns see ----

  /** An announced, accepted turn carries the ledger's status, and a stored one is in the snapshot. */
  lemma ArchiveBeforeAnnounce(states: seq<State>, steps: seq<Step>, cap: nat, k: nat, c: ConversationId, i: nat)
    requires IsRun(states, steps, cap) && k < |states| && Honest(states, steps, k)
    requires c in states[k].convs && i < |states[k].convs[c].events| && states[k].convs[c].events[i].kind.TurnCompleted?
    ensures var s, kind := states[k], states[k].convs[c].events[i].kind;
            && (Stored(s, kind.completed) ==> kind.completed in s.convs[c].snapshot.appended)
            && (kind.completed in s.books.accepted ==>
                  Hist(s.books.wins, kind.completed) != []
                  && Hist(s.books.wins, kind.completed)[0].status == kind.status)
  {
    HonestKeepsArch(states, steps, cap, k);
    assert EventOk(states[k], c, i);
  }

  /** A turn that starts after another was announced reads that turn's entries, whole and in order. */
  lemma LaterTurnSeesEarlier(
      states: seq<State>, steps: seq<Step>, cap: nat, k: nat, c: ConversationId, r: ResponseId, q: ResponseId)
    requires IsRun(states, steps, cap) && k < |states| && Honest(states, steps, k)
    requires var s := states[k];
             && q in s.notes.contexts && q in s.books.accepted && s.books.accepted[q].conv == Some(c)
             && c in s.convs && Precedes(s, c, r, q) && Stored(s, r)
    ensures var notes := states[k].notes;
            && r in notes.contexts[q].appended
            && r in notes.turns && IsBlock(notes.turns[r], notes.contexts[q].entries)
  {
    HonestKeepsArch(states, steps, cap, k);
    assert ContextOk(states[k], q);
    ContextHoldsTurns(states, steps, cap, k, q, r);
  }
}
