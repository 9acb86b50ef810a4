/**
 How mutual exclusion and honest announcements are lost. Whenever a live turn does not hold the marker of its
 conversation, a second turn can be let in. Four things lead there: a takeover of a holder whose `create` has not
 landed, a ledger that cannot be read, a lost `Created` event and a lost acceptance. The last lemmas are whole runs from
 the empty store.
 */
module TurnRaces {
  import opened Domain
  import C = ConversationSpec
  import opened TurnProtocol
  import opened TurnExclusion
  import opened TurnArchive

  /** Two different responses of the conversation are live at once. */
  ghost predicate TwoInFlight(s: State, c: ConversationId, r: ResponseId, q: ResponseId) {
    r != q && c in s.convs && LiveIn(s, c, r) && LiveIn(s, c, q)
  }

  /** The conversation has room for one more event, and `b` and `id` were never used: a creator may come. */
  ghost predicate CanCome(s: State, c: ConversationId, b: nat, id: ResponseId) {
    c in s.convs && s.convs[c].nextSeq < s.cap && NewTask(s, b) && id !in s.used.ids && id !in s.records
  }

  lemma PathStep(states: seq<State>, steps: seq<Step>, step: Step)
    requires IsPath(states, steps) && Enabled(states[|steps|], step)
    ensures IsPath(states + [Next(states[|steps|], step)], steps + [step])
  {
    var states', steps' := states + [Next(states[|steps|], step)], steps + [step];
    forall i | 0 <= i < |steps'| ensures StepAt(states', steps', i) {
      if i < |steps| {
        assert StepAt(states, steps, i);
        assert states'[i] == states[i] && states'[i + 1] == states[i + 1] && steps'[i] == steps[i];
      }
    }
  }

  lemma PathsJoin(states: seq<State>, steps: seq<Step>, states2: seq<State>, steps2: seq<Step>)
    requires IsPath(states, steps) && IsPath(states2, steps2) && states2[0] == states[|steps|]
    ensures IsPath(states + states2[1..], steps + steps2)
    ensures (states + states2[1..])[0] == states[0]
    ensures (states + states2[1..])[|steps| + |steps2|] == states2[|steps2|]
  {
    var states', steps' := states + states2[1..], steps + steps2;
    forall i | 0 <= i < |steps'| ensures StepAt(states', steps', i) {
      if i < |steps| {
        assert StepAt(states, steps, i);
        assert states'[i] == states[i] && states'[i + 1] == states[i + 1] && steps'[i] == steps[i];
      } else {
        var j := i - |steps|;
        assert StepAt(states2, steps2, j);
        assert states'[i] == states2[j] && states'[i + 1] == states2[j + 1] && steps'[i] == steps2[j];
      }
    }
  }

  // ---- a turn without its marker lets another in ----

  /** A creator at the free marker of a conversation goes through and is accepted. */
  lemma EntersFree(s: State, b: nat, c: ConversationId, r: ResponseId) returns (states: seq<State>, steps: seq<Step>)
    requires CreatingAt(s, b) && (s.tasks[b].pc == AcquireFirst || s.tasks[b].pc == AcquireAgain)
    requires s.tasks[b].conv == Some(c) && c in s.convs && s.tasks[b].tenant == s.convs[c].tenant
    requires s.convs[c].active == None && s.convs[c].nextSeq < s.cap
    requires LiveIn(s, c, r) && s.tasks[b].id != r
    ensures IsPath(states, steps) && states[0] == s && TwoInFlight(states[|steps|], c, r, s.tasks[b].id)
  {
    var s1 := NextTryAcquire(s, b, true, 0);
    var s2 := NextAdmit(s1, b, Accepted, [], 0, 0);
    states, steps := [s, s1, s2], [TryAcquire(b, true, 0), Admit(b, Accepted, [], 0, 0)];
    assert StepAt(states, steps, 0) && StepAt(states, steps, 1);
  }

  /** A new creator of the conversation's own tenant. */
  lemma Comes(s: State, b: nat, c: ConversationId, id: ResponseId) returns (s': State)
    requires CanCome(s, c, b, id)
    ensures var step := BeginCreate(b, id, s.convs[c].tenant, Some(c), true); Enabled(s, step) && s' == Next(s, step)
    ensures CreatingAt(s', b) && s'.tasks[b] == Creating(id, s.convs[c].tenant, Some(c), true, AcquireFirst)
    ensures s'.convs == s.convs && s'.records == s.records && s'.cap == s.cap
  {
    s' := Next(s, BeginCreate(b, id, s.convs[c].tenant, Some(c), true));
  }

  /** A creator finds the marker with somebody else, judges that holder stale and clears the marker. */
  lemma TakesOver(s: State, b: nat, c: ConversationId) returns (states: seq<State>, steps: seq<Step>)
    requires CreatingAt(s, b) && s.tasks[b].pc == AcquireFirst && s.tasks[b].conv == Some(c)
    requires c in s.convs && s.tasks[b].tenant == s.convs[c].tenant
    requires s.convs[c].active.Some? && s.convs[c].active.value != s.tasks[b].id
    ensures IsPath(states, steps) && |steps| == 3 && states[0] == s
    ensures var s3 := states[3];
            && CreatingAt(s3, b) && s3.tasks[b] == s.tasks[b].(pc := AcquireAgain)
            && c in s3.convs && s3.convs[c] == s.convs[c].(active := None) && s3.records == s.records && s3.cap == s.cap
  {
    var h := s.convs[c].active.value;
    var up := !IsLive(s, h);
    var s1 := NextTryAcquire(s, b, true, 0);
    var s2 := NextReadHolder(s1, b, up);
    var s3 := NextDropStale(s2, b, true);
    states, steps := [s, s1, s2, s3], [TryAcquire(b, true, 0), ReadHolder(b, up), DropStale(b, true)];
    assert StepAt(states, steps, 0) && StepAt(states, steps, 1) && StepAt(states, steps, 2);
  }

  /** From any state in which a live turn does not hold its conversation's marker, two turns can be in flight. */
  lemma UnmarkedAdmitsTwo(s: State, c: ConversationId, r: ResponseId, b: nat, id: ResponseId)
    returns (states: seq<State>, steps: seq<Step>)
    requires c in s.convs && LiveIn(s, c, r) && s.convs[c].active != Some(r) && CanCome(s, c, b, id)
    requires s.convs[c].active != Some(id)
    ensures IsPath(states, steps) && states[0] == s && TwoInFlight(states[|steps|], c, r, id)
  {
    var s1 := Comes(s, b, c, id);
    states, steps := [s, s1], [BeginCreate(b, id, s.convs[c].tenant, Some(c), true)];
    assert StepAt(states, steps, 0);
    if s.convs[c].active == None {
      var states2, steps2 := EntersFree(s1, b, c, r);
      PathsJoin(states, steps, states2, steps2);
      states, steps := states + states2[1..], steps + steps2;
    } else {
      var states2, steps2 := TakesOver(s1, b, c);
      var states3, steps3 := EntersFree(states2[3], b, c, r);
      PathsJoin(states, steps, states2, steps2);
      states, steps := states + states2[1..], steps + steps2;
      PathsJoin(states, steps, states3, steps3);
      states, steps := states + states3[1..], steps + steps3;
    }
  }

  // ---- four ways to lose the marker ----

  /** Creator `a` of `h` has the marker of `c` but not the ledger's answer; creator `b` is about to look `h` up. */
  ghost predicate AboutToRace(s: State, a: nat, b: nat, c: ConversationId) {
    && a != b && CreatingAt(s, a) && CreatingAt(s, b) && s.tasks[a].id != s.tasks[b].id
    && c in s.convs && s.convs[c].active == Some(s.tasks[a].id) && s.convs[c].nextSeq < s.cap
    && s.tasks[a].pc == Admitting && s.tasks[a].conv == Some(c) && s.tasks[a].id !in s.records
    && s.tasks[b].pc == ReadingHolder(s.tasks[a].id) && s.tasks[b].conv == Some(c)
    && s.tasks[b].tenant == s.convs[c].tenant
  }

  /** The absent record reads as stale, and the marker is dropped. */
  lemma PendingHolderDropped(s: State, a: nat, b: nat, c: ConversationId) returns (states: seq<State>, steps: seq<Step>)
    requires AboutToRace(s, a, b, c)
    ensures !Clean(s, ReadHolder(b, true))
    ensures IsPath(states, steps) && states[0] == s && steps == [ReadHolder(b, true), DropStale(b, true)]
    ensures var s2 := states[2];
            && CreatingAt(s2, a) && s2.tasks[a] == s.tasks[a]
            && CreatingAt(s2, b) && s2.tasks[b] == s.tasks[b].(pc := AcquireAgain)
            && c in s2.convs && s2.convs[c] == s.convs[c].(active := None) && s2.records == s.records && s2.cap == s.cap
  {
    assert Pending(s, s.tasks[a].id);
    var s1 := NextReadHolder(s, b, true);
    var s2 := NextDropStale(s1, b, true);
    states, steps := [s, s1, s2], [ReadHolder(b, true), DropStale(b, true)];
    assert StepAt(states, steps, 0) && StepAt(states, steps, 1);
  }

  /** A creator that looks up a holder whose `create` has not landed can end up beside it, both turns in flight. */
  lemma RacyTakeoverAdmitsTwo(s: State, a: nat, b: nat, c: ConversationId)
    returns (states: seq<State>, steps: seq<Step>)
    requires AboutToRace(s, a, b, c)
    ensures IsPath(states, steps) && states[0] == s && steps != [] && steps[0] == ReadHolder(b, true)
    ensures TwoInFlight(states[|steps|], c, s.tasks[a].id, s.tasks[b].id)
  {
    states, steps := PendingHolderDropped(s, a, b, c);
    var s2 := states[2];
    PathStep(states, steps, Admit(a, Accepted, [], 0, 0));
    var s3 := NextAdmit(s2, a, Accepted, [], 0, 0);
    states, steps := states + [s3], steps + [Admit(a, Accepted, [], 0, 0)];
    var states2, steps2 := EntersFree(s3, b, c, s.tasks[a].id);
    PathsJoin(states, steps, states2, steps2);
    states, steps := states + states2[1..], steps + steps2;
  }

  ghost predicate Guarded(s: State, c: ConversationId, r: ResponseId) {
    LiveIn(s, c, r) && c in s.convs && s.convs[c].active == Some(r)
  }

  /** A live turn of `c` whose creator is about to give its marker back, and can. */
  ghost predicate AboutToGiveUp(s: State, a: nat, c: ConversationId) {
    && CreatingAt(s, a) && s.tasks[a].pc == GivingBack && s.tasks[a].conv == Some(c) && Guarded(s, c, s.tasks[a].id)
    && s.convs[c].tenant == s.tasks[a].tenant && s.convs[c].nextSeq < s.cap
    && (s.convs[c].lastCompleted.Some? ==> s.convs[c].lastCompleted.value.0 != s.tasks[a].id)
  }

  lemma GivesUp(s: State, a: nat, c: ConversationId)
    requires AboutToGiveUp(s, a, c)
    ensures Breaks(s, GiveBack(a, true, 0))
    ensures var s' := NextGiveBack(s, a, true, 0);
            && c in s'.convs && LiveIn(s', c, s.tasks[a].id) && s'.convs[c].active == None
            && s'.convs[c].nextSeq == s.convs[c].nextSeq + 1
            && s'.used == s.used && s'.records == s.records && s'.cap == s.cap
  {
  }

  /** Losing the `Created` event after the ledger accepted gives the marker of a live turn back, and another gets in. */
  lemma LostCreatedAdmitsTwo(s: State, a: nat, c: ConversationId, b: nat, id: ResponseId)
    returns (states: seq<State>, steps: seq<Step>)
    requires CreatingAt(s, a) && s.tasks[a].pc == AppendingCreated
    requires AboutToGiveUp(WithTask(s, a, s.tasks[a].(pc := GivingBack)), a, c)
    requires s.convs[c].nextSeq + 1 < s.cap && a in s.used.tasks && CanCome(s, c, b, id) && id != s.tasks[a].id
    ensures !Clean(s, AppendCreated(a, false))
    ensures IsPath(states, steps) && states[0] == s && |steps| > 2 && steps[0] == AppendCreated(a, false)
    ensures TwoInFlight(states[|steps|], c, s.tasks[a].id, id)
  {
    var s1 := WithTask(s, a, s.tasks[a].(pc := GivingBack));
    GivesUp(s1, a, c);
    var s2 := NextGiveBack(s1, a, true, 0);
    states, steps := [s, s1, s2], [AppendCreated(a, false), GiveBack(a, true, 0)];
    assert StepAt(states, steps, 0) && StepAt(states, steps, 1);
    var states2, steps2 := UnmarkedAdmitsTwo(s2, c, s.tasks[a].id, b, id);
    PathsJoin(states, steps, states2, steps2);
    states, steps := states + states2[1..], steps + steps2;
  }

  /** So does an acceptance whose answer is lost. */
  lemma LostAnswerAdmitsTwo(s: State, a: nat, c: ConversationId, b: nat, id: ResponseId)
    returns (states: seq<State>, steps: seq<Step>)
    requires CreatingAt(s, a) && s.tasks[a].pc == Admitting
    requires AboutToGiveUp(NextAdmit(s, a, AcceptedUnheard, [], 0, 0), a, c)
    requires s.convs[c].nextSeq + 1 < s.cap && a in s.used.tasks && CanCome(s, c, b, id) && id != s.tasks[a].id
    ensures !Clean(s, Admit(a, AcceptedUnheard, [], 0, 0))
    ensures IsPath(states, steps) && states[0] == s && |steps| > 2 && steps[0] == Admit(a, AcceptedUnheard, [], 0, 0)
    ensures TwoInFlight(states[|steps|], c, s.tasks[a].id, id)
  {
    var s1 := NextAdmit(s, a, AcceptedUnheard, [], 0, 0);
    GivesUp(s1, a, c);
    var s2 := NextGiveBack(s1, a, true, 0);
    states, steps := [s, s1, s2], [Admit(a, AcceptedUnheard, [], 0, 0), GiveBack(a, true, 0)];
    assert StepAt(states, steps, 0) && StepAt(states, steps, 1);
    var states2, steps2 := UnmarkedAdmitsTwo(s2, c, s.tasks[a].id, b, id);
    PathsJoin(states, steps, states2, steps2);
    states, steps := states + states2[1..], steps + steps2;
  }

  /** A ledger that cannot be read makes a live holder look stale, and the creator that asked gets in beside it. */
  lemma UnreadableLedgerAdmitsTwo(s: State, b: nat, c: ConversationId, h: ResponseId)
    returns (states: seq<State>, steps: seq<Step>)
    requires CreatingAt(s, b) && s.tasks[b].pc == ReadingHolder(h) && s.tasks[b].conv == Some(c) && s.tasks[b].id != h
    requires Guarded(s, c, h) && s.convs[c].tenant == s.tasks[b].tenant && s.convs[c].nextSeq < s.cap
    ensures !Clean(s, ReadHolder(b, false))
    ensures IsPath(states, steps) && states[0] == s && steps != [] && steps[0] == ReadHolder(b, false)
    ensures TwoInFlight(states[|steps|], c, h, s.tasks[b].id)
  {
    var s1 := NextReadHolder(s, b, false);
    var s2 := NextDropStale(s1, b, true);
    states, steps := [s, s1, s2], [ReadHolder(b, false), DropStale(b, true)];
    assert StepAt(states, steps, 0) && StepAt(states, steps, 1);
    var states2, steps2 := EntersFree(s2, b, c, h);
    PathsJoin(states, steps, states2, steps2);
    states, steps := states + states2[1..], steps + steps2;
  }

  // ---- whole runs ----

  lemma FirstCreator(cap: nat, c: ConversationId, id: ResponseId, tenant: TenantId, a: nat)
    returns (states: seq<State>, steps: seq<Step>)
    requires cap >= 1
    ensures IsRun(states, steps, cap) && |steps| == 3
    ensures var s := states[3];
            && s.tasks == map[a := Creating(id, tenant, Some(c), true, Admitting)] && s.records == map[]
            && s.used == Used({id}, {c}, {a}) && s.cap == cap
            && s.books == Init(cap).books && s.notes == Init(cap).notes && s.trail == Init(cap).trail
            && c in s.convs && s.convs[c].active == Some(id) && s.convs[c].nextSeq == 1 == |s.convs[c].events|
            && s.convs[c].tenant == tenant && s.convs[c].lastCompleted == None && s.convs[c].snapshot.appended == map[]
  {
    var s1 := Init(cap).(convs := map[c := C.Fresh(tenant)], used := Used({}, {c}, {}));
    var s2 := WithTask(s1.(used := Used({id}, {c}, {})), a, Creating(id, tenant, Some(c), true, AcquireFirst));
    var s3 := NextTryAcquire(s2, a, true, 0);
    states := [Init(cap), s1, s2, s3];
    steps := [OpenConversation(c, tenant), BeginCreate(a, id, tenant, Some(c), true), TryAcquire(a, true, 0)];
    assert StepAt(states, steps, 0) && StepAt(states, steps, 1) && StepAt(states, steps, 2);
  }

  /** Whenever a creator sits between its two calls, a second one can arrive and find it holding the marker. */
  lemma SecondCreator(s: State, a: nat, b: nat, c: ConversationId, id: ResponseId)
    returns (states: seq<State>, steps: seq<Step>)
    requires CreatingAt(s, a) && s.tasks[a].pc == Admitting && s.tasks[a].conv == Some(c) && s.tasks[a].id !in s.records
    requires a != b && s.tasks[a].id != id && NewTask(s, b) && id !in s.used.ids
    requires c in s.convs && s.convs[c].active == Some(s.tasks[a].id) && s.convs[c].nextSeq < s.cap
    ensures IsPath(states, steps) && |steps| == 2 && states[0] == s && AboutToRace(states[2], a, b, c)
    ensures states[2].tasks[a] == s.tasks[a] && states[2].tasks[b].id == id
  {
    var t := Creating(id, s.convs[c].tenant, Some(c), true, AcquireFirst);
    var s1 := WithTask(s.(used := s.used.(ids := s.used.ids + {id})), b, t);
    var s2 := NextTryAcquire(s1, b, true, 0);
    states, steps := [s, s1, s2], [BeginCreate(b, id, t.tenant, Some(c), true), TryAcquire(b, true, 0)];
    assert StepAt(states, steps, 0) && StepAt(states, steps, 1);
  }

  /** So mutual exclusion fails in the protocol as it stands: no call fails in this run, and two turns are in flight. */
  lemma ExclusionFails(cap: nat, c: ConversationId, tenant: TenantId, id1: ResponseId, id2: ResponseId)
    returns (states: seq<State>, steps: seq<Step>)
    requires cap >= 2 && id1 != id2
    ensures IsRun(states, steps, cap) && TwoInFlight(states[|steps|], c, id1, id2)
  {
    states, steps := FirstCreator(cap, c, id1, tenant, 0);
    var states2, steps2 := SecondCreator(states[3], 0, 1, c, id2);
    var states3, steps3 := RacyTakeoverAdmitsTwo(states2[2], 0, 1, c);
    PathsJoin(states, steps, states2, steps2);
    states, steps := states + states2[1..], steps + steps2;
    PathsJoin(states, steps, states3, steps3);
    states, steps := states + states3[1..], steps + steps3;
  }

  /** A creator is about to give up on a stored response that the ledger accepted and nobody has ended. */
  ghost predicate AboutToWrong(s: State, a: nat, c: ConversationId) {
    && AboutToGiveUp(s, a, c) && s.convs[c].nextSeq == |s.convs[c].events|
    && Stored(s, s.tasks[a].id) && Hist(s.books.wins, s.tasks[a].id) == [] && !InSnapshot(s, c, s.tasks[a].id)
  }

  lemma Wrongs(s: State, a: nat, c: ConversationId)
    requires AboutToWrong(s, a, c)
    ensures Enabled(s, GiveBack(a, true, 0)) && Misreports(s, GiveBack(a, true, 0))
    ensures var s', id, n := NextGiveBack(s, a, true, 0), s.tasks[a].id, |s.convs[c].events|;
            && c in s'.convs && |s'.convs[c].events| == n + 1
            && s'.convs[c].events[n].kind == C.TurnCompleted(id, Failed)
            && LiveIn(s', c, id) && Stored(s', id) && !InSnapshot(s', c, id)
  {
  }

  lemma Unannounced(s: State, a: nat, c: ConversationId)
    requires CreatingAt(s, a) && s.tasks[a] == Creating(s.tasks[a].id, s.tasks[a].tenant, Some(c), true, Admitting)
    requires c in s.convs && s.convs[c].active == Some(s.tasks[a].id) && s.convs[c].tenant == s.tasks[a].tenant
    requires s.convs[c].nextSeq == |s.convs[c].events| < s.cap && s.convs[c].lastCompleted == None
    requires Hist(s.books.wins, s.tasks[a].id) == [] && s.tasks[a].id !in s.notes.archiveFailed
    requires s.tasks[a].id !in s.convs[c].snapshot.appended
    ensures var s1 := NextAdmit(s, a, Accepted, [], 0, 0);
            && CreatingAt(s1, a)
            && var s2 := WithTask(s1, a, s1.tasks[a].(pc := GivingBack));
               AboutToWrong(s2, a, c) && s2.tasks[a].id == s.tasks[a].id && s2.convs == s.convs
  {
  }

  /** The acceptance and the lost event, seen from a creator between its two calls. */
  lemma LosesCreated(s: State, a: nat, c: ConversationId) returns (states: seq<State>, steps: seq<Step>)
    requires CreatingAt(s, a) && s.tasks[a] == Creating(s.tasks[a].id, s.tasks[a].tenant, Some(c), true, Admitting)
    requires c in s.convs && s.convs[c].active == Some(s.tasks[a].id) && s.convs[c].tenant == s.tasks[a].tenant
    requires s.convs[c].nextSeq == |s.convs[c].events| < s.cap && s.convs[c].lastCompleted == None
    requires Hist(s.books.wins, s.tasks[a].id) == [] && s.tasks[a].id !in s.notes.archiveFailed
    requires s.tasks[a].id !in s.convs[c].snapshot.appended
    ensures IsPath(states, steps) && states[0] == s && steps == [Admit(a, Accepted, [], 0, 0), AppendCreated(a, false)]
    ensures AboutToWrong(states[2], a, c) && states[2].tasks[a].id == s.tasks[a].id && states[2].convs == s.convs
  {
    var s1 := NextAdmit(s, a, Accepted, [], 0, 0);
    var s2 := WithTask(s1, a, s1.tasks[a].(pc := GivingBack));
    states, steps := [s, s1, s2], [Admit(a, Accepted, [], 0, 0), AppendCreated(a, false)];
    Unannounced(s, a, c);
    assert StepAt(states, steps, 0) && StepAt(states, steps, 1);
  }

  /**
   Archive before announce fails with a lost `Created` event: this run ends with `TurnCompleted(Failed)` on the stream
   for a response that is accepted, to be stored, still live, and not in the snapshot.
   */
  lemma LostCreatedMisreports(cap: nat, c: ConversationId, tenant: TenantId, id: ResponseId)
    returns (states: seq<State>, steps: seq<Step>)
    requires cap >= 2
    ensures IsRun(states, steps, cap) && !Honest(states, steps, |steps|)
    ensures var s := states[|steps|];
            && c in s.convs && |s.convs[c].events| == 2 && s.convs[c].events[1].kind == C.TurnCompleted(id, Failed)
            && LiveIn(s, c, id) && Stored(s, id) && !InSnapshot(s, c, id)
  {
    states, steps := FirstCreator(cap, c, id, tenant, 0);
    var states2, steps2 := LosesCreated(states[3], 0, c);
    PathsJoin(states, steps, states2, steps2);
    states, steps := states + states2[1..], steps + steps2;
    var s := states[5];
    Wrongs(s, 0, c);
    PathStep(states, steps, GiveBack(0, true, 0));
    states, steps := states + [NextGiveBack(s, 0, true, 0)], steps + [GiveBack(0, true, 0)];
    assert StepAt(states, steps, 5) && MisreportsAt(states, steps, 5);
  }
}
