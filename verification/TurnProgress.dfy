/** Responses do get served: a funnel can be run to its end, and a whole run from the empty store ends with one. */
module TurnProgress {
  import opened Domain
  import opened TurnProtocol
  import opened TurnSafety
  import opened TurnAccounts
  import opened TurnRaces

  /** Nothing stands in the way of the funnel's calls. */
  predicate Unhindered(s: State, f: Funnel) {
    && f.id in s.records
    && (f.conv.Some? ==> Owned(s, f.conv, f.tenant) && (Release in f.plan ==> s.convs[f.conv.value].nextSeq < s.cap))
  }

  function ProceedStep(a: nat): Step {
    Proceed(a, true, [], None, 0)
  }

  /** The call succeeds and leaves the way clear for the next. */
  lemma CallSucceeds(s: State, f: Funnel)
    requires f.plan != [] && PlanOk(f.plan) && Shape(f) && Unhindered(s, f)
    ensures !Fails(s, f, true, 0)
    ensures Unhindered(Effect(s, f, true, [], None, 0), f.(plan := Rest(s, f, true)))
    ensures Effect(s, f, true, [], None, 0).trail.failed == s.trail.failed
  {
    assert f.plan[0] in f.plan;
    RestHas(s, f, true);
  }

  /** Task `a` has one response in hand, in order and unhindered. */
  ghost predicate Ready(s: State, a: nat) {
    && EndingAt(s, a) && |s.tasks[a].queue| == 1 && PlanOk(s.tasks[a].queue[0].plan)
    && Shape(s.tasks[a].queue[0]) && Unhindered(s, s.tasks[a].queue[0])
  }

  lemma ProceedsReady(s: State, a: nat)
    requires Ready(s, a) && s.tasks[a].queue[0].plan != []
    ensures var s', f := NextProceed(s, a, true, [], None, 0), s.tasks[a].queue[0];
            && Ready(s', a) && s'.tasks[a].queue[0].id == f.id && Work(s'.tasks[a].queue[0]) < Work(f)
            && s'.trail.failed == s.trail.failed
  {
    var f := s.tasks[a].queue[0];
    CallSucceeds(s, f);
    RestOk(s, f, true);
    RestHas(s, f, true);
    CallIsWork(s, f, true);
    assert [f.(plan := Rest(s, f, true))] + s.tasks[a].queue[1..] == [f.(plan := Rest(s, f, true))];
  }

  /** From there it is served, and nothing fails on the way. */
  lemma {:induction false} Serves(s: State, a: nat) returns (states: seq<State>, steps: seq<Step>)
    requires Ready(s, a)
    ensures IsPath(states, steps) && states[0] == s
    ensures var s' := states[|steps|]; s.tasks[a].queue[0].id in s'.trail.served && s'.trail.failed == s.trail.failed
    decreases Work(s.tasks[a].queue[0])
  {
    var s1 := NextProceed(s, a, true, [], None, 0);
    states, steps := [s, s1], [ProceedStep(a)];
    assert StepAt(states, steps, 0);
    if s.tasks[a].queue[0].plan != [] {
      ProceedsReady(s, a);
      var states2, steps2 := Serves(s1, a);
      PathsJoin(states, steps, states2, steps2);
      states, steps := states + states2[1..], steps + steps2;
    }
  }

  // ---- a whole run ----

  /** A creator in a conversation, about to have the first response of all accepted. */
  ghost predicate Entering(s: State, c: ConversationId, id: ResponseId, tenant: TenantId) {
    && s.tasks == map[0 := Creating(id, tenant, Some(c), true, Admitting)] && s.used.tasks == {0}
    && c in s.convs && s.convs[c].tenant == tenant && s.convs[c].nextSeq < s.cap
  }

  /** Accepted, announced and claimed by task 1. */
  lemma GetsClaimed(s: State, c: ConversationId, id: ResponseId, tenant: TenantId, input: seq<ResponseItem>)
    returns (states: seq<State>, steps: seq<Step>)
    requires Entering(s, c, id, tenant)
    ensures IsPath(states, steps) && states[0] == s && |steps| == 3
    ensures var s3 := states[3];
            && s3.convs == s.convs && s3.cap == s.cap && s3.trail.failed == s.trail.failed
            && ExecutingAt(s3, 1) && id in s3.records
            && var t := s3.tasks[1];
               && t.id == id && !t.fencePassed && !t.contextRead && t.rec == s3.records[id]
               && t.attempt == t.rec.attempt
               && t.rec.status == InProgress && t.rec.responseId == id && t.rec.tenant == tenant && t.rec.store
               && t.rec.anchor == InConversation(c) && t.rec.input == input
  {
    var s1 := NextAdmit(s, 0, Accepted, input, 0, 0);
    var s2 := Done(s1, 0);
    var s3 := NextClaim(s2, 1, id, 0);
    states, steps := [s, s1, s2, s3], [Admit(0, Accepted, input, 0, 0), AppendCreated(0, true), Claim(1, id, 0)];
    assert StepAt(states, steps, 0);
    assert StepAt(states, steps, 1);
    assert StepAt(states, steps, 2);
  }

  /** It reads its context and finishes. */
  lemma GetsFinished(s: State, c: ConversationId, usage: Usage) returns (states: seq<State>, steps: seq<Step>)
    requires ExecutingAt(s, 1) && !s.tasks[1].fencePassed && !s.tasks[1].contextRead
    requires s.tasks[1].id in s.records && s.tasks[1].rec == s.records[s.tasks[1].id]
    requires var t := s.tasks[1];
             && t.attempt == t.rec.attempt && t.rec.status == InProgress && t.rec.responseId == t.id && t.rec.store
             && t.rec.anchor == InConversation(c) && c in s.convs && s.convs[c].tenant == t.rec.tenant
             && s.convs[c].nextSeq < s.cap
    ensures IsPath(states, steps) && states[0] == s && |steps| == 2
    ensures var s2 := states[2];
            && Ready(s2, 1) && s2.tasks[1].queue[0].id == s.tasks[1].id && s2.trail.failed == s.trail.failed
  {
    var s1 := NextReadContext(s, 1, true);
    var s2 := NextEnd(s1, 1, ByComplete, Completed, usage, 0);
    states, steps := [s, s1, s2], [ReadContext(1, true), Finish(1, Completed, usage, 0)];
    assert StepAt(states, steps, 0);
    assert StepAt(states, steps, 1);
    FreshPlanOk(ByComplete, Some(c), true);
    FreshShape(s2.tasks[1].queue[0]);
  }

  /** A run from the empty store that ends with a response served, not one call having failed, for any ids and input. */
  lemma ServedHappens(
      cap: nat, c: ConversationId, id: ResponseId, tenant: TenantId, input: seq<ResponseItem>, usage: Usage)
    returns (states: seq<State>, steps: seq<Step>)
    requires cap >= 2
    ensures IsRun(states, steps, cap) && id in states[|steps|].trail.served && states[|steps|].trail.failed == {}
  {
    states, steps := FirstCreator(cap, c, id, tenant, 0);
    var states2, steps2 := GetsClaimed(states[3], c, id, tenant, input);
    PathsJoin(states, steps, states2, steps2);
    states, steps := states + states2[1..], steps + steps2;
    states2, steps2 := GetsFinished(states[6], c, usage);
    PathsJoin(states, steps, states2, steps2);
    states, steps := states + states2[1..], steps + steps2;
    states2, steps2 := Serves(states[8], 1);
    PathsJoin(states, steps, states2, steps2);
    states, steps := states + states2[1..], steps + steps2;
  }
}
