/**
 What every run of port calls keeps on one conversation: the stream is numbered and bounded,
 marker and stream tell the same story, and the snapshot is exactly the list of first commits.
 */
module ConversationRuns {
  import opened Domain
  import opened ConversationSpec

  datatype Call =
    | Acquire(id: ResponseId, at: nat)
    | Release(id: ResponseId, status: ResponseStatus, at: nat)
    | TakeOver(holder: ResponseId)
    | Append(kind: EventKind, at: nat)
    | Archive(id: ResponseId, commit: TurnCommit)
    | Move(id: ResponseId)

  datatype Committed = Committed(id: ResponseId, commit: TurnCommit)

  /** A conversation beside its history: who has acquired, and the first commit of each response. */
  datatype World = World(c: Conversation, acquired: set<ResponseId>, commits: seq<Committed>)

  /** Response ids are fresh, so an id that has acquired never asks again; boundaries are never appended directly. */
  predicate Legal(w: World, call: Call) {
    && (call.Acquire? ==> call.id !in w.acquired)
    && (call.Append? ==> !call.kind.IsBoundary())
  }

  function Next(w: World, call: Call, maxEvents: nat): World {
    match call
    case Acquire(r, at) =>
      var (c, out) := AcquireActive(w.c, r, at, maxEvents);
      w.(c := c, acquired := if out.Ok? then w.acquired + {r} else w.acquired)
    case Release(r, status, at) => w.(c := ReleaseActive(w.c, r, status, at, maxEvents).0)
    case TakeOver(h) => w.(c := ReleaseStale(w.c, h).0)
    case Append(kind, at) => w.(c := AppendEvent(w.c, kind, at, maxEvents).0)
    case Archive(r, commit) =>
      World(AppendTurn(w.c, r, commit).0, w.acquired,
            if r in w.c.snapshot.appended then w.commits else w.commits + [Committed(r, commit)])
    case Move(r) => w.(c := Advance(w.c, r))
  }

  function Run(w: World, calls: seq<Call>, maxEvents: nat): World
    decreases |calls|
  {
    if calls == [] then w else Run(Next(w, calls[0], maxEvents), calls[1..], maxEvents)
  }

  predicate LegalRun(w: World, calls: seq<Call>, maxEvents: nat)
    decreases |calls|
  {
    calls != [] ==> Legal(w, calls[0]) && LegalRun(Next(w, calls[0], maxEvents), calls[1..], maxEvents)
  }

  function Start(tenant: TenantId): World {
    World(Fresh(tenant), {}, [])
  }

  // ---- the stream and the marker ----

  ghost predicate Numbered(c: Conversation, maxEvents: nat) {
    && c.nextSeq == |c.events| <= maxEvents
    && forall i :: 0 <= i < |c.events| ==> c.events[i].no == i
  }

  ghost predicate StartedBefore(events: seq<Event>, r: ResponseId, i: int) {
    exists j :: 0 <= j < |events| && j < i && events[j].kind == TurnStarted(r)
  }

  /** A response starts at most once, completes at most once, and completes after it started. */
  ghost predicate Paired(events: seq<Event>) {
    && (forall i, j :: 0 <= i < j < |events| && events[i].kind.TurnStarted? && events[j].kind.TurnStarted? ==>
          events[i].kind.started != events[j].kind.started)
    && (forall i, j :: 0 <= i < j < |events| && events[i].kind.TurnCompleted? && events[j].kind.TurnCompleted? ==>
          events[i].kind.completed != events[j].kind.completed)
    && (forall i :: 0 <= i < |events| && events[i].kind.TurnCompleted? ==>
          StartedBefore(events, events[i].kind.completed, i))
  }

  /** A set marker is the last boundary of the stream, at `lockSeq`. */
  ghost predicate MarkerIsLastBoundary(c: Conversation) {
    c.active.Some? ==>
      && c.lockSeq.Some? && c.lockSeq.value < |c.events|
      && c.events[c.lockSeq.value].kind == TurnStarted(c.active.value)
      && forall i :: c.lockSeq.value < i < |c.events| ==> !c.events[i].kind.IsBoundary()
  }

  ghost predicate StreamInv(w: World, maxEvents: nat) {
    && Numbered(w.c, maxEvents)
    && Paired(w.c.events)
    && MarkerIsLastBoundary(w.c)
    && (forall i :: 0 <= i < |w.c.events| && w.c.events[i].kind.TurnStarted? ==>
          w.c.events[i].kind.started in w.acquired)
    && (w.c.active.Some? ==> w.c.active.value in w.acquired)
    && (w.c.lastCompleted.Some? ==>
          var (r, q) := w.c.lastCompleted.value;
          q < |w.c.events| && w.c.events[q].kind.TurnCompleted? && w.c.events[q].kind.completed == r)
  }

  /** The holder has no `TurnCompleted` yet, so the idempotent early return of release never strands a marker. */
  lemma HolderNotCompleted(w: World, maxEvents: nat)
    requires StreamInv(w, maxEvents) && w.c.active.Some?
    ensures forall i :: 0 <= i < |w.c.events| && w.c.events[i].kind.TurnCompleted? ==>
                          w.c.events[i].kind.completed != w.c.active.value
    ensures w.c.lastCompleted.Some? ==> w.c.lastCompleted.value.0 != w.c.active.value
  {
    var events, q := w.c.events, w.c.lockSeq.value;
    forall i | 0 <= i < |events| && events[i].kind.TurnCompleted?
      ensures events[i].kind.completed != w.c.active.value
    {
      assert events[i].kind.IsBoundary();
      assert i < q;
      var j :| 0 <= j < i && events[j].kind == TurnStarted(events[i].kind.completed);
      assert events[q].kind.TurnStarted?;
    }
  }

  /** Pushing an event keeps the stream paired if a start is new, and an end is new and has its start. */
  lemma PairedPush(events: seq<Event>, e: Event)
    requires Paired(events)
    requires e.kind.TurnStarted? ==>
               forall i :: 0 <= i < |events| && events[i].kind.TurnStarted? ==> events[i].kind.started != e.kind.started
    requires e.kind.TurnCompleted? ==>
               forall i :: 0 <= i < |events| && events[i].kind.TurnCompleted? ==>
                 events[i].kind.completed != e.kind.completed
    requires e.kind.TurnCompleted? ==> StartedBefore(events, e.kind.completed, |events|)
    ensures Paired(events + [e])
  {
    var after := events + [e];
    forall i | 0 <= i < |after| && after[i].kind.TurnCompleted?
      ensures StartedBefore(after, after[i].kind.completed, i)
    {
      var r := after[i].kind.completed;
      assert StartedBefore(events, r, i);
      var j :| 0 <= j < |events| && j < i && events[j].kind == TurnStarted(r);
      assert after[j].kind == TurnStarted(r);
    }
  }

  lemma StreamStep(w: World, call: Call, maxEvents: nat)
    requires StreamInv(w, maxEvents) && Legal(w, call)
    ensures StreamInv(Next(w, call, maxEvents), maxEvents)
  {
    var w' := Next(w, call, maxEvents);
    if |w'.c.events| != |w.c.events| {
      var e := w'.c.events[|w.c.events|];
      assert w'.c.events == w.c.events + [e];
      if call.Release? {
        HolderNotCompleted(w, maxEvents);
        assert w.c.events[w.c.lockSeq.value].kind == TurnStarted(call.id);
      }
      PairedPush(w.c.events, e);
    }
  }

  // ---- the snapshot ----

  function Flatten(commits: seq<Committed>): seq<ContextEntry> {
    if commits == [] then [] else Flatten(commits[..|commits| - 1]) + TurnEntries(commits[|commits| - 1].commit)
  }

  /** Entries are the commits in order, and `appended` is a bijection from committed ids onto `0..turns`. */
  ghost predicate SnapshotInv(w: World) {
    var s := w.c.snapshot;
    && s.entries == Flatten(w.commits)
    && s.turns == |w.commits|
    && (forall i :: 0 <= i < |w.commits| ==> w.commits[i].id in s.appended && s.appended[w.commits[i].id] == i)
    && (forall r :: r in s.appended ==> s.appended[r] < |w.commits| && w.commits[s.appended[r]].id == r)
  }

  lemma SnapshotStep(w: World, call: Call, maxEvents: nat)
    requires SnapshotInv(w)
    ensures SnapshotInv(Next(w, call, maxEvents))
    ensures w.c.snapshot.entries <= Next(w, call, maxEvents).c.snapshot.entries
    ensures w.commits <= Next(w, call, maxEvents).commits
  {
    var w' := Next(w, call, maxEvents);
    if w'.commits != w.commits {
      assert w'.commits[..|w'.commits| - 1] == w.commits;
    }
  }

  // ---- over whole runs ----

  lemma {:induction false} RunKeepsInv(w: World, calls: seq<Call>, maxEvents: nat)
    requires StreamInv(w, maxEvents) && SnapshotInv(w) && LegalRun(w, calls, maxEvents)
    ensures StreamInv(Run(w, calls, maxEvents), maxEvents) && SnapshotInv(Run(w, calls, maxEvents))
    ensures w.c.snapshot.entries <= Run(w, calls, maxEvents).c.snapshot.entries
    ensures w.commits <= Run(w, calls, maxEvents).commits
    decreases |calls|
  {
    if calls != [] {
      StreamStep(w, calls[0], maxEvents);
      SnapshotStep(w, calls[0], maxEvents);
      RunKeepsInv(Next(w, calls[0], maxEvents), calls[1..], maxEvents);
    }
  }

  lemma {:induction false} RunSplits(w: World, before: seq<Call>, after: seq<Call>, maxEvents: nat)
    ensures Run(w, before + after, maxEvents) == Run(Run(w, before, maxEvents), after, maxEvents)
    ensures LegalRun(w, before + after, maxEvents) ==>
              LegalRun(w, before, maxEvents) && LegalRun(Run(w, before, maxEvents), after, maxEvents)
    decreases |before|
  {
    if before == [] {
      assert before + after == after;
    } else {
      assert (before + after)[1..] == before[1..] + after;
      RunSplits(Next(w, before[0], maxEvents), before[1..], after, maxEvents);
    }
  }

  /** In every run from a fresh conversation the stream is numbered, bounded and paired, and agrees with the marker. */
  lemma StreamAndMarkerAgree(tenant: TenantId, calls: seq<Call>, maxEvents: nat)
    requires LegalRun(Start(tenant), calls, maxEvents)
    ensures var c := Run(Start(tenant), calls, maxEvents).c;
            Numbered(c, maxEvents) && Paired(c.events) && MarkerIsLastBoundary(c)
    ensures var c := Run(Start(tenant), calls, maxEvents).c;
            c.active.Some? && c.lastCompleted.Some? ==> c.lastCompleted.value.0 != c.active.value
  {
    RunKeepsInv(Start(tenant), calls, maxEvents);
    var w := Run(Start(tenant), calls, maxEvents);
    if w.c.active.Some? {
      HolderNotCompleted(w, maxEvents);
    }
  }

  /** The snapshot of every run is its list of first commits, and a later snapshot extends every earlier one. */
  lemma SnapshotIsFirstCommits(tenant: TenantId, before: seq<Call>, after: seq<Call>, maxEvents: nat)
    requires LegalRun(Start(tenant), before + after, maxEvents)
    ensures SnapshotInv(Run(Start(tenant), before + after, maxEvents))
    ensures var early, late := Run(Start(tenant), before, maxEvents), Run(Start(tenant), before + after, maxEvents);
            early.c.snapshot.entries <= late.c.snapshot.entries && early.commits <= late.commits
  {
    RunSplits(Start(tenant), before, after, maxEvents);
    RunKeepsInv(Start(tenant), before, maxEvents);
    RunKeepsInv(Run(Start(tenant), before, maxEvents), after, maxEvents);
  }

  lemma ReasoningInTurn(commit: TurnCommit, i: nat)
    requires i < |TurnEntries(commit)| && TurnEntries(commit)[i].reasoning.Some?
    ensures i == |commit.input| && commit.output != []
    ensures TurnEntries(commit)[i] == ContextEntry(commit.output[0], commit.reasoning)
  {
    assert |Plain(commit.input)| == |commit.input|;
  }

  /** Entry `p` of the history is the first output of turn `t`. */
  ghost predicate FirstOutputOf(commits: seq<Committed>, t: nat, p: nat) {
    t < |commits| && p == |Flatten(commits[..t])| + |commits[t].commit.input| && commits[t].commit.output != []
  }

  lemma {:induction false} ReasoningInHistory(commits: seq<Committed>, p: nat) returns (t: nat)
    requires p < |Flatten(commits)| && Flatten(commits)[p].reasoning.Some?
    ensures FirstOutputOf(commits, t, p)
    ensures Flatten(commits)[p] == ContextEntry(commits[t].commit.output[0], commits[t].commit.reasoning)
    decreases |commits|
  {
    var n := |commits| - 1;
    var before, last := Flatten(commits[..n]), commits[n].commit;
    if p < |before| {
      t := ReasoningInHistory(commits[..n], p);
      assert commits[..n][..t] == commits[..t];
    } else {
      t := n;
      ReasoningInTurn(last, p - |before|);
    }
  }

  /**
   After any run, an entry of the snapshot with reasoning is the first output of a turn, with that turn's reasoning.
   */
  lemma ReasoningOnFirstOutput(tenant: TenantId, calls: seq<Call>, maxEvents: nat, p: nat) returns (t: nat)
    requires LegalRun(Start(tenant), calls, maxEvents)
    requires var entries := Run(Start(tenant), calls, maxEvents).c.snapshot.entries;
             p < |entries| && entries[p].reasoning.Some?
    ensures var w := Run(Start(tenant), calls, maxEvents);
            && FirstOutputOf(w.commits, t, p)
            && w.c.snapshot.entries[p] == ContextEntry(w.commits[t].commit.output[0], w.commits[t].commit.reasoning)
  {
    RunKeepsInv(Start(tenant), calls, maxEvents);
    t := ReasoningInHistory(Run(Start(tenant), calls, maxEvents).commits, p);
  }

  // ---- the snapshot, entry by entry ----

  predicate ArchivedBy(calls: seq<Call>, r: ResponseId) {
    exists i :: 0 <= i < |calls| && calls[i].Archive? && calls[i].id == r
  }

  /** The first archive call of each response, in order. */
  function FirstArchives(calls: seq<Call>): seq<Committed> {
    if calls == [] then []
    else
      var init, last := calls[..|calls| - 1], calls[|calls| - 1];
      FirstArchives(init) +
      if last.Archive? && !ArchivedBy(init, last.id) then [Committed(last.id, last.commit)] else []
  }

  /** How many entries the first `t` turns have. */
  function Offset(commits: seq<Committed>, t: nat): nat
    requires t <= |commits|
  {
    if t == 0 then 0
    else Offset(commits, t - 1) + |commits[t - 1].commit.input| + |commits[t - 1].commit.output|
  }

  lemma {:induction false} OffsetOfPrefix(commits: seq<Committed>, n: nat, t: nat)
    requires t <= n <= |commits|
    ensures Offset(commits[..n], t) == Offset(commits, t)
  {
    if t > 0 {
      OffsetOfPrefix(commits, n, t - 1);
    }
  }

  /** Turn `t` stands at its offset: its input as it is, then its output, the reasoning with the first of it. */
  ghost predicate TurnAt(entries: seq<ContextEntry>, offset: nat, commit: TurnCommit) {
    var n := |commit.input|;
    && offset + n + |commit.output| <= |entries|
    && (forall i :: 0 <= i < n ==> entries[offset + i] == ContextEntry(commit.input[i], None))
    && (forall i :: 0 <= i < |commit.output| ==>
          entries[offset + n + i] == ContextEntry(commit.output[i], if i == 0 then commit.reasoning else None))
  }

  lemma EntriesOfTurn(before: seq<ContextEntry>, commit: TurnCommit)
    ensures TurnAt(before + TurnEntries(commit), |before|, commit)
    ensures |TurnEntries(commit)| == |commit.input| + |commit.output|
  {
    assert |Plain(commit.input)| == |commit.input|;
  }

  lemma TurnAtGrows(entries: seq<ContextEntry>, more: seq<ContextEntry>, offset: nat, commit: TurnCommit)
    requires TurnAt(entries, offset, commit)
    ensures TurnAt(entries + more, offset, commit)
  {
    var n := |commit.input|;
    forall i | 0 <= i < n ensures (entries + more)[offset + i] == ContextEntry(commit.input[i], None) {
      assert (entries + more)[offset + i] == entries[offset + i];
    }
    forall i | 0 <= i < |commit.output|
      ensures (entries + more)[offset + n + i] ==
              ContextEntry(commit.output[i], if i == 0 then commit.reasoning else None)
    {
      assert (entries + more)[offset + n + i] == entries[offset + n + i];
    }
  }

  lemma {:induction false} FlattenAt(commits: seq<Committed>, t: nat)
    requires t < |commits|
    ensures |Flatten(commits)| == Offset(commits, |commits|)
    ensures TurnAt(Flatten(commits), Offset(commits, t), commits[t].commit)
    decreases |commits|
  {
    var n := |commits| - 1;
    var before, last := Flatten(commits[..n]), commits[n].commit;
    if n > 0 {
      FlattenAt(commits[..n], if t < n then t else 0);
    }
    OffsetOfPrefix(commits, n, n);
    EntriesOfTurn(before, last);
    if t < n {
      OffsetOfPrefix(commits, n, t);
      TurnAtGrows(before, TurnEntries(last), Offset(commits, t), commits[t].commit);
    }
  }

  /** The snapshot lists exactly the responses that were archived. */
  lemma {:induction false} CommitsAreFirst(tenant: TenantId, calls: seq<Call>, maxEvents: nat)
    requires LegalRun(Start(tenant), calls, maxEvents)
    ensures var w := Run(Start(tenant), calls, maxEvents);
            && w.commits == FirstArchives(calls)
            && forall r :: r in w.c.snapshot.appended <==> ArchivedBy(calls, r)
    decreases |calls|
  {
    if calls != [] {
      var init, last := calls[..|calls| - 1], calls[|calls| - 1];
      assert calls == init + [last];
      RunSplits(Start(tenant), init, [last], maxEvents);
      CommitsAreFirst(tenant, init, maxEvents);
      var w := Run(Start(tenant), init, maxEvents);
      RunOne(w, last, maxEvents);
      forall r ensures ArchivedBy(calls, r) <==> ArchivedBy(init, r) || (last.Archive? && last.id == r) {
        ArchivedPush(init, last, r);
      }
      AppendedStep(w, last, maxEvents);
    }
  }

  lemma RunOne(w: World, call: Call, maxEvents: nat)
    ensures Run(w, [call], maxEvents) == Next(w, call, maxEvents)
  {
    assert [call][1..] == [];
  }

  lemma ArchivedPush(init: seq<Call>, last: Call, r: ResponseId)
    ensures ArchivedBy(init + [last], r) <==> ArchivedBy(init, r) || (last.Archive? && last.id == r)
  {
    var calls := init + [last];
    if ArchivedBy(init, r) {
      var i :| 0 <= i < |init| && init[i].Archive? && init[i].id == r;
      assert calls[i] == init[i];
    }
    if last.Archive? && last.id == r {
      assert calls[|init|] == last;
    }
  }

  lemma AppendedStep(w: World, call: Call, maxEvents: nat)
    ensures forall r :: r in Next(w, call, maxEvents).c.snapshot.appended <==>
              r in w.c.snapshot.appended || (call.Archive? && call.id == r)
  {
  }

  /**
   After any run the snapshot is, turn by turn, what the first archive call of each response gave: its input, then its
   output, item by item, and nothing else; and each response has the number of its turn.
   */
  lemma SnapshotExactly(tenant: TenantId, calls: seq<Call>, maxEvents: nat, t: nat)
    requires LegalRun(Start(tenant), calls, maxEvents) && t < |FirstArchives(calls)|
    ensures var snapshot, commits := Run(Start(tenant), calls, maxEvents).c.snapshot, FirstArchives(calls);
            && TurnAt(snapshot.entries, Offset(commits, t), commits[t].commit)
            && |snapshot.entries| == Offset(commits, |commits|) && snapshot.turns == |commits|
            && commits[t].id in snapshot.appended && snapshot.appended[commits[t].id] == t
  {
    RunKeepsInv(Start(tenant), calls, maxEvents);
    CommitsAreFirst(tenant, calls, maxEvents);
    FlattenAt(FirstArchives(calls), t);
  }

  // ---- what the calls answer ----

  /** The conversation with one more event on its stream. */
  predicate Gains(c: Conversation, c': Conversation, kind: EventKind, now: nat) {
    c'.events == c.events + [Event(|c.events|, kind, now)] && c'.snapshot == c.snapshot && c'.tail == c.tail
  }

  /** After any run: a free marker is taken and announced at the next number, a holder is told where it started. */
  lemma AcquireExactly(tenant: TenantId, calls: seq<Call>, maxEvents: nat, r: ResponseId, now: nat)
    requires LegalRun(Start(tenant), calls, maxEvents)
    ensures var c := Run(Start(tenant), calls, maxEvents).c;
            var (c', out) := AcquireActive(c, r, now, maxEvents);
            if c.active == None && |c.events| < maxEvents
            then out == Ok(|c.events|) && c'.active == Some(r) && Gains(c, c', TurnStarted(r), now)
            else if c.active == None then out == Err(CapacityExceeded) && c' == c
            else if c.active == Some(r)
            then out.Ok? && out.value < |c.events| && c.events[out.value].kind == TurnStarted(r) && c' == c
            else out == Err(Busy(c.active.value)) && c' == c
  {
    StreamAndMarkerAgree(tenant, calls, maxEvents);
  }

  /** And a holder that releases is announced at the next number, however often anybody has released before. */
  lemma ReleaseExactly(
      tenant: TenantId, calls: seq<Call>, maxEvents: nat, r: ResponseId, status: ResponseStatus, now: nat)
    requires LegalRun(Start(tenant), calls, maxEvents)
    ensures var c := Run(Start(tenant), calls, maxEvents).c;
            var (c', out) := ReleaseActive(c, r, status, now, maxEvents);
            if c.active != Some(r) then out == Ok(0) && c' == c
            else if |c.events| >= maxEvents then out == Err(CapacityExceeded) && c' == c
            else out == Ok(|c.events|) && c'.active == None && Gains(c, c', TurnCompleted(r, status), now)
  {
    StreamAndMarkerAgree(tenant, calls, maxEvents);
  }
}
