/**
 What holds in every run of the turn protocol, clean or not: one winner per response, one archive call,
 one terminal event, one claim, and all of them agree.
 */
module TurnSafety {
  import opened Domain
  import L = LedgerSpec
  import opened TurnProtocol

  // ---- the invariant ----

  /** Each way of ending a response fixes the statuses it can write. */
  predicate Fits(w: Win) {
    match w.via
    case ByComplete => w.status == Completed || w.status == Incomplete
    case ByCancel => w.status == Cancelled
    case _ => w.status == Failed
  }

  ghost predicate HistoryOk(s: State, r: ResponseId) {
    var wins, archives, ends := Hist(s.books.wins, r), Hist(s.books.archives, r), Hist(s.books.ends, r);
    var claims, fenced := Hist(s.books.claims, r), Hist(s.books.fenced, r);
    && |wins| <= 1 && (wins != [] ==> r in s.books.accepted && Fits(wins[0]))
    && |archives| <= 1 && (archives != [] ==> wins != [] && archives[0] == wins[0].status)
    && |ends| <= 1 && (ends != [] ==> wins != [] && ends[0] == EndEventOf(wins[0].via, wins[0].status))
    && |claims| <= 1 && (claims != [] ==> r in s.books.accepted && claims[0] == 1)
    && (forall i :: 0 <= i < |fenced| ==> claims == [fenced[i]])
    && (r in s.books.accepted ==> r in s.used.ids)
  }

  /** A record is live exactly while nobody has won it, and a terminal record shows what its winner wrote. */
  ghost predicate RecordOk(s: State, r: ResponseId)
    requires r in s.records
  {
    var rec, wins := s.records[r], Hist(s.books.wins, r);
    && rec.responseId == r
    && r in s.books.accepted && s.books.accepted[r] == Spec(rec.anchor.ConversationOf(), rec.store)
    && (rec.Live() <==> wins == [])
    && (wins != [] ==> wins[0].status == rec.status)
    && (rec.status == Queued ==> Hist(s.books.claims, r) == [] && rec.attempt == L.UNCLAIMED)
    && rec.attempt <= 2 && (rec.status == InProgress ==> rec.attempt == 1)
  }

  /** No call is planned twice, and a planned archive comes before a planned release and before the tail moves. */
  predicate PlanOk(plan: seq<Op>) {
    && (forall i, j :: 0 <= i < j < |plan| ==> plan[i] != plan[j])
    && (forall i, j :: 0 <= i < j < |plan| && plan[i] == Release ==> plan[j] != Archive)
    && (ReadBack in plan ==> plan[0] == ReadBack && Announce in plan)
    && (Archive in plan ==> MoveTail !in plan)
  }

  ghost predicate FunnelOk(s: State, a: nat, f: Funnel) {
    && Hist(s.books.wins, f.id) == [Win(f.status, f.via, a)]
    && f.id in s.books.accepted && s.books.accepted[f.id] == Spec(f.conv, f.store)
    && PlanOk(f.plan)
    && (Archive in f.plan ==> Hist(s.books.archives, f.id) == [])
    && (Announce in f.plan ==> Hist(s.books.ends, f.id) == [])
  }

  ghost predicate QueueOk(s: State, a: nat, q: seq<Funnel>) {
    && (forall i :: 0 <= i < |q| ==> FunnelOk(s, a, q[i]))
    && (forall i, j :: 0 <= i < j < |q| ==> q[i].id != q[j].id)
  }

  ghost predicate TaskOk(s: State, a: nat)
    requires a in s.tasks
  {
    a in s.used.tasks &&
    match s.tasks[a]
    case Creating(id, _, _, _, pc) => id in s.used.ids && (pc.Undecided() ==> id !in s.books.accepted)
    case Executing(id, attempt, rec, _, _) =>
      && rec.responseId == id
      && id in s.books.accepted && s.books.accepted[id] == Spec(rec.anchor.ConversationOf(), rec.store)
      && Hist(s.books.claims, id) == [attempt]
    case Ending(q) => QueueOk(s, a, q)
  }

  /** Only one creator was ever given an id. */
  ghost predicate CreatorsDistinct(s: State) {
    forall a, b :: CreatingAt(s, a) && CreatingAt(s, b) && s.tasks[a].id == s.tasks[b].id ==> a == b
  }

  ghost predicate Inv(s: State) {
    && (forall r :: HistoryOk(s, r))
    && (forall r :: r in s.records ==> RecordOk(s, r))
    && (forall a :: a in s.tasks ==> TaskOk(s, a))
    && CreatorsDistinct(s)
  }

  /** A deleted record never returns, its fence never drops, and a terminal record never changes again. */
  ghost predicate Continues(s: State, s': State, r: ResponseId) {
    && (r in s.books.accepted ==> r in s'.books.accepted)
    && (r in s'.records && r in s.books.accepted ==>
          && r in s.records && s.records[r].attempt <= s'.records[r].attempt
          && (s.records[r].status.IsTerminal() ==> s'.records[r] == s.records[r]))
  }

  /** What one step owes: the invariant, and continuity for every response. */
  ghost predicate Goes(s: State, s': State) {
    Inv(s') && forall r :: Continues(s, s', r)
  }

  // ---- preservation ----

  /** The steps that touch neither records nor history. */
  ghost predicate SameBooks(s: State, s': State) {
    && s'.records == s.records && s'.books == s.books
    && s.used.ids <= s'.used.ids && s.used.tasks <= s'.used.tasks
  }

  /** Every task but `a` is as it was, and a creator at `a` keeps its id or has a new one. */
  ghost predicate OnlyTask(s: State, s': State, a: nat) {
    && (forall b :: b in s'.tasks && b != a ==> b in s.tasks && s'.tasks[b] == s.tasks[b])
    && (CreatingAt(s', a) ==> (CreatingAt(s, a) && s.tasks[a].id == s'.tasks[a].id) || s'.tasks[a].id !in s.used.ids)
  }

  lemma KeepsBooks(s: State, s': State, a: nat)
    requires Inv(s) && SameBooks(s, s') && OnlyTask(s, s', a)
    requires a in s'.tasks && (a in s.tasks ==> s'.tasks[a] != s.tasks[a]) ==> TaskOk(s', a)
    ensures Goes(s, s')
  {
    forall r ensures HistoryOk(s', r) { assert HistoryOk(s, r); }
    forall r | r in s'.records ensures RecordOk(s', r) { assert RecordOk(s, r); }
    forall b | b in s'.tasks ensures TaskOk(s', b) {
      if b in s.tasks && s'.tasks[b] == s.tasks[b] {
        assert TaskOk(s, b);
        if s.tasks[b].Ending? {
          forall i | 0 <= i < |s.tasks[b].queue| ensures FunnelOk(s', b, s.tasks[b].queue[i]) {
            assert FunnelOk(s, b, s.tasks[b].queue[i]);
          }
        }
      }
    }
    forall b, c | CreatingAt(s', b) && CreatingAt(s', c) && s'.tasks[b].id == s'.tasks[c].id ensures b == c {
      assert b != a ==> TaskOk(s, b);
      assert c != a ==> TaskOk(s, c);
    }
  }

  lemma OnStores(s: State, s': State)
    requires Inv(s) && SameBooks(s, s') && s'.tasks == s.tasks
    ensures Goes(s, s')
  {
    KeepsBooks(s, s', 0);
  }

  lemma OnStop(s: State, a: nat)
    requires Inv(s)
    ensures Goes(s, Done(s, a))
  {
    KeepsBooks(s, Done(s, a), a);
  }

  lemma OnBegin(s: State, a: nat, t: Task)
    requires Inv(s) && NewTask(s, a) && t.Creating? && t.id !in s.used.ids
    ensures Goes(s, WithTask(s.(used := s.used.(ids := s.used.ids + {t.id})), a, t))
  {
    assert HistoryOk(s, t.id);
    KeepsBooks(s, WithTask(s.(used := s.used.(ids := s.used.ids + {t.id})), a, t), a);
  }

  /** A creator moves on without the ledger's answer changing. */
  lemma OnCreator(s: State, s': State, a: nat, pc: CreatePc)
    requires Inv(s) && CreatingAt(s, a) && (pc.Undecided() ==> s.tasks[a].pc.Undecided())
    requires SameBooks(s, s')
    requires s'.tasks == s.tasks[a := s.tasks[a].(pc := pc)] || s'.tasks == s.tasks - {a}
    ensures Goes(s, s')
  {
    assert TaskOk(s, a);
    KeepsBooks(s, s', a);
  }

  lemma OnExecutor(s: State, s': State, a: nat, t: Task)
    requires Inv(s) && ExecutingAt(s, a)
    requires t.Executing? && t.id == s.tasks[a].id && t.rec == s.tasks[a].rec && t.attempt == s.tasks[a].attempt
    requires SameBooks(s, s') && s'.tasks == s.tasks[a := t]
    ensures Goes(s, s')
  {
    assert TaskOk(s, a);
    KeepsBooks(s, s', a);
  }

  /** The books of one response are as they were. */
  ghost predicate SameAt(s: State, s': State, q: ResponseId) {
    && Hist(s'.books.wins, q) == Hist(s.books.wins, q) && Hist(s'.books.archives, q) == Hist(s.books.archives, q)
    && Hist(s'.books.ends, q) == Hist(s.books.ends, q) && Hist(s'.books.claims, q) == Hist(s.books.claims, q)
    && Hist(s'.books.fenced, q) == Hist(s.books.fenced, q)
    && (q in s'.records <==> q in s.records) && (q in s.records ==> s'.records[q] == s.records[q])
    && (q in s'.books.accepted <==> q in s.books.accepted)
    && (q in s.books.accepted ==> s'.books.accepted[q] == s.books.accepted[q])
  }

  ghost predicate SameBooksExcept(s: State, s': State, r: ResponseId) {
    && (forall q :: q != r ==> SameAt(s, s', q))
    && s'.used.ids == s.used.ids && s.used.tasks <= s'.used.tasks
  }

  /** `b` works for `r`: it executes it, is about to have it accepted, or has a funnel for it. */
  ghost predicate WorksFor(s: State, b: nat, r: ResponseId)
    requires b in s.tasks
  {
    match s.tasks[b]
    case Creating(id, _, _, _, pc) => id == r && pc.Undecided()
    case Executing(id, _, _, _, _) => id == r
    case Ending(q) => exists i :: 0 <= i < |q| && q[i].id == r
  }

  lemma KeepsTask(s: State, s': State, b: nat, r: ResponseId)
    requires b in s.tasks && TaskOk(s, b) && !WorksFor(s, b, r)
    requires SameBooksExcept(s, s', r) && b in s'.tasks && s'.tasks[b] == s.tasks[b]
    ensures TaskOk(s', b)
  {
    if s.tasks[b].Ending? {
      var q := s.tasks[b].queue;
      forall i | 0 <= i < |q| ensures FunnelOk(s', b, q[i]) {
        assert FunnelOk(s, b, q[i]) && q[i].id != r && SameAt(s, s', q[i].id);
      }
    } else if s.tasks[b].id != r {
      assert SameAt(s, s', s.tasks[b].id);
    }
  }

  lemma KeepsOthers(s: State, s': State, a: nat, r: ResponseId)
    requires Inv(s) && SameBooksExcept(s, s', r) && OnlyTask(s, s', a)
    requires a in s'.tasks ==> TaskOk(s', a)
    requires HistoryOk(s', r) && (r in s'.records ==> RecordOk(s', r)) && Continues(s, s', r)
    requires forall b :: b in s'.tasks && b != a && WorksFor(s, b, r) ==> TaskOk(s', b)
    ensures Goes(s, s')
  {
    forall q ensures Continues(s, s', q) { assert q != r ==> SameAt(s, s', q); }
    forall q ensures HistoryOk(s', q) { assert HistoryOk(s, q) && (q != r ==> SameAt(s, s', q)); }
    forall q | q in s'.records ensures RecordOk(s', q) { if q != r { assert SameAt(s, s', q) && RecordOk(s, q); } }
    forall b | b in s'.tasks ensures TaskOk(s', b) {
      if b != a && !WorksFor(s, b, r) {
        assert TaskOk(s, b);
        KeepsTask(s, s', b, r);
      }
    }
    forall b, c | CreatingAt(s', b) && CreatingAt(s', c) && s'.tasks[b].id == s'.tasks[c].id ensures b == c {
      assert b != a ==> TaskOk(s, b);
      assert c != a ==> TaskOk(s, c);
    }
  }

  lemma OnDelete(s: State, r: ResponseId)
    requires Inv(s) && r in s.records
    ensures Goes(s, s.(records := s.records - {r}))
  {
    var s' := s.(records := s.records - {r});
    forall q ensures HistoryOk(s', q) { assert HistoryOk(s, q); }
    forall q | q in s'.records ensures RecordOk(s', q) { assert RecordOk(s, q); }
    forall b | b in s'.tasks ensures TaskOk(s', b) {
      assert TaskOk(s, b);
      if s.tasks[b].Ending? {
        forall i | 0 <= i < |s.tasks[b].queue| ensures FunnelOk(s', b, s.tasks[b].queue[i]) {
          assert FunnelOk(s, b, s.tasks[b].queue[i]);
        }
      }
    }
  }

  lemma OnAdmit(s: State, a: nat, answer: Answer, input: seq<ResponseItem>, now: nat, retention: nat)
    requires Inv(s) && CreatingAt(s, a) && s.tasks[a].pc == Admitting
    ensures Goes(s, NextAdmit(s, a, answer, input, now, retention))
  {
    var s', r := NextAdmit(s, a, answer, input, now, retention), s.tasks[a].id;
    assert TaskOk(s, a) && HistoryOk(s, r);
    if answer != Refused {
      forall b | b in s.tasks && b != a ensures !WorksFor(s, b, r) { assert TaskOk(s, b); }
      KeepsOthers(s, s', a, r);
    } else {
      KeepsBooks(s, s', a);
    }
  }

  lemma OnClaim(s: State, a: nat, r: ResponseId, agent: AgentId)
    requires Inv(s) && NewTask(s, a) && r in s.records && s.records[r].status == Queued
    ensures Goes(s, NextClaim(s, a, r, agent))
  {
    var s' := NextClaim(s, a, r, agent);
    assert RecordOk(s, r) && HistoryOk(s, r);
    forall b | b in s.tasks ensures b != a && !WorksFor(s, b, r) { assert TaskOk(s, b); }
    KeepsOthers(s, s', a, r);
  }

  lemma KeepsIfUnfenced(s: State, s': State, b: nat)
    requires b in s.tasks && TaskOk(s, b) && b in s'.tasks && s'.tasks[b] == s.tasks[b]
    requires s.used.tasks <= s'.used.tasks && s'.used.ids == s.used.ids
    requires s'.books.accepted == s.books.accepted && s'.books.wins == s.books.wins
    requires s'.books.archives == s.books.archives
    requires s'.books.ends == s.books.ends && s'.books.claims == s.books.claims
    ensures TaskOk(s', b)
  {
    if s.tasks[b].Ending? {
      forall i | 0 <= i < |s.tasks[b].queue| ensures FunnelOk(s', b, s.tasks[b].queue[i]) {
        assert FunnelOk(s, b, s.tasks[b].queue[i]);
      }
    }
  }

  lemma OnPush(s: State, a: nat, up: bool)
    requires Inv(s) && ExecutingAt(s, a)
    ensures Goes(s, NextPushFenced(s, a, up))
  {
    var s', r := NextPushFenced(s, a, up), s.tasks[a].id;
    assert TaskOk(s, a);
    if up {
      assert HistoryOk(s', r) by {
        assert HistoryOk(s, r);
      }
      assert r in s'.records ==> RecordOk(s, r);
      forall b | b in s'.tasks && b != a ensures TaskOk(s', b) {
        KeepsIfUnfenced(s, s', b);
      }
      KeepsOthers(s, s', a, r);
    } else {
      OnExecutor(s, s', a, s.tasks[a].(fencePassed := false));
    }
  }

  /** The plan a funnel starts with is in order. */
  lemma FreshPlanOk(via: Via, conv: Option<ConversationId>, store: bool)
    ensures PlanOk(Plan(via, conv, store))
  {
  }

  /** A task may take the win of a live record with this funnel. */
  ghost predicate Winnable(s: State, a: nat, rec: ResponseRecord, f: Funnel) {
    && f.id in s.records && s.records[f.id].Live()
    && rec.responseId == f.id && rec.status == f.status && rec.status.IsTerminal()
    && f.id in s.books.accepted
    && s.books.accepted[f.id] == Spec(f.conv, f.store) == Spec(rec.anchor.ConversationOf(), rec.store)
    && f.plan == Plan(f.via, f.conv, f.store) && Fits(Win(f.status, f.via, a))
    && s.records[f.id].attempt <= rec.attempt <= 2
  }

  ghost predicate WonBooks(s: State, s': State, a: nat, rec: ResponseRecord, f: Funnel) {
    && f.id in s'.records && s'.records[f.id] == rec
    && Hist(s'.books.wins, f.id) == Hist(s.books.wins, f.id) + [Win(f.status, f.via, a)]
    && Hist(s'.books.archives, f.id) == Hist(s.books.archives, f.id)
    && Hist(s'.books.ends, f.id) == Hist(s.books.ends, f.id)
    && Hist(s'.books.claims, f.id) == Hist(s.books.claims, f.id)
    && Hist(s'.books.fenced, f.id) == Hist(s.books.fenced, f.id)
    && s'.books.accepted == s.books.accepted && s'.used.ids == s.used.ids
  }

  /** Winning a live record: it has no earlier winner, so the winner's funnel is the only one there will be. */
  lemma WinIsFirst(s: State, s': State, a: nat, rec: ResponseRecord, f: Funnel)
    requires Winnable(s, a, rec, f) && RecordOk(s, f.id) && HistoryOk(s, f.id) && WonBooks(s, s', a, rec, f)
    ensures HistoryOk(s', f.id) && RecordOk(s', f.id) && FunnelOk(s', a, f)
  {
    FreshPlanOk(f.via, f.conv, f.store);
  }

  /** The tasks already working for a live response are executors, and a win leaves them as they are. */
  lemma WorkersOfLive(s: State, s': State, b: nat, r: ResponseId)
    requires b in s.tasks && TaskOk(s, b) && WorksFor(s, b, r)
    requires r in s.records && RecordOk(s, r) && s.records[r].Live()
    requires b in s'.tasks && s'.tasks[b] == s.tasks[b] && s.used.tasks <= s'.used.tasks
    requires s'.books.accepted == s.books.accepted && Hist(s'.books.claims, r) == Hist(s.books.claims, r)
    ensures TaskOk(s', b)
  {
  }

  lemma OnWin(s: State, s': State, a: nat, rec: ResponseRecord, f: Funnel)
    requires Inv(s) && Winnable(s, a, rec, f)
    requires NewTask(s, a) || (ExecutingAt(s, a) && s.tasks[a].id == f.id)
    requires s' == WithTask(s, a, Ending([f]))
                     .(records := s.records[f.id := rec],
                       books := s.books.(wins := Log(s.books.wins, f.id, Win(f.status, f.via, a))))
    ensures Goes(s, s')
  {
    assert RecordOk(s, f.id) && HistoryOk(s, f.id);
    WinIsFirst(s, s', a, rec, f);
    forall b | b in s'.tasks && b != a && WorksFor(s, b, f.id) ensures TaskOk(s', b) {
      WorkersOfLive(s, s', b, f.id);
    }
    KeepsOthers(s, s', a, f.id);
  }

  // ---- the sweeper ends several responses at once ----

  ghost predicate ReapedAt(s: State, s': State, a: nat, r: ResponseId, now: nat) {
    && r in s.records && r in s'.records && s'.records[r] == L.Aborted(s.records[r], Failed, now)
    && WonBooks(s, s', a, s'.records[r], FunnelOf(s.records[r], ByReap, Failed))
  }

  lemma ReapBooks(s: State, a: nat, lost: seq<ResponseId>, now: nat, r: ResponseId)
    requires Inv(s) && NewTask(s, a) && Reapable(s, lost)
    ensures r in lost ==> ReapedAt(s, NextReap(s, a, lost, now), a, r, now)
    ensures r !in lost ==> SameAt(s, NextReap(s, a, lost, now), r)
  {
    assert HistoryOk(s, r);
    if r in lost {
      assert RecordOk(s, r);
    }
  }

  lemma ReapFunnel(s: State, s': State, a: nat, r: ResponseId, now: nat)
    requires ReapedAt(s, s', a, r, now) && s.records[r].status == InProgress && RecordOk(s, r) && HistoryOk(s, r)
    ensures HistoryOk(s', r) && RecordOk(s', r) && FunnelOk(s', a, FunnelOf(s.records[r], ByReap, Failed))
  {
    WinIsFirst(s, s', a, s'.records[r], FunnelOf(s.records[r], ByReap, Failed));
  }

  lemma ReapTask(s: State, a: nat, lost: seq<ResponseId>, now: nat, b: nat)
    requires Inv(s) && NewTask(s, a) && Reapable(s, lost) && b in s.tasks
    ensures TaskOk(NextReap(s, a, lost, now), b)
  {
    var s' := NextReap(s, a, lost, now);
    assert TaskOk(s, b);
    if s.tasks[b].Ending? {
      forall i | 0 <= i < |s.tasks[b].queue| ensures FunnelOk(s', b, s.tasks[b].queue[i]) {
        var f := s.tasks[b].queue[i];
        assert FunnelOk(s, b, f);
        assert f.id !in lost by {
          assert f.id in s.records ==> RecordOk(s, f.id);
        }
        ReapBooks(s, a, lost, now, f.id);
      }
    }
  }

  lemma ReapedOk(s: State, a: nat, lost: seq<ResponseId>, now: nat, r: ResponseId)
    requires Inv(s) && NewTask(s, a) && Reapable(s, lost)
    ensures var s' := NextReap(s, a, lost, now);
            HistoryOk(s', r) && (r in s'.records ==> RecordOk(s', r)) && Continues(s, s', r)
    ensures r in lost ==> FunnelOk(NextReap(s, a, lost, now), a, FunnelOf(s.records[r], ByReap, Failed))
  {
    ReapBooks(s, a, lost, now, r);
    assert HistoryOk(s, r) && (r in s.records ==> RecordOk(s, r));
    if r in lost {
      ReapFunnel(s, NextReap(s, a, lost, now), a, r, now);
    }
  }

  lemma ReaperOk(s: State, a: nat, lost: seq<ResponseId>, now: nat)
    requires Inv(s) && NewTask(s, a) && Reapable(s, lost)
    ensures TaskOk(NextReap(s, a, lost, now), a)
  {
    var s' := NextReap(s, a, lost, now);
    var q := s'.tasks[a].queue;
    forall i | 0 <= i < |q| ensures FunnelOk(s', a, q[i]) && q[i].id == lost[i] {
      ReapedOk(s, a, lost, now, lost[i]);
      assert RecordOk(s, lost[i]) && q[i] == FunnelOf(s.records[lost[i]], ByReap, Failed);
    }
    assert QueueOk(s', a, q);
  }

  lemma OnReap(s: State, a: nat, lost: seq<ResponseId>, now: nat)
    requires Inv(s) && NewTask(s, a) && Reapable(s, lost)
    ensures Goes(s, NextReap(s, a, lost, now))
  {
    var s' := NextReap(s, a, lost, now);
    forall r ensures HistoryOk(s', r) && (r in s'.records ==> RecordOk(s', r)) && Continues(s, s', r) {
      ReapedOk(s, a, lost, now, r);
    }
    ReaperOk(s, a, lost, now);
    forall b | b in s.tasks ensures TaskOk(s', b) {
      ReapTask(s, a, lost, now, b);
    }
    assert a !in s.tasks by {
      assert a in s.tasks ==> TaskOk(s, a);
    }
  }

  // ---- a funnel makes its next call ----

  /** Whatever the call returns, the remaining plan stays in order and never gains an archive or an announcement. */
  lemma RestOk(s: State, f: Funnel, up: bool)
    requires PlanOk(f.plan) && f.plan != []
    ensures PlanOk(Rest(s, f, up))
    ensures Archive in Rest(s, f, up) ==> Archive in f.plan && f.plan[0] != Archive
    ensures Announce in Rest(s, f, up) ==> Announce in f.plan && f.plan[0] != Announce
  {
  }

  lemma CallKeepsFunnel(s: State, s': State, a: nat, f: Funnel, up: bool, rest: seq<Op>)
    requires f.plan != [] && FunnelOk(s, a, f) && HistoryOk(s, f.id)
    requires s'.books == BooksAfter(s.books, f, up) && s'.used.ids == s.used.ids
    requires PlanOk(rest)
    requires Archive in rest ==> Archive in f.plan && f.plan[0] != Archive
    requires Announce in rest ==> Announce in f.plan && f.plan[0] != Announce
    ensures HistoryOk(s', f.id) && FunnelOk(s', a, f.(plan := rest))
  {
    assert f.plan[0] in f.plan;
  }

  /** A response has one winner, so no other task has a funnel for it. */
  lemma OthersInCall(s: State, s': State, a: nat, b: nat, f: Funnel, up: bool)
    requires f.plan != [] && FunnelOk(s, a, f) && s'.books == BooksAfter(s.books, f, up)
    requires b in s.tasks && b != a && TaskOk(s, b) && WorksFor(s, b, f.id)
    requires b in s'.tasks && s'.tasks[b] == s.tasks[b] && s'.used.ids == s.used.ids && s.used.tasks <= s'.used.tasks
    ensures TaskOk(s', b)
  {
  }

  lemma RestOfQueue(s: State, s': State, a: nat, q: seq<Funnel>, f': Funnel, up: bool)
    requires q != [] && q[0].plan != [] && QueueOk(s, a, q) && s'.books == BooksAfter(s.books, q[0], up)
    requires f'.id == q[0].id && FunnelOk(s', a, f')
    ensures QueueOk(s', a, [f'] + q[1..])
  {
    var q' := [f'] + q[1..];
    forall i | 0 <= i < |q'| ensures FunnelOk(s', a, q'[i]) {
      if i > 0 {
        assert q'[i] == q[i] && FunnelOk(s, a, q[i]) && q[i].id != q[0].id;
      }
    }
  }

  lemma CallSameBooks(s: State, s': State, f: Funnel, up: bool)
    requires f.plan != [] && s'.books == BooksAfter(s.books, f, up) && s'.records == s.records
    requires s'.used.ids == s.used.ids && s.used.tasks <= s'.used.tasks
    ensures SameBooksExcept(s, s', f.id)
  {
  }

  lemma OnCall(s: State, s': State, a: nat, up: bool)
    requires Inv(s) && a in s.tasks && s.tasks[a].Ending? && s.tasks[a].queue != [] && s.tasks[a].queue[0].plan != []
    requires var q := s.tasks[a].queue;
             && s'.tasks == s.tasks[a := Ending([q[0].(plan := Rest(s, q[0], up))] + q[1..])]
             && s'.books == BooksAfter(s.books, q[0], up) && s'.records == s.records
    requires s'.used.ids == s.used.ids && s.used.tasks <= s'.used.tasks
    ensures Goes(s, s')
  {
    var q := s.tasks[a].queue;
    var f := q[0];
    assert TaskOk(s, a) && FunnelOk(s, a, f) && HistoryOk(s, f.id);
    RestOk(s, f, up);
    CallKeepsFunnel(s, s', a, f, up, Rest(s, f, up));
    RestOfQueue(s, s', a, q, f.(plan := Rest(s, f, up)), up);
    forall b | b in s'.tasks && b != a && WorksFor(s, b, f.id) ensures TaskOk(s', b) {
      OthersInCall(s, s', a, b, f, up);
    }
    assert f.id in s.records ==> RecordOk(s, f.id);
    CallSameBooks(s, s', f, up);
    KeepsOthers(s, s', a, f.id);
  }

  lemma OnPop(s: State, s': State, a: nat)
    requires Inv(s) && a in s.tasks && s.tasks[a].Ending? && s.tasks[a].queue != []
    requires s'.tasks == s.tasks[a := Ending(s.tasks[a].queue[1..])] && SameBooks(s, s')
    ensures Goes(s, s')
  {
    var q := s.tasks[a].queue;
    assert TaskOk(s, a);
    forall i | 0 <= i < |q[1..]| ensures FunnelOk(s', a, q[1..][i]) { assert FunnelOk(s, a, q[i + 1]); }
    KeepsBooks(s, s', a);
  }

  lemma OnProceed(s: State, a: nat, up: bool, output: seq<ResponseItem>, reasoning: Option<string>, now: nat)
    requires Inv(s) && a in s.tasks && s.tasks[a].Ending? && s.tasks[a].queue != []
    ensures Goes(s, NextProceed(s, a, up, output, reasoning, now))
  {
    var q := s.tasks[a].queue;
    if q[0].plan != [] {
      OnCall(s, NextProceed(s, a, up, output, reasoning, now), a, up);
    } else if |q| == 1 {
      KeepsBooks(s, NextProceed(s, a, up, output, reasoning, now), a);
    } else {
      OnPop(s, NextProceed(s, a, up, output, reasoning, now), a);
    }
  }

  // ---- every run ----

  lemma InitInv(cap: nat)
    ensures Inv(Init(cap))
  {
    assert forall r :: HistoryOk(Init(cap), r);
  }

  lemma OnEnd(s: State, a: nat, via: Via, status: ResponseStatus, usage: Usage, now: nat)
    requires Inv(s) && ExecutingAt(s, a) && Fits(Win(status, via, a))
    ensures Goes(s, NextEnd(s, a, via, status, usage, now))
  {
    var t := s.tasks[a];
    if t.id !in s.records || !status.IsTerminal() || !L.FenceHolds(s.records[t.id], t.attempt) {
      OnStop(s, a);
    } else {
      assert TaskOk(s, a) && RecordOk(s, t.id);
      var rec := L.CompletedWith(s.records[t.id], t.attempt, status, usage, now).value;
      OnWin(s, NextEnd(s, a, via, status, usage, now), a, rec, FunnelOf(t.rec, via, status));
    }
  }

  lemma OnCancel(s: State, a: nat, r: ResponseId, tenant: TenantId, now: nat)
    requires Inv(s) && NewTask(s, a)
    ensures Goes(s, NextCancel(s, a, r, tenant, now))
  {
    if r in s.records && L.CancelledBy(s.records[r], tenant, now).Ok? {
      assert RecordOk(s, r);
      var rec := L.CancelledBy(s.records[r], tenant, now).value;
      OnWin(s, NextCancel(s, a, r, tenant, now), a, rec, FunnelOf(rec, ByCancel, Cancelled));
    }
  }

  lemma OnTryAcquire(s: State, a: nat, up: bool, now: nat)
    requires Inv(s) && CreatingAt(s, a) && s.tasks[a].conv.Some? && s.tasks[a].pc.Undecided()
    ensures Goes(s, NextTryAcquire(s, a, up, now))
  {
    var s' := NextTryAcquire(s, a, up, now);
    OnCreator(s, s', a, if CreatingAt(s', a) then s'.tasks[a].pc else Admitting);
  }

  lemma OnReadHolder(s: State, a: nat, up: bool)
    requires Inv(s) && CreatingAt(s, a) && s.tasks[a].pc.ReadingHolder?
    ensures Goes(s, NextReadHolder(s, a, up))
  {
    OnCreator(s, NextReadHolder(s, a, up), a, DroppingStale(s.tasks[a].pc.holder));
  }

  lemma OnDropStale(s: State, a: nat, up: bool)
    requires Inv(s) && CreatingAt(s, a) && s.tasks[a].pc.DroppingStale?
    ensures Goes(s, NextDropStale(s, a, up))
  {
    OnCreator(s, NextDropStale(s, a, up), a, AcquireAgain);
  }

  lemma OnGiveBack(s: State, a: nat, up: bool, now: nat)
    requires Inv(s) && CreatingAt(s, a) && s.tasks[a].conv.Some?
    ensures Goes(s, NextGiveBack(s, a, up, now))
  {
    OnCreator(s, NextGiveBack(s, a, up, now), a, GivingBack);
  }

  lemma OnCheckFence(s: State, a: nat, up: bool)
    requires Inv(s) && ExecutingAt(s, a)
    ensures Goes(s, NextCheckFence(s, a, up))
  {
    if NextCheckFence(s, a, up) != s {
      OnExecutor(s, NextCheckFence(s, a, up), a, s.tasks[a].(fencePassed := true));
    }
  }

  lemma OnReadContext(s: State, a: nat, up: bool)
    requires Inv(s) && ExecutingAt(s, a)
    ensures Goes(s, NextReadContext(s, a, up))
  {
    if NextReadContext(s, a, up) != s {
      OnExecutor(s, NextReadContext(s, a, up), a, s.tasks[a].(contextRead := true));
    }
  }

  lemma StepKeepsInv(s: State, step: Step, s': State)
    requires Inv(s) && Enabled(s, step) && s' == Next(s, step)
    ensures Goes(s, s')
  {
    match step
    case OpenConversation(_, _) => OnStores(s, s');
    case DeleteConversation(_) => OnStores(s, s');
    case PostEvent(_, _, _) => OnStores(s, s');
    case DeleteRecord(id) => OnDelete(s, id);
    case BeginCreate(a, id, tenant, conv, store) =>
      OnBegin(s, a, Creating(id, tenant, conv, store, if conv.Some? then AcquireFirst else Admitting));
    case TryAcquire(a, up, now) => OnTryAcquire(s, a, up, now);
    case ReadHolder(a, up) => OnReadHolder(s, a, up);
    case DropStale(a, up) => OnDropStale(s, a, up);
    case Admit(a, answer, input, now, retention) => OnAdmit(s, a, answer, input, now, retention);
    case AppendCreated(a, up) => OnCreator(s, s', a, GivingBack);
    case GiveBack(a, up, now) => OnGiveBack(s, a, up, now);
    case Claim(a, id, agent) => OnClaim(s, a, id, agent);
    case CheckFence(a, up) => OnCheckFence(s, a, up);
    case PushFenced(a, up) => OnPush(s, a, up);
    case ReadContext(a, up) => OnReadContext(s, a, up);
    case Finish(a, status, usage, now) => OnEnd(s, a, ByComplete, status, usage, now);
    case Fail(a, usage, now) => OnEnd(s, a, ByFail, Failed, usage, now);
    case Cancel(a, id, tenant, now) => OnCancel(s, a, id, tenant, now);
    case Reap(a, lost, now) => OnReap(s, a, lost, now);
    case Proceed(a, up, output, reasoning, now) => OnProceed(s, a, up, output, reasoning, now);
    case Stop(a) => KeepsBooks(s, s', a);
  }

  lemma {:induction false} RunKeepsInv(states: seq<State>, steps: seq<Step>, cap: nat, k: nat)
    requires IsRun(states, steps, cap) && k < |states|
    ensures Inv(states[k])
  {
    if k == 0 {
      InitInv(cap);
    } else {
      RunKeepsInv(states, steps, cap, k - 1);
      assert StepAt(states, steps, k - 1);
      StepKeepsInv(states[k - 1], steps[k - 1], states[k]);
    }
  }

  /** The terminal event a status is announced with; there is no `cancelled` event. */
  function AnnouncedAs(status: ResponseStatus): EndEvent {
    match status
    case Completed => CompletedEvent
    case Incomplete => IncompleteEvent
    case _ => FailedEvent
  }

  /**
   In every interleaving a response has at most one winner. Its turn is archived at most once and its log gets at
   most one terminal event, and both say what the winner wrote in the ledger.
   */
  lemma OneWinner(states: seq<State>, steps: seq<Step>, cap: nat, k: nat, r: ResponseId)
    requires IsRun(states, steps, cap) && k < |states|
    ensures var s := states[k];
            var wins, archives, ends := Hist(s.books.wins, r), Hist(s.books.archives, r), Hist(s.books.ends, r);
            && |wins| <= 1 && |archives| <= |wins| && |ends| <= |wins|
            && (archives != [] ==> archives[0] == wins[0].status)
            && (ends != [] ==> ends[0] == AnnouncedAs(wins[0].status))
            && (r in s.records ==> (s.records[r].status.IsTerminal() <==> wins != []))
            && (r in s.records && wins != [] ==> s.records[r].status == wins[0].status)
  {
    RunKeepsInv(states, steps, cap, k);
    assert HistoryOk(states[k], r) && (r in states[k].records ==> RecordOk(states[k], r));
  }

  /** A response is claimed at most once, and every fenced event in its log carries the attempt of that claim. */
  lemma OneClaim(states: seq<State>, steps: seq<Step>, cap: nat, k: nat, r: ResponseId)
    requires IsRun(states, steps, cap) && k < |states|
    ensures var b := states[k].books;
            && |Hist(b.claims, r)| <= 1
            && forall i :: 0 <= i < |Hist(b.fenced, r)| ==> Hist(b.claims, r) == [Hist(b.fenced, r)[i]]
  {
    RunKeepsInv(states, steps, cap, k);
    assert HistoryOk(states[k], r);
  }

  lemma ContinuesTrans(s1: State, s2: State, s3: State, r: ResponseId)
    requires Continues(s1, s2, r) && Continues(s2, s3, r)
    ensures Continues(s1, s3, r)
  {
  }

  lemma RunStep(states: seq<State>, steps: seq<Step>, cap: nat, k: nat)
    requires IsRun(states, steps, cap) && k < |steps|
    ensures Inv(states[k]) && Goes(states[k], states[k + 1])
  {
    RunKeepsInv(states, steps, cap, k);
    assert StepAt(states, steps, k);
    StepKeepsInv(states[k], steps[k], states[k + 1]);
  }

  /** Between any two moments of a run: no resurrection, no lowered fence, no change to a terminal record. */
  lemma {:induction false} TerminalIsFinal(
      states: seq<State>, steps: seq<Step>, cap: nat, i: nat, k: nat, r: ResponseId)
    requires IsRun(states, steps, cap) && i <= k < |states|
    ensures Continues(states[i], states[k], r)
    decreases k - i
  {
    if i < k {
      TerminalIsFinal(states, steps, cap, i, k - 1, r);
      RunStep(states, steps, cap, k - 1);
      ContinuesTrans(states[i], states[k - 1], states[k], r);
    }
  }
}
