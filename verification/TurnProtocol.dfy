/**
 The life of a response as an interleaving of port calls. Creators, executors, cancellers and
 sweepers are tasks with a program counter; every step of the machine is one port call, so any
 other task may run between two calls of the same task, and any task may stop for good.

 A response is ended through one of four funnels. A funnel is what its task still has to do:
 the list of port calls that follow the ledger transition it won.
 */
module TurnProtocol {
  import opened Domain
  import C = ConversationSpec
  import L = LedgerSpec

  // ---- the tasks ----

  datatype Via = ByComplete | ByFail | ByCancel | ByReap

  datatype Op = ReadBack | Archive | MoveTail | Release | Announce | CloseLog

  /** The calls a funnel makes after its ledger transition, in the order its code makes them. */
  function Plan(via: Via, conv: Option<ConversationId>, store: bool): seq<Op> {
    match via
    case ByCancel =>
      if conv.None? then [ReadBack, Announce, CloseLog]
      else if store then [ReadBack, Archive, Release, Announce, CloseLog]
      else [ReadBack, Release, Announce, CloseLog]
    case ByReap =>
      if conv.None? then [Announce, CloseLog]
      else if store then [Announce, CloseLog, Archive, Release]
      else [Announce, CloseLog, Release]
    case _ =>
      if conv.None? then [Announce, CloseLog]
      else if store then [Archive, Release, Announce, CloseLog]
      else [Release, Announce, CloseLog]
  }

  datatype Funnel = Funnel(
    via: Via, id: ResponseId, tenant: TenantId, conv: Option<ConversationId>, store: bool,
    input: seq<ResponseItem>, status: ResponseStatus, plan: seq<Op>)

  datatype CreatePc =
    | AcquireFirst | ReadingHolder(holder: ResponseId) | DroppingStale(holder: ResponseId) | AcquireAgain
    | Admitting | AppendingCreated | GivingBack
  {
    /** The ledger has not answered yet, so the response may still be accepted. */
    predicate Undecided() {
      !AppendingCreated? && !GivingBack?
    }
  }

  datatype Task =
    | Creating(id: ResponseId, tenant: TenantId, conv: Option<ConversationId>, store: bool, pc: CreatePc)
    | Executing(id: ResponseId, attempt: nat, rec: ResponseRecord, contextRead: bool, fencePassed: bool)
    | Ending(queue: seq<Funnel>)

  // ---- the state ----

  datatype Spec = Spec(conv: Option<ConversationId>, store: bool)

  datatype Win = Win(status: ResponseStatus, via: Via, task: nat)

  /** What a creator hears of its `create` call; an acceptance may be lost on the way back. */
  datatype Answer = Refused | Accepted | AcceptedUnheard

  datatype EndEvent = CompletedEvent | FailedEvent | IncompleteEvent

  /**
   History that no step reads: the responses the ledger accepted, and per response every ledger transition won,
   every archive call, every terminal event, every claim and every fenced event, over all incarnations of its
   record and its log.
   */
  datatype Books = Books(
    accepted: map<ResponseId, Spec>,
    wins: map<ResponseId, seq<Win>>,
    archives: map<ResponseId, seq<ResponseStatus>>,
    ends: map<ResponseId, seq<EndEvent>>,
    claims: map<ResponseId, seq<nat>>,
    fenced: map<ResponseId, seq<nat>>)

  /** Ids ever handed out; none is handed out twice. */
  datatype Used = Used(ids: set<ResponseId>, convs: set<ConversationId>, tasks: set<nat>)

  /**
   More history: the responses whose archive call failed, the entries each response was first archived with, and the
   snapshot each execution read.
   */
  datatype Notes = Notes(
    archiveFailed: set<ResponseId>,
    turns: map<ResponseId, seq<C.ContextEntry>>,
    contexts: map<ResponseId, C.Snapshot>)

  /** What a creator asked for, and what the archive call of a turn was given. */
  datatype Asked = Asked(tenant: TenantId, input: seq<ResponseItem>)

  datatype Given = Given(output: seq<ResponseItem>, reasoning: Option<string>)

  /**
   And what became of the funnels: the calls that failed, the logs closed, whether a release that went through found
   the marker with its response, the tails moved, the funnels served to their end and the tasks that stopped.
   */
  datatype Trail = Trail(
    asked: map<ResponseId, Asked>,
    given: map<ResponseId, Given>,
    failed: set<(ResponseId, Op)>,
    closed: set<ResponseId>,
    freed: map<ResponseId, bool>,
    moves: map<ConversationId, seq<ResponseId>>,
    served: set<ResponseId>,
    stopped: set<nat>)

  /** The stores and the tasks, then the history. */
  datatype State = State(
    cap: nat,
    records: map<ResponseId, ResponseRecord>,
    convs: map<ConversationId, C.Conversation>,
    tasks: map<nat, Task>,
    used: Used,
    books: Books,
    notes: Notes,
    trail: Trail)

  function Init(cap: nat): State {
    State(
      cap, map[], map[], map[], Used({}, {}, {}),
      Books(map[], map[], map[], map[], map[], map[]), Notes({}, map[], map[]),
      Trail(map[], map[], {}, {}, map[], map[], {}, {}))
  }

  function Hist<T>(m: map<ResponseId, seq<T>>, r: ResponseId): seq<T> {
    if r in m then m[r] else []
  }

  function Log<T>(m: map<ResponseId, seq<T>>, r: ResponseId, x: T): (m': map<ResponseId, seq<T>>)
    ensures forall q :: Hist(m', q) == if q == r then Hist(m, r) + [x] else Hist(m, q)
  {
    m[r := Hist(m, r) + [x]]
  }

  predicate IsLive(s: State, r: ResponseId) {
    r in s.records && s.records[r].Live()
  }

  /** Some creator of `r` is still before the ledger's answer. */
  ghost predicate Pending(s: State, r: ResponseId) {
    exists a :: a in s.tasks && s.tasks[a].Creating? && s.tasks[a].id == r && s.tasks[a].pc.Undecided()
  }

  /** The conversation exists for this tenant; anything else reads as absent. */
  predicate Owned(s: State, conv: Option<ConversationId>, tenant: TenantId) {
    conv.Some? && conv.value in s.convs && s.convs[conv.value].tenant == tenant
  }

  // ---- the steps ----

  datatype Step =
    | OpenConversation(c: ConversationId, tenant: TenantId)
    | DeleteConversation(c: ConversationId)
    | PostEvent(c: ConversationId, kind: C.EventKind, now: nat)
    | DeleteRecord(id: ResponseId)
    | BeginCreate(a: nat, id: ResponseId, tenant: TenantId, conv: Option<ConversationId>, store: bool)
    | TryAcquire(a: nat, up: bool, now: nat)
    | ReadHolder(a: nat, up: bool)
    | DropStale(a: nat, up: bool)
    | Admit(a: nat, answer: Answer, input: seq<ResponseItem>, now: nat, retention: nat)
    | AppendCreated(a: nat, up: bool)
    | GiveBack(a: nat, up: bool, now: nat)
    | Claim(a: nat, id: ResponseId, agent: AgentId)
    | CheckFence(a: nat, up: bool)
    | PushFenced(a: nat, up: bool)
    | ReadContext(a: nat, up: bool)
    | Finish(a: nat, status: ResponseStatus, usage: Usage, now: nat)
    | Fail(a: nat, usage: Usage, now: nat)
    | Cancel(a: nat, id: ResponseId, tenant: TenantId, now: nat)
    | Reap(a: nat, lost: seq<ResponseId>, now: nat)
    | Proceed(a: nat, up: bool, output: seq<ResponseItem>, reasoning: Option<string>, now: nat)
    | Stop(a: nat)

  predicate NewTask(s: State, a: nat) {
    a !in s.used.tasks
  }

  predicate CreatingAt(s: State, a: nat) {
    a in s.tasks && s.tasks[a].Creating?
  }

  predicate ExecutingAt(s: State, a: nat) {
    a in s.tasks && s.tasks[a].Executing?
  }

  /** `reap` may pick any in-progress records, in any order: which holders look lost depends on the clock. */
  predicate Reapable(s: State, lost: seq<ResponseId>) {
    && (forall i :: 0 <= i < |lost| ==> lost[i] in s.records && s.records[lost[i]].status == InProgress)
    && (forall i, j :: 0 <= i < j < |lost| ==> lost[i] != lost[j])
  }

  predicate Enabled(s: State, step: Step) {
    match step
    case OpenConversation(c, _) => c !in s.used.convs
    case DeleteConversation(c) => c in s.convs
    case PostEvent(c, kind, _) => c in s.convs && !kind.IsBoundary()
    case DeleteRecord(id) => id in s.records
    case BeginCreate(a, id, _, _, _) => NewTask(s, a) && id !in s.used.ids
    case TryAcquire(a, _, _) =>
      CreatingAt(s, a) && s.tasks[a].conv.Some? && (s.tasks[a].pc == AcquireFirst || s.tasks[a].pc == AcquireAgain)
    case ReadHolder(a, _) => CreatingAt(s, a) && s.tasks[a].pc.ReadingHolder?
    case DropStale(a, _) => CreatingAt(s, a) && s.tasks[a].pc.DroppingStale?
    case Admit(a, _, _, _, _) => CreatingAt(s, a) && s.tasks[a].pc == Admitting
    case AppendCreated(a, _) => CreatingAt(s, a) && s.tasks[a].pc == AppendingCreated
    case GiveBack(a, _, _) => CreatingAt(s, a) && s.tasks[a].pc == GivingBack && s.tasks[a].conv.Some?
    case Claim(a, id, _) => NewTask(s, a) && id in s.records && s.records[id].status == Queued
    case CheckFence(a, _) => ExecutingAt(s, a) && !s.tasks[a].fencePassed
    case PushFenced(a, _) => ExecutingAt(s, a) && s.tasks[a].fencePassed
    case ReadContext(a, _) => ExecutingAt(s, a) && !s.tasks[a].fencePassed && !s.tasks[a].contextRead
    case Finish(a, status, _, _) =>
      ExecutingAt(s, a) && !s.tasks[a].fencePassed && s.tasks[a].contextRead
      && (status == Completed || status == Incomplete)
    case Fail(a, _, _) => ExecutingAt(s, a) && !s.tasks[a].fencePassed
    case Cancel(a, _, _, _) => NewTask(s, a)
    case Reap(a, lost, _) => NewTask(s, a) && Reapable(s, lost)
    case Proceed(a, _, _, _, _) => a in s.tasks && s.tasks[a].Ending? && s.tasks[a].queue != []
    case Stop(a) => a in s.tasks
  }

  function WithTask(s: State, a: nat, t: Task): State {
    s.(tasks := s.tasks[a := t], used := s.used.(tasks := s.used.tasks + {a}))
  }

  function Done(s: State, a: nat): State {
    s.(tasks := s.tasks - {a})
  }

  function WithConv(s: State, c: ConversationId, conv: C.Conversation): State {
    s.(convs := s.convs[c := conv])
  }

  function NextTryAcquire(s: State, a: nat, up: bool, now: nat): State
    requires CreatingAt(s, a) && s.tasks[a].conv.Some?
  {
    var t := s.tasks[a];
    if !up || !Owned(s, t.conv, t.tenant) then Done(s, a)
    else
      var c := t.conv.value;
      var (conv, res) := C.AcquireActive(s.convs[c], t.id, now, s.cap);
      if res.Ok? then WithTask(WithConv(s, c, conv), a, t.(pc := Admitting))
      else if res.error.Busy? && t.pc == AcquireFirst then WithTask(s, a, t.(pc := ReadingHolder(res.error.holder)))
      else Done(s, a)
  }

  /** A holder that is terminal, has no record or cannot be read is taken for stale. */
  function NextReadHolder(s: State, a: nat, up: bool): State
    requires CreatingAt(s, a) && s.tasks[a].pc.ReadingHolder?
  {
    var h := s.tasks[a].pc.holder;
    if up && IsLive(s, h) then Done(s, a)
    else WithTask(s, a, s.tasks[a].(pc := DroppingStale(h)))
  }

  function NextDropStale(s: State, a: nat, up: bool): State
    requires CreatingAt(s, a) && s.tasks[a].pc.DroppingStale?
  {
    var t := s.tasks[a];
    if !up then Done(s, a)
    else
      var s' := WithTask(s, a, t.(pc := AcquireAgain));
      if !Owned(s, t.conv, t.tenant) then s'
      else WithConv(s', t.conv.value, C.ReleaseStale(s.convs[t.conv.value], t.pc.holder).0)
  }

  function Anchor(conv: Option<ConversationId>): ContextAnchor {
    if conv.Some? then InConversation(conv.value) else Root
  }

  /** Anything but a heard acceptance makes the creator give the marker back. */
  function NextAdmit(s: State, a: nat, answer: Answer, input: seq<ResponseItem>, now: nat, retention: nat): State
    requires CreatingAt(s, a)
  {
    var t := s.tasks[a];
    if answer == Refused then WithTask(s, a, t.(pc := GivingBack))
    else
      var rec := L.QueuedRecord(t.id, t.tenant, Anchor(t.conv), t.store, input, now, retention);
      WithTask(s, a, t.(pc := if answer == Accepted then AppendingCreated else GivingBack))
        .(records := s.records[t.id := rec],
          books := s.books.(accepted := s.books.accepted[t.id := Spec(t.conv, t.store)]),
          trail := s.trail.(asked := s.trail.asked[t.id := Asked(t.tenant, input)]))
  }

  function NextGiveBack(s: State, a: nat, up: bool, now: nat): State
    requires CreatingAt(s, a) && s.tasks[a].conv.Some?
  {
    var t := s.tasks[a];
    if !up || !Owned(s, t.conv, t.tenant) then Done(s, a)
    else WithConv(Done(s, a), t.conv.value, C.ReleaseActive(s.convs[t.conv.value], t.id, Failed, now, s.cap).0)
  }

  function NextClaim(s: State, a: nat, id: ResponseId, agent: AgentId): State
    requires id in s.records
  {
    var rec := L.Claimed(s.records[id], agent);
    WithTask(s, a, Executing(id, rec.attempt, rec, false, false))
      .(records := s.records[id := rec], books := s.books.(claims := Log(s.books.claims, id, rec.attempt)))
  }

  function NextCheckFence(s: State, a: nat, up: bool): State
    requires ExecutingAt(s, a)
  {
    var t := s.tasks[a];
    if up && t.id in s.records && L.FenceHolds(s.records[t.id], t.attempt)
    then WithTask(s, a, t.(fencePassed := true)) else s
  }

  function NextPushFenced(s: State, a: nat, up: bool): State
    requires ExecutingAt(s, a)
  {
    var t := s.tasks[a];
    var s' := WithTask(s, a, t.(fencePassed := false));
    if up then s'.(books := s.books.(fenced := Log(s.books.fenced, t.id, t.attempt))) else s'
  }

  /** The history a claim runs against; a missing conversation sends the executor to its failure funnel. */
  function NextReadContext(s: State, a: nat, up: bool): State
    requires ExecutingAt(s, a)
  {
    var t := s.tasks[a];
    var conv := t.rec.anchor.ConversationOf();
    if conv.None? then WithTask(s, a, t.(contextRead := true))
    else if !up || !Owned(s, conv, t.rec.tenant) then s
    else WithTask(s, a, t.(contextRead := true))
           .(notes := s.notes.(contexts := s.notes.contexts[t.id := s.convs[conv.value].snapshot]))
  }

  function FunnelOf(rec: ResponseRecord, via: Via, status: ResponseStatus): Funnel {
    var conv := rec.anchor.ConversationOf();
    Funnel(via, rec.responseId, rec.tenant, conv, rec.store, rec.input, status, Plan(via, conv, rec.store))
  }

  /** The two funnels of the runtime start with the same conditional ledger call. */
  function NextEnd(s: State, a: nat, via: Via, status: ResponseStatus, usage: Usage, now: nat): State
    requires ExecutingAt(s, a)
  {
    var t := s.tasks[a];
    if t.id !in s.records then Done(s, a)
    else
      var res := L.CompletedWith(s.records[t.id], t.attempt, status, usage, now);
      if res.Err? then Done(s, a)
      else
        WithTask(s, a, Ending([FunnelOf(t.rec, via, status)]))
          .(records := s.records[t.id := res.value],
            books := s.books.(wins := Log(s.books.wins, t.id, Win(status, via, a))))
  }

  function NextCancel(s: State, a: nat, id: ResponseId, tenant: TenantId, now: nat): State {
    if id !in s.records then s
    else
      var res := L.CancelledBy(s.records[id], tenant, now);
      if res.Err? then s
      else
        WithTask(s, a, Ending([FunnelOf(res.value, ByCancel, Cancelled)]))
          .(records := s.records[id := res.value],
            books := s.books.(wins := Log(s.books.wins, id, Win(Cancelled, ByCancel, a))))
  }

  /** One atomic ledger call ends every lost claim; the sweeper then serves them one after the other. */
  function NextReap(s: State, a: nat, lost: seq<ResponseId>, now: nat): State
    requires Reapable(s, lost)
  {
    WithTask(s, a, Ending(seq(|lost|, i requires 0 <= i < |lost| => FunnelOf(s.records[lost[i]], ByReap, Failed))))
      .(records := map r | r in s.records ::
          if r in lost then L.Aborted(s.records[r], Failed, now) else s.records[r],
        books := s.books.(wins := map r | r in s.books.wins.Keys + (set r | r in lost) ::
          Hist(s.books.wins, r) + (if r in lost then [Win(Failed, ByReap, a)] else [])))
  }

  /** Cancellation has no event of its own: the stream of a cancelled response ends with `Failed`. */
  function EndEventOf(via: Via, status: ResponseStatus): EndEvent {
    if via.ByComplete? then (if status == Incomplete then IncompleteEvent else CompletedEvent) else FailedEvent
  }

  function CommitOf(f: Funnel, output: seq<ResponseItem>, reasoning: Option<string>): C.TurnCommit {
    C.TurnCommit(f.input, output, if f.via.ByComplete? then reasoning else None, ZERO_USAGE, f.status)
  }

  /** What the next call of a funnel does to its conversation. */
  function ConvAfter(
      conv: C.Conversation, f: Funnel, output: seq<ResponseItem>, reasoning: Option<string>, now: nat, cap: nat)
    : C.Conversation
    requires f.plan != []
  {
    match f.plan[0]
    case Archive => C.AppendTurn(conv, f.id, CommitOf(f, output, reasoning)).0
    case MoveTail => C.Advance(conv, f.id)
    case Release => C.ReleaseActive(conv, f.id, f.status, now, cap).0
    case _ => conv
  }

  function BooksAfter(books: Books, f: Funnel, up: bool): Books
    requires f.plan != []
  {
    match f.plan[0]
    case Archive => books.(archives := Log(books.archives, f.id, f.status))
    case Announce => if up then books.(ends := Log(books.ends, f.id, EndEventOf(f.via, f.status))) else books
    case _ => books
  }

  function NotesAfter(
      notes: Notes, f: Funnel, reached: bool, output: seq<ResponseItem>, reasoning: Option<string>): Notes
    requires f.plan != []
  {
    if f.plan[0] != Archive then notes
    else if !reached then notes.(archiveFailed := notes.archiveFailed + {f.id})
    else if f.id in notes.turns then notes
    else notes.(turns := notes.turns[f.id := C.TurnEntries(CommitOf(f, output, reasoning))])
  }

  /** The next call of a funnel gets an error back. */
  predicate Fails(s: State, f: Funnel, up: bool, now: nat)
    requires f.plan != []
  {
    var reached := up && Owned(s, f.conv, f.tenant);
    match f.plan[0]
    case ReadBack => !up || f.id !in s.records
    case Release => !reached || C.ReleaseActive(s.convs[f.conv.value], f.id, f.status, now, s.cap).1.Err?
    case Archive => !reached
    case MoveTail => !reached
    case _ => !up
  }

  function Moves(trail: Trail, c: ConversationId): seq<ResponseId> {
    if c in trail.moves then trail.moves[c] else []
  }

  /** The funnel's response has the marker of its conversation. */
  predicate Marks(s: State, f: Funnel) {
    Owned(s, f.conv, f.tenant) && s.convs[f.conv.value].active == Some(f.id)
  }

  function TrailAfter(t: Trail, f: Funnel, fails: bool, marked: bool, given: Given): Trail
    requires f.plan != []
  {
    if fails then t.(failed := t.failed + {(f.id, f.plan[0])})
    else
      match f.plan[0]
      case Archive => t.(given := t.given[f.id := given])
      case MoveTail =>
        if f.conv.None? then t else t.(moves := t.moves[f.conv.value := Moves(t, f.conv.value) + [f.id]])
      case Release => t.(freed := t.freed[f.id := marked])
      case CloseLog => t.(closed := t.closed + {f.id})
      case _ => t
  }

  /** What one call of a funnel does to the stores; `up` is false when a read, a replay or a write fails. */
  function Effect(s: State, f: Funnel, up: bool, output: seq<ResponseItem>, reasoning: Option<string>, now: nat): State
    requires f.plan != []
  {
    var reached := up && Owned(s, f.conv, f.tenant);
    s.(books := BooksAfter(s.books, f, up),
       convs := if reached
         then s.convs[f.conv.value := ConvAfter(s.convs[f.conv.value], f, output, reasoning, now, s.cap)] else s.convs,
       notes := NotesAfter(s.notes, f, reached, output, reasoning),
       trail := TrailAfter(s.trail, f, Fails(s, f, up, now), Marks(s, f), Given(output, reasoning)))
  }

  /** What is left to do. A completion that could not be stored releases and says no more. */
  function Rest(s: State, f: Funnel, up: bool): seq<Op>
    requires f.plan != []
  {
    match f.plan[0]
    case Archive =>
      if !f.via.ByComplete? then f.plan[1..]
      else if up && Owned(s, f.conv, f.tenant) then [MoveTail] + f.plan[1..]
      else [Release]
    case ReadBack => if up && f.id in s.records then f.plan[1..] else [Announce, CloseLog]
    case _ => f.plan[1..]
  }

  function NextProceed(
      s: State, a: nat, up: bool, output: seq<ResponseItem>, reasoning: Option<string>, now: nat): State
    requires a in s.tasks && s.tasks[a].Ending? && s.tasks[a].queue != []
  {
    var q := s.tasks[a].queue;
    var f := q[0];
    if f.plan == [] then
      (if |q| == 1 then Done(s, a) else WithTask(s, a, Ending(q[1..])))
        .(trail := s.trail.(served := s.trail.served + {f.id}))
    else WithTask(Effect(s, f, up, output, reasoning, now), a, Ending([f.(plan := Rest(s, f, up))] + q[1..]))
  }

  function Next(s: State, step: Step): State
    requires Enabled(s, step)
  {
    match step
    case OpenConversation(c, tenant) =>
      s.(convs := s.convs[c := C.Fresh(tenant)], used := s.used.(convs := s.used.convs + {c}))
    case DeleteConversation(c) => s.(convs := s.convs - {c})
    case PostEvent(c, kind, now) => WithConv(s, c, C.AppendEvent(s.convs[c], kind, now, s.cap).0)
    case DeleteRecord(id) => s.(records := s.records - {id})
    case BeginCreate(a, id, tenant, conv, store) =>
      WithTask(s.(used := s.used.(ids := s.used.ids + {id})), a,
               Creating(id, tenant, conv, store, if conv.Some? then AcquireFirst else Admitting))
    case TryAcquire(a, up, now) => NextTryAcquire(s, a, up, now)
    case ReadHolder(a, up) => NextReadHolder(s, a, up)
    case DropStale(a, up) => NextDropStale(s, a, up)
    case Admit(a, answer, input, now, retention) => NextAdmit(s, a, answer, input, now, retention)
    case AppendCreated(a, up) => if up then Done(s, a) else WithTask(s, a, s.tasks[a].(pc := GivingBack))
    case GiveBack(a, up, now) => NextGiveBack(s, a, up, now)
    case Claim(a, id, agent) => NextClaim(s, a, id, agent)
    case CheckFence(a, up) => NextCheckFence(s, a, up)
    case PushFenced(a, up) => NextPushFenced(s, a, up)
    case ReadContext(a, up) => NextReadContext(s, a, up)
    case Finish(a, status, usage, now) => NextEnd(s, a, ByComplete, status, usage, now)
    case Fail(a, usage, now) => NextEnd(s, a, ByFail, Failed, usage, now)
    case Cancel(a, id, tenant, now) => NextCancel(s, a, id, tenant, now)
    case Reap(a, lost, now) => NextReap(s, a, lost, now)
    case Proceed(a, up, output, reasoning, now) => NextProceed(s, a, up, output, reasoning, now)
    case Stop(a) => Done(s, a).(trail := s.trail.(stopped := s.trail.stopped + {a}))
  }

  ghost predicate StepAt(states: seq<State>, steps: seq<Step>, i: nat)
    requires i < |steps| < |states|
  {
    Enabled(states[i], steps[i]) && states[i + 1] == Next(states[i], steps[i])
  }

  /** States linked by enabled steps. */
  ghost predicate IsPath(states: seq<State>, steps: seq<Step>) {
    && |states| == |steps| + 1
    && forall i :: 0 <= i < |steps| ==> StepAt(states, steps, i)
  }

  /** A run is a path from the empty store. */
  ghost predicate IsRun(states: seq<State>, steps: seq<Step>, cap: nat) {
    IsPath(states, steps) && states[0] == Init(cap)
  }

  /**
   The steps that can hand a conversation to a second turn, excluded: judging a live holder stale because the ledger
   could not be read, judging one stale whose own `create` call has not landed yet, and giving up on a response the
   ledger has accepted, because its acceptance or its `Created` event was lost.
   */
  ghost predicate Clean(s: State, step: Step)
    requires Enabled(s, step)
  {
    match step
    case ReadHolder(a, up) => if IsLive(s, s.tasks[a].pc.holder) then up else !Pending(s, s.tasks[a].pc.holder)
    case Admit(a, answer, _, _, _) => answer != AcceptedUnheard || s.tasks[a].conv.None?
    case AppendCreated(a, up) => up || s.tasks[a].conv.None? || !IsLive(s, s.tasks[a].id)
    case _ => true
  }

  ghost predicate CleanAt(states: seq<State>, steps: seq<Step>, i: nat)
    requires i < |steps| < |states|
  {
    StepAt(states, steps, i) && Clean(states[i], steps[i])
  }

  ghost predicate IsCleanRun(states: seq<State>, steps: seq<Step>, cap: nat) {
    IsRun(states, steps, cap) && forall i :: 0 <= i < |steps| ==> CleanAt(states, steps, i)
  }
}
