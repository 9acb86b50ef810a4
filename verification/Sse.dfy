/**
 A subscriber's stream over one response log: probe, then read batch after batch from a cursor, while producers append
 and sweeps expire. Every interleaving of log calls and reads is a run.
 */
module Sse {
  import opened Domain
  import opened ResponseEvents
  import opened EventLogSpec
  import L = EventLogRuns

  /** What a connection has sent: batches of events, then perhaps one error frame. */
  datatype Connection = Connection(
    start: Option<nat>,
    cursor: Option<nat>,
    batches: seq<seq<ResponseEvent>>,
    failure: Option<LogError>,
    finished: bool)

  datatype State = State(world: L.World, conn: Connection)

  datatype Step = OnLog(op: L.Op) | Poll

  /** The probe turns an unknown id or a lost position into a status before anything is sent. */
  function Open(w: L.World, start: Option<nat>): Result<Connection, LogError> {
    var probe := L.ReadSlot(w.slot, start, 1);
    if probe.Err? then Err(probe.error) else Ok(Connection(start, start, [], None, false))
  }

  predicate HasTerminal(batch: seq<ResponseEvent>) {
    exists i :: 0 <= i < |batch| && batch[i].event.kind.IsTerminal()
  }

  /** One read of an unfinished stream; an empty answer leaves it waiting. */
  function Polled(w: L.World, conn: Connection, batch: nat): Connection {
    if conn.finished then conn
    else
      match L.ReadSlot(w.slot, conn.cursor, if batch >= 1 then batch else 1)
      case Ok(events) =>
        if events == [] then conn
        else conn.(cursor := Some(events[|events| - 1].seqNo), batches := conn.batches + [events],
                   finished := HasTerminal(events))
      case Err(e) => conn.(failure := Some(e), finished := true)
  }

  predicate Legal(s: State, step: Step) {
    step.OnLog? ==> L.Legal(s.world, step.op)
  }

  function Next(s: State, step: Step, cap: nat, batch: nat): State {
    match step
    case OnLog(op) => s.(world := L.Next(s.world, op, cap))
    case Poll => s.(conn := Polled(s.world, s.conn, batch))
  }

  function After(s: State, steps: seq<Step>, cap: nat, batch: nat): State
    decreases |steps|
  {
    if steps == [] then s else After(Next(s, steps[0], cap, batch), steps[1..], cap, batch)
  }

  predicate IsRun(s: State, steps: seq<Step>, cap: nat, batch: nat)
    decreases |steps|
  {
    steps != [] ==> Legal(s, steps[0]) && IsRun(Next(s, steps[0], cap, batch), steps[1..], cap, batch)
  }

  function Delivered(batches: seq<seq<ResponseEvent>>): seq<ResponseEvent> {
    if batches == [] then [] else Delivered(batches[..|batches| - 1]) + batches[|batches| - 1]
  }

  lemma DeliveredPush(batches: seq<seq<ResponseEvent>>, batch: seq<ResponseEvent>)
    ensures Delivered(batches + [batch]) == Delivered(batches) + batch
  {
    assert (batches + [batch])[..|batches|] == batches;
  }

  /** The events sent are the stretch of the history that starts right after the cursor the client named. */
  ghost predicate Contiguous(w: L.World, conn: Connection) {
    var from, n := Target(conn.start), |Delivered(conn.batches)|;
    && (n == 0 ==> conn.cursor == conn.start)
    && (n > 0 ==>
          && from + n <= |w.hist| && Delivered(conn.batches) == Slice(w.hist, from, from + n)
          && conn.cursor == Some(from + n - 1))
  }

  /** A stream ends with the first batch that holds a terminal event, or with a failure, and not otherwise. */
  ghost predicate EndsRight(conn: Connection) {
    var n := |conn.batches|;
    && (forall i :: 0 <= i < n ==> conn.batches[i] != [])
    && (forall i :: 0 <= i < n - 1 ==> !HasTerminal(conn.batches[i]))
    && (conn.finished <==> conn.failure.Some? || (n > 0 && HasTerminal(conn.batches[n - 1])))
    && (conn.failure.Some? && n > 0 ==> !HasTerminal(conn.batches[n - 1]))
  }

  ghost predicate Inv(s: State, cap: nat) {
    L.Inv(s.world, cap) && Contiguous(s.world, s.conn) && EndsRight(s.conn)
  }

  lemma LogStepKeeps(w: L.World, conn: Connection, op: L.Op, cap: nat)
    requires L.Inv(w, cap) && L.Legal(w, op) && Contiguous(w, conn)
    ensures L.Inv(L.Next(w, op, cap), cap) && Contiguous(L.Next(w, op, cap), conn)
  {
    L.StepKeepsInv(w, op, cap);
    var w' := L.Next(w, op, cap);
    var from, n := Target(conn.start), |Delivered(conn.batches)|;
    if n > 0 {
      assert Slice(w.hist, from, from + n) == Slice(w'.hist, from, from + n);
    }
  }

  /** A read from the cursor of a contiguous connection is the next stretch of the history. */
  lemma ReadIsNext(w: L.World, conn: Connection, limit: nat, cap: nat)
    requires L.Inv(w, cap) && Contiguous(w, conn)
    requires L.ReadSlot(w.slot, conn.cursor, limit).Ok? && L.ReadSlot(w.slot, conn.cursor, limit).value != []
    ensures var events := L.ReadSlot(w.slot, conn.cursor, limit).value;
            var next := Target(conn.start) + |Delivered(conn.batches)|;
            next + |events| <= |w.hist| && events == Slice(w.hist, next, next + |events|)
  {
    ReadExact(w.slot.log, w.hist, conn.cursor, limit, cap);
    assert Target(conn.cursor) == Target(conn.start) + |Delivered(conn.batches)|;
  }

  lemma PushContiguous(w: L.World, conn: Connection, conn': Connection, events: seq<ResponseEvent>)
    requires Contiguous(w, conn) && events != []
    requires var next := Target(conn.start) + |Delivered(conn.batches)|;
             next + |events| <= |w.hist| && events == Slice(w.hist, next, next + |events|)
    requires conn'.start == conn.start && conn'.batches == conn.batches + [events]
    requires conn'.cursor == Some(events[|events| - 1].seqNo)
    ensures Contiguous(w, conn')
  {
    DeliveredPush(conn.batches, events);
    Joined(w.hist, w.hist, Target(conn.start), Delivered(conn.batches), events);
  }

  lemma PollContiguous(w: L.World, conn: Connection, batch: nat, cap: nat)
    requires L.Inv(w, cap) && Contiguous(w, conn)
    ensures Contiguous(w, Polled(w, conn, batch))
  {
    var limit := if batch >= 1 then batch else 1;
    var read := L.ReadSlot(w.slot, conn.cursor, limit);
    if !conn.finished && read.Ok? && read.value != [] {
      ReadIsNext(w, conn, limit, cap);
      PushContiguous(w, conn, Polled(w, conn, batch), read.value);
    }
  }

  /**
   What a poll of an unfinished stream does, whatever happened to the log: it fails exactly when the log is gone or the
   next event is, it waits exactly when there is nothing new, and otherwise it sends the next events, at least one.
   */
  lemma PollExact(w: L.World, conn: Connection, batch: nat, cap: nat)
    requires L.Inv(w, cap) && Contiguous(w, conn) && !conn.finished
    requires Target(conn.cursor) == Target(conn.start) + |Delivered(conn.batches)|
    ensures var next, limit := Target(conn.cursor), if batch >= 1 then batch else 1;
            var conn' := Polled(w, conn, batch);
            if !w.slot.Present? then conn' == conn.(failure := Some(Unknown), finished := true)
            else if w.slot.log.swept || next < FirstKept(w.hist, cap)
            then conn' == conn.(failure := Some(Expired), finished := true)
            else if next >= |w.hist| then conn' == conn
            else
              && Min(next + limit, |w.hist|) > next && conn'.failure == conn.failure
              && conn'.batches == conn.batches + [Slice(w.hist, next, Min(next + limit, |w.hist|))]
  {
    if w.slot.Present? {
      ReadExact(w.slot.log, w.hist, conn.cursor, if batch >= 1 then batch else 1, cap);
    }
  }

  /** Opening a stream answers `Unknown` or `Expired` exactly when its first event is not to be had, and else starts. */
  lemma OpenExact(before: seq<L.Op>, start: Option<nat>, cap: nat)
    requires L.IsRun(L.START, before, cap)
    ensures var w := L.After(L.START, before, cap);
            Open(w, start) ==
            if !w.slot.Present? then Err(Unknown)
            else if w.slot.log.swept || Target(start) < FirstKept(w.hist, cap) then Err(Expired)
            else Ok(Connection(start, start, [], None, false))
  {
    L.ReadsAreExact(before, cap, start, 1);
  }

  lemma PollEndsRight(w: L.World, conn: Connection, batch: nat)
    requires EndsRight(conn)
    ensures EndsRight(Polled(w, conn, batch))
  {
    var read := L.ReadSlot(w.slot, conn.cursor, if batch >= 1 then batch else 1);
    if !conn.finished && read.Ok? && read.value != [] {
      PushEndsRight(conn, Polled(w, conn, batch), read.value);
    }
  }

  lemma PushEndsRight(conn: Connection, conn': Connection, events: seq<ResponseEvent>)
    requires EndsRight(conn) && !conn.finished && events != []
    requires conn'.batches == conn.batches + [events] && conn'.failure == conn.failure
    requires conn'.finished == HasTerminal(events)
    ensures EndsRight(conn')
  {
    assert forall i :: 0 <= i < |conn.batches| ==> conn'.batches[i] == conn.batches[i];
  }

  lemma {:induction false} RunKeepsInv(s: State, steps: seq<Step>, cap: nat, batch: nat)
    requires Inv(s, cap) && IsRun(s, steps, cap, batch)
    ensures Inv(After(s, steps, cap, batch), cap) && After(s, steps, cap, batch).conn.start == s.conn.start
    decreases |steps|
  {
    if steps != [] {
      match steps[0] {
        case OnLog(op) => LogStepKeeps(s.world, s.conn, op, cap);
        case Poll => PollContiguous(s.world, s.conn, batch, cap); PollEndsRight(s.world, s.conn, batch);
      }
      RunKeepsInv(Next(s, steps[0], cap, batch), steps[1..], cap, batch);
    }
  }

  /** The events sent are numbered on from the cursor and are what the history has there. */
  ghost predicate SendsHistory(s: State) {
    var sent, from := Delivered(s.conn.batches), Target(s.conn.start);
    forall i :: 0 <= i < |sent| ==>
      from + i < |s.world.hist| && sent[i] == ResponseEvent(from + i, s.world.hist[from + i])
  }

  lemma ContiguousSendsHistory(s: State)
    requires Contiguous(s.world, s.conn)
    ensures SendsHistory(s)
  {
  }

  /**
   Whatever happens to the log meanwhile, a connection opened after any run sends exactly the numbers after its cursor,
   without gap or repeat, and stops after the batch that holds a terminal event or after one failure.
   */
  lemma Delivery(before: seq<L.Op>, start: Option<nat>, steps: seq<Step>, cap: nat, batch: nat)
    requires L.IsRun(L.START, before, cap) && Open(L.After(L.START, before, cap), start).Ok?
    requires IsRun(Opened(L.After(L.START, before, cap), start), steps, cap, batch)
    ensures var s := After(Opened(L.After(L.START, before, cap), start), steps, cap, batch);
            s.conn.start == start && SendsHistory(s) && EndsRight(s.conn) && StopsAtEnd(s.conn)
  {
    L.RunKeepsInv(L.START, before, cap);
    var w := L.After(L.START, before, cap);
    RunKeepsInv(Opened(w, start), steps, cap, batch);
    ContiguousSendsHistory(After(Opened(w, start), steps, cap, batch));
    EndsAtEnd(After(Opened(w, start), steps, cap, batch).conn);
  }

  /** A stream without a failure is over exactly when it has sent a `completed`, `failed` or `incomplete` event. */
  ghost predicate StopsAtEnd(conn: Connection) {
    var sent := Delivered(conn.batches);
    conn.failure.None? ==>
      (conn.finished <==>
         exists i :: 0 <= i < |sent| && sent[i].event.kind in {CompletedKind, FailedKind, IncompleteKind})
  }

  lemma {:induction false} TerminalIn(batches: seq<seq<ResponseEvent>>)
    ensures (exists i :: 0 <= i < |batches| && HasTerminal(batches[i])) <==> HasTerminal(Delivered(batches))
    decreases |batches|
  {
    if batches != [] {
      var n := |batches| - 1;
      TerminalIn(batches[..n]);
      TerminalJoins(Delivered(batches[..n]), batches[n]);
      if exists i :: 0 <= i < |batches| && HasTerminal(batches[i]) {
        var i :| 0 <= i < |batches| && HasTerminal(batches[i]);
        assert i < n ==> batches[..n][i] == batches[i];
      }
    }
  }

  lemma TerminalJoins(a: seq<ResponseEvent>, b: seq<ResponseEvent>)
    ensures HasTerminal(a + b) <==> HasTerminal(a) || HasTerminal(b)
  {
    if HasTerminal(a) {
      var i :| 0 <= i < |a| && a[i].event.kind.IsTerminal();
      assert (a + b)[i] == a[i];
    }
    if HasTerminal(b) {
      var i :| 0 <= i < |b| && b[i].event.kind.IsTerminal();
      assert (a + b)[|a| + i] == b[i];
    }
  }

  lemma EndsAtEnd(conn: Connection)
    requires EndsRight(conn)
    ensures StopsAtEnd(conn)
  {
    TerminalIn(conn.batches);
    var sent := Delivered(conn.batches);
    assert HasTerminal(sent) <==>
           exists i :: 0 <= i < |sent| && sent[i].event.kind in {CompletedKind, FailedKind, IncompleteKind};
  }

  // ---- resuming ----

  function Digit(d: nat): char
    requires d < 10
  {
    '0' + d as char
  }

  /** The `id` of a frame: its number in decimal. */
  function Decimal(n: nat): string {
    if n < 10 then [Digit(n)] else Decimal(n / 10) + [Digit(n % 10)]
  }

  predicate IsDigit(c: char) {
    '0' <= c <= '9'
  }

  /** Digits with their value, or nothing as soon as something else turns up. */
  function DigitsValue(s: string): Option<nat> {
    if s == [] then Some(0)
    else
      var head := DigitsValue(s[..|s| - 1]);
      var c := s[|s| - 1];
      if head.None? || !IsDigit(c) then None else Some(head.value * 10 + (c as int - '0' as int))
  }

  /** `str::parse::<u64>`: an optional plus sign, at least one digit, no overflow. */
  function ParseU64(s: string): Option<nat> {
    var digits := if s != [] && s[0] == '+' then s[1..] else s;
    var value := DigitsValue(digits);
    if digits == [] || value.None? || value.value > U64_MAX then None else value
  }

  /** Unicode's White_Space, which is what `str::trim` drops. */
  predicate IsSpace(c: char) {
    var n := c as int;
    || 9 <= n <= 13 || n == 0x20 || n == 0x85 || n == 0xA0 || n == 0x1680 || 0x2000 <= n <= 0x200A
    || n == 0x2028 || n == 0x2029 || n == 0x202F || n == 0x205F || n == 0x3000
  }

  function TrimStart(s: string): string {
    if s != [] && IsSpace(s[0]) then TrimStart(s[1..]) else s
  }

  function TrimEnd(s: string): string {
    if s != [] && IsSpace(s[|s| - 1]) then TrimEnd(s[..|s| - 1]) else s
  }

  /** The header wins, because it says what the client really received. */
  function ResolveCursor(query: Option<nat>, lastEventId: Option<string>): Option<nat> {
    var header := if lastEventId.Some? then ParseU64(TrimEnd(TrimStart(lastEventId.value))) else None;
    if header.Some? then header else query
  }

  lemma {:induction false} DecimalParses(n: nat)
    ensures var s := Decimal(n);
            && s != [] && DigitsValue(s) == Some(n) && forall i :: 0 <= i < |s| ==> IsDigit(s[i])
  {
    if n >= 10 {
      DecimalParses(n / 10);
      var s := Decimal(n);
      assert s[..|s| - 1] == Decimal(n / 10);
    } else {
      assert Decimal(n)[..0] == [];
    }
  }

  lemma TrimDigits(s: string)
    requires s != [] && IsDigit(s[0]) && IsDigit(s[|s| - 1])
    ensures TrimEnd(TrimStart(s)) == s
  {
  }

  lemma ParseDigits(s: string, n: nat)
    requires s != [] && IsDigit(s[0]) && DigitsValue(s) == Some(n) && n <= U64_MAX
    ensures ParseU64(s) == Some(n)
  {
    assert s[0] != '+';
  }

  lemma CursorRoundTrip(n: nat, query: Option<nat>)
    requires n <= U64_MAX
    ensures ResolveCursor(query, Some(Decimal(n))) == Some(n)
  {
    DecimalParses(n);
    TrimDigits(Decimal(n));
    ParseDigits(Decimal(n), n);
  }

  /** The code points with the property White_Space, as the Unicode Character Database lists them. */
  predicate IsWhite(n: int) {
    || n in {0x09, 0x0A, 0x0B, 0x0C, 0x0D, 0x20, 0x85, 0xA0, 0x1680, 0x2028, 0x2029, 0x202F, 0x205F, 0x3000}
    || n in {0x2000, 0x2001, 0x2002, 0x2003, 0x2004, 0x2005, 0x2006, 0x2007, 0x2008, 0x2009, 0x200A}
  }

  lemma SpaceIsWhite(c: char)
    ensures IsSpace(c) <==> IsWhite(c as int)
  {
  }

  predicate AllBlank(s: string) {
    forall i :: 0 <= i < |s| ==> IsWhite(s[i] as int)
  }

  function Zeros(k: nat): string {
    seq(k, i => '0')
  }

  /** The header names a number: in decimal, leading zeros and a plus sign allowed, with white space around it. */
  ghost predicate Names(header: string, n: nat) {
    exists lead, k: nat, trail ::
      NamesSo(header, n, lead, false, k, trail) || NamesSo(header, n, lead, true, k, trail)
  }

  predicate NamesSo(header: string, n: nat, lead: string, plus: bool, k: nat, trail: string) {
    && AllBlank(lead) && AllBlank(trail)
    && header == lead + ((if plus then "+" else "") + (Zeros(k) + Decimal(n))) + trail
  }

  lemma {:induction false} ZerosParse(k: nat, s: string)
    requires DigitsValue(s).Some?
    ensures DigitsValue(Zeros(k) + s) == DigitsValue(s)
    decreases |s|
  {
    var all := Zeros(k) + s;
    if s == [] {
      assert all == Zeros(k);
      ZerosAreZero(k);
    } else {
      assert all[..|all| - 1] == Zeros(k) + s[..|s| - 1];
      ZerosParse(k, s[..|s| - 1]);
    }
  }

  lemma {:induction false} ZerosAreZero(k: nat)
    ensures DigitsValue(Zeros(k)) == Some(0)
  {
    if k > 0 {
      ZerosAreZero(k - 1);
      assert Zeros(k)[..k - 1] == Zeros(k - 1);
    }
  }

  /** Digits with a value are that number in decimal, behind some zeros. */
  lemma {:induction false} DigitsAreDecimal(s: string) returns (k: nat)
    requires s != [] && DigitsValue(s).Some?
    ensures s == Zeros(k) + Decimal(DigitsValue(s).value)
    decreases |s|
  {
    var init, c := s[..|s| - 1], s[|s| - 1];
    var d: nat := c as int - '0' as int;
    assert s == init + [c] && Digit(d) == c;
    if init == [] {
      k := 0;
      assert DigitsValue(init) == Some(0);
      assert Zeros(0) + Decimal(d) == [c];
    } else {
      k := DigitsAreDecimal(init);
      var n := DigitsValue(init).value;
      if n == 0 {
        assert Decimal(0) == "0" && init == Zeros(k) + "0" == Zeros(k + 1);
        k := k + 1;
        assert Decimal(d) == [c];
      } else {
        assert (n * 10 + d) / 10 == n && (n * 10 + d) % 10 == d;
        assert Decimal(n * 10 + d) == Decimal(n) + [c];
      }
    }
  }

  lemma {:induction false} TrimStartSplits(s: string) returns (lead: string)
    ensures AllBlank(lead) && s == lead + TrimStart(s) && (TrimStart(s) != [] ==> !IsSpace(TrimStart(s)[0]))
    decreases |s|
  {
    lead := [];
    if s != [] && IsSpace(s[0]) {
      SpaceIsWhite(s[0]);
      var more := TrimStartSplits(s[1..]);
      lead := [s[0]] + more;
    }
  }

  lemma {:induction false} TrimEndSplits(s: string) returns (trail: string)
    ensures AllBlank(trail) && s == TrimEnd(s) + trail
    decreases |s|
  {
    trail := [];
    if s != [] && IsSpace(s[|s| - 1]) {
      SpaceIsWhite(s[|s| - 1]);
      var more := TrimEndSplits(s[..|s| - 1]);
      trail := more + [s[|s| - 1]];
    }
  }

  lemma {:induction false} TrimStartDrops(lead: string, s: string)
    requires AllBlank(lead) && s != [] && !IsSpace(s[0])
    ensures TrimStart(lead + s) == s
    decreases |lead|
  {
    if lead == [] {
      assert lead + s == s;
    } else {
      assert (lead + s)[1..] == lead[1..] + s;
      SpaceIsWhite(lead[0]);
      TrimStartDrops(lead[1..], s);
    }
  }

  lemma {:induction false} TrimEndDrops(s: string, trail: string)
    requires AllBlank(trail) && s != [] && !IsSpace(s[|s| - 1])
    ensures TrimEnd(s + trail) == s
    decreases |trail|
  {
    if trail == [] {
      assert s + trail == s;
    } else {
      assert (s + trail)[..|s + trail| - 1] == s + trail[..|trail| - 1];
      SpaceIsWhite(trail[|trail| - 1]);
      TrimEndDrops(s, trail[..|trail| - 1]);
    }
  }

  lemma TrimCore(lead: string, core: string, trail: string)
    requires AllBlank(lead) && AllBlank(trail) && core != [] && !IsSpace(core[0]) && !IsSpace(core[|core| - 1])
    ensures TrimEnd(TrimStart(lead + core + trail)) == core
  {
    assert lead + core + trail == lead + (core + trail) && (core + trail)[0] == core[0];
    TrimStartDrops(lead, core + trail);
    TrimEndDrops(core, trail);
  }

  lemma DigitsParse(k: nat, n: nat)
    ensures var digits := Zeros(k) + Decimal(n);
            digits != [] && IsDigit(digits[0]) && IsDigit(digits[|digits| - 1]) && DigitsValue(digits) == Some(n)
  {
    DecimalParses(n);
    ZerosParse(k, Decimal(n));
  }

  lemma CoreParses(plus: bool, digits: string, n: nat)
    requires digits != [] && IsDigit(digits[0]) && DigitsValue(digits) == Some(n) && n <= U64_MAX
    ensures ParseU64((if plus then "+" else "") + digits) == Some(n)
  {
    var core := (if plus then "+" else "") + digits;
    if plus {
      assert core[1..] == digits;
    } else {
      assert core == digits;
    }
  }

  lemma CoreEnds(plus: bool, digits: string)
    requires digits != [] && IsDigit(digits[0]) && IsDigit(digits[|digits| - 1])
    ensures var core := (if plus then "+" else "") + digits;
            core != [] && !IsSpace(core[0]) && !IsSpace(core[|core| - 1])
  {
    var core := (if plus then "+" else "") + digits;
    assert core[|core| - 1] == digits[|digits| - 1] && (core[0] == '+' || core[0] == digits[0]);
  }

  /** A header that names a number parses to it. */
  lemma NamedParses(header: string, n: nat, lead: string, plus: bool, k: nat, trail: string)
    requires NamesSo(header, n, lead, plus, k, trail) && n <= U64_MAX
    ensures ParseU64(TrimEnd(TrimStart(header))) == Some(n)
  {
    var digits := Zeros(k) + Decimal(n);
    var core := (if plus then "+" else "") + digits;
    DigitsParse(k, n);
    CoreParses(plus, digits, n);
    CoreEnds(plus, digits);
    TrimCore(lead, core, trail);
  }

  /** And a header that parses names what it parses to. */
  lemma ParsedNames(header: string)
    requires ParseU64(TrimEnd(TrimStart(header))).Some?
    ensures Names(header, ParseU64(TrimEnd(TrimStart(header))).value)
  {
    var lead := TrimStartSplits(header);
    var trail := TrimEndSplits(TrimStart(header));
    var core := TrimEnd(TrimStart(header));
    var plus := core != [] && core[0] == '+';
    var digits := if plus then core[1..] else core;
    var k := DigitsAreDecimal(digits);
    var n := ParseU64(core).value;
    assert core == (if plus then "+" else "") + (Zeros(k) + Decimal(n));
    assert header == lead + (core + trail) == lead + core + trail;
    assert NamesSo(header, n, lead, plus, k, trail);
  }

  /**
   The cursor of a reconnect: the number the header names, if it names one that fits 64 bits; without a header, or with
   one that names none, the query's.
   */
  lemma CursorExactly(query: Option<nat>, header: string)
    ensures ResolveCursor(query, None) == query
    ensures forall n: nat :: Names(header, n) && n <= U64_MAX ==> ResolveCursor(query, Some(header)) == Some(n)
    ensures (forall n: nat :: Names(header, n) ==> n > U64_MAX) ==> ResolveCursor(query, Some(header)) == query
  {
    forall n: nat | Names(header, n) && n <= U64_MAX ensures ResolveCursor(query, Some(header)) == Some(n) {
      var lead, k: nat, trail :|
        NamesSo(header, n, lead, false, k, trail) || NamesSo(header, n, lead, true, k, trail);
      NamedParses(header, n, lead, NamesSo(header, n, lead, true, k, trail), k, trail);
    }
    if ParseU64(TrimEnd(TrimStart(header))).Some? {
      ParsedNames(header);
    }
  }

  /** The connection as `Open` leaves it. */
  function Opened(w: L.World, start: Option<nat>): State {
    State(w, Connection(start, start, [], None, false))
  }

  /** The number of the last frame a connection sent. */
  function LastSent(conn: Connection): Option<nat> {
    var sent := Delivered(conn.batches);
    if sent == [] then None else Some(sent[|sent| - 1].seqNo)
  }

  /** A connection opened right after the last event of another continues it. */
  lemma Continues(w: L.World, start: Option<nat>, steps: seq<Step>, steps': seq<Step>, cap: nat, batch: nat)
    requires L.Inv(w, cap) && IsRun(Opened(w, start), steps, cap, batch)
    requires var s := After(Opened(w, start), steps, cap, batch);
             LastSent(s.conn).Some? && IsRun(Opened(s.world, LastSent(s.conn)), steps', cap, batch)
    ensures var s := After(Opened(w, start), steps, cap, batch);
            var s' := After(Opened(s.world, LastSent(s.conn)), steps', cap, batch);
            var both, from := Delivered(s.conn.batches) + Delivered(s'.conn.batches), Target(start);
            from + |both| <= |s'.world.hist| && both == Slice(s'.world.hist, from, from + |both|)
  {
    var s := After(Opened(w, start), steps, cap, batch);
    SentStretch(w, start, steps, cap, batch);
    SentStretch(s.world, LastSent(s.conn), steps', cap, batch);
    var s' := After(Opened(s.world, LastSent(s.conn)), steps', cap, batch);
    Joined(s.world.hist, s'.world.hist, Target(start), Delivered(s.conn.batches), Delivered(s'.conn.batches));
  }

  lemma LastSentInRange(w: L.World, start: Option<nat>, steps: seq<Step>, cap: nat, batch: nat)
    requires L.Inv(w, cap) && IsRun(Opened(w, start), steps, cap, batch)
    ensures var last := LastSent(After(Opened(w, start), steps, cap, batch).conn); last.Some? ==> last.value <= U64_MAX
  {
    SentStretch(w, start, steps, cap, batch);
  }

  /**
   A client that reconnects with the id of the last frame it saw gets the rest: the two connections together sent one
   unbroken stretch of the history, whatever query parameter it repeats.
   */
  lemma Resumption(
      w: L.World, start: Option<nat>, steps: seq<Step>, query: Option<nat>, start': Option<nat>, steps': seq<Step>,
      cap: nat, batch: nat)
    requires L.Inv(w, cap) && IsRun(Opened(w, start), steps, cap, batch)
    requires var s := After(Opened(w, start), steps, cap, batch);
             && LastSent(s.conn).Some? && start' == ResolveCursor(query, Some(Decimal(LastSent(s.conn).value)))
             && IsRun(Opened(s.world, start'), steps', cap, batch)
    ensures var s := After(Opened(w, start), steps, cap, batch);
            var s' := After(Opened(s.world, start'), steps', cap, batch);
            var both, from := Delivered(s.conn.batches) + Delivered(s'.conn.batches), Target(start);
            from + |both| <= |s'.world.hist| && both == Slice(s'.world.hist, from, from + |both|)
  {
    var last := LastSent(After(Opened(w, start), steps, cap, batch).conn).value;
    LastSentInRange(w, start, steps, cap, batch);
    CursorRoundTrip(last, query);
    Continues(w, start, steps, steps', cap, batch);
  }

  /** What a connection has sent is the stretch of the history after its cursor, and its last id says how far it got. */
  lemma SentStretch(w: L.World, start: Option<nat>, steps: seq<Step>, cap: nat, batch: nat)
    requires L.Inv(w, cap) && IsRun(Opened(w, start), steps, cap, batch)
    ensures var s := After(Opened(w, start), steps, cap, batch);
            var sent, from := Delivered(s.conn.batches), Target(start);
            && L.Inv(s.world, cap) && w.hist <= s.world.hist
            && (sent != [] ==>
                  && from + |sent| <= |s.world.hist| && sent == Slice(s.world.hist, from, from + |sent|)
                  && sent[|sent| - 1].seqNo == from + |sent| - 1)
  {
    RunKeepsInv(Opened(w, start), steps, cap, batch);
    HistoryGrows(Opened(w, start), steps, cap, batch);
  }

  lemma Joined(
      hist: seq<AppendEvent>, hist': seq<AppendEvent>, from: nat, first: seq<ResponseEvent>, second: seq<ResponseEvent>)
    requires hist <= hist' && from + |first| <= |hist| && first == Slice(hist, from, from + |first|)
    requires second != [] ==>
               from + |first| + |second| <= |hist'| && second == Slice(hist', from + |first|, from + |first| + |second|)
    ensures from + |first + second| <= |hist'| && first + second == Slice(hist', from, from + |first + second|)
  {
  }

  lemma {:induction false} HistoryGrows(s: State, steps: seq<Step>, cap: nat, batch: nat)
    requires L.Inv(s.world, cap) && IsRun(s, steps, cap, batch)
    ensures s.world.hist <= After(s, steps, cap, batch).world.hist
    decreases |steps|
  {
    if steps != [] {
      if steps[0].OnLog? {
        L.StepKeepsInv(s.world, steps[0].op, cap);
      }
      HistoryGrows(Next(s, steps[0], cap, batch), steps[1..], cap, batch);
    }
  }
}
