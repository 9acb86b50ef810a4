# Verification of the response service

A Dafny model of the service that creates, executes, streams and archives model responses, with proofs of what it
promises. `dafny verify dfyconfig.toml` checks the whole project.

**The turn protocol** (`TurnProtocol`, `TurnSafety`, `TurnWinners`, `TurnAccounts`, `TurnRequests`, `TurnDelivery`,
`TurnProgress`, `TurnContents`, `TurnExclusion`, `TurnArchive`, `TurnRaces`). A response is created, claimed, executed,
and ended by one of four funnels: the runtime's `complete` and `fail`, the service's `cancel`, the sweeper's `reap`.
Each port call is one step of a machine whose tasks are creators, executors, cancellers and sweepers; any task may run
between two calls of another, any call may fail, an acceptance may be lost on its way back, and any task may stop for
good. Acquiring the conversation's marker and creating the ledger record are two steps, as in the code.

- `TurnSafety`, `TurnWinners` and `TurnContents` are about every run: who wins, what is archived, what an execution
  reads.
- So are `TurnAccounts`, `TurnRequests`, `TurnDelivery` and `TurnProgress`: whoever wins a response serves it to the end
  or stops, after at most seven steps; and a served response has its terminal event, its closed log, its turn in the
  snapshot, its marker given back and the end on the stream, but for exactly the calls that failed, each of which failed
  for a reason.
- Mutual exclusion of turns is *not* true of every run. `TurnExclusion` names the three steps that break it (`Breaks`: a
  takeover that clears a live holder's marker, a creator that gives the marker of an accepted response back, an
  acceptance that comes after the marker is gone) and proves that live turns hold their markers throughout a run if and
  only if it has none of these steps. A run without their causes (`Clean`) has none. `TurnRaces` shows that once a live
  turn has no marker a second one can be let in, how each cause leads there, and a whole run from the empty store.
- Archive before announce is not true of every run either. `TurnArchive` names the one step that breaks it
  (`Misreports`: a creator announces as failed a response that was accepted and has not failed, or is to be stored and
  is not in the snapshot) and proves the if-and-only-if over whole runs. A run in which every acceptance and every
  `Created` event arrives (`HeardRun`) has no such step, whatever else fails or races; racy takeovers and unreadable
  ledgers do no harm here. `TurnRaces` has the counterexample run.

**The shared store.** `LedgerSpec`, `ConversationSpec` and `EventLogSpec` give the effect of each port call on a value.
`LedgerStore`, `ConversationStore` and `EventLogStore` are the classes that do it in place, proved against them.
`LedgerRuns`, `ConversationRuns`, `EventLogRuns` and `Admission` are about every run of calls; `LedgerLives` follows one
record by the answers its callers got; `UsageSums` holds the arithmetic of saturating totals.

**Reading the log.** `Sse` is a subscriber's stream beside any interleaving of appends, evictions and sweeps.
`SinkSpec`, `SinkCalls` and `SinkReplay` relate the executor's event sink to the archival replay of its events, from the
sink's calls through the log they fill to the archived items; `ReplayEvents` is the replay of any history at all and
`ReplayRuns` is the replay beside a log that changes between its pages. `BareContext` relates the two reconstructions of
a response outside any conversation.

**Algorithms.** `CanonicalText`, `Canonical` and `Utf8` (the canonical JSON writer and its key order), `JsonReader` and
`CanonicalReads` (a reader of RFC 8259 that gets the value back), `Calculator`, `CalculatorTrees` and `CalculatorTexts`
(the recursive-descent calculator), `JsonValue` and `JsonDepth` (the explicit-stack depth guard).

Modelling choices:

- Ids are opaque tokens; a fresh id has never been used. Integers are unbounded except usage, deadlines and cursors,
  where the 64-bit saturation is written out.
- Time, the answers of other processes and the outcome of a store that may be down are arguments of the steps.
- The canonical writer takes Unicode normalisation as a parameter that is idempotent. The module's documentation
  promises sorted keys and normalised strings; the code sorts the keys before it normalises them, and the model follows
  the code. `StableIffPrintsLikeNfcTwin` says for which values this makes no difference, and for which it does.
- The calculator's values are the operations that compute them, so the result holds in any arithmetic, rounding
  included.
- A bulk ledger call (`reap`, `delete_by_tenant`) may visit its records in any order; `SweepIsRun` and `PurgeIsRun` show
  that it is a run of single steps.

## Model

| member | source | states |
|---|---|---|
| `TurnSafety.StepKeepsInv` | crates/responses/src/service/responses.rs:115-524 | every step of every actor keeps the protocol invariant and moves each record only forward |
| `TurnSafety.RunKeepsInv` | crates/agent-runtime/src/runtime.rs:231-463 | the invariant holds in every state of every run |
| `TurnSafety.OneWinner` | verify/mock/server/src/ledger.rs:181-308 | in every interleaving at most one actor wins a response's terminal transition, at most one archive call and one terminal event follow, and their status and kind agree with the ledger (a cancelled response announces `Failed`) |
| `TurnSafety.OneClaim` | verify/mock/server/src/event_log.rs:127-168 | a response is claimed at most once, and every fenced event carries the attempt of that claim although check and push are separate steps |
| `TurnSafety.TerminalIsFinal` | verify/mock/server/src/ledger.rs:51-67 | between any two states of a run a surviving record's attempt does not decrease and a terminal record does not change; a deleted one does not come back |
| `TurnWinners.ClaimantPasses` | verify/mock/server/src/event_log.rs:127-145 | in every run the executor of a claim that still runs passes the fence |
| `TurnWinners.ClaimantFinishes` | crates/agent-runtime/src/runtime.rs:337-363 | and ends its response with the status and usage it reports |
| `TurnWinners.ClaimantFails` | crates/agent-runtime/src/runtime.rs:415-437 | or fails it |
| `TurnWinners.SupersededLoses` | crates/agent-runtime/src/runtime.rs:355-363 | an executor whose claim is gone passes no fence and changes nothing |
| `TurnWinners.PushLands` | verify/mock/server/src/event_log.rs:146-168 | an event pushed past the fence is in the log under its executor's attempt |
| `TurnWinners.OwnerCancels` | verify/mock/server/src/ledger.rs:210-248 | in every run a cancellation ends a live response of that tenant, raises its fence and has its funnel in hand, and is idle otherwise |
| `TurnWinners.SweepFails` | verify/mock/server/src/ledger.rs:250-308 | in every run a sweep fails exactly the claims it found, raises their fences and has a funnel for each |
| `TurnWinners.CreatorsEnd` | crates/responses/src/service/responses.rs:243-351 | in every run a creator takes over at most once and makes at most seven calls |
| `TurnAccounts.StepAccounts` | crates/agent-runtime/src/runtime.rs:337-463 | every step keeps the books of every response at exactly what the calls already made for it account for |
| `TurnAccounts.WonIsInHand` | crates/agent-runtime/src/runtime.rs:337-463 | in every run a won response is in its winner's hands, has been served, or its winner has stopped |
| `TurnAccounts.FunnelsEnd` | crates/responses/src/service/sweep.rs:89-193 | in every run a task at the end of responses proceeds at most seven times for each, and can proceed until it has served them or stopped |
| `TurnRequests.StepAsked` | crates/responses/src/service/responses.rs:115-171 | every step keeps tenant and input of a response as its creator gave them, in the record, with the executor and in the funnels |
| `TurnDelivery.StepFacts` | crates/agent-runtime/src/runtime.rs:550-655 | every step keeps what is noted about archiving, releasing and moving the tail true in the conversations |
| `TurnDelivery.ServedExactly` | crates/agent-runtime/src/runtime.rs:337-463 | in every run a served response has its one terminal event, is closed, archived, released and the tail moved, each unless that very call failed, or output could not be stored, or a cancelled record could not be read back |
| `TurnDelivery.LeavesBehind` | crates/responses/src/service/responses.rs:407-524 | in every run an archived turn is in the snapshot as one block, item by item what was asked and given, with reasoning only if it produced output; a released one is off the marker, and its end is on the stream if it held it |
| `TurnDelivery.ServedWhole` | crates/agent-runtime/src/runtime.rs:601-656 | where no call failed, all of it holds |
| `TurnDelivery.FailsForReason` | verify/mock/server/src/conversation.rs:303-349 | a call of a funnel fails only because the store is down, the record or the conversation is deleted, or the stream is full |
| `TurnDelivery.TailIsLastMoved` | verify/mock/server/src/conversation.rs:237-257 | the tail of a conversation is the response moved onto it last |
| `TurnProgress.Serves` | crates/agent-runtime/src/runtime.rs:337-463 | from any state with a funnel in hand whose conversation exists with room, steps without a failure lead to it being served |
| `TurnProgress.ServedHappens` | crates/responses/src/service/responses.rs:115-171 | a whole run from the empty store in which a response is created, claimed, executed and served and no call fails, for any ids and input |
| `TurnContents.StepStands` | crates/responses/src/service/sweep.rs:89-193 | every step of every actor keeps snapshots and the contexts read made of whole archived turns, and takes nothing out of a snapshot |
| `TurnContents.RunStands` | crates/agent-runtime/src/runtime.rs:552-634 | so it is in every state of every run |
| `TurnContents.ArchivedStays` | verify/mock/server/src/conversation.rs:196-235 | in every run, what is in a conversation's snapshot stays there while the conversation exists |
| `TurnContents.ContextHoldsTurns` | crates/agent-runtime/src/runtime.rs:552-634 | in every run, a turn listed in the snapshot an execution read is a contiguous block of the entries it read |
| `TurnExclusion.StepMarks` | crates/responses/src/service/responses.rs:243-351 | from any reachable state whose live turns hold their markers, a step leaves a live turn without its marker if and only if it is one of three guarded steps |
| `TurnExclusion.MarkedIffUnbroken` | crates/responses/src/service/responses.rs:115-171 | throughout a run all live turns hold their markers if and only if no step of the run is one of those three |
| `TurnExclusion.CleanRunKeepsExcl` | crates/responses/src/service/responses.rs:243-293 | every state of a clean run satisfies the exclusion invariant; takeovers, deletions and harmless failures included |
| `TurnExclusion.CleanIsUnbroken` | crates/responses/src/service/responses.rs:243-351 | the three steps have no other causes than a takeover of a pending holder, an unreadable ledger about a live one, and a lost acceptance or `Created` event of a live one |
| `TurnExclusion.OneTurnInFlight` | crates/responses/src/service/responses.rs:115-171 | up to the first such step of any run, a live response of an existing conversation holds its marker, and no second live response of that conversation exists |
| `TurnRaces.UnmarkedAdmitsTwo` | crates/responses/src/service/responses.rs:243-293 | from any state in which a live turn does not hold its conversation's marker, a newcomer of the same tenant can be brought in flight beside it |
| `TurnRaces.RacyTakeoverAdmitsTwo` | crates/responses/src/service/responses.rs:255-293 | from any state where a creator looks up a holder whose ledger record is still to come, five steps lead to two turns in flight |
| `TurnRaces.LostCreatedAdmitsTwo` | crates/responses/src/service/responses.rs:296-351 | a lost `Created` event gives the marker of a live turn back, and two turns come to be in flight |
| `TurnRaces.LostAnswerAdmitsTwo` | crates/responses/src/service/responses.rs:159-171 | so does an acceptance whose answer is lost |
| `TurnRaces.UnreadableLedgerAdmitsTwo` | crates/responses/src/service/responses.rs:258-280 | a failed ledger read lets a takeover clear the marker of a live holder, and the creator that asked comes in flight beside it |
| `TurnRaces.ExclusionFails` | crates/responses/src/service/responses.rs:137-171 | a whole run from the empty store, without a failing call, with two turns in flight on one conversation, for any two ids |
| `TurnRaces.LostCreatedMisreports` | crates/responses/src/service/responses.rs:296-351 | a whole run that ends with `TurnCompleted(Failed)` on the stream for a response that is accepted, live, to be stored and not in the snapshot |
| `TurnArchive.StepReports` | crates/responses/src/service/responses.rs:296-351 | from any reachable state whose announcements are right, a step makes one wrong if and only if a creator gives up aloud on an accepted response that has not failed or is still to be archived |
| `TurnArchive.ReportedIffHonest` | crates/agent-runtime/src/runtime.rs:337-463 | throughout a run all announcements are right if and only if no step of the run is such a one |
| `TurnArchive.HeardIsHonest` | crates/responses/src/service/responses.rs:148-171 | a run in which every acceptance and every `Created` event arrives has no such step, whatever else fails or races |
| `TurnArchive.ArchiveBeforeAnnounce` | crates/agent-runtime/src/runtime.rs:337-463 | up to the first such step of any run, an announced accepted turn has the ledger's status, and if it was stored and its archive call did not fail it is already in the snapshot |
| `TurnArchive.LaterTurnSeesEarlier` | crates/agent-runtime/src/runtime.rs:552-634 | a turn that starts after a stored turn was announced reads a context that holds all its entries as one block |
| `LedgerSpec.CompletedWith` | verify/mock/server/src/ledger.rs:189-208 | succeeds exactly for a terminal status under the fence of the running claim |
| `LedgerSpec.CancelledBy` | verify/mock/server/src/ledger.rs:217-248 | succeeds exactly for the owner's live record |
| `LedgerRuns.Stale` | verify/mock/server/src/ledger.rs:155-163 | the number of dead ids before the first record that still waits |
| `LedgerRuns.ClaimTakes` | verify/mock/server/src/ledger.rs:141-174 | the pop loop drops exactly the dead ids and claims the first waiting record, if there is one |
| `LedgerRuns.StepKeepsInv` | verify/mock/server/src/ledger.rs:96-353 | every ledger call keeps queue, records, keys, limit, indexes and usage right |
| `LedgerRuns.RunKeepsInv` | verify/mock/server/src/store.rs:203-223 | they are right after every run |
| `LedgerRuns.ClaimTakesOldest` | verify/mock/server/src/ledger.rs:135-174 | after any run a claim answers `None` exactly when nothing waits, and otherwise takes the earliest-created waiting record |
| `LedgerRuns.QueuedExactlyOnce` | verify/mock/server/src/ledger.rs:135-163 | every waiting record has exactly one place in the queue |
| `LedgerRuns.AcceptedOnce` | verify/mock/server/src/ledger.rs:116-138 | each key was accepted once, and ever after answers with that record, or `NotFound` once it is deleted |
| `LedgerRuns.LimitHolds` | verify/mock/server/src/ledger.rs:124-138 | the atomic ledger never exceeds a fixed limit |
| `LedgerRuns.TenantIndexExact` | verify/mock/server/src/store.rs:203-223 | the tenant index lists exactly the tenant's records |
| `LedgerRuns.AbortBooksNothing` | verify/mock/server/src/ledger.rs:241-246 | the booking branch of cancel and reap never fires, because a live record carries no usage |
| `LedgerRuns.UsageConserved` | verify/mock/server/src/store.rs:293-303 | after any run the total usage is the saturated sum of everything reported, and of nothing else |
| `LedgerRuns.SweepIsRun` | verify/mock/server/src/ledger.rs:250-308 | a sweep is a run of single aborts, each of a claim that still looks lost |
| `LedgerRuns.PurgeIsRun` | verify/mock/server/src/ledger.rs:338-353 | a purge by tenant is a run of single removals |
| `LedgerLives.RecordIsFate` | verify/mock/server/src/ledger.rs:96-353 | after every run a record is, field by field, the one accepted, but for the claim and the end its callers were told about |
| `LedgerLives.FenceAnswers` | verify/mock/server/src/ledger.rs:51-67 | after every run `complete` and the fence check succeed exactly for the attempt the running claim was answered with |
| `LedgerLives.AppendFenceAnswers` | verify/mock/server/src/event_log.rs:127-145 | and so does the fence of the event log |
| `LedgerLives.ClaimHolds` | verify/mock/server/src/ledger.rs:181-208 | from the answer to a claim until some call is told that it ended the response, that attempt completes, checks and appends, and every other is stale |
| `LedgerLives.CreateAnswers` | verify/mock/server/src/ledger.rs:116-139 | a new key is refused for read-only, the in-flight limit or the record limit, in this order, and accepted otherwise |
| `LedgerLives.CancelAnswers` | verify/mock/server/src/ledger.rs:210-248 | what a cancellation is answered, by what callers were told about the response |
| `LedgerLives.LostExactly` | verify/mock/server/src/ledger.rs:250-270 | after every run a sweep finds exactly the running responses whose agent was last heard of more than the time to live ago |
| `UsageSums.SumOverAny` | verify/mock/server/src/store.rs:299-303 | the sum of the booked amounts does not depend on the order they are taken in |
| `UsageSums.AccumulateAt` | crates/responses/src/usage.rs:66-71 | saturating accumulation into one slot moves that response's capped total by the amount, and no other's |
| `LedgerStore.MemLedger.Insert` | verify/mock/server/src/store.rs:203-213 | record, tenant index and expiry index change together |
| `LedgerStore.MemLedger.Remove` | verify/mock/server/src/store.rs:215-223 | removal takes the record out of both indexes and drops its bookings; an emptied tenant goes too |
| `LedgerStore.MemLedger.InFlightCount` | verify/mock/server/src/store.rs:284-289 | the count over any iteration order is the number of live records |
| `LedgerStore.MemLedger.Create` | verify/mock/server/src/ledger.rs:96-139 | the input is signed first and a failed signature changes nothing; then the in-place call is the specified one: gate, read-only, limit, capacity, in that order |
| `LedgerStore.MemLedger.Claim` | verify/mock/server/src/ledger.rs:141-174 | the loop computes the specified claim and its deadline |
| `LedgerStore.MemLedger.Complete` | verify/mock/server/src/ledger.rs:181-208 | the in-place call is the specified conditional transition |
| `LedgerStore.MemLedger.Cancel` | verify/mock/server/src/ledger.rs:210-248 | the in-place call is the specified cancellation |
| `LedgerStore.MemLedger.FindLost` | verify/mock/server/src/ledger.rs:255-270 | the scan lists exactly the claims whose holder looks lost, each once |
| `LedgerStore.MemLedger.Reap` | verify/mock/server/src/ledger.rs:250-308 | exactly the lost claims are aborted, and each notice describes its record as it was before |
| `LedgerStore.MemLedger.CheckAttempt` | verify/mock/server/src/ledger.rs:51-67 | the four answers of the fence check |
| `LedgerStore.MemLedger.RecordPartialUsage` | verify/mock/server/src/ledger.rs:310-326 | the amount is accumulated into its slot |
| `LedgerStore.MemLedger.DeleteByTenant` | verify/mock/server/src/ledger.rs:338-353 | every record of the tenant's index is removed, and the answer is how many records went |
| `LedgerStore.MemLedger.TotalUsage` | verify/mock/server/src/store.rs:293-303 | folding in any order gives the specified total |
| `Admission.RunKeepsInv` | verify/mock/client/src/ledger.rs:56-80 | in-flight responses and creators past their check together stay within limit + k - 1 |
| `Admission.PassesExactly` | verify/mock/client/src/ledger.rs:56-72 | the check passes a creator exactly on a writable node with room |
| `Admission.OvershootIsBounded` | verify/mock/client/src/ledger.rs:56-80 | with k creators at once the separate check never lets in-flight exceed limit + k - 1 |
| `Admission.BoundIsReached` | verify/mock/client/src/ledger.rs:56-80 | for every limit and k there is a run that reaches the bound |
| `ConversationSpec.AcquireActive` | verify/mock/server/src/conversation.rs:259-301 | succeeds exactly when the marker is free with room in the stream or already held; a refusal changes nothing |
| `ConversationSpec.ReleaseActive` | verify/mock/server/src/conversation.rs:303-349 | a release by anyone but the holder, or a refused one, changes nothing |
| `ConversationSpec.AppendTurn` | verify/mock/server/src/conversation.rs:196-235 | the response has an index afterwards, the one returned, and only the snapshot changes |
| `ConversationRuns.HolderNotCompleted` | verify/mock/server/src/conversation.rs:321-329 | a holder has not completed before, so the idempotent early return never strands a marker |
| `ConversationRuns.StreamAndMarkerAgree` | verify/mock/server/src/conversation.rs:259-390 | in every run events are numbered from zero and bounded, starts and completions pair up, and a set marker is the last boundary at `lock_seq` |
| `ConversationRuns.SnapshotIsFirstCommits` | verify/mock/server/src/conversation.rs:181-235 | the snapshot is the first commits in order, `appended` is a bijection onto the turn numbers, and later snapshots extend earlier ones |
| `ConversationRuns.SnapshotExactly` | verify/mock/server/src/conversation.rs:196-235 | after any run the snapshot is, by turn, side and index, what the first archive call of each response gave |
| `ConversationRuns.AcquireExactly` | verify/mock/server/src/conversation.rs:259-301 | after any run what an acquisition answers and adds to the stream, number, kind and time |
| `ConversationRuns.ReleaseExactly` | verify/mock/server/src/conversation.rs:303-349 | after any run a holder with room is announced at the next number and freed, however often anybody released before |
| `ConversationRuns.ReasoningOnFirstOutput` | verify/mock/server/src/conversation.rs:218-229 | after any run an entry of the snapshot with reasoning is the first output of one of the commits, at its place in the flattened history, with that commit's reasoning |
| `ConversationStore.MemConversationStore.PushEvent` | verify/mock/server/src/store.rs:251-267 | the next number is assigned and the event appended |
| `ConversationStore.MemConversationStore.AcquireActive` | verify/mock/server/src/conversation.rs:259-301 | the in-place call is the specified one and touches no other conversation |
| `ConversationStore.MemConversationStore.ReleaseActive` | verify/mock/server/src/conversation.rs:303-349 | the in-place call is the specified one and touches no other conversation |
| `ConversationStore.MemConversationStore.ReleaseStaleActive` | verify/mock/server/src/conversation.rs:351-371 | clears the marker only of the holder named |
| `ConversationStore.MemConversationStore.AppendEvent` | verify/mock/server/src/conversation.rs:376-390 | appends within the bound or refuses |
| `ConversationStore.MemConversationStore.AppendTurn` | verify/mock/server/src/conversation.rs:196-235 | the loop that hands the reasoning to the first output item builds the specified entries |
| `ConversationStore.MemConversationStore.ReadAfter` | verify/mock/server/src/conversation.rs:392-433 | a read is exactly the requested stretch of the stream |
| `EventLogSpec.EvictedDrops` | verify/mock/server/src/event_log.rs:160-163 | eviction drops exactly the surplus from the front and counts it |
| `EventLogSpec.AppendRefines` | verify/mock/server/src/event_log.rs:146-168 | an append keeps the ring equal to the newest events of the history |
| `EventLogSpec.ReadExact` | verify/mock/server/src/event_log.rs:173-224 | a read is the exact slice, or `Expired` exactly when the log is swept or the position evicted |
| `EventLogRuns.RingIsHistory` | verify/mock/server/src/event_log.rs:51-71 | after any run the ring is `history[evicted_before..next_seq]`, numbered contiguously, never longer than the capacity |
| `EventLogRuns.ReadsAreExact` | verify/mock/server/src/event_log.rs:173-224 | what every read answers after any run, `Unknown` included |
| `EventLogRuns.RunKeepsInv` | verify/mock/server/src/event_log.rs:226-278 | a log only goes from live to expired to unknown, and its history grows only while it is live |
| `EventLogRuns.LostStaysLost` | verify/mock/server/src/event_log.rs:249-278 | a lost position stays lost, and `Unknown` never turns back into `Expired` |
| `EventLogRuns.SinceClose` | verify/mock/server/src/event_log.rs:249-278 | after a close a log is expired once a sweep comes at the end of its retention and gone once one comes at ten times that, and not before |
| `EventLogRuns.ReadsSinceClose` | verify/mock/server/src/event_log.rs:226-278 | what a reader is told from then on |
| `EventLogRuns.UnclosedLives` | verify/mock/server/src/event_log.rs:63-71 | a log nobody closes or removes outlives every sweep |
| `EventLogStore.MemEventLog.Append` | verify/mock/server/src/event_log.rs:127-171 | fence, capacity and tombstone checks, then the eviction loop computes the specified log |
| `EventLogStore.MemEventLog.ReadAfter` | verify/mock/server/src/event_log.rs:173-224 | one poll, by tombstone, target, eviction and offset, returns exactly the requested stretch of any history the log stands for, or says that it is lost |
| `EventLogStore.MemEventLog.Close` | verify/mock/server/src/event_log.rs:226-239 | starts the retention window of that log only |
| `EventLogStore.MemEventLog.SweepExpired` | verify/mock/server/src/event_log.rs:249-278 | every log is kept, emptied or dropped as its deadlines say, and the answer counts the logs changed |
| `Sse.Delivery` | gateway/src/sse.rs:127-192 | over any interleaving the events sent are exactly the numbers after the cursor with the history's contents, and the stream ends after the first batch with a terminal event or after one error, and only then |
| `Sse.PollExact` | gateway/src/sse.rs:127-192 | a poll fails exactly when the log or its next event is gone, waits exactly when there is nothing new, and otherwise sends at least the next event |
| `Sse.OpenExact` | gateway/src/sse.rs:127-150 | opening fails as unknown or expired exactly when the first event is not to be had |
| `Sse.CursorRoundTrip` | gateway/src/sse.rs:327-331 | the id of a frame, sent back as `Last-Event-ID`, is that frame's cursor whatever the query says |
| `Sse.CursorExactly` | gateway/src/sse.rs:327-331 | the cursor is the number the header names, if it names one of 64 bits, and else the query's |
| `Sse.Resumption` | gateway/src/sse.rs:127-192 | a reconnect with the last id seen continues the stretch without gap or repeat |
| `SinkSpec.SortIsStable` | crates/responses/src/service/sweep.rs:280 | the sort orders by index and keeps equal indexes in order |
| `SinkSpec.RunAgrees` | crates/agent-runtime/src/sink.rs:140-187 | after every sequence of sink calls the replay of the log holds what the sink holds |
| `SinkSpec.ReplayMatchesSink` | crates/responses/src/service/sweep.rs:214-282 | replaying all accepted events archives exactly the completed items followed by the partial item |
| `SinkCalls.HalfStreamed` | crates/agent-runtime/src/sink.rs:86-102 | with an item added last, what is archived is the items done and then, for a message with text, that message with the text streamed since, marked incomplete |
| `SinkCalls.NothingOpen` | crates/responses/src/service/sweep.rs:264-282 | with none open, exactly the items done |
| `SinkCalls.EventsTold` | crates/agent-runtime/src/sink.rs:140-271 | each event of the log in terms of the calls before it: kind, attempt, item, place, part and text |
| `ReplayEvents.OpenItemArchived` | crates/responses/src/service/sweep.rs:214-282 | of any history whose last item added is open under its index: the finished items sorted by index, with the half-streamed message among them |
| `ReplayEvents.FinishedArchived` | crates/responses/src/service/sweep.rs:238-246 | of any history whose last item added is finished under its index: the finished items sorted by index |
| `ReplayEvents.NeverAddedArchived` | crates/responses/src/service/sweep.rs:230-262 | of any history that never adds an item: the same |
| `SinkReplay.EventSink.Perform` | crates/agent-runtime/src/sink.rs:140-271 | each call of the sink has the specified effect on sink and log |
| `SinkReplay.StreamOne` | crates/agent-runtime/src/sink.rs:123-136 | a call answered `Continue` keeps the sink where the calls so far take it and its log standing for their events |
| `SinkReplay.AppendLifecycle` | crates/agent-runtime/src/runtime.rs:337-463 | so does a lifecycle event somebody else appends |
| `SinkReplay.StreamAll` | crates/agent-runtime/src/sink.rs:140-271 | any sequence of accepted calls leaves sink and log in step |
| `SinkReplay.ReplayOf` | crates/responses/src/service/sweep.rs:214-282 | end to end: the paged replay of the log that a sink wrote returns exactly what the sink holds, for any page size, or says that the log is gone or incomplete |
| `ReplayRuns.RacingReplay` | crates/responses/src/service/sweep.rs:214-282 | with appends, evictions and sweeps between its pages, a replay that returns items returns what the whole history says when its last page comes back empty |
| `ReplayRuns.RaceIsHarmless` | crates/responses/src/service/sweep.rs:221-262 | lifecycle events appended meanwhile do not change what is archived |
| `SinkReplay.EventSink.Push` | crates/agent-runtime/src/sink.rs:123-136 | a stale append stops the sink for good; a stopped sink appends nothing |
| `SinkReplay.EventSink.TextDelta` | crates/agent-runtime/src/sink.rs:140-154 | the text is recorded even when the append is refused |
| `SinkReplay.EventSink.ReasoningTextDelta` | crates/agent-runtime/src/sink.rs:156-160 | the whole effect of the call on sink and log |
| `SinkReplay.EventSink.OutputItemAdded` | crates/agent-runtime/src/sink.rs:162-170 | opens the item under the next index |
| `SinkReplay.EventSink.OutputItemDone` | crates/agent-runtime/src/sink.rs:172-187 | completes the item and closes the open one |
| `SinkReplay.EventSink.ContentPartAdded` | crates/agent-runtime/src/sink.rs:219-237 | the whole effect of the call on sink and log |
| `SinkReplay.EventSink.FunctionCallArgumentsDelta` | crates/agent-runtime/src/sink.rs:189-202 | appends its fragment under the open item's index and leaves the items alone |
| `SinkReplay.EventSink.FunctionCallArgumentsDone` | crates/agent-runtime/src/sink.rs:204-217 | appends the arguments and leaves the items alone |
| `SinkReplay.EventSink.OutputTextDone` | crates/agent-runtime/src/sink.rs:239-249 | appends the finished text and leaves the items alone |
| `SinkReplay.EventSink.ContentPartDone` | crates/agent-runtime/src/sink.rs:251-271 | appends the finished part and leaves the items alone |
| `SinkReplay.EventSink.Partial` | crates/agent-runtime/src/sink.rs:86-102 | the open message with its text, if there is any |
| `SinkReplay.ReplayCompletedItems` | crates/responses/src/service/sweep.rs:214-282 | for any page size the paged loop archives what the whole history says, or reports that the log is gone or incomplete |
| `BareContext.LatestResponseObject` | crates/responses/src/service/responses.rs:606-645 | for any page size the loop finds the latest object of what it scans; an unreadable log yields none |
| `BareContext.ReconstructInService` | crates/responses/src/service/responses.rs:594-604 | input followed by the latest output |
| `BareContext.ReconstructInRuntime` | crates/agent-runtime/src/runtime.rs:498-534 | input followed by all outputs scanned; an unreadable log breaks the chain |
| `BareContext.ScansAll` | crates/agent-runtime/src/runtime.rs:505-533 | if nothing follows a terminal event, every page size reads the whole log |
| `BareContext.ScansExactly` | crates/responses/src/service/responses.rs:606-645 | a scan reads to the end of the page with the first terminal event, and everything if there is none |
| `BareContext.ReconstructionsAgree` | crates/responses/src/service/responses.rs:594-645 | the two give the same context if and only if no earlier response object carries output |
| `BareContext.TerminalOutputIsContext` | crates/agent-runtime/src/runtime.rs:498-534 | where only a final terminal event carries output, both yield exactly that output for any page sizes |
| `CanonicalText.RenderUnique` | crates/responses/src/canonical.rs:43-84 | compact text is unambiguous: it says which value it is and where it ends |
| `CanonicalText.EscapedUnique` | crates/responses/src/canonical.rs:80-84 | escaped strings are unambiguous and cannot hide their closing quote |
| `CanonicalReads.CharsRead` | crates/responses/src/canonical.rs:80-84 | a string reader with the escapes of section 7 of RFC 8259 undoes the escaping |
| `CanonicalReads.ShortestEscape` | crates/responses/src/canonical.rs:80-84 | of all ways to write a character the shortest is taken, hexadecimal digits in lower case |
| `CanonicalReads.ValueReads` | crates/responses/src/canonical.rs:43-84 | a reader of RFC 8259 gets every value back from its text |
| `CanonicalReads.ReadsBack` | crates/responses/src/canonical.rs:37-84 | from the canonical text it gets the canonical form, which is the value up to normalisation and key order |
| `Canonical.SortSorts` | crates/responses/src/canonical.rs:74-78 | entries come out in strict byte order of their keys |
| `Utf8.LessIsByteOrder` | crates/responses/src/canonical.rs:74-78 | the order of characters the model sorts keys by is the order of their UTF-8 bytes |
| `Canonical.PrintsAlike` | crates/responses/src/canonical.rs:37-72 | two values print alike exactly when their canonical forms are equal |
| `Canonical.Unambiguous` | crates/responses/src/canonical.rs:37-84 | among values whose keys keep their order under normalisation, equal text means equal up to normalisation and key order, and conversely |
| `Canonical.UnambiguousForNfcKeys` | crates/responses/src/canonical.rs:37-84 | the same for all values whose keys are normalised |
| `Canonical.StableIffPrintsLikeNfcTwin` | crates/responses/src/canonical.rs:65-70 | a value prints like its twin with normalised keys if and only if normalising keeps the key order in every object |
| `Canonical.DecomposedKeyPrintsDifferently` | crates/responses/src/canonical.rs:65-70 | two renderings of one object whose text differs |
| `Canonical.WriteCanonical` | crates/responses/src/canonical.rs:43-72 | the recursive writer appends exactly the canonical text to its buffer |
| `Canonical.ToCanonicalJson` | crates/responses/src/canonical.rs:37-41 | the text of a value |
| `Calculator.Parser.SkipWhitespace` | verify/mock/agentd/src/tool.rs:127-131 | the position moves to the first character that is not whitespace |
| `Calculator.Parser.ParseExpr` | verify/mock/agentd/src/tool.rs:137-154 | follows the grammar of sums and terminates |
| `Calculator.Parser.ParseTerm` | verify/mock/agentd/src/tool.rs:156-177 | follows the grammar of products, with the zero divisor an error |
| `Calculator.Parser.ParseFactor` | verify/mock/agentd/src/tool.rs:179-206 | follows the grammar of signs, parentheses and numbers |
| `Calculator.Parser.ParseNumber` | verify/mock/agentd/src/tool.rs:208-220 | takes the longest run of digits and points |
| `Calculator.Evaluate` | verify/mock/agentd/src/tool.rs:104-119 | the parser computes what the grammar says, trailing input an error |
| `CalculatorTrees.FactorReads` | verify/mock/agentd/src/tool.rs:179-206 | a tree in factor position is read back with its value |
| `CalculatorTrees.TermReads` | verify/mock/agentd/src/tool.rs:156-177 | a tree in term position is read back, products to the left first |
| `CalculatorTrees.ExprReads` | verify/mock/agentd/src/tool.rs:137-154 | a tree in expression position is read back, sums to the left first |
| `CalculatorTrees.EvaluatesTree` | verify/mock/agentd/src/tool.rs:104-221 | every tree written with the parentheses it needs, any others and any whitespace evaluates to its value, or to the division error |
| `CalculatorTexts.EvaluatesExactly` | verify/mock/agentd/src/tool.rs:104-221 | a text evaluates to a value if and only if it is the text of an expression tree with that value |
| `CalculatorTexts.ErrorsExplained` | verify/mock/agentd/src/tool.rs:104-221 | every error is explained: the text is torn at a place and for the reason it gives, or goes on after a whole expression at the position it gives |
| `JsonDepth.Measure` | crates/responses/src/protocol/limits.rs:132-152 | the explicit stack terminates with the recursive depth |
| `JsonDepth.DepthIsLongestChain` | crates/responses/src/protocol/limits.rs:129-152 | the depth is the length of the longest chain of nested values |
| `JsonDepth.ValidateDepth` | crates/responses/src/protocol/limits.rs:117-127 | accepts exactly the values none of whose chains of nested values is longer than the limit |

## Left out

- HTTP routing, authentication, error mapping, configuration, metrics, graceful shutdown, RPC clients and carriers.
- Waiting: long polls, notifications, the heartbeat task and the worker loop; a read answers at once and time is an argument.
- `previous_response_id` anchors inside the turn protocol: a response there has no anchor or a conversation. The contexts of bare responses are in `BareContext`.
- Idempotency keys, the pending limit and the record limit inside the turn protocol: there `create` may accept or refuse freely. The gate and the limits are in `LedgerRuns`.
- Which claims `reap` finds lost inside the turn protocol: any running claims, so every clock is covered. The choice itself is in `LedgerStore`.
- The final status a runner reports is `Completed` or `Incomplete`, as its interface documents; a runner that reports another terminal status through `complete` is not covered.
- SinkReplay.ReplayCompletedItems: the log does not change between the pages of this method; `ReplayRuns` is about one that does. The loops of `BareContext` read logs that stand still.
- SinkSpec.ReplayMatchesSink: says nothing of a sink with a refused append, whose own record then goes beyond the log; the runtime discards it. Item indexes do not overflow 32 bits.
- Sse.Delivery: one incarnation of a log; numbering starts again after a removal or a dropped tombstone. The conversation's event stream, which never ends, uses the same skeleton and is not modelled as a subscriber.
- How a signature is computed: a signer is any function that yields a tag or fails.
- A reply lost on its way back is a step of its own only for `create`. After any other call that took effect its caller stops, or goes on as after a success that the machine has a step for.
- Sequence numbers beyond 64 bits: an append to a log with that many events is excluded.
- Unicode normalisation itself, number formatting, HMAC, UUID text, serde derives, URL parsing.
- `format_number` and the JSON arguments of the calculator tool.
- `validate_items`, metadata, URL and request range checks, conversation metadata, listing and deletion by tenant: one-branch claims.
- The mock agent runner, the harness, oracles, conformance suite and build tooling.
