# WOP reference hosts and stream consumers, verified

A Dafny model of the state machines in this repository and proofs about them. It covers

* the **SQLite host**: any number of processes that share one database, claim runs with a
  check-and-set `UPDATE`, renew their leases, execute nodes, are killed or shut down, and pick
  orphaned runs up again;
* the **in-memory host**: the asynchronous run loop, its event log, cancels, live event streams and
  the idempotency cache;
* **event-stream framing**: what the hosts write against the line machines of the conformance suite
  and the TypeScript, Go and Python SDKs (the format is described in sections 9.2.5 and 9.2.6 of the
  WHATWG HTML Living Standard);
* the **canary scanner** of the conformance suite.

`dafny verify dfyconfig.toml` checks the whole project (Dafny 4.11).

## How the model is laid out

| part | files |
|---|---|
| shared vocabulary | `Options`, `Text`, `RunTypes`, `EventLog` |
| SQLite host, statements and turns | `SqliteStatements`, `SqliteTurns`, `SqliteHost` (classes), `TurnHistories`, `HostHistories`, `HostTurns`, `HostSites`, `HostSteps`, `HostExecutions` |
| SQLite host, protocol | `LeaseProtocol`, `EventTable`, `LeaseExclusivity`, `OnTimeLeases`, `LeaseTerms`, `LeaseLimits` |
| SQLite host, logs and endings | `LogGrammar`, `LogShape`, `SqliteDelays`, `RunOutcomes`, `ClosedRuns` |
| SQLite host, cancels and recovery | `SqliteCancel`, `CaughtCancels`, `InterruptedSleeps`, `ExecutorProgress`, `OrphanRecovery`, `LostRuns` |
| SQLite idempotency table | `SqliteIdempotency`, `SqliteDuplicates`, `SqliteCreate` (class) |
| in-memory host | `MemoryRun`, `MemoryRunLog`, `MemoryDelays`, `MemoryStreams`, `MemoryHost` (class), `IdempotencyCache` (class) |
| event streams | `EventStream`, `StreamClients` (classes), `EventStreamWire`, `Batches`, `ParserAgreement`, `CarriageReturns`, `ReaderAgreement`, `TruncatedStreams` |
| hosts and consumers together | `Delivery`, `PollCursor` |
| canary scanner | `Canaries` |

**Two grains.** `LeaseProtocol` makes every prepared statement one atomic action, and a kill may fall
between any two. `SqliteHost` runs turn by turn, from one `await` to the next. `SqliteTurns` proves that a
turn is its statements in sequence, `TurnHistories` that every turn is a history of the protocol, and
`HostHistories` and `HostTurns` that what one process sees of a protocol state commutes with every
request, claim, heartbeat, timer, turn, shutdown, death and boot scan of the host. `HostExecutions` puts
any number of processes together: every execution of theirs, turn by turn, is a history of the protocol
state by state, without a stolen claim (see below) if the processes steal none. So each theorem about
histories holds of the turn-by-turn host; `HostExecutions.HostLogsGrow`, `HostExecutions.HostRunsAreSound`
and `HostExecutions.HostEndsAreFinal` spell that out.

**Three levels of assumption.** Dense sequence numbers, immutable events and how long a cancel stays
pending need no assumption at all. Finality of a terminal status, the exact count of terminal events and
the outcome of a cancel need *unstolen claims*: no claim hits an open run whose lease has lapsed while its
executor is still alive. That is weaker than heartbeats on time (`OnTimeLeases.OnTimeIsUnstolen`), for
which a heartbeat every `CLAIM_TTL_MS` is enough (`LeaseTerms.HeartbeatsOftenSuffice`), and it is exactly
what lease exclusivity amounts to (`LeaseExclusivity.LeaseIsExclusive`). The log grammar holds, given
unstolen claims, if and only if the run is `Intact`: no executor was killed between storing its terminal
event and updating the status, or one was and nothing has been stored since
(`LogGrammar.WellFormedIffIntact`). `Run.lost` counts those executors; it stays 0 when kills fall between
turns.

**What a state is.** A run's row keeps its status and claim columns, its events are a map from sequence
number to event, an executor is the statement it will issue next. Hashes are taken to be injective, so
keys and bodies are compared directly. JSON is a pair of uninterpreted functions: encoded text has no
line break in it, and `Json` values carry only what the SDK filters look at. Text is a sequence of
characters. The clock is a non-decreasing integer that a statement reads at the instant it runs.
`CLAIM_TTL_MS` has its default value; nothing but the counterexamples depends on which value it is.
Timers are actions that may happen at any time while a node sleeps.

## What the proofs found

These are places where the code does something its comments or documentation do not say. The model
follows the code.

* `examples/hosts/sqlite/src/server.ts:470-471` stores the terminal event before the status. A kill in
  between leaves the run open, and its next holder stores a second terminal event
  (`LeaseLimits.KillInWindowGivesTwoTerminalEvents`). `LeaseExclusivity.TerminalEventCount` gives the
  exact condition. The in-memory host sets the status first.
* A run can complete although its cancel was accepted, in two ways. Line 433 sets `running`
  unconditionally, so a cancel is overwritten when an execution starts after it, be it the first one or
  the one that resumes an execution that was killed (`LeaseLimits.CancelForgottenOnResume`); and a cancel
  that arrives after the check at 465-466 comes too late (`LeaseLimits.CancelAfterLastCheck`). These are the
  only two: a cancel is pending or decided in every later state if and only if no execution starts
  (`SqliteCancel.CancelIsKept`), and as long as none starts the run completes if and only if the cancel
  found it committed to completing (`SqliteCancel.CompletesIffCommitted`). So a cancel that catches an
  executor past its start is safe until that executor's process ends (`CaughtCancels.CaughtCancelIsSafe`).
  `SqliteCancel.CancelDecidesOutcome` says for every place where a cancel can find the executor how the run
  ends, and `SqliteCancel.CancelStartsNoNode` which nodes still start.
* Neither `setRunTerminal` nor `appendEvent` checks the holder. Once a heartbeat is late, two processes
  can execute one run (`LeaseLimits.LateHeartbeatBreaksExclusivity`); the host's `README.md:146` states
  the opposite without that condition. `LeaseExclusivity.LeaseIsExclusive` gives the exact condition.
* The create handler looks the key up (606), inserts the run (633) and then the key (645), with nothing
  that ties them together. `spec/v1/idempotency.md:59-63` asks that exactly one of several concurrent
  duplicates is processed. Two that both look up before the first one is answered are both processed, and
  nothing else makes two (`SqliteDuplicates.BothProcessedIffRaced`). The later one to insert gets 500
  exactly if another request was answered by a fresh 201 between its own lookup and insertion
  (`SqliteDuplicates.ConflictIffRaced`, `SqliteDuplicates.ConflictIffRacedWithinADay`), and leaves a
  `pending` run that no answer ever names (`SqliteCreate.RaceLeavesTwoRuns`,
  `SqliteIdempotency.LostRunIsNeverNamed`). That run stays an orphan until a process boots, whose scan
  then executes it from its first statement (`LostRuns.LostRunIsAdopted`).
* The comment at 892-893 says that orphans are pending or running; the query also takes `cancelling`
  ones. The header comment (23) speaks of `BEGIN IMMEDIATE`; the claim is a single `UPDATE`. The host's
  `README.md:123,139` says that it neither resumes nor heartbeats; the code does both.
* A `Last-Event-ID` beyond the log makes the in-memory host replay nothing and then send every live
  event, including those the client asked to skip (`MemoryStreams.StreamIsExact` gives the exact
  condition).
* The reference hosts send `seq` but neither `eventId` nor `sequence`. The TypeScript consumer yields
  their events, the Go and Python consumers drop all of them (`ParserAgreement.HostStreamsPerSdk`). In
  general an SDK agrees with TypeScript exactly if its filter accepts every document TypeScript hands out
  (`ParserAgreement.SdksAgree`).
* The consumers disagree on lines that end in two carriage returns (`ParserAgreement.TwoCrsDisagree`) and
  on a last line without a newline, but only where that reaches the data or the name of an event.
  `ReaderAgreement.ReadersAgreeExactly` is the exact condition for every stream, on the lines of each
  block; `ReaderAgreement.UncutBlockAgrees` and `ParserAgreement.UnterminatedTail` spell two simple cases
  out. Their comments cite RFC 8895; the format is that of the WHATWG HTML Living Standard.
* In the in-memory host the check of `cancelRequested` at the start of `executeNode` (165-168) is never
  true, because `runWorkflow` makes the same check right before the call: a `node.cancelled` always
  follows that node's `node.started` (`MemoryRunLog.CancelledNodesHadStarted`).

## Model

| member | source | states |
|---|---|---|
| SqliteHost.Database.InsertRun | examples/hosts/sqlite/src/server.ts:146-148 | a new run is pending, unclaimed and has no events; nothing else changes |
| SqliteHost.Database.UpdateRunStatus | examples/hosts/sqlite/src/server.ts:150-152 | writes one run's status and leaves its claim alone |
| SqliteHost.Database.SetCancelRequested | examples/hosts/sqlite/src/server.ts:153-155 | a terminal status survives, any other becomes `cancelling` |
| SqliteHost.Database.InsertEvent | examples/hosts/sqlite/src/server.ts:120-128 | the primary key: a taken sequence number is refused and changes nothing |
| SqliteHost.Database.GetEventsAfter | examples/hosts/sqlite/src/server.ts:159 | the stored events above the cursor, in sequence order |
| SqliteHost.Database.AcquireClaim | examples/hosts/sqlite/src/server.ts:168-173 | one row changes exactly if the run is open and its lease is free or lapsed |
| SqliteHost.Database.ReleaseClaim | examples/hosts/sqlite/src/server.ts:174-176 | only the holder's claim is released |
| SqliteHost.Database.RenewClaim | examples/hosts/sqlite/src/server.ts:309-311 | only the holder's lease is extended |
| SqliteHost.Database.FindOrphans | examples/hosts/sqlite/src/server.ts:895-899 | exactly the open runs whose lease is free or lapsed |
| SqliteHost.Database.ReleaseAll | examples/hosts/sqlite/src/server.ts:950 | frees every claim of the process and keeps the expiry columns |
| SqliteHost.Process.AppendEvent | examples/hosts/sqlite/src/server.ts:252-276 | appends at the next sequence number; within a turn the insertion cannot fail |
| SqliteHost.Process.SetRunTerminal | examples/hosts/sqlite/src/server.ts:278-286 | status, then release of the claim |
| SqliteHost.Process.ExecuteNode | examples/hosts/sqlite/src/server.ts:369-407 | performs exactly the node turn, up to the sleep or the result |
| SqliteHost.Process.LoopFrom | examples/hosts/sqlite/src/server.ts:440-471 | one iteration of the node loop, or the code after it, as a state function |
| SqliteHost.Process.RunWorkflow | examples/hosts/sqlite/src/server.ts:409-446 | first turn: `running` whatever the status was, started or resumed, then the loop from node 0 |
| SqliteHost.Process.HasStartEvent | examples/hosts/sqlite/src/server.ts:431-432 | true exactly if a `run.started` is stored |
| SqliteHost.Process.Resume | examples/hosts/sqlite/src/server.ts:388-474 | every later turn as a state function of the suspended executor |
| SqliteHost.Process.TryClaim | examples/hosts/sqlite/src/server.ts:290-293 | wins exactly if the row is claimable, and then starts a fresh executor |
| SqliteHost.Process.Wake | examples/hosts/sqlite/src/server.ts:332-345 | a fired timer wakes the sleeping executor and changes nothing else |
| SqliteHost.Process.Heartbeat | examples/hosts/sqlite/src/server.ts:313-324 | renews this process's lease on one run and nothing else |
| SqliteHost.Process.HandleCancelRun | examples/hosts/sqlite/src/server.ts:686-711 | 404, the terminal status unchanged, or `cancelling` with the local executor aborted |
| SqliteHost.Process.HandleEventsPoll | examples/hosts/sqlite/src/server.ts:713-747 | status, events above the cursor, next cursor and terminal flag |
| SqliteHost.Process.Shutdown | examples/hosts/sqlite/src/server.ts:945-953 | all claims released, events untouched, no executor left that could write |
| SqliteHost.Process.ResumeOrphans | examples/hosts/sqlite/src/server.ts:901-923 | the boot scan adopts exactly the orphans, each at the clock reading of its own claim, and executes each to its first await |
| SqliteHost.OrphansAreAdopted | examples/hosts/sqlite/src/server.ts:901-923 | after the scan every open run with a free or lapsed lease is held by the process or already terminal |
| SqliteHost.OthersAreUntouched | examples/hosts/sqlite/src/server.ts:895-899 | runs leased elsewhere and terminal runs keep their row and their events |
| SqliteTurns.AppendStatements | examples/hosts/sqlite/src/server.ts:252-276 | COUNT and INSERT in a row amount to an append and keep the numbering dense |
| SqliteTurns.StartIsStatements | examples/hosts/sqlite/src/server.ts:409-446 | the first turn is the statements in sequence |
| SqliteTurns.ResumeIsStatements | examples/hosts/sqlite/src/server.ts:388-474 | every later turn is the statements in sequence |
| TurnHistories.TurnIsHistory | examples/hosts/sqlite/src/server.ts:409-482 | from any reachable state a turn is a history of single statements of that executor alone |
| HostHistories.CreateIsAction | examples/hosts/sqlite/src/server.ts:146-148 | the insertion of a run is the create action, as any process sees it |
| HostHistories.ClaimIsAction | examples/hosts/sqlite/src/server.ts:290-293 | `TryClaim`, won or lost, is the claim action |
| HostHistories.HeartbeatIsAction | examples/hosts/sqlite/src/server.ts:313-324 | `Heartbeat` is the heartbeat action |
| HostHistories.CancelIsAction | examples/hosts/sqlite/src/server.ts:686-711 | a cancel with its local abort is the cancel action, or nothing on a closed run |
| HostHistories.WakeIsAction | examples/hosts/sqlite/src/server.ts:332-345 | `Wake` is the timer action |
| HostHistories.ShutdownIsAction | examples/hosts/sqlite/src/server.ts:945-953 | `Shutdown` between turns is the shutdown action |
| HostHistories.KillIsAction | examples/hosts/sqlite/src/server.ts:409-482 | a process that dies writes nothing and forgets its executors |
| HostHistories.OthersRemember | examples/hosts/sqlite/src/server.ts:409-482 | no action of one process changes what another one remembers |
| HostTurns.TurnIsActions | examples/hosts/sqlite/src/server.ts:409-482 | `RunWorkflow` and `Resume` are histories of that process alone |
| HostTurns.BootIsActions | examples/hosts/sqlite/src/server.ts:901-923 | for any clock readings some history of that process alone ends in the state `ResumeOrphans` leaves, without a stolen claim unless an orphan's executor is still alive when it is claimed |
| HostExecutions.ExecutionIsHistory | examples/hosts/sqlite/src/server.ts:409-953 | every execution of any number of processes, turn by turn over one database, is a protocol history in which every process sees its own tables and executors at every site; kills fall at awaits, and no claim is stolen if the processes steal none |
| HostSites.SitesRest | examples/hosts/sqlite/src/server.ts:409-482 | between turns every executor of every process is suspended at an await or done |
| HostExecutions.HostLogsGrow | examples/hosts/sqlite/src/server.ts:252-276 | of several host processes, with no assumption: each run's log is dense and only grows at its end |
| HostExecutions.HostRunsAreSound | examples/hosts/sqlite/src/server.ts:409-482 | of several host processes that steal no claim: at most one executes a run, and its log has the durable shape |
| HostExecutions.HostEndsAreFinal | examples/hosts/sqlite/src/server.ts:278-286 | and a terminal run keeps its status and its events |
| HostExecutions.HostEndsAreUnclaimed | examples/hosts/sqlite/src/server.ts:278-286 | and both claim columns of a terminal run are NULL |
| LeaseProtocol.ApplyMovesRun | examples/hosts/sqlite/src/server.ts:145-177 | runs never disappear, and an action on one run, or a crash, moves each run by its own rules |
| LeaseProtocol.NewRunsAreCreated | examples/hosts/sqlite/src/server.ts:633 | a run appears only as the create request inserts it |
| EventTable.MoveKeepsTable | examples/hosts/sqlite/src/server.ts:252-276 | no move breaks dense numbering, outstanding counts stay at most the current count, stored events stay |
| EventTable.SequenceIsDense | examples/hosts/sqlite/src/server.ts:120-128 | in every reachable state a run's events are numbered 0 to n-1, whoever writes and whenever |
| EventTable.StoredEventsNeverChange | examples/hosts/sqlite/src/server.ts:156-160 | stored events are never changed or lost, with no assumption on timing |
| EventTable.LogAppends | examples/hosts/sqlite/src/server.ts:252-276 | an insertion at the count appends to the ordered log |
| LeaseExclusivity.MoveKeepsLease | examples/hosts/sqlite/src/server.ts:168-176 | every move of every process, other than a claim under a live executor, keeps the lease invariant |
| LeaseExclusivity.LeaseHolds | examples/hosts/sqlite/src/server.ts:168-176 | the lease invariant in all states of all histories without a stolen claim |
| LeaseExclusivity.LeaseIsExclusive | examples/hosts/sqlite/src/server.ts:290-324 | at most one live executor per run in every state if and only if no claim hits an open run whose lease has lapsed under a live executor |
| LeaseExclusivity.LiveIsHolder | examples/hosts/sqlite/src/server.ts:290-324 | without a stolen claim the live executor is the row's `claim_holder_id` |
| LeaseExclusivity.TheftBreaksExclusivity | examples/hosts/sqlite/src/server.ts:168-173 | from any state, a stolen claim gives the run two live executors |
| LeaseExclusivity.ClaimChangesHands | examples/hosts/sqlite/src/server.ts:168-176 | without any assumption: another process takes a claim only after it lapsed, and only its holder frees it |
| LeaseExclusivity.TerminalMove | examples/hosts/sqlite/src/server.ts:150-177 | no claim, cancel, renewal, release, scan or statement changes a terminal run's status or events |
| LeaseExclusivity.TerminalIsFinal | examples/hosts/sqlite/src/server.ts:278-286 | without a stolen claim a terminal status is for ever, its log is frozen and ends in the matching event, even with kills between statements |
| LeaseExclusivity.StatementCounts | examples/hosts/sqlite/src/server.ts:470-471 | the terminal event is stored one statement before the status that it announces |
| LeaseExclusivity.TerminalEventCount | examples/hosts/sqlite/src/server.ts:278-286 | without a stolen claim the exact number of terminal events: one per executor killed in the window, plus one if closed or closing; and exactly when that is at most one |
| OnTimeLeases.OnTimeMeansKeepingUp | examples/hosts/sqlite/src/server.ts:313-324 | heartbeats are on time if and only if the clock never moves past the lease of a live executor |
| OnTimeLeases.OnTimeIsUnstolen | examples/hosts/sqlite/src/server.ts:313-324 | with heartbeats on time no claim is stolen, so all that needs unstolen claims holds |
| LeaseTerms.LeaseIsKept | examples/hosts/sqlite/src/server.ts:290-320 | for `CLAIM_TTL_MS` after a won claim or a heartbeat of the holder, while it does not give the run up: it is still the holder, no claim changes anything and no boot scan finds the run. No assumption |
| LeaseTerms.LeaseRunsOut | examples/hosts/sqlite/src/server.ts:168-173 | without a further renewal the lease lapses exactly when the clock exceeds the renewal by `CLAIM_TTL_MS`; then an open run is an orphan and whoever claims it gets it |
| LeaseTerms.HeartbeatsOftenSuffice | examples/hosts/sqlite/src/server.ts:309-320 | heartbeats at most `CLAIM_TTL_MS` apart keep every lease on time |
| LogGrammar.LogIsWellFormed | examples/hosts/sqlite/src/server.ts:409-482 | with nothing lost in the window, the automaton of the log grammar accepts every log and agrees with the executor's position |
| LogGrammar.WellFormedIffIntact | examples/hosts/sqlite/src/server.ts:409-482 | a log is well formed if and only if nothing was lost in the window, or one executor was and nothing has been stored since |
| LogShape.AcceptedLogsHaveShape | examples/hosts/sqlite/src/server.ts:369-482 | an accepted log is a list of executions, each from node 0 on, closed by at most one fitting terminal event |
| LogShape.ShapesAreAccepted | examples/hosts/sqlite/src/server.ts:369-482 | and every log of that written-out shape is accepted |
| LogShape.DurableLogShape | examples/hosts/sqlite/src/server.ts:409-482 | over crashes and resumes the log has that shape, closed as soon as the status is terminal, exactly if the run is intact |
| SqliteDelays.CompletedDelaysWereSlept | examples/hosts/sqlite/src/server.ts:386-394 | in every history, each stored `node.completed` of a delay node was stored by a process whose timer for that node had fired two of its own steps before |
| SqliteDelays.TimersAreNotShared | examples/hosts/sqlite/src/server.ts:386-394 | and no timer serves two completions, so every execution sleeps anew |
| RunOutcomes.UncancelledStaysSo | examples/hosts/sqlite/src/server.ts:409-472 | in every history, a run that nobody asked to cancel is never cancelled, nor any of its nodes |
| RunOutcomes.UncancelledEndsAsExpected | examples/hosts/sqlite/src/server.ts:440-472 | without a stolen claim such a run ends completed if the host can run all its nodes, and failed otherwise |
| RunOutcomes.ConflictsEndInFailure | examples/hosts/sqlite/src/server.ts:473-477 | in every history, an executor whose INSERT met a conflict does nothing but store `run.failed` and set that status |
| ClosedRuns.ClosedIsUnclaimed | examples/hosts/sqlite/src/server.ts:278-286 | without a stolen claim a terminal run is unclaimed, with both columns NULL, unless an executor is about to release it or was killed there |
| ClosedRuns.TurnGrainClosedIsUnclaimed | examples/hosts/sqlite/src/server.ts:278-286 | when kills fall between turns, every terminal run is unclaimed between turns |
| ClosedRuns.OpenIsClaimed | examples/hosts/sqlite/src/server.ts:278-286 | and while an executor lives the run is its process's, with a terminal status exactly when the release is due |
| LeaseLimits.TurnGrainLosesNothing | examples/hosts/sqlite/src/server.ts:409-482 | when kills fall between turns and no claim is stolen: at most one terminal event, exactly one once terminal, and a well-formed log |
| LeaseLimits.TurnGrainLogShape | examples/hosts/sqlite/src/server.ts:369-482 | the durable log grammar at the turn grain |
| LeaseLimits.LateHeartbeatBreaksExclusivity | examples/hosts/sqlite/src/server.ts:168-173 | a reachable state with two live executors after a late heartbeat |
| LeaseLimits.KillInWindowGivesTwoTerminalEvents | examples/hosts/sqlite/src/server.ts:470-471 | a reachable on-time log with two `run.completed` events |
| LeaseLimits.CancelForgottenOnResume | examples/hosts/sqlite/src/server.ts:433 | a reachable state where an accepted cancel is overwritten by `running` |
| LeaseLimits.CancelAfterLastCheck | examples/hosts/sqlite/src/server.ts:465-472 | a reachable state where an accepted cancel comes after the last check, and the run completes |
| SqliteCancel.CancelIsKept | examples/hosts/sqlite/src/server.ts:433 | a cancel is pending or decided in every state from its acceptance on if and only if no execution starts; no assumption on timing |
| SqliteCancel.CancelDecidesOutcome | examples/hosts/sqlite/src/server.ts:440-472 | with no execution started since, a closed run has exactly the outcome fixed by the statement at which the cancel caught its executor |
| SqliteCancel.CompletesIffCommitted | examples/hosts/sqlite/src/server.ts:465-472 | such a run completed if and only if the cancel found it committed to completing |
| SqliteCancel.CommittedMeansEnding | examples/hosts/sqlite/src/server.ts:469-472 | committed: a live executor is about to store `run.completed` or to set that status |
| SqliteCancel.CancelStartsNoNode | examples/hosts/sqlite/src/server.ts:375-380 | after a cancel at most one `node.started` is stored, the one its executor was already about to store |
| SqliteCancel.CancellingTurn | examples/hosts/sqlite/src/server.ts:375-378 | turn by turn: within an execution a cancelled run starts no node, never completes, and closes at the latest one turn after its node |
| CaughtCancels.PastStartStays | examples/hosts/sqlite/src/server.ts:433 | as long as its process lives, an executor past its start stays, and keeps every other execution from starting |
| CaughtCancels.CaughtCancelIsSafe | examples/hosts/sqlite/src/server.ts:686-711 | a cancel that catches an executor past its start is pending or has the outcome fixed by that statement, until the executor's process is killed or shut down |
| CaughtCancels.CaughtCancelTakesEffect | examples/hosts/sqlite/src/server.ts:440-472 | and that executor's own moves bring the run to that outcome in a bounded number of steps |
| InterruptedSleeps.CancelInterruptsSleep | examples/hosts/sqlite/src/server.ts:388-392 | a cancel by the executing process ends a sleep at once: its statements alone, without a timer, cancel node and run and free the run, and the log grows by exactly those two events |
| InterruptedSleeps.CancelWindsUp | examples/hosts/sqlite/src/server.ts:686-711 | from every await: a sleep is cut short, a node that is over stays over, and the log grows by exactly the last node event, if due, and the terminal event |
| InterruptedSleeps.HandlerInterruptsSleep | examples/hosts/sqlite/src/server.ts:686-711 | of the methods: `HandleCancelRun` and two `Resume`s, no `Wake`, close a run whose node sleeps |
| InterruptedSleeps.AbortedNeverSleeps | examples/hosts/sqlite/src/server.ts:332-345 | in every history, an executor aborted by a cancel never sleeps again, wherever the cancel found it |
| InterruptedSleeps.CancelNeedsNoTimer | examples/hosts/sqlite/src/server.ts:686-711 | so its own statements alone close the run, without any timer |
| ExecutorProgress.StatementLowersRank | examples/hosts/sqlite/src/server.ts:409-482 | every statement, conflicts included, lowers a rank bounded by the nodes left |
| ExecutorProgress.RankNeverRises | examples/hosts/sqlite/src/server.ts:409-482 | nothing any other process does raises an executor's rank |
| ExecutorProgress.StepsAreBounded | examples/hosts/sqlite/src/server.ts:409-482 | under any interleaving an executor takes at most as many steps as its rank |
| ExecutorProgress.FinishedRunsAreClosed | examples/hosts/sqlite/src/server.ts:278-286 | an executor that has finished left a terminal status |
| ExecutorProgress.SurvivorsCanMove | examples/hosts/sqlite/src/server.ts:409-482 | an executor whose run is still open can issue its next statement or waits for a timer |
| ExecutorProgress.SurvivorsCloseTheRun | examples/hosts/sqlite/src/server.ts:901-916 | from any reachable state with an executor on the run, that executor's own moves alone bring it to a terminal status, within the rank of its position, and make no heartbeat late |
| OrphanRecovery.ReleasedVersusKilled | examples/hosts/sqlite/src/server.ts:945-953 | after a shutdown the process's open runs are orphans at once, their expiry columns kept; after a kill exactly once their lease has lapsed; nothing of the process is left on them |
| OrphanRecovery.OrphanIsClaimed | examples/hosts/sqlite/src/server.ts:895-916 | every orphan can be claimed, and execution then begins at the first statement |
| OrphanRecovery.FreeOrphansAreIdle | examples/hosts/sqlite/src/server.ts:895-899 | without a stolen claim no live executor is left on a run whose claim is free |
| OrphanRecovery.OrphansCanBeClosed | examples/hosts/sqlite/src/server.ts:888-923 | any process that adopts an orphan can bring it to a terminal status by its own moves, in a number of steps bounded by the workflow |
| SqliteIdempotency.RowsNeverChange | examples/hosts/sqlite/src/server.ts:132-138 | an idempotency row is inserted and deleted, never updated |
| SqliteIdempotency.OneRunPerKey | examples/hosts/sqlite/src/server.ts:601-666 | between two deletions of a key's row at most one fresh 201; every later 201 replays its response for the same body |
| SqliteIdempotency.RowLivesADay | examples/hosts/sqlite/src/server.ts:536-538 | no prune deletes a row before it is 24 hours old |
| SqliteIdempotency.KeyPinsOneRunForADay | examples/hosts/sqlite/src/server.ts:601-666 | for 24 hours after a fresh 201 the key answers 201 only with that response, whoever asks whichever process |
| SqliteIdempotency.EveryStateIsGrounded | examples/hosts/sqlite/src/server.ts:601-666 | every run has its one creating request; every replay and 409 copies a stored answer, and a 500 has a fresh 201 for its key with another run behind it (`SqliteDuplicates.ConflictIffRaced` says when) |
| SqliteIdempotency.LostRunIsNeverNamed | examples/hosts/sqlite/src/server.ts:633-646 | the run of a request answered 500 stays in the table and appears in no 201 |
| SqliteDuplicates.RowMeansAnswer | examples/hosts/sqlite/src/server.ts:601-646 | in every state a key has a row if and only if some fresh 201 stored it and no prune has deleted it since |
| SqliteDuplicates.ProcessedIffUnanswered | examples/hosts/sqlite/src/server.ts:601-633 | a request goes on to insert a run if and only if at its lookup no fresh 201 for its key still counts |
| SqliteDuplicates.ConflictIffRaced | examples/hosts/sqlite/src/server.ts:601-646 | a request that missed at its lookup is answered 500 if and only if another one was answered by a fresh 201 between its lookup and its insertion, and that row is still there; otherwise 201. No time limit |
| SqliteDuplicates.ConflictIffRacedWithinADay | examples/hosts/sqlite/src/server.ts:601-646 | the same for insertions within 24 hours of the lookup, where any fresh 201 in between counts |
| SqliteDuplicates.BothProcessedIffRaced | spec/v1/idempotency.md:59-63 | within 24 hours a duplicate that looks up later is processed as well if and only if it looks up before the first request's answer |
| LostRuns.UnansweredIsUntouched | examples/hosts/sqlite/src/server.ts:633-655 | until a boot scan takes it, nobody executes or claims the run of a create request that has not answered 201 |
| LostRuns.LostRunIsAdopted | examples/hosts/sqlite/src/server.ts:633-646 | the run of a request answered 500 is an orphan at any time, and the next boot scan executes it from its first statement |
| SqliteCreate.Tables.InsertIdempotency | examples/hosts/sqlite/src/server.ts:162-164 | a taken key is refused and changes nothing |
| SqliteCreate.Tables.HandleCreateRun | examples/hosts/sqlite/src/server.ts:579-666 | undisturbed, the handler answers and stores exactly as the cache specification says |
| SqliteCreate.UninterruptedJob | examples/hosts/sqlite/src/server.ts:601-646 | the statements of one request in a row are the handler |
| SqliteCreate.RaceLeavesTwoRuns | examples/hosts/sqlite/src/server.ts:633-646 | a reachable state with one key, two runs, one 201 and one 500 |
| RunTypes.CompletedNodesAt | examples/hosts/in-memory/src/server.ts:218-219 | in the trace every node starts and completes once, in workflow order |
| RunTypes.TypeNamesDiffer | examples/hosts/in-memory/src/server.ts:146-157 | the wire name tells the type of an event and the outcome of a terminal one |
| MemoryRun.AppendStores | examples/hosts/in-memory/src/server.ts:146-157 | an append adds one entry numbered by the log length and touches nothing else of the run |
| MemoryRun.LoopKeepsTrace | examples/hosts/in-memory/src/server.ts:218-250 | from any iteration the loop stays on the trace of workflow and cancel point |
| MemoryRun.StepKeepsTrace | examples/hosts/in-memory/src/server.ts:161-251 | every timer, resumption and request keeps the trace invariant, the first effective cancel fixing the cancel point |
| MemoryRun.TraceHolds | examples/hosts/in-memory/src/server.ts:161-251 | in every reachable state log, status and suspension are those of the trace |
| MemoryRunLog.LogGrows | examples/hosts/in-memory/src/server.ts:146-157 | the log only ever grows at its end |
| MemoryRunLog.LogIsPrefixOfTrace | examples/hosts/in-memory/src/server.ts:146-251 | at every moment the log is a prefix of one pure trace of nodes and cancel point |
| MemoryRunLog.CompletedExactly | examples/hosts/in-memory/src/server.ts:205-251 | `completed` if and only if finished, never cancelled and no unsupported node; then the log is exactly the 2n+2 events |
| MemoryRunLog.TerminalEventIsLast | examples/hosts/in-memory/src/server.ts:220-250 | the terminal event is last, unique, matches the status, and is there exactly if the status is terminal |
| MemoryRunLog.CancelledNodesHadStarted | examples/hosts/in-memory/src/server.ts:165-168 | every `node.cancelled` directly follows that node's `node.started`: the check on entry never finds a cancel |
| MemoryDelays.CompletedDelaysWereSlept | examples/hosts/in-memory/src/server.ts:176-189 | when `node.completed` of a delay node is in the log, its timer has fired while the log ended with that node's `node.started` |
| MemoryDelays.SleepEndsByTimerOrCancel | examples/hosts/in-memory/src/server.ts:176-189 | nothing but that timer and a cancel ends a sleep |
| MemoryRunLog.StepKeepsWinding | examples/hosts/in-memory/src/server.ts:165-189 | after a cancel each own turn uses up one of the turns left, and requests use none |
| MemoryRunLog.CancelIsHonoured | examples/hosts/in-memory/src/server.ts:546-573 | after `cancelling`: no node starts, never `completed`, `failed` only if already failed, over within two turns and no timer |
| MemoryStreams.AppendDelivers | examples/hosts/in-memory/src/server.ts:702-709 | an append reaches every listener exactly once, and a terminal one ends its stream |
| MemoryStreams.SubscribeDelivers | examples/hosts/in-memory/src/server.ts:685-709 | backlog replay and listener registration leave no gap and no overlap |
| MemoryStreams.StreamIsDelivered | examples/hosts/in-memory/src/server.ts:661-714 | over every interleaving the stream is a contiguous part of the log from the resume point on |
| MemoryStreams.StreamIsExact | examples/hosts/in-memory/src/server.ts:691-713 | while connected the stream is the log filtered by `seq > k`, if and only if k was issued or nothing was appended since; it ends exactly at the terminal event |
| MemoryStreams.GoneStreamIsPrefix | examples/hosts/in-memory/src/server.ts:711-713 | after a disconnect it is a prefix of that |
| MemoryHost.RunRecord.constructor | examples/hosts/in-memory/src/server.ts:465-508 | a created run has executed to its first await |
| MemoryHost.RunRecord.Emit | examples/hosts/in-memory/src/server.ts:156 | one pass over a copy of the listeners writes to each, although terminal events unregister them meanwhile |
| MemoryHost.RunRecord.AppendEvent | examples/hosts/in-memory/src/server.ts:146-157 | the append of the state machine |
| MemoryHost.RunRecord.ExecuteNode | examples/hosts/in-memory/src/server.ts:161-203 | the node turn of the state machine |
| MemoryHost.RunRecord.LoopFrom | examples/hosts/in-memory/src/server.ts:218-250 | one iteration of the loop, or what follows it |
| MemoryHost.RunRecord.RunWorkflow | examples/hosts/in-memory/src/server.ts:205-219 | the first turn of the state machine |
| MemoryHost.RunRecord.Wake | examples/hosts/in-memory/src/server.ts:279-282 | a fired timer wakes the sleeping node and changes nothing else |
| MemoryHost.RunRecord.Continue | examples/hosts/in-memory/src/server.ts:178-250 | every later turn of the state machine |
| MemoryHost.RunRecord.HandleCancelRun | examples/hosts/in-memory/src/server.ts:546-573 | terminal runs are only reported; otherwise the flag is set and a sleep is interrupted |
| MemoryHost.RunRecord.HandleEventsSse | examples/hosts/in-memory/src/server.ts:661-709 | the replay loop writes exactly the entries after the resume point, then ends or listens |
| MemoryHost.RunRecord.HandleClose | examples/hosts/in-memory/src/server.ts:711-713 | the listener of that request and no other is removed |
| MemoryHost.RunRecord.HandleEventsPoll | examples/hosts/in-memory/src/server.ts:575-601 | events above the cursor, next cursor, status and terminal flag |
| EventLog.AfterIsSuffix | examples/hosts/in-memory/src/server.ts:692-694 | filtering a numbered log by `seq > k` gives the suffix from k+1 on |
| IdempotencyCache.Host.Prune | examples/hosts/in-memory/src/server.ts:352-357 | removes exactly the entries stored before the cutoff |
| IdempotencyCache.Host.HandleCreateRun | examples/hosts/in-memory/src/server.ts:413-523 | reply, new cache and new run set as functions of the old cache and the request |
| IdempotencyCache.CacheAgrees | examples/hosts/in-memory/src/server.ts:352-357 | for every cutoff from the last prune on, the lazily pruned cache and a search of the history alone give the same entry |
| IdempotencyCache.RepliesAreSearches | examples/hosts/in-memory/src/server.ts:440-463 | every reply is the one a search of the complete history within 24 hours gives, that search being defined without the cache |
| IdempotencyCache.KeyPinsOneRun | examples/hosts/in-memory/src/server.ts:440-463 | for 24 hours a key creates nothing more: same body replays the response, another body is a 409 |
| IdempotencyCache.RunsAreAcceptedRequests | examples/hosts/in-memory/src/server.ts:465-480 | the number of runs is the number of accepted, non-replayed requests |
| IdempotencyCache.RunsHaveCreators | examples/hosts/in-memory/src/server.ts:465-480 | a run exists if and only if an accepted request created it |
| IdempotencyCache.RefusalsChangeNothing | examples/hosts/in-memory/src/server.ts:446-462 | 409, replay and rejection leave runs and cache as they are, but for entries past their 24 hours |
| IdempotencyCache.RejectedIffInvalid | examples/hosts/in-memory/src/server.ts:418-438 | a request is rejected if and only if it is invalid, for that very reason (400 or 404), whatever is cached, and then nothing changes |
| IdempotencyCache.RepliesToInvalid | examples/hosts/in-memory/src/server.ts:418-438 | the same at every place of every history |
| IdempotencyCache.InvalidChangesNoReply | examples/hosts/in-memory/src/server.ts:418-438 | deleting an invalid request from a history changes no other reply |
| IdempotencyCache.AcceptedNamesItsRun | examples/hosts/in-memory/src/server.ts:465-515 | an accepted request is told its own new run, which then exists |
| IdempotencyCache.RefusalsHaveCauses | examples/hosts/in-memory/src/server.ts:440-463 | every replay and every 409 has an accepted request with the same key within 24 hours before it, with the same or another body |
| StreamClients.Subscribe | conformance/src/lib/sse.ts:91-171 | any chunking of the stream gives the events of the concatenated text |
| StreamClients.ApplyField | conformance/src/lib/sse.ts:123-148 | the field switch, comments included, is one step of the line machine |
| StreamClients.TypeScriptStreamEvents | sdk/typescript/src/sse.ts:76-152 | any chunking yields the documents of the concatenated text |
| StreamClients.TypeScriptFlush | sdk/typescript/src/sse.ts:90-113 | one document, the items of a batch, or nothing |
| StreamClients.GoStreamEvents | sdk/go/sse.go:107-192 | the scanner loop sends the documents of the whole text |
| StreamClients.GoFlush | sdk/go/sse.go:124-161 | batch items one by one through the filter, anything else as one document |
| StreamClients.ApplyFieldWithoutId | sdk/go/sse.go:163-187 | the Go switch is the same step, but for the identifier |
| StreamClients.FilterItems | sdk/python/src/wop_client/sse.py:150-156 | exactly the accepted items of a batch, in order |
| StreamClients.PythonStreamEvents | sdk/python/src/wop_client/sse.py:84-126 | the line iteration yields the documents of the whole text |
| StreamClients.PythonFlush | sdk/python/src/wop_client/sse.py:129-161 | lists only under `batch`, dictionaries otherwise, both filtered |
| EventStream.LinesConcat | conformance/src/lib/sse.ts:105-111 | cutting a + b into lines re-reads only the unterminated tail of a |
| EventStream.ParseIsBlockwise | conformance/src/lib/sse.ts:119-169 | the machine dispatches one frame per block that has a data line: last event name, joined data, last identifier |
| EventStream.StripsAgree | sdk/go/sse.go:164 | the two ways of stripping carriage returns differ exactly on lines that end in two |
| EventStreamWire.RoundTrip | examples/hosts/in-memory/src/server.ts:685-689 | printing then parsing gives the same identifiers, types and data, for all four readers |
| EventStreamWire.TruncatedRoundTrip | conformance/src/lib/sse.ts:97-169 | any character prefix parses to the events whose data line is complete |
| EventStreamWire.CompleteMonotone | conformance/src/lib/sse.ts:97-169 | a longer prefix never loses an event |
| TruncatedStreams.CutFrames | sdk/go/sse.go:163-192 | what the line readers dispatch when a stream stops inside an event, character by character |
| TruncatedStreams.TruncatedDocuments | sdk/python/src/wop_client/sse.py:84-126 | cut anywhere, every SDK yields the documents of a prefix of the events, at most one event apart |
| Text.DecimalRoundTrip | examples/hosts/in-memory/src/server.ts:673-677 | a written sequence number is read back as the same number |
| Batches.SdksAgreeOnFrames | sdk/go/sse.go:143-161 | on well-formed frames the three SDKs hand out the same documents |
| Batches.KeepWellFormed | sdk/python/src/wop_client/sse.py:164-184 | the item filters drop no well-formed document |
| Batches.WellFormedIsAcceptedByAll | sdk/go/sse.go:124-132 | the published shape is what the Go and Python filters both accept, but for nulls and sequence numbers in other types |
| Batches.NumbersConvert | sdk/python/src/wop_client/sse.py:164-184 | every integer, boolean and printed natural number converts, and nothing structured does |
| Batches.DocsAreFiltered | sdk/python/src/wop_client/sse.py:129-161 | what an SDK hands out is its filter applied to what TypeScript hands out |
| Batches.SdkAgreesExactly | sdk/go/sse.go:143-161 | an SDK hands out what TypeScript does if and only if it accepts every document TypeScript hands out |
| Batches.NoJsonLeavesNoTrace | sdk/typescript/src/sse.ts:90-113 | a frame whose data is no JSON changes nothing of what any SDK hands out |
| ParserAgreement.ReadersAgree | sdk/go/sse.go:163-192 | with a final newline and single carriage returns all readers dispatch the same frames |
| ParserAgreement.UnterminatedTail | sdk/go/sse.go:191-192 | without a final newline they differ exactly if the last line adds data or renames an event that has data |
| ParserAgreement.TwoCrsDisagree | sdk/go/sse.go:164 | a concrete stream on which the readers differ |
| ReaderAgreement.ReadersAgreeExactly | sdk/go/sse.go:163-192 | on every stream all readers dispatch the same events if and only if in every block at most one piece holds data, none of it after the last newline or ending in two carriage returns, and the event lines that count for either reading name the same event |
| ReaderAgreement.UncutBlockAgrees | sdk/go/sse.go:163-192 | for a block without a line of carriage returns only: if it has data, no data line ends in two carriage returns or lacks its newline, and the event lines that count name the same event |
| CarriageReturns.NamesRead | sdk/go/sse.go:163-192 | the readings name the event alike if and only if the line that counts for TypeScript does not end in two carriage returns and names what the line that counts for Go and Python names |
| ReaderAgreement.BareEventLine | sdk/go/sse.go:163-192 | a block whose last event line ends in two carriage returns although the readings agree: a bare `event`, which TypeScript overlooks, after a line that names the empty event |
| ParserAgreement.SdksAgree | sdk/typescript/src/sse.ts:90-152 | on every stream the readers read alike, an SDK yields TypeScript's documents if and only if it accepts all of them |
| ParserAgreement.BatchingIsTransparent | sdk/typescript/src/sse.ts:103-108 | any grouping of documents into `batch` frames, written and read back, yields what one frame each yields: those the filter accepts, and of well-formed ones all; an array under another event name stays one document |
| ParserAgreement.HostDocIsHostDoc | examples/hosts/in-memory/src/server.ts:147-154 | a host event has `seq` and neither `eventId` nor `sequence`, whatever its optional fields |
| ParserAgreement.HostStreamsPerSdk | sdk/go/sse.go:124-132 | on a reference host's stream TypeScript yields every event, Go and Python none |
| Delivery.ConnectionContinues | conformance/src/lib/sse.ts:91-171 | one cut connection adds consecutive events, starting where the client stopped |
| Delivery.CursorOfPrefix | examples/hosts/in-memory/src/server.ts:671-677 | the last received identifier is the number of the last received event |
| Delivery.ReceivedIsPrefix | examples/hosts/in-memory/src/server.ts:661-714 | over any number of cut and re-chunked connections the client holds exactly a prefix of the log |
| Delivery.TerminalCompletesTheLog | examples/hosts/in-memory/src/server.ts:702-709 | a client that has seen a terminal event holds the whole log, which never changes again |
| PollCursor.PollsCollectTheLog | examples/hosts/in-memory/src/server.ts:589-600 | polling with the previous cursor collects consecutive slices: after each poll, the whole log of that moment |
| PollCursor.MemoryPolls | examples/hosts/in-memory/src/server.ts:589-600 | the same over any history, and a terminal answer comes with the final log |
| PollCursor.SqlitePolls | examples/hosts/sqlite/src/server.ts:719-746 | the same for any number of writers and no timing assumption |
| PollCursor.SqliteTerminalAnswerIsFinal | examples/hosts/sqlite/src/server.ts:719-746 | although the status is read before the events, a terminal answer delivers the final log |
| Canaries.MarkersDoNotOverlap | conformance/src/lib/canaries.ts:30 | two occurrences of the marker never overlap |
| Canaries.StartsInsideLiesInside | conformance/src/lib/canaries.ts:126-128 | a marker that starts inside a reported canary lies inside it |
| Canaries.JumpOver | conformance/src/lib/canaries.ts:136 | the jump past a match skips no other match |
| Canaries.FindCanaryLeaks | conformance/src/lib/canaries.ts:108-140 | both passes report what a position-by-position scan reports |
| Canaries.MarkerLeaksAreReal | conformance/src/lib/canaries.ts:122-137 | a marker-only report for a position if and only if the marker occurs there outside all reported canaries |
| Canaries.ReportsAreReal | conformance/src/lib/canaries.ts:108-140 | every report is a true occurrence and holds the marker |
| Canaries.MarkersAreCovered | conformance/src/lib/canaries.ts:108-140 | every occurrence of the marker lies inside some report |
| Canaries.ReportsIffMarked | conformance/src/lib/canaries.ts:108-140 | reports if and only if the text contains the marker |

## Left out

* HTTP plumbing, authentication, routing, discovery and OpenAPI payloads, fixture loading, the debug
  bundle and `GET /v1/runs/{runId}`: input/output or projections of the state.
* The SQLite host's event stream (`handleEventsSse`): its backlog is the same filter, but its bus is
  local to a process, so events appended by another process do not reach it and no delivery theorem holds.
* The branches for an unknown workflow at execution time (`workflow_not_found`): a create request with an
  unknown workflow is rejected, and all processes load the same fixtures.
* SQLite faults and colliding process identifiers: statements succeed or report a primary-key conflict,
  and a restarted process has a new identifier.
* Timestamps, `inputs_json`, `error_json` and event `data`: no decision depends on them.
* `Number()` of a `Last-Event-ID` or `since` text is modelled for decimal numerals, which are all a client
  can have received; the handlers themselves are modelled for every integer.
* Exceptions of the TypeScript consumers other than the end of the stream, Go's 1 MB line limit, channel
  buffering and context cancellation, and UTF-8 decoding.
* The position of a suspended executor is a field (`pc`, `executors`), in place of the language runtime's
  promises; each stretch between two awaits is one method.
* Removal of the aborter and heartbeat of a finished executor is not a separate step: a finished executor
  is skipped by cancels and heartbeats.
- StreamClients.GoFlush: Go's decoder also matches JSON keys that differ in letter case; the model matches them exactly.
- StreamClients.PythonFlush: Python's `int()` also takes signed, padded and underscored numerals in text, and fractional numbers, which the model's integer `Json.Number` cannot express (Go's `int` rejects those); the model takes plain decimal numerals and integers.
- ParserAgreement.SdksAgree: one JSON decoder serves all three SDKs, although Python's `json.loads` also accepts `NaN` and `Infinity`.
- SqliteHost.Process.HandleCancelRun: the row is read and updated within one turn, which is how the handler runs after its request body has arrived.
- IdempotencyCache.Host.HandleCreateRun: takes its three clock readings as part of the request, in the order in which the code reads the clock.
