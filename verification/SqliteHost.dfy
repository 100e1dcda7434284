/**
 * The SQLite host as it is written: a database whose prepared statements update tables in place, and
 * a process that runs its turns on it. Every method is proved against the state functions of
 * `SqliteStatements` and `SqliteTurns`.
 */
module SqliteHost {
  import opened Options
  import opened RunTypes
  import opened EventLog
  import opened SqliteStatements
  import opened EventTable
  import opened SqliteTurns
  import LeaseProtocol

  type RunId = LeaseProtocol.RunId

  /** When each run's claim is made. */
  type Clock = RunId -> int

  /** The JSON answer of the poll endpoint. */
  datatype Poll = Poll(events: seq<Entry>, lastEventSeq: int, runStatus: Status, isTerminal: bool)

  /** The three places a turn can write to: two tables and the process's own suspended executors. */
  datatype State = State(rows: map<RunId, Row>, events: map<RunId, Table>, executors: map<RunId, Executor>)

  predicate Has(s: State, r: RunId) { r in s.rows && r in s.events && r in s.executors }

  function At(s: State, r: RunId): Local
    requires Has(s, r)
  {
    Local(s.rows[r], s.events[r], s.executors[r])
  }

  /** Replace what concerns run `r`, and nothing else. */
  function Put(s: State, r: RunId, l: Local): (s': State)
    ensures Has(s', r) && At(s', r) == l
  {
    State(s.rows[r := l.row], s.events[r := l.table], s.executors[r := l.exec])
  }

  /** Only the last state of a run counts. */
  lemma PutTwice(s: State, r: RunId, l: Local, l': Local)
    ensures Put(Put(s, r, l), r, l') == Put(s, r, l')
  {
    assert s.rows[r := l.row][r := l'.row] == s.rows[r := l'.row];
    assert s.events[r := l.table][r := l'.table] == s.events[r := l'.table];
    assert s.executors[r := l.exec][r := l'.exec] == s.executors[r := l'.exec];
  }

  /** Writing back what is there changes nothing. */
  lemma PutSame(s: State, r: RunId)
    requires Has(s, r)
    ensures Put(s, r, At(s, r)) == s
  {
    assert s.rows[r := s.rows[r]] == s.rows;
    assert s.events[r := s.events[r]] == s.events;
    assert s.executors[r := s.executors[r]] == s.executors;
  }

  function Stored(t: Table, at: nat, event: Event): Table { t[at := event] }

  lemma StartedKeepsRest(l: Local, e: Event)
    ensures Appended(l, e).exec == l.exec && Appended(l, e).row == l.row
  {
  }

  // ---- what each request does to the state --------------------------------------------------------------

  function Inserted(s: State, r: RunId): State {
    State(s.rows[r := Row(Pending, None, None)], s.events[r := map[]], s.executors)
  }

  function Claimed(s: State, pid: ProcessId, r: RunId, now: int): State
    requires r in s.rows
  {
    State(s.rows[r := SqliteStatements.AcquireClaim(s.rows[r], pid, now)], s.events,
          if Claimable(s.rows[r], now) then s.executors[r := FRESH] else s.executors)
  }

  function Renewed(s: State, pid: ProcessId, r: RunId, now: int): State
    requires Has(s, r)
  {
    Put(s, r, At(s, r).(row := SqliteStatements.RenewClaim(s.rows[r], pid, now)))
  }

  function CancelAsked(s: State, r: RunId): State
    requires r in s.rows
  {
    if s.rows[r].status.Terminal? then s
    else State(s.rows[r := s.rows[r].(status := Cancelling)], s.events,
               if r in s.executors then s.executors[r := LeaseProtocol.Abort(s.executors[r])] else s.executors)
  }

  function Stopped(s: State, pid: ProcessId): State {
    State(map r | r in s.rows :: ShutdownRelease(s.rows[r], pid), s.events, map[])
  }

  /** The tables, with one method for each prepared statement. */
  class Database {
    var rows: map<RunId, Row>
    var events: map<RunId, Table>
    const workflows: map<RunId, Workflow>

    constructor (workflows: map<RunId, Workflow>)
      ensures rows == map[] && events == map[] && this.workflows == workflows
    {
      rows, events := map[], map[];
      this.workflows := workflows;
    }

    ghost predicate Valid()
      reads this
    {
      && rows.Keys == events.Keys
      && rows.Keys <= workflows.Keys
      && forall r :: r in events ==> Dense(events[r])
    }

    method InsertRun(r: RunId)
      requires Valid() && r !in rows && r in workflows
      modifies this
      ensures Valid()
      ensures rows == old(rows)[r := Row(Pending, None, None)] && events == old(events)[r := map[]]
    {
      rows := rows[r := Row(Pending, None, None)];
      events := events[r := map[]];
    }

    method UpdateRunStatus(r: RunId, status: Status)
      requires r in rows
      modifies this`rows
      ensures rows == old(rows)[r := old(rows)[r].(status := status)]
    {
      rows := rows[r := rows[r].(status := status)];
    }

    method SetCancelRequested(r: RunId)
      requires r in rows
      modifies this`rows
      ensures rows == old(rows)[r := SqliteStatements.SetCancelRequested(old(rows)[r])]
    {
      if !rows[r].status.Terminal? {
        rows := rows[r := rows[r].(status := Cancelling)];
      }
      assert rows[r] == SqliteStatements.SetCancelRequested(old(rows)[r]);
    }

    method CountEvents(r: RunId) returns (n: nat)
      requires r in events
      ensures n == |events[r]|
    {
      n := |events[r]|;
    }

    /** False where the primary key `(run_id, seq)` is taken. */
    method InsertEvent(r: RunId, at: nat, event: Event) returns (stored: bool)
      requires r in events
      modifies this`events
      ensures stored == (at !in old(events)[r])
      ensures events == if stored then old(events)[r := Stored(old(events)[r], at, event)] else old(events)
    {
      stored := at !in events[r];
      if stored {
        events := events[r := Stored(events[r], at, event)];
      }
    }

    /** `SELECT * FROM events WHERE run_id = ? AND seq > ? ORDER BY seq ASC`. */
    method GetEventsAfter(r: RunId, since: int) returns (found: seq<Entry>)
      requires Valid() && r in events
      ensures found == After(Numbered(Log(events[r])), since)
    {
      hide After;
      found := [];
      ghost var all := Numbered(Log(events[r]));
      assert all[0..] == all;
      for k := 0 to |events[r]|
        invariant found + After(all[k..], since) == After(all, since)
      {
        AfterSplits(all, k, since);
        if k > since {
          found := found + [Entry(k, events[r][k])];
        }
      }
      AfterNothing(all, since);
    }

    /** The number of affected rows, 1 or 0. */
    method AcquireClaim(pid: ProcessId, r: RunId, now: int) returns (changes: nat)
      requires r in rows
      modifies this`rows
      ensures changes == if Claimable(old(rows)[r], now) then 1 else 0
      ensures rows == old(rows)[r := SqliteStatements.AcquireClaim(old(rows)[r], pid, now)]
    {
      var row := rows[r];
      changes := 0;
      if (row.holder.None? || (row.expires.Some? && row.expires.value < now)) && !row.status.Terminal? {
        rows := rows[r := row.(holder := Some(pid), expires := Some(now + CLAIM_TTL_MS))];
        changes := 1;
      }
      assert rows[r] == SqliteStatements.AcquireClaim(old(rows)[r], pid, now);
    }

    method ReleaseClaim(r: RunId, pid: ProcessId)
      requires r in rows
      modifies this`rows
      ensures rows == old(rows)[r := SqliteStatements.ReleaseClaim(old(rows)[r], pid)]
    {
      if rows[r].holder == Some(pid) {
        rows := rows[r := rows[r].(holder := None, expires := None)];
      }
      assert rows[r] == SqliteStatements.ReleaseClaim(old(rows)[r], pid);
    }

    method RenewClaim(r: RunId, pid: ProcessId, now: int)
      requires r in rows
      modifies this`rows
      ensures rows == old(rows)[r := SqliteStatements.RenewClaim(old(rows)[r], pid, now)]
    {
      if rows[r].holder == Some(pid) {
        rows := rows[r := rows[r].(expires := Some(now + CLAIM_TTL_MS))];
      }
      assert rows[r] == SqliteStatements.RenewClaim(old(rows)[r], pid, now);
    }

    /** `SELECT run_id FROM runs WHERE ...` of the orphan scan. */
    method FindOrphans(now: int) returns (found: set<RunId>)
      ensures found == set r | r in rows && Orphan(rows[r], now)
    {
      found := set r | r in rows && Orphan(rows[r], now);
    }

    /** The single UPDATE of a graceful shutdown. */
    method ReleaseAll(pid: ProcessId)
      modifies this`rows
      ensures rows == map r | r in old(rows) :: ShutdownRelease(old(rows)[r], pid)
    {
      rows := map r | r in rows :: if rows[r].holder == Some(pid) then rows[r].(holder := None) else rows[r];
    }
  }

  /** One host process. `executors` are its suspended `runWorkflow` calls, aborters included. */
  class Process {
    const pid: ProcessId
    const db: Database
    var executors: map<RunId, Executor>

    constructor (pid: ProcessId, db: Database)
      ensures this.pid == pid && this.db == db && executors == map[]
    {
      this.pid, this.db := pid, db;
      executors := map[];
    }

    ghost function Now(): State
      reads this, db
    {
      State(db.rows, db.events, executors)
    }

    /** `appendEvent`: COUNT, then INSERT; within one turn nothing can come between. */
    method AppendEvent(r: RunId, event: Event)
      requires db.Valid() && Has(Now(), r)
      modifies db`events
      ensures db.Valid() && Now() == Put(old(Now()), r, Appended(old(At(Now(), r)), event))
    {
      ghost var s := Now();
      var next := db.CountEvents(r);
      LogAppends(db.events[r], event);
      var stored := db.InsertEvent(r, next, event);
      assert stored;
      PutSame(s, r);
    }

    method SetRunTerminal(r: RunId, outcome: Outcome)
      requires db.Valid() && Has(Now(), r)
      modifies db`rows
      ensures db.Valid()
      ensures var l := old(At(Now(), r));
              Now() == Put(old(Now()), r,
                           l.(row := SqliteStatements.ReleaseClaim(l.row.(status := Terminal(outcome)), pid)))
    {
      hide Dense, SqliteStatements.ReleaseClaim;
      ghost var s := Now();
      db.UpdateRunStatus(r, Terminal(outcome));
      db.ReleaseClaim(r, pid);
      PutSame(s, r);
    }

    method Suspend(r: RunId, pc: Pc)
      requires Has(Now(), r)
      modifies this`executors
      ensures Now() == Put(old(Now()), r, Suspended(old(At(Now(), r)), pc))
    {
      ghost var s := Now();
      executors := executors[r := executors[r].(pc := pc)];
      PutSame(s, r);
    }

    /** An event, then the suspension after it. */
    method AppendAndSuspend(r: RunId, event: Event, pc: Pc)
      requires db.Valid() && Has(Now(), r)
      modifies this`executors, db`events
      ensures db.Valid() && Now() == Put(old(Now()), r, Suspended(Appended(old(At(Now(), r)), event), pc))
    {
      hide Put, At, Appended, Suspended, Dense;
      ghost var s, l := Now(), At(Now(), r);
      AppendEvent(r, event);
      Suspend(r, pc);
      PutTwice(s, r, Appended(l, event), Suspended(Appended(l, event), pc));
    }

    /** The three lines every way out of `runWorkflow` ends with. */
    method Close(r: RunId, outcome: Outcome)
      requires db.Valid() && Has(Now(), r)
      modifies this`executors, db`rows, db`events
      ensures db.Valid() && Now() == Put(old(Now()), r, Closed(pid, old(At(Now(), r)), outcome))
    {
      hide Put, At, Appended, Suspended, Dense, SqliteStatements.ReleaseClaim;
      ghost var s, l := Now(), At(Now(), r);
      AppendEvent(r, RunEnded(outcome));
      ghost var l1 := Appended(l, RunEnded(outcome));
      SetRunTerminal(r, outcome);
      ghost var l2 := l1.(row := SqliteStatements.ReleaseClaim(l1.row.(status := Terminal(outcome)), pid));
      PutTwice(s, r, l1, l2);
      Suspend(r, Finished);
      PutTwice(s, r, l2, Suspended(l2, Finished));
    }

    /** `executeNode`, up to the await in `core.delay` or the await on its result. */
    method ExecuteNode(r: RunId, i: nat)
      requires db.Valid() && Has(Now(), r) && r in db.workflows
      modifies this`executors, db`events
      ensures db.Valid() && Now() == Put(old(Now()), r, NodeTurn(db.workflows[r], old(At(Now(), r)), i))
    {
      hide Put, Dense;
      ghost var s, l := Now(), At(Now(), r);
      if db.rows[r].status.Cancelling? {
        AppendAndSuspend(r, NodeCancelled(i), Returned(i, Cancelled));
        return;
      }
      AppendEvent(r, NodeStarted(i));
      hide Appended;
      ghost var started := Appended(l, NodeStarted(i));
      assert executors[r].aborted == l.exec.aborted by {
        assert At(Now(), r) == started;
        StartedKeepsRest(l, NodeStarted(i));
      }
      match KindAt(db.workflows[r], i) {
        case Noop =>
          AppendAndSuspend(r, NodeCompleted(i), Returned(i, Completed));
        case Delay =>
          Suspend(r, if executors[r].aborted then Interrupted(i) else Asleep(i));
        case Unsupported =>
          AppendAndSuspend(r, NodeFailed(i), Returned(i, Failed));
      }
      PutTwice(s, r, started, At(Now(), r));
    }

    /** Iteration `i` of `for (const node of workflow.nodes)`, or the code after the loop. */
    method LoopFrom(r: RunId, i: nat)
      requires db.Valid() && Has(Now(), r) && r in db.workflows
      modifies this`executors, db`rows, db`events
      ensures db.Valid() && Now() == Put(old(Now()), r, LoopTurn(db.workflows[r], pid, old(At(Now(), r)), i))
    {
      hide Put, Dense, Closed, NodeTurn;
      if db.rows[r].status.Cancelling? {
        Close(r, Cancelled);
      } else if i < |db.workflows[r]| {
        ExecuteNode(r, i);
      } else {
        Close(r, Completed);
      }
    }

    /** `runWorkflow` up to its first await. */
    method RunWorkflow(r: RunId)
      requires db.Valid() && Has(Now(), r) && r in db.workflows
      modifies this`executors, db`rows, db`events
      ensures db.Valid() && Now() == Put(old(Now()), r, StartTurn(db.workflows[r], pid, old(At(Now(), r))))
    {
      hide Put, Dense, Appended, LoopTurn, HasStarted;
      ghost var s, l := Now(), At(Now(), r);
      var alreadyStarted := HasStartEvent(r);
      MarkRunning(r);
      ghost var l1 := l.(row := l.row.(status := Running));
      if !alreadyStarted {
        AppendEvent(r, RunStarted);
      } else {
        AppendEvent(r, RunResumed);
      }
      ghost var l2 := Appended(l1, if alreadyStarted then RunResumed else RunStarted);
      PutTwice(s, r, l1, l2);
      LoopFrom(r, 0);
      PutTwice(s, r, l2, LoopTurn(db.workflows[r], pid, l2, 0));
    }

    /** `updateRunStatus('running', null, null)`, whatever the status was. */
    method MarkRunning(r: RunId)
      requires db.Valid() && Has(Now(), r)
      modifies db`rows
      ensures db.Valid()
      ensures var l := old(At(Now(), r)); Now() == Put(old(Now()), r, l.(row := l.row.(status := Running)))
    {
      hide Dense;
      ghost var s := Now();
      db.UpdateRunStatus(r, Running);
      PutSame(s, r);
    }

    /** `startEvents.some((e) => e.type === 'run.started')`. */
    method HasStartEvent(r: RunId) returns (found: bool)
      requires db.Valid() && r in db.events
      ensures found == HasStarted(db.events[r])
    {
      found := false;
      var n := |db.events[r]|;
      for k := 0 to n
        invariant found <==> exists j :: 0 <= j < k && j in db.events[r] && db.events[r][j] == RunStarted
      {
        if db.events[r][k] == RunStarted {
          found := true;
        }
      }
    }

    /** The event loop resumes a `runWorkflow` call whose awaited promise has settled. */
    method Resume(r: RunId)
      requires db.Valid() && Has(Now(), r) && r in db.workflows
      requires AtAwait(executors[r].pc) && Runnable(executors[r].pc)
      modifies this`executors, db`rows, db`events
      ensures db.Valid() && Now() == Put(old(Now()), r, ResumeTurn(db.workflows[r], pid, old(At(Now(), r))))
    {
      hide Put, Dense, Appended, Suspended, LoopTurn, Closed;
      match executors[r].pc {
        case Woken(i) =>
          AppendAndSuspend(r, NodeCompleted(i), Returned(i, Completed));
        case Interrupted(i) =>
          AppendAndSuspend(r, NodeCancelled(i), Returned(i, Cancelled));
        case Returned(i, outcome) =>
          if outcome == Completed {
            LoopFrom(r, i + 1);
          } else {
            Close(r, outcome);
          }
      }
    }

    /** The timer of a sleeping node fires. */
    method Wake(r: RunId)
      requires db.Valid() && Has(Now(), r) && executors[r].pc.Asleep?
      modifies this`executors
      ensures Now() == Put(old(Now()), r, Suspended(old(At(Now(), r)), Woken(old(executors)[r].pc.i)))
    {
      Suspend(r, Woken(executors[r].pc.i));
    }

    /** `tryClaim`, and on success a fresh `runWorkflow` call. */
    method TryClaim(r: RunId, now: int) returns (won: bool)
      requires db.Valid() && r in db.rows && r !in executors
      modifies this`executors, db`rows
      ensures db.Valid() && won == Claimable(old(db.rows)[r], now) && db.events == old(db.events)
      ensures db.rows == old(db.rows)[r := SqliteStatements.AcquireClaim(old(db.rows)[r], pid, now)]
      ensures executors == if won then old(executors)[r := FRESH] else old(executors)
      ensures won ==> Now() == Put(old(Now()), r,
                                   Local(SqliteStatements.AcquireClaim(old(db.rows)[r], pid, now),
                                         old(db.events)[r], FRESH))
      ensures Now() == Claimed(old(Now()), pid, r, now)
    {
      hide Dense, SqliteStatements.AcquireClaim;
      var changes := db.AcquireClaim(pid, r, now);
      won := changes == 1;
      if won {
        executors := executors[r := FRESH];
        assert db.events[r := db.events[r]] == db.events;
      }
    }

    /** The heartbeat interval of one run. */
    method Heartbeat(r: RunId, now: int)
      requires db.Valid() && Has(Now(), r)
      modifies db`rows
      ensures db.Valid()
      ensures var l := old(At(Now(), r));
              Now() == Put(old(Now()), r, l.(row := SqliteStatements.RenewClaim(l.row, pid, now)))
      ensures Now() == Renewed(old(Now()), pid, r, now)
    {
      hide Dense, SqliteStatements.RenewClaim;
      ghost var s := Now();
      db.RenewClaim(r, pid, now);
      PutSame(s, r);
    }

    /** `handleCancelRun`: `None` is the 404, a terminal status is reported as it is. */
    method HandleCancelRun(r: RunId) returns (reported: Option<Status>)
      requires db.Valid()
      modifies this`executors, db`rows
      ensures db.Valid() && db.events == old(db.events)
      ensures reported == if r !in old(db.rows) then None
                          else Some(if old(db.rows)[r].status.Terminal? then old(db.rows)[r].status else Cancelling)
      ensures r !in old(db.rows) || old(db.rows)[r].status.Terminal? ==> Now() == old(Now())
      ensures r in old(db.rows) && !old(db.rows)[r].status.Terminal? ==>
                && db.rows == old(db.rows)[r := old(db.rows)[r].(status := Cancelling)]
                && executors == if r in old(executors)
                                then old(executors)[r := LeaseProtocol.Abort(old(executors)[r])] else old(executors)
      ensures r in old(db.rows) ==> Now() == CancelAsked(old(Now()), r)
    {
      if r !in db.rows {
        return None;
      }
      if db.rows[r].status.Terminal? {
        return Some(db.rows[r].status);
      }
      db.SetCancelRequested(r);
      if r in executors && Live(executors[r]) {
        var e := executors[r];
        executors := executors[r := e.(aborted := true, pc := if e.pc.Asleep? then Interrupted(e.pc.i) else e.pc)];
      }
      reported := Some(Cancelling);
    }

    /** `handleEventsPoll`: the row first, then the events. */
    method HandleEventsPoll(r: RunId, since: int) returns (reply: Option<Poll>)
      requires db.Valid()
      ensures reply == if r !in db.rows then None
                       else var found := After(Numbered(Log(db.events[r])), since);
                            Some(Poll(found, LastSeq(found, since), db.rows[r].status, db.rows[r].status.Terminal?))
    {
      if r !in db.rows {
        return None;
      }
      var row := db.rows[r];
      var found := db.GetEventsAfter(r, since);
      var last := if |found| > 0 then found[|found| - 1].at else since;
      reply := Some(Poll(found, last, row.status, row.status.Terminal?));
    }

    /** `shutdown`: every claim of this process is released, and its executors never write again. */
    method Shutdown()
      requires db.Valid()
      modifies this`executors, db`rows
      ensures db.Valid() && executors == map[] && db.events == old(db.events)
      ensures db.rows == map r | r in old(db.rows) :: ShutdownRelease(old(db.rows)[r], pid)
      ensures Now() == Stopped(old(Now()), pid)
    {
      executors := map[];
      db.ReleaseAll(pid);
    }

    /**
     * `resumeOrphans` at boot: scan at `now`, then claim and start each orphan in turn; `clock` gives
     * the readings of the clock at which the claims are made.
     */
    method ResumeOrphans(now: int, clock: Clock)
      requires db.Valid() && executors == map[] && forall r :: now <= clock(r)
      modifies this`executors, db`rows, db`events
      ensures db.Valid()
      ensures Now() == Recovered(old(Now()), db.workflows, pid, now, clock)
    {
      hide Put, Dense, StartTurn, RecoveredOnly, SqliteStatements.AcquireClaim;
      ghost var before := Now();
      var found := db.FindOrphans(now);
      ghost var done: set<RunId> := {};
      NothingAdopted(before, db.workflows, pid, clock);
      while found != {}
        invariant db.Valid() && done !! found
        invariant done + found == set r | r in before.rows && Orphan(before.rows[r], now)
        invariant Now() == RecoveredOnly(before, db.workflows, pid, clock, done)
        decreases found
      {
        var r :| r in found;
        AdoptNext(r, clock, before, done);
        found, done := found - {r}, done + {r};
      }
    }

    /** One round of the boot loop. */
    method AdoptNext(r: RunId, clock: Clock, ghost before: State, ghost done: set<RunId>)
      requires db.Valid() && Known(before, db.workflows) && r in before.rows && r !in done
      requires Claimable(before.rows[r], clock(r))
      requires Now() == RecoveredOnly(before, db.workflows, pid, clock, done)
      modifies this`executors, db`rows, db`events
      ensures db.Valid() && Now() == RecoveredOnly(before, db.workflows, pid, clock, done + {r})
    {
      hide Put, Dense, StartTurn, SqliteStatements.AcquireClaim;
      ghost var d := Now();
      NotYetAdopted(before, db.workflows, pid, clock, done, r);
      ClaimedStart(before, db.workflows, pid, clock, done, r);
      hide RecoveredOnly;
      var won := TryClaim(r, clock(r));
      assert won;
      ghost var fresh0 := At(Now(), r);
      RunWorkflow(r);
      PutTwice(d, r, fresh0, StartTurn(db.workflows[r], pid, fresh0));
    }
  }

  // ---- what a boot scan leaves behind -------------------------------------------------------------------

  /** One orphan, claimed and executed to its first await. */
  function Adopted(row: Row, table: Table, nodes: Workflow, pid: ProcessId, now: int): Local {
    StartTurn(nodes, pid, Local(AcquireClaim(row, pid, now), table, FRESH))
  }

  predicate Known(s: State, workflows: map<RunId, Workflow>) {
    s.rows.Keys == s.events.Keys && s.rows.Keys <= workflows.Keys
  }

  function RecoveredOnly(
    s: State, workflows: map<RunId, Workflow>, pid: ProcessId, clock: Clock, done: set<RunId>): State
    requires Known(s, workflows)
  {
    State(
      map r | r in s.rows ::
        if r in done then Adopted(s.rows[r], s.events[r], workflows[r], pid, clock(r)).row else s.rows[r],
      map r | r in s.events ::
        if r in done then Adopted(s.rows[r], s.events[r], workflows[r], pid, clock(r)).table else s.events[r],
      map r | r in s.rows && r in done :: Adopted(s.rows[r], s.events[r], workflows[r], pid, clock(r)).exec)
  }

  function Recovered(s: State, workflows: map<RunId, Workflow>, pid: ProcessId, now: int, clock: Clock): State
    requires Known(s, workflows)
  {
    RecoveredOnly(s, workflows, pid, clock, set r | r in s.rows && Orphan(s.rows[r], now))
  }

  lemma NothingAdopted(s: State, workflows: map<RunId, Workflow>, pid: ProcessId, clock: Clock)
    requires Known(s, workflows) && s.executors == map[]
    ensures RecoveredOnly(s, workflows, pid, clock, {}) == s
  {
    hide Adopted;
    var d := RecoveredOnly(s, workflows, pid, clock, {});
    assert d.rows == s.rows && d.events == s.events && d.executors == s.executors;
  }

  lemma NotYetAdopted(
    s: State, workflows: map<RunId, Workflow>, pid: ProcessId, clock: Clock, done: set<RunId>, r: RunId)
    requires Known(s, workflows) && r in s.rows && r !in done
    ensures var d := RecoveredOnly(s, workflows, pid, clock, done);
            r in d.rows && r in d.events && d.rows[r] == s.rows[r] && d.events[r] == s.events[r] && r !in d.executors
  {
    hide Adopted;
  }

  /** Adopting one more orphan extends the set of adopted ones. */
  lemma ClaimedStart(
    s: State, workflows: map<RunId, Workflow>, pid: ProcessId, clock: Clock, done: set<RunId>, r: RunId)
    requires Known(s, workflows) && r in s.rows && r !in done
    ensures var d := RecoveredOnly(s, workflows, pid, clock, done);
            RecoveredOnly(s, workflows, pid, clock, done + {r})
            == Put(d, r, Adopted(s.rows[r], s.events[r], workflows[r], pid, clock(r)))
  {
    hide Adopted;
    var d := RecoveredOnly(s, workflows, pid, clock, done);
    var d' := RecoveredOnly(s, workflows, pid, clock, done + {r});
    var l := Adopted(s.rows[r], s.events[r], workflows[r], pid, clock(r));
    assert d'.rows == d.rows[r := l.row];
    assert d'.events == d.events[r := l.table];
    assert d'.executors == d.executors[r := l.exec];
  }

  lemma AdoptedRow(row: Row, table: Table, nodes: Workflow, pid: ProcessId, now: int)
    requires Claimable(row, now)
    ensures var l := Adopted(row, table, nodes, pid, now);
            && AtAwait(l.exec.pc)
            && (l.row.status.Terminal? || l.row.holder == Some(pid))
            && (l.row.status.Terminal? <==> l.exec.pc.Finished?)
  {
    hide HasStarted;
  }

  /**
   * After a boot scan by a process that is alone, every run whose status is not terminal and whose
   * lease is free or lapsed is terminal or held by that process and suspended at an await.
   */
  lemma OrphansAreAdopted(
    s: State, workflows: map<RunId, Workflow>, pid: ProcessId, now: int, clock: Clock, r: RunId)
    requires Known(s, workflows) && r in s.rows && now <= clock(r)
    requires !s.rows[r].status.Terminal? && (s.rows[r].holder.None? || Lapsed(s.rows[r], now))
    ensures var s' := Recovered(s, workflows, pid, now, clock);
            && r in s'.rows && r in s'.executors
            && AtAwait(s'.executors[r].pc)
            && (s'.rows[r].status.Terminal? || s'.rows[r].holder == Some(pid))
            && (s'.rows[r].status.Terminal? <==> s'.executors[r].pc.Finished?)
  {
    hide HasStarted, Appended;
    assert Orphan(s.rows[r], now);
    AdoptedRow(s.rows[r], s.events[r], workflows[r], pid, clock(r));
    hide Adopted;
  }

  /** Runs whose lease is alive elsewhere, and terminal runs, are left alone. */
  lemma OthersAreUntouched(
    s: State, workflows: map<RunId, Workflow>, pid: ProcessId, now: int, clock: Clock, r: RunId)
    requires Known(s, workflows) && r in s.rows
    requires s.rows[r].status.Terminal? || (s.rows[r].holder.Some? && !Lapsed(s.rows[r], now))
    ensures var s' := Recovered(s, workflows, pid, now, clock);
            s'.rows[r] == s.rows[r] && s'.events[r] == s.events[r] && r !in s'.executors
  {
  }
}
