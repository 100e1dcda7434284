/**
 * The SQLite host, one prepared statement at a time: what each statement does to a run's row and
 * events, and what one process's executor does between two statements.
 */
module SqliteStatements {
  import opened Options
  import opened RunTypes

  type ProcessId = string

  const CLAIM_TTL_MS: nat := 30_000

  datatype Status = Pending | Running | Cancelling | Terminal(outcome: Outcome)

  /** The mutable columns of a `runs` row; `None` is SQL NULL. */
  datatype Row = Row(status: Status, holder: Option<ProcessId>, expires: Option<int>)

  /** The `events` rows of one run, by primary key `seq`. */
  type Table = map<nat, Event>

  // ---- statements -------------------------------------------------------------------------------

  /** `claim_expires_at < now`; NULL compares as unknown, which is not true. */
  predicate Lapsed(row: Row, now: int) { row.expires.Some? && row.expires.value < now }

  /** The WHERE clause of `acquireClaim`. */
  predicate Claimable(row: Row, now: int) {
    (row.holder.None? || Lapsed(row, now)) && !row.status.Terminal?
  }

  function AcquireClaim(row: Row, pid: ProcessId, now: int): Row {
    if Claimable(row, now) then row.(holder := Some(pid), expires := Some(now + CLAIM_TTL_MS)) else row
  }

  function RenewClaim(row: Row, pid: ProcessId, now: int): Row {
    if row.holder == Some(pid) then row.(expires := Some(now + CLAIM_TTL_MS)) else row
  }

  function ReleaseClaim(row: Row, pid: ProcessId): Row {
    if row.holder == Some(pid) then row.(holder := None, expires := None) else row
  }

  /** The UPDATE of a graceful shutdown: the expiry column keeps its value. */
  function ShutdownRelease(row: Row, pid: ProcessId): Row {
    if row.holder == Some(pid) then row.(holder := None) else row
  }

  /** `setCancelRequested`: the CASE keeps a terminal status. */
  function SetCancelRequested(row: Row): Row {
    if row.status.Terminal? then row else row.(status := Cancelling)
  }

  /** The WHERE clause of the orphan scan. */
  predicate Orphan(row: Row, now: int) {
    row.status in {Pending, Running, Cancelling} && (row.holder.None? || Lapsed(row, now))
  }

  // ---- one executor -----------------------------------------------------------------------------

  /** Where `appendEvent` returns to. */
  datatype Next =
    | ToLoop(i: nat)
    | ToBody(i: nat)
    | ToReturn(i: nat, outcome: Outcome)
    | ToTerminal(outcome: Outcome)

  /** The next statement (or await) of `runWorkflow` and the functions it calls. */
  datatype Pc =
    | LoadRun
    | ReadLog
    | MarkRunning(resumed: bool)
    | CountEvents(event: Event, next: Next)
    | InsertEvent(event: Event, at: nat, next: Next)
    | LoopHead(i: nat)
    | NodeHead(i: nat)
    | Asleep(i: nat)
    | Woken(i: nat)
    | Interrupted(i: nat)
    | Returned(i: nat, outcome: Outcome)
    | SetTerminal(outcome: Outcome)
    | Release
    | Finished
    | Fatal

  /**
   * `handler` counts the exception handlers already used up: 0 inside `try`, 1 inside `catch`,
   * 2 inside the promise's `.catch`; an exception after that ends the process.
   */
  datatype Executor = Executor(pc: Pc, handler: nat, aborted: bool)

  const FRESH := Executor(LoadRun, 0, false)

  datatype Local = Local(row: Row, table: Table, exec: Executor)

  /** Suspended at an `await`, or done: the only places where a signal handler or request can run. */
  predicate AtAwait(pc: Pc) {
    pc.Asleep? || pc.Woken? || pc.Interrupted? || pc.Returned? || pc.Finished? || pc.Fatal?
  }

  /** Can take a step of its own, without a timer firing. */
  predicate Runnable(pc: Pc) { !pc.Asleep? && !pc.Finished? && !pc.Fatal? }

  predicate Live(exec: Executor) { !exec.pc.Finished? && !exec.pc.Fatal? }

  /** Where execution goes on once an event is stored. */
  function Goto(nodes: Workflow, aborted: bool, next: Next): Pc {
    match next
    case ToLoop(i) => LoopHead(i)
    case ToBody(i) =>
      (match KindAt(nodes, i)
       case Noop => CountEvents(NodeCompleted(i), ToReturn(i, Completed))
       case Delay => if aborted then Interrupted(i) else Asleep(i)
       case Unsupported => CountEvents(NodeFailed(i), ToReturn(i, Failed)))
    case ToReturn(i, outcome) => Returned(i, outcome)
    case ToTerminal(outcome) => SetTerminal(outcome)
  }

  const FAIL := CountEvents(RunEnded(Failed), ToTerminal(Failed))

  /** A primary-key violation: `catch`, then the promise's `.catch`, then the process exits. */
  function Throw(exec: Executor): Executor {
    if exec.handler >= 2 then exec.(pc := Fatal) else exec.(pc := FAIL, handler := exec.handler + 1)
  }

  predicate HasStarted(table: Table) { exists k :: k in table && table[k] == RunStarted }

  const CANCEL := CountEvents(RunEnded(Cancelled), ToTerminal(Cancelled))

  /** One statement of process `pid`'s executor, or the resumption after an await. */
  function Step(nodes: Workflow, pid: ProcessId, l: Local): Local {
    var exec := l.exec;
    match exec.pc
    case LoadRun => l.(exec := exec.(pc := ReadLog))
    case ReadLog => l.(exec := exec.(pc := MarkRunning(HasStarted(l.table))))
    case MarkRunning(resumed) =>
      l.(row := l.row.(status := Running),
         exec := exec.(pc := CountEvents(if resumed then RunResumed else RunStarted, ToLoop(0))))
    case CountEvents(event, next) => l.(exec := exec.(pc := InsertEvent(event, |l.table|, next)))
    case InsertEvent(event, at, next) =>
      if at in l.table then l.(exec := Throw(exec))
      else l.(table := l.table[at := event], exec := exec.(pc := Goto(nodes, exec.aborted, next)))
    case LoopHead(i) =>
      l.(exec := exec.(pc :=
        if l.row.status.Cancelling? then CANCEL
        else if i < |nodes| then NodeHead(i)
        else CountEvents(RunEnded(Completed), ToTerminal(Completed))))
    case NodeHead(i) =>
      l.(exec := exec.(pc :=
        if l.row.status.Cancelling? then CountEvents(NodeCancelled(i), ToReturn(i, Cancelled))
        else CountEvents(NodeStarted(i), ToBody(i))))
    case Woken(i) => l.(exec := exec.(pc := CountEvents(NodeCompleted(i), ToReturn(i, Completed))))
    case Interrupted(i) => l.(exec := exec.(pc := CountEvents(NodeCancelled(i), ToReturn(i, Cancelled))))
    case Returned(i, outcome) =>
      l.(exec := exec.(pc :=
        match outcome
        case Completed => LoopHead(i + 1)
        case Cancelled => CANCEL
        case Failed => FAIL))
    case SetTerminal(outcome) => l.(row := l.row.(status := Terminal(outcome)), exec := exec.(pc := Release))
    case Release => l.(row := ReleaseClaim(l.row, pid), exec := exec.(pc := Finished))
    case Asleep(_) => l
    case Finished => l
    case Fatal => l
  }
}
