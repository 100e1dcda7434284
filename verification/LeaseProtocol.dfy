/**
 * Any number of processes over one database. Every prepared statement is one atomic action, and a
 * process can be killed between any two of them. Runs are independent, so the state is a map of
 * per-run states that share the clock.
 */
module LeaseProtocol {
  import opened Options
  import opened RunTypes
  import opened SqliteStatements

  type RunId = string

  /**
   * One run: its row, its events, the executors processes have started for it, and a history
   * counter `lost` of executors killed between storing a terminal event and updating the status.
   */
  datatype Run = Run(nodes: Workflow, row: Row, table: Table, execs: map<ProcessId, Executor>, lost: nat)

  datatype System = System(clock: int, runs: map<RunId, Run>)

  datatype Action =
    | Tick(now: int)
    | CreateRun(run: RunId, nodes: Workflow)
    | Claim(pid: ProcessId, run: RunId)
    | Advance(pid: ProcessId, run: RunId)
    | TimerFires(pid: ProcessId, run: RunId)
    | CancelRequest(pid: ProcessId, run: RunId)
    | Heartbeat(pid: ProcessId, run: RunId)
    | Kill(pid: ProcessId)
    | Shutdown(pid: ProcessId)

  predicate LiveOn(run: Run, pid: ProcessId) { pid in run.execs && Live(run.execs[pid]) }

  // ---- what an action does to one run -------------------------------------------------------------

  const NEW_ROW := Row(Pending, None, None)

  function Created(nodes: Workflow): Run { Run(nodes, NEW_ROW, map[], map[], 0) }

  /** `tryClaim` and, when it succeeds, the start of `runWorkflow`. */
  function ClaimRun(run: Run, pid: ProcessId, now: int): Run {
    if Claimable(run.row, now)
    then run.(row := AcquireClaim(run.row, pid, now), execs := run.execs[pid := FRESH])
    else run
  }

  function View(run: Run, pid: ProcessId): Local
    requires pid in run.execs
  {
    Local(run.row, run.table, run.execs[pid])
  }

  function AdvanceRun(run: Run, pid: ProcessId): Run
    requires pid in run.execs
  {
    var l := Step(run.nodes, pid, View(run, pid));
    run.(row := l.row, table := l.table, execs := run.execs[pid := l.exec])
  }

  /** `setTimeout` fires while the node sleeps. */
  function WakeRun(run: Run, pid: ProcessId): Run
    requires pid in run.execs && run.execs[pid].pc.Asleep?
  {
    run.(execs := run.execs[pid := run.execs[pid].(pc := Woken(run.execs[pid].pc.i))])
  }

  /** `abort()` on the process's own controller: a sleeping node is interrupted at once. */
  function Abort(exec: Executor): Executor {
    if !Live(exec) then exec
    else exec.(aborted := true, pc := if exec.pc.Asleep? then Interrupted(exec.pc.i) else exec.pc)
  }

  /** The cancel handler of process `pid`: the UPDATE, then the abort of an executor of its own. */
  function CancelRun(run: Run, pid: ProcessId): Run {
    run.(row := SetCancelRequested(run.row),
         execs := if pid in run.execs then run.execs[pid := Abort(run.execs[pid])] else run.execs)
  }

  function HeartbeatRun(run: Run, pid: ProcessId, now: int): Run {
    run.(row := RenewClaim(run.row, pid, now))
  }

  /** An executor killed here leaves a terminal event that no status UPDATE follows. */
  predicate InWindow(run: Run, pid: ProcessId) { pid in run.execs && run.execs[pid].pc.SetTerminal? }

  /** SIGKILL: the process's memory is gone, the database stays as it is. */
  function KillRun(run: Run, pid: ProcessId): Run {
    run.(execs := run.execs - {pid}, lost := run.lost + if InWindow(run, pid) then 1 else 0)
  }

  /** SIGINT and SIGTERM: release every claim, close the database; nothing is written afterwards. */
  function ShutdownRun(run: Run, pid: ProcessId): Run {
    run.(row := ShutdownRelease(run.row, pid), execs := run.execs - {pid})
  }

  // ---- the whole system -----------------------------------------------------------------------------

  predicate Enabled(s: System, a: Action) {
    match a
    case Tick(now) => s.clock <= now
    case CreateRun(r, _) => r !in s.runs
    case Claim(p, r) => r in s.runs && p !in s.runs[r].execs
    case Advance(p, r) => r in s.runs && p in s.runs[r].execs && Runnable(s.runs[r].execs[p].pc)
    case TimerFires(p, r) => r in s.runs && p in s.runs[r].execs && s.runs[r].execs[p].pc.Asleep?
    case CancelRequest(_, r) => r in s.runs
    case Heartbeat(p, r) => r in s.runs && LiveOn(s.runs[r], p)
    case Kill(_) => true
    case Shutdown(p) => forall r :: r in s.runs && p in s.runs[r].execs ==> AtAwait(s.runs[r].execs[p].pc)
  }

  function KillAll(s: System, pid: ProcessId): System {
    s.(runs := map r | r in s.runs :: KillRun(s.runs[r], pid))
  }

  function Apply(s: System, a: Action): System
    requires Enabled(s, a)
  {
    match a
    case Tick(now) => s.(clock := now)
    case CreateRun(r, nodes) => s.(runs := s.runs[r := Created(nodes)])
    case Claim(p, r) => s.(runs := s.runs[r := ClaimRun(s.runs[r], p, s.clock)])
    case Advance(p, r) =>
      var t := s.(runs := s.runs[r := AdvanceRun(s.runs[r], p)]);
      if t.runs[r].execs[p].pc.Fatal? then KillAll(t, p) else t
    case TimerFires(p, r) => s.(runs := s.runs[r := WakeRun(s.runs[r], p)])
    case CancelRequest(p, r) => s.(runs := s.runs[r := CancelRun(s.runs[r], p)])
    case Heartbeat(p, r) => s.(runs := s.runs[r := HeartbeatRun(s.runs[r], p, s.clock)])
    case Kill(p) => KillAll(s, p)
    case Shutdown(p) => s.(runs := map r | r in s.runs :: ShutdownRun(s.runs[r], p))
  }

  /** A finite history: `states[i + 1]` follows from `states[i]` by `actions[i]`. */
  ghost predicate History(states: seq<System>, actions: seq<Action>) {
    && |states| == |actions| + 1
    && states[0].runs == map[]
    && forall i :: 0 <= i < |actions| ==>
         Enabled(states[i], actions[i]) && states[i + 1] == Apply(states[i], actions[i])
  }

  /** One more action. */
  lemma HistorySnoc(states: seq<System>, actions: seq<Action>, a: Action)
    requires History(states, actions) && Enabled(states[|states| - 1], a)
    ensures History(states + [Apply(states[|states| - 1], a)], actions + [a])
  {
    hide Enabled, Apply;
  }

  /** Every executor renews its lease in time: no run with a live executor has a lapsed row. */
  ghost predicate OnTime(s: System) {
    forall r, p :: r in s.runs && LiveOn(s.runs[r], p) ==> !Lapsed(s.runs[r].row, s.clock)
  }

  // ---- an action seen from one run --------------------------------------------------------------------

  /** What one action means to one run. */
  datatype Move =
    | Stay
    | ClaimBy(pid: ProcessId)
    | AdvanceBy(pid: ProcessId)
    | CrashBy(pid: ProcessId)
    | WakeBy(pid: ProcessId)
    | CancelBy(pid: ProcessId)
    | HeartbeatBy(pid: ProcessId)
    | KillOf(pid: ProcessId)
    | ShutdownOf(pid: ProcessId)

  predicate CanMove(run: Run, m: Move) {
    match m
    case ClaimBy(p) => p !in run.execs
    case AdvanceBy(p) => p in run.execs && Runnable(run.execs[p].pc)
    case CrashBy(p) => p in run.execs && Runnable(run.execs[p].pc) && AdvanceRun(run, p).execs[p].pc.Fatal?
    case WakeBy(p) => p in run.execs && run.execs[p].pc.Asleep?
    case HeartbeatBy(p) => LiveOn(run, p)
    case ShutdownOf(p) => p in run.execs ==> AtAwait(run.execs[p].pc)
    case _ => true
  }

  function Moved(run: Run, m: Move, clock: int): Run
    requires CanMove(run, m)
  {
    match m
    case Stay => run
    case ClaimBy(p) => ClaimRun(run, p, clock)
    case AdvanceBy(p) => AdvanceRun(run, p)
    case CrashBy(p) => KillRun(AdvanceRun(run, p), p)
    case WakeBy(p) => WakeRun(run, p)
    case CancelBy(p) => CancelRun(run, p)
    case HeartbeatBy(p) => HeartbeatRun(run, p, clock)
    case KillOf(p) => KillRun(run, p)
    case ShutdownOf(p) => ShutdownRun(run, p)
  }

  function MoveOf(s: System, a: Action, r: RunId): Move
    requires Enabled(s, a) && r in s.runs
  {
    match a
    case Claim(p, q) => if q == r then ClaimBy(p) else Stay
    case Advance(p, q) =>
      if AdvanceRun(s.runs[q], p).execs[p].pc.Fatal? then (if q == r then CrashBy(p) else KillOf(p))
      else if q == r then AdvanceBy(p) else Stay
    case TimerFires(p, q) => if q == r then WakeBy(p) else Stay
    case CancelRequest(p, q) => if q == r then CancelBy(p) else Stay
    case Heartbeat(p, q) => if q == r then HeartbeatBy(p) else Stay
    case Kill(p) => KillOf(p)
    case Shutdown(p) => ShutdownOf(p)
    case _ => Stay
  }

  /** Runs never disappear, and each moves on its own. */
  lemma ApplyMovesRun(s: System, a: Action, r: RunId)
    requires Enabled(s, a) && r in s.runs
    ensures CanMove(s.runs[r], MoveOf(s, a, r))
    ensures r in Apply(s, a).runs && Apply(s, a).runs[r] == Moved(s.runs[r], MoveOf(s, a, r), s.clock)
  {
  }

  lemma AdvanceIsInRun(s: System, a: Action)
    requires Enabled(s, a) && a.Advance?
    ensures a.run in s.runs
  {
  }

  /** A run that was not there before starts out as `CreateRun` leaves it. */
  lemma NewRunsAreCreated(s: System, a: Action, r: RunId)
    requires Enabled(s, a) && r !in s.runs && r in Apply(s, a).runs
    ensures exists nodes :: Apply(s, a).runs[r] == Created(nodes)
  {
    assert a.CreateRun?;
    assert Apply(s, a).runs[r] == Created(a.nodes);
  }
}
