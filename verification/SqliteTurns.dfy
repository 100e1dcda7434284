/**
 * What one uninterrupted turn of the event loop does to a run, from one `await` to the next, written
 * as plain state updates; and the proof that it is the executor's statements in sequence.
 */
module SqliteTurns {
  import opened Options
  import opened RunTypes
  import opened SqliteStatements
  import opened EventTable
  import opened ExecutorProgress

  function Appended(l: Local, e: Event): Local { l.(table := l.table[|l.table| := e]) }

  function Suspended(l: Local, pc: Pc): Local { l.(exec := l.exec.(pc := pc)) }

  /** The terminal event, the status, the claim, and the end of `runWorkflow`. */
  function Closed(pid: ProcessId, l: Local, outcome: Outcome): Local {
    var a := Appended(l, RunEnded(outcome));
    Suspended(a.(row := ReleaseClaim(a.row.(status := Terminal(outcome)), pid)), Finished)
  }

  /** `executeNode` up to its first await, or to the await on its result. */
  function NodeTurn(nodes: Workflow, l: Local, i: nat): Local {
    if l.row.status.Cancelling? then Suspended(Appended(l, NodeCancelled(i)), Returned(i, Cancelled))
    else
      var started := Appended(l, NodeStarted(i));
      match KindAt(nodes, i)
      case Noop => Suspended(Appended(started, NodeCompleted(i)), Returned(i, Completed))
      case Delay => Suspended(started, if l.exec.aborted then Interrupted(i) else Asleep(i))
      case Unsupported => Suspended(Appended(started, NodeFailed(i)), Returned(i, Failed))
  }

  /** Iteration `i` of the node loop, or what follows the loop. */
  function LoopTurn(nodes: Workflow, pid: ProcessId, l: Local, i: nat): Local {
    if l.row.status.Cancelling? then Closed(pid, l, Cancelled)
    else if i < |nodes| then NodeTurn(nodes, l, i)
    else Closed(pid, l, Completed)
  }

  /** `runWorkflow` from its first line to its first await. */
  function StartTurn(nodes: Workflow, pid: ProcessId, l: Local): Local {
    var running := l.(row := l.row.(status := Running));
    LoopTurn(nodes, pid, Appended(running, if HasStarted(l.table) then RunResumed else RunStarted), 0)
  }

  /** `runWorkflow` or `executeNode` from one await to the next. */
  function ResumeTurn(nodes: Workflow, pid: ProcessId, l: Local): Local {
    match l.exec.pc
    case Woken(i) => Suspended(Appended(l, NodeCompleted(i)), Returned(i, Completed))
    case Interrupted(i) => Suspended(Appended(l, NodeCancelled(i)), Returned(i, Cancelled))
    case Returned(i, Completed) => LoopTurn(nodes, pid, l, i + 1)
    case Returned(_, outcome) => Closed(pid, l, outcome)
    case _ => l
  }

  // ---- turns are statements in sequence ---------------------------------------------------------------

  /** Statement after statement until the executor has to wait. */
  function RunToAwait(nodes: Workflow, pid: ProcessId, l: Local): Local
    decreases Rank(nodes, l.exec)
  {
    if AtAwait(l.exec.pc) then l
    else
      StatementLowersRank(nodes, pid, l);
      RunToAwait(nodes, pid, Step(nodes, pid, l))
  }

  lemma OneStatement(nodes: Workflow, pid: ProcessId, l: Local)
    requires !AtAwait(l.exec.pc)
    ensures RunToAwait(nodes, pid, l) == RunToAwait(nodes, pid, Step(nodes, pid, l))
  {
  }

  /** COUNT and INSERT with nothing in between cannot conflict. */
  lemma AppendStatements(nodes: Workflow, pid: ProcessId, l: Local, e: Event, next: Next)
    requires Dense(l.table)
    ensures RunToAwait(nodes, pid, Suspended(l, CountEvents(e, next)))
         == RunToAwait(nodes, pid, Suspended(Appended(l, e), Goto(nodes, l.exec.aborted, next)))
    ensures Dense(Appended(l, e).table)
  {
    hide RunToAwait, Goto;
    var l0 := Suspended(l, CountEvents(e, next));
    var l1 := Suspended(l, InsertEvent(e, |l.table|, next));
    LogAppends(l.table, e);
    OneStatement(nodes, pid, l0);
    assert Step(nodes, pid, l0) == l1;
    OneStatement(nodes, pid, l1);
    assert |l.table| !in l.table;
    assert Step(nodes, pid, l1) == Suspended(Appended(l, e), Goto(nodes, l.exec.aborted, next));
  }

  lemma CloseStatements(nodes: Workflow, pid: ProcessId, l: Local, outcome: Outcome)
    requires Dense(l.table)
    ensures RunToAwait(nodes, pid, Suspended(l, CountEvents(RunEnded(outcome), ToTerminal(outcome))))
         == Closed(pid, l, outcome)
  {
    AppendStatements(nodes, pid, l, RunEnded(outcome), ToTerminal(outcome));
    var a := Appended(l, RunEnded(outcome));
    var l1 := Suspended(a, SetTerminal(outcome));
    var l2 := Suspended(a.(row := a.row.(status := Terminal(outcome))), Release);
    var l3 := Closed(pid, l, outcome);
    OneStatement(nodes, pid, l1);
    OneStatement(nodes, pid, l2);
    assert Step(nodes, pid, l1) == l2 && Step(nodes, pid, l2) == l3;
    assert RunToAwait(nodes, pid, l3) == l3;
  }

  lemma NodeStatements(nodes: Workflow, pid: ProcessId, l: Local, i: nat)
    requires Dense(l.table)
    ensures RunToAwait(nodes, pid, Suspended(l, NodeHead(i))) == NodeTurn(nodes, l, i)
  {
    hide RunToAwait;
    var l0 := Suspended(l, NodeHead(i));
    OneStatement(nodes, pid, l0);
    if l.row.status.Cancelling? {
      AppendStatements(nodes, pid, l, NodeCancelled(i), ToReturn(i, Cancelled));
      assert Step(nodes, pid, l0) == Suspended(l, CountEvents(NodeCancelled(i), ToReturn(i, Cancelled)));
    } else {
      AppendStatements(nodes, pid, l, NodeStarted(i), ToBody(i));
      assert Step(nodes, pid, l0) == Suspended(l, CountEvents(NodeStarted(i), ToBody(i)));
      var s := Appended(l, NodeStarted(i));
      match KindAt(nodes, i) {
        case Noop => AppendStatements(nodes, pid, s, NodeCompleted(i), ToReturn(i, Completed));
        case Delay =>
        case Unsupported => AppendStatements(nodes, pid, s, NodeFailed(i), ToReturn(i, Failed));
      }
    }
    AwaitStops(nodes, pid, NodeTurn(nodes, l, i));
  }

  lemma AwaitStops(nodes: Workflow, pid: ProcessId, l: Local)
    requires AtAwait(l.exec.pc)
    ensures RunToAwait(nodes, pid, l) == l
  {
  }

  lemma LoopStatements(nodes: Workflow, pid: ProcessId, l: Local, i: nat)
    requires Dense(l.table)
    ensures RunToAwait(nodes, pid, Suspended(l, LoopHead(i))) == LoopTurn(nodes, pid, l, i)
  {
    hide RunToAwait, NodeTurn, Closed;
    var l0 := Suspended(l, LoopHead(i));
    OneStatement(nodes, pid, l0);
    if l.row.status.Cancelling? {
      CloseStatements(nodes, pid, l, Cancelled);
      assert Step(nodes, pid, l0) == Suspended(l, CANCEL);
    } else if i < |nodes| {
      NodeStatements(nodes, pid, l, i);
      assert Step(nodes, pid, l0) == Suspended(l, NodeHead(i));
    } else {
      CloseStatements(nodes, pid, l, Completed);
      assert Step(nodes, pid, l0) == Suspended(l, CountEvents(RunEnded(Completed), ToTerminal(Completed)));
    }
  }

  /** The first turn of an executor that has just won its claim. */
  lemma StartIsStatements(nodes: Workflow, pid: ProcessId, l: Local)
    requires Dense(l.table) && l.exec.pc.LoadRun?
    ensures RunToAwait(nodes, pid, l) == StartTurn(nodes, pid, l)
  {
    hide RunToAwait, LoopTurn, HasStarted;
    var resumed := HasStarted(l.table);
    var running := l.(row := l.row.(status := Running));
    var e := if resumed then RunResumed else RunStarted;
    OneStatement(nodes, pid, l);
    OneStatement(nodes, pid, Suspended(l, ReadLog));
    OneStatement(nodes, pid, Suspended(l, MarkRunning(resumed)));
    assert Step(nodes, pid, Suspended(l, MarkRunning(resumed))) == Suspended(running, CountEvents(e, ToLoop(0)));
    AppendStatements(nodes, pid, running, e, ToLoop(0));
    LoopStatements(nodes, pid, Appended(running, e), 0);
    LoopIgnoresPc(nodes, pid, Appended(running, e), l.exec.pc, 0);
  }

  /** A turn's result does not depend on where the executor was suspended before. */
  lemma LoopIgnoresPc(nodes: Workflow, pid: ProcessId, l: Local, pc: Pc, i: nat)
    ensures LoopTurn(nodes, pid, Suspended(l, pc), i) == LoopTurn(nodes, pid, l, i)
  {
  }

  /** Every later turn, from an await whose promise has settled. */
  lemma ResumeIsStatements(nodes: Workflow, pid: ProcessId, l: Local)
    requires Dense(l.table) && AtAwait(l.exec.pc) && Runnable(l.exec.pc)
    ensures RunToAwait(nodes, pid, Step(nodes, pid, l)) == ResumeTurn(nodes, pid, l)
  {
    hide RunToAwait, LoopTurn, Closed;
    match l.exec.pc {
      case Woken(i) =>
        AppendStatements(nodes, pid, l, NodeCompleted(i), ToReturn(i, Completed));
        AwaitStops(nodes, pid, ResumeTurn(nodes, pid, l));
      case Interrupted(i) =>
        AppendStatements(nodes, pid, l, NodeCancelled(i), ToReturn(i, Cancelled));
        AwaitStops(nodes, pid, ResumeTurn(nodes, pid, l));
      case Returned(i, outcome) =>
        match outcome {
          case Completed => LoopStatements(nodes, pid, l, i + 1);
          case _ => CloseStatements(nodes, pid, l, outcome);
        }
    }
  }
}
