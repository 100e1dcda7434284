/**
 * How a run of the SQLite host ends when nobody cancels it: completed, unless it has a node that the
 * host cannot run; and what becomes of an executor whose INSERT conflicts with another one's.
 */
module RunOutcomes {
  import opened Options
  import opened RunTypes
  import opened SqliteStatements
  import opened LeaseProtocol
  import opened EventTable
  import opened LeaseExclusivity
  import opened LogShape

  // ---- conflicts --------------------------------------------------------------------------------------------

  /** On the way to a failed run, or at its end. */
  predicate Failing(pc: Pc) {
    match pc
    case CountEvents(e, next) => e == RunEnded(Failed) && next == ToTerminal(Failed)
    case InsertEvent(e, _, next) => e == RunEnded(Failed) && next == ToTerminal(Failed)
    case SetTerminal(outcome) => outcome == Failed
    case Release => true
    case Finished => true
    case Fatal => true
    case _ => false
  }

  ghost predicate ConflictsFail(run: Run) {
    forall p :: p in run.execs && run.execs[p].handler > 0 ==> Failing(run.execs[p].pc)
  }

  lemma StepFails(nodes: Workflow, pid: ProcessId, l: Local)
    requires Runnable(l.exec.pc) && (l.exec.handler > 0 ==> Failing(l.exec.pc))
    ensures var l' := Step(nodes, pid, l); l'.exec.handler > 0 ==> Failing(l'.exec.pc)
    ensures var l' := Step(nodes, pid, l);
            l.exec.pc.InsertEvent? && l.exec.pc.at in l.table ==>
              && l'.row == l.row && l'.table == l.table
              && (if l.exec.handler >= 2 then l'.exec.pc == Fatal
                  else l'.exec.pc == CountEvents(RunEnded(Failed), ToTerminal(Failed)) &&
                       l'.exec.handler == l.exec.handler + 1)
  {
    hide HasStarted;
  }

  lemma MoveKeepsFailing(run: Run, m: Move, clock: int)
    requires CanMove(run, m) && ConflictsFail(run)
    ensures ConflictsFail(Moved(run, m, clock))
  {
    if m.AdvanceBy? || m.CrashBy? {
      StepFails(run.nodes, m.pid, View(run, m.pid));
    }
    hide Step;
    var run' := Moved(run, m, clock);
    forall p | p in run'.execs && run'.execs[p].handler > 0 ensures Failing(run'.execs[p].pc) {
      assert p in run.execs || m == ClaimBy(p);
    }
  }

  /**
   * In every history: an executor whose INSERT met a conflict goes on to store `run.failed` and to set
   * the status; it does nothing else, and a third conflict ends its process.
   */
  lemma {:induction false} ConflictsEndInFailure(states: seq<System>, actions: seq<Action>, i: nat, r: RunId)
    requires History(states, actions) && i < |states| && r in states[i].runs
    ensures ConflictsFail(states[i].runs[r])
  {
    hide Enabled, Apply, ConflictsFail;
    if i > 0 {
      var s, a := states[i - 1], actions[i - 1];
      assert Enabled(s, a) && states[i] == Apply(s, a);
      if r in s.runs {
        ConflictsEndInFailure(states, actions, i - 1, r);
        ApplyMovesRun(s, a, r);
        MoveKeepsFailing(s.runs[r], MoveOf(s, a, r), s.clock);
      } else {
        NewRunsAreCreated(s, a, r);
        NewRunsAreIdle(states[i].runs[r]);
      }
    }
  }

  lemma NewRunsAreIdle(run: Run)
    requires exists nodes :: run == Created(nodes)
    ensures ConflictsFail(run) && Uncancelled(run)
  {
  }

  // ---- without a cancel -------------------------------------------------------------------------------------

  /** Completed, unless some node cannot be run. */
  function Expected(nodes: Workflow): Outcome { if Unsupported in nodes then Failed else Completed }

  predicate CancelEvent(e: Event) { e.NodeCancelled? || e == RunEnded(Cancelled) }

  predicate NextOnCourse(nodes: Workflow, next: Next) {
    match next
    case ToLoop(i) => i <= |nodes| && Supported(nodes, i)
    case ToBody(i) => i < |nodes| && Supported(nodes, i)
    case ToReturn(i, outcome) => ReturnOnCourse(nodes, i, outcome)
    case ToTerminal(outcome) => outcome == Expected(nodes)
  }

  predicate ReturnOnCourse(nodes: Workflow, i: nat, outcome: Outcome) {
    i < |nodes| &&
    match outcome
    case Completed => Supported(nodes, i + 1)
    case Failed => nodes[i] == Unsupported
    case Cancelled => false
  }

  /** Where an executor can be that has met neither a cancel nor a conflict. */
  predicate OnCourse(nodes: Workflow, pc: Pc) {
    match pc
    case CountEvents(e, next) => !CancelEvent(e) && NextOnCourse(nodes, next)
    case InsertEvent(e, _, next) => !CancelEvent(e) && NextOnCourse(nodes, next)
    case LoopHead(i) => i <= |nodes| && Supported(nodes, i)
    case NodeHead(i) => i < |nodes| && Supported(nodes, i)
    case Asleep(i) => i < |nodes| && Supported(nodes, i + 1)
    case Woken(i) => i < |nodes| && Supported(nodes, i + 1)
    case Interrupted(_) => false
    case Returned(i, outcome) => ReturnOnCourse(nodes, i, outcome)
    case SetTerminal(outcome) => outcome == Expected(nodes)
    case _ => true
  }

  predicate ExecOnCourse(nodes: Workflow, exec: Executor) {
    !exec.aborted && if exec.handler > 0 then Failing(exec.pc) else OnCourse(nodes, exec.pc)
  }

  /** Nothing of a cancel is to be seen on the run. */
  ghost predicate Uncancelled(run: Run) {
    && !run.row.status.Cancelling?
    && (run.row.status.Terminal? ==> run.row.status.outcome in {Expected(run.nodes), Failed})
    && (forall n :: n in run.table ==> !CancelEvent(run.table[n]))
    && (forall p :: p in run.execs ==> ExecOnCourse(run.nodes, run.execs[p]))
  }

  lemma SupportedMore(nodes: Workflow, i: nat)
    requires i < |nodes| && Supported(nodes, i) && KindAt(nodes, i) != Unsupported
    ensures Supported(nodes, i + 1)
  {
  }

  lemma AllSupported(nodes: Workflow, i: nat)
    requires i <= |nodes| && Supported(nodes, i)
    ensures i == |nodes| ==> Expected(nodes) == Completed
    ensures i < |nodes| && nodes[i] == Unsupported ==> Expected(nodes) == Failed
  {
    if i == |nodes| {
      forall j | 0 <= j < |nodes| ensures nodes[j] != Unsupported {
        assert KindAt(nodes, j) == nodes[j];
      }
    }
  }

  lemma GotoOnCourse(nodes: Workflow, next: Next)
    requires NextOnCourse(nodes, next)
    ensures OnCourse(nodes, Goto(nodes, false, next))
  {
    if next.ToBody? && KindAt(nodes, next.i) != Unsupported {
      SupportedMore(nodes, next.i);
    }
    hide Supported;
  }

  lemma StepOnCourse(nodes: Workflow, pid: ProcessId, l: Local)
    requires Runnable(l.exec.pc) && ExecOnCourse(nodes, l.exec) && !l.row.status.Cancelling?
    ensures ExecOnCourse(nodes, Step(nodes, pid, l).exec)
  {
    hide Supported, HasStarted;
    match l.exec.pc {
      case MarkRunning(_) => NothingToSupport(nodes);
      case InsertEvent(_, _, next) =>
        if l.exec.handler == 0 {
          GotoOnCourse(nodes, next);
        }
      case LoopHead(i) =>
        if l.exec.handler == 0 {
          AllSupported(nodes, i);
        }
      case Returned(i, outcome) =>
        if outcome.Failed? {
          UnsupportedFails(nodes, i);
        }
      case _ =>
    }
    hide Goto;
  }

  lemma NothingToSupport(nodes: Workflow)
    ensures Supported(nodes, 0)
  {
  }

  lemma UnsupportedFails(nodes: Workflow, i: nat)
    ensures i < |nodes| && nodes[i] == Unsupported ==> Expected(nodes) == Failed
  {
  }

  lemma StepRow(nodes: Workflow, pid: ProcessId, l: Local)
    requires Runnable(l.exec.pc) && ExecOnCourse(nodes, l.exec) && !l.row.status.Cancelling?
    ensures var l' := Step(nodes, pid, l);
            && !l'.row.status.Cancelling?
            && (l'.row.status.Terminal? ==>
                  l'.row.status == l.row.status || l'.row.status.outcome in {Expected(nodes), Failed})
            && forall n :: n in l'.table ==>
                 (n in l.table && l'.table[n] == l.table[n]) || !CancelEvent(l'.table[n])
  {
    hide Supported, HasStarted, Goto;
  }

  lemma MoveKeepsUncancelled(run: Run, m: Move, clock: int)
    requires CanMove(run, m) && Uncancelled(run) && !m.CancelBy?
    ensures Uncancelled(Moved(run, m, clock))
  {
    if m.AdvanceBy? || m.CrashBy? {
      StepOnCourse(run.nodes, m.pid, View(run, m.pid));
      StepRow(run.nodes, m.pid, View(run, m.pid));
    }
    hide Step, OnCourse, Failing, CancelEvent, Expected;
    var run' := Moved(run, m, clock);
    forall p | p in run'.execs ensures ExecOnCourse(run'.nodes, run'.execs[p]) {
      if m == WakeBy(p) {
        WakeOnCourse(run.nodes, run.execs[p]);
      } else if m == ClaimBy(p) {
        FreshOnCourse(run.nodes);
      }
    }
  }

  lemma WakeOnCourse(nodes: Workflow, exec: Executor)
    requires ExecOnCourse(nodes, exec) && exec.pc.Asleep?
    ensures ExecOnCourse(nodes, exec.(pc := Woken(exec.pc.i)))
  {
    hide Supported;
  }

  lemma FreshOnCourse(nodes: Workflow)
    ensures ExecOnCourse(nodes, FRESH)
  {
  }

  ghost predicate NeverCancelled(actions: seq<Action>, j: nat, r: RunId)
    requires j <= |actions|
  {
    forall k :: 0 <= k < j ==> !(actions[k].CancelRequest? && actions[k].run == r)
  }

  lemma NotCancelBy(s: System, a: Action, r: RunId)
    requires Enabled(s, a) && r in s.runs && !(a.CancelRequest? && a.run == r)
    ensures !MoveOf(s, a, r).CancelBy?
  {
    hide AdvanceRun;
  }

  /**
   * In every history: a run that nobody asked to cancel is never cancelled, nor any of its nodes; it
   * ends as its workflow says, or fails.
   */
  lemma {:induction false} UncancelledStaysSo(states: seq<System>, actions: seq<Action>, j: nat, r: RunId)
    requires History(states, actions) && j < |states| && r in states[j].runs && NeverCancelled(actions, j, r)
    ensures Uncancelled(states[j].runs[r])
  {
    hide Enabled, Apply, Uncancelled;
    if j > 0 {
      var s, a := states[j - 1], actions[j - 1];
      assert Enabled(s, a) && states[j] == Apply(s, a);
      if r in s.runs {
        UncancelledStaysSo(states, actions, j - 1, r);
        ApplyMovesRun(s, a, r);
        NotCancelBy(s, a, r);
        MoveKeepsUncancelled(s.runs[r], MoveOf(s, a, r), s.clock);
      } else {
        NewRunsAreCreated(s, a, r);
        NewRunsAreIdle(states[j].runs[r]);
      }
    }
  }

  // ---- and without a stolen claim ---------------------------------------------------------------------------

  ghost predicate EndsAsExpected(run: Run) {
    run.row.status.Terminal? ==> run.row.status.outcome == Expected(run.nodes)
  }

  lemma StepEndsAsExpected(nodes: Workflow, pid: ProcessId, l: Local)
    requires OwnerInv(pid, l) && ExecOnCourse(nodes, l.exec) && Runnable(l.exec.pc)
    requires l.row.status.Terminal? ==> l.row.status.outcome == Expected(nodes)
    ensures var l' := Step(nodes, pid, l); l'.row.status.Terminal? ==> l'.row.status.outcome == Expected(nodes)
  {
    hide HasStarted, Goto, Throw, Supported, EndsWith;
  }

  lemma MoveKeepsExpected(run: Run, m: Move, clock: int)
    requires CanMove(run, m) && LeaseInv(run) && Uncancelled(run) && EndsAsExpected(run) && !m.CancelBy?
    ensures EndsAsExpected(Moved(run, m, clock))
  {
    if m.AdvanceBy? || m.CrashBy? {
      assert LiveOn(run, m.pid) && OwnerInv(m.pid, View(run, m.pid));
      assert ExecOnCourse(run.nodes, run.execs[m.pid]);
      StepEndsAsExpected(run.nodes, m.pid, View(run, m.pid));
    }
    hide LeaseInv, Uncancelled, Step, Expected;
  }

  /** Nobody cancels, nobody steals: the run ends completed if the host can run all its nodes, and else failed. */
  lemma {:induction false} UncancelledEndsAsExpected(states: seq<System>, actions: seq<Action>, j: nat, r: RunId)
    requires UnstolenHistory(states, actions) && j < |states| && r in states[j].runs && NeverCancelled(actions, j, r)
    ensures EndsAsExpected(states[j].runs[r])
  {
    hide Enabled, Apply, Steals, LeaseInv, Uncancelled, EndsAsExpected;
    if j > 0 {
      var s, a := states[j - 1], actions[j - 1];
      assert Enabled(s, a) && states[j] == Apply(s, a);
      if r in s.runs {
        UncancelledEndsAsExpected(states, actions, j - 1, r);
        UncancelledStaysSo(states, actions, j - 1, r);
        LeaseHolds(states, actions, j - 1, r);
        ApplyMovesRun(s, a, r);
        NotCancelBy(s, a, r);
        MoveKeepsExpected(s.runs[r], MoveOf(s, a, r), s.clock);
      } else {
        NewRunsAreCreated(s, a, r);
        NewRunsEndLater(states[j].runs[r]);
      }
    }
  }

  lemma NewRunsEndLater(run: Run)
    requires exists nodes :: run == Created(nodes)
    ensures EndsAsExpected(run)
  {
  }
}
