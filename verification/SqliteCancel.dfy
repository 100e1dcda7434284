/**
 * What becomes of an accepted cancel in the SQLite host: it stays pending exactly until an execution
 * starts or resumes, and as long as it does, the place where it caught the executor decides the
 * outcome of the run.
 */
module SqliteCancel {
  import opened Options
  import opened RunTypes
  import opened SqliteStatements
  import opened LeaseProtocol
  import opened EventTable
  import opened LeaseExclusivity
  import opened SqliteTurns

  // ---- how long a cancel stays pending ------------------------------------------------------------------

  /** This action writes `running` over the status of run `r`. */
  predicate Starts(s: System, a: Action, r: RunId) {
    a.Advance? && a.run == r && r in s.runs && a.pid in s.runs[r].execs && s.runs[r].execs[a.pid].pc.MarkRunning?
  }

  /** No execution of run `r` starts or resumes in steps `i` to `j - 1`. */
  ghost predicate NoStart(states: seq<System>, actions: seq<Action>, i: nat, j: nat, r: RunId)
    requires j <= |actions| && |states| == |actions| + 1
  {
    forall k :: i <= k < j ==> !Starts(states[k], actions[k], r)
  }

  /** Pending, or answered by the end of the run. */
  predicate Kept(run: Run) { run.row.status.Cancelling? || run.row.status.Terminal? }

  lemma StartsForget(s: System, a: Action, r: RunId)
    requires Enabled(s, a) && r in s.runs && Kept(s.runs[r])
    ensures r in Apply(s, a).runs && (Kept(Apply(s, a).runs[r]) <==> !Starts(s, a, r))
  {
    hide Goto, Throw, HasStarted;
    ApplyMovesRun(s, a, r);
  }

  /**
   * A cancel accepted in state `i` is pending or decided in every state up to `j` if and only if no
   * execution of the run starts or resumes in between. No assumption on timing.
   */
  lemma {:induction false} CancelIsKept(states: seq<System>, actions: seq<Action>, i: nat, j: nat, r: RunId)
    requires History(states, actions) && i <= j < |states| && r in states[i].runs
    requires states[i].runs[r].row.status.Cancelling?
    ensures forall k :: i <= k <= j ==> r in states[k].runs
    ensures (forall k :: i <= k <= j ==> Kept(states[k].runs[r])) <==> NoStart(states, actions, i, j, r)
    decreases j
  {
    if i < j {
      hide Apply, Enabled, Kept, Starts;
      CancelIsKept(states, actions, i, j - 1, r);
      var s, a := states[j - 1], actions[j - 1];
      assert Enabled(s, a) && states[j] == Apply(s, a);
      ApplyMovesRun(s, a, r);
      if Kept(s.runs[r]) {
        StartsForget(s, a, r);
      }
    }
  }

  // ---- the outcome ----------------------------------------------------------------------------------------

  /** Not yet past the UPDATE that writes `running`. */
  predicate Early(pc: Pc) { pc.LoadRun? || pc.ReadLog? || pc.MarkRunning? }

  function OutcomeAfter(nodes: Workflow, next: Next): Outcome {
    match next
    case ToLoop(_) => Cancelled
    case ToBody(i) => if KindAt(nodes, i) == Unsupported then Failed else Cancelled
    case ToReturn(_, outcome) => if outcome.Failed? then Failed else Cancelled
    case ToTerminal(outcome) => outcome
  }

  /** The outcome a cancel leads to when it finds the executor here. */
  function BoundFor(nodes: Workflow, pc: Pc): Outcome {
    match pc
    case CountEvents(_, next) => OutcomeAfter(nodes, next)
    case InsertEvent(_, _, next) => OutcomeAfter(nodes, next)
    case Returned(_, outcome) => if outcome.Failed? then Failed else Cancelled
    case SetTerminal(outcome) => outcome
    case _ => Cancelled
  }

  /** While the cancel is pending, whoever can close the run is bound for outcome `bound`. */
  ghost predicate Settling(run: Run, bound: Option<Outcome>) {
    if run.row.status.Terminal? then bound == Some(run.row.status.outcome)
    else
      && run.row.status.Cancelling?
      && forall p :: LiveOn(run, p) ==>
           Early(run.execs[p].pc) || bound == Some(BoundFor(run.nodes, run.execs[p].pc))
  }

  lemma StepKeepsBound(nodes: Workflow, pid: ProcessId, l: Local)
    requires OwnerInv(pid, l) && StoreInv(l.row, l.table) && l.row.status.Cancelling?
    requires Runnable(l.exec.pc) && !l.exec.pc.MarkRunning?
    ensures var l' := Step(nodes, pid, l);
            if Early(l.exec.pc) then l'.row == l.row && Early(l'.exec.pc)
            else if l.exec.pc.SetTerminal? then l'.row.status == Terminal(l.exec.pc.outcome)
            else l'.row == l.row && !Early(l'.exec.pc) && BoundFor(nodes, l'.exec.pc) == BoundFor(nodes, l.exec.pc)
  {
    hide HasStarted, EndsWith;
  }

  lemma AdvanceKeepsSettling(run: Run, pid: ProcessId, bound: Option<Outcome>)
    requires LeaseInv(run) && Settling(run, bound)
    requires pid in run.execs && Runnable(run.execs[pid].pc) && !run.execs[pid].pc.MarkRunning?
    ensures Settling(AdvanceRun(run, pid), bound)
  {
    var run' := AdvanceRun(run, pid);
    assert LiveOn(run, pid);
    AdvanceKeepsLease(run, pid);
    if run.row.status.Terminal? {
      TerminalMove(run, AdvanceBy(pid), 0);
    } else {
      StepKeepsBound(run.nodes, pid, View(run, pid));
      hide Step, BoundFor, StoreInv, OwnerInv;
      forall p | LiveOn(run', p) && run'.row.status.Cancelling?
        ensures Early(run'.execs[p].pc) || bound == Some(BoundFor(run.nodes, run'.execs[p].pc))
      {
        assert LiveOn(run, p);
      }
    }
  }

  lemma OthersKeepSettling(run: Run, m: Move, clock: int, bound: Option<Outcome>)
    requires LeaseInv(run) && Settling(run, bound) && CanMove(run, m) && !m.AdvanceBy? && !m.CrashBy?
    ensures Settling(Moved(run, m, clock), bound)
  {
    hide Step, LeaseInv;
    var run' := Moved(run, m, clock);
    forall p | LiveOn(run', p) && run'.row.status.Cancelling?
      ensures Early(run'.execs[p].pc) || bound == Some(BoundFor(run.nodes, run'.execs[p].pc))
    {
      assert LiveOn(run, p) || m == ClaimBy(p);
    }
  }

  lemma ActionKeepsSettling(s: System, a: Action, r: RunId, bound: Option<Outcome>)
    requires Enabled(s, a) && r in s.runs && LeaseInv(s.runs[r]) && Settling(s.runs[r], bound) && !Starts(s, a, r)
    requires a.Advance? ==> LeaseInv(s.runs[a.run])
    ensures r in Apply(s, a).runs && Settling(Apply(s, a).runs[r], bound)
  {
    hide LeaseInv, Settling, Step;
    ApplyMovesRun(s, a, r);
    if a.Advance? {
      AdvanceKeepsLease(s.runs[a.run], a.pid);
    }
    var m := MoveOf(s, a, r);
    if m.AdvanceBy? {
      AdvanceKeepsSettling(s.runs[r], m.pid, bound);
    } else {
      OthersKeepSettling(s.runs[r], m, s.clock, bound);
    }
  }

  /** The executor that is past writing `running`, if there is one. */
  ghost predicate CaughtAt(run: Run, p: ProcessId) { LiveOn(run, p) && !Early(run.execs[p].pc) }

  lemma {:induction false} SettlingHolds(
    states: seq<System>, actions: seq<Action>, i: nat, j: nat, r: RunId, bound: Option<Outcome>)
    requires UnstolenHistory(states, actions) && i <= j < |states| && r in states[i].runs
    requires Settling(states[i].runs[r], bound) && NoStart(states, actions, i, j, r)
    ensures r in states[j].runs && Settling(states[j].runs[r], bound)
    decreases j
  {
    if i < j {
      hide Enabled, Apply, Settling, Starts, Steals, LeaseInv;
      var s, a := states[j - 1], actions[j - 1];
      assert Enabled(s, a) && states[j] == Apply(s, a);
      SettlingHolds(states, actions, i, j - 1, r, bound);
      LeaseHolds(states, actions, j - 1, r);
      if a.Advance? {
        AdvanceIsInRun(s, a);
        LeaseHolds(states, actions, j - 1, a.run);
      }
      ActionKeepsSettling(s, a, r, bound);
    }
  }

  /** At most one executor is caught, so the bound of a pending cancel is well defined. */
  lemma SettlingStarts(run: Run, bound: Option<Outcome>)
    requires LeaseInv(run) && run.row.status.Cancelling?
    requires if bound.Some? then exists p :: CaughtAt(run, p) && bound == Some(BoundFor(run.nodes, run.execs[p].pc))
             else forall p :: !CaughtAt(run, p)
    ensures Settling(run, bound)
  {
    hide BoundFor, StoreInv, EndsWith;
    if bound.Some? {
      var q :| CaughtAt(run, q) && bound == Some(BoundFor(run.nodes, run.execs[q].pc));
      forall p | LiveOn(run, p) ensures p == q {
        assert run.row.holder == Some(p) && run.row.holder == Some(q);
      }
    } else {
      forall p | LiveOn(run, p) ensures Early(run.execs[p].pc) {
        assert !CaughtAt(run, p);
      }
    }
  }

  /**
   * The outcome of a cancelled run, exactly. A cancel pending in state `i`, with no execution started
   * since: if the run is closed in state `j`, then some executor had been caught past its start, and
   * the statement at which it was caught fixed the outcome.
   */
  lemma CancelDecidesOutcome(states: seq<System>, actions: seq<Action>, i: nat, j: nat, r: RunId)
    requires UnstolenHistory(states, actions) && i <= j < |states| && r in states[i].runs
    requires states[i].runs[r].row.status.Cancelling? && NoStart(states, actions, i, j, r)
    ensures r in states[j].runs
    ensures states[j].runs[r].row.status.Terminal? ==>
              exists p :: CaughtAt(states[i].runs[r], p) &&
                          states[j].runs[r].row.status.outcome
                          == BoundFor(states[i].runs[r].nodes, states[i].runs[r].execs[p].pc)
  {
    hide Settling, BoundFor, LeaseInv, Steals, Starts;
    var run := states[i].runs[r];
    LeaseHolds(states, actions, i, r);
    var bound: Option<Outcome> := None;
    if p :| CaughtAt(run, p) {
      bound := Some(BoundFor(run.nodes, run.execs[p].pc));
    }
    SettlingStarts(run, bound);
    SettlingHolds(states, actions, i, j, r, bound);
    SettledMeansBound(states[j].runs[r], bound);
  }

  lemma SettledMeansBound(run: Run, bound: Option<Outcome>)
    requires Settling(run, bound)
    ensures run.row.status.Terminal? ==> bound == Some(run.row.status.outcome)
  {
  }

  /** About to store `run.completed`, or to set the status that follows it. */
  ghost predicate Committed(run: Run) {
    exists p :: CaughtAt(run, p) && BoundFor(run.nodes, run.execs[p].pc) == Completed
  }

  /** Spelled out: the last check of the loop is behind the executor, and only the ending is left. */
  lemma CommittedMeansEnding(run: Run)
    requires LeaseInv(run)
    ensures Committed(run) <==>
              exists p :: LiveOn(run, p) && var pc := run.execs[p].pc;
                (pc.CountEvents? && pc.event == RunEnded(Completed))
                || (pc.InsertEvent? && pc.event == RunEnded(Completed))
                || pc == SetTerminal(Completed)
  {
    hide StoreInv, EndsWith, KindAt;
    if Committed(run) {
      var p :| CaughtAt(run, p) && BoundFor(run.nodes, run.execs[p].pc) == Completed;
      assert LiveOn(run, p) && OwnerInv(p, View(run, p));
    }
    if p :| LiveOn(run, p) && var pc := run.execs[p].pc;
              (pc.CountEvents? && pc.event == RunEnded(Completed))
              || (pc.InsertEvent? && pc.event == RunEnded(Completed)) || pc == SetTerminal(Completed) {
      assert OwnerInv(p, View(run, p));
      assert CaughtAt(run, p) && BoundFor(run.nodes, run.execs[p].pc) == Completed;
    }
  }

  /** A cancelled run still completes if and only if the cancel came after the last check. */
  lemma CompletesIffCommitted(states: seq<System>, actions: seq<Action>, i: nat, j: nat, r: RunId)
    requires UnstolenHistory(states, actions) && i <= j < |states| && r in states[i].runs
    requires states[i].runs[r].row.status.Cancelling? && NoStart(states, actions, i, j, r)
    requires r in states[j].runs && states[j].runs[r].row.status.Terminal?
    ensures states[j].runs[r].row.status.outcome == Completed <==> Committed(states[i].runs[r])
  {
    hide BoundFor, LeaseInv, Steals, Starts;
    var run := states[i].runs[r];
    CancelDecidesOutcome(states, actions, i, j, r);
    var p :| CaughtAt(run, p) && states[j].runs[r].row.status.outcome == BoundFor(run.nodes, run.execs[p].pc);
    forall q | CaughtAt(run, q) ensures q == p {
      LiveIsHolder(states, actions, i, r, p);
      LiveIsHolder(states, actions, i, r, q);
    }
  }

  // ---- which nodes still start ----------------------------------------------------------------------------

  /** The `node.started` an executor is about to store. */
  function StartDue(pc: Pc): Option<Event> {
    match pc
    case CountEvents(e, _) => if e.NodeStarted? then Some(e) else None
    case InsertEvent(e, _, _) => if e.NodeStarted? then Some(e) else None
    case _ => None
  }

  /**
   * From sequence number `n` on there is at most one `node.started`, and it is `due`; an executor
   * that is still about to store one is about to store that one, and it is not there yet.
   */
  ghost predicate NoNewStarts(run: Run, n: nat, due: Option<Event>) {
    && Kept(run) && n <= |run.table|
    && (forall k, k' :: StartedSince(run.table, n, k) && StartedSince(run.table, n, k') ==> k' == k)
    && (forall k :: StartedSince(run.table, n, k) ==> due == Some(run.table[k]))
    && (forall p :: LiveOn(run, p) && StartDue(run.execs[p].pc).Some? ==>
          due == StartDue(run.execs[p].pc) && forall k :: !StartedSince(run.table, n, k))
  }

  /** Sequence number `k`, at least `n`, holds a `node.started`. */
  predicate StartedSince(t: Table, n: nat, k: nat) { n <= k && k in t && t[k].NodeStarted? }

  lemma StepStartsNothing(nodes: Workflow, pid: ProcessId, l: Local)
    requires OwnerInv(pid, l) && StoreInv(l.row, l.table) && Kept(Run(nodes, l.row, l.table, map[], 0))
    requires Runnable(l.exec.pc) && !l.exec.pc.MarkRunning?
    ensures var l' := Step(nodes, pid, l);
            && (l'.row.status.Cancelling? || l'.row.status.Terminal?)
            && (StartDue(l'.exec.pc).Some? ==> l.exec.pc.CountEvents? && StartDue(l'.exec.pc) == StartDue(l.exec.pc))
            && (l'.table == l.table ||
                (l.exec.pc.InsertEvent? && l'.table == l.table[|l.table| := l.exec.pc.event]
                 && |l.table| !in l.table && StartDue(l'.exec.pc).None?))
  {
    hide HasStarted, EndsWith;
  }

  lemma AdvanceStartsNothing(run: Run, pid: ProcessId, n: nat, due: Option<Event>)
    requires LeaseInv(run) && NoNewStarts(run, n, due)
    requires pid in run.execs && Runnable(run.execs[pid].pc) && !run.execs[pid].pc.MarkRunning?
    ensures NoNewStarts(AdvanceRun(run, pid), n, due)
  {
    var run' := AdvanceRun(run, pid);
    assert LiveOn(run, pid);
    StepStartsNothing(run.nodes, pid, View(run, pid));
    hide Step, StoreInv, EndsWith;
    var pc := run.execs[pid].pc;
    forall k | StartedSince(run'.table, n, k)
      ensures StartedSince(run.table, n, k) || (k == |run.table| && StartDue(pc) == Some(run'.table[k]))
    {
    }
    forall p | LiveOn(run', p) ensures p == pid {
      assert p == pid || LiveOn(run, p);
    }
  }

  lemma RousingStartsNothing(run: Run, run': Run, n: nat, due: Option<Event>)
    requires NoNewStarts(run, n, due) && OnlyRoused(run.execs, run'.execs) && run'.table == run.table && Kept(run')
    ensures NoNewStarts(run', n, due)
  {
    hide Kept, StartedSince;
    forall p | LiveOn(run', p) && StartDue(run'.execs[p].pc).Some?
      ensures due == StartDue(run'.execs[p].pc) && forall k :: !StartedSince(run'.table, n, k)
    {
      assert LiveOn(run, p) && run.execs[p].pc == run'.execs[p].pc;
    }
  }

  lemma ClaimStartsNothing(run: Run, pid: ProcessId, clock: int, n: nat, due: Option<Event>)
    requires NoNewStarts(run, n, due)
    ensures NoNewStarts(ClaimRun(run, pid, clock), n, due)
  {
    hide StartedSince;
    var run' := ClaimRun(run, pid, clock);
    forall p | LiveOn(run', p) && StartDue(run'.execs[p].pc).Some?
      ensures due == StartDue(run'.execs[p].pc) && forall k :: !StartedSince(run'.table, n, k)
    {
      assert LiveOn(run, p) && run.execs[p].pc == run'.execs[p].pc;
    }
  }

  lemma OthersKeepCancel(run: Run, m: Move, clock: int)
    requires CanMove(run, m) && !m.ClaimBy? && !m.AdvanceBy? && !m.CrashBy?
    ensures OnlyRoused(run.execs, Moved(run, m, clock).execs) && Moved(run, m, clock).table == run.table
    ensures Kept(run) ==> Kept(Moved(run, m, clock))
  {
    hide Step;
  }

  lemma OthersStartNothing(run: Run, m: Move, clock: int, n: nat, due: Option<Event>)
    requires NoNewStarts(run, n, due) && CanMove(run, m) && !m.AdvanceBy? && !m.CrashBy?
    ensures NoNewStarts(Moved(run, m, clock), n, due)
  {
    assert Kept(run);
    hide NoNewStarts, StartedSince, OnlyRoused, Kept;
    if m.ClaimBy? {
      ClaimStartsNothing(run, m.pid, clock, n, due);
    } else {
      OthersKeepCancel(run, m, clock);
      hide Moved;
      RousingStartsNothing(run, Moved(run, m, clock), n, due);
    }
  }

  lemma ActionStartsNothing(s: System, a: Action, r: RunId, n: nat, due: Option<Event>)
    requires Enabled(s, a) && r in s.runs && LeaseInv(s.runs[r]) && NoNewStarts(s.runs[r], n, due) && !Starts(s, a, r)
    requires a.Advance? ==> LeaseInv(s.runs[a.run])
    ensures r in Apply(s, a).runs && NoNewStarts(Apply(s, a).runs[r], n, due)
  {
    hide LeaseInv, NoNewStarts, Step;
    ApplyMovesRun(s, a, r);
    if a.Advance? {
      AdvanceKeepsLease(s.runs[a.run], a.pid);
    }
    var m := MoveOf(s, a, r);
    if m.AdvanceBy? {
      AdvanceStartsNothing(s.runs[r], m.pid, n, due);
    } else {
      OthersStartNothing(s.runs[r], m, s.clock, n, due);
    }
  }

  lemma {:induction false} NoNewStartsHolds(
    states: seq<System>, actions: seq<Action>, i: nat, j: nat, r: RunId, n: nat, due: Option<Event>)
    requires UnstolenHistory(states, actions) && i <= j < |states| && r in states[i].runs
    requires NoNewStarts(states[i].runs[r], n, due) && NoStart(states, actions, i, j, r)
    ensures r in states[j].runs && NoNewStarts(states[j].runs[r], n, due)
    decreases j
  {
    if i < j {
      hide Enabled, Apply, NoNewStarts, Starts, Steals, LeaseInv;
      var s, a := states[j - 1], actions[j - 1];
      assert Enabled(s, a) && states[j] == Apply(s, a);
      NoNewStartsHolds(states, actions, i, j - 1, r, n, due);
      LeaseHolds(states, actions, j - 1, r);
      if a.Advance? {
        AdvanceIsInRun(s, a);
        LeaseHolds(states, actions, j - 1, a.run);
      }
      ActionStartsNothing(s, a, r, n, due);
    }
  }

  /**
   * While a cancel is pending no node starts, other than the one whose `node.started` the cancel
   * found between the check and the insertion; and that one at most once.
   */
  lemma CancelStartsNoNode(
    states: seq<System>, actions: seq<Action>, i: nat, j: nat, r: RunId, k: nat, k': nat)
    requires UnstolenHistory(states, actions) && i <= j < |states| && r in states[i].runs
    requires states[i].runs[r].row.status.Cancelling? && NoStart(states, actions, i, j, r)
    requires r in states[j].runs && StartedSince(states[j].runs[r].table, |states[i].runs[r].table|, k)
    ensures exists p :: LiveOn(states[i].runs[r], p) &&
                        StartDue(states[i].runs[r].execs[p].pc) == Some(states[j].runs[r].table[k])
    ensures StartedSince(states[j].runs[r].table, |states[i].runs[r].table|, k') ==> k' == k
  {
    var run := states[i].runs[r];
    var n := |run.table|;
    SequenceIsDense(states, actions, i, r);
    var due: Option<Event> := None;
    if p :| LiveOn(run, p) && StartDue(run.execs[p].pc).Some? {
      due := StartDue(run.execs[p].pc);
      forall q | LiveOn(run, q) ensures q == p {
        LiveIsHolder(states, actions, i, r, p);
        LiveIsHolder(states, actions, i, r, q);
      }
    }
    hide UnstolenHistory, StartDue, NoStart;
    assert NoNewStarts(run, n, due);
    NoNewStartsHolds(states, actions, i, j, r, n, due);
  }

  // ---- the same at the turn grain ---------------------------------------------------------------------------

  /** The events a turn adds. */
  ghost predicate Adds(t: Table, t': Table, es: seq<Event>)
    requires Dense(t) && Dense(t')
  {
    Log(t') == Log(t) + es
  }

  /**
   * With the status `cancelling`, a turn starts no node, never completes the run, and closes it
   * unless it was still finishing the current node.
   */
  lemma CancellingTurn(nodes: Workflow, pid: ProcessId, l: Local)
    requires Dense(l.table) && l.row.status.Cancelling? && AtAwait(l.exec.pc) && Runnable(l.exec.pc)
    ensures var l' := ResumeTurn(nodes, pid, l);
            && Dense(l'.table)
            && (l.exec.pc.Returned? ==>
                  var outcome := if l.exec.pc.outcome.Failed? then Failed else Cancelled;
                  && l'.row.status == Terminal(outcome) && l'.exec.pc.Finished?
                  && Adds(l.table, l'.table, [RunEnded(outcome)]))
            && (!l.exec.pc.Returned? ==>
                  && l'.row == l.row && l'.exec.pc.Returned? && !l'.exec.pc.outcome.Failed?
                  && Adds(l.table, l'.table, [if l.exec.pc.Woken? then NodeCompleted(l.exec.pc.i)
                                              else NodeCancelled(l.exec.pc.i)]))
  {
    hide Dense, Log;
    LogAppends(l.table, NodeCompleted(if l.exec.pc.Woken? then l.exec.pc.i else 0));
    LogAppends(l.table, NodeCancelled(if l.exec.pc.Interrupted? then l.exec.pc.i else 0));
    LogAppends(l.table, RunEnded(Failed));
    LogAppends(l.table, RunEnded(Cancelled));
  }
}
