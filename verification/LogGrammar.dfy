/**
 * The shape of a run's durable log over any history of crashes and resumes. An automaton reads the
 * log; the executor's position always agrees with the automaton's state, unless some executor was
 * killed between its terminal event and the status UPDATE.
 */
module LogGrammar {
  import opened Options
  import opened RunTypes
  import opened SqliteStatements
  import opened LeaseProtocol
  import opened EventTable
  import opened LeaseExclusivity

  /** Inside one execution: before node `i`, inside it, or stopped by it. */
  datatype Phase = Ready | Started | Stopped(outcome: Outcome)

  datatype Scanner = Empty | Segment(i: nat, phase: Phase) | Ended(outcome: Outcome) | Bad

  function Scan1(nodes: Workflow, g: Scanner, e: Event): Scanner {
    match (g, e)
    case (Empty, RunStarted) => Segment(0, Ready)
    case (Segment(_, _), RunResumed) => Segment(0, Ready)
    case (Segment(i, Ready), NodeStarted(k)) => if k == i < |nodes| then Segment(i, Started) else Bad
    case (Segment(i, Started), NodeCompleted(k)) =>
      if k == i && KindAt(nodes, i) != Unsupported then Segment(i + 1, Ready) else Bad
    case (Segment(i, Started), NodeFailed(k)) =>
      if k == i && KindAt(nodes, i) == Unsupported then Segment(i, Stopped(Failed)) else Bad
    case (Segment(i, Ready), NodeCancelled(k)) => if k == i < |nodes| then Segment(i, Stopped(Cancelled)) else Bad
    case (Segment(i, Started), NodeCancelled(k)) =>
      if k == i && KindAt(nodes, i) == Delay then Segment(i, Stopped(Cancelled)) else Bad
    case (Segment(i, Ready), RunEnded(Completed)) => if i == |nodes| then Ended(Completed) else Bad
    case (Segment(i, Ready), RunEnded(Cancelled)) => Ended(Cancelled)
    case (Segment(i, Stopped(o)), RunEnded(o')) => if o == o' then Ended(o) else Bad
    case _ => Bad
  }

  function Scan(nodes: Workflow, log: seq<Event>): Scanner {
    if log == [] then Empty else Scan1(nodes, Scan(nodes, log[..|log| - 1]), log[|log| - 1])
  }

  predicate WellFormedLog(nodes: Workflow, log: seq<Event>) { Scan(nodes, log) != Bad }

  lemma ScanAppend(nodes: Workflow, log: seq<Event>, e: Event)
    ensures Scan(nodes, log + [e]) == Scan1(nodes, Scan(nodes, log), e)
  {
    assert (log + [e])[..|log|] == log;
  }

  /** A run can still be resumed here. */
  predicate Open(g: Scanner) { g.Empty? || g.Segment? }

  lemma {:induction false} ScanFacts(nodes: Workflow, log: seq<Event>)
    ensures Scan(nodes, log).Empty? ==> log == []
    ensures Scan(nodes, log).Segment? ==> log != [] && log[0] == RunStarted
    ensures Scan(nodes, log).Segment? && Scan(nodes, log).phase.Ready? ==> Scan(nodes, log).i <= |nodes|
    ensures Scan(nodes, log).Segment? && !Scan(nodes, log).phase.Ready? ==> Scan(nodes, log).i < |nodes|
  {
    if log != [] {
      ScanFacts(nodes, log[..|log| - 1]);
    }
  }

  // ---- the executor and the scanner ---------------------------------------------------------------

  /** The scanner accepts what is about to be appended, and execution goes on in step with it. */
  predicate AppendMatches(nodes: Workflow, event: Event, next: Next, g: Scanner) {
    var g' := Scan1(nodes, g, event);
    match next
    case ToLoop(i) => g' == Segment(i, Ready)
    case ToBody(i) => g' == Segment(i, Started)
    case ToReturn(i, Completed) => g' == Segment(i + 1, Ready)
    case ToReturn(i, outcome) => g' == Segment(i, Stopped(outcome))
    case ToTerminal(outcome) => g' == Ended(outcome)
  }

  predicate PcMatches(nodes: Workflow, pc: Pc, g: Scanner) {
    match pc
    case LoadRun => Open(g)
    case ReadLog => Open(g)
    case MarkRunning(resumed) => Open(g) && resumed == g.Segment?
    case CountEvents(event, next) => Open(g) && AppendMatches(nodes, event, next, g)
    case InsertEvent(event, _, next) => Open(g) && AppendMatches(nodes, event, next, g)
    case LoopHead(i) => g == Segment(i, Ready)
    case NodeHead(i) => i < |nodes| && g == Segment(i, Ready)
    case Asleep(i) => KindAt(nodes, i) == Delay && g == Segment(i, Started)
    case Woken(i) => KindAt(nodes, i) == Delay && g == Segment(i, Started)
    case Interrupted(i) => KindAt(nodes, i) == Delay && g == Segment(i, Started)
    case Returned(i, Completed) => g == Segment(i + 1, Ready)
    case Returned(i, outcome) => g == Segment(i, Stopped(outcome))
    case SetTerminal(outcome) => g == Ended(outcome)
    case Release => g.Ended?
    case Finished => true
    case Fatal => true
  }

  ghost predicate InStep(nodes: Workflow, l: Local)
    requires Dense(l.table)
  {
    PcMatches(nodes, l.exec.pc, Scan(nodes, Log(l.table)))
  }

  /** The log is at a place where the next executor may take over, or it is closed. */
  ghost predicate GrammarInv(run: Run) {
    && Dense(run.table)
    && var g := Scan(run.nodes, Log(run.table));
       && (run.row.status.Terminal? ==> g == Ended(run.row.status.outcome))
       && (!run.row.status.Terminal? && !Closing(run) ==> Open(g))
       && (forall p :: LiveOn(run, p) ==> InStep(run.nodes, View(run, p)))
  }

  lemma StartedIffLogged(nodes: Workflow, t: Table)
    requires Dense(t) && Open(Scan(nodes, Log(t)))
    ensures HasStarted(t) <==> Scan(nodes, Log(t)).Segment?
  {
    ScanFacts(nodes, Log(t));
    if Scan(nodes, Log(t)).Segment? {
      assert 0 in t && t[0] == RunStarted;
    }
  }

  /** After an accepted append, execution goes on where the scanner expects it. */
  lemma GotoMatches(nodes: Workflow, aborted: bool, event: Event, next: Next, g: Scanner)
    requires AppendMatches(nodes, event, next, g)
    ensures PcMatches(nodes, Goto(nodes, aborted, next), Scan1(nodes, g, event))
  {
  }

  lemma InsertKeepsStep(nodes: Workflow, pid: ProcessId, l: Local)
    requires OwnerInv(pid, l) && StoreInv(l.row, l.table) && InStep(nodes, l) && l.exec.pc.InsertEvent?
    ensures var l' := Step(nodes, pid, l);
            Dense(l'.table) && InStep(nodes, l')
  {
    var e, next := l.exec.pc.event, l.exec.pc.next;
    InsertKeepsOwner(nodes, pid, l);
    LogAppends(l.table, e);
    ScanAppend(nodes, Log(l.table), e);
    GotoMatches(nodes, l.exec.aborted, e, next, Scan(nodes, Log(l.table)));
    hide Scan, Scan1, Dense, StoreInv, OwnerInv, AppendMatches, Goto;
    assert Step(nodes, pid, l).exec.pc == Goto(nodes, l.exec.aborted, next);
  }

  /** A statement that stores nothing keeps the executor in step with an unmoved scanner. */
  lemma PcKeepsStep(nodes: Workflow, pid: ProcessId, l: Local, g: Scanner)
    requires PcMatches(nodes, l.exec.pc, g) && Runnable(l.exec.pc) && !l.exec.pc.InsertEvent?
    requires l.exec.pc.ReadLog? ==> (HasStarted(l.table) <==> g.Segment?)
    requires g.Segment? ==> g.i <= |nodes| && (!g.phase.Ready? ==> g.i < |nodes|)
    ensures PcMatches(nodes, Step(nodes, pid, l).exec.pc, g)
  {
    hide HasStarted, ReleaseClaim;
    match l.exec.pc {
      case LoopHead(_) =>
      case NodeHead(_) =>
      case Returned(_, outcome) =>
      case _ =>
    }
  }

  /** The status changes only to what the scanner has seen. */
  lemma StatusMatches(nodes: Workflow, pid: ProcessId, l: Local, g: Scanner)
    requires PcMatches(nodes, l.exec.pc, g) && Runnable(l.exec.pc)
    ensures var l' := Step(nodes, pid, l);
            && (l'.row.status.Terminal? && l'.row.status != l.row.status ==> g == Ended(l'.row.status.outcome))
            && (l'.row.status != l.row.status && !l'.row.status.Terminal? ==> Open(g))
  {
    hide HasStarted, Scan1, AppendMatches, Goto;
  }

  lemma StatementKeepsStep(nodes: Workflow, pid: ProcessId, l: Local)
    requires Dense(l.table) && InStep(nodes, l) && Runnable(l.exec.pc) && !l.exec.pc.InsertEvent?
    ensures var l' := Step(nodes, pid, l);
            l'.table == l.table && InStep(nodes, l')
  {
    var g := Scan(nodes, Log(l.table));
    ScanFacts(nodes, Log(l.table));
    if l.exec.pc.ReadLog? {
      StartedIffLogged(nodes, l.table);
    }
    PcKeepsStep(nodes, pid, l, g);
    hide PcMatches, Scan;
  }

  lemma AdvanceKeepsGrammar(run: Run, pid: ProcessId)
    requires LeaseInv(run) && GrammarInv(run) && pid in run.execs && Runnable(run.execs[pid].pc)
    ensures GrammarInv(AdvanceRun(run, pid))
  {
    var l, run' := View(run, pid), AdvanceRun(run, pid);
    assert LiveOn(run, pid);
    AdvanceKeepsLease(run, pid);
    ClosingIsTheHolder(run');
    assert run.row.holder == Some(pid);
    StatusMatches(run.nodes, pid, l, Scan(run.nodes, Log(run.table)));
    if l.exec.pc.InsertEvent? {
      InsertKeepsStep(run.nodes, pid, l);
    } else {
      StatementKeepsStep(run.nodes, pid, l);
    }
    ScannerIsOpen(run.nodes, pid, l);
    var l' := Step(run.nodes, pid, l);
    assert View(run', pid) == l';
    hide Step, Scan, Dense, StoreInv, OwnerInv, Closing, PcMatches;
    forall p | LiveOn(run', p)
      ensures InStep(run'.nodes, View(run', p))
    {
      if p != pid {
        assert LiveOn(run, p);
      }
    }
  }

  /** Unless the run is closing or closed, an executor leaves the scanner open. */
  lemma ScannerIsOpen(nodes: Workflow, pid: ProcessId, l: Local)
    requires OwnerInv(pid, l) && Runnable(l.exec.pc)
    requires var l' := Step(nodes, pid, l); Dense(l'.table) && InStep(nodes, l')
    ensures var l' := Step(nodes, pid, l);
            !l'.row.status.Terminal? && !l'.exec.pc.SetTerminal? ==> Open(Scan(nodes, Log(l'.table)))
  {
    hide Scan, Dense, HasStarted, Scan1, AppendMatches;
    var l' := Step(nodes, pid, l);
    assert l'.exec.pc.Release? || l'.exec.pc.Finished? ==> l'.row.status.Terminal?;
    assert !l'.exec.pc.Fatal?;
  }

  /** A claim succeeds only where the scanner is open, so the new executor starts in step. */
  lemma ClaimKeepsGrammar(run: Run, pid: ProcessId, clock: int)
    requires LeaseInv(run) && !Stealable(run, clock) && GrammarInv(run) && pid !in run.execs
    ensures GrammarInv(ClaimRun(run, pid, clock))
  {
    hide Scan, OwnerInv, StoreInv, Dense, Step, AppendMatches;
    var run' := ClaimRun(run, pid, clock);
    ClosingIsTheHolder(run);
    if Closing(run) {
      assert LiveOn(run, run.row.holder.value);
    }
    assert forall p :: InWindow(run', p) <==> InWindow(run, p);
    forall p | LiveOn(run', p)
      ensures InStep(run'.nodes, View(run', p))
    {
      assert p in run.execs ==> LiveOn(run, p);
    }
  }

  /** The scanner does not distinguish a sleeping node from one whose sleep is over. */
  predicate Rouses(pc: Pc, pc': Pc) {
    pc' == pc || (pc.Asleep? && (pc' == Woken(pc.i) || pc' == Interrupted(pc.i)))
  }

  lemma SameLogKeepsGrammar(run: Run, run': Run)
    requires GrammarInv(run) && run'.nodes == run.nodes && run'.table == run.table
    requires run'.row.status == run.row.status || (!run'.row.status.Terminal? && !run.row.status.Terminal?)
    requires Announced(run') == Announced(run) && run'.lost == run.lost
    requires forall p :: LiveOn(run', p) ==> LiveOn(run, p) && Rouses(run.execs[p].pc, run'.execs[p].pc)
    ensures GrammarInv(run')
  {
    hide Scan, Scan1, AppendMatches, KindAt, Closing, Dense, Log;
    forall p | LiveOn(run', p)
      ensures InStep(run'.nodes, View(run', p))
    {
      assert InStep(run.nodes, View(run, p));
    }
    hide LiveOn, InStep;
  }

  /** Everything else moves a sleeping executor at most. */
  lemma OthersKeepGrammar(run: Run, m: Move, clock: int)
    requires LeaseInv(run) && NoTheft(run, m, clock) && GrammarInv(run)
    requires CanMove(run, m) && !m.ClaimBy? && !m.AdvanceBy? && !m.CrashBy?
    requires Moved(run, m, clock).lost == run.lost
    ensures GrammarInv(Moved(run, m, clock))
  {
    hide Step, LeaseInv, NoTheft, GrammarInv, Announced;
    OthersKeepAnnounced(run, m, clock);
    SameLogKeepsGrammar(run, Moved(run, m, clock));
  }

  lemma MoveKeepsGrammar(run: Run, m: Move, clock: int)
    requires LeaseInv(run) && NoTheft(run, m, clock) && GrammarInv(run) && CanMove(run, m)
    requires Moved(run, m, clock).lost == run.lost
    ensures GrammarInv(Moved(run, m, clock))
  {
    hide LeaseInv, GrammarInv, Step, Stealable;
    match m {
      case AdvanceBy(p) => AdvanceKeepsGrammar(run, p);
      case CrashBy(p) => AdvanceKeepsLease(run, p);
      case ClaimBy(p) => ClaimKeepsGrammar(run, p, clock);
      case _ => OthersKeepGrammar(run, m, clock);
    }
  }

  /** Killed-in-the-window executors are only ever added. */
  lemma LostOnlyGrows(run: Run, m: Move, clock: int)
    requires CanMove(run, m)
    ensures run.lost <= Moved(run, m, clock).lost && Moved(run, m, clock).nodes == run.nodes
  {
  }

  /**
   * As long as no executor was killed between its terminal event and the status UPDATE, the log is
   * well formed, and it is closed by the terminal event of the row's status.
   */
  lemma {:induction false} LogIsWellFormed(states: seq<System>, actions: seq<Action>, i: nat, r: RunId)
    requires UnstolenHistory(states, actions) && i < |states| && r in states[i].runs
    requires states[i].runs[r].lost == 0
    ensures GrammarInv(states[i].runs[r])
    ensures WellFormedLog(states[i].runs[r].nodes, Log(states[i].runs[r].table))
  {
    if i > 0 {
      if r in states[i - 1].runs {
        var run, m := states[i - 1].runs[r], MoveOf(states[i - 1], actions[i - 1], r);
        ApplyMovesRun(states[i - 1], actions[i - 1], r);
        LostOnlyGrows(run, m, states[i - 1].clock);
        LogIsWellFormed(states, actions, i - 1, r);
        LeaseHolds(states, actions, i - 1, r);
        UnstolenMove(states[i - 1], actions[i - 1], r);
        MoveKeepsGrammar(run, m, states[i - 1].clock);
      } else {
        NewRunsAreCreated(states[i - 1], actions[i - 1], r);
      }
    }
    LeaseHolds(states, actions, i, r);
    GrammarIsWellFormed(states[i].runs[r]);
  }

  lemma GrammarIsWellFormed(run: Run)
    requires LeaseInv(run) && GrammarInv(run)
    ensures WellFormedLog(run.nodes, Log(run.table))
  {
    if Closing(run) {
      ClosingIsTheHolder(run);
      var p := run.row.holder.value;
      assert InWindow(run, p) && LiveOn(run, p);
      assert InStep(run.nodes, View(run, p));
    }
  }

  // ---- exactly when the log is well formed ------------------------------------------------------------------

  lemma {:induction false} PrefixesAreAccepted(nodes: Workflow, log: seq<Event>, n: nat)
    requires n <= |log| && Scan(nodes, log) != Bad
    ensures Scan(nodes, log[..n]) != Bad
  {
    if n == |log| {
      assert log[..n] == log;
    } else {
      PrefixesAreAccepted(nodes, log[..|log| - 1], n);
      assert log[..|log| - 1][..n] == log[..n];
    }
  }

  /** Nothing can follow a terminal event. */
  lemma NothingFollowsTheEnd(nodes: Workflow, log: seq<Event>, k: nat)
    requires k < |log| - 1 && log[k].RunEnded?
    ensures Scan(nodes, log) == Bad
  {
    assert log[..k + 2][..k + 1] == log[..k + 1] && log[..k + 1][..k] == log[..k];
    if Scan(nodes, log) != Bad {
      PrefixesAreAccepted(nodes, log, k + 2);
    }
  }

  lemma {:induction false} NoEndsCounted(log: seq<Event>)
    ensures TerminalEvents(log) == 0 <==> forall k :: 0 <= k < |log| ==> !log[k].RunEnded?
  {
    if log != [] {
      NoEndsCounted(log[..|log| - 1]);
    }
  }

  /** No terminal event before the last of the first `n`. */
  predicate NoEarlierEnd(log: seq<Event>, n: nat)
    requires n <= |log|
  {
    forall k :: 0 <= k < n - 1 ==> !log[k].RunEnded?
  }

  lemma EndsCountedOnce(log: seq<Event>)
    requires log != []
    ensures NoEarlierEnd(log, |log|) <==> TerminalEvents(log) == if log[|log| - 1].RunEnded? then 1 else 0
  {
    var init := log[..|log| - 1];
    NoEndsCounted(init);
    forall k | 0 <= k < |init| ensures init[k] == log[k] {
    }
  }

  /** When an action appends to a run's log, nothing is lost in the same step. */
  lemma AppendsLoseNothing(run: Run, m: Move, clock: int)
    requires LeaseInv(run) && CanMove(run, m)
    ensures Moved(run, m, clock).lost == run.lost || Moved(run, m, clock).table == run.table
  {
    hide LeaseInv;
    if m.CrashBy? {
      AdvanceKeepsLease(run, m.pid);
    }
    hide Step;
  }

  lemma PrefixOfExtension(t: Table, t': Table, n: nat)
    requires Dense(t) && Dense(t') && Extends(t, t') && n <= |t|
    ensures Log(t')[..n] == Log(t)[..n]
  {
    assert forall k :: 0 <= k < n ==> k in t;
  }

  /** Whatever is lost, the log is well formed up to and including its first terminal event. */
  lemma {:induction false} FirstEndingFits(states: seq<System>, actions: seq<Action>, i: nat, r: RunId, n: nat)
    requires UnstolenHistory(states, actions) && i < |states| && r in states[i].runs
    ensures Dense(states[i].runs[r].table)
    ensures n <= |states[i].runs[r].table| && NoEarlierEnd(Log(states[i].runs[r].table), n) ==>
              Scan(states[i].runs[r].nodes, Log(states[i].runs[r].table)[..n]) != Bad
  {
    hide LeaseInv, GrammarInv, CountInv, Scan, TerminalEvents, Apply, Enabled, Steals, Dense, Extends;
    SequenceIsDense(states, actions, i, r);
    var run' := states[i].runs[r];
    if run'.lost == 0 {
      LogIsWellFormed(states, actions, i, r);
      if n <= |run'.table| {
        PrefixesAreAccepted(run'.nodes, Log(run'.table), n);
      }
    } else {
      var s, a := states[i - 1], actions[i - 1];
      assert i > 0 && Enabled(s, a) && states[i] == Apply(s, a);
      if r !in s.runs {
        NewRunsAreCreated(s, a, r);
        assert false;
      }
      var run := s.runs[r];
      ApplyMovesRun(s, a, r);
      LeaseHolds(states, actions, i - 1, r);
      LostOnlyGrows(run, MoveOf(s, a, r), s.clock);
      AppendsLoseNothing(run, MoveOf(s, a, r), s.clock);
      FirstEndingFits(states, actions, i - 1, r, n);
      StoredEventsNeverChange(states, actions, i - 1, i, r);
      FirstEndingStep(run, run', n, states, actions, i - 1, r);
    }
  }

  lemma FirstEndingStep(
    run: Run, run': Run, n: nat, states: seq<System>, actions: seq<Action>, i: nat, r: RunId)
    requires UnstolenHistory(states, actions) && i < |states| && r in states[i].runs && states[i].runs[r] == run
    requires Dense(run.table) && Dense(run'.table) && Extends(run.table, run'.table) && run'.nodes == run.nodes
    requires run'.lost > 0 && (run'.lost == run.lost || run'.table == run.table)
    requires n <= |run.table| && NoEarlierEnd(Log(run.table), n) ==> Scan(run.nodes, Log(run.table)[..n]) != Bad
    ensures n <= |run'.table| && NoEarlierEnd(Log(run'.table), n) ==> Scan(run.nodes, Log(run'.table)[..n]) != Bad
  {
    hide Scan, TerminalEvents, UnstolenHistory;
    PrefixOfExtension(run.table, run'.table, |run.table|);
    assert Log(run.table) == Log(run'.table)[..|run.table|];
    if n <= |run.table| {
      PrefixOfExtension(run.table, run'.table, n);
    } else if n <= |run'.table| {
      TerminalEventCount(states, actions, i, r);
      NoEndsCounted(Log(run.table));
      var k :| 0 <= k < |run.table| && Log(run.table)[k].RunEnded?;
      assert Log(run'.table)[k].RunEnded? && k < n - 1;
    }
  }

  /** Nothing lost, or one terminal event lost and nothing stored since. */
  ghost predicate Intact(run: Run)
    requires Dense(run.table)
  {
    run.lost == 0 ||
    (run.lost == 1 && !run.row.status.Terminal? && !Closing(run)
     && |run.table| > 0 && Log(run.table)[|run.table| - 1].RunEnded?)
  }

  /** The log is well formed if and only if the run is intact. */
  lemma WellFormedIffIntact(states: seq<System>, actions: seq<Action>, i: nat, r: RunId)
    requires UnstolenHistory(states, actions) && i < |states| && r in states[i].runs
    ensures Dense(states[i].runs[r].table)
    ensures WellFormedLog(states[i].runs[r].nodes, Log(states[i].runs[r].table)) <==> Intact(states[i].runs[r])
  {
    var run := states[i].runs[r];
    TerminalEventCount(states, actions, i, r);
    var log := Log(run.table);
    if run.lost == 0 {
      LogIsWellFormed(states, actions, i, r);
    } else {
      assert log != [];
      EndsCountedOnce(log);
      FirstEndingFits(states, actions, i, r, |log|);
      assert log[..|log|] == log;
      forall k | 0 <= k < |log| - 1 && log[k].RunEnded? ensures Scan(run.nodes, log) == Bad {
        NothingFollowsTheEnd(run.nodes, log, k);
      }
      hide Scan, Closing, Dense, UnstolenHistory, TerminalEvents, Log;
    }
  }
}
