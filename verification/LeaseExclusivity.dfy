/**
 * What the lease buys: one live executor per run, exactly as long as nobody claims a run whose lease
 * has lapsed under a live executor; and then terminal statuses that are final and agree with the log,
 * and an exact count of terminal events.
 */
module LeaseExclusivity {
  import opened Options
  import opened RunTypes
  import opened SqliteStatements
  import opened LeaseProtocol
  import opened EventTable

  ghost predicate EndsWith(t: Table, outcome: Outcome) {
    |t| > 0 && |t| - 1 in t && t[|t| - 1] == RunEnded(outcome)
  }

  /** The terminal event an append is about to store matches the status that will follow. */
  predicate AnnouncesTerminal(event: Event, next: Next) {
    next.ToTerminal? <==> event.RunEnded?
  }

  predicate NextMatches(event: Event, next: Next) {
    next.ToTerminal? ==> event == RunEnded(next.outcome)
  }

  /** What a live executor of process `pid` knows about its run. */
  ghost predicate OwnerInv(pid: ProcessId, l: Local) {
    && l.row.holder == Some(pid)
    && l.exec.handler == 0
    && (l.exec.pc.Release? <==> l.row.status.Terminal?)
    && (l.exec.pc.SetTerminal? ==> EndsWith(l.table, l.exec.pc.outcome))
    && (l.exec.pc.InsertEvent? ==> l.exec.pc.at == |l.table|)
    && ((l.exec.pc.InsertEvent? || l.exec.pc.CountEvents?) ==>
          AnnouncesTerminal(l.exec.pc.event, l.exec.pc.next) && NextMatches(l.exec.pc.event, l.exec.pc.next))
  }

  /** What holds of the row and the events whoever is executing. */
  ghost predicate StoreInv(row: Row, table: Table) {
    && Dense(table)
    && (row.status.Terminal? ==> EndsWith(table, row.status.outcome))
  }

  ghost predicate LeaseInv(run: Run) {
    && StoreInv(run.row, run.table)
    && (forall p :: LiveOn(run, p) ==> OwnerInv(p, View(run, p)))
    && (forall p :: p in run.execs ==> !run.execs[p].pc.Fatal?)
  }

  /** The lease of an open run has lapsed, and its executor is still alive. */
  ghost predicate Stealable(run: Run, clock: int) {
    !run.row.status.Terminal? && Lapsed(run.row, clock) && exists p :: LiveOn(run, p)
  }

  /** The one move the lease does not survive: a claim on such a run. */
  ghost predicate NoTheft(run: Run, m: Move, clock: int) { m.ClaimBy? ==> !Stealable(run, clock) }

  lemma InsertKeepsOwner(nodes: Workflow, pid: ProcessId, l: Local)
    requires OwnerInv(pid, l) && StoreInv(l.row, l.table) && l.exec.pc.InsertEvent?
    ensures var l' := Step(nodes, pid, l);
            && l'.table == l.table[|l.table| := l.exec.pc.event]
            && StoreInv(l'.row, l'.table) && Live(l'.exec) && OwnerInv(pid, l')
  {
    LogAppends(l.table, l.exec.pc.event);
  }

  lemma StatementKeepsOwner(nodes: Workflow, pid: ProcessId, l: Local)
    requires OwnerInv(pid, l) && StoreInv(l.row, l.table) && Runnable(l.exec.pc) && !l.exec.pc.InsertEvent?
    ensures var l' := Step(nodes, pid, l);
            && l'.table == l.table && StoreInv(l'.row, l'.table) && !l'.exec.pc.Fatal?
            && (Live(l'.exec) ==> OwnerInv(pid, l'))
  {
    hide Dense;
  }

  lemma AdvanceKeepsLease(run: Run, pid: ProcessId)
    requires LeaseInv(run) && pid in run.execs && Runnable(run.execs[pid].pc)
    ensures LeaseInv(AdvanceRun(run, pid))
    ensures !AdvanceRun(run, pid).execs[pid].pc.Fatal?
  {
    var l := View(run, pid);
    var run' := AdvanceRun(run, pid);
    assert LiveOn(run, pid);
    if l.exec.pc.InsertEvent? {
      InsertKeepsOwner(run.nodes, pid, l);
    } else {
      StatementKeepsOwner(run.nodes, pid, l);
    }
    hide Step, StoreInv;
    assert View(run', pid) == Step(run.nodes, pid, l);
    forall p | LiveOn(run', p)
      ensures OwnerInv(p, View(run', p))
    {
      if p != pid {
        assert LiveOn(run, p);
      }
    }
  }

  lemma ClaimKeepsLease(run: Run, pid: ProcessId, clock: int)
    requires LeaseInv(run) && !Stealable(run, clock) && pid !in run.execs
    ensures LeaseInv(ClaimRun(run, pid, clock))
  {
    hide Step, Dense;
    var run' := ClaimRun(run, pid, clock);
    forall p | LiveOn(run', p)
      ensures OwnerInv(p, View(run', p))
    {
      if p in run.execs {
        assert LiveOn(run, p);
      }
    }
  }

  /** A sleeping executor may be roused; otherwise executors stay where they are, or go away. */
  predicate OnlyRoused(execs: map<ProcessId, Executor>, execs': map<ProcessId, Executor>) {
    forall p :: p in execs' ==>
      && p in execs && execs'[p].handler == execs[p].handler
      && (execs'[p].pc == execs[p].pc ||
          (execs[p].pc.Asleep? && (execs'[p].pc.Woken? || execs'[p].pc.Interrupted?)))
  }

  lemma RousingKeepsLease(run: Run, run': Run)
    requires LeaseInv(run) && OnlyRoused(run.execs, run'.execs) && run'.table == run.table
    requires run'.row.holder == run.row.holder
    requires run'.row.status == run.row.status || (!run'.row.status.Terminal? && !run.row.status.Terminal?)
    ensures LeaseInv(run')
  {
    hide Dense;
    forall p | LiveOn(run', p)
      ensures OwnerInv(p, View(run', p))
    {
      assert LiveOn(run, p);
    }
  }

  lemma ShutdownKeepsLease(run: Run, pid: ProcessId)
    requires LeaseInv(run)
    ensures LeaseInv(ShutdownRun(run, pid))
  {
    hide Dense;
    var run' := ShutdownRun(run, pid);
    forall p | LiveOn(run', p)
      ensures OwnerInv(p, View(run', p))
    {
      assert LiveOn(run, p);
    }
  }

  lemma OthersKeepLease(run: Run, m: Move, clock: int)
    requires LeaseInv(run) && CanMove(run, m) && !m.ClaimBy? && !m.AdvanceBy? && !m.CrashBy?
    ensures LeaseInv(Moved(run, m, clock))
  {
    hide Step, LeaseInv;
    if m.ShutdownOf? {
      ShutdownKeepsLease(run, m.pid);
    } else {
      RousingKeepsLease(run, Moved(run, m, clock));
    }
  }

  lemma MoveKeepsLease(run: Run, m: Move, clock: int)
    requires LeaseInv(run) && NoTheft(run, m, clock) && CanMove(run, m)
    ensures LeaseInv(Moved(run, m, clock))
  {
    hide LeaseInv, Step, Stealable;
    match m {
      case ClaimBy(p) => ClaimKeepsLease(run, p, clock);
      case AdvanceBy(p) => AdvanceKeepsLease(run, p);
      case CrashBy(p) => AdvanceKeepsLease(run, p);
      case _ => OthersKeepLease(run, m, clock);
    }
  }

  /** A claim that takes a run from under a live executor. */
  ghost predicate Steals(s: System, a: Action) {
    a.Claim? && a.run in s.runs && Stealable(s.runs[a.run], s.clock)
  }

  /** Heartbeats may be late, as long as nobody exploits it. */
  ghost predicate UnstolenHistory(states: seq<System>, actions: seq<Action>) {
    History(states, actions) && forall i :: 0 <= i < |actions| ==> !Steals(states[i], actions[i])
  }

  lemma UnstolenMove(s: System, a: Action, r: RunId)
    requires Enabled(s, a) && r in s.runs && !Steals(s, a)
    ensures NoTheft(s.runs[r], MoveOf(s, a, r), s.clock)
  {
    hide Stealable, AdvanceRun;
  }

  /** The lease invariant holds in every state as long as no claim is stolen. */
  lemma {:induction false} LeaseHolds(states: seq<System>, actions: seq<Action>, i: nat, r: RunId)
    requires UnstolenHistory(states, actions) && i < |states| && r in states[i].runs
    ensures LeaseInv(states[i].runs[r])
  {
    if i > 0 {
      var s, a := states[i - 1], actions[i - 1];
      assert Enabled(s, a) && states[i] == Apply(s, a) && !Steals(s, a);
      hide Enabled, Apply, Steals, LeaseInv, NoTheft;
      if r in s.runs {
        LeaseHolds(states, actions, i - 1, r);
        ApplyMovesRun(s, a, r);
        UnstolenMove(s, a, r);
        MoveKeepsLease(s.runs[r], MoveOf(s, a, r), s.clock);
      } else {
        NewRunsAreCreated(s, a, r);
        NewRunsAreFree(states[i].runs[r]);
      }
    }
  }

  lemma NewRunsAreFree(run: Run)
    requires exists nodes :: run == Created(nodes)
    ensures LeaseInv(run)
  {
  }

  /** The live executor is the row's `claim_holder_id`. */
  lemma LiveIsHolder(states: seq<System>, actions: seq<Action>, i: nat, r: RunId, p: ProcessId)
    requires UnstolenHistory(states, actions) && i < |states| && r in states[i].runs
    requires LiveOn(states[i].runs[r], p)
    ensures states[i].runs[r].row.holder == Some(p)
  {
    LeaseHolds(states, actions, i, r);
  }

  /** At most one live executor per run. */
  ghost predicate Exclusive(s: System) {
    forall r, p, q :: r in s.runs && LiveOn(s.runs[r], p) && LiveOn(s.runs[r], q) ==> p == q
  }

  /** A stolen claim starts a second executor beside the first. */
  lemma TheftBreaksExclusivity(s: System, a: Action)
    requires Enabled(s, a) && Steals(s, a)
    ensures !Exclusive(Apply(s, a))
  {
    var run := s.runs[a.run];
    var p :| LiveOn(run, p);
    var run' := Apply(s, a).runs[a.run];
    assert LiveOn(run', p) && LiveOn(run', a.pid) && p != a.pid;
  }

  /**
   * Lease exclusivity, exactly: no run ever has two live executors if and only if no claim hits an
   * open run whose lease has lapsed while its executor is alive.
   */
  lemma LeaseIsExclusive(states: seq<System>, actions: seq<Action>)
    requires History(states, actions)
    ensures (forall i :: 0 <= i < |states| ==> Exclusive(states[i])) <==> UnstolenHistory(states, actions)
  {
    hide Enabled, Apply, Steals;
    if UnstolenHistory(states, actions) {
      forall i, r, p, q | 0 <= i < |states| && r in states[i].runs && LiveOn(states[i].runs[r], p) &&
                          LiveOn(states[i].runs[r], q)
        ensures p == q
      {
        LiveIsHolder(states, actions, i, r, p);
        LiveIsHolder(states, actions, i, r, q);
      }
    } else {
      var i :| 0 <= i < |actions| && Steals(states[i], actions[i]);
      TheftBreaksExclusivity(states[i], actions[i]);
      assert !Exclusive(states[i + 1]);
    }
  }

  lemma HolderMoves(run: Run, m: Move, clock: int, p: ProcessId)
    requires CanMove(run, m) && run.row.holder == Some(p)
    ensures var holder := Moved(run, m, clock).row.holder;
            || holder == Some(p)
            || (m.ClaimBy? && holder == Some(m.pid) && Lapsed(run.row, clock))
            || ((m.AdvanceBy? || m.CrashBy?) && m.pid == p && holder == None && run.execs[p].pc.Release?)
            || (m == ShutdownOf(p) && holder == None)
  {
    hide Goto, Throw, HasStarted, KindAt;
  }

  /**
   * Who can lose a claim, and how, without any assumption: another process takes it only when it
   * has lapsed, and it becomes free only when the holder itself releases it.
   */
  lemma ClaimChangesHands(s: System, a: Action, r: RunId, p: ProcessId)
    requires Enabled(s, a) && r in s.runs && s.runs[r].row.holder == Some(p)
    ensures var row' := Apply(s, a).runs[r].row;
            || row'.holder == Some(p)
            || (a.Claim? && a.run == r && row'.holder == Some(a.pid) && Lapsed(s.runs[r].row, s.clock))
            || (a.Advance? && a.run == r && a.pid == p && row'.holder == None
                && s.runs[r].execs[p].pc.Release?)
            || (a == Shutdown(p) && row'.holder == None)
  {
    hide Apply, Moved, Step, Lapsed;
    ApplyMovesRun(s, a, r);
    HolderMoves(s.runs[r], MoveOf(s, a, r), s.clock, p);
  }

  // ---- terminal is final ------------------------------------------------------------------------------

  /** Nothing changes the status or the events of a run whose status is terminal. */
  lemma TerminalMove(run: Run, m: Move, clock: int)
    requires LeaseInv(run) && CanMove(run, m) && run.row.status.Terminal?
    ensures Moved(run, m, clock).row.status == run.row.status && Moved(run, m, clock).table == run.table
  {
    if m.AdvanceBy? || m.CrashBy? {
      assert LiveOn(run, m.pid);
    }
  }

  /** A terminal status is for ever, matches the last event, and freezes the log. */
  lemma {:induction false} TerminalIsFinal(
    states: seq<System>, actions: seq<Action>, i: nat, j: nat, r: RunId)
    requires UnstolenHistory(states, actions) && i <= j < |states| && r in states[i].runs
    requires states[i].runs[r].row.status.Terminal?
    ensures r in states[j].runs
    ensures states[j].runs[r].row.status == states[i].runs[r].row.status
    ensures states[j].runs[r].table == states[i].runs[r].table
    ensures EndsWith(states[j].runs[r].table, states[i].runs[r].row.status.outcome)
    decreases j
  {
    if i == j {
      LeaseHolds(states, actions, i, r);
    } else {
      TerminalIsFinal(states, actions, i, j - 1, r);
      LeaseHolds(states, actions, j - 1, r);
      ApplyMovesRun(states[j - 1], actions[j - 1], r);
      TerminalMove(states[j - 1].runs[r], MoveOf(states[j - 1], actions[j - 1], r), states[j - 1].clock);
    }
  }

  // ---- how many terminal events -----------------------------------------------------------------------

  function TerminalEvents(log: seq<Event>): nat {
    if log == [] then 0
    else TerminalEvents(log[..|log| - 1]) + if log[|log| - 1].RunEnded? then 1 else 0
  }

  lemma TerminalEventsAppend(log: seq<Event>, e: Event)
    ensures TerminalEvents(log + [e]) == TerminalEvents(log) + if e.RunEnded? then 1 else 0
  {
    assert (log + [e])[..|log|] == log;
  }

  /** Between the terminal event and the status UPDATE that follows it. */
  ghost predicate Closing(run: Run) { exists p :: InWindow(run, p) }

  /** One terminal event per lost executor, plus the one that counts. */
  ghost function Announced(run: Run): nat {
    run.lost + if run.row.status.Terminal? || Closing(run) then 1 else 0
  }

  ghost predicate CountInv(run: Run) {
    Dense(run.table) && TerminalEvents(Log(run.table)) == Announced(run)
  }

  /** Only the holder can be closing. */
  lemma ClosingIsTheHolder(run: Run)
    requires LeaseInv(run)
    ensures Closing(run) <==> run.row.holder.Some? && InWindow(run, run.row.holder.value)
    ensures Closing(run) ==> !run.row.status.Terminal?
    ensures forall p :: InWindow(run, p) ==> run.row.holder == Some(p)
  {
    forall p | InWindow(run, p)
      ensures run.row.holder == Some(p) && !run.row.status.Terminal?
    {
      assert LiveOn(run, p);
    }
  }

  function Due(l: Local): nat { if l.exec.pc.SetTerminal? || l.row.status.Terminal? then 1 else 0 }

  lemma InsertCounts(nodes: Workflow, pid: ProcessId, l: Local)
    requires OwnerInv(pid, l) && StoreInv(l.row, l.table) && l.exec.pc.InsertEvent?
    ensures var l' := Step(nodes, pid, l);
            Dense(l'.table) && TerminalEvents(Log(l'.table)) + Due(l) == TerminalEvents(Log(l.table)) + Due(l')
  {
    InsertKeepsOwner(nodes, pid, l);
    LogAppends(l.table, l.exec.pc.event);
    TerminalEventsAppend(Log(l.table), l.exec.pc.event);
    hide Dense, TerminalEvents, EndsWith, Log;
  }

  /** One statement stores at most one terminal event, and then is about to set the status. */
  lemma StatementCounts(nodes: Workflow, pid: ProcessId, l: Local)
    requires OwnerInv(pid, l) && StoreInv(l.row, l.table) && Runnable(l.exec.pc)
    ensures var l' := Step(nodes, pid, l);
            Dense(l'.table) && TerminalEvents(Log(l'.table)) + Due(l) == TerminalEvents(Log(l.table)) + Due(l')
  {
    hide Dense, TerminalEvents, EndsWith, Log, Goto, Throw, HasStarted;
    if l.exec.pc.InsertEvent? {
      InsertCounts(nodes, pid, l);
    } else {
      StatementKeepsOwner(nodes, pid, l);
    }
  }

  lemma AdvanceKeepsCount(run: Run, pid: ProcessId)
    requires LeaseInv(run) && CountInv(run) && pid in run.execs && Runnable(run.execs[pid].pc)
    ensures CountInv(AdvanceRun(run, pid))
  {
    var run' := AdvanceRun(run, pid);
    assert LiveOn(run, pid);
    StatementCounts(run.nodes, pid, View(run, pid));
    AdvanceKeepsLease(run, pid);
    ClosingIsTheHolder(run);
    ClosingIsTheHolder(run');
    assert run.row.holder == Some(pid);
    assert run'.row.holder == Some(pid) || run'.row.status.Terminal?;
    hide LeaseInv, Dense, TerminalEvents, Closing, Step;
  }

  lemma ClaimKeepsAnnounced(run: Run, pid: ProcessId, clock: int)
    requires LeaseInv(run) && !Stealable(run, clock) && pid !in run.execs
    ensures Announced(ClaimRun(run, pid, clock)) == Announced(run)
  {
    var run' := ClaimRun(run, pid, clock);
    ClaimKeepsLease(run, pid, clock);
    ClosingIsTheHolder(run);
    ClosingIsTheHolder(run');
    hide LeaseInv, Closing;
    if Closing(run) {
      assert LiveOn(run, run.row.holder.value);
    }
  }

  /** Killing an executor inside the window trades the open announcement for a lost one. */
  lemma KillKeepsAnnounced(run: Run, pid: ProcessId)
    requires LeaseInv(run)
    ensures Announced(KillRun(run, pid)) == Announced(run)
  {
    ClosingIsTheHolder(run);
    var run' := KillRun(run, pid);
    assert Closing(run') ==> Closing(run) by {
      if p :| InWindow(run', p) {
        assert InWindow(run, p);
      }
    }
    hide LeaseInv;
    if Closing(run) && !InWindow(run, pid) {
      var p :| InWindow(run, p);
      assert InWindow(run', p);
    }
    if InWindow(run, pid) {
      assert Closing(run);
      assert forall p :: InWindow(run', p) ==> InWindow(run, p);
    }
  }

  lemma SameWindowSameCount(run: Run, run': Run)
    requires run'.lost == run.lost && (run'.row.status.Terminal? <==> run.row.status.Terminal?)
    requires forall p :: InWindow(run', p) <==> InWindow(run, p)
    ensures Announced(run') == Announced(run)
  {
  }

  lemma OthersKeepAnnounced(run: Run, m: Move, clock: int)
    requires LeaseInv(run) && NoTheft(run, m, clock)
    requires CanMove(run, m) && !m.AdvanceBy? && !m.CrashBy?
    ensures Announced(Moved(run, m, clock)) == Announced(run)
  {
    hide LeaseInv, Step, Announced, Stealable;
    if m.ClaimBy? {
      ClaimKeepsAnnounced(run, m.pid, clock);
    } else if m.KillOf? {
      KillKeepsAnnounced(run, m.pid);
    } else {
      SameWindowSameCount(run, Moved(run, m, clock));
    }
  }

  lemma OthersKeepCount(run: Run, m: Move, clock: int)
    requires LeaseInv(run) && NoTheft(run, m, clock) && CountInv(run)
    requires CanMove(run, m) && !m.AdvanceBy? && !m.CrashBy?
    ensures CountInv(Moved(run, m, clock))
  {
    hide LeaseInv, NoTheft, Announced, Step, Dense, TerminalEvents;
    OthersKeepAnnounced(run, m, clock);
    assert Moved(run, m, clock).table == run.table;
  }

  lemma MoveKeepsCount(run: Run, m: Move, clock: int)
    requires LeaseInv(run) && NoTheft(run, m, clock) && CountInv(run) && CanMove(run, m)
    ensures CountInv(Moved(run, m, clock))
  {
    hide LeaseInv, CountInv, Step, Stealable;
    match m {
      case AdvanceBy(p) => AdvanceKeepsCount(run, p);
      case CrashBy(p) => AdvanceKeepsLease(run, p);
      case _ => OthersKeepCount(run, m, clock);
    }
  }

  /**
   * The exact number of terminal events while no claim is stolen. It is at most one as long as no
   * executor has been killed between storing its terminal event and updating the status.
   */
  lemma {:induction false} TerminalEventCount(states: seq<System>, actions: seq<Action>, i: nat, r: RunId)
    requires UnstolenHistory(states, actions) && i < |states| && r in states[i].runs
    ensures CountInv(states[i].runs[r])
    ensures var run := states[i].runs[r];
            TerminalEvents(Log(run.table)) <= 1 <==>
              run.lost == 0 || (run.lost == 1 && !run.row.status.Terminal? && !Closing(run))
  {
    if i > 0 {
      var s, a := states[i - 1], actions[i - 1];
      assert Enabled(s, a) && states[i] == Apply(s, a) && !Steals(s, a);
      hide Enabled, Apply, Steals, LeaseInv, NoTheft, CountInv;
      if r in s.runs {
        TerminalEventCount(states, actions, i - 1, r);
        LeaseHolds(states, actions, i - 1, r);
        ApplyMovesRun(s, a, r);
        UnstolenMove(s, a, r);
        MoveKeepsCount(s.runs[r], MoveOf(s, a, r), s.clock);
      } else {
        NewRunsAreCreated(s, a, r);
        NewRunsAreUncounted(states[i].runs[r]);
      }
    }
    AtMostOneAnnounced(states[i].runs[r]);
  }

  lemma NewRunsAreUncounted(run: Run)
    requires exists nodes :: run == Created(nodes)
    ensures CountInv(run)
  {
  }

  lemma AtMostOneAnnounced(run: Run)
    requires CountInv(run)
    ensures TerminalEvents(Log(run.table)) <= 1 <==>
              run.lost == 0 || (run.lost == 1 && !run.row.status.Terminal? && !Closing(run))
  {
    hide TerminalEvents, Closing;
  }
}
