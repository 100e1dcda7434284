/**
 * A cancel handled by the process that executes the run ends a sleep at once: from then on the
 * executor waits for no timer, and its own statements close the run.
 */
module InterruptedSleeps {
  import opened Options
  import opened RunTypes
  import opened SqliteStatements
  import opened LeaseProtocol
  import opened EventTable
  import opened LeaseExclusivity
  import opened ExecutorProgress
  import opened SqliteTurns
  import opened TurnHistories
  import Host = SqliteHost

  // ---- between turns --------------------------------------------------------------------------------------

  /** What is still stored after a cancel that finds the executor at this await, but for the terminal event. */
  function LastNodeEvent(pc: Pc): seq<Event> {
    match pc
    case Asleep(i) => [NodeCancelled(i)]
    case Interrupted(i) => [NodeCancelled(i)]
    case Woken(i) => [NodeCompleted(i)]
    case _ => []
  }

  /** A failed node fails the run in spite of the cancel. */
  function LastOutcome(pc: Pc): Outcome { if pc.Returned? && pc.outcome.Failed? then Failed else Cancelled }

  /** `runWorkflow` resumed after a node, when the run is to be cancelled. */
  lemma ReturnedTurn(nodes: Workflow, pid: ProcessId, l: Local)
    requires Dense(l.table) && l.row.status.Cancelling? && l.exec.pc.Returned?
    ensures var l' := ResumeTurn(nodes, pid, l);
            && l'.row == ReleaseClaim(l.row.(status := Terminal(LastOutcome(l.exec.pc))), pid)
            && l'.exec.pc == Finished
            && Dense(l'.table) && Log(l'.table) == Log(l.table) + [RunEnded(LastOutcome(l.exec.pc))]
  {
    LogAppends(l.table, RunEnded(LastOutcome(l.exec.pc)));
    hide Dense, Log, ReleaseClaim;
  }

  /** `executeNode` resumed. */
  lemma NodeTurnEnds(nodes: Workflow, pid: ProcessId, l: Local)
    requires Dense(l.table) && (l.exec.pc.Woken? || l.exec.pc.Interrupted?)
    ensures var l' := ResumeTurn(nodes, pid, l);
            && l'.row == l.row && l'.exec.pc.Returned? && LastOutcome(l'.exec.pc) == Cancelled
            && Dense(l'.table) && Log(l'.table) == Log(l.table) + LastNodeEvent(l.exec.pc)
  {
    LogAppends(l.table, LastNodeEvent(l.exec.pc)[0]);
    hide Dense, Log;
  }

  /** The executor after the cancel, without the words of the handler: only a sleep is cut short. */
  lemma CancelBetweenTurns(s: System, p: ProcessId, r: RunId)
    requires r in s.runs && LiveOn(s.runs[r], p) && AtAwait(s.runs[r].execs[p].pc)
    requires !s.runs[r].row.status.Terminal?
    ensures Enabled(s, CancelRequest(p, r))
    ensures var run, run' := s.runs[r], Apply(s, CancelRequest(p, r)).runs[r];
            var pc := run.execs[p].pc;
            && run'.nodes == run.nodes && run'.table == run.table
            && run'.row == run.row.(status := Cancelling)
            && run'.execs == run.execs[p := Executor(if pc.Asleep? then Interrupted(pc.i) else pc,
                                                     run.execs[p].handler, true)]
  {
  }

  lemma AdvancesAreUnstolen(
    states: seq<System>, actions: seq<Action>, states': seq<System>, actions': seq<Action>, p: ProcessId, r: RunId)
    requires UnstolenHistory(states, actions) && History(states', actions') && states <= states'
    requires OnlyAdvances(actions, actions', p, r)
    ensures UnstolenHistory(states', actions')
  {
    hide Enabled, Apply;
    forall k | 0 <= k < |actions'| ensures !Steals(states'[k], actions'[k]) {
      if k < |actions| {
        assert actions'[k] == actions[k] && states'[k] == states[k];
      }
    }
  }

  /** A turn of process `p` from an await, in a history. */
  lemma ResumeIsHistory(states: seq<System>, actions: seq<Action>, p: ProcessId, r: RunId)
    returns (states': seq<System>, actions': seq<Action>)
    requires UnstolenHistory(states, actions)
    requires var s := states[|states| - 1];
             r in s.runs && p in s.runs[r].execs && AtAwait(s.runs[r].execs[p].pc) && Runnable(s.runs[r].execs[p].pc)
    ensures UnstolenHistory(states', actions') && states <= states' && OnlyAdvances(actions, actions', p, r)
    ensures var run, t := states[|states| - 1].runs[r], states'[|states'| - 1];
            && r in t.runs && p in t.runs[r].execs && t.runs[r].nodes == run.nodes
            && View(t.runs[r], p) == ResumeTurn(run.nodes, p, View(run, p))
  {
    hide ResumeTurn, StartTurn;
    states', actions' := TurnIsHistory(states, actions, p, r);
    AdvancesAreUnstolen(states, actions, states', actions', p, r);
    hide UnstolenHistory, History;
  }

  lemma OnlyAdvancesMore(a: seq<Action>, b: seq<Action>, c: seq<Action>, p: ProcessId, r: RunId)
    requires OnlyAdvances(a, b, p, r) && OnlyAdvances(b, c, p, r)
    ensures OnlyAdvances(a, c, p, r)
  {
    assert c[..|b|] == b;
    forall k | |a| <= k < |c| ensures c[k] == Advance(p, r) {
      assert k < |b| ==> c[k] == b[k];
    }
  }

  lemma HistoryIsLong(states: seq<System>, actions: seq<Action>)
    requires UnstolenHistory(states, actions)
    ensures |states| == |actions| + 1
  {
  }

  lemma ReleasedByHolder(row: Row, p: ProcessId, outcome: Outcome)
    requires row.holder == Some(p)
    ensures ReleaseClaim(row.(status := Terminal(outcome)), p) == Row(Terminal(outcome), None, None)
  {
  }

  /** The executor's last turn. */
  lemma ReturnedWindsUp(states: seq<System>, actions: seq<Action>, p: ProcessId, r: RunId)
    returns (states': seq<System>, actions': seq<Action>)
    requires UnstolenHistory(states, actions)
    requires var s := states[|states| - 1];
             && r in s.runs && p in s.runs[r].execs && Dense(s.runs[r].table)
             && s.runs[r].row.status.Cancelling? && s.runs[r].row.holder == Some(p)
             && s.runs[r].execs[p].pc.Returned?
    ensures UnstolenHistory(states', actions') && states <= states' && OnlyAdvances(actions, actions', p, r)
    ensures var run, t := states[|states| - 1].runs[r], states'[|states'| - 1];
            var outcome := LastOutcome(run.execs[p].pc);
            && r in t.runs && t.runs[r].row == Row(Terminal(outcome), None, None)
            && Dense(t.runs[r].table) && Log(t.runs[r].table) == Log(run.table) + [RunEnded(outcome)]
  {
    HistoryIsLong(states, actions);
    hide UnstolenHistory, History, ResumeTurn, Dense, Log, OnlyAdvances, ReleaseClaim;
    var run := states[|states| - 1].runs[r];
    states', actions' := ResumeIsHistory(states, actions, p, r);
    HistoryIsLong(states', actions');
    ReturnedTurn(run.nodes, p, View(run, p));
    ReleasedByHolder(run.row, p, LastOutcome(run.execs[p].pc));
  }

  /** Its last two turns. */
  lemma NodeWindsUp(states: seq<System>, actions: seq<Action>, p: ProcessId, r: RunId)
    returns (states': seq<System>, actions': seq<Action>)
    requires UnstolenHistory(states, actions)
    requires var s := states[|states| - 1];
             && r in s.runs && p in s.runs[r].execs && Dense(s.runs[r].table)
             && s.runs[r].row.status.Cancelling? && s.runs[r].row.holder == Some(p)
             && (s.runs[r].execs[p].pc.Woken? || s.runs[r].execs[p].pc.Interrupted?)
    ensures UnstolenHistory(states', actions') && states <= states' && OnlyAdvances(actions, actions', p, r)
    ensures var run, t := states[|states| - 1].runs[r], states'[|states'| - 1];
            && r in t.runs && t.runs[r].row == Row(Terminal(Cancelled), None, None)
            && Dense(t.runs[r].table)
            && Log(t.runs[r].table) == Log(run.table) + LastNodeEvent(run.execs[p].pc) + [RunEnded(Cancelled)]
  {
    HistoryIsLong(states, actions);
    hide UnstolenHistory, History, ResumeTurn, Dense, Log, OnlyAdvances, LastNodeEvent, LastOutcome;
    var run := states[|states| - 1].runs[r];
    NodeTurnEnds(run.nodes, p, View(run, p));
    var states1, actions1 := ResumeIsHistory(states, actions, p, r);
    HistoryIsLong(states1, actions1);
    var run1 := states1[|states1| - 1].runs[r];
    assert View(run1, p) == ResumeTurn(run.nodes, p, View(run, p));
    states', actions' := ReturnedWindsUp(states1, actions1, p, r);
    OnlyAdvancesMore(actions, actions1, actions', p, r);
  }

  /** From a pending cancel on: the executor's one or two turns. */
  lemma WindUp(states: seq<System>, actions: seq<Action>, p: ProcessId, r: RunId)
    returns (states': seq<System>, actions': seq<Action>)
    requires UnstolenHistory(states, actions)
    requires var s := states[|states| - 1];
             && r in s.runs && p in s.runs[r].execs && Dense(s.runs[r].table)
             && s.runs[r].row.status.Cancelling? && s.runs[r].row.holder == Some(p)
             && var pc := s.runs[r].execs[p].pc;
             pc.Woken? || pc.Interrupted? || pc.Returned?
    ensures UnstolenHistory(states', actions') && states <= states' && OnlyAdvances(actions, actions', p, r)
    ensures var run, t := states[|states| - 1].runs[r], states'[|states'| - 1];
            var pc := run.execs[p].pc;
            && r in t.runs && t.runs[r].row == Row(Terminal(LastOutcome(pc)), None, None)
            && Dense(t.runs[r].table)
            && Log(t.runs[r].table) == Log(run.table) + LastNodeEvent(pc) + [RunEnded(LastOutcome(pc))]
  {
    HistoryIsLong(states, actions);
    hide UnstolenHistory, History, ResumeTurn, Dense, Log, OnlyAdvances;
    var run := states[|states| - 1].runs[r];
    if run.execs[p].pc.Returned? {
      states', actions' := ReturnedWindsUp(states, actions, p, r);
      assert Log(run.table) + [] == Log(run.table);
    } else {
      states', actions' := NodeWindsUp(states, actions, p, r);
    }
  }

  /**
   * A cancel between turns, handled by the process that executes the run. It cuts a sleep short and lets
   * a node that is over be over: from then on that executor's own statements alone, no timer among
   * them, close the run and free it, and the log grows by exactly the last event of the current node,
   * if that is due, and the terminal event.
   */
  lemma CancelWindsUp(states: seq<System>, actions: seq<Action>, p: ProcessId, r: RunId)
    returns (states': seq<System>, actions': seq<Action>)
    requires UnstolenHistory(states, actions)
    requires var s := states[|states| - 1];
             r in s.runs && LiveOn(s.runs[r], p) && AtAwait(s.runs[r].execs[p].pc)
    ensures var s := states[|states| - 1];
            Enabled(s, CancelRequest(p, r)) && states + [Apply(s, CancelRequest(p, r))] <= states'
    ensures UnstolenHistory(states', actions') && OnlyAdvances(actions + [CancelRequest(p, r)], actions', p, r)
    ensures var run, t := states[|states| - 1].runs[r], states'[|states'| - 1];
            var pc := run.execs[p].pc;
            && r in t.runs && t.runs[r].row == Row(Terminal(LastOutcome(pc)), None, None)
            && Dense(run.table) && Dense(t.runs[r].table)
            && Log(t.runs[r].table) == Log(run.table) + LastNodeEvent(pc) + [RunEnded(LastOutcome(pc))]
  {
    var s, a := states[|states| - 1], CancelRequest(p, r);
    AwaitIsOpen(states, actions, p, r);
    CancelBetweenTurns(s, p, r);
    UnstolenSnoc(states, actions, a);
    hide UnstolenHistory, History, Enabled, Apply, Steals;
    states', actions' := WindUp(states + [Apply(s, a)], actions + [a], p, r);
  }

  lemma AwaitIsOpen(states: seq<System>, actions: seq<Action>, p: ProcessId, r: RunId)
    requires UnstolenHistory(states, actions)
    requires var s := states[|states| - 1];
             r in s.runs && LiveOn(s.runs[r], p) && AtAwait(s.runs[r].execs[p].pc)
    ensures var run := states[|states| - 1].runs[r];
            !run.row.status.Terminal? && run.row.holder == Some(p) && Dense(run.table)
  {
    LeaseHolds(states, actions, |states| - 1, r);
    hide UnstolenHistory, Dense;
  }

  /** In particular a cancel interrupts a sleep: node and run are cancelled, and no timer fires. */
  lemma CancelInterruptsSleep(states: seq<System>, actions: seq<Action>, p: ProcessId, r: RunId, i: nat)
    returns (states': seq<System>, actions': seq<Action>)
    requires UnstolenHistory(states, actions)
    requires var s := states[|states| - 1];
             && r in s.runs && LiveOn(s.runs[r], p) && s.runs[r].execs[p].pc == Asleep(i)
    ensures var s := states[|states| - 1];
            Enabled(s, CancelRequest(p, r)) && states + [Apply(s, CancelRequest(p, r))] <= states'
    ensures UnstolenHistory(states', actions') && OnlyAdvances(actions + [CancelRequest(p, r)], actions', p, r)
    ensures var run, t := states[|states| - 1].runs[r], states'[|states'| - 1];
            && r in t.runs && t.runs[r].row == Row(Terminal(Cancelled), None, None)
            && Dense(run.table) && Dense(t.runs[r].table)
            && Log(t.runs[r].table) == Log(run.table) + [NodeCancelled(i), RunEnded(Cancelled)]
  {
    states', actions' := CancelWindsUp(states, actions, p, r);
    hide UnstolenHistory, Dense, Log, OnlyAdvances, Enabled, Apply;
    assert [NodeCancelled(i)] + [RunEnded(Cancelled)] == [NodeCancelled(i), RunEnded(Cancelled)];
    var log := Log(states[|states| - 1].runs[r].table);
    assert log + [NodeCancelled(i)] + [RunEnded(Cancelled)] == log + ([NodeCancelled(i)] + [RunEnded(Cancelled)]);
  }

  /** The same of the host's methods: `HandleCancelRun`, then `Resume` twice, and no `Wake`. */
  lemma HandlerInterruptsSleep(s: Host.State, nodes: Workflow, pid: ProcessId, r: RunId, i: nat)
    requires Host.Has(s, r) && s.executors[r].pc == Asleep(i) && !s.rows[r].status.Terminal? && Dense(s.events[r])
    ensures r in s.rows && Host.Has(Host.CancelAsked(s, r), r)
    ensures var s1 := Host.CancelAsked(s, r);
            var s2 := Host.Put(s1, r, ResumeTurn(nodes, pid, Host.At(s1, r)));
            var s3 := Host.Put(s2, r, ResumeTurn(nodes, pid, Host.At(s2, r)));
            && s1.executors[r].pc == Interrupted(i) && s2.executors[r].pc == Returned(i, Cancelled)
            && s3.rows[r].status == Terminal(Cancelled) && Dense(s3.events[r])
            && Log(s3.events[r]) == Log(s.events[r]) + [NodeCancelled(i), RunEnded(Cancelled)]
  {
    var s1 := Host.CancelAsked(s, r);
    var exec := Executor(Interrupted(i), s.executors[r].handler, true);
    var l := Local(s.rows[r].(status := Cancelling), s.events[r], exec);
    assert Host.At(s1, r) == l;
    var l1 := ResumeTurn(nodes, pid, l);
    assert l1.exec.pc == Returned(i, Cancelled);
    NodeTurnEnds(nodes, pid, l);
    ReturnedTurn(nodes, pid, l1);
    hide ResumeTurn, Dense, Log;
    assert Host.At(Host.Put(s1, r, l1), r) == l1;
    var log := Log(s.events[r]);
    assert log + [NodeCancelled(i)] + [RunEnded(Cancelled)] == log + [NodeCancelled(i), RunEnded(Cancelled)];
  }

  // ---- wherever the cancel finds the executor ---------------------------------------------------------------

  /** Aborted by its own process, and not asleep. */
  predicate Awake(run: Run, p: ProcessId) { p in run.execs && run.execs[p].aborted && !run.execs[p].pc.Asleep? }

  lemma MoveKeepsAwake(run: Run, m: Move, clock: int, p: ProcessId)
    requires CanMove(run, m) && Awake(run, p) && p in Moved(run, m, clock).execs
    ensures Awake(Moved(run, m, clock), p)
  {
    hide HasStarted;
  }

  lemma ActionKeepsAwake(s: System, a: Action, p: ProcessId, r: RunId)
    requires Enabled(s, a) && r in s.runs && Awake(s.runs[r], p)
    requires r in Apply(s, a).runs && p in Apply(s, a).runs[r].execs
    ensures Awake(Apply(s, a).runs[r], p)
  {
    hide Awake, Step;
    ApplyMovesRun(s, a, r);
    MoveKeepsAwake(s.runs[r], MoveOf(s, a, r), s.clock, p);
  }

  /** In every history: an executor aborted by a cancel never sleeps again, wherever the cancel found it. */
  lemma {:induction false} AbortedNeverSleeps(
    states: seq<System>, actions: seq<Action>, i: nat, j: nat, p: ProcessId, r: RunId)
    requires History(states, actions) && i < j && Survives(states, i, j, p, r)
    requires actions[i] == CancelRequest(p, r) && Live(states[i].runs[r].execs[p])
    ensures Awake(states[j].runs[r], p)
    decreases j
  {
    hide Enabled, Apply, Awake;
    var s, a := states[j - 1], actions[j - 1];
    assert Enabled(s, a) && states[j] == Apply(s, a);
    assert r in states[j].runs && p in states[j].runs[r].execs;
    assert r in s.runs && p in s.runs[r].execs;
    if i == j - 1 {
      CancelWakes(s, p, r);
    } else {
      assert Survives(states, i, j - 1, p, r);
      AbortedNeverSleeps(states, actions, i, j - 1, p, r);
      ActionKeepsAwake(s, a, p, r);
    }
  }

  lemma CancelWakes(s: System, p: ProcessId, r: RunId)
    requires r in s.runs && LiveOn(s.runs[r], p)
    ensures Enabled(s, CancelRequest(p, r)) && r in Apply(s, CancelRequest(p, r)).runs
    ensures Awake(Apply(s, CancelRequest(p, r)).runs[r], p)
  {
  }

  /** An awake executor's own statements close the run, without any timer. */
  lemma {:induction false} AwakeCloseTheRun(states: seq<System>, actions: seq<Action>, p: ProcessId, r: RunId)
    returns (states': seq<System>, actions': seq<Action>)
    requires UnstolenHistory(states, actions)
    requires r in states[|states| - 1].runs && Awake(states[|states| - 1].runs[r], p)
    ensures UnstolenHistory(states', actions') && states <= states' && OnlyAdvances(actions, actions', p, r)
    ensures var run := states[|states| - 1].runs[r];
            |actions'| - |actions| <= PcRank(run.nodes, run.execs[p].pc)
    ensures r in states'[|states'| - 1].runs && states'[|states'| - 1].runs[r].row.status.Terminal?
    decreases PcRank(states[|states| - 1].runs[r].nodes, states[|states| - 1].runs[r].execs[p].pc)
  {
    hide PcRank, Apply, Enabled, Step, Steals, LeaseInv;
    var s := states[|states| - 1];
    LeaseHolds(states, actions, |states| - 1, r);
    if !Live(s.runs[r].execs[p]) {
      SurvivorsCanMove(states, actions, |states| - 1, p, r);
      return states, actions;
    }
    NextMoveLeadsOn(s, p, r);
    var a := Advance(p, r);
    assert NextMove(s.runs[r].execs[p], p, r) == a;
    assert !Steals(s, a) by { OwnMovesStealNothing(s, a); }
    UnstolenSnoc(states, actions, a);
    ActionKeepsAwake(s, a, p, r);
    states', actions' := AwakeCloseTheRun(states + [Apply(s, a)], actions + [a], p, r);
    OneMoreAdvance(actions, actions', p, r);
  }

  lemma OneMoreAdvance(actions: seq<Action>, actions': seq<Action>, p: ProcessId, r: RunId)
    requires OnlyAdvances(actions + [Advance(p, r)], actions', p, r)
    ensures OnlyAdvances(actions, actions', p, r)
  {
    assert OnlyAdvances(actions, actions + [Advance(p, r)], p, r);
    OnlyAdvancesMore(actions, actions + [Advance(p, r)], actions', p, r);
  }

  /**
   * A cancel handled by the executing process needs no timer: wherever it finds the executor, that
   * executor's own statements close the run, within the rank of its position.
   */
  lemma CancelNeedsNoTimer(states: seq<System>, actions: seq<Action>, p: ProcessId, r: RunId)
    returns (states': seq<System>, actions': seq<Action>)
    requires UnstolenHistory(states, actions)
    requires var s := states[|states| - 1]; r in s.runs && LiveOn(s.runs[r], p)
    ensures var s := states[|states| - 1];
            Enabled(s, CancelRequest(p, r)) && states + [Apply(s, CancelRequest(p, r))] <= states'
    ensures UnstolenHistory(states', actions') && OnlyAdvances(actions + [CancelRequest(p, r)], actions', p, r)
    ensures r in states'[|states'| - 1].runs && states'[|states'| - 1].runs[r].row.status.Terminal?
  {
    var s, a := states[|states| - 1], CancelRequest(p, r);
    CancelWakes(s, p, r);
    UnstolenSnoc(states, actions, a);
    hide UnstolenHistory, History, Enabled, Apply, Awake, PcRank;
    states', actions' := AwakeCloseTheRun(states + [Apply(s, a)], actions + [a], p, r);
  }
}
