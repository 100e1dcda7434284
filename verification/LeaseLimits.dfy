/**
 * What the turn grain adds, and where the guarantees stop: reachable histories that break each
 * promise once its assumption is dropped.
 */
module LeaseLimits {
  import opened Options
  import opened RunTypes
  import opened SqliteStatements
  import opened LeaseProtocol
  import opened EventTable
  import opened LeaseExclusivity
  import opened OnTimeLeases
  import opened LogGrammar
  import opened SqliteTurns
  import LogShape

  // ---- the turn grain: kills between awaits only --------------------------------------------------------

  /** Every kill finds its victim suspended, so a turn either happens completely or not at all. */
  ghost predicate KillsAtAwaits(states: seq<System>, actions: seq<Action>) {
    History(states, actions) &&
    forall i, r :: 0 <= i < |actions| && actions[i].Kill? && r in states[i].runs &&
                   actions[i].pid in states[i].runs[r].execs ==>
                     AtAwait(states[i].runs[r].execs[actions[i].pid].pc)
  }

  /**
   * At the turn grain nothing is lost: the log is well formed and holds at most one terminal event,
   * exactly one once the status is terminal.
   */
  lemma {:induction false} TurnGrainLosesNothing(states: seq<System>, actions: seq<Action>, i: nat, r: RunId)
    requires UnstolenHistory(states, actions) && KillsAtAwaits(states, actions)
    requires i < |states| && r in states[i].runs
    ensures states[i].runs[r].lost == 0 && Dense(states[i].runs[r].table)
    ensures WellFormedLog(states[i].runs[r].nodes, Log(states[i].runs[r].table))
    ensures TerminalEvents(Log(states[i].runs[r].table)) <= 1
    ensures states[i].runs[r].row.status.Terminal? ==> TerminalEvents(Log(states[i].runs[r].table)) == 1
  {
    hide WellFormedLog, TerminalEvents, Step, LeaseInv, Apply, Enabled, Dense;
    if i > 0 {
      var s, a := states[i - 1], actions[i - 1];
      assert Enabled(s, a) && states[i] == Apply(s, a);
      if r in s.runs {
        TurnGrainLosesNothing(states, actions, i - 1, r);
        LeaseHolds(states, actions, i - 1, r);
        ApplyMovesRun(s, a, r);
        if a.Advance? {
          AdvanceIsInRun(s, a);
          LeaseHolds(states, actions, i - 1, a.run);
        }
        NothingLost(s, a, r);
      } else {
        NewRunsAreCreated(s, a, r);
      }
    }
    LogIsWellFormed(states, actions, i, r);
    TerminalEventCount(states, actions, i, r);
  }

  /** Written out: executions from the first node on, then at most one terminal event, always last. */
  lemma TurnGrainLogShape(states: seq<System>, actions: seq<Action>, i: nat, r: RunId)
    returns (xs: seq<LogShape.Execution>, tail: seq<Event>)
    requires UnstolenHistory(states, actions) && KillsAtAwaits(states, actions)
    requires i < |states| && r in states[i].runs
    ensures var run := states[i].runs[r];
            && Dense(run.table)
            && LogShape.Shape(run.nodes, Log(run.table), xs, tail)
            && (run.row.status.Terminal? ==> tail == [RunEnded(run.row.status.outcome)])
  {
    TurnGrainLosesNothing(states, actions, i, r);
    xs, tail := LogShape.DurableLogShape(states, actions, i, r);
  }

  lemma NothingLost(s: System, a: Action, r: RunId)
    requires Enabled(s, a) && r in s.runs
    requires a.Advance? ==> LeaseInv(s.runs[a.run])
    requires a.Kill? && a.pid in s.runs[r].execs ==> AtAwait(s.runs[r].execs[a.pid].pc)
    ensures Moved(s.runs[r], MoveOf(s, a, r), s.clock).lost == s.runs[r].lost
  {
    hide LeaseInv, Step;
    if a.Advance? {
      AdvanceKeepsLease(s.runs[a.run], a.pid);
    }
  }

  // ---- reachable states with a single run ---------------------------------------------------------------

  /** The last state of some history. */
  ghost predicate Reachable(s: System) {
    exists states, actions :: History(states, actions) && states[|states| - 1] == s
  }

  /** The last state of some history with every heartbeat on time. */
  ghost predicate ReachableOnTime(s: System) {
    exists states, actions :: OnTimeHistory(states, actions) && states[|states| - 1] == s
  }

  lemma ReachableStep(s: System, a: Action)
    requires Reachable(s) && Enabled(s, a)
    ensures Reachable(Apply(s, a))
  {
    hide Enabled, Apply;
    var states, actions :| History(states, actions) && states[|states| - 1] == s;
    assert History(states + [Apply(s, a)], actions + [a]);
  }

  lemma OnTimeStep(s: System, a: Action)
    requires ReachableOnTime(s) && Enabled(s, a) && OnTime(Apply(s, a))
    ensures ReachableOnTime(Apply(s, a))
  {
    hide Enabled, Apply, OnTime;
    var states, actions :| OnTimeHistory(states, actions) && states[|states| - 1] == s;
    assert History(states + [Apply(s, a)], actions + [a]);
    assert OnTimeHistory(states + [Apply(s, a)], actions + [a]);
  }

  function One(clock: int, run: Run): System { System(clock, map["r" := run]) }

  lemma Start(clock: int, nodes: Workflow)
    ensures ReachableOnTime(One(clock, Created(nodes)))
  {
    var s := System(clock, map[]);
    assert OnTimeHistory([s], []);
    assert [s][|[s]| - 1] == s;
    OnTimeStep(s, CreateRun("r", nodes));
    assert Apply(s, CreateRun("r", nodes)) == One(clock, Created(nodes));
  }

  /** One statement of the only live executor, whose lease is good. */
  lemma AdvanceOne(clock: int, run: Run, p: ProcessId, run': Run)
    requires ReachableOnTime(One(clock, run)) && p in run.execs && Runnable(run.execs[p].pc)
    requires run' == AdvanceRun(run, p) && !run'.execs[p].pc.Fatal?
    requires !Lapsed(run'.row, clock)
    ensures ReachableOnTime(One(clock, run'))
  {
    var s := One(clock, run);
    assert Apply(s, Advance(p, "r")) == One(clock, run');
    hide Step, Apply;
    OnTimeStep(s, Advance(p, "r"));
  }

  // ---- late heartbeats ------------------------------------------------------------------------------------

  /** A holder that does not renew in time loses exclusivity: two processes execute the same run. */
  lemma LateHeartbeatBreaksExclusivity()
    ensures exists s, p, q :: Reachable(s) && "r" in s.runs && p != q &&
                              LiveOn(s.runs["r"], p) && LiveOn(s.runs["r"], q)
  {
    var c := Created([Delay]);
    Start(0, [Delay]);
    ReachableFromOnTime(One(0, c));
    var s0 := One(0, c);
    ReachableStep(s0, Claim("a", "r"));
    var s1 := Apply(s0, Claim("a", "r"));
    ReachableStep(s1, Tick(CLAIM_TTL_MS + 1));
    var s2 := Apply(s1, Tick(CLAIM_TTL_MS + 1));
    ReachableStep(s2, Claim("b", "r"));
    var s3 := Apply(s2, Claim("b", "r"));
    hide Reachable;
    assert LiveOn(s3.runs["r"], "a") && LiveOn(s3.runs["r"], "b");
  }

  lemma ReachableFromOnTime(s: System)
    requires ReachableOnTime(s)
    ensures Reachable(s)
  {
  }

  // ---- a kill between the terminal event and the status UPDATE -----------------------------------------------

  /** An executor of an empty workflow that has stored its terminal event and not yet the status. */
  function AtWindow(run: Run, p: ProcessId): Run {
    var n := |run.table|;
    var header := if HasStarted(run.table) then RunResumed else RunStarted;
    run.(row := run.row.(status := Running),
         table := run.table[n := header][n + 1 := RunEnded(Completed)],
         execs := run.execs[p := Executor(SetTerminal(Completed), 0, false)])
  }

  function WithPc(run: Run, p: ProcessId, pc: Pc): Run { run.(execs := run.execs[p := Executor(pc, 0, false)]) }

  /** One statement, seen locally. */
  lemma StepOne(clock: int, run: Run, p: ProcessId, pc: Pc, run': Run, pc': Pc)
    requires ReachableOnTime(One(clock, WithPc(run, p, pc))) && Runnable(pc) && !pc'.Fatal?
    requires run' == run.(row := run'.row, table := run'.table) && !Lapsed(run'.row, clock)
    requires Step(run.nodes, p, Local(run.row, run.table, Executor(pc, 0, false)))
          == Local(run'.row, run'.table, Executor(pc', 0, false))
    ensures ReachableOnTime(One(clock, WithPc(run', p, pc')))
  {
    hide ReachableOnTime, Step;
    assert AdvanceRun(WithPc(run, p, pc), p) == WithPc(run', p, pc');
    AdvanceOne(clock, WithPc(run, p, pc), p, WithPc(run', p, pc'));
  }

  /** COUNT and INSERT. */
  lemma StepAppend(clock: int, run: Run, p: ProcessId, e: Event, next: Next)
    requires ReachableOnTime(One(clock, WithPc(run, p, CountEvents(e, next)))) && Dense(run.table)
    requires !Lapsed(run.row, clock)
    ensures Dense(run.table[|run.table| := e])
    ensures ReachableOnTime(One(clock,
              WithPc(run.(table := run.table[|run.table| := e]), p, Goto(run.nodes, false, next))))
  {
    hide ReachableOnTime, WithPc, Goto;
    var n := |run.table|;
    LogAppends(run.table, e);
    StepOne(clock, run, p, CountEvents(e, next), run, InsertEvent(e, n, next));
    assert !Goto(run.nodes, false, next).Fatal? by { GotoGoesOn(run.nodes, next); }
    StepOne(clock, run, p, InsertEvent(e, n, next), run.(table := run.table[n := e]), Goto(run.nodes, false, next));
  }

  lemma GotoGoesOn(nodes: Workflow, next: Next)
    ensures !Goto(nodes, false, next).Fatal?
  {
  }

  lemma ReachMarked(clock: int, run: Run, p: ProcessId)
    requires ReachableOnTime(One(clock, run))
    requires p in run.execs && run.execs[p] == FRESH && !Lapsed(run.row, clock)
    ensures ReachableOnTime(One(clock, WithPc(run.(row := run.row.(status := Running)), p,
              CountEvents(if HasStarted(run.table) then RunResumed else RunStarted, ToLoop(0)))))
  {
    hide ReachableOnTime, HasStarted;
    var resumed := HasStarted(run.table);
    assert WithPc(run, p, LoadRun) == run;
    StepOne(clock, run, p, LoadRun, run, ReadLog);
    StepOne(clock, run, p, ReadLog, run, MarkRunning(resumed));
    StepOne(clock, run, p, MarkRunning(resumed), run.(row := run.row.(status := Running)),
            CountEvents(if resumed then RunResumed else RunStarted, ToLoop(0)));
  }

  lemma ReachWindow(clock: int, run: Run, p: ProcessId)
    requires ReachableOnTime(One(clock, run)) && Dense(run.table) && run.nodes == []
    requires p in run.execs && run.execs[p] == FRESH && !Lapsed(run.row, clock)
    ensures ReachableOnTime(One(clock, AtWindow(run, p)))
  {
    hide ReachableOnTime, HasStarted, WithPc;
    ReachMarked(clock, run, p);
    var header := if HasStarted(run.table) then RunResumed else RunStarted;
    var n, end := |run.table|, RunEnded(Completed);
    var marked := run.(row := run.row.(status := Running));
    var open := marked.(table := run.table[n := header]);
    var closing := open.(table := open.table[n + 1 := end]);
    StepAppend(clock, marked, p, header, ToLoop(0));
    StepOne(clock, open, p, LoopHead(0), open, CountEvents(end, ToTerminal(Completed)));
    assert |open.table| == n + 1;
    StepAppend(clock, open, p, end, ToTerminal(Completed));
    assert WithPc(closing, p, SetTerminal(Completed)) == AtWindow(run, p) by { IsAtWindow(run, p, closing); }
  }

  lemma IsAtWindow(run: Run, p: ProcessId, closing: Run)
    requires var header := if HasStarted(run.table) then RunResumed else RunStarted;
             closing == run.(row := run.row.(status := Running),
                             table := run.table[|run.table| := header][|run.table| + 1 := RunEnded(Completed)])
    ensures WithPc(closing, p, SetTerminal(Completed)) == AtWindow(run, p)
  {
  }

  /** Process "a" has claimed an empty workflow and stored its terminal event. */
  lemma FirstExecutionCloses() returns (run: Run)
    ensures run.row == Row(Running, Some("a"), Some(CLAIM_TTL_MS)) && run.nodes == [] && run.lost == 0
    ensures run.execs == map["a" := Executor(SetTerminal(Completed), 0, false)]
    ensures run.table == map[0 := RunStarted, 1 := RunEnded(Completed)] && Dense(run.table)
    ensures ReachableOnTime(One(0, run))
  {
    hide ReachableOnTime, Step, HasStarted, AtWindow;
    var c := Created([]);
    Start(0, []);
    ClaimStep(c, "a");
    var claimed := ClaimRun(c, "a", 0);
    NothingStored();
    ReachWindow(0, claimed, "a");
    FirstWindow(claimed);
    run := AtWindow(claimed, "a");
  }

  /**
   * With every heartbeat on time, a process killed between storing `run.completed` and updating the
   * status leaves a run whose next holder stores a second terminal event.
   */
  lemma KillInWindowGivesTwoTerminalEvents()
    ensures exists s :: ReachableOnTime(s) && "r" in s.runs && Dense(s.runs["r"].table) &&
                        Log(s.runs["r"].table) == [RunStarted, RunEnded(Completed), RunResumed, RunEnded(Completed)]
  {
    hide ReachableOnTime, Step, HasStarted, Dense, Log, AtWindow;
    var ttl := CLAIM_TTL_MS;
    var run1 := FirstExecutionCloses();
    var run2 := KillRun(run1, "a");
    assert Apply(One(0, run1), Kill("a")) == One(0, run2);
    OnTimeStep(One(0, run1), Kill("a"));
    assert Apply(One(0, run2), Tick(ttl + 1)) == One(ttl + 1, run2);
    OnTimeStep(One(0, run2), Tick(ttl + 1));
    var run3 := ClaimRun(run2, "b", ttl + 1);
    assert Apply(One(ttl + 1, run2), Claim("b", "r")) == One(ttl + 1, run3);
    OnTimeStep(One(ttl + 1, run2), Claim("b", "r"));
    ReachWindow(ttl + 1, run3, "b");
    SecondWindow(run3);
    var s := One(ttl + 1, AtWindow(run3, "b"));
    assert s.runs["r"] == AtWindow(run3, "b");
  }

  lemma NothingStored()
    ensures Dense(map[]) && !HasStarted(map[])
  {
  }

  lemma FirstWindow(run: Run)
    requires run.table == map[]
    ensures AtWindow(run, "a").table == map[0 := RunStarted, 1 := RunEnded(Completed)]
    ensures AtWindow(run, "a").row == run.row.(status := Running) && AtWindow(run, "a").nodes == run.nodes
    ensures AtWindow(run, "a").lost == run.lost
    ensures AtWindow(run, "a").execs == run.execs["a" := Executor(SetTerminal(Completed), 0, false)]
    ensures Dense(AtWindow(run, "a").table)
  {
  }

  lemma SecondWindow(run: Run)
    requires run.table == map[0 := RunStarted, 1 := RunEnded(Completed)]
    ensures var t := AtWindow(run, "b").table;
            Dense(t) && Log(t) == [RunStarted, RunEnded(Completed), RunResumed, RunEnded(Completed)]
  {
    assert HasStarted(run.table) by {
      assert run.table[0] == RunStarted;
    }
    assert |run.table| == 2;
    hide HasStarted, Dense, Log;
    FourEvents(AtWindow(run, "b").table);
  }

  const FOUR: Table := map[0 := RunStarted, 1 := RunEnded(Completed)][2 := RunResumed][3 := RunEnded(Completed)]

  lemma FourAreDense()
    ensures |FOUR| == 4 && Dense(FOUR)
  {
  }

  lemma FourEvents(t: Table)
    requires t == FOUR
    ensures Dense(t) && Log(t) == [RunStarted, RunEnded(Completed), RunResumed, RunEnded(Completed)]
  {
    FourAreDense();
    assert FOUR[0] == RunStarted && FOUR[1] == RunEnded(Completed);
    assert FOUR[2] == RunResumed && FOUR[3] == RunEnded(Completed);
    hide FOUR, Dense;
  }

  // ---- cancels ----------------------------------------------------------------------------------------------

  /** The next statement of process `p` turns a pending cancel into status `after` and stores nothing. */
  predicate Overrides(s: System, p: ProcessId, after: Status) {
    && Enabled(s, Advance(p, "r")) && "r" in s.runs && s.runs["r"].row.status == Cancelling
    && "r" in Apply(s, Advance(p, "r")).runs
    && var run := Apply(s, Advance(p, "r")).runs["r"];
    run.row.status == after && run.table == s.runs["r"].table
  }

  lemma WritesOverride(run: Run, pc: Pc, after: Status)
    requires run.execs == map["a" := Executor(pc, 0, false)] && run.row.status == Cancelling
    requires (pc.MarkRunning? && after == Running) || (pc.SetTerminal? && after == Terminal(pc.outcome))
    ensures Overrides(One(0, run), "a", after)
  {
    var s := One(0, run);
    assert Apply(s, Advance("a", "r")).runs["r"] == AdvanceRun(run, "a");
  }

  lemma CancelStep(run: Run, p: ProcessId)
    requires ReachableOnTime(One(0, run)) && !run.row.status.Terminal? && !Lapsed(run.row, 0)
    ensures ReachableOnTime(One(0, CancelRun(run, p)))
  {
    hide ReachableOnTime;
    assert Apply(One(0, run), CancelRequest(p, "r")) == One(0, CancelRun(run, p));
    OnTimeStep(One(0, run), CancelRequest(p, "r"));
  }

  lemma ClaimStep(run: Run, p: ProcessId)
    requires ReachableOnTime(One(0, run)) && Claimable(run.row, 0) && run.execs == map[]
    ensures ReachableOnTime(One(0, ClaimRun(run, p, 0)))
    ensures ClaimRun(run, p, 0)
         == run.(row := Row(run.row.status, Some(p), Some(CLAIM_TTL_MS)), execs := map[p := FRESH])
  {
    hide ReachableOnTime;
    assert Apply(One(0, run), Claim(p, "r")) == One(0, ClaimRun(run, p, 0));
    OnTimeStep(One(0, run), Claim(p, "r"));
  }

  /** A cancel accepted while no process executes the run is overwritten when one starts to. */
  lemma CancelForgottenOnResume()
    ensures exists s :: ReachableOnTime(s) && Overrides(s, "a", Running) && s.runs["r"].table == map[]
  {
    hide ReachableOnTime, Overrides, ClaimRun;
    Start(0, []);
    CancelStep(Created([]), "a");
    var asked := CancelRun(Created([]), "a");
    ClaimStep(asked, "a");
    var run := ClaimRun(asked, "a", 0);
    assert WithPc(run, "a", LoadRun) == run;
    StepOne(0, run, "a", LoadRun, run, ReadLog);
    StepOne(0, run, "a", ReadLog, run, MarkRunning(false));
    var last := WithPc(run, "a", MarkRunning(false));
    WritesOverride(last, MarkRunning(false), Running);
    assert One(0, last).runs["r"].table == map[];
  }

  /** A cancel accepted after the last check of the loop does not keep the run from completing. */
  lemma CancelAfterLastCheck()
    ensures exists s :: ReachableOnTime(s) && Overrides(s, "a", Terminal(Completed))
  {
    hide ReachableOnTime, Overrides;
    var run := FirstExecutionCloses();
    CancelStep(run, "c");
    WritesOverride(CancelRun(run, "c"), SetTerminal(Completed), Terminal(Completed));
  }
}
