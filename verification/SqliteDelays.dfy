/**
 * A delay node of the SQLite host completes only after its own timer has fired, in every execution
 * anew: each stored `node.completed` of a delay node has a timer of its own.
 */
module SqliteDelays {
  import opened Options
  import opened RunTypes
  import opened SqliteStatements
  import opened LeaseProtocol
  import opened ExecutorProgress

  /** The executor is on its way from the end of node `i`'s sleep to storing `node.completed`. */
  predicate Carries(pc: Pc, i: nat) {
    match pc
    case Woken(n) => n == i
    case CountEvents(e, _) => e == NodeCompleted(i)
    case InsertEvent(e, _, _) => e == NodeCompleted(i)
    case _ => false
  }

  /** How many statements ago the timer fired. */
  function Since(pc: Pc): nat {
    match pc
    case CountEvents(_, _) => 1
    case InsertEvent(_, _, _) => 2
    case _ => 0
  }

  /** At step `k` the timer of node `i` fired for process `p`, which has taken `n` steps since, up to state `j`. */
  ghost predicate Fired(
    states: seq<System>, actions: seq<Action>, k: nat, j: nat, p: ProcessId, r: RunId, i: nat, n: nat)
    requires k < j < |states| == |actions| + 1
  {
    && actions[k] == TimerFires(p, r)
    && r in states[k].runs && p in states[k].runs[r].execs && states[k].runs[r].execs[p].pc == Asleep(i)
    && OwnMoves(actions[k + 1..j], p, r) == n
  }

  /** One statement: what is carried afterwards was carried before, one statement earlier. */
  lemma StepCarries(nodes: Workflow, pid: ProcessId, l: Local, i: nat)
    requires KindAt(nodes, i) == Delay && Runnable(l.exec.pc) && Carries(Step(nodes, pid, l).exec.pc, i)
    ensures Carries(l.exec.pc, i) && Since(Step(nodes, pid, l).exec.pc) == Since(l.exec.pc) + 1
  {
    hide HasStarted;
  }

  lemma MoveCarries(run: Run, m: Move, clock: int, p: ProcessId, i: nat)
    requires CanMove(run, m) && KindAt(run.nodes, i) == Delay
    requires p in Moved(run, m, clock).execs && Carries(Moved(run, m, clock).execs[p].pc, i)
    ensures p in run.execs
    ensures m == WakeBy(p) ==> run.execs[p].pc == Asleep(i) && Since(Moved(run, m, clock).execs[p].pc) == 0
    ensures m != WakeBy(p) ==>
              && Carries(run.execs[p].pc, i)
              && Since(Moved(run, m, clock).execs[p].pc)
              == Since(run.execs[p].pc) + if m == AdvanceBy(p) then 1 else 0
  {
    if m == AdvanceBy(p) {
      StepCarries(run.nodes, p, View(run, p), i);
    }
    hide Step;
  }

  lemma ActionCarries(s: System, a: Action, p: ProcessId, r: RunId, i: nat)
    requires Enabled(s, a) && r in Apply(s, a).runs && KindAt(Apply(s, a).runs[r].nodes, i) == Delay
    requires p in Apply(s, a).runs[r].execs && Carries(Apply(s, a).runs[r].execs[p].pc, i)
    ensures r in s.runs && s.runs[r].nodes == Apply(s, a).runs[r].nodes && p in s.runs[r].execs
    ensures a == TimerFires(p, r) ==>
              s.runs[r].execs[p].pc == Asleep(i) && Since(Apply(s, a).runs[r].execs[p].pc) == 0
    ensures a != TimerFires(p, r) ==>
              && Carries(s.runs[r].execs[p].pc, i)
              && Since(Apply(s, a).runs[r].execs[p].pc)
              == Since(s.runs[r].execs[p].pc) + if OwnMove(a, p, r) then 1 else 0
  {
    if r !in s.runs {
      NewRunsAreCreated(s, a, r);
    } else {
      hide Step, Carries, Since;
      ApplyMovesRun(s, a, r);
      MoveCarries(s.runs[r], MoveOf(s, a, r), s.clock, p, i);
    }
  }

  lemma FiredJustNow(states: seq<System>, actions: seq<Action>, j: nat, p: ProcessId, r: RunId, i: nat)
    requires 0 < j < |states| == |actions| + 1 && actions[j - 1] == TimerFires(p, r)
    requires var s := states[j - 1]; r in s.runs && p in s.runs[r].execs && s.runs[r].execs[p].pc == Asleep(i)
    ensures Fired(states, actions, j - 1, j, p, r, i, 0)
  {
    assert actions[j..j] == [];
  }

  lemma FiredBefore(
    states: seq<System>, actions: seq<Action>, k: nat, j: nat, p: ProcessId, r: RunId, i: nat, n: nat)
    requires k < j - 1 && j < |states| == |actions| + 1 && Fired(states, actions, k, j - 1, p, r, i, n)
    ensures Fired(states, actions, k, j, p, r, i, n + if OwnMove(actions[j - 1], p, r) then 1 else 0)
  {
    OwnMovesSnoc(actions, k + 1, j, p, r);
    hide OwnMoves, OwnMove;
  }

  lemma {:induction false} CarriedWasFired(
    states: seq<System>, actions: seq<Action>, j: nat, p: ProcessId, r: RunId, i: nat)
    requires History(states, actions) && j < |states| && r in states[j].runs
    requires KindAt(states[j].runs[r].nodes, i) == Delay
    requires p in states[j].runs[r].execs && Carries(states[j].runs[r].execs[p].pc, i)
    ensures exists k: nat :: k < j && Fired(states, actions, k, j, p, r, i, Since(states[j].runs[r].execs[p].pc))
    decreases j
  {
    hide Enabled, Apply, Carries, Since, Fired, OwnMove, KindAt;
    if j > 0 {
      var s, a := states[j - 1], actions[j - 1];
      assert Enabled(s, a) && states[j] == Apply(s, a);
      ActionCarries(s, a, p, r, i);
      if a == TimerFires(p, r) {
        FiredJustNow(states, actions, j, p, r, i);
      } else {
        CarriedWasFired(states, actions, j - 1, p, r, i);
        var n := Since(s.runs[r].execs[p].pc);
        var k: nat :| k < j - 1 && Fired(states, actions, k, j - 1, p, r, i, n);
        hide History;
        FiredBefore(states, actions, k, j, p, r, i, n);
      }
    }
  }

  /** Step `m` stores `node.completed` of node `i` as event `n`, by process `p`. */
  ghost predicate StoresCompletion(
    states: seq<System>, actions: seq<Action>, m: nat, p: ProcessId, r: RunId, i: nat, n: nat)
    requires m < |actions| && |states| == |actions| + 1
  {
    && actions[m] == Advance(p, r)
    && r in states[m].runs && p in states[m].runs[r].execs && n !in states[m].runs[r].table
    && states[m].runs[r].execs[p].pc.InsertEvent? && states[m].runs[r].execs[p].pc.at == n
    && states[m].runs[r].execs[p].pc.event == NodeCompleted(i)
  }

  lemma MoveStores(run: Run, m: Move, clock: int, n: nat)
    requires CanMove(run, m) && n in Moved(run, m, clock).table
    ensures Moved(run, m, clock).nodes == run.nodes
    ensures n in run.table ==> Moved(run, m, clock).table[n] == run.table[n]
    ensures n !in run.table ==>
              && (m.AdvanceBy? || m.CrashBy?) && m.pid in run.execs
              && run.execs[m.pid].pc.InsertEvent? && run.execs[m.pid].pc.at == n
              && run.execs[m.pid].pc.event == Moved(run, m, clock).table[n]
  {
    hide HasStarted, Goto, Throw;
  }

  lemma ActionStores(s: System, a: Action, r: RunId, n: nat)
    requires Enabled(s, a) && r in Apply(s, a).runs && n in Apply(s, a).runs[r].table
    ensures r in s.runs && s.runs[r].nodes == Apply(s, a).runs[r].nodes
    ensures n in s.runs[r].table ==> Apply(s, a).runs[r].table[n] == s.runs[r].table[n]
    ensures n !in s.runs[r].table ==>
              && a.Advance? && a.run == r && a.pid in s.runs[r].execs
              && s.runs[r].execs[a.pid].pc.InsertEvent? && s.runs[r].execs[a.pid].pc.at == n
              && s.runs[r].execs[a.pid].pc.event == Apply(s, a).runs[r].table[n]
  {
    if r !in s.runs {
      NewRunsAreCreated(s, a, r);
    } else {
      hide Step;
      ApplyMovesRun(s, a, r);
      MoveStores(s.runs[r], MoveOf(s, a, r), s.clock, n);
      hide Apply;
    }
  }

  /** Whoever stored an event did so with an INSERT of exactly this event. */
  lemma {:induction false} EventsWereStored(
    states: seq<System>, actions: seq<Action>, j: nat, r: RunId, n: nat, i: nat)
    requires History(states, actions) && j < |states| && r in states[j].runs
    requires n in states[j].runs[r].table && states[j].runs[r].table[n] == NodeCompleted(i)
    ensures exists m: nat, p ::
              m < j && StoresCompletion(states, actions, m, p, r, i, n)
              && states[m].runs[r].nodes == states[j].runs[r].nodes
    decreases j
  {
    hide Enabled, Apply;
    if j > 0 {
      var s, a := states[j - 1], actions[j - 1];
      assert Enabled(s, a) && states[j] == Apply(s, a);
      ActionStores(s, a, r, n);
      if n in s.runs[r].table {
        EventsWereStored(states, actions, j - 1, r, n, i);
      } else {
        assert StoresCompletion(states, actions, j - 1, a.pid, r, i, n);
      }
    }
  }

  /**
   * A delay sleeps, in every history: each `node.completed` of a delay node was stored by a process
   * whose timer for that node had fired exactly two of its own steps before.
   */
  lemma CompletedDelaysWereSlept(
    states: seq<System>, actions: seq<Action>, j: nat, r: RunId, n: nat, i: nat)
    requires History(states, actions) && j < |states| && r in states[j].runs
    requires n in states[j].runs[r].table && states[j].runs[r].table[n] == NodeCompleted(i)
    requires KindAt(states[j].runs[r].nodes, i) == Delay
    ensures exists k: nat, m: nat, p ::
              k < m < j && StoresCompletion(states, actions, m, p, r, i, n)
              && Fired(states, actions, k, m, p, r, i, 2)
  {
    EventsWereStored(states, actions, j, r, n, i);
    var m: nat, p :| m < j && StoresCompletion(states, actions, m, p, r, i, n)
                     && states[m].runs[r].nodes == states[j].runs[r].nodes;
    CarriedWasFired(states, actions, m, p, r, i);
  }

  lemma {:induction false} OwnMovesGrow(actions: seq<Action>, i: nat, j: nat, m: nat, p: ProcessId, r: RunId)
    requires i <= j <= m <= |actions|
    ensures OwnMoves(actions[i..j], p, r) <= OwnMoves(actions[i..m], p, r)
    decreases m
  {
    if j < m {
      hide OwnMove;
      OwnMovesGrow(actions, i, j, m - 1, p, r);
      OwnMovesSnoc(actions, i, m, p, r);
    }
  }

  /** No timer serves twice: two stored completions have two timers. */
  lemma TimersAreNotShared(
    states: seq<System>, actions: seq<Action>, k: nat, m: nat, m': nat, p: ProcessId, r: RunId, i: nat,
    n: nat, n': nat)
    requires k < m < m' < |actions| && |states| == |actions| + 1
    requires StoresCompletion(states, actions, m, p, r, i, n) && Fired(states, actions, k, m, p, r, i, 2)
    ensures !(StoresCompletion(states, actions, m', p, r, i, n') && Fired(states, actions, k, m', p, r, i, 2))
  {
    OwnMovesSnoc(actions, k + 1, m + 1, p, r);
    OwnMovesGrow(actions, k + 1, m + 1, m', p, r);
    hide OwnMoves;
  }
}
