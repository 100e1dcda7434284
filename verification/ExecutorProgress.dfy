/**
 * Executors make progress: every statement, every resumption and every timer lowers a rank bounded
 * by the nodes left to run, nothing else raises it, and an executor that is done has closed its run.
 */
module ExecutorProgress {
  import opened Options
  import opened RunTypes
  import opened SqliteStatements
  import opened LeaseProtocol
  import opened EventTable
  import opened LeaseExclusivity
  import opened OnTimeLeases

  /** Steps from the head of iteration `i`: twelve for each node left, five to close the run. */
  function LoopRank(nodes: Workflow, i: nat): nat {
    if i >= |nodes| then 5 else 12 * (|nodes| - i) + 5
  }

  function NextRank(nodes: Workflow, next: Next): nat {
    match next
    case ToLoop(i) => LoopRank(nodes, i) + 1
    case ToBody(i) => LoopRank(nodes, i + 1) + 6
    case ToReturn(i, _) => LoopRank(nodes, i + 1) + 2
    case ToTerminal(_) => 3
  }

  function PcRank(nodes: Workflow, pc: Pc): nat {
    match pc
    case LoadRun => LoopRank(nodes, 0) + 5
    case ReadLog => LoopRank(nodes, 0) + 4
    case MarkRunning(_) => LoopRank(nodes, 0) + 3
    case CountEvents(_, next) => NextRank(nodes, next) + 1
    case InsertEvent(_, _, next) => NextRank(nodes, next)
    case LoopHead(i) => LoopRank(nodes, i)
    case NodeHead(i) => LoopRank(nodes, i + 1) + 8
    case Asleep(i) => LoopRank(nodes, i + 1) + 5
    case Woken(i) => LoopRank(nodes, i + 1) + 4
    case Interrupted(i) => LoopRank(nodes, i + 1) + 4
    case Returned(i, _) => LoopRank(nodes, i + 1) + 1
    case SetTerminal(_) => 2
    case Release => 1
    case Finished => 0
    case Fatal => 0
  }

  /** Each exception handler still unused is worth one more attempt to close the run. */
  function Rank(nodes: Workflow, exec: Executor): nat {
    PcRank(nodes, exec.pc) + if exec.handler < 2 then 5 * (2 - exec.handler) else 0
  }

  lemma LoopRankFalls(nodes: Workflow, i: nat)
    ensures 5 <= LoopRank(nodes, i + 1) <= LoopRank(nodes, i)
    ensures i < |nodes| ==> LoopRank(nodes, i) == LoopRank(nodes, i + 1) + 12
    ensures i >= |nodes| ==> LoopRank(nodes, i) == 5
  {
  }

  /** Storing an event leads on; a conflict uses up a handler. */
  lemma InsertLowersRank(nodes: Workflow, pid: ProcessId, l: Local)
    requires l.exec.pc.InsertEvent?
    ensures Rank(nodes, Step(nodes, pid, l).exec) < Rank(nodes, l.exec)
  {
    var next := l.exec.pc.next;
    if next.ToBody? {
      LoopRankFalls(nodes, next.i);
    }
    hide LoopRank, KindAt;
    assert NextRank(nodes, next) >= 3;
    if l.exec.pc.at !in l.table {
      assert PcRank(nodes, Goto(nodes, l.exec.aborted, next)) < NextRank(nodes, next);
    }
  }

  lemma StatementLowersRank(nodes: Workflow, pid: ProcessId, l: Local)
    requires Runnable(l.exec.pc)
    ensures Rank(nodes, Step(nodes, pid, l).exec) < Rank(nodes, l.exec)
  {
    hide LoopRank, HasStarted, Goto, Throw;
    if l.exec.pc.InsertEvent? {
      InsertLowersRank(nodes, pid, l);
    } else {
      match l.exec.pc {
        case LoopHead(i) => LoopRankFalls(nodes, i);
        case NodeHead(i) => LoopRankFalls(nodes, i);
        case Returned(i, outcome) => LoopRankFalls(nodes, i);
        case _ =>
      }
    }
  }

  /** Whatever happens, an executor only ever comes closer to its end, strictly by its own moves. */
  lemma RankNeverRises(run: Run, m: Move, clock: int, p: ProcessId)
    requires CanMove(run, m) && p in run.execs && p in Moved(run, m, clock).execs
    ensures Rank(run.nodes, Moved(run, m, clock).execs[p]) <= Rank(run.nodes, run.execs[p])
    ensures m == AdvanceBy(p) || m == WakeBy(p) ==>
              Rank(run.nodes, Moved(run, m, clock).execs[p]) < Rank(run.nodes, run.execs[p])
  {
    if m == AdvanceBy(p) {
      StatementLowersRank(run.nodes, p, View(run, p));
    }
    hide Step;
  }

  predicate OwnMove(a: Action, p: ProcessId, r: RunId) { a == Advance(p, r) || a == TimerFires(p, r) }

  function OwnMoves(actions: seq<Action>, p: ProcessId, r: RunId): nat {
    if actions == [] then 0
    else OwnMoves(actions[..|actions| - 1], p, r) + if OwnMove(actions[|actions| - 1], p, r) then 1 else 0
  }

  /** Process `p` keeps its executor on `r` from state `i` to state `j`: no kill, no shutdown. */
  ghost predicate Survives(states: seq<System>, i: nat, j: nat, p: ProcessId, r: RunId) {
    i <= j < |states| && forall k :: i <= k <= j ==> r in states[k].runs && p in states[k].runs[r].execs
  }

  /** An executor that is not killed takes at most `Rank` steps, under any interleaving. */
  lemma {:induction false} StepsAreBounded(
    states: seq<System>, actions: seq<Action>, i: nat, j: nat, p: ProcessId, r: RunId)
    requires History(states, actions) && Survives(states, i, j, p, r)
    ensures states[j].runs[r].nodes == states[i].runs[r].nodes
    ensures OwnMoves(actions[i..j], p, r) + Rank(states[i].runs[r].nodes, states[j].runs[r].execs[p])
         <= Rank(states[i].runs[r].nodes, states[i].runs[r].execs[p])
    decreases j
  {
    if i == j {
      assert actions[i..j] == [];
    } else {
      hide Rank, Apply, Enabled, OwnMove;
      var s, a := states[j - 1], actions[j - 1];
      assert Survives(states, i, j - 1, p, r);
      assert r in states[j - 1].runs && p in states[j - 1].runs[r].execs;
      assert r in states[j].runs && p in states[j].runs[r].execs;
      assert Enabled(s, a) && states[j] == Apply(s, a);
      StepsAreBounded(states, actions, i, j - 1, p, r);
      OwnMoveIsStrict(s, a, p, r);
      OwnMovesSnoc(actions, i, j, p, r);
      hide History, Survives, OwnMoves;
    }
  }

  lemma OwnMovesSnoc(actions: seq<Action>, i: nat, j: nat, p: ProcessId, r: RunId)
    requires i < j <= |actions|
    ensures OwnMoves(actions[i..j], p, r)
         == OwnMoves(actions[i..j - 1], p, r) + if OwnMove(actions[j - 1], p, r) then 1 else 0
  {
    assert actions[i..j][..j - 1 - i] == actions[i..j - 1];
  }

  lemma OwnMoveIsStrict(s: System, a: Action, p: ProcessId, r: RunId)
    requires Enabled(s, a) && r in s.runs && p in s.runs[r].execs
    requires r in Apply(s, a).runs && p in Apply(s, a).runs[r].execs
    ensures Apply(s, a).runs[r].nodes == s.runs[r].nodes
    ensures Rank(s.runs[r].nodes, Apply(s, a).runs[r].execs[p]) + (if OwnMove(a, p, r) then 1 else 0)
         <= Rank(s.runs[r].nodes, s.runs[r].execs[p])
  {
    hide Step, Rank;
    var m := MoveOf(s, a, r);
    ApplyMovesRun(s, a, r);
    RankNeverRises(s.runs[r], m, s.clock, p);
  }

  // ---- a finished executor leaves a closed run ----------------------------------------------------------

  ghost predicate FinishedIsClosed(run: Run) {
    forall p :: p in run.execs && run.execs[p].pc.Finished? ==> run.row.status.Terminal?
  }

  lemma MoveKeepsFinishedClosed(run: Run, m: Move, clock: int)
    requires LeaseInv(run) && FinishedIsClosed(run) && CanMove(run, m)
    ensures FinishedIsClosed(Moved(run, m, clock))
  {
    if m.AdvanceBy? || m.CrashBy? {
      assert LiveOn(run, m.pid);
    }
    if run.row.status.Terminal? {
      TerminalMove(run, m, clock);
    }
  }

  lemma {:induction false} FinishedRunsAreClosed(states: seq<System>, actions: seq<Action>, i: nat, r: RunId)
    requires UnstolenHistory(states, actions) && i < |states| && r in states[i].runs
    ensures FinishedIsClosed(states[i].runs[r])
  {
    if i > 0 {
      if r in states[i - 1].runs {
        FinishedRunsAreClosed(states, actions, i - 1, r);
        LeaseHolds(states, actions, i - 1, r);
        ApplyMovesRun(states[i - 1], actions[i - 1], r);
        MoveKeepsFinishedClosed(states[i - 1].runs[r], MoveOf(states[i - 1], actions[i - 1], r), states[i - 1].clock);
      } else {
        NewRunsAreCreated(states[i - 1], actions[i - 1], r);
      }
    }
  }

  /** An executor that has not closed its run is able to take a step, or waits for a timer. */
  lemma SurvivorsCanMove(states: seq<System>, actions: seq<Action>, i: nat, p: ProcessId, r: RunId)
    requires UnstolenHistory(states, actions) && i < |states|
    requires r in states[i].runs && p in states[i].runs[r].execs
    ensures var run := states[i].runs[r];
            run.row.status.Terminal? || Runnable(run.execs[p].pc) || run.execs[p].pc.Asleep?
  {
    FinishedRunsAreClosed(states, actions, i, r);
    LeaseHolds(states, actions, i, r);
  }

  // ---- and it gets there --------------------------------------------------------------------------------

  /** The move an unfinished executor can make. */
  function NextMove(exec: Executor, p: ProcessId, r: RunId): Action {
    if exec.pc.Asleep? then TimerFires(p, r) else Advance(p, r)
  }

  /** On an unstolen run no own move crashes, and each lowers the position's rank. */
  lemma NextMoveLeadsOn(s: System, p: ProcessId, r: RunId)
    requires r in s.runs && p in s.runs[r].execs && Live(s.runs[r].execs[p]) && LeaseInv(s.runs[r])
    ensures var a := NextMove(s.runs[r].execs[p], p, r);
            && Enabled(s, a)
            && r in Apply(s, a).runs && p in Apply(s, a).runs[r].execs
            && Apply(s, a).runs[r].nodes == s.runs[r].nodes
            && PcRank(s.runs[r].nodes, Apply(s, a).runs[r].execs[p].pc)
             < PcRank(s.runs[r].nodes, s.runs[r].execs[p].pc)
  {
    hide Step, LeaseInv, PcRank;
    var run := s.runs[r];
    var a := NextMove(run.execs[p], p, r);
    if a.Advance? {
      AdvanceKeepsLease(run, p);
    }
    assert Apply(s, a).runs[r] == Moved(run, MoveOf(s, a, r), s.clock);
    var run' := Apply(s, a).runs[r];
    assert LeaseInv(run') by {
      if a.Advance? {
        AdvanceKeepsLease(run, p);
      } else {
        OthersKeepLease(run, WakeBy(p), s.clock);
      }
    }
    OwnMoveIsStrict(s, a, p, r);
    HandlersUnused(run, p);
    HandlersUnused(run', p);
  }

  /** While leases hold, an executor's rank is that of its position, plus ten for unused handlers. */
  lemma HandlersUnused(run: Run, p: ProcessId)
    requires LeaseInv(run) && p in run.execs
    ensures Live(run.execs[p]) ==>
              && Rank(run.nodes, run.execs[p]) == PcRank(run.nodes, run.execs[p].pc) + 10
              && PcRank(run.nodes, run.execs[p].pc) > 0
    ensures !Live(run.execs[p]) ==> PcRank(run.nodes, run.execs[p].pc) == 0
  {
    hide LoopRank;
    assert Live(run.execs[p]) ==> LiveOn(run, p);
    if run.execs[p].pc.LoopHead? {
      LoopRankFalls(run.nodes, run.execs[p].pc.i);
    }
  }

  lemma UnstolenSnoc(states: seq<System>, actions: seq<Action>, a: Action)
    requires UnstolenHistory(states, actions) && Enabled(states[|states| - 1], a) && !Steals(states[|states| - 1], a)
    ensures UnstolenHistory(states + [Apply(states[|states| - 1], a)], actions + [a])
  {
    hide Enabled, Apply, Steals;
    HistorySnoc(states, actions, a);
  }

  /** `to` extends `from` by moves of process `p` on run `r` alone. */
  ghost predicate OnlyOwnMoves(from: seq<Action>, to: seq<Action>, p: ProcessId, r: RunId) {
    from <= to && forall k :: |from| <= k < |to| ==> OwnMove(to[k], p, r)
  }

  /**
   * Recovery: from any reachable state with an executor on the run, that executor's own statements
   * and timers alone close the run, within the rank of its position, and without making any
   * heartbeat late.
   */
  lemma {:induction false} SurvivorsCloseTheRun(states: seq<System>, actions: seq<Action>, p: ProcessId, r: RunId)
    returns (states': seq<System>, actions': seq<Action>)
    requires UnstolenHistory(states, actions)
    requires r in states[|states| - 1].runs && p in states[|states| - 1].runs[r].execs
    ensures UnstolenHistory(states', actions') && states <= states' && OnlyOwnMoves(actions, actions', p, r)
    ensures var run := states[|states| - 1].runs[r];
            |actions'| - |actions| <= PcRank(run.nodes, run.execs[p].pc)
    ensures r in states'[|states'| - 1].runs && states'[|states'| - 1].runs[r].row.status.Terminal?
    ensures OnTimeHistory(states, actions) ==> OnTimeHistory(states', actions')
    decreases PcRank(states[|states| - 1].runs[r].nodes, states[|states| - 1].runs[r].execs[p].pc)
  {
    hide PcRank, Apply, Enabled, Step, Steals, OnTime, LeaseInv;
    var s := states[|states| - 1];
    LeaseHolds(states, actions, |states| - 1, r);
    if !Live(s.runs[r].execs[p]) {
      SurvivorsCanMove(states, actions, |states| - 1, p, r);
      return states, actions;
    }
    NextMoveLeadsOn(s, p, r);
    var a := NextMove(s.runs[r].execs[p], p, r);
    assert !Steals(s, a) by { OwnMovesStealNothing(s, a); }
    UnstolenSnoc(states, actions, a);
    if OnTimeHistory(states, actions) {
      OnTimeSnoc(states, actions, a);
    }
    states', actions' := SurvivorsCloseTheRun(states + [Apply(s, a)], actions + [a], p, r);
  }

  lemma OwnMovesStealNothing(s: System, a: Action)
    requires !a.Claim?
    ensures !Steals(s, a)
  {
  }
}
