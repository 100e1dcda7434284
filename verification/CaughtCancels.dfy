/**
 * Which cancels are safe: one that catches an executor past its start cannot be forgotten as long as
 * that executor's process neither dies nor shuts down.
 */
module CaughtCancels {
  import opened Options
  import opened RunTypes
  import opened SqliteStatements
  import opened LeaseProtocol
  import opened LeaseExclusivity
  import opened ExecutorProgress
  import opened SqliteCancel

  /** Process `p` has an executor on the run that is past writing `running`, or has finished. */
  predicate PastStart(run: Run, p: ProcessId) { p in run.execs && !Early(run.execs[p].pc) }

  /** No executor leaves the run, or goes back to its start, except when its process ends. */
  lemma MoveKeepsPastStart(run: Run, m: Move, clock: int, p: ProcessId)
    requires CanMove(run, m) && PastStart(run, p) && !m.CrashBy? && m != KillOf(p) && m != ShutdownOf(p)
    ensures PastStart(Moved(run, m, clock), p)
  {
    hide HasStarted;
  }

  lemma NoCrash(s: System, a: Action, r: RunId, p: ProcessId)
    requires Enabled(s, a) && r in s.runs && a != Kill(p) && a != Shutdown(p)
    requires a.Advance? ==> LeaseInv(s.runs[a.run])
    ensures var m := MoveOf(s, a, r); !m.CrashBy? && m != KillOf(p) && m != ShutdownOf(p)
  {
    hide LeaseInv, AdvanceRun;
    if a.Advance? {
      AdvanceKeepsLease(s.runs[a.run], a.pid);
    }
  }

  /** Nobody else can be about to start while that executor is there. */
  lemma PastStartBlocksStarts(s: System, a: Action, r: RunId, p: ProcessId)
    requires Enabled(s, a) && r in s.runs && LeaseInv(s.runs[r]) && FinishedIsClosed(s.runs[r])
    requires PastStart(s.runs[r], p)
    ensures !Starts(s, a, r)
  {
    hide StoreInv;
    var run := s.runs[r];
    forall q | LiveOn(run, q) ensures !run.execs[q].pc.MarkRunning? {
      assert LiveOn(run, p) ==> OwnerInv(p, View(run, p));
    }
  }

  lemma ActionKeepsPastStart(s: System, a: Action, r: RunId, p: ProcessId)
    requires Enabled(s, a) && r in s.runs && LeaseInv(s.runs[r]) && FinishedIsClosed(s.runs[r])
    requires a.Advance? ==> LeaseInv(s.runs[a.run])
    requires PastStart(s.runs[r], p) && a != Kill(p) && a != Shutdown(p)
    ensures r in Apply(s, a).runs && PastStart(Apply(s, a).runs[r], p) && !Starts(s, a, r)
  {
    hide Apply, PastStart, Starts, LeaseInv, FinishedIsClosed, Moved;
    NoCrash(s, a, r, p);
    ApplyMovesRun(s, a, r);
    MoveKeepsPastStart(s.runs[r], MoveOf(s, a, r), s.clock, p);
    PastStartBlocksStarts(s, a, r, p);
  }

  /** The process of executor `p` lives on through steps `i` to `j - 1`. */
  ghost predicate LivesOn(actions: seq<Action>, i: nat, j: nat, p: ProcessId)
    requires j <= |actions|
  {
    forall k :: i <= k < j ==> actions[k] != Kill(p) && actions[k] != Shutdown(p)
  }

  lemma {:induction false} PastStartStays(
    states: seq<System>, actions: seq<Action>, i: nat, j: nat, r: RunId, p: ProcessId)
    requires UnstolenHistory(states, actions) && i <= j < |states| && r in states[i].runs
    requires PastStart(states[i].runs[r], p) && LivesOn(actions, i, j, p)
    ensures r in states[j].runs && PastStart(states[j].runs[r], p) && NoStart(states, actions, i, j, r)
    decreases j
  {
    hide Enabled, Apply, PastStart, Starts, Steals, LeaseInv, FinishedIsClosed;
    if i < j {
      var s, a := states[j - 1], actions[j - 1];
      assert Enabled(s, a) && states[j] == Apply(s, a);
      PastStartStays(states, actions, i, j - 1, r, p);
      LeaseHolds(states, actions, j - 1, r);
      FinishedRunsAreClosed(states, actions, j - 1, r);
      if a.Advance? {
        AdvanceIsInRun(s, a);
        LeaseHolds(states, actions, j - 1, a.run);
      }
      hide History, UnstolenHistory;
      ActionKeepsPastStart(s, a, r, p);
    }
  }

  /**
   * A cancel that catches an executor past its start is never forgotten while that executor's process
   * lives: it is pending until the run is closed, and the run is closed with the outcome fixed by the
   * statement at which it was caught.
   */
  lemma CaughtCancelIsSafe(states: seq<System>, actions: seq<Action>, i: nat, j: nat, r: RunId, p: ProcessId)
    requires UnstolenHistory(states, actions) && i <= j < |states| && r in states[i].runs
    requires states[i].runs[r].row.status.Cancelling? && CaughtAt(states[i].runs[r], p)
    requires LivesOn(actions, i, j, p)
    ensures NoStart(states, actions, i, j, r)
    ensures r in states[j].runs
    ensures var outcome := BoundFor(states[i].runs[r].nodes, states[i].runs[r].execs[p].pc);
            states[j].runs[r].row.status == Cancelling || states[j].runs[r].row.status == Terminal(outcome)
  {
    hide Starts, Steals, BoundFor, LeaseInv;
    PastStartStays(states, actions, i, j, r, p);
    CancelIsKept(states, actions, i, j, r);
    assert Kept(states[j].runs[r]);
    CancelDecidesOutcome(states, actions, i, j, r);
    forall q | CaughtAt(states[i].runs[r], q) ensures q == p {
      LiveIsHolder(states, actions, i, r, p);
      LiveIsHolder(states, actions, i, r, q);
    }
  }

  /** And it takes effect: that executor's own moves are enough to close the run with that outcome. */
  lemma CaughtCancelTakesEffect(states: seq<System>, actions: seq<Action>, r: RunId, p: ProcessId)
    returns (states': seq<System>, actions': seq<Action>)
    requires UnstolenHistory(states, actions) && r in states[|states| - 1].runs
    requires states[|states| - 1].runs[r].row.status.Cancelling? && CaughtAt(states[|states| - 1].runs[r], p)
    ensures UnstolenHistory(states', actions') && states <= states' && OnlyOwnMoves(actions, actions', p, r)
    ensures var run := states[|states| - 1].runs[r];
            && |actions'| - |actions| <= PcRank(run.nodes, run.execs[p].pc)
            && r in states'[|states'| - 1].runs
            && states'[|states'| - 1].runs[r].row.status == Terminal(BoundFor(run.nodes, run.execs[p].pc))
  {
    hide Steals, BoundFor, PcRank;
    states', actions' := SurvivorsCloseTheRun(states, actions, p, r);
    var i, j := |states| - 1, |states'| - 1;
    assert states'[i] == states[i];
    hide History;
    CaughtCancelIsSafe(states', actions', i, j, r, p);
  }
}
