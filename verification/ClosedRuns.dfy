/**
 * A run that has ended is nobody's: unless its executor was killed between setting the terminal status
 * and releasing the claim, both claim columns are NULL.
 */
module ClosedRuns {
  import opened Options
  import opened RunTypes
  import opened SqliteStatements
  import opened LeaseProtocol
  import opened LeaseExclusivity
  import LeaseLimits

  /** An executor of the run is about to release the claim. */
  predicate Releasing(run: Run, p: ProcessId) { p in run.execs && run.execs[p].pc.Release? }

  predicate Unclaimed(row: Row) { row.holder == None && row.expires == None }

  /** Unclaimed, or about to be. */
  ghost predicate Freed(run: Run) {
    run.row.status.Terminal? ==>
      Unclaimed(run.row) || exists p :: Releasing(run, p) && run.row.holder == Some(p)
  }

  /** A kill right between the status and the release. */
  predicate KilledReleasing(s: System, a: Action, r: RunId) {
    a.Kill? && r in s.runs && Releasing(s.runs[r], a.pid)
  }

  /** Closing the run is followed by its release. */
  lemma AdvanceKeepsFreed(run: Run, pid: ProcessId)
    requires LeaseInv(run) && Freed(run) && pid in run.execs && Runnable(run.execs[pid].pc)
    ensures Freed(AdvanceRun(run, pid))
  {
    var run' := AdvanceRun(run, pid);
    assert LiveOn(run, pid) && OwnerInv(pid, View(run, pid));
    if run.execs[pid].pc.SetTerminal? {
      assert Releasing(run', pid) && run'.row.holder == Some(pid);
    } else if run.row.status.Terminal? {
      assert run.execs[pid].pc.Release?;
      assert Unclaimed(run'.row);
    }
    hide StoreInv, HasStarted, Goto;
  }

  lemma OthersKeepFreed(run: Run, m: Move, clock: int)
    requires LeaseInv(run) && Freed(run) && CanMove(run, m) && !m.AdvanceBy? && !m.CrashBy?
    requires m.KillOf? ==> !Releasing(run, m.pid)
    ensures Freed(Moved(run, m, clock))
  {
    hide Step, StoreInv;
    var run' := Moved(run, m, clock);
    if run.row.status.Terminal? && !Unclaimed(run.row) {
      var p :| Releasing(run, p) && run.row.holder == Some(p);
      assert Releasing(run', p);
    }
  }

  lemma ActionKeepsFreed(s: System, a: Action, r: RunId)
    requires Enabled(s, a) && r in s.runs && LeaseInv(s.runs[r]) && Freed(s.runs[r]) && !KilledReleasing(s, a, r)
    requires a.Advance? ==> LeaseInv(s.runs[a.run])
    ensures r in Apply(s, a).runs && Freed(Apply(s, a).runs[r])
  {
    hide LeaseInv, Freed, Step;
    ApplyMovesRun(s, a, r);
    if a.Advance? {
      AdvanceKeepsLease(s.runs[a.run], a.pid);
    }
    var m := MoveOf(s, a, r);
    if m.AdvanceBy? {
      AdvanceKeepsFreed(s.runs[r], m.pid);
    } else {
      OthersKeepFreed(s.runs[r], m, s.clock);
    }
  }

  lemma NewRunsAreFreed(run: Run)
    requires exists nodes :: run == Created(nodes)
    ensures Freed(run)
  {
  }

  lemma {:induction false} FreedHolds(states: seq<System>, actions: seq<Action>, i: nat, r: RunId)
    requires UnstolenHistory(states, actions) && i < |states| && r in states[i].runs
    requires forall k :: 0 <= k < i ==> !KilledReleasing(states[k], actions[k], r)
    ensures Freed(states[i].runs[r])
  {
    hide Enabled, Apply, Steals, LeaseInv, Freed, KilledReleasing;
    if i > 0 {
      var s, a := states[i - 1], actions[i - 1];
      assert Enabled(s, a) && states[i] == Apply(s, a);
      if r in s.runs {
        FreedHolds(states, actions, i - 1, r);
        LeaseHolds(states, actions, i - 1, r);
        if a.Advance? {
          AdvanceIsInRun(s, a);
          LeaseHolds(states, actions, i - 1, a.run);
        }
        hide UnstolenHistory, History;
        ActionKeepsFreed(s, a, r);
      } else {
        NewRunsAreCreated(s, a, r);
        NewRunsAreFreed(states[i].runs[r]);
      }
    }
  }

  /**
   * Closing a run frees it: a run with a terminal status is unclaimed as soon as no executor is about to
   * release it, if none was killed when it was.
   */
  lemma ClosedIsUnclaimed(states: seq<System>, actions: seq<Action>, i: nat, r: RunId)
    requires UnstolenHistory(states, actions) && i < |states| && r in states[i].runs
    requires forall k :: 0 <= k < i ==> !KilledReleasing(states[k], actions[k], r)
    requires states[i].runs[r].row.status.Terminal? && forall p :: !Releasing(states[i].runs[r], p)
    ensures states[i].runs[r].row == Row(Terminal(states[i].runs[r].row.status.outcome), None, None)
  {
    FreedHolds(states, actions, i, r);
    hide UnstolenHistory;
  }

  /** And only closing does: while its executor goes on, the holder of an open run keeps the claim. */
  lemma OpenIsClaimed(states: seq<System>, actions: seq<Action>, i: nat, r: RunId, p: ProcessId)
    requires UnstolenHistory(states, actions) && i < |states| && r in states[i].runs
    requires LiveOn(states[i].runs[r], p)
    ensures states[i].runs[r].row.holder == Some(p)
    ensures Releasing(states[i].runs[r], p) <==> states[i].runs[r].row.status.Terminal?
  {
    LeaseHolds(states, actions, i, r);
    hide UnstolenHistory, StoreInv;
  }

  /** Turn by turn nobody is killed there: between turns every run that has ended is unclaimed. */
  lemma TurnGrainClosedIsUnclaimed(states: seq<System>, actions: seq<Action>, i: nat, r: RunId)
    requires UnstolenHistory(states, actions) && LeaseLimits.KillsAtAwaits(states, actions)
    requires i < |states| && r in states[i].runs && states[i].runs[r].row.status.Terminal?
    requires forall p :: p in states[i].runs[r].execs ==> AtAwait(states[i].runs[r].execs[p].pc)
    ensures states[i].runs[r].row == Row(Terminal(states[i].runs[r].row.status.outcome), None, None)
  {
    hide Enabled, Apply, Steals;
    forall k | 0 <= k < i ensures !KilledReleasing(states[k], actions[k], r) {
      if actions[k].Kill? && r in states[k].runs && actions[k].pid in states[k].runs[r].execs {
        assert AtAwait(states[k].runs[r].execs[actions[k].pid].pc);
      }
    }
    ClosedIsUnclaimed(states, actions, i, r);
  }
}
