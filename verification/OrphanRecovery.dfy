/**
 * From a stopped process to a closed run: what a shutdown and a kill leave behind, and that whoever
 * claims an orphan can bring it to its end.
 */
module OrphanRecovery {
  import opened Options
  import opened RunTypes
  import opened SqliteStatements
  import opened LeaseProtocol
  import opened LeaseExclusivity
  import opened OnTimeLeases
  import opened ExecutorProgress

  /**
   * After a graceful stop the process's open runs are orphans at once, at every later time; after a
   * kill exactly once their lease has lapsed. In both cases nothing of the process is left on them.
   */
  lemma ReleasedVersusKilled(s: System, p: ProcessId, r: RunId, now: int)
    requires r in s.runs && s.runs[r].row.holder == Some(p) && !s.runs[r].row.status.Terminal?
    ensures Enabled(s, Shutdown(p)) ==>
              && Orphan(Apply(s, Shutdown(p)).runs[r].row, now)
              && Apply(s, Shutdown(p)).runs[r].row == s.runs[r].row.(holder := None)
              && p !in Apply(s, Shutdown(p)).runs[r].execs
    ensures Orphan(Apply(s, Kill(p)).runs[r].row, now) <==> Lapsed(s.runs[r].row, now)
    ensures p !in Apply(s, Kill(p)).runs[r].execs
  {
  }

  /** The claim of a boot scan takes every orphan, and starts from the first statement. */
  lemma OrphanIsClaimed(s: System, p: ProcessId, r: RunId)
    requires r in s.runs && Orphan(s.runs[r].row, s.clock) && p !in s.runs[r].execs
    ensures Enabled(s, Claim(p, r))
    ensures Apply(s, Claim(p, r))
         == s.(runs := s.runs[r := s.runs[r].(row := AcquireClaim(s.runs[r].row, p, s.clock),
                                              execs := s.runs[r].execs[p := FRESH])])
  {
  }

  /** A free orphan has no executor that could still be running. */
  lemma FreeOrphansAreIdle(states: seq<System>, actions: seq<Action>, i: nat, r: RunId, p: ProcessId)
    requires UnstolenHistory(states, actions) && i < |states| && r in states[i].runs
    requires states[i].runs[r].row.holder.None?
    ensures !LiveOn(states[i].runs[r], p)
  {
    LeaseHolds(states, actions, i, r);
  }

  /**
   * Recovery of an orphan: any process that claims it, without taking it from a live executor, can
   * close it by its own moves, in a number of steps bounded by the workflow.
   */
  lemma OrphansCanBeClosed(states: seq<System>, actions: seq<Action>, p: ProcessId, r: RunId)
    returns (states': seq<System>, actions': seq<Action>)
    requires UnstolenHistory(states, actions)
    requires var s := states[|states| - 1];
             && r in s.runs && Orphan(s.runs[r].row, s.clock) && p !in s.runs[r].execs
             && !Stealable(s.runs[r], s.clock)
    ensures UnstolenHistory(states', actions') && states <= states'
    ensures OnlyOwnMoves(actions + [Claim(p, r)], actions', p, r)
    ensures |actions'| - |actions| <= 1 + PcRank(states[|states| - 1].runs[r].nodes, LoadRun)
    ensures r in states'[|states'| - 1].runs && states'[|states'| - 1].runs[r].row.status.Terminal?
    ensures OnTimeHistory(states, actions) ==> OnTimeHistory(states', actions')
  {
    hide Enabled, Apply, Stealable, OnTime, PcRank, Orphan;
    var s := states[|states| - 1];
    OrphanIsClaimed(s, p, r);
    UnstolenSnoc(states, actions, Claim(p, r));
    if OnTimeHistory(states, actions) {
      OnTimeSnoc(states, actions, Claim(p, r));
    }
    states', actions' := SurvivorsCloseTheRun(states + [Apply(s, Claim(p, r))], actions + [Claim(p, r)], p, r);
  }
}
