/**
 * Heartbeats on time: what that asks of the clock, and that it rules out stolen claims.
 */
module OnTimeLeases {
  import opened Options
  import opened RunTypes
  import opened SqliteStatements
  import opened LeaseProtocol
  import opened LeaseExclusivity

  ghost predicate OnTimeHistory(states: seq<System>, actions: seq<Action>) {
    History(states, actions) && forall i :: 0 <= i < |states| ==> OnTime(states[i])
  }

  /** With heartbeats on time there is nothing to steal. */
  lemma OnTimeIsUnstolen(states: seq<System>, actions: seq<Action>)
    requires OnTimeHistory(states, actions)
    ensures UnstolenHistory(states, actions)
  {
    hide Enabled, Apply;
    forall i | 0 <= i < |actions|
      ensures !Steals(states[i], actions[i])
    {
      assert OnTime(states[i]);
    }
  }

  /** Whenever the clock moves, it stays within every lease under a live executor. */
  ghost predicate HeartbeatsKeepUp(states: seq<System>, actions: seq<Action>) {
    History(states, actions) &&
    forall i, r, p :: 0 <= i < |actions| && actions[i].Tick? && r in states[i].runs && LiveOn(states[i].runs[r], p) ==>
      !Lapsed(states[i].runs[r].row, actions[i].now)
  }

  /** No lease lapses under a live executor of this run. */
  ghost predicate Timely(run: Run, clock: int) { (exists p :: LiveOn(run, p)) ==> !Lapsed(run.row, clock) }

  /** No statement writes a lease that has lapsed already. */
  lemma MoveKeepsTimely(run: Run, m: Move, clock: int)
    requires CanMove(run, m) && Timely(run, clock)
    ensures Timely(Moved(run, m, clock), clock)
  {
    var run' := Moved(run, m, clock);
    if p :| LiveOn(run', p) {
      assert m.AdvanceBy? || m.CrashBy? ==> LiveOn(run, m.pid);
      assert LiveOn(run, p) || m == ClaimBy(p);
    }
    hide Goto, Throw, HasStarted;
  }

  /** Renewing in time before the clock moves on is all the on-time assumption asks for. */
  lemma {:induction false} KeepingUpIsOnTime(states: seq<System>, actions: seq<Action>, i: nat)
    requires HeartbeatsKeepUp(states, actions) && i < |states|
    ensures OnTime(states[i])
  {
    if i > 0 {
      var s, a, t := states[i - 1], actions[i - 1], states[i];
      KeepingUpIsOnTime(states, actions, i - 1);
      forall r, p | r in t.runs && LiveOn(t.runs[r], p)
        ensures !Lapsed(t.runs[r].row, t.clock)
      {
        if a.Tick? {
          assert r in s.runs && LiveOn(s.runs[r], p);
        } else if r in s.runs {
          ApplyMovesRun(s, a, r);
          MoveKeepsTimely(s.runs[r], MoveOf(s, a, r), s.clock);
          assert LiveOn(t.runs[r], p);
        } else {
          NewRunsAreCreated(s, a, r);
        }
      }
    }
  }

  /** The on-time assumption, put as a condition on the clock's steps alone. */
  lemma OnTimeMeansKeepingUp(states: seq<System>, actions: seq<Action>)
    ensures OnTimeHistory(states, actions) <==> HeartbeatsKeepUp(states, actions)
  {
    hide Step;
    if HeartbeatsKeepUp(states, actions) {
      forall i | 0 <= i < |states| ensures OnTime(states[i]) {
        KeepingUpIsOnTime(states, actions, i);
      }
    }
    if OnTimeHistory(states, actions) {
      forall i, r, p | 0 <= i < |actions| && actions[i].Tick? && r in states[i].runs && LiveOn(states[i].runs[r], p)
        ensures !Lapsed(states[i].runs[r].row, actions[i].now)
      {
        assert OnTime(states[i + 1]);
        assert states[i + 1] == states[i].(clock := actions[i].now);
      }
    }
  }

  /** Only the clock can make a lease late. */
  lemma OnTimeSnoc(states: seq<System>, actions: seq<Action>, a: Action)
    requires OnTimeHistory(states, actions) && Enabled(states[|states| - 1], a) && !a.Tick?
    ensures OnTimeHistory(states + [Apply(states[|states| - 1], a)], actions + [a])
  {
    hide Enabled, Apply, OnTime;
    HistorySnoc(states, actions, a);
    OnTimeMeansKeepingUp(states, actions);
    var states', actions' := states + [Apply(states[|states| - 1], a)], actions + [a];
    forall i, r, p | 0 <= i < |actions'| && actions'[i].Tick? && r in states'[i].runs && LiveOn(states'[i].runs[r], p)
      ensures !Lapsed(states'[i].runs[r].row, actions'[i].now)
    {
      assert i < |actions| && actions'[i] == actions[i] && states'[i] == states[i];
    }
    OnTimeMeansKeepingUp(states', actions');
  }
}
