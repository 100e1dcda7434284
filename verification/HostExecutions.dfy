/**
 * Every execution of any number of host processes, turn by turn over one database, is a history of the
 * lease protocol. So what is proved of all histories holds of the host as it is written.
 */
module HostExecutions {
  import opened Options
  import opened RunTypes
  import opened SqliteStatements
  import opened LeaseProtocol
  import opened EventTable
  import opened LeaseExclusivity
  import opened HostHistories
  import opened HostSites
  import opened HostSteps
  import ClosedRuns
  import LeaseLimits
  import LogShape
  import Host = SqliteHost

  // ---- whole executions -----------------------------------------------------------------------------------

  /** State `at[n]` of the history is what the processes see at site `n`; the last one is the last site's. */
  ghost predicate Simulates(w: Workflows, hs: seq<Site>, states: seq<System>, at: seq<nat>) {
    && |at| == |hs| > 0 && |states| > 0 && at[|at| - 1] == |states| - 1
    && (forall n :: 0 <= n < |hs| ==> at[n] < |states| && Matches(w, hs[n], states[at[n]]))
    && (forall n, m :: 0 <= n < m < |hs| ==> at[n] <= at[m])
  }

  ghost predicate NothingStolen(hs: seq<Site>, acts: seq<HostAction>)
    requires |hs| == |acts| + 1
  {
    forall n :: 0 <= n < |acts| ==> !HostSteals(hs[n], acts[n])
  }

  lemma ExecutionStarts(w: Workflows, h: Site) returns (s: System)
    requires h.rows == map[] && h.events == map[] && h.memories == map[]
    ensures History([s], []) && Matches(w, h, s) && LeaseLimits.KillsAtAwaits([s], []) && UnstolenHistory([s], [])
  {
    s := System(h.clock, map[]);
    forall p ensures ViewOf(s, p) == Seen(h, p) {
    }
  }

  lemma GrowsKeeps(
    states: seq<System>, actions: seq<Action>, states': seq<System>, actions': seq<Action>, stealing: bool)
    requires Grows(states, actions, states', actions', stealing)
    ensures LeaseLimits.KillsAtAwaits(states, actions) ==> LeaseLimits.KillsAtAwaits(states', actions')
    ensures UnstolenHistory(states, actions) && !stealing ==> UnstolenHistory(states', actions')
  {
    hide Enabled, Apply, Steals;
    forall k | 0 <= k < |actions| ensures actions'[k] == actions[k] && states'[k] == states[k] {
    }
    if LeaseLimits.KillsAtAwaits(states, actions) {
      forall k, r | 0 <= k < |actions'| && actions'[k].Kill? && r in states'[k].runs &&
                    actions'[k].pid in states'[k].runs[r].execs
        ensures AtAwait(states'[k].runs[r].execs[actions'[k].pid].pc)
      {
        assert k >= |actions| ==> KillRests(states'[k], actions'[k]);
      }
    }
  }

  lemma SimulatesMore(
    w: Workflows, hs: seq<Site>, h: Site, states: seq<System>, states': seq<System>, at: seq<nat>)
    requires Simulates(w, hs, states, at) && states <= states' && Matches(w, h, states'[|states'| - 1])
    ensures Simulates(w, hs + [h], states', at + [|states'| - 1])
  {
    hide Matches;
    var hs', at' := hs + [h], at + [|states'| - 1];
    forall n | 0 <= n < |hs'| ensures at'[n] < |states'| && Matches(w, hs'[n], states'[at'[n]]) {
      assert n < |hs| ==> hs'[n] == hs[n] && at'[n] == at[n] && states'[at[n]] == states[at[n]];
    }
  }

  lemma ExecutionPrefix(w: Workflows, hs: seq<Site>, acts: seq<HostAction>)
    requires HostExecution(w, hs, acts) && |acts| > 0
    ensures HostExecution(w, hs[..|hs| - 1], acts[..|acts| - 1])
    ensures var n := |acts| - 1;
            Consistent(w, hs[n]) && HostEnabled(w, hs[n], acts[n]) && hs[n + 1] == HostApply(w, hs[n], acts[n])
    ensures NothingStolen(hs, acts) ==>
              NothingStolen(hs[..|hs| - 1], acts[..|acts| - 1]) && !HostSteals(hs[|acts| - 1], acts[|acts| - 1])
  {
    hide HostEnabled, HostApply, HostSteals;
  }

  /**
   * Every execution of any number of host processes, turn by turn over one database, is a history of
   * the lease protocol, state by state; its kills fall at awaits, and it is without stolen claims if
   * the processes steal none.
   */
  lemma {:induction false} ExecutionIsHistory(w: Workflows, hs: seq<Site>, acts: seq<HostAction>)
    returns (states: seq<System>, actions: seq<Action>, at: seq<nat>)
    requires HostExecution(w, hs, acts)
    ensures History(states, actions) && Simulates(w, hs, states, at)
    ensures LeaseLimits.KillsAtAwaits(states, actions)
    ensures NothingStolen(hs, acts) ==> UnstolenHistory(states, actions)
    decreases |acts|
  {
    hide HostApply, HostEnabled, Matches, Enabled, Apply, Steals, Rested, HostSteals;
    if acts == [] {
      var s := ExecutionStarts(w, hs[0]);
      states, actions, at := [s], [], [0];
      return;
    }
    SitesRest(w, hs, acts, |acts| - 1);
    ExecutionPrefix(w, hs, acts);
    var h, a := hs[|acts| - 1], acts[|acts| - 1];
    var h' := hs[|acts|];
    var init := hs[..|hs| - 1];
    assert init + [h'] == hs;
    hide HostExecution, NothingStolen, History, UnstolenHistory, LeaseLimits.KillsAtAwaits;
    var states0, actions0, at0 := ExecutionIsHistory(w, init, acts[..|acts| - 1]);
    assert init[|init| - 1] == h && Matches(w, h, states0[|states0| - 1]);
    states, actions := HostStep(w, h, a, states0, actions0);
    GrowsKeeps(states0, actions0, states, actions, HostSteals(h, a));
    SimulatesMore(w, init, h', states0, states, at0);
    at := at0 + [|states| - 1];
    assert states0 <= states && History(states, actions);
  }

  // ---- so the host keeps what the protocol keeps --------------------------------------------------------------

  /** The run of the protocol behind a run of the host. */
  lemma RunBehind(w: Workflows, hs: seq<Site>, states: seq<System>, at: seq<nat>, n: nat, r: RunId)
    requires Simulates(w, hs, states, at) && n < |hs|
    ensures at[n] < |states| && (r in hs[n].rows <==> r in states[at[n]].runs)
    ensures r in hs[n].rows ==>
              && r in w && r in hs[n].events
              && var run := states[at[n]].runs[r];
              && run.row == hs[n].rows[r] && run.table == hs[n].events[r] && run.nodes == w[r]
              && forall p :: Alive(hs[n], r, p) <==> LiveOn(run, p)
  {
    var h, s := hs[n], states[at[n]];
    RowsAreRuns(w, h, s);
    if r in h.rows {
      AliveIsLive(w, h, s, r, "");
      forall p ensures Alive(h, r, p) <==> LiveOn(s.runs[r], p) {
        AliveIsLive(w, h, s, r, p);
      }
    }
    hide ViewOf;
  }

  lemma LogsGrow(t: Table, t': Table)
    requires Dense(t) && Dense(t') && Extends(t, t')
    ensures Log(t) <= Log(t')
  {
  }

  /** With no assumption at all: logs are dense, and only ever grow at their end. */
  lemma HostLogsGrow(w: Workflows, hs: seq<Site>, acts: seq<HostAction>, n: nat, m: nat, r: RunId)
    requires HostExecution(w, hs, acts) && n <= m < |hs| && r in hs[n].rows
    ensures r in hs[n].events && r in hs[m].events && Dense(hs[n].events[r]) && Dense(hs[m].events[r])
    ensures Log(hs[n].events[r]) <= Log(hs[m].events[r])
  {
    var states, actions, at := ExecutionIsHistory(w, hs, acts);
    RunBehind(w, hs, states, at, n, r);
    RunBehind(w, hs, states, at, m, r);
    assert at[n] <= at[m] by { assert Simulates(w, hs, states, at); }
    hide *;
    StoredEventsNeverChange(states, actions, at[n], at[m], r);
    TableIsDense(states, actions, at[n], r);
    TableIsDense(states, actions, at[m], r);
    LogsGrow(hs[n].events[r], hs[m].events[r]);
  }

  lemma TableIsDense(states: seq<System>, actions: seq<Action>, i: nat, r: RunId)
    requires History(states, actions) && i < |states| && r in states[i].runs
    ensures Dense(states[i].runs[r].table)
  {
    SequenceIsDense(states, actions, i, r);
    hide History, Dense;
  }

  /** If no process steals a claim, at most one process executes a run, and its log has the durable shape. */
  lemma HostRunsAreSound(w: Workflows, hs: seq<Site>, acts: seq<HostAction>, n: nat, r: RunId)
    returns (xs: seq<LogShape.Execution>, tail: seq<Event>)
    requires HostExecution(w, hs, acts) && NothingStolen(hs, acts) && n < |hs| && r in hs[n].rows
    ensures forall p, q :: Alive(hs[n], r, p) && Alive(hs[n], r, q) ==> p == q
    ensures r in w && r in hs[n].events && Dense(hs[n].events[r])
    ensures LogShape.Shape(w[r], Log(hs[n].events[r]), xs, tail)
    ensures hs[n].rows[r].status.Terminal? ==> tail == [RunEnded(hs[n].rows[r].status.outcome)]
  {
    var states, actions, at := ExecutionIsHistory(w, hs, acts);
    RunBehind(w, hs, states, at, n, r);
    hide *;
    xs, tail := LeaseLimits.TurnGrainLogShape(states, actions, at[n], r);
    forall p, q | Alive(hs[n], r, p) && Alive(hs[n], r, q) ensures p == q {
      LiveIsHolder(states, actions, at[n], r, p);
      LiveIsHolder(states, actions, at[n], r, q);
    }
  }

  /** And a run that has ended stays as it is. */
  lemma HostEndsAreFinal(w: Workflows, hs: seq<Site>, acts: seq<HostAction>, n: nat, m: nat, r: RunId)
    requires HostExecution(w, hs, acts) && NothingStolen(hs, acts) && n <= m < |hs|
    requires r in hs[n].rows && hs[n].rows[r].status.Terminal?
    ensures r in hs[n].events && r in hs[m].rows && r in hs[m].events
    ensures hs[m].rows[r].status == hs[n].rows[r].status && hs[m].events[r] == hs[n].events[r]
  {
    var states, actions, at := ExecutionIsHistory(w, hs, acts);
    RunBehind(w, hs, states, at, n, r);
    RunBehind(w, hs, states, at, m, r);
    assert at[n] <= at[m] by { assert Simulates(w, hs, states, at); }
    hide *;
    TerminalIsFinal(states, actions, at[n], at[m], r);
  }

  /** And it belongs to nobody: both claim columns are NULL. */
  lemma HostEndsAreUnclaimed(w: Workflows, hs: seq<Site>, acts: seq<HostAction>, n: nat, r: RunId)
    requires HostExecution(w, hs, acts) && NothingStolen(hs, acts) && n < |hs|
    requires r in hs[n].rows && hs[n].rows[r].status.Terminal?
    ensures hs[n].rows[r] == Row(Terminal(hs[n].rows[r].status.outcome), None, None)
  {
    var states, actions, at := ExecutionIsHistory(w, hs, acts);
    RunBehind(w, hs, states, at, n, r);
    SitesRest(w, hs, acts, n);
    assert Matches(w, hs[n], states[at[n]]) by { assert Simulates(w, hs, states, at); }
    ExecutorsRest(w, hs[n], states[at[n]], r);
    hide *;
    ClosedRuns.TurnGrainClosedIsUnclaimed(states, actions, at[n], r);
  }

  lemma ExecutorsRest(w: Workflows, h: Site, s: System, r: RunId)
    requires Matches(w, h, s) && Rested(h) && r in s.runs
    ensures forall p :: p in s.runs[r].execs ==> AtAwait(s.runs[r].execs[p].pc)
  {
    forall p | p in s.runs[r].execs ensures AtAwait(s.runs[r].execs[p].pc) {
      AliveIsLive(w, h, s, r, p);
      assert p in h.memories && r in h.memories[p];
    }
  }
}
