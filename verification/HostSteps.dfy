/**
 * One action of one host process is a piece of history of the lease protocol.
 */
module HostSteps {
  import opened SqliteStatements
  import opened LeaseProtocol
  import opened LeaseExclusivity
  import opened SqliteTurns
  import opened HostHistories
  import opened HostTurns
  import opened HostSites
  import Host = SqliteHost

  // ---- pieces of history ------------------------------------------------------------------------------------

  /** A continuation by process `p`, as the boot scan and the turns are. */
  lemma ContinuationMatches(
    w: Workflows, h: Site, states: seq<System>, actions: seq<Action>, states': seq<System>, actions': seq<Action>,
    p: ProcessId, stealing: bool)
    requires Continues(states, actions, states', actions', p, stealing) && Matches(w, h, states[|states| - 1])
    ensures |states'| > 0
    ensures var t := states'[|states'| - 1]; Matches(w, With(h, p, ViewOf(t, p)).(clock := t.clock), t)
  {
    hide ViewOf, With, Enabled, Apply, Steals, ActsFor;
    var s, t := states[|states| - 1], states'[|states'| - 1];
    forall q | q != p ensures ViewOf(t, q).executors == ViewOf(s, q).executors {
      ContinuesRemembers(states, actions, states', actions', p, stealing, q, |actions'|);
      assert states'[|actions|] == states[|actions|];
    }
    hide Continues, History;
    MatchesMore(w, h, s, t, p, ViewOf(t, p));
  }

  ghost predicate KillRests(s: System, a: Action) {
    forall r :: a.Kill? && r in s.runs && a.pid in s.runs[r].execs ==> AtAwait(s.runs[r].execs[a.pid].pc)
  }

  /** A longer history, whose new kills find their victims at an await and whose new claims are not stolen. */
  ghost predicate Grows(
    states: seq<System>, actions: seq<Action>, states': seq<System>, actions': seq<Action>, stealing: bool)
  {
    && |states| == |actions| + 1 && History(states', actions') && states <= states' && actions <= actions'
    && forall k :: |actions| <= k < |actions'| ==>
         KillRests(states'[k], actions'[k]) && (stealing || !Steals(states'[k], actions'[k]))
  }

  lemma GrowsByOne(states: seq<System>, actions: seq<Action>, a: Action, stealing: bool)
    requires History(states, actions) && Enabled(states[|states| - 1], a)
    requires KillRests(states[|states| - 1], a) && (stealing || !Steals(states[|states| - 1], a))
    ensures Grows(states, actions, states + [Apply(states[|states| - 1], a)], actions + [a], stealing)
  {
    hide Enabled, Apply, KillRests, Steals;
    HistorySnoc(states, actions, a);
  }

  lemma GrowsByContinuing(
    states: seq<System>, actions: seq<Action>, states': seq<System>, actions': seq<Action>, p: ProcessId,
    stealing: bool)
    requires Continues(states, actions, states', actions', p, stealing)
    ensures Grows(states, actions, states', actions', stealing)
  {
    hide Enabled, Apply, Steals, History;
  }

  // ---- one action ---------------------------------------------------------------------------------------------

  lemma RecoveredAlike(st: Host.State, w: Workflows, w': Workflows, p: ProcessId, now: int, clock: Host.Clock)
    requires Host.Known(st, w) && Host.Known(st, w') && forall r :: r in st.rows ==> w[r] == w'[r]
    ensures Host.Recovered(st, w, p, now, clock) == Host.Recovered(st, w', p, now, clock)
  {
    hide Host.Adopted, Orphan;
    var a, b := Host.Recovered(st, w, p, now, clock), Host.Recovered(st, w', p, now, clock);
    assert a.rows == b.rows;
    assert a.events == b.events;
    assert a.executors == b.executors;
  }

  /** The action of the protocol behind an action that is a single one there. */
  function ActionOf(w: Workflows, a: HostAction): Action
    requires a.Inserts? ==> a.run in w
    requires a.Inserts? || a.Wakes? || a.Cancels? || a.Beats? || a.Dies? || a.Stops?
  {
    match a
    case Inserts(_, r) => CreateRun(r, w[r])
    case Wakes(p, r) => TimerFires(p, r)
    case Cancels(p, r) => CancelRequest(p, r)
    case Beats(p, r) => Heartbeat(p, r)
    case Dies(p) => Kill(p)
    case Stops(p) => Shutdown(p)
  }

  predicate Single(h: Site, a: HostAction) {
    a.Inserts? || a.Wakes? || (a.Cancels? && a.run in h.rows && !h.rows[a.run].status.Terminal?) || a.Beats?
    || a.Dies? || a.Stops?
  }

  /** What the commutation lemmas of `HostHistories` say about one action. */
  ghost predicate Commutes(w: Workflows, h: Site, s: System, a: HostAction)
    requires Consistent(w, h) && HostEnabled(w, h, a) && Single(h, a)
  {
    var b := ActionOf(w, a);
    && Enabled(s, b) && Apply(s, b).clock == s.clock && KillRests(s, b)
    && HostApply(w, h, a) == With(h, a.pid, ViewOf(Apply(s, b), a.pid))
  }

  lemma InsertCommutes(w: Workflows, h: Site, s: System, a: HostAction)
    requires Matches(w, h, s) && Consistent(w, h) && HostEnabled(w, h, a) && a.Inserts?
    ensures Commutes(w, h, s, a)
  {
    assert ViewOf(s, a.pid) == Seen(h, a.pid);
    RowsAreRuns(w, h, s);
    CreateIsAction(s, a.pid, a.run, w[a.run]);
    hide ViewOf, Matches, With;
  }

  lemma EndCommutes(w: Workflows, h: Site, s: System, a: HostAction)
    requires Matches(w, h, s) && Consistent(w, h) && HostEnabled(w, h, a) && Rested(h) && (a.Dies? || a.Stops?)
    ensures Commutes(w, h, s, a)
  {
    var p := a.pid;
    assert ViewOf(s, p) == Seen(h, p);
    forall r | r in s.runs && p in s.runs[r].execs ensures AtAwait(s.runs[r].execs[p].pc) {
      AliveIsLive(w, h, s, r, p);
    }
    hide ViewOf, Matches, With, Rested;
    if a.Dies? {
      KillIsAction(s, p);
    } else {
      ShutdownIsAction(s, p);
    }
  }

  lemma WakeCommutes(w: Workflows, h: Site, s: System, p: ProcessId, r: RunId)
    requires Matches(w, h, s) && Consistent(w, h) && HostEnabled(w, h, Wakes(p, r))
    ensures Commutes(w, h, s, Wakes(p, r))
  {
    assert ViewOf(s, p) == Seen(h, p);
    RowsAreRuns(w, h, s);
    AliveIsLive(w, h, s, r, p);
    SameClock(w, h, s);
    WakeIsAction(s, p, r);
    hide ViewOf, Matches, With, CancelRun, WakeRun, HeartbeatRun, Host.CancelAsked, Host.Renewed, Host.Put, Consistent;
  }

  lemma CancelCommutes(w: Workflows, h: Site, s: System, p: ProcessId, r: RunId)
    requires Matches(w, h, s) && Consistent(w, h) && HostEnabled(w, h, Cancels(p, r)) && !h.rows[r].status.Terminal?
    ensures Commutes(w, h, s, Cancels(p, r))
  {
    assert ViewOf(s, p) == Seen(h, p);
    RowsAreRuns(w, h, s);
    AliveIsLive(w, h, s, r, p);
    SameClock(w, h, s);
    CancelIsAction(s, p, r);
    hide ViewOf, Matches, With, CancelRun, WakeRun, HeartbeatRun, Host.CancelAsked, Host.Renewed, Host.Put, Consistent;
  }

  lemma BeatCommutes(w: Workflows, h: Site, s: System, p: ProcessId, r: RunId)
    requires Matches(w, h, s) && Consistent(w, h) && HostEnabled(w, h, Beats(p, r))
    ensures Commutes(w, h, s, Beats(p, r))
  {
    assert ViewOf(s, p) == Seen(h, p);
    RowsAreRuns(w, h, s);
    AliveIsLive(w, h, s, r, p);
    SameClock(w, h, s);
    HeartbeatIsAction(s, p, r);
    hide ViewOf, Matches, With, CancelRun, WakeRun, HeartbeatRun, Host.CancelAsked, Host.Renewed, Host.Put, Consistent;
  }

  lemma SingleStep(w: Workflows, h: Site, a: HostAction, states: seq<System>, actions: seq<Action>)
    returns (states': seq<System>, actions': seq<Action>)
    requires History(states, actions) && Matches(w, h, states[|states| - 1])
    requires Consistent(w, h) && HostEnabled(w, h, a) && Rested(h) && Single(h, a)
    ensures Grows(states, actions, states', actions', false)
    ensures Matches(w, HostApply(w, h, a), states'[|states'| - 1])
  {
    hide *;
    HistoryLength(states, actions);
    var s := states[|states| - 1];
    SingleFacts(w, h, s, a);
    var b := ActionOf(w, a);
    GrowsByOne(states, actions, b, false);
    ActionMatches(w, h, s, b, a.pid);
    states', actions' := states + [Apply(s, b)], actions + [b];
    WithClock(h, a.pid, ViewOf(Apply(s, b), a.pid));
  }

  lemma SingleFacts(w: Workflows, h: Site, s: System, a: HostAction)
    requires Matches(w, h, s) && Consistent(w, h) && HostEnabled(w, h, a) && Rested(h) && Single(h, a)
    ensures a.Inserts? ==> a.run in w
    ensures a.Inserts? || a.Wakes? || a.Cancels? || a.Beats? || a.Dies? || a.Stops?
    ensures var b := ActionOf(w, a);
            && Enabled(s, b) && ActsFor(b, a.pid) && KillRests(s, b) && !Steals(s, b)
            && (b.CreateRun? ==> b.run in w && b.nodes == w[b.run])
            && Apply(s, b).clock == h.clock
            && HostApply(w, h, a) == With(h, a.pid, ViewOf(Apply(s, b), a.pid))
  {
    hide HostApply, Matches, Apply, Enabled, ViewOf, KillRests, Stealable, With, Rested;
    SameClock(w, h, s);
    assert Commutes(w, h, s, a) by {
      if a.Inserts? {
        InsertCommutes(w, h, s, a);
      } else if a.Dies? || a.Stops? {
        EndCommutes(w, h, s, a);
      } else {
        match a {
          case Wakes(p, r) => WakeCommutes(w, h, s, p, r);
          case Cancels(p, r) => CancelCommutes(w, h, s, p, r);
          case Beats(p, r) => BeatCommutes(w, h, s, p, r);
        }
      }
    }
  }

  lemma SameClock(w: Workflows, h: Site, s: System)
    requires Matches(w, h, s)
    ensures s.clock == h.clock
  {
  }

  /** Nothing happens, but a process's memory is written back as it was. */
  lemma IdleMatches(w: Workflows, h: Site, s: System, p: ProcessId)
    requires Matches(w, h, s)
    ensures Matches(w, With(h, p, Seen(h, p)), s)
  {
    hide ViewOf;
  }

  lemma WaitMatches(w: Workflows, h: Site, s: System, now: int)
    requires Matches(w, h, s)
    ensures Matches(w, h.(clock := now), s.(clock := now))
  {
    hide RowsOf, TablesOf, ExecutorsOf;
    forall p ensures ViewOf(s.(clock := now), p) == Seen(h.(clock := now), p) {
      assert ViewOf(s, p) == Seen(h, p);
    }
  }

  lemma WaitStep(w: Workflows, h: Site, now: int, states: seq<System>, actions: seq<Action>, stealing: bool)
    returns (states': seq<System>, actions': seq<Action>)
    requires History(states, actions) && Matches(w, h, states[|states| - 1]) && h.clock <= now
    ensures Grows(states, actions, states', actions', stealing)
    ensures Matches(w, h.(clock := now), states'[|states'| - 1])
  {
    var s := states[|states| - 1];
    SameClock(w, h, s);
    WaitMatches(w, h, s, now);
    GrowsByOne(states, actions, Tick(now), stealing);
    hide Matches;
    states', actions' := states + [s.(clock := now)], actions + [Tick(now)];
  }

  /** A turn after an await. */
  lemma ResumeStep(w: Workflows, h: Site, p: ProcessId, r: RunId, states: seq<System>, actions: seq<Action>)
    returns (states': seq<System>, actions': seq<Action>)
    requires History(states, actions) && Matches(w, h, states[|states| - 1])
    requires Consistent(w, h) && HostEnabled(w, h, Resumes(p, r))
    ensures Grows(states, actions, states', actions', false)
    ensures Matches(w, HostApply(w, h, Resumes(p, r)), states'[|states'| - 1])
  {
    var s := states[|states| - 1];
    RowsAreRuns(w, h, s);
    AliveIsLive(w, h, s, r, p);
    SameClock(w, h, s);
    assert ViewOf(s, p) == Seen(h, p) && s.runs[r].nodes == w[r];
    hide Matches, ViewOf, ResumeTurn, StartTurn, Continues, With, Host.Put, History, Enabled, Apply;
    states', actions' := TurnIsActions(states, actions, p, r);
    GrowsByContinuing(states, actions, states', actions', p, false);
    ContinuationMatches(w, h, states, actions, states', actions', p, false);
    WithClock(h, p, ViewOf(states'[|states'| - 1], p));
  }

  lemma WithClock(h: Site, p: ProcessId, st: Host.State)
    ensures With(h, p, st).(clock := h.clock) == With(h, p, st)
  {
  }

  /** A claim that is won, and the first turn. */
  lemma AdoptionStep(
    w: Workflows, h: Site, p: ProcessId, r: RunId, states: seq<System>, actions: seq<Action>, stealing: bool)
    returns (states': seq<System>, actions': seq<Action>)
    requires History(states, actions) && Matches(w, h, states[|states| - 1])
    requires var s := states[|states| - 1];
             && r in s.runs && p !in s.runs[r].execs && Claimable(s.runs[r].row, s.clock)
             && (stealing || !Stealable(s.runs[r], s.clock))
    ensures Grows(states, actions, states', actions', stealing)
    ensures var s := states[|states| - 1];
            var l := Host.Adopted(s.runs[r].row, s.runs[r].table, s.runs[r].nodes, p, s.clock);
            Matches(w, With(h, p, Host.Put(ViewOf(s, p), r, l)).(clock := s.clock), states'[|states'| - 1])
  {
    HistoryLength(states, actions);
    hide Matches, ViewOf, Continues, With, Host.Put, Host.Adopted, History, Stealable, Claimable, OnlyRun, Grows;
    states', actions' := AdoptionIsActions(states, actions, p, r, stealing);
    GrowsByContinuing(states, actions, states', actions', p, stealing);
    ContinuationMatches(w, h, states, actions, states', actions', p, stealing);
  }

  /** `tryClaim`, and if it is won the first turn. */
  lemma ExecuteStep(w: Workflows, h: Site, p: ProcessId, r: RunId, states: seq<System>, actions: seq<Action>)
    returns (states': seq<System>, actions': seq<Action>)
    requires History(states, actions) && Matches(w, h, states[|states| - 1])
    requires Consistent(w, h) && HostEnabled(w, h, Executes(p, r))
    ensures Grows(states, actions, states', actions', HostSteals(h, Executes(p, r)))
    ensures Matches(w, HostApply(w, h, Executes(p, r)), states'[|states'| - 1])
  {
    hide *;
    HistoryLength(states, actions);
    var s := states[|states| - 1];
    ExecuteFacts(w, h, s, p, r);
    states', actions' := states, actions;
    if Claimable(h.rows[r], h.clock) {
      states', actions' := AdoptionStep(w, h, p, r, states, actions, HostSteals(h, Executes(p, r)));
      WithClock(h, p, Host.Put(Seen(h, p), r, Host.Adopted(h.rows[r], h.events[r], w[r], p, h.clock)));
    } else {
      GrowsIdle(states, actions, HostSteals(h, Executes(p, r)));
    }
  }

  lemma ExecuteFacts(w: Workflows, h: Site, s: System, p: ProcessId, r: RunId)
    requires Matches(w, h, s) && Consistent(w, h) && HostEnabled(w, h, Executes(p, r))
    ensures r in h.rows && r in h.events && r in w
    ensures r in s.runs && p !in s.runs[r].execs && s.runs[r].row == h.rows[r] && s.runs[r].table == h.events[r]
    ensures s.runs[r].nodes == w[r] && s.clock == h.clock && ViewOf(s, p) == Seen(h, p)
    ensures HostSteals(h, Executes(p, r)) || !Stealable(s.runs[r], s.clock)
    ensures HostApply(w, h, Executes(p, r)) ==
              if Claimable(h.rows[r], h.clock)
              then With(h, p, Host.Put(Seen(h, p), r, Host.Adopted(h.rows[r], h.events[r], w[r], p, h.clock)))
              else h
  {
    RowsAreRuns(w, h, s);
    AliveIsLive(w, h, s, r, p);
    hide ViewOf, Stealable, Lapsed;
    if Stealable(s.runs[r], s.clock) {
      StealableIsAlive(w, h, s, r, s.clock);
    }
  }

  lemma GrowsIdle(states: seq<System>, actions: seq<Action>, stealing: bool)
    requires History(states, actions)
    ensures Grows(states, actions, states, actions, stealing)
  {
    hide Enabled, Apply;
  }

  /** The boot scan, and the time it takes. */
  lemma BootStep(
    w: Workflows, h: Site, p: ProcessId, clock: Host.Clock, end: int, states: seq<System>, actions: seq<Action>)
    returns (states': seq<System>, actions': seq<Action>)
    requires History(states, actions) && Matches(w, h, states[|states| - 1])
    requires Consistent(w, h) && HostEnabled(w, h, Boots(p, clock, end))
    ensures Grows(states, actions, states', actions', HostSteals(h, Boots(p, clock, end)))
    ensures Matches(w, HostApply(w, h, Boots(p, clock, end)), states'[|states'| - 1])
  {
    var s := states[|states| - 1];
    var stealing := HostSteals(h, Boots(p, clock, end));
    SameClock(w, h, s);
    BootSteals(w, h, s, p, clock, end);
    BootWorkflows(w, h, s, p, clock);
    assert ViewOf(s, p) == Seen(h, p);
    hide Matches, ViewOf, Continues, Host.Recovered, History, Enabled, Apply, HostSteals, Stealable, Steals, Orphan;
    hide WorkflowsOf, Host.Known;
    var states1, actions1 := BootIsActions(states, actions, p, clock, end, stealing);
    ContinuedHistory(states, actions, states1, actions1, p, stealing);
    GrowsByContinuing(states, actions, states1, actions1, p, stealing);
    ContinuationMatches(w, h, states, actions, states1, actions1, p, stealing);
    var t := states1[|states1| - 1];
    states', actions' := WaitStep(w, With(h, p, ViewOf(t, p)).(clock := t.clock), end, states1, actions1, stealing);
    GrowsMore(states, actions, states1, actions1, states', actions', stealing);
  }

  lemma BootSteals(w: Workflows, h: Site, s: System, p: ProcessId, clock: Host.Clock, end: int)
    requires Matches(w, h, s)
    ensures HostSteals(h, Boots(p, clock, end)) ||
            forall r :: r in s.runs && Orphan(s.runs[r].row, s.clock) ==> !Stealable(s.runs[r], clock(r))
  {
    hide Stealable, Orphan, Lapsed, Alive;
    forall r | r in s.runs && Orphan(s.runs[r].row, s.clock) && Stealable(s.runs[r], clock(r))
      ensures HostSteals(h, Boots(p, clock, end))
    {
      StealableIsAlive(w, h, s, r, clock(r));
    }
  }

  lemma BootWorkflows(w: Workflows, h: Site, s: System, p: ProcessId, clock: Host.Clock)
    requires Matches(w, h, s) && Consistent(w, h)
    ensures Host.Known(ViewOf(s, p), WorkflowsOf(s)) && Host.Known(Seen(h, p), w)
    ensures Host.Recovered(ViewOf(s, p), WorkflowsOf(s), p, s.clock, clock)
         == Host.Recovered(Seen(h, p), w, p, h.clock, clock)
  {
    assert ViewOf(s, p) == Seen(h, p);
    RecoveredAlike(Seen(h, p), WorkflowsOf(s), w, p, s.clock, clock);
  }

  lemma GrowsMore(
    states: seq<System>, actions: seq<Action>, states': seq<System>, actions': seq<Action>,
    states'': seq<System>, actions'': seq<Action>, stealing: bool)
    requires Grows(states, actions, states', actions', stealing)
    requires Grows(states', actions', states'', actions'', stealing)
    ensures Grows(states, actions, states'', actions'', stealing)
  {
    hide Enabled, Apply, KillRests, Steals;
    assert actions''[..|actions'|] == actions' && states''[..|states'|] == states';
    forall k | |actions| <= k < |actions''|
      ensures KillRests(states''[k], actions''[k]) && (stealing || !Steals(states''[k], actions''[k]))
    {
      assert k < |actions'| ==> actions''[k] == actions'[k] && states''[k] == states'[k];
    }
  }

  /** Every action of the host is a piece of history, with a stolen claim only if the host steals one. */
  lemma HostStep(w: Workflows, h: Site, a: HostAction, states: seq<System>, actions: seq<Action>)
    returns (states': seq<System>, actions': seq<Action>)
    requires History(states, actions) && Matches(w, h, states[|states| - 1])
    requires Consistent(w, h) && HostEnabled(w, h, a) && Rested(h)
    ensures Grows(states, actions, states', actions', HostSteals(h, a))
    ensures Matches(w, HostApply(w, h, a), states'[|states'| - 1])
  {
    hide Matches, Rested, History, Grows;
    if Single(h, a) {
      states', actions' := SingleStep(w, h, a, states, actions);
    } else {
      match a {
        case Waits(now) => states', actions' := WaitStep(w, h, now, states, actions, false);
        case Executes(p, r) => states', actions' := ExecuteStep(w, h, p, r, states, actions);
        case Resumes(p, r) => states', actions' := ResumeStep(w, h, p, r, states, actions);
        case Boots(p, clock, end) => states', actions' := BootStep(w, h, p, clock, end, states, actions);
        case Cancels(p, r) =>
          assert h.rows[r].status.Terminal?;
          HistoryLength(states, actions);
          IdleMatches(w, h, states[|states| - 1], p);
          GrowsIdle(states, actions, HostSteals(h, a));
          states', actions' := states, actions;
      }
    }
  }
}
