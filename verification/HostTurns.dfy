/**
 * Turns and boot scans, which take several actions of the protocol: a process that runs turn by turn
 * only ever produces histories of the protocol.
 */
module HostTurns {
  import opened RunTypes
  import opened SqliteStatements
  import opened LeaseProtocol
  import opened LeaseExclusivity
  import opened SqliteTurns
  import opened TurnHistories
  import opened HostHistories
  import Host = SqliteHost

  // ---- turns and the boot scan ----------------------------------------------------------------------------

  /** `to` extends `from` by actions of process `p`. */
  ghost predicate OnlyActsFor(from: seq<Action>, to: seq<Action>, p: ProcessId) {
    from <= to && forall k :: |from| <= k < |to| ==> ActsFor(to[k], p)
  }

  /** Runs and workflows are as they were. */
  predicate SameRuns(s: System, t: System) {
    s.clock <= t.clock && t.runs.Keys == s.runs.Keys && forall r :: r in s.runs ==> t.runs[r].nodes == s.runs[r].nodes
  }

  /**
   * `(states', actions')` is a history that continues `(states, actions)` by actions of process `p`,
   * none of which is a kill; and no claim is stolen unless `stealing` says that it may be.
   */
  ghost predicate Continues(
    states: seq<System>, actions: seq<Action>, states': seq<System>, actions': seq<Action>, p: ProcessId,
    stealing: bool)
  {
    && |states| == |actions| + 1 && History(states', actions') && states <= states'
    && OnlyActsFor(actions, actions', p)
    && SameRuns(states[|states| - 1], states'[|states'| - 1])
    && forall k :: |actions| <= k < |actions'| ==>
         !actions'[k].Kill? && (stealing || !Steals(states'[k], actions'[k]))
  }

  lemma ContinuesMore(
    states: seq<System>, actions: seq<Action>, states': seq<System>, actions': seq<Action>,
    states'': seq<System>, actions'': seq<Action>, p: ProcessId, stealing: bool)
    requires Continues(states, actions, states', actions', p, stealing)
    requires Continues(states', actions', states'', actions'', p, stealing)
    ensures Continues(states, actions, states'', actions'', p, stealing)
  {
    hide ActsFor, Enabled, Apply, Steals;
    assert actions''[..|actions'|] == actions' && states''[..|states'|] == states';
    forall k | |actions| <= k < |actions''|
      ensures ActsFor(actions''[k], p) && !actions''[k].Kill? && (stealing || !Steals(states''[k], actions''[k]))
    {
      assert k < |actions'| ==> actions''[k] == actions'[k] && states''[k] == states'[k];
    }
  }

  lemma ContinuesByOne(states: seq<System>, actions: seq<Action>, a: Action, p: ProcessId, stealing: bool)
    requires History(states, actions) && Enabled(states[|states| - 1], a) && ActsFor(a, p)
    requires !a.Kill? && (stealing || !Steals(states[|states| - 1], a))
    requires SameRuns(states[|states| - 1], Apply(states[|states| - 1], a))
    ensures Continues(states, actions, states + [Apply(states[|states| - 1], a)], actions + [a], p, stealing)
  {
    hide Enabled, Apply, Steals;
    HistorySnoc(states, actions, a);
  }

  lemma {:induction false} ContinuesRemembers(
    states: seq<System>, actions: seq<Action>, states': seq<System>, actions': seq<Action>, p: ProcessId,
    stealing: bool, q: ProcessId, k: nat)
    requires Continues(states, actions, states', actions', p, stealing) && p != q && |actions| <= k <= |actions'|
    ensures ViewOf(states'[k], q).executors == ViewOf(states[|actions|], q).executors
    decreases k
  {
    hide ViewOf, ActsFor, Enabled, Apply, Steals;
    if k == |actions| {
      assert states'[k] == states[|actions|];
    } else {
      ContinuesRemembers(states, actions, states', actions', p, stealing, q, k - 1);
      assert Enabled(states'[k - 1], actions'[k - 1]) && states'[k] == Apply(states'[k - 1], actions'[k - 1]);
      OthersRemember(states'[k - 1], actions'[k - 1], p, q);
    }
  }

  /** At most run `r` has changed. */
  predicate OnlyRun(s: System, t: System, r: RunId) {
    forall q :: q in s.runs && q != r ==> q in t.runs && t.runs[q] == s.runs[q]
  }

  lemma OnlyRunMore(s: System, t: System, u: System, r: RunId)
    requires t.runs.Keys >= s.runs.Keys && OnlyRun(s, t, r) && OnlyRun(t, u, r)
    ensures OnlyRun(s, u, r)
  {
  }

  lemma OneRunIsOnlyRun(s: System, r: RunId, run: Run)
    ensures OnlyRun(s, s.(runs := s.runs[r := run]), r) && s.runs[r := run].Keys >= s.runs.Keys
  {
  }

  /** Statements of one executor alone are actions of its process, and steal nothing. */
  lemma AdvancesContinue(
    states: seq<System>, actions: seq<Action>, states': seq<System>, actions': seq<Action>,
    p: ProcessId, r: RunId, run: Run)
    requires History(states, actions) && History(states', actions') && states <= states'
    requires OnlyAdvances(actions, actions', p, r) && r in states[|states| - 1].runs
    requires run.nodes == states[|states| - 1].runs[r].nodes
    requires states'[|states'| - 1] == states[|states| - 1].(runs := states[|states| - 1].runs[r := run])
    ensures Continues(states, actions, states', actions', p, false)
    ensures OnlyRun(states[|states| - 1], states'[|states'| - 1], r)
  {
    hide History, Enabled, Apply, Stealable;
    assert |states| == |actions| + 1 by { HistoryLength(states, actions); }
  }

  lemma HistoryLength(states: seq<System>, actions: seq<Action>)
    requires History(states, actions)
    ensures |states| == |actions| + 1
  {
  }

  lemma TurnIsActions(states: seq<System>, actions: seq<Action>, p: ProcessId, r: RunId)
    returns (states': seq<System>, actions': seq<Action>)
    requires History(states, actions)
    requires var s := states[|states| - 1];
             r in s.runs && p in s.runs[r].execs && Runnable(s.runs[r].execs[p].pc)
    requires var pc := states[|states| - 1].runs[r].execs[p].pc; AtAwait(pc) || pc.LoadRun?
    ensures Continues(states, actions, states', actions', p, false)
    ensures OnlyRun(states[|states| - 1], states'[|states'| - 1], r)
    ensures states'[|states'| - 1].clock == states[|states| - 1].clock
    ensures var s := states[|states| - 1];
            Host.Has(ViewOf(s, p), r) &&
            var l := Host.At(ViewOf(s, p), r);
            var turn := if l.exec.pc.LoadRun? then StartTurn(s.runs[r].nodes, p, l)
                        else ResumeTurn(s.runs[r].nodes, p, l);
            ViewOf(states'[|states'| - 1], p) == Host.Put(ViewOf(s, p), r, turn)
  {
    hide StartTurn, ResumeTurn, Continues, OnlyRun;
    var s := states[|states| - 1];
    states', actions' := TurnIsHistory(states, actions, p, r);
    var l := View(s.runs[r], p);
    var turn := if l.exec.pc.LoadRun? then StartTurn(s.runs[r].nodes, p, l) else ResumeTurn(s.runs[r].nodes, p, l);
    var run := WithView(s.runs[r], p, turn);
    AdvancesContinue(states, actions, states', actions', p, r, run);
    hide History;
    OneRunChanges(s, p, r, run);
    assert View(run, p) == turn;
  }

  /** A claim that is won. */
  lemma WonClaim(states: seq<System>, actions: seq<Action>, p: ProcessId, r: RunId, stealing: bool)
    returns (states': seq<System>, actions': seq<Action>)
    requires History(states, actions)
    requires var s := states[|states| - 1];
             r in s.runs && p !in s.runs[r].execs && Claimable(s.runs[r].row, s.clock)
             && (stealing || !Stealable(s.runs[r], s.clock))
    ensures Continues(states, actions, states', actions', p, stealing) && History(states', actions')
    ensures var s, t := states[|states| - 1], states'[|states'| - 1];
            && t == s.(runs := s.runs[r := ClaimRun(s.runs[r], p, s.clock)])
            && r in t.runs && p in t.runs[r].execs && t.runs[r].execs[p] == FRESH
            && View(t.runs[r], p) == Local(AcquireClaim(s.runs[r].row, p, s.clock), s.runs[r].table, FRESH)
            && ViewOf(t, p) == Host.Put(ViewOf(s, p), r, View(t.runs[r], p))
  {
    hide ViewOf, Host.Put, Stealable;
    var s := states[|states| - 1];
    var claimed := s.(runs := s.runs[r := ClaimRun(s.runs[r], p, s.clock)]);
    assert Enabled(s, Claim(p, r)) && Apply(s, Claim(p, r)) == claimed;
    ContinuesByOne(states, actions, Claim(p, r), p, stealing);
    OneRunChanges(s, p, r, claimed.runs[r]);
    hide Continues;
    states', actions' := states + [claimed], actions + [Claim(p, r)];
    HistorySnoc(states, actions, Claim(p, r));
  }

  /** One orphan: the claim, then the first turn. */
  lemma AdoptionIsActions(states: seq<System>, actions: seq<Action>, p: ProcessId, r: RunId, stealing: bool)
    returns (states': seq<System>, actions': seq<Action>)
    requires History(states, actions)
    requires var s := states[|states| - 1];
             r in s.runs && p !in s.runs[r].execs && Claimable(s.runs[r].row, s.clock)
             && (stealing || !Stealable(s.runs[r], s.clock))
    ensures Continues(states, actions, states', actions', p, stealing)
    ensures OnlyRun(states[|states| - 1], states'[|states'| - 1], r)
    ensures states'[|states'| - 1].clock == states[|states| - 1].clock
    ensures var s := states[|states| - 1];
            var run := s.runs[r];
            ViewOf(states'[|states'| - 1], p)
            == Host.Put(ViewOf(s, p), r, Host.Adopted(run.row, run.table, run.nodes, p, s.clock))
  {
    HistoryLength(states, actions);
    hide StartTurn, Host.Put, AcquireClaim, ViewOf, Continues, History, Enabled, Apply, Claimable, Stealable;
    hide OnlyRun, ClaimRun;
    var s := states[|states| - 1];
    var states1, actions1 := WonClaim(states, actions, p, r, stealing);
    HistoryLength(states1, actions1);
    var t := states1[|states1| - 1];
    var l := View(t.runs[r], p);
    states', actions' := TurnIsActions(states1, actions1, p, r);
    ContinuesAnyway(states1, actions1, states', actions', p, stealing);
    ContinuesMore(states, actions, states1, actions1, states', actions', p, stealing);
    OneRunIsOnlyRun(s, r, t.runs[r]);
    OnlyRunMore(s, t, states'[|states'| - 1], r);
    assert Host.At(ViewOf(t, p), r) == l;
    Host.PutTwice(ViewOf(s, p), r, l, StartTurn(t.runs[r].nodes, p, l));
  }

  lemma ContinuesAnyway(
    states: seq<System>, actions: seq<Action>, states': seq<System>, actions': seq<Action>, p: ProcessId,
    stealing: bool)
    requires Continues(states, actions, states', actions', p, false)
    ensures Continues(states, actions, states', actions', p, stealing)
  {
  }

  function WorkflowsOf(s: System): map<RunId, Workflow> { map r | r in s.runs :: s.runs[r].nodes }

  /**
   * The boot scan: from a state in which the process has no executors yet, some history by that
   * process alone ends in the state that `ResumeOrphans` leaves, whatever the clock reads at each
   * claim; and without a stolen claim unless some orphan's executor is still alive when its claim is
   * made.
   */
  lemma BootIsActions(
    states: seq<System>, actions: seq<Action>, p: ProcessId, clock: Host.Clock, end: int, stealing: bool)
    returns (states': seq<System>, actions': seq<Action>)
    requires History(states, actions)
    requires var s := states[|states| - 1];
             ViewOf(s, p).executors == map[] && s.clock <= end && forall r :: s.clock <= clock(r) <= end
    requires var s := states[|states| - 1];
             stealing || forall r :: r in s.runs && Orphan(s.runs[r].row, s.clock) ==> !Stealable(s.runs[r], clock(r))
    ensures Continues(states, actions, states', actions', p, stealing) && states'[|states'| - 1].clock <= end
    ensures var s := states[|states| - 1];
            ViewOf(states'[|states'| - 1], p) == Host.Recovered(ViewOf(s, p), WorkflowsOf(s), p, s.clock, clock)
  {
    var s := states[|states| - 1];
    var v, w := ViewOf(s, p), WorkflowsOf(s);
    assert Host.Known(v, w);
    Host.NothingAdopted(v, w, p, clock);
    var todo := set r | r in v.rows && Orphan(v.rows[r], s.clock);
    OrphansArePending(s, p, clock, end, stealing, todo);
    hide Host.RecoveredOnly, ViewOf, WorkflowsOf, Host.Known, Orphan, History, Pending;
    states', actions' := AdoptAll(states, actions, p, s, clock, end, stealing, {}, todo);
    assert {} + todo == todo;
  }

  lemma OrphansArePending(s: System, p: ProcessId, clock: Host.Clock, end: int, stealing: bool, todo: set<RunId>)
    requires ViewOf(s, p).executors == map[] && s.clock <= end && forall r :: s.clock <= clock(r) <= end
    requires stealing || forall r :: r in s.runs && Orphan(s.runs[r].row, s.clock) ==> !Stealable(s.runs[r], clock(r))
    requires todo == set r | r in ViewOf(s, p).rows && Orphan(ViewOf(s, p).rows[r], s.clock)
    ensures Pending(s, s, p, clock, end, stealing, todo)
  {
    hide Stealable, Orphan, TablesOf;
    forall r | r in todo ensures r in s.runs && p !in s.runs[r].execs && Orphan(s.runs[r].row, s.clock) {
      assert r !in ViewOf(s, p).executors;
    }
  }

  /** The claim with the earliest clock reading. */
  lemma {:induction false} Earliest(todo: set<RunId>, clock: Host.Clock) returns (r: RunId)
    requires todo != {}
    ensures r in todo && forall q :: q in todo ==> clock(r) <= clock(q)
    decreases |todo|
  {
    r :| r in todo;
    var rest := todo - {r};
    if rest != {} {
      var q := Earliest(rest, clock);
      assert todo == rest + {r};
      r := if clock(q) < clock(r) then q else r;
    } else {
      assert todo == {r};
    }
  }

  /** The orphans still to be claimed are as the scan found them, and their claims lie ahead. */
  ghost predicate Pending(
    s: System, now: System, p: ProcessId, clock: Host.Clock, end: int, stealing: bool, todo: set<RunId>)
  {
    && SameRuns(s, now) && now.clock <= end
    && forall r :: r in todo ==>
         && r in s.runs && p !in s.runs[r].execs && now.runs[r] == s.runs[r] && Orphan(s.runs[r].row, s.clock)
         && now.clock <= clock(r) <= end && (stealing || !Stealable(s.runs[r], clock(r)))
  }

  lemma PendingNext(
    s: System, now: System, next: System, p: ProcessId, clock: Host.Clock, end: int, stealing: bool,
    todo: set<RunId>, r: RunId)
    requires Pending(s, now, p, clock, end, stealing, todo) && r in todo
    requires forall q :: q in todo ==> clock(r) <= clock(q)
    requires SameRuns(now, next) && OnlyRun(now, next, r) && next.clock == clock(r)
    ensures Pending(s, next, p, clock, end, stealing, todo - {r})
  {
    hide Stealable, Orphan;
  }

  /** The rest of the scan's loop, `s` being the state at its start. */
  lemma {:induction false} AdoptAll(
    states: seq<System>, actions: seq<Action>, p: ProcessId, s: System, clock: Host.Clock, end: int,
    stealing: bool, done: set<RunId>, todo: set<RunId>)
    returns (states': seq<System>, actions': seq<Action>)
    requires History(states, actions) && Host.Known(ViewOf(s, p), WorkflowsOf(s)) && done !! todo
    requires Pending(s, states[|states| - 1], p, clock, end, stealing, todo)
    requires ViewOf(states[|states| - 1], p) == Host.RecoveredOnly(ViewOf(s, p), WorkflowsOf(s), p, clock, done)
    ensures Continues(states, actions, states', actions', p, stealing) && states'[|states'| - 1].clock <= end
    ensures ViewOf(states'[|states'| - 1], p)
         == Host.RecoveredOnly(ViewOf(s, p), WorkflowsOf(s), p, clock, done + todo)
    decreases todo
  {
    hide Host.RecoveredOnly, ViewOf, WorkflowsOf, Host.Known, Enabled, Apply;
    if todo == {} {
      assert done + todo == done;
      return states, actions;
    }
    var r := Earliest(todo, clock);
    hide Pending, Continues, OnlyRun, History;
    HistoryLength(states, actions);
    var states1, actions1 := AdoptNext(states, actions, p, s, clock, end, stealing, done, todo, r);
    ContinuedHistory(states, actions, states1, actions1, p, stealing);
    PendingNext(s, states[|states| - 1], states1[|states1| - 1], p, clock, end, stealing, todo, r);
    states', actions' := AdoptAll(states1, actions1, p, s, clock, end, stealing, done + {r}, todo - {r});
    assert done + {r} + (todo - {r}) == done + todo;
    ContinuesMore(states, actions, states1, actions1, states', actions', p, stealing);
  }

  lemma ContinuedHistory(
    states: seq<System>, actions: seq<Action>, states': seq<System>, actions': seq<Action>, p: ProcessId,
    stealing: bool)
    requires Continues(states, actions, states', actions', p, stealing)
    ensures |states| > 0 && |states'| > 0 && History(states', actions')
    ensures SameRuns(states[|states| - 1], states'[|states'| - 1])
  {
  }

  /** Time passes; the tables do not. */
  lemma WaitIsAction(states: seq<System>, actions: seq<Action>, p: ProcessId, now: int, stealing: bool)
    returns (states': seq<System>, actions': seq<Action>)
    requires History(states, actions) && states[|states| - 1].clock <= now
    ensures Continues(states, actions, states', actions', p, stealing)
    ensures states'[|states'| - 1] == states[|states| - 1].(clock := now)
    ensures ViewOf(states'[|states'| - 1], p) == ViewOf(states[|states| - 1], p)
  {
    var s := states[|states| - 1];
    states', actions' := states + [s.(clock := now)], actions + [Tick(now)];
    ContinuesByOne(states, actions, Tick(now), p, stealing);
  }

  /** One round of the scan's loop, `s` being the state at its start. */
  lemma AdoptNext(
    states: seq<System>, actions: seq<Action>, p: ProcessId, s: System, clock: Host.Clock, end: int,
    stealing: bool, done: set<RunId>, todo: set<RunId>, r: RunId)
    returns (states': seq<System>, actions': seq<Action>)
    requires History(states, actions) && Host.Known(ViewOf(s, p), WorkflowsOf(s))
    requires Pending(s, states[|states| - 1], p, clock, end, stealing, todo) && r in todo && r !in done
    requires ViewOf(states[|states| - 1], p) == Host.RecoveredOnly(ViewOf(s, p), WorkflowsOf(s), p, clock, done)
    ensures Continues(states, actions, states', actions', p, stealing) && states'[|states'| - 1].clock == clock(r)
    ensures OnlyRun(states[|states| - 1], states'[|states'| - 1], r)
    ensures ViewOf(states'[|states'| - 1], p)
         == Host.RecoveredOnly(ViewOf(s, p), WorkflowsOf(s), p, clock, done + {r})
  {
    var now := states[|states| - 1];
    var v, w := ViewOf(s, p), WorkflowsOf(s);
    PendingFacts(s, now, p, clock, end, stealing, todo, r);
    HistoryLength(states, actions);
    hide Host.RecoveredOnly, History, ViewOf, Host.Put, Host.Adopted, WorkflowsOf, Claimable, Stealable;
    hide Continues, Enabled, Apply, OnlyRun, Pending, Host.Known;
    Host.ClaimedStart(v, w, p, clock, done, r);
    var states1, actions1 := WaitIsAction(states, actions, p, clock(r), stealing);
    var t := states1[|states1| - 1];
    ContinuedHistory(states, actions, states1, actions1, p, stealing);
    states', actions' := AdoptionIsActions(states1, actions1, p, r, stealing);
    ContinuesMore(states, actions, states1, actions1, states', actions', p, stealing);
    SameRunsOnly(now, t, states'[|states'| - 1], r);
  }

  lemma SameRunsOnly(s: System, t: System, u: System, r: RunId)
    requires t.runs == s.runs && OnlyRun(t, u, r)
    ensures OnlyRun(s, u, r)
  {
  }

  lemma PendingFacts(
    s: System, now: System, p: ProcessId, clock: Host.Clock, end: int, stealing: bool, todo: set<RunId>, r: RunId)
    requires Pending(s, now, p, clock, end, stealing, todo) && r in todo && Host.Known(ViewOf(s, p), WorkflowsOf(s))
    ensures var v, w := ViewOf(s, p), WorkflowsOf(s);
            && r in s.runs && p !in s.runs[r].execs && r in v.rows && r in v.events && r in w
            && w[r] == s.runs[r].nodes && v.rows[r] == s.runs[r].row && v.events[r] == s.runs[r].table
    ensures r in now.runs && now.runs[r] == s.runs[r] && now.clock <= clock(r)
    ensures Claimable(s.runs[r].row, clock(r)) && (stealing || !Stealable(s.runs[r], clock(r)))
  {
    hide Stealable, Host.Known;
  }
}
