/**
 * The two grains joined: a turn of a host process, as `SqliteHost` performs it, is a history of
 * single statements of the lease protocol in which nobody else moves. What holds of all histories
 * therefore holds of processes that run turn by turn.
 */
module TurnHistories {
  import opened Options
  import opened RunTypes
  import opened SqliteStatements
  import opened LeaseProtocol
  import opened EventTable
  import opened ExecutorProgress
  import opened SqliteTurns

  /** No INSERT of this executor can conflict right now. */
  ghost predicate Undisturbed(l: Local) {
    Dense(l.table) && (l.exec.pc.InsertEvent? ==> l.exec.pc.at == |l.table|)
  }

  lemma StepUndisturbed(nodes: Workflow, pid: ProcessId, l: Local)
    requires Undisturbed(l) && Runnable(l.exec.pc)
    ensures Undisturbed(Step(nodes, pid, l)) && !Step(nodes, pid, l).exec.pc.Fatal?
  {
    hide Dense;
    if l.exec.pc.InsertEvent? {
      LogAppends(l.table, l.exec.pc.event);
      assert l.exec.pc.at !in l.table by { NextIsFree(l.table); }
    }
  }

  lemma NextIsFree(t: Table)
    requires Dense(t)
    ensures |t| !in t
  {
  }

  /** The run with one executor's view replaced. */
  function WithView(run: Run, p: ProcessId, l: Local): Run {
    run.(row := l.row, table := l.table, execs := run.execs[p := l.exec])
  }

  /** `to` extends `from` by statements of process `p` on run `r` alone. */
  ghost predicate OnlyAdvances(from: seq<Action>, to: seq<Action>, p: ProcessId, r: RunId) {
    from <= to && forall k :: |from| <= k < |to| ==> to[k] == Advance(p, r)
  }

  lemma AdvanceAction(s: System, p: ProcessId, r: RunId)
    requires r in s.runs && p in s.runs[r].execs && Runnable(s.runs[r].execs[p].pc)
    requires Undisturbed(View(s.runs[r], p))
    ensures Enabled(s, Advance(p, r))
    ensures Apply(s, Advance(p, r))
         == s.(runs := s.runs[r := WithView(s.runs[r], p, Step(s.runs[r].nodes, p, View(s.runs[r], p)))])
  {
    StepUndisturbed(s.runs[r].nodes, p, View(s.runs[r], p));
    hide Step;
  }

  /** Statements in a row reach the await that `RunToAwait` computes. */
  lemma {:induction false} StatementsReachAwait(states: seq<System>, actions: seq<Action>, p: ProcessId, r: RunId)
    returns (states': seq<System>, actions': seq<Action>)
    requires History(states, actions)
    requires var s := states[|states| - 1];
             r in s.runs && p in s.runs[r].execs && Undisturbed(View(s.runs[r], p))
    ensures History(states', actions') && states <= states' && OnlyAdvances(actions, actions', p, r)
    ensures var s := states[|states| - 1];
            states'[|states'| - 1]
            == s.(runs := s.runs[r := WithView(s.runs[r], p, RunToAwait(s.runs[r].nodes, p, View(s.runs[r], p)))])
    decreases Rank(states[|states| - 1].runs[r].nodes, states[|states| - 1].runs[r].execs[p])
  {
    hide Step, Undisturbed, Rank, Apply, Enabled;
    var s := states[|states| - 1];
    var run := s.runs[r];
    var l := View(run, p);
    if AtAwait(l.exec.pc) {
      AwaitStops(run.nodes, p, l);
      assert run.execs[p := run.execs[p]] == run.execs && s.runs[r := run] == s.runs;
      return states, actions;
    }
    AdvanceAction(s, p, r);
    StepUndisturbed(run.nodes, p, l);
    StatementLowersRank(run.nodes, p, l);
    OneStatement(run.nodes, p, l);
    var l' := Step(run.nodes, p, l);
    var run' := WithView(run, p, l');
    var s' := s.(runs := s.runs[r := run']);
    HistorySnoc(states, actions, Advance(p, r));
    assert View(run', p) == l';
    states', actions' := StatementsReachAwait(states + [s'], actions + [Advance(p, r)], p, r);
    hide History, RunToAwait;
    var end := RunToAwait(run.nodes, p, l);
    assert run'.execs[p := end.exec] == run.execs[p := end.exec];
    assert s'.runs[r := WithView(run, p, end)] == s.runs[r := WithView(run, p, end)];
    assert WithView(run', p, end) == WithView(run, p, end);
  }

  /** A turn after an await, from any reachable state, is part of some history. */
  lemma TurnIsHistory(states: seq<System>, actions: seq<Action>, p: ProcessId, r: RunId)
    returns (states': seq<System>, actions': seq<Action>)
    requires History(states, actions)
    requires var s := states[|states| - 1];
             r in s.runs && p in s.runs[r].execs && Runnable(s.runs[r].execs[p].pc)
    requires var pc := states[|states| - 1].runs[r].execs[p].pc; AtAwait(pc) || pc.LoadRun?
    ensures History(states', actions') && states <= states' && OnlyAdvances(actions, actions', p, r)
    ensures var s := states[|states| - 1];
            var l := View(s.runs[r], p);
            var turn := if l.exec.pc.LoadRun? then StartTurn(s.runs[r].nodes, p, l)
                        else ResumeTurn(s.runs[r].nodes, p, l);
            states'[|states'| - 1] == s.(runs := s.runs[r := WithView(s.runs[r], p, turn)])
  {
    hide Step, Rank, Apply, Enabled, RunToAwait, StartTurn, ResumeTurn;
    var s := states[|states| - 1];
    var run := s.runs[r];
    var l := View(run, p);
    SequenceIsDense(states, actions, |states| - 1, r);
    if l.exec.pc.LoadRun? {
      StartIsStatements(run.nodes, p, l);
      states', actions' := StatementsReachAwait(states, actions, p, r);
    } else {
      ResumeIsStatements(run.nodes, p, l);
      AdvanceAction(s, p, r);
      StepUndisturbed(run.nodes, p, l);
      var l' := Step(run.nodes, p, l);
      var run' := WithView(run, p, l');
      HistorySnoc(states, actions, Advance(p, r));
      assert View(run', p) == l';
      var s' := s.(runs := s.runs[r := run']);
      states', actions' := StatementsReachAwait(states + [s'], actions + [Advance(p, r)], p, r);
      hide History;
      var end := RunToAwait(run.nodes, p, l');
      assert run'.execs[p := end.exec] == run.execs[p := end.exec];
      assert WithView(run', p, end) == WithView(run, p, end);
    }
  }
}
