/**
 * What the methods of `SqliteHost` do is what the protocol's actions do: the view one process has of
 * a protocol state commutes with every request, timer, shutdown and kill.
 */
module HostHistories {
  import opened RunTypes
  import opened SqliteStatements
  import opened LeaseProtocol
  import opened SqliteTurns
  import Host = SqliteHost

  function RowsOf(runs: map<RunId, Run>): map<RunId, Row> { map r | r in runs :: runs[r].row }

  function TablesOf(runs: map<RunId, Run>): map<RunId, Table> { map r | r in runs :: runs[r].table }

  function ExecutorsOf(runs: map<RunId, Run>, p: ProcessId): map<RunId, Executor> {
    map r | r in runs && p in runs[r].execs :: runs[r].execs[p]
  }

  /** The tables, and the executors of process `p`. */
  function ViewOf(s: System, p: ProcessId): Host.State {
    Host.State(RowsOf(s.runs), TablesOf(s.runs), ExecutorsOf(s.runs, p))
  }

  lemma RowsChange(runs: map<RunId, Run>, r: RunId, run: Run)
    ensures RowsOf(runs[r := run]) == RowsOf(runs)[r := run.row]
  {
  }

  lemma TablesChange(runs: map<RunId, Run>, r: RunId, run: Run)
    ensures TablesOf(runs[r := run]) == TablesOf(runs)[r := run.table]
  {
  }

  lemma ExecutorsChange(runs: map<RunId, Run>, p: ProcessId, r: RunId, run: Run)
    ensures p in run.execs ==> ExecutorsOf(runs[r := run], p) == ExecutorsOf(runs, p)[r := run.execs[p]]
    ensures p !in run.execs && (r !in runs || p !in runs[r].execs) ==>
              ExecutorsOf(runs[r := run], p) == ExecutorsOf(runs, p)
  {
  }

  /** A change to one run on which the process has an executor. */
  lemma OneRunChanges(s: System, p: ProcessId, r: RunId, run: Run)
    requires p in run.execs
    ensures ViewOf(s.(runs := s.runs[r := run]), p) == Host.Put(ViewOf(s, p), r, View(run, p))
  {
    hide RowsOf, TablesOf, ExecutorsOf;
    RowsChange(s.runs, r, run);
    TablesChange(s.runs, r, run);
    ExecutorsChange(s.runs, p, r, run);
  }

  /** A change to one run on which the process has none, before and after. */
  lemma OtherRunChanges(s: System, p: ProcessId, r: RunId, run: Run)
    requires p !in run.execs && (r !in s.runs || p !in s.runs[r].execs)
    ensures var v := ViewOf(s, p);
            ViewOf(s.(runs := s.runs[r := run]), p)
            == Host.State(v.rows[r := run.row], v.events[r := run.table], v.executors)
  {
    hide RowsOf, TablesOf, ExecutorsOf;
    RowsChange(s.runs, r, run);
    TablesChange(s.runs, r, run);
    ExecutorsChange(s.runs, p, r, run);
  }

  /** Writing back the table that is there changes nothing. */
  lemma SameTable(s: System, p: ProcessId, r: RunId)
    requires r in s.runs
    ensures ViewOf(s, p).events[r := s.runs[r].table] == ViewOf(s, p).events
    ensures ViewOf(s, p).rows[r] == s.runs[r].row
  {
    hide ExecutorsOf;
  }

  // ---- requests and timers ------------------------------------------------------------------------------

  lemma CreateIsAction(s: System, p: ProcessId, r: RunId, nodes: Workflow)
    requires r !in s.runs
    ensures Enabled(s, CreateRun(r, nodes))
    ensures ViewOf(Apply(s, CreateRun(r, nodes)), p) == Host.Inserted(ViewOf(s, p), r)
  {
    OtherRunChanges(s, p, r, Created(nodes));
    hide ViewOf;
  }

  lemma ClaimIsAction(s: System, p: ProcessId, r: RunId)
    requires r in s.runs && p !in s.runs[r].execs
    ensures Enabled(s, Claim(p, r))
    ensures r in ViewOf(s, p).rows
    ensures ViewOf(Apply(s, Claim(p, r)), p) == Host.Claimed(ViewOf(s, p), p, r, s.clock)
  {
    var run := ClaimRun(s.runs[r], p, s.clock);
    SameTable(s, p, r);
    assert r in ViewOf(s, p).rows;
    hide ViewOf;
    if Claimable(s.runs[r].row, s.clock) {
      OneRunChanges(s, p, r, run);
    } else {
      OtherRunChanges(s, p, r, run);
    }
  }

  lemma HeartbeatIsAction(s: System, p: ProcessId, r: RunId)
    requires r in s.runs && LiveOn(s.runs[r], p)
    ensures Enabled(s, Heartbeat(p, r)) && Host.Has(ViewOf(s, p), r)
    ensures ViewOf(Apply(s, Heartbeat(p, r)), p) == Host.Renewed(ViewOf(s, p), p, r, s.clock)
  {
    OneRunChanges(s, p, r, HeartbeatRun(s.runs[r], p, s.clock));
  }

  /** A cancel of a closed run does nothing, which needs no action. */
  lemma CancelIsAction(s: System, p: ProcessId, r: RunId)
    requires r in s.runs
    ensures Enabled(s, CancelRequest(p, r)) && r in ViewOf(s, p).rows
    ensures Host.CancelAsked(ViewOf(s, p), r)
         == if s.runs[r].row.status.Terminal? then ViewOf(s, p) else ViewOf(Apply(s, CancelRequest(p, r)), p)
  {
    var run := CancelRun(s.runs[r], p);
    SameTable(s, p, r);
    assert r in ViewOf(s, p).rows;
    assert r in ViewOf(s, p).executors <==> p in s.runs[r].execs;
    assert p in s.runs[r].execs ==> ViewOf(s, p).executors[r] == s.runs[r].execs[p];
    hide ViewOf, Abort;
    if !s.runs[r].row.status.Terminal? {
      if p in s.runs[r].execs {
        OneRunChanges(s, p, r, run);
      } else {
        OtherRunChanges(s, p, r, run);
      }
    }
  }

  lemma WakeIsAction(s: System, p: ProcessId, r: RunId)
    requires r in s.runs && p in s.runs[r].execs && s.runs[r].execs[p].pc.Asleep?
    ensures Enabled(s, TimerFires(p, r)) && Host.Has(ViewOf(s, p), r)
    ensures var l := Host.At(ViewOf(s, p), r);
            ViewOf(Apply(s, TimerFires(p, r)), p) == Host.Put(ViewOf(s, p), r, Suspended(l, Woken(l.exec.pc.i)))
  {
    OneRunChanges(s, p, r, WakeRun(s.runs[r], p));
  }

  /** A shutdown between turns. */
  lemma ShutdownIsAction(s: System, p: ProcessId)
    requires Enabled(s, Shutdown(p))
    ensures ViewOf(Apply(s, Shutdown(p)), p) == Host.Stopped(ViewOf(s, p), p)
  {
    var a, b := ViewOf(Apply(s, Shutdown(p)), p), Host.Stopped(ViewOf(s, p), p);
    assert a.rows == b.rows;
    assert a.events == b.events;
    assert a.executors == b.executors;
  }

  /** A kill forgets everything and writes nothing. */
  lemma KillIsAction(s: System, p: ProcessId)
    ensures ViewOf(Apply(s, Kill(p)), p) == ViewOf(s, p).(executors := map[])
  {
    var a, b := ViewOf(Apply(s, Kill(p)), p), ViewOf(s, p);
    assert a.rows == b.rows;
    assert a.events == b.events;
    assert a.executors == map[];
  }

  // ---- what other processes see ---------------------------------------------------------------------------

  /** No action of one process touches what another one remembers. */
  predicate ActsFor(a: Action, p: ProcessId) { a.Tick? || a.CreateRun? || a.pid == p }

  lemma MoveRemembers(run: Run, m: Move, clock: int, p: ProcessId, q: ProcessId)
    requires CanMove(run, m) && (m.Stay? || m.pid == p) && p != q
    ensures q in Moved(run, m, clock).execs <==> q in run.execs
    ensures q in run.execs ==> Moved(run, m, clock).execs[q] == run.execs[q]
  {
    hide Step;
  }

  lemma OthersRemember(s: System, a: Action, p: ProcessId, q: ProcessId)
    requires Enabled(s, a) && ActsFor(a, p) && p != q
    ensures ViewOf(Apply(s, a), q).executors == ViewOf(s, q).executors
  {
    hide Apply, Enabled;
    var t := Apply(s, a);
    forall r | r in s.runs
      ensures r in t.runs && (q in t.runs[r].execs <==> q in s.runs[r].execs)
      ensures q in s.runs[r].execs ==> t.runs[r].execs[q] == s.runs[r].execs[q]
    {
      ApplyMovesRun(s, a, r);
      MoveIsOwn(s, a, r, p);
      MoveRemembers(s.runs[r], MoveOf(s, a, r), s.clock, p, q);
    }
    forall r | r in t.runs && r !in s.runs ensures q !in t.runs[r].execs {
      NewRunsAreCreated(s, a, r);
    }
  }

  lemma MoveIsOwn(s: System, a: Action, r: RunId, p: ProcessId)
    requires Enabled(s, a) && ActsFor(a, p) && r in s.runs
    ensures MoveOf(s, a, r).Stay? || MoveOf(s, a, r).pid == p
  {
    hide AdvanceRun;
  }
}
