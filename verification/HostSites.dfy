/**
 * Any number of `SqliteHost` processes over one database: what they share, what each remembers, what
 * one turn of one of them does, and the protocol state behind it all.
 */
module HostSites {
  import opened RunTypes
  import opened SqliteStatements
  import opened LeaseProtocol
  import opened LeaseExclusivity
  import opened SqliteTurns
  import opened HostHistories
  import Host = SqliteHost

  type Workflows = map<RunId, Workflow>

  type Memory = map<RunId, Executor>

  /** The database, the clock, and the suspended executors each process remembers. */
  datatype Site = Site(clock: int, rows: map<RunId, Row>, events: map<RunId, Table>, memories: map<ProcessId, Memory>)

  /** What one turn of the event loop of process `pid` does, or what happens to that process. */
  datatype HostAction =
    | Waits(now: int)
    | Inserts(pid: ProcessId, run: RunId)
    | Executes(pid: ProcessId, run: RunId)
    | Resumes(pid: ProcessId, run: RunId)
    | Wakes(pid: ProcessId, run: RunId)
    | Cancels(pid: ProcessId, run: RunId)
    | Beats(pid: ProcessId, run: RunId)
    | Dies(pid: ProcessId)
    | Stops(pid: ProcessId)
    | Boots(pid: ProcessId, clock: Host.Clock, end: int)

  function MemoryOf(h: Site, p: ProcessId): Memory { if p in h.memories then h.memories[p] else map[] }

  /** The state the methods of process `p` read and write. */
  function Seen(h: Site, p: ProcessId): Host.State { Host.State(h.rows, h.events, MemoryOf(h, p)) }

  function With(h: Site, p: ProcessId, st: Host.State): Site {
    h.(rows := st.rows, events := st.events, memories := h.memories[p := st.executors])
  }

  predicate Consistent(w: Workflows, h: Site) { h.rows.Keys == h.events.Keys && h.rows.Keys <= w.Keys }

  ghost predicate HostEnabled(w: Workflows, h: Site, a: HostAction) {
    match a
    case Waits(now) => h.clock <= now
    case Inserts(_, r) => r !in h.rows && r in w
    case Executes(p, r) => r in h.rows && r !in MemoryOf(h, p)
    case Resumes(p, r) =>
      Host.Has(Seen(h, p), r) && AtAwait(MemoryOf(h, p)[r].pc) && Runnable(MemoryOf(h, p)[r].pc)
    case Wakes(p, r) => Host.Has(Seen(h, p), r) && MemoryOf(h, p)[r].pc.Asleep?
    case Cancels(_, r) => r in h.rows
    case Beats(p, r) => Host.Has(Seen(h, p), r) && Live(MemoryOf(h, p)[r])
    case Dies(_) => true
    case Stops(_) => true
    case Boots(p, clock, end) => MemoryOf(h, p) == map[] && h.clock <= end && forall r :: h.clock <= clock(r) <= end
  }

  /** Each action as the contract of its method gives it; `Executes` is `TryClaim`, then `RunWorkflow`. */
  ghost function HostApply(w: Workflows, h: Site, a: HostAction): (h': Site)
    requires Consistent(w, h) && HostEnabled(w, h, a)
    ensures Consistent(w, h')
  {
    match a
    case Waits(now) => h.(clock := now)
    case Inserts(p, r) => With(h, p, Host.Inserted(Seen(h, p), r))
    case Executes(p, r) =>
      if Claimable(h.rows[r], h.clock)
      then With(h, p, Host.Put(Seen(h, p), r, Host.Adopted(h.rows[r], h.events[r], w[r], p, h.clock)))
      else h
    case Resumes(p, r) => With(h, p, Host.Put(Seen(h, p), r, ResumeTurn(w[r], p, Host.At(Seen(h, p), r))))
    case Wakes(p, r) =>
      var l := Host.At(Seen(h, p), r);
      With(h, p, Host.Put(Seen(h, p), r, Suspended(l, Woken(l.exec.pc.i))))
    case Cancels(p, r) => With(h, p, Host.CancelAsked(Seen(h, p), r))
    case Beats(p, r) => With(h, p, Host.Renewed(Seen(h, p), p, r, h.clock))
    case Dies(p) => With(h, p, Seen(h, p).(executors := map[]))
    case Stops(p) => With(h, p, Host.Stopped(Seen(h, p), p))
    case Boots(p, clock, end) => With(h, p, Host.Recovered(Seen(h, p), w, p, h.clock, clock)).(clock := end)
  }

  ghost predicate HostExecution(w: Workflows, hs: seq<Site>, acts: seq<HostAction>) {
    && |hs| == |acts| + 1
    && hs[0].rows == map[] && hs[0].events == map[] && hs[0].memories == map[]
    && forall n :: 0 <= n < |acts| ==>
         Consistent(w, hs[n]) && HostEnabled(w, hs[n], acts[n]) && hs[n + 1] == HostApply(w, hs[n], acts[n])
  }

  // ---- between turns every executor is at an await -------------------------------------------------------

  ghost predicate Rested(h: Site) {
    forall p, r :: p in h.memories && r in h.memories[p] ==> AtAwait(h.memories[p][r].pc)
  }

  lemma LoopRests(nodes: Workflow, pid: ProcessId, l: Local, i: nat)
    ensures AtAwait(LoopTurn(nodes, pid, l, i).exec.pc)
  {
  }

  lemma TurnsRest(nodes: Workflow, pid: ProcessId, l: Local)
    ensures AtAwait(StartTurn(nodes, pid, l).exec.pc)
    ensures AtAwait(l.exec.pc) ==> AtAwait(ResumeTurn(nodes, pid, l).exec.pc)
  {
    hide LoopTurn, HasStarted;
    var running := l.(row := l.row.(status := Running));
    LoopRests(nodes, pid, Appended(running, if HasStarted(l.table) then RunResumed else RunStarted), 0);
    if l.exec.pc.Returned? {
      LoopRests(nodes, pid, l, l.exec.pc.i + 1);
    }
  }

  lemma RecoveredRests(w: Workflows, h: Site, p: ProcessId, clock: Host.Clock)
    requires Consistent(w, h)
    ensures forall r :: r in Host.Recovered(Seen(h, p), w, p, h.clock, clock).executors ==>
              AtAwait(Host.Recovered(Seen(h, p), w, p, h.clock, clock).executors[r].pc)
  {
    hide StartTurn, Orphan, AcquireClaim;
    forall r | r in h.rows
      ensures AtAwait(Host.Adopted(h.rows[r], h.events[r], w[r], p, clock(r)).exec.pc)
    {
      TurnsRest(w[r], p, Local(AcquireClaim(h.rows[r], p, clock(r)), h.events[r], FRESH));
    }
  }

  /** The executors that process `a.pid` has after its action, one by one. */
  lemma MemoryAfter(w: Workflows, h: Site, a: HostAction)
    requires Consistent(w, h) && HostEnabled(w, h, a) && !a.Waits? && !a.Boots?
    requires forall r :: r in MemoryOf(h, a.pid) ==> AtAwait(MemoryOf(h, a.pid)[r].pc)
    ensures forall r :: r in MemoryOf(HostApply(w, h, a), a.pid) ==> AtAwait(MemoryOf(HostApply(w, h, a), a.pid)[r].pc)
  {
    hide StartTurn, ResumeTurn, AcquireClaim;
    match a {
      case Executes(p, r) => TurnsRest(w[r], p, Local(AcquireClaim(h.rows[r], p, h.clock), h.events[r], FRESH));
      case Resumes(p, r) => TurnsRest(w[r], p, Host.At(Seen(h, p), r));
      case _ =>
    }
  }

  lemma OtherMemories(w: Workflows, h: Site, a: HostAction, q: ProcessId)
    requires Consistent(w, h) && HostEnabled(w, h, a) && (a.Waits? || q != a.pid)
    ensures q in HostApply(w, h, a).memories <==> q in h.memories
    ensures q in h.memories ==> HostApply(w, h, a).memories[q] == h.memories[q]
  {
    hide StartTurn, ResumeTurn, Host.Recovered, Host.Adopted;
  }

  lemma ActionRests(w: Workflows, h: Site, a: HostAction)
    requires Consistent(w, h) && HostEnabled(w, h, a) && Rested(h)
    ensures Rested(HostApply(w, h, a))
  {
    var h' := HostApply(w, h, a);
    if a.Boots? {
      RecoveredRests(w, h, a.pid, a.clock);
      assert MemoryOf(h', a.pid) == Host.Recovered(Seen(h, a.pid), w, a.pid, h.clock, a.clock).executors;
    } else if !a.Waits? {
      MemoryAfter(w, h, a);
    }
    hide HostApply, HostEnabled, Host.Recovered;
    forall q, r | q in h'.memories && r in h'.memories[q] ensures AtAwait(h'.memories[q][r].pc) {
      if a.Waits? || q != a.pid {
        OtherMemories(w, h, a, q);
      } else {
        assert MemoryOf(h', q) == h'.memories[q];
      }
    }
  }

  lemma {:induction false} SitesRest(w: Workflows, hs: seq<Site>, acts: seq<HostAction>, n: nat)
    requires HostExecution(w, hs, acts) && n < |hs|
    ensures Rested(hs[n])
  {
    if n > 0 {
      hide HostEnabled, HostApply, Rested;
      SitesRest(w, hs, acts, n - 1);
      ActionRests(w, hs[n - 1], acts[n - 1]);
    } else {
      assert hs[0].memories == map[];
      hide HostExecution;
    }
  }

  // ---- the protocol state behind a site ------------------------------------------------------------------

  /** Every process sees the protocol state as its tables and executors. */
  ghost predicate Matches(w: Workflows, h: Site, s: System) {
    && s.clock == h.clock
    && (forall p :: ViewOf(s, p) == Seen(h, p))
    && (forall r :: r in s.runs ==> r in w && s.runs[r].nodes == w[r])
  }

  /** One process has acted, and no other process's executors have changed. */
  lemma MatchesMore(w: Workflows, h: Site, s: System, t: System, p: ProcessId, st: Host.State)
    requires Matches(w, h, s) && ViewOf(t, p) == st
    requires forall q :: q != p ==> ViewOf(t, q).executors == ViewOf(s, q).executors
    requires forall r :: r in t.runs ==> r in w && t.runs[r].nodes == w[r]
    ensures Matches(w, With(h, p, st).(clock := t.clock), t)
  {
    hide RowsOf, TablesOf, ExecutorsOf;
    var h' := With(h, p, st).(clock := t.clock);
    forall q ensures ViewOf(t, q) == Seen(h', q) {
      if q != p {
        assert ViewOf(t, q).executors == ViewOf(s, q).executors;
        assert ViewOf(s, q) == Seen(h, q);
      }
    }
  }

  /** A single action of process `p`. */
  lemma ActionMatches(w: Workflows, h: Site, s: System, a: Action, p: ProcessId)
    requires Matches(w, h, s) && Enabled(s, a) && ActsFor(a, p)
    requires a.CreateRun? ==> a.run in w && a.nodes == w[a.run]
    ensures Matches(w, With(h, p, ViewOf(Apply(s, a), p)).(clock := Apply(s, a).clock), Apply(s, a))
  {
    var t := Apply(s, a);
    forall r | r in t.runs ensures r in w && t.runs[r].nodes == w[r] {
      if r in s.runs {
        WorkflowStays(s, a, r);
      }
    }
    hide Apply, Enabled, ViewOf, With;
    forall q | q != p ensures ViewOf(t, q).executors == ViewOf(s, q).executors {
      OthersRemember(s, a, p, q);
    }
    MatchesMore(w, h, s, t, p, ViewOf(t, p));
  }

  lemma WorkflowStays(s: System, a: Action, r: RunId)
    requires Enabled(s, a) && r in s.runs
    ensures r in Apply(s, a).runs && Apply(s, a).runs[r].nodes == s.runs[r].nodes
  {
    hide Step;
  }

  // ---- what must not happen ---------------------------------------------------------------------------------

  /** Some process still remembers an unfinished executor for run `r`. */
  ghost predicate Alive(h: Site, r: RunId, p: ProcessId) { r in MemoryOf(h, p) && Live(MemoryOf(h, p)[r]) }

  /** A claim takes an open run whose lease has lapsed, and somebody still executes it. */
  ghost predicate HostSteals(h: Site, a: HostAction) {
    match a
    case Executes(_, r) =>
      r in h.rows && !h.rows[r].status.Terminal? && Lapsed(h.rows[r], h.clock) && exists q :: Alive(h, r, q)
    case Boots(_, clock, _) =>
      exists r, q :: r in h.rows && Orphan(h.rows[r], h.clock) && Lapsed(h.rows[r], clock(r)) && Alive(h, r, q)
    case _ => false
  }

  lemma AliveIsLive(w: Workflows, h: Site, s: System, r: RunId, p: ProcessId)
    requires Matches(w, h, s) && r in s.runs
    ensures r in h.rows && h.rows[r] == s.runs[r].row && r in h.events && h.events[r] == s.runs[r].table
    ensures Alive(h, r, p) <==> LiveOn(s.runs[r], p)
    ensures r in MemoryOf(h, p) <==> p in s.runs[r].execs
    ensures r in MemoryOf(h, p) ==> MemoryOf(h, p)[r] == s.runs[r].execs[p]
  {
    var v := ViewOf(s, p);
    assert v == Seen(h, p);
    assert v.rows[r] == s.runs[r].row && v.events[r] == s.runs[r].table;
    assert r in v.executors <==> p in s.runs[r].execs;
  }

  lemma RowsAreRuns(w: Workflows, h: Site, s: System)
    requires Matches(w, h, s)
    ensures h.rows.Keys == s.runs.Keys
  {
    assert ViewOf(s, "") == Seen(h, "");
  }

  lemma StealableIsAlive(w: Workflows, h: Site, s: System, r: RunId, now: int)
    requires Matches(w, h, s) && r in s.runs && Stealable(s.runs[r], now)
    ensures r in h.rows && h.rows[r] == s.runs[r].row
    ensures !h.rows[r].status.Terminal? && Lapsed(h.rows[r], now) && exists q :: Alive(h, r, q)
  {
    hide Matches, Alive, Lapsed;
    var q :| LiveOn(s.runs[r], q);
    AliveIsLive(w, h, s, r, q);
  }
}
