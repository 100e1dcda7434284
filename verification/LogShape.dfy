/**
 * The log grammar written out: a run is executed in segments, each restarting from the first node,
 * and is closed by at most one terminal event. `Scan` accepts exactly these logs.
 */
module LogShape {
  import opened RunTypes
  import opened LeaseProtocol
  import opened EventTable
  import opened LeaseExclusivity
  import opened LogGrammar

  /** How one execution of the workflow ended, or where it stands. */
  datatype Ending = BetweenNodes | InsideNode | CancelledBefore | CancelledInside | FailedInside

  /** `done` nodes completed, then `ending`. */
  datatype Execution = Execution(done: nat, ending: Ending)

  predicate Supported(nodes: Workflow, k: nat) { forall j: nat :: j < k ==> KindAt(nodes, j) != Unsupported }

  predicate Legal(nodes: Workflow, x: Execution) {
    && x.done <= |nodes|
    && Supported(nodes, x.done)
    && (!x.ending.BetweenNodes? ==> x.done < |nodes|)
    && (x.ending.FailedInside? ==> KindAt(nodes, x.done) == Unsupported)
    && (x.ending.CancelledInside? ==> KindAt(nodes, x.done) == Delay)
  }

  function EndingEvents(x: Execution): seq<Event> {
    match x.ending
    case BetweenNodes => []
    case InsideNode => [NodeStarted(x.done)]
    case CancelledBefore => [NodeCancelled(x.done)]
    case CancelledInside => [NodeStarted(x.done), NodeCancelled(x.done)]
    case FailedInside => [NodeStarted(x.done), NodeFailed(x.done)]
  }

  function Body(x: Execution): seq<Event> { CompletedNodes(x.done) + EndingEvents(x) }

  /** `run.started body (run.resumed body)*`. */
  function Render(xs: seq<Execution>): seq<Event> {
    if xs == [] then []
    else Render(xs[..|xs| - 1]) + ([if |xs| == 1 then RunStarted else RunResumed] + Body(xs[|xs| - 1]))
  }

  /** Which terminal event may close a log whose last execution is `x`. */
  predicate Closes(nodes: Workflow, x: Execution, outcome: Outcome) {
    match x.ending
    case BetweenNodes => outcome == Cancelled || (outcome == Completed && x.done == |nodes|)
    case InsideNode => false
    case CancelledBefore => outcome == Cancelled
    case CancelledInside => outcome == Cancelled
    case FailedInside => outcome == Failed
  }

  ghost predicate Shape(nodes: Workflow, log: seq<Event>, xs: seq<Execution>, tail: seq<Event>) {
    && log == Render(xs) + tail
    && (forall x :: x in xs ==> Legal(nodes, x))
    && (tail == [] || (xs != [] && exists o :: tail == [RunEnded(o)] && Closes(nodes, xs[|xs| - 1], o)))
  }

  function PhaseOf(ending: Ending): Phase {
    match ending
    case BetweenNodes => Ready
    case InsideNode => Started
    case FailedInside => Stopped(Failed)
    case _ => Stopped(Cancelled)
  }

  function StateOf(xs: seq<Execution>, tail: seq<Event>): Scanner {
    if tail != [] && tail[0].RunEnded? then Ended(tail[0].outcome)
    else if xs == [] then Empty
    else Segment(xs[|xs| - 1].done, PhaseOf(xs[|xs| - 1].ending))
  }

  // ---- every accepted log has the shape -----------------------------------------------------------------

  function Extended(x: Execution, e: Event): Execution {
    match e
    case NodeStarted(_) => x.(ending := InsideNode)
    case NodeCompleted(_) => Execution(x.done + 1, BetweenNodes)
    case NodeFailed(_) => x.(ending := FailedInside)
    case _ => x.(ending := if x.ending.InsideNode? then CancelledInside else CancelledBefore)
  }

  lemma ExtendBody(nodes: Workflow, x: Execution, e: Event)
    requires Legal(nodes, x) && (e.NodeStarted? || e.NodeCompleted? || e.NodeFailed? || e.NodeCancelled?)
    requires Scan1(nodes, Segment(x.done, PhaseOf(x.ending)), e) != Bad
    ensures Legal(nodes, Extended(x, e)) && Body(Extended(x, e)) == Body(x) + [e]
    ensures Scan1(nodes, Segment(x.done, PhaseOf(x.ending)), e)
         == Segment(Extended(x, e).done, PhaseOf(Extended(x, e).ending))
  {
    if e.NodeCompleted? {
      assert CompletedNodes(x.done + 1) == CompletedNodes(x.done) + [NodeStarted(x.done), NodeCompleted(x.done)];
    }
  }

  /** Appending to the last execution appends to the whole log. */
  lemma RenderLast(xs: seq<Execution>, x: Execution, e: Event)
    requires xs != []
    requires Body(x) == Body(xs[|xs| - 1]) + [e]
    ensures Render(xs[..|xs| - 1] + [x]) == Render(xs) + [e]
  {
    hide Body;
    var init, last := xs[..|xs| - 1], xs[|xs| - 1];
    var ys := init + [x];
    var header := [if |xs| == 1 then RunStarted else RunResumed];
    assert ys[..|ys| - 1] == init && ys[|ys| - 1] == x;
    assert Render(ys) == Render(init) + (header + Body(x));
    assert Render(xs) == Render(init) + (header + Body(last));
    hide Render;
    Reassociate(Render(init), header, Body(last), [e]);
  }

  lemma Reassociate(a: seq<Event>, b: seq<Event>, c: seq<Event>, d: seq<Event>)
    ensures a + (b + (c + d)) == a + (b + c) + d
  {
  }

  lemma RenderMore(xs: seq<Execution>)
    ensures Render(xs + [Execution(0, BetweenNodes)])
         == Render(xs) + [if xs == [] then RunStarted else RunResumed]
  {
    var ys := xs + [Execution(0, BetweenNodes)];
    assert ys[..|ys| - 1] == xs;
    assert Body(Execution(0, BetweenNodes)) == [];
  }

  /** One accepted event more: the last execution grows, a new one starts, or the log is closed. */
  lemma ShapeAppends(nodes: Workflow, log: seq<Event>, xs: seq<Execution>, e: Event)
    returns (ys: seq<Execution>, tail: seq<Event>)
    requires Shape(nodes, log, xs, []) && Scan1(nodes, StateOf(xs, []), e) != Bad
    ensures Shape(nodes, log + [e], ys, tail) && StateOf(ys, tail) == Scan1(nodes, StateOf(xs, []), e)
  {
    hide Body, Render, EndingEvents, CompletedNodes;
    assert log == Render(xs) by { assert Render(xs) + [] == Render(xs); }
    ys, tail := xs, [];
    if e.RunEnded? {
      tail := [e];
      assert Closes(nodes, xs[|xs| - 1], e.outcome);
    } else if e.RunStarted? || e.RunResumed? {
      RenderMore(xs);
      ys := xs + [Execution(0, BetweenNodes)];
      assert Render(ys) + [] == Render(ys);
    } else {
      var x := xs[|xs| - 1];
      assert x in xs;
      ExtendBody(nodes, x, e);
      RenderLast(xs, Extended(x, e), e);
      ys := xs[..|xs| - 1] + [Extended(x, e)];
      assert Render(ys) + [] == Render(ys);
      assert forall y :: y in ys ==> y in xs || y == Extended(x, e);
    }
  }

  lemma {:induction false} AcceptedLogsHaveShape(nodes: Workflow, log: seq<Event>)
    returns (xs: seq<Execution>, tail: seq<Event>)
    requires WellFormedLog(nodes, log)
    ensures Shape(nodes, log, xs, tail) && StateOf(xs, tail) == Scan(nodes, log)
  {
    if log == [] {
      xs, tail := [], [];
    } else {
      var init, e := log[..|log| - 1], log[|log| - 1];
      xs, tail := AcceptedLogsHaveShape(nodes, init);
      assert log == init + [e];
      assert tail == [];
      xs, tail := ShapeAppends(nodes, init, xs, e);
    }
  }

  // ---- and every log of that shape is accepted ------------------------------------------------------------

  lemma ScanConcat(nodes: Workflow, a: seq<Event>, e: Event, g: Scanner)
    requires Scan(nodes, a) == g
    ensures Scan(nodes, a + [e]) == Scan1(nodes, g, e)
  {
    ScanAppend(nodes, a, e);
  }

  lemma CompletedSnoc(log: seq<Event>, k: nat)
    requires k > 0
    ensures log + CompletedNodes(k)
         == log + CompletedNodes(k - 1) + [NodeStarted(k - 1)] + [NodeCompleted(k - 1)]
  {
  }

  lemma {:induction false} ScanCompleted(nodes: Workflow, log: seq<Event>, k: nat)
    requires Scan(nodes, log) == Segment(0, Ready) && k <= |nodes| && Supported(nodes, k)
    ensures Scan(nodes, log + CompletedNodes(k)) == Segment(k, Ready)
  {
    if k == 0 {
      assert log + [] == log;
    } else {
      hide Scan, CompletedNodes;
      ScanCompleted(nodes, log, k - 1);
      var a := log + CompletedNodes(k - 1);
      ScanConcat(nodes, a, NodeStarted(k - 1), Segment(k - 1, Ready));
      ScanConcat(nodes, a + [NodeStarted(k - 1)], NodeCompleted(k - 1), Segment(k - 1, Started));
      CompletedSnoc(log, k);
    }
  }

  lemma ScanBody(nodes: Workflow, log: seq<Event>, x: Execution)
    requires Scan(nodes, log) == Segment(0, Ready) && Legal(nodes, x)
    ensures Scan(nodes, log + Body(x)) == Segment(x.done, PhaseOf(x.ending))
  {
    hide Scan, CompletedNodes;
    ScanCompleted(nodes, log, x.done);
    var a := log + CompletedNodes(x.done);
    assert log + Body(x) == a + EndingEvents(x);
    hide Body;
    match x.ending {
      case BetweenNodes => assert a + [] == a;
      case InsideNode => ScanConcat(nodes, a, NodeStarted(x.done), Segment(x.done, Ready));
      case CancelledBefore => ScanConcat(nodes, a, NodeCancelled(x.done), Segment(x.done, Ready));
      case CancelledInside =>
        ScanConcat(nodes, a, NodeStarted(x.done), Segment(x.done, Ready));
        ScanConcat(nodes, a + [NodeStarted(x.done)], NodeCancelled(x.done), Segment(x.done, Started));
        assert a + EndingEvents(x) == a + [NodeStarted(x.done)] + [NodeCancelled(x.done)];
      case FailedInside =>
        ScanConcat(nodes, a, NodeStarted(x.done), Segment(x.done, Ready));
        ScanConcat(nodes, a + [NodeStarted(x.done)], NodeFailed(x.done), Segment(x.done, Started));
        assert a + EndingEvents(x) == a + [NodeStarted(x.done)] + [NodeFailed(x.done)];
    }
  }

  lemma RenderSplit(xs: seq<Execution>)
    requires xs != []
    ensures Render(xs) == Render(xs[..|xs| - 1]) + [if |xs| == 1 then RunStarted else RunResumed] + Body(xs[|xs| - 1])
  {
    hide Body;
  }

  lemma {:induction false} ScanRender(nodes: Workflow, xs: seq<Execution>)
    requires forall x :: x in xs ==> Legal(nodes, x)
    ensures Scan(nodes, Render(xs)) == StateOf(xs, [])
  {
    if xs == [] {
      assert Scan(nodes, []) == Empty;
    } else {
      hide Scan, Body, Render;
      var init, x := xs[..|xs| - 1], xs[|xs| - 1];
      assert x in xs;
      assert forall y :: y in init ==> y in xs;
      ScanRender(nodes, init);
      var header := if |xs| == 1 then RunStarted else RunResumed;
      ScanConcat(nodes, Render(init), header, StateOf(init, []));
      ScanBody(nodes, Render(init) + [header], x);
      RenderSplit(xs);
    }
  }

  /** The automaton and the written-out grammar describe the same logs. */
  lemma ShapesAreAccepted(nodes: Workflow, log: seq<Event>, xs: seq<Execution>, tail: seq<Event>)
    requires Shape(nodes, log, xs, tail)
    ensures WellFormedLog(nodes, log) && Scan(nodes, log) == StateOf(xs, tail)
  {
    ScanRender(nodes, xs);
    if tail == [] {
      assert Render(xs) + [] == Render(xs);
    } else {
      ScanConcat(nodes, Render(xs), tail[0], StateOf(xs, []));
      assert xs[|xs| - 1] in xs;
    }
  }

  /**
   * The durable log of a run over any crashes and resumes: executions that each restart at the first
   * node, then at most one terminal event, present as soon as the status is terminal and naming it.
   * The log has that shape if and only if nothing was lost, or one terminal event was lost and
   * nothing has been stored since.
   */
  lemma DurableLogShape(states: seq<System>, actions: seq<Action>, i: nat, r: RunId)
    returns (xs: seq<Execution>, tail: seq<Event>)
    requires UnstolenHistory(states, actions) && i < |states| && r in states[i].runs
    ensures var run := states[i].runs[r];
            && Dense(run.table)
            && (Intact(run) ==>
                  && Shape(run.nodes, Log(run.table), xs, tail)
                  && (run.row.status.Terminal? ==> tail == [RunEnded(run.row.status.outcome)]))
            && (!Intact(run) ==> forall ys, end :: !Shape(run.nodes, Log(run.table), ys, end))
  {
    var run := states[i].runs[r];
    xs, tail := [], [];
    WellFormedIffIntact(states, actions, i, r);
    hide UnstolenHistory, Scan, Render, Dense;
    if Intact(run) {
      xs, tail := AcceptedLogsHaveShape(run.nodes, Log(run.table));
      if run.row.status.Terminal? {
        LogIsWellFormed(states, actions, i, r);
        ClosedShape(run, xs, tail);
      }
    } else {
      forall ys, end | Shape(run.nodes, Log(run.table), ys, end)
        ensures false
      {
        ShapesAreAccepted(run.nodes, Log(run.table), ys, end);
      }
    }
  }

  lemma ClosedShape(run: Run, xs: seq<Execution>, tail: seq<Event>)
    requires GrammarInv(run) && run.row.status.Terminal?
    requires Shape(run.nodes, Log(run.table), xs, tail) && StateOf(xs, tail) == Scan(run.nodes, Log(run.table))
    ensures tail == [RunEnded(run.row.status.outcome)]
  {
  }
}
