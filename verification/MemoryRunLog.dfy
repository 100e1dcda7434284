/** What the log of an in-memory run can look like, and what a cancel does to it. */
module MemoryRunLog {
  import opened RunTypes
  import opened EventLog
  import opened MemoryRun

  // ---- the log only grows, towards one trace --------------------------------------------------------------

  lemma AppendGrows(s: State, e: Event)
    ensures Append(s, e).log == s.log + [Entry(|s.log|, e)]
    ensures Append(s, e).pc == s.pc && Append(s, e).cancelRequested == s.cancelRequested
  {
  }

  lemma LoopGrows(nodes: Workflow, s: State, i: nat)
    ensures s.log <= LoopTurn(nodes, s, i).log
  {
    hide Append;
    AppendGrows(s.(status := Ended(Cancelled)), RunEnded(Cancelled));
    AppendGrows(s.(status := Ended(Completed)), RunEnded(Completed));
    AppendGrows(s, NodeCancelled(i));
    AppendGrows(s, NodeStarted(i));
    AppendGrows(Append(s, NodeStarted(i)), NodeCompleted(i));
    AppendGrows(Append(s, NodeStarted(i)), NodeFailed(i));
  }

  lemma StepGrows(nodes: Workflow, s: State, a: Action)
    requires Enabled(s, a)
    ensures s.log <= Apply(nodes, s, a).log
  {
    hide Append, LoopTurn;
    match s.pc {
      case Woken(i) => AppendGrows(s, NodeCompleted(i));
      case Aborted(i) => AppendGrows(s, NodeCancelled(i));
      case Returned(i, outcome) =>
        AppendGrows(s.(status := Ended(outcome)), RunEnded(outcome));
        LoopGrows(nodes, s, i + 1);
      case _ =>
    }
  }

  lemma {:induction false} LogGrows(nodes: Workflow, states: seq<State>, actions: seq<Action>, i: nat, j: nat)
    requires History(nodes, states, actions) && i <= j < |states|
    ensures states[i].log <= states[j].log
    decreases j
  {
    if i < j {
      hide Apply, Enabled;
      assert Enabled(states[j - 1], actions[j - 1]);
      LogGrows(nodes, states, actions, i, j - 1);
      StepGrows(nodes, states[j - 1], actions[j - 1]);
    }
  }

  lemma {:induction false} CompletedPrefix(i: nat, k: nat)
    requires i <= k
    ensures CompletedNodes(i) <= CompletedNodes(k)
    ensures i < k ==> CompletedNodes(i) + [NodeStarted(i)] <= CompletedNodes(k)
  {
    if i < k {
      CompletedPrefix(i, k - 1);
    }
  }

  lemma NumberedPrefix(a: seq<Event>, b: seq<Event>)
    requires a <= b
    ensures Numbered(a) <= Numbered(b)
  {
  }

  /** While the run is undisturbed, what is stored leads up to the complete run. */
  lemma UndisturbedPrefix(nodes: Workflow, i: nat)
    requires i < Supported(nodes)
    ensures [RunStarted] + CompletedNodes(i) + [NodeStarted(i)] <= Trace(nodes, Never)
    ensures [RunStarted] + CompletedNodes(i + 1) <= Trace(nodes, Never)
  {
    CompletedPrefix(i, Supported(nodes));
    CompletedPrefix(i + 1, Supported(nodes));
    hide CompletedNodes, Supported;
  }

  lemma StoredIsPrefix(nodes: Workflow, s: State, c: CancelPoint)
    requires PcFits(nodes, s, c)
    ensures Stored(nodes, s.pc, c) <= Trace(nodes, c)
  {
    hide Supported;
    match s.pc {
      case Sleeping(i) => UndisturbedPrefix(nodes, i);
      case Woken(i) =>
        UndisturbedPrefix(nodes, i);
        CompletedPrefix(i, i + 1);
      case Returned(i, Completed) => UndisturbedPrefix(nodes, i);
      case _ =>
    }
    hide CompletedNodes;
  }

  /**
   * Run-loop refinement: one trace, fixed by the workflow and by where the first cancel landed,
   * contains the log of every moment up to now as a prefix.
   */
  lemma LogIsPrefixOfTrace(nodes: Workflow, states: seq<State>, actions: seq<Action>, i: nat, j: nat)
    requires History(nodes, states, actions) && i <= j < |states|
    ensures states[i].log <= Numbered(Trace(nodes, CancelPointAt(states, actions, j)))
  {
    var c := CancelPointAt(states, actions, j);
    hide History, Stored, PcFits, Trace, Numbered, Supported;
    TraceHolds(nodes, states, actions, j);
    StoredIsPrefix(nodes, states[j], c);
    NumberedPrefix(Stored(nodes, states[j].pc, c), Trace(nodes, c));
    LogGrows(nodes, states, actions, i, j);
  }

  /** `completed` means every node ran, in order, and nothing else happened. */
  lemma {:induction false} CompletedExactly(nodes: Workflow, states: seq<State>, actions: seq<Action>, i: nat)
    requires History(nodes, states, actions) && i < |states|
    ensures states[i].status == Ended(Completed) <==>
              states[i].pc.Finished? && CancelPointAt(states, actions, i).Never? && Unsupported !in nodes
    ensures states[i].status == Ended(Completed) ==>
              && states[i].log == Numbered([RunStarted] + CompletedNodes(|nodes|) + [RunEnded(Completed)])
              && |states[i].log| == 2 * |nodes| + 2
  {
    hide History, Numbered, CompletedNodes;
    TraceHolds(nodes, states, actions, i);
    assert Supported(nodes) == |nodes| <==> Unsupported !in nodes;
  }

  /** A terminal event is always last, and there is one exactly when the status is terminal. */
  lemma TerminalEventIsLast(nodes: Workflow, states: seq<State>, actions: seq<Action>, i: nat, k: nat)
    requires History(nodes, states, actions) && i < |states| && k < |states[i].log|
    ensures states[i].log[k].at == k
    ensures states[i].log[k].event.RunEnded? <==> states[i].status.Ended? && k == |states[i].log| - 1
    ensures states[i].status.Ended? ==> states[i].log[|states[i].log| - 1].event == RunEnded(states[i].status.outcome)
  {
    var c := CancelPointAt(states, actions, i);
    hide History, Supported, Trace, Stored;
    TraceHolds(nodes, states, actions, i);
    if states[i].pc.Finished? {
      EndOfTrace(nodes, c, k);
    } else {
      NoEndStored(nodes, states[i].pc, c, k);
    }
  }

  lemma EndOfTrace(nodes: Workflow, c: CancelPoint, k: nat)
    ensures var t := Trace(nodes, c);
            && t != [] && t[|t| - 1] == RunEnded(OutcomeOf(nodes, c))
            && (k < |t| ==> (t[k].RunEnded? <==> k == |t| - 1))
  {
    NoEndAmongNodes(if c.AfterNode? then c.i + 1 else if c.DuringSleep? then c.i else Supported(nodes));
    hide CompletedNodes, Supported;
  }

  lemma NoEndStored(nodes: Workflow, pc: Pc, c: CancelPoint, k: nat)
    requires !pc.Finished? && k < |Stored(nodes, pc, c)|
    ensures !Stored(nodes, pc, c)[k].RunEnded?
  {
    match pc {
      case Sleeping(n) => NoEndAmongNodes(n);
      case Woken(n) => NoEndAmongNodes(n);
      case Aborted(n) => NoEndAmongNodes(n);
      case Returned(n, outcome) => NoEndAmongNodes(if outcome.Completed? then n + 1 else n);
    }
    hide CompletedNodes, Trace;
  }

  lemma {:induction false} NoEndAmongNodes(k: nat)
    ensures forall j :: 0 <= j < 2 * k ==> !CompletedNodes(k)[j].RunEnded? && !CompletedNodes(k)[j].NodeCancelled?
  {
    if k > 0 {
      NoEndAmongNodes(k - 1);
    }
  }

  lemma CancelFollowsStart(nodes: Workflow, pc: Pc, c: CancelPoint, k: nat)
    requires k < |Stored(nodes, pc, c)| && Stored(nodes, pc, c)[k].NodeCancelled?
    ensures k > 0 && Stored(nodes, pc, c)[k - 1] == NodeStarted(Stored(nodes, pc, c)[k].node)
  {
    match pc {
      case Finished =>
        NoEndAmongNodes(if c.AfterNode? then c.i + 1 else if c.DuringSleep? then c.i else Supported(nodes));
      case Returned(n, outcome) => NoEndAmongNodes(if outcome.Completed? then n + 1 else n);
      case Sleeping(n) => NoEndAmongNodes(n);
      case Woken(n) => NoEndAmongNodes(n);
      case Aborted(n) => NoEndAmongNodes(n);
    }
    hide CompletedNodes, Supported;
  }

  /**
   * A node is cancelled only after it has started: the check for a cancel on entry to `executeNode`
   * never finds one.
   */
  lemma CancelledNodesHadStarted(nodes: Workflow, states: seq<State>, actions: seq<Action>, i: nat, k: nat)
    requires History(nodes, states, actions) && i < |states| && k < |states[i].log|
    requires states[i].log[k].event.NodeCancelled?
    ensures k > 0 && states[i].log[k - 1].event == NodeStarted(states[i].log[k].event.node)
  {
    var c := CancelPointAt(states, actions, i);
    TraceHolds(nodes, states, actions, i);
    hide History, Stored;
    CancelFollowsStart(nodes, states[i].pc, c, k);
  }

  // ---- cancels ------------------------------------------------------------------------------------------------

  /** Turns an executor still needs once its cancel is in. */
  function TurnsLeft(pc: Pc): nat {
    match pc
    case Woken(_) => 2
    case Aborted(_) => 2
    case Returned(_, _) => 1
    case _ => 0
  }

  function Resumes(actions: seq<Action>): nat {
    if actions == [] then 0 else Resumes(actions[..|actions| - 1]) + if actions[|actions| - 1].Resume? then 1 else 0
  }

  /** What a cancelled run looks like; `n` is the length of its log when the cancel was answered. */
  predicate Winding(s: State, n: nat, failed: bool) {
    && s.cancelRequested && n <= |s.log| && !s.pc.Sleeping? && !s.pc.NotStarted?
    && (forall k :: n <= k < |s.log| ==> !s.log[k].event.NodeStarted?)
    && (s.pc.Finished? <==> s.status.Ended?)
    && (s.pc.Finished? ==> s.status == Ended(if failed then Failed else Cancelled))
    && (failed ==> (s.pc.Returned? && s.pc.outcome.Failed?) || s.pc.Finished?)
    && (!failed ==> !(s.pc.Returned? && s.pc.outcome.Failed?))
  }

  lemma CancelStartsWinding(nodes: Workflow, s: State, c: CancelPoint)
    requires TraceInv(nodes, s, c) && !s.status.Ended?
    ensures Winding(CancelTurn(s), |s.log|, s.pc.Returned? && s.pc.outcome.Failed?)
  {
  }

  lemma StepKeepsWinding(nodes: Workflow, s: State, a: Action, n: nat, failed: bool)
    requires Winding(s, n, failed) && Enabled(s, a)
    ensures Winding(Apply(nodes, s, a), n, failed)
    ensures TurnsLeft(Apply(nodes, s, a).pc) + (if a.Resume? then 1 else 0) == TurnsLeft(s.pc)
  {
    hide Append;
    match s.pc {
      case Woken(i) => AppendGrows(s, NodeCompleted(i)); AppendKeepsStatus(s, NodeCompleted(i));
      case Aborted(i) => AppendGrows(s, NodeCancelled(i)); AppendKeepsStatus(s, NodeCancelled(i));
      case Returned(i, outcome) =>
        var o := if outcome.Failed? then Failed else Cancelled;
        AppendGrows(s.(status := Ended(o)), RunEnded(o));
        AppendKeepsStatus(s.(status := Ended(o)), RunEnded(o));
      case _ =>
    }
  }

  lemma AppendKeepsStatus(s: State, e: Event)
    ensures Append(s, e).status == s.status
  {
  }

  /**
   * A cancel answered `cancelling`: no node starts any more, the run never completes, it fails only
   * if the current node had already failed, and it ends after at most two turns, none of which waits
   * for a timer.
   */
  lemma {:induction false} CancelIsHonoured(
    nodes: Workflow, states: seq<State>, actions: seq<Action>, i: nat, j: nat)
    requires History(nodes, states, actions) && i < j < |states|
    requires actions[i].Cancel? && !states[i].status.Ended?
    ensures Winding(states[j], |states[i].log|, states[i].pc.Returned? && states[i].pc.outcome.Failed?)
    ensures Resumes(actions[i + 1..j]) + TurnsLeft(states[j].pc) == TurnsLeft(states[i + 1].pc) <= 2
    ensures Resumes(actions[i + 1..j]) >= 2 ==> states[j].status.Ended?
    decreases j
  {
    hide Winding, Apply, Enabled, CancelTurn;
    assert Enabled(states[j - 1], actions[j - 1]);
    if j == i + 1 {
      TraceHolds(nodes, states, actions, i);
      CancelStartsWinding(nodes, states[i], CancelPointAt(states, actions, i));
      assert actions[i + 1..j] == [];
      CancelIsApplied(nodes, states[i], actions[i]);
    } else {
      CancelIsHonoured(nodes, states, actions, i, j - 1);
      StepKeepsWinding(nodes, states[j - 1], actions[j - 1], |states[i].log|,
                       states[i].pc.Returned? && states[i].pc.outcome.Failed?);
      assert actions[i + 1..j][..j - i - 2] == actions[i + 1..j - 1];
    }
    WindingEnds(states[j], |states[i].log|, states[i].pc.Returned? && states[i].pc.outcome.Failed?);
  }

  lemma CancelIsApplied(nodes: Workflow, s: State, a: Action)
    requires a.Cancel? && Enabled(s, a)
    ensures Apply(nodes, s, a) == CancelTurn(s)
  {
  }

  lemma WindingEnds(s: State, n: nat, failed: bool)
    requires Winding(s, n, failed)
    ensures TurnsLeft(s.pc) <= 2 && (TurnsLeft(s.pc) == 0 <==> s.status.Ended?)
  {
  }
}
