/** A delay node of the in-memory host completes only after its own timer has fired. */
module MemoryDelays {
  import opened RunTypes
  import opened EventLog
  import opened MemoryRun
  import opened MemoryRunLog

  predicate HasCompleted(log: seq<Entry>, i: nat) { exists k :: 0 <= k < |log| && log[k].event == NodeCompleted(i) }

  /** Node `i` has completed, or is about to. */
  predicate Through(s: State, i: nat) { s.pc == Woken(i) || HasCompleted(s.log, i) }

  lemma AppendCompletes(s: State, e: Event, i: nat)
    ensures HasCompleted(Append(s, e).log, i) <==> HasCompleted(s.log, i) || e == NodeCompleted(i)
  {
    AppendGrows(s, e);
    hide Append;
    var log' := Append(s, e).log;
    assert log'[|s.log|].event == e;
    assert forall k :: 0 <= k < |s.log| ==> log'[k] == s.log[k];
  }

  /** Starting a node completes nothing but a node without a timer. */
  lemma LoopCompletes(nodes: Workflow, s: State, n: nat, i: nat)
    requires i < |nodes| && nodes[i] == Delay && Through(LoopTurn(nodes, s, n), i)
    ensures HasCompleted(s.log, i)
  {
    hide Append, HasCompleted;
    AppendCompletes(s.(status := Ended(Cancelled)), RunEnded(Cancelled), i);
    AppendCompletes(s.(status := Ended(Completed)), RunEnded(Completed), i);
    AppendCompletes(s, NodeCancelled(n), i);
    AppendCompletes(s, NodeStarted(n), i);
    AppendCompletes(Append(s, NodeStarted(n)), NodeCompleted(n), i);
    AppendCompletes(Append(s, NodeStarted(n)), NodeFailed(n), i);
  }

  lemma StepCompletes(nodes: Workflow, s: State, a: Action, i: nat)
    requires Enabled(s, a) && i < |nodes| && nodes[i] == Delay && Through(Apply(nodes, s, a), i)
    ensures Through(s, i) || (a == TimerFires && s.pc == Sleeping(i))
  {
    hide Append, HasCompleted, LoopTurn;
    if a.Resume? {
      match s.pc {
        case Woken(n) => AppendCompletes(s, NodeCompleted(n), i);
        case Aborted(n) => AppendCompletes(s, NodeCancelled(n), i);
        case Returned(n, outcome) =>
          AppendCompletes(s.(status := Ended(outcome)), RunEnded(outcome), i);
          if outcome.Completed? {
            LoopCompletes(nodes, s, n + 1, i);
          }
      }
    }
  }

  lemma LaunchCompletes(nodes: Workflow, i: nat)
    requires i < |nodes| && nodes[i] == Delay
    ensures !Through(Launched(nodes, BLANK), i)
  {
    var s := BLANK.(status := Running);
    AppendCompletes(s, RunStarted, i);
    hide Append, LoopTurn;
    if Through(Launched(nodes, BLANK), i) {
      LoopCompletes(nodes, Append(s, RunStarted), 0, i);
    }
  }

  /** A delay node that has completed, or is about to, was asleep when its timer fired. */
  lemma {:induction false} DelaysAreSlept(nodes: Workflow, states: seq<State>, actions: seq<Action>, j: nat, i: nat)
    requires History(nodes, states, actions) && j < |states| && i < |nodes| && nodes[i] == Delay
    requires Through(states[j], i)
    ensures exists m :: 0 <= m < j && actions[m] == TimerFires && states[m].pc == Sleeping(i)
  {
    hide Apply, Enabled, Through, Launched;
    if j == 0 {
      LaunchCompletes(nodes, i);
    } else {
      assert Enabled(states[j - 1], actions[j - 1]);
      StepCompletes(nodes, states[j - 1], actions[j - 1], i);
      if Through(states[j - 1], i) {
        DelaysAreSlept(nodes, states, actions, j - 1, i);
      }
    }
  }

  /**
   * A delay sleeps: when `node.completed` of a delay node is in the log, its timer has fired while the
   * log ended with that node's `node.started`.
   */
  lemma CompletedDelaysWereSlept(
    nodes: Workflow, states: seq<State>, actions: seq<Action>, j: nat, k: nat, i: nat)
    requires History(nodes, states, actions) && j < |states| && i < |nodes| && nodes[i] == Delay
    requires k < |states[j].log| && states[j].log[k].event == NodeCompleted(i)
    ensures exists m :: 0 <= m < j && actions[m] == TimerFires && states[m].pc == Sleeping(i) &&
                        states[m].log != [] && states[m].log[|states[m].log| - 1].event == NodeStarted(i) &&
                        states[m].log <= states[j].log
  {
    assert Through(states[j], i);
    DelaysAreSlept(nodes, states, actions, j, i);
    var m :| 0 <= m < j && actions[m] == TimerFires && states[m].pc == Sleeping(i);
    TraceHolds(nodes, states, actions, m);
    LogGrows(nodes, states, actions, m, j);
    hide History, CompletedNodes, Supported;
  }

  /** And as long as nobody cancels it, only the timer ends the sleep. */
  lemma SleepEndsByTimerOrCancel(nodes: Workflow, s: State, a: Action, i: nat)
    requires Enabled(s, a) && s.pc == Sleeping(i) && Apply(nodes, s, a).pc != Sleeping(i)
    ensures (a == TimerFires && Apply(nodes, s, a) == s.(pc := Woken(i)))
         || (a == Cancel && Apply(nodes, s, a).cancelRequested && Apply(nodes, s, a).log == s.log)
  {
  }
}
