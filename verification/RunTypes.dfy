/** Vocabulary shared by the two hosts: node kinds, event types and outcomes. */
module RunTypes {
  /** The node types the hosts dispatch on: `core.noop`, `core.delay` and everything else. */
  datatype NodeKind = Noop | Delay | Unsupported

  type Workflow = seq<NodeKind>

  /** `switch (node.typeId)`; past the end nothing matches. */
  function KindAt(nodes: Workflow, i: nat): NodeKind {
    if i < |nodes| then nodes[i] else Unsupported
  }

  datatype Outcome = Completed | Cancelled | Failed

  /** Event types; node events carry the position of their node in the workflow. */
  datatype Event =
    | RunStarted
    | RunResumed
    | NodeStarted(node: nat)
    | NodeCompleted(node: nat)
    | NodeCancelled(node: nat)
    | NodeFailed(node: nat)
    | RunEnded(outcome: Outcome)

  /** The wire name of an event type. */
  function TypeName(e: Event): string {
    match e
    case RunStarted => "run.started"
    case RunResumed => "run.resumed"
    case NodeStarted(_) => "node.started"
    case NodeCompleted(_) => "node.completed"
    case NodeCancelled(_) => "node.cancelled"
    case NodeFailed(_) => "node.failed"
    case RunEnded(Completed) => "run.completed"
    case RunEnded(Cancelled) => "run.cancelled"
    case RunEnded(Failed) => "run.failed"
  }

  /** The wire name tells the type of an event, and the outcome of a terminal one. */
  lemma TypeNamesDiffer(a: Event, b: Event)
    requires TypeName(a) == TypeName(b)
    ensures a.RunStarted? == b.RunStarted? && a.RunResumed? == b.RunResumed? && a.NodeStarted? == b.NodeStarted?
    ensures a.NodeCompleted? == b.NodeCompleted? && a.NodeCancelled? == b.NodeCancelled?
    ensures a.NodeFailed? == b.NodeFailed? && a.RunEnded? == b.RunEnded?
    ensures a.RunEnded? ==> a == b
  {
    assert |TypeName(a)| == |TypeName(b)| && TypeName(a)[5] == TypeName(b)[5];
    assert TypeName(a)[0] == TypeName(b)[0] && TypeName(a)[4] == TypeName(b)[4] && TypeName(a)[8] == TypeName(b)[8];
  }

  /** The events of the first `k` nodes when all of them complete. */
  function CompletedNodes(k: nat): (es: seq<Event>)
    ensures |es| == 2 * k
  {
    if k == 0 then [] else CompletedNodes(k - 1) + [NodeStarted(k - 1), NodeCompleted(k - 1)]
  }

  /** Each of the first `k` nodes starts and completes exactly once, in workflow order. */
  lemma {:induction false} CompletedNodesAt(k: nat, j: nat)
    requires j < k
    ensures CompletedNodes(k)[2 * j] == NodeStarted(j) && CompletedNodes(k)[2 * j + 1] == NodeCompleted(j)
  {
    if j < k - 1 {
      CompletedNodesAt(k - 1, j);
    }
  }
}
