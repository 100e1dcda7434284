/**
 * One run of the in-memory host as a state machine: the executor's turns between awaits, the cancel,
 * subscribe and disconnect requests that can come between them, and the log and streams they produce.
 */
module MemoryRun {
  import opened RunTypes
  import opened EventLog

  datatype Status = Pending | Running | Ended(outcome: Outcome)

  /** Where the run's `runWorkflow` call is suspended. */
  datatype Pc =
    | NotStarted
    | Sleeping(i: nat)
    | Woken(i: nat)
    | Aborted(i: nat)
    | Returned(i: nat, outcome: Outcome)
    | Finished

  type SubscriberId = nat

  /** One event stream response: the entries written to it, and whether the server has ended it. */
  datatype Response = Response(written: seq<Entry>, ended: bool)

  /** The run record, the open streams, and the listeners registered on its event bus channel. */
  datatype State = State(
    status: Status, log: seq<Entry>, cancelRequested: bool, pc: Pc,
    responses: map<SubscriberId, Response>, listeners: seq<SubscriberId>)

  const BLANK := State(Pending, [], false, NotStarted, map[], [])

  function Written(r: Response, entry: Entry): Response {
    Response(r.written + [entry], r.ended || entry.event.RunEnded?)
  }

  /** `eventBus.emit`: every listener writes the entry; a terminal one makes it stop and end. */
  function Emit(s: State, entry: Entry): State {
    s.(responses := map id | id in s.responses ::
                      if id in s.listeners then Written(s.responses[id], entry) else s.responses[id],
       listeners := if entry.event.RunEnded? then [] else s.listeners)
  }

  function Append(s: State, e: Event): State {
    var entry := Entry(|s.log|, e);
    Emit(s.(log := s.log + [entry]), entry)
  }

  function Suspend(s: State, pc: Pc): State { s.(pc := pc) }

  /** Status first, then the terminal event. */
  function End(s: State, outcome: Outcome): State {
    Suspend(Append(s.(status := Ended(outcome)), RunEnded(outcome)), Finished)
  }

  /** `executeNode` up to its first await or the await on its result. */
  function NodeTurn(nodes: Workflow, s: State, i: nat): State {
    if s.cancelRequested then Suspend(Append(s, NodeCancelled(i)), Returned(i, Cancelled))
    else
      var started := Append(s, NodeStarted(i));
      match KindAt(nodes, i)
      case Noop => Suspend(Append(started, NodeCompleted(i)), Returned(i, Completed))
      case Delay => Suspend(started, if started.cancelRequested then Aborted(i) else Sleeping(i))
      case Unsupported => Suspend(Append(started, NodeFailed(i)), Returned(i, Failed))
  }

  /** Iteration `i` of the node loop, or what follows the loop. */
  function LoopTurn(nodes: Workflow, s: State, i: nat): State {
    if s.cancelRequested then End(s, Cancelled)
    else if i < |nodes| then NodeTurn(nodes, s, i)
    else End(s, Completed)
  }

  /** A run as `handleCreateRun` leaves it: `runWorkflow` has reached its first await. */
  function Launched(nodes: Workflow, s: State): State {
    LoopTurn(nodes, Append(s.(status := Running), RunStarted), 0)
  }

  predicate CanResume(pc: Pc) { pc.Woken? || pc.Aborted? || pc.Returned? }

  function ResumeTurn(nodes: Workflow, s: State): State {
    match s.pc
    case Woken(i) => Suspend(Append(s, NodeCompleted(i)), Returned(i, Completed))
    case Aborted(i) => Suspend(Append(s, NodeCancelled(i)), Returned(i, Cancelled))
    case Returned(i, Completed) => LoopTurn(nodes, s, i + 1)
    case Returned(_, outcome) => End(s, outcome)
    case _ => s
  }

  /** The cancel handler: a terminal run is only reported; a sleeping node is interrupted at once. */
  function CancelTurn(s: State): State {
    if s.status.Ended? then s
    else s.(cancelRequested := true, pc := if s.pc.Sleeping? then Aborted(s.pc.i) else s.pc)
  }

  /** The stream handler: replay what exceeds `k`, then end or listen. */
  function SubscribeTurn(s: State, id: SubscriberId, k: int): State {
    s.(responses := s.responses[id := Response(After(s.log, k), s.status.Ended?)],
       listeners := if s.status.Ended? then s.listeners else s.listeners + [id])
  }

  function Without(ids: seq<SubscriberId>, id: SubscriberId): (r: seq<SubscriberId>)
    ensures forall x :: x in r <==> x in ids && x != id
  {
    if ids == [] then []
    else (if ids[0] == id then [] else [ids[0]]) + Without(ids[1..], id)
  }

  /** The client goes away: its listener is removed. */
  function DisconnectTurn(s: State, id: SubscriberId): State { s.(listeners := Without(s.listeners, id)) }

  datatype Action =
    | TimerFires
    | Resume
    | Cancel
    | Subscribe(id: SubscriberId, after: int)
    | Disconnect(id: SubscriberId)

  predicate Enabled(s: State, a: Action) {
    match a
    case TimerFires => s.pc.Sleeping?
    case Resume => CanResume(s.pc)
    case Cancel => true
    case Subscribe(id, _) => id !in s.responses
    case Disconnect(id) => id in s.responses
  }

  function Apply(nodes: Workflow, s: State, a: Action): State
    requires Enabled(s, a)
  {
    match a
    case TimerFires => s.(pc := Woken(s.pc.i))
    case Resume => ResumeTurn(nodes, s)
    case Cancel => CancelTurn(s)
    case Subscribe(id, k) => SubscribeTurn(s, id, k)
    case Disconnect(id) => DisconnectTurn(s, id)
  }

  /** A finite history of one run from its creation on. */
  ghost predicate History(nodes: Workflow, states: seq<State>, actions: seq<Action>) {
    && |states| == |actions| + 1
    && states[0] == Launched(nodes, BLANK)
    && forall i :: 0 <= i < |actions| ==>
         Enabled(states[i], actions[i]) && states[i + 1] == Apply(nodes, states[i], actions[i])
  }

  // ---- the log as a function of the workflow and the cancel point ---------------------------------------

  /** How many nodes there are before the first one the host cannot run. */
  function Supported(nodes: Workflow): (k: nat)
    ensures k <= |nodes|
    ensures forall j :: 0 <= j < k ==> nodes[j] != Unsupported
    ensures k < |nodes| ==> nodes[k] == Unsupported
  {
    if nodes == [] || nodes[0] == Unsupported then 0 else 1 + Supported(nodes[1..])
  }

  /** When the first cancel took effect: never, while node `i` slept, or after its sleep or its end. */
  datatype CancelPoint = Never | DuringSleep(i: nat) | AfterNode(i: nat)

  function PointOf(pc: Pc): CancelPoint {
    match pc
    case Sleeping(i) => DuringSleep(i)
    case Woken(i) => AfterNode(i)
    case Returned(i, Completed) => AfterNode(i)
    case _ => Never
  }

  /** The first cancel decides; one that finds a failed node or a finished run changes nothing. */
  function CancelPointAt(states: seq<State>, actions: seq<Action>, i: nat): CancelPoint
    requires i <= |actions| && |states| == |actions| + 1
  {
    if i == 0 then Never
    else
      var c := CancelPointAt(states, actions, i - 1);
      if c.Never? && actions[i - 1].Cancel? then PointOf(states[i - 1].pc) else c
  }

  /** The events of a whole run. */
  function Trace(nodes: Workflow, c: CancelPoint): seq<Event> {
    match c
    case Never =>
      var k := Supported(nodes);
      [RunStarted] + CompletedNodes(k)
      + if k < |nodes| then [NodeStarted(k), NodeFailed(k), RunEnded(Failed)] else [RunEnded(Completed)]
    case DuringSleep(i) =>
      [RunStarted] + CompletedNodes(i) + [NodeStarted(i), NodeCancelled(i), RunEnded(Cancelled)]
    case AfterNode(i) => [RunStarted] + CompletedNodes(i + 1) + [RunEnded(Cancelled)]
  }

  /** The events stored when the executor is suspended at `pc`. */
  function Stored(nodes: Workflow, pc: Pc, c: CancelPoint): seq<Event> {
    match pc
    case NotStarted => []
    case Sleeping(i) => [RunStarted] + CompletedNodes(i) + [NodeStarted(i)]
    case Woken(i) => [RunStarted] + CompletedNodes(i) + [NodeStarted(i)]
    case Aborted(i) => [RunStarted] + CompletedNodes(i) + [NodeStarted(i)]
    case Returned(i, Completed) => [RunStarted] + CompletedNodes(i + 1)
    case Returned(i, Cancelled) => [RunStarted] + CompletedNodes(i) + [NodeStarted(i), NodeCancelled(i)]
    case Returned(i, Failed) => [RunStarted] + CompletedNodes(i) + [NodeStarted(i), NodeFailed(i)]
    case Finished => Trace(nodes, c)
  }

  function OutcomeOf(nodes: Workflow, c: CancelPoint): Outcome {
    if !c.Never? then Cancelled else if Supported(nodes) < |nodes| then Failed else Completed
  }

  /** Which suspensions a cancel point allows. */
  predicate PcFits(nodes: Workflow, s: State, c: CancelPoint) {
    match s.pc
    case NotStarted => false
    case Sleeping(i) => i < Supported(nodes) && nodes[i] == Delay && c.Never? && !s.cancelRequested
    case Woken(i) => i < Supported(nodes) && c == if s.cancelRequested then AfterNode(i) else Never
    case Aborted(i) => i < Supported(nodes) && c == DuringSleep(i) && s.cancelRequested
    case Returned(i, Completed) => i < Supported(nodes) && c == if s.cancelRequested then AfterNode(i) else Never
    case Returned(i, Cancelled) => i < Supported(nodes) && c == DuringSleep(i) && s.cancelRequested
    case Returned(i, Failed) => i == Supported(nodes) < |nodes| && c.Never?
    case Finished => true
  }

  predicate TraceInv(nodes: Workflow, s: State, c: CancelPoint) {
    && PcFits(nodes, s, c)
    && s.log == Numbered(Stored(nodes, s.pc, c))
    && s.status == (if s.pc.Finished? then Ended(OutcomeOf(nodes, c)) else Running)
    && (!c.Never? ==> s.cancelRequested)
  }

  lemma AppendStores(s: State, es: seq<Event>, e: Event)
    requires s.log == Numbered(es)
    ensures Append(s, e).log == Numbered(es + [e])
    ensures Append(s, e).(responses := s.responses, listeners := s.listeners, log := s.log) == s
  {
    NumberedSnoc(es, e);
  }

  /** Iteration `i` after `i` completed nodes. */
  lemma LoopKeepsTrace(nodes: Workflow, s: State, i: nat, c: CancelPoint)
    requires s.log == Numbered([RunStarted] + CompletedNodes(i)) && s.status == Running && i <= Supported(nodes)
    requires if s.cancelRequested then 0 < i && c == AfterNode(i - 1) else c.Never?
    ensures TraceInv(nodes, LoopTurn(nodes, s, i), c)
  {
    hide Append, Numbered, CompletedNodes, Supported;
    var es := [RunStarted] + CompletedNodes(i);
    if s.cancelRequested {
      AppendStores(s.(status := Ended(Cancelled)), es, RunEnded(Cancelled));
    } else if i < |nodes| {
      AppendStores(s, es, NodeStarted(i));
      var started, es1 := Append(s, NodeStarted(i)), es + [NodeStarted(i)];
      AppendStores(started, es1, NodeCompleted(i));
      AppendStores(started, es1, NodeFailed(i));
      CompletedOneMore(i);
      assert es1 + [NodeFailed(i)] == es + [NodeStarted(i), NodeFailed(i)];
    } else {
      AppendStores(s.(status := Ended(Completed)), es, RunEnded(Completed));
    }
  }

  lemma CompletedOneMore(i: nat)
    ensures [RunStarted] + CompletedNodes(i) + [NodeStarted(i)] + [NodeCompleted(i)]
         == [RunStarted] + CompletedNodes(i + 1)
  {
  }

  lemma LaunchKeepsTrace(nodes: Workflow)
    ensures TraceInv(nodes, Launched(nodes, BLANK), Never)
  {
    var s := Append(BLANK.(status := Running), RunStarted);
    AppendStores(BLANK.(status := Running), [], RunStarted);
    assert [] + [RunStarted] == [RunStarted] + CompletedNodes(0);
    LoopKeepsTrace(nodes, s, 0, Never);
  }

  lemma ResumeKeepsTrace(nodes: Workflow, s: State, c: CancelPoint)
    requires TraceInv(nodes, s, c) && CanResume(s.pc)
    ensures TraceInv(nodes, ResumeTurn(nodes, s), c)
  {
    hide Append, Numbered, CompletedNodes, Supported, LoopTurn;
    var es := Stored(nodes, s.pc, c);
    match s.pc {
      case Woken(i) =>
        AppendStores(s, es, NodeCompleted(i));
        CompletedOneMore(i);
      case Aborted(i) =>
        AppendStores(s, es, NodeCancelled(i));
        assert es + [NodeCancelled(i)] == [RunStarted] + CompletedNodes(i) + [NodeStarted(i), NodeCancelled(i)];
      case Returned(i, outcome) =>
        AppendStores(s.(status := Ended(outcome)), es, RunEnded(outcome));
        match outcome {
          case Completed => LoopKeepsTrace(nodes, s, i + 1, c);
          case Cancelled =>
            assert es + [RunEnded(Cancelled)] == Trace(nodes, c);
          case Failed =>
            assert es + [RunEnded(Failed)] == Trace(nodes, c);
        }
    }
  }

  lemma StepKeepsTrace(nodes: Workflow, s: State, a: Action, c: CancelPoint)
    requires TraceInv(nodes, s, c) && Enabled(s, a)
    ensures TraceInv(nodes, Apply(nodes, s, a), if c.Never? && a.Cancel? then PointOf(s.pc) else c)
  {
    hide Numbered, CompletedNodes, Supported, ResumeTurn;
    if a.Resume? {
      ResumeKeepsTrace(nodes, s, c);
    }
  }

  lemma {:induction false} TraceHolds(nodes: Workflow, states: seq<State>, actions: seq<Action>, i: nat)
    requires History(nodes, states, actions) && i < |states|
    ensures TraceInv(nodes, states[i], CancelPointAt(states, actions, i))
  {
    hide TraceInv, Apply, Enabled;
    if i == 0 {
      LaunchKeepsTrace(nodes);
    } else {
      assert Enabled(states[i - 1], actions[i - 1]);
      TraceHolds(nodes, states, actions, i - 1);
      StepKeepsTrace(nodes, states[i - 1], actions[i - 1], CancelPointAt(states, actions, i - 1));
    }
  }
}
