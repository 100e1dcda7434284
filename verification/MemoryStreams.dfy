/** Event streams of an in-memory run: what a subscriber has been sent at every moment. */
module MemoryStreams {
  import opened RunTypes
  import opened EventLog
  import opened MemoryRun
  import opened MemoryRunLog

  /** The last stored event is terminal. */
  predicate ClosedLog(log: seq<Entry>) { log != [] && log[|log| - 1].event.RunEnded? }

  predicate Closed(s: State) { ClosedLog(s.log) }

  /**
   * What one stream has received: a contiguous part of the log from `start` on, all of it unless the
   * subscriber has gone, and the end of the response at the terminal event.
   */
  ghost predicate InOrder(r: Response, listening: bool, log: seq<Entry>, start: nat, gone: bool) {
    && start <= |log|
    && r.written <= log[start..]
    && (r.ended ==> ClosedLog(log) && r.written == log[start..])
    && if gone then !listening
       else r.written == log[start..] && (r.ended <==> ClosedLog(log)) && (listening <==> !ClosedLog(log))
  }

  ghost predicate Delivered(s: State, id: SubscriberId, start: nat, gone: bool) {
    id in s.responses && InOrder(s.responses[id], id in s.listeners, s.log, start, gone)
  }

  /** One more entry, written exactly if somebody listens. */
  lemma EntryArrives(r: Response, listening: bool, log: seq<Entry>, entry: Entry, start: nat, gone: bool)
    requires InOrder(r, listening, log, start, gone) && !ClosedLog(log)
    ensures InOrder(if listening then Written(r, entry) else r, listening && !entry.event.RunEnded?,
                    log + [entry], start, gone)
  {
    assert (log + [entry])[start..] == log[start..] + [entry];
  }

  lemma AppendDelivers(s: State, e: Event, id: SubscriberId, start: nat, gone: bool)
    requires Delivered(s, id, start, gone) && !Closed(s)
    ensures Delivered(Append(s, e), id, start, gone) && (Closed(Append(s, e)) <==> e.RunEnded?)
  {
    var entry := Entry(|s.log|, e);
    EntryArrives(s.responses[id], id in s.listeners, s.log, entry, start, gone);
    hide InOrder, Written;
  }

  lemma EndDelivers(s: State, outcome: Outcome, id: SubscriberId, start: nat, gone: bool)
    requires Delivered(s, id, start, gone) && !Closed(s)
    ensures Delivered(End(s, outcome), id, start, gone)
  {
    var t := s.(status := Ended(outcome));
    QuietStepDelivers(s, t, id, start, gone);
    assert !Closed(t);
    hide Append, Delivered, Closed;
    AppendDelivers(t, RunEnded(outcome), id, start, gone);
    SuspendDelivers(Append(t, RunEnded(outcome)), Finished, id, start, gone);
  }

  /** Suspending the executor does not touch any stream. */
  lemma SuspendDelivers(s: State, pc: Pc, id: SubscriberId, start: nat, gone: bool)
    requires Delivered(s, id, start, gone)
    ensures Delivered(Suspend(s, pc), id, start, gone)
  {
    hide InOrder;
  }

  lemma AppendSuspendDelivers(s: State, e: Event, pc: Pc, id: SubscriberId, start: nat, gone: bool)
    requires Delivered(s, id, start, gone) && !Closed(s)
    ensures Delivered(Suspend(Append(s, e), pc), id, start, gone)
  {
    hide Append, Delivered, Closed;
    AppendDelivers(s, e, id, start, gone);
    SuspendDelivers(Append(s, e), pc, id, start, gone);
  }

  /** A node's turn: one event or two, and a suspension. */
  lemma NodeDelivers(nodes: Workflow, s: State, i: nat, id: SubscriberId, start: nat, gone: bool, t: State)
    requires Delivered(s, id, start, gone) && !Closed(s) && !s.cancelRequested && t == NodeTurn(nodes, s, i)
    ensures Delivered(t, id, start, gone)
  {
    hide Append, Delivered, Closed, Suspend;
    AppendDelivers(s, NodeStarted(i), id, start, gone);
    var started := Append(s, NodeStarted(i));
    match KindAt(nodes, i) {
      case Noop => AppendSuspendDelivers(started, NodeCompleted(i), Returned(i, Completed), id, start, gone);
      case Delay =>
        SuspendDelivers(started, if started.cancelRequested then Aborted(i) else Sleeping(i), id, start, gone);
      case Unsupported => AppendSuspendDelivers(started, NodeFailed(i), Returned(i, Failed), id, start, gone);
    }
  }

  lemma ResumeDelivers(nodes: Workflow, s: State, id: SubscriberId, start: nat, gone: bool)
    requires Delivered(s, id, start, gone) && !Closed(s) && CanResume(s.pc)
    ensures Delivered(ResumeTurn(nodes, s), id, start, gone)
  {
    hide Append, Delivered, Closed, NodeTurn, End, Suspend;
    match s.pc {
      case Woken(i) => AppendSuspendDelivers(s, NodeCompleted(i), Returned(i, Completed), id, start, gone);
      case Aborted(i) => AppendSuspendDelivers(s, NodeCancelled(i), Returned(i, Cancelled), id, start, gone);
      case Returned(i, outcome) =>
        if outcome.Completed? && !s.cancelRequested && i + 1 < |nodes| {
          NodeDelivers(nodes, s, i + 1, id, start, gone, NodeTurn(nodes, s, i + 1));
        } else {
          EndDelivers(s, if outcome.Completed? && s.cancelRequested then Cancelled else outcome, id, start, gone);
        }
    }
  }

  /** Somebody else's subscription. */
  lemma SubscribeLeavesOthers(s: State, other: SubscriberId, k: int, id: SubscriberId, start: nat, gone: bool)
    requires Delivered(s, id, start, gone) && other !in s.responses && (Closed(s) <==> s.status.Ended?)
    ensures Delivered(SubscribeTurn(s, other, k), id, start, gone)
  {
    hide After, InOrder;
    var t := SubscribeTurn(s, other, k);
    assert t.log == s.log && t.responses[id] == s.responses[id];
    assert id in t.listeners <==> id in s.listeners;
  }

  /** A listener is removed: its own stream may stay behind from now on. */
  lemma DisconnectDelivers(s: State, other: SubscriberId, id: SubscriberId, start: nat, gone: bool)
    requires Delivered(s, id, start, gone)
    ensures Delivered(DisconnectTurn(s, other), id, start, gone || other == id)
  {
    hide Without, InOrder;
    var t := DisconnectTurn(s, other);
    assert id in t.listeners <==> id in s.listeners && id != other;
    if other == id {
      GoesAway(s.responses[id], id in s.listeners, s.log, start, gone);
    }
  }

  lemma GoesAway(r: Response, listening: bool, log: seq<Entry>, start: nat, gone: bool)
    requires InOrder(r, listening, log, start, gone)
    ensures InOrder(r, false, log, start, true)
  {
  }

  /** Neither the timer nor a cancel touches log or streams. */
  lemma QuietStepDelivers(s: State, t: State, id: SubscriberId, start: nat, gone: bool)
    requires Delivered(s, id, start, gone)
    requires t.log == s.log && t.responses == s.responses && t.listeners == s.listeners
    ensures Delivered(t, id, start, gone)
  {
    hide InOrder;
  }

  lemma StepDelivers(nodes: Workflow, s: State, a: Action, id: SubscriberId, start: nat, gone: bool)
    requires Delivered(s, id, start, gone) && Enabled(s, a)
    requires Closed(s) <==> s.status.Ended?
    requires s.pc.Finished? <==> s.status.Ended?
    ensures Delivered(Apply(nodes, s, a), id, start, gone || a == Disconnect(id))
  {
    hide ResumeTurn, SubscribeTurn, DisconnectTurn, Delivered, Closed;
    match a {
      case Resume => ResumeDelivers(nodes, s, id, start, gone);
      case Subscribe(other, k) => SubscribeLeavesOthers(s, other, k, id, start, gone);
      case Disconnect(other) => DisconnectDelivers(s, other, id, start, gone);
      case _ => QuietStepDelivers(s, Apply(nodes, s, a), id, start, gone);
    }
  }

  // ---- from the subscription on ------------------------------------------------------------------------------

  /** The client of subscriber `id` disconnects in steps `i` to `j - 1`. */
  predicate Gone(actions: seq<Action>, i: nat, j: nat, id: SubscriberId)
    requires i <= j <= |actions|
  {
    Disconnect(id) in actions[i..j]
  }

  lemma GoneSnoc(actions: seq<Action>, i: nat, j: nat, id: SubscriberId)
    requires i < j <= |actions|
    ensures Gone(actions, i, j, id) <==> Gone(actions, i, j - 1, id) || actions[j - 1] == Disconnect(id)
  {
    assert actions[i..j] == actions[i..j - 1] + [actions[j - 1]];
  }

  /** What the trace invariant says about the end of the log. */
  lemma ClosedMeansEnded(nodes: Workflow, states: seq<State>, actions: seq<Action>, i: nat)
    requires History(nodes, states, actions) && i < |states|
    ensures Closed(states[i]) <==> states[i].status.Ended?
    ensures states[i].pc.Finished? <==> states[i].status.Ended?
    ensures NumberedFrom(states[i].log, 0) && states[i].log != []
  {
    var c := CancelPointAt(states, actions, i);
    hide History, Trace, Stored, Numbered, Supported;
    TraceHolds(nodes, states, actions, i);
    LogStarts(nodes, states[i].pc, c);
    forall k | 0 <= k < |states[i].log| ensures states[i].log[k].at == k {
      TerminalEventIsLast(nodes, states, actions, i, k);
    }
    TerminalEventIsLast(nodes, states, actions, i, |states[i].log| - 1);
  }

  lemma LogStarts(nodes: Workflow, pc: Pc, c: CancelPoint)
    requires !pc.NotStarted?
    ensures Stored(nodes, pc, c) != []
  {
    hide CompletedNodes, Supported;
  }

  lemma NewStream(log: seq<Entry>, start: nat)
    requires start <= |log|
    ensures InOrder(Response(log[start..], ClosedLog(log)), !ClosedLog(log), log, start, false)
  {
  }

  /** No window between the replay of the backlog and the registration of the listener. */
  lemma SubscribeDelivers(s: State, id: SubscriberId, k: int)
    requires id !in s.responses && NumberedFrom(s.log, 0) && (Closed(s) <==> s.status.Ended?)
    requires forall x :: x in s.listeners ==> x in s.responses
    ensures Delivered(SubscribeTurn(s, id, k), id, StartAt(s.log, k), false)
  {
    AfterIsSuffix(s.log, 0, k);
    NewStream(s.log, StartAt(s.log, k));
    assert id !in s.listeners;
    hide After, NumberedFrom, InOrder, ClosedLog, StartAt;
    var t := SubscribeTurn(s, id, k);
    assert t.log == s.log;
    assert t.responses[id] == Response(s.log[StartAt(s.log, k)..], Closed(s));
    assert id in t.listeners <==> !Closed(s);
  }

  lemma {:induction false} ListenersHaveResponses(nodes: Workflow, states: seq<State>, actions: seq<Action>, i: nat)
    requires History(nodes, states, actions) && i < |states|
    ensures forall x :: x in states[i].listeners ==> x in states[i].responses
  {
    if i == 0 {
      ListenersOfLoop(nodes, Append(BLANK.(status := Running), RunStarted), 0);
    } else {
      hide After, LoopTurn;
      ListenersHaveResponses(nodes, states, actions, i - 1);
      assert Enabled(states[i - 1], actions[i - 1]);
      var s := states[i - 1];
      if actions[i - 1].Resume? && s.pc.Returned? {
        ListenersOfLoop(nodes, s, s.pc.i + 1);
      }
    }
  }

  lemma ListenersOfLoop(nodes: Workflow, s: State, i: nat)
    ensures LoopTurn(nodes, s, i).responses.Keys == s.responses.Keys
    ensures LoopTurn(nodes, s, i).listeners == s.listeners || LoopTurn(nodes, s, i).listeners == []
  {
  }

  lemma {:induction false} StreamIsDelivered(
    nodes: Workflow, states: seq<State>, actions: seq<Action>, i: nat, j: nat)
    requires History(nodes, states, actions) && i < j < |states| && actions[i].Subscribe?
    ensures Delivered(states[j], actions[i].id, StartAt(states[i].log, actions[i].after),
                      Gone(actions, i + 1, j, actions[i].id))
    decreases j
  {
    var id, k := actions[i].id, actions[i].after;
    hide Delivered, Closed, SubscribeTurn, ResumeTurn, NumberedFrom, Gone;
    assert Enabled(states[j - 1], actions[j - 1]);
    ClosedMeansEnded(nodes, states, actions, j - 1);
    if j == i + 1 {
      ListenersHaveResponses(nodes, states, actions, i);
      SubscribeDelivers(states[i], id, k);
      NobodyGone(actions, j, id);
    } else {
      StreamIsDelivered(nodes, states, actions, i, j - 1);
      hide Apply;
      StepDelivers(nodes, states[j - 1], actions[j - 1], id, StartAt(states[i].log, k),
                   Gone(actions, i + 1, j - 1, id));
      GoneSnoc(actions, i + 1, j, id);
    }
  }

  lemma NobodyGone(actions: seq<Action>, j: nat, id: SubscriberId)
    requires j <= |actions|
    ensures !Gone(actions, j, j, id)
  {
  }

  /**
   * Exactly once: while the subscriber stays, its stream is what a filter of the whole log by
   * `seq > k` gives, and it is ended exactly at the terminal event. The one exception is a resume
   * point beyond the log, whose live events are not filtered.
   */
  lemma StreamIsExact(nodes: Workflow, states: seq<State>, actions: seq<Action>, i: nat, j: nat)
    requires History(nodes, states, actions) && i < j < |states| && actions[i].Subscribe?
    requires !Gone(actions, i + 1, j, actions[i].id)
    ensures var id, k, s := actions[i].id, actions[i].after, states[j];
            && id in s.responses && StartAt(states[i].log, k) <= |s.log|
            && (s.responses[id].ended <==> s.status.Ended?)
            && s.responses[id].written == s.log[StartAt(states[i].log, k)..]
            && (s.responses[id].written == After(s.log, k) <==> k < |states[i].log| || |s.log| == |states[i].log|)
  {
    var k := actions[i].after;
    hide History, Gone, After;
    StreamIsDelivered(nodes, states, actions, i, j);
    ClosedMeansEnded(nodes, states, actions, j);
    LogGrows(nodes, states, actions, i, j);
    AfterIsSuffix(states[j].log, 0, k);
    hide Closed, NumberedFrom;
  }

  /** A subscriber that went away has a prefix of what it would have been sent. */
  lemma GoneStreamIsPrefix(nodes: Workflow, states: seq<State>, actions: seq<Action>, i: nat, j: nat)
    requires History(nodes, states, actions) && i < j < |states| && actions[i].Subscribe?
    ensures var id, k, s := actions[i].id, actions[i].after, states[j];
            && id in s.responses && StartAt(states[i].log, k) <= |s.log|
            && s.responses[id].written <= s.log[StartAt(states[i].log, k)..]
            && (s.responses[id].ended ==>
                  s.status.Ended? && s.responses[id].written == s.log[StartAt(states[i].log, k)..])
  {
    StreamIsDelivered(nodes, states, actions, i, j);
    ClosedMeansEnded(nodes, states, actions, j);
  }
}
