/**
 * The in-memory host's run record as it is written: fields that the executor and the request
 * handlers assign. Every method is proved against the state functions of `MemoryRun`.
 */
module MemoryHost {
  import opened RunTypes
  import opened EventLog
  import opened MemoryRun
  import opened MemoryStreams

  /** The JSON answer of the poll endpoint. */
  datatype Poll = Poll(events: seq<Entry>, lastEventSeq: int, runStatus: Status, isTerminal: bool)

  predicate Distinct(ids: seq<SubscriberId>) { forall i, j :: 0 <= i < j < |ids| ==> ids[i] != ids[j] }

  lemma {:induction false} WithoutAbsent(ids: seq<SubscriberId>, id: SubscriberId)
    requires id !in ids
    ensures Without(ids, id) == ids
  {
    if ids != [] {
      WithoutAbsent(ids[1..], id);
    }
  }

  lemma {:induction false} WithoutIsDistinct(ids: seq<SubscriberId>, id: SubscriberId)
    requires Distinct(ids)
    ensures Distinct(Without(ids, id))
  {
    if ids != [] {
      assert Distinct(ids[1..]);
      WithoutIsDistinct(ids[1..], id);
      var rest := Without(ids[1..], id);
      assert forall x :: x in rest ==> x in ids[1..] && x != ids[0];
      assert forall j :: 0 <= j < |rest| ==> rest[j] in rest;
    }
  }

  lemma WithoutFirst(ids: seq<SubscriberId>)
    requires Distinct(ids) && ids != []
    ensures Without(ids, ids[0]) == ids[1..] && Distinct(ids[1..])
  {
    DistinctTail(ids);
    WithoutAbsent(ids[1..], ids[0]);
    hide Distinct;
    assert Without(ids, ids[0]) == [] + Without(ids[1..], ids[0]);
  }

  lemma DistinctTail(ids: seq<SubscriberId>)
    requires Distinct(ids) && ids != []
    ensures Distinct(ids[1..]) && ids[0] !in ids[1..]
  {
    var rest := ids[1..];
    forall i, j | 0 <= i < j < |rest| ensures rest[i] != rest[j] {
      assert rest[i] == ids[i + 1] && rest[j] == ids[j + 1];
    }
    forall i | 0 <= i < |rest| ensures rest[i] != ids[0] {
      assert rest[i] == ids[i + 1];
    }
  }

  class RunRecord {
    const nodes: Workflow
    var status: Status
    var events: seq<Entry>
    var cancelRequested: bool
    var pc: Pc
    var responses: map<SubscriberId, Response>
    var listeners: seq<SubscriberId>

    ghost function Now(): State
      reads this
    {
      State(status, events, cancelRequested, pc, responses, listeners)
    }

    ghost predicate Valid()
      reads this
    {
      Distinct(listeners) && forall x :: x in listeners ==> x in responses
    }

    constructor (nodes: Workflow)
      ensures Valid() && this.nodes == nodes && Now() == Launched(nodes, BLANK)
    {
      this.nodes := nodes;
      status, events, cancelRequested, pc, responses, listeners := Pending, [], false, NotStarted, map[], [];
      new;
      RunWorkflow();
    }

    /** `eventBus.emit`: a copy of the listeners is called one by one; a terminal event makes each leave. */
    method Emit(entry: Entry)
      requires Valid()
      modifies this`responses, this`listeners
      ensures Valid() && Now() == MemoryRun.Emit(old(Now()), entry)
    {
      var copy := listeners;
      for n := 0 to |copy|
        invariant Valid()
        invariant listeners == if entry.event.RunEnded? then copy[n..] else copy
        invariant responses.Keys == old(responses).Keys
        invariant forall id :: id in responses ==>
                    responses[id] == if id in copy[..n] then Written(old(responses)[id], entry) else old(responses)[id]
      {
        var id := copy[n];
        assert id !in copy[..n] && copy[..n + 1] == copy[..n] + [id];
        responses := responses[id := Response(responses[id].written + [entry],
                                              responses[id].ended || entry.event.RunEnded?)];
        if entry.event.RunEnded? {
          assert copy[n..][0] == id && copy[n..][1..] == copy[n + 1..];
          WithoutFirst(copy[n..]);
          listeners := Without(listeners, id);
        }
      }
      assert copy[..|copy|] == copy;
    }

    method AppendEvent(e: Event)
      requires Valid()
      modifies this`events, this`responses, this`listeners
      ensures Valid() && Now() == Append(old(Now()), e)
    {
      var entry := Entry(|events|, e);
      events := events + [entry];
      Emit(entry);
    }

    /** `executeNode`, up to the await in `core.delay` or the await on its result. */
    method ExecuteNode(i: nat)
      requires Valid()
      modifies this`events, this`responses, this`listeners, this`pc
      ensures Valid() && Now() == NodeTurn(nodes, old(Now()), i)
    {
      hide MemoryRun.Emit, Distinct;
      if cancelRequested {
        AppendEvent(NodeCancelled(i));
        pc := Returned(i, Cancelled);
        return;
      }
      AppendEvent(NodeStarted(i));
      match KindAt(nodes, i) {
        case Noop =>
          AppendEvent(NodeCompleted(i));
          pc := Returned(i, Completed);
        case Delay =>
          pc := if cancelRequested then Aborted(i) else Sleeping(i);
        case Unsupported =>
          AppendEvent(NodeFailed(i));
          pc := Returned(i, Failed);
      }
    }

    /** The lines every way out of `runWorkflow` ends with. */
    method Close(outcome: Outcome)
      requires Valid()
      modifies this`status, this`events, this`responses, this`listeners, this`pc
      ensures Valid() && Now() == End(old(Now()), outcome)
    {
      status := Ended(outcome);
      AppendEvent(RunEnded(outcome));
      pc := Finished;
    }

    /** Iteration `i` of `for (const node of workflow.nodes)`, or the code after the loop. */
    method LoopFrom(i: nat)
      requires Valid()
      modifies this
      ensures Valid() && Now() == LoopTurn(nodes, old(Now()), i)
    {
      hide Distinct, NodeTurn, End;
      if cancelRequested {
        Close(Cancelled);
      } else if i < |nodes| {
        ExecuteNode(i);
      } else {
        Close(Completed);
      }
    }

    /** `runWorkflow` up to its first await. */
    method RunWorkflow()
      requires Valid()
      modifies this
      ensures Valid() && Now() == Launched(nodes, old(Now()))
    {
      hide Distinct, LoopTurn, Append;
      status := Running;
      AppendEvent(RunStarted);
      LoopFrom(0);
    }

    /** The timer of a sleeping node fires. */
    method Wake()
      requires Valid() && Enabled(Now(), TimerFires)
      modifies this`pc
      ensures Valid() && Now() == Apply(nodes, old(Now()), TimerFires)
    {
      pc := Woken(pc.i);
    }

    /** The event loop resumes `runWorkflow` once the awaited promise has settled. */
    method Continue()
      requires Valid() && Enabled(Now(), Resume)
      modifies this
      ensures Valid() && Now() == Apply(nodes, old(Now()), Resume)
    {
      hide Distinct, LoopTurn, Append, End;
      match pc {
        case Woken(i) =>
          AppendEvent(NodeCompleted(i));
          pc := Returned(i, Completed);
        case Aborted(i) =>
          AppendEvent(NodeCancelled(i));
          pc := Returned(i, Cancelled);
        case Returned(i, outcome) =>
          if outcome == Completed {
            LoopFrom(i + 1);
          } else {
            Close(outcome);
          }
      }
    }

    /** `handleCancelRun`: true is the answer `cancelling`, false `alreadyTerminal`. */
    method HandleCancelRun() returns (cancelling: bool)
      requires Valid()
      modifies this`cancelRequested, this`pc
      ensures Valid() && Now() == Apply(nodes, old(Now()), Cancel)
      ensures cancelling <==> !old(status).Ended?
    {
      if status.Ended? {
        return false;
      }
      cancelRequested := true;
      if pc.Sleeping? {
        pc := Aborted(pc.i);
      }
      return true;
    }

    /** `handleEventsSse`: write the backlog after `k`, then end the response or register a listener. */
    method HandleEventsSse(id: SubscriberId, k: int)
      requires Valid() && Enabled(Now(), Subscribe(id, k))
      modifies this`responses, this`listeners
      ensures Valid() && Now() == Apply(nodes, old(Now()), Subscribe(id, k))
    {
      hide After;
      responses := responses[id := Response([], false)];
      assert events[0..] == events;
      for n := 0 to |events|
        invariant listeners == old(listeners) && id in responses && !responses[id].ended
        invariant responses == old(responses)[id := responses[id]]
        invariant responses[id].written + After(events[n..], k) == After(events, k)
      {
        AfterSplits(events, n, k);
        if events[n].at > k {
          responses := responses[id := Response(responses[id].written + [events[n]], false)];
        }
      }
      AfterNothing(events, k);
      assert responses[id].written == After(events, k);
      if status.Ended? {
        responses := responses[id := Response(responses[id].written, true)];
        assert responses == old(responses)[id := Response(After(events, k), true)];
        return;
      }
      assert responses == old(responses)[id := Response(After(events, k), false)];
      listeners := listeners + [id];
    }

    /** The request's `close` event. */
    method HandleClose(id: SubscriberId)
      requires Valid() && Enabled(Now(), Disconnect(id))
      modifies this`listeners
      ensures Valid() && Now() == Apply(nodes, old(Now()), Disconnect(id))
    {
      WithoutIsDistinct(listeners, id);
      listeners := Without(listeners, id);
    }

    /** `handleEventsPoll`. */
    method HandleEventsPoll(since: int) returns (reply: Poll)
      ensures reply == Poll(After(events, since), LastSeq(After(events, since), since), status, status.Ended?)
    {
      hide After;
      var found: seq<Entry> := [];
      assert events[0..] == events;
      for n := 0 to |events|
        invariant found + After(events[n..], since) == After(events, since)
      {
        AfterSplits(events, n, since);
        if events[n].at > since {
          found := found + [events[n]];
        }
      }
      AfterNothing(events, since);
      reply := Poll(found, if |found| > 0 then found[|found| - 1].at else since, status, status.Ended?);
    }
  }
}
