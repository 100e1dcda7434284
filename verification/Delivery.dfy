/**
 * End to end: a client that loses its connection any number of times and reconnects with the last
 * identifier it saw ends up with the run's log, without gaps or repetitions.
 */
module Delivery {
  import opened Options
  import opened Text
  import opened EventStream
  import opened EventStreamWire
  import opened RunTypes
  import opened EventLog
  import opened MemoryRun
  import opened MemoryRunLog
  import opened MemoryStreams

  /** `JSON.stringify` of an event, uninterpreted. */
  type Encoder = Entry -> string

  /** JSON text holds no raw line breaks. */
  ghost predicate CleanEncoder(json: Encoder) { forall e :: Clean(json(e)) }

  /** What `writeEvent` puts into the three lines. */
  function Wire(json: Encoder, entry: Entry): WireEvent {
    WireEvent(Decimal(entry.at), TypeName(entry.event), json(entry))
  }

  function Wires(json: Encoder, log: seq<Entry>): seq<WireEvent> {
    seq(|log|, i requires 0 <= i < |log| => Wire(json, log[i]))
  }

  /** The frames a reader should get for these entries. */
  function FramesFor(json: Encoder, log: seq<Entry>): (frames: seq<Frame>)
    ensures |frames| == |log|
    ensures forall i :: 0 <= i < |log| ==>
              frames[i] == Frame(TypeName(log[i].event), json(log[i]), Some(Decimal(log[i].at)))
  {
    FramesOf(Wires(json, log))
  }

  lemma DecimalIsClean(n: nat)
    ensures Clean(Decimal(n))
  {
    var s := Decimal(n);
    assert s[|s| - 1] in s;
  }

  lemma TypeIsClean(e: Event)
    ensures Clean(TypeName(e))
  {
  }

  lemma WiresAreClean(json: Encoder, log: seq<Entry>)
    requires CleanEncoder(json)
    ensures forall w :: w in Wires(json, log) ==> CleanEvent(w)
  {
    forall i | 0 <= i < |log| ensures CleanEvent(Wire(json, log[i])) {
      hide Clean, Decimal, TypeName;
      DecimalIsClean(log[i].at);
      TypeIsClean(log[i].event);
      assert Clean(json(log[i]));
    }
  }

  lemma FramesForConcat(json: Encoder, a: seq<Entry>, b: seq<Entry>)
    ensures FramesFor(json, a + b) == FramesFor(json, a) + FramesFor(json, b)
  {
    hide FramesFor, Decimal, TypeName;
  }

  /**
   * One connection: begun by step `begun`, cut off in state `closed` after `cut` characters, which
   * the network handed over in `chunks`.
   */
  datatype Connection = Connection(begun: nat, closed: nat, cut: nat, chunks: seq<string>)

  /** The number a client resumes after: its last received identifier, if it has one. */
  function Cursor(got: seq<Frame>): int {
    if got == [] then -1
    else match got[|got| - 1].id
      case None => -1
      case Some(text) => match ParseDecimal(text) case None => -1 case Some(n) => n
  }

  /** All frames received over a list of connections. */
  function Received(connections: seq<Connection>): seq<Frame> {
    if connections == [] then []
    else Received(connections[..|connections| - 1])
         + ParseTerminated(Concat(connections[|connections| - 1].chunks))
  }

  /** When the client last heard from the host. */
  function LastClosed(connections: seq<Connection>): nat {
    if connections == [] then 0 else connections[|connections| - 1].closed
  }

  /**
   * The client connects again and again, each time after the previous connection, with the last
   * identifier received so far, and reads some prefix of what the host had written by the time the
   * connection broke.
   */
  ghost predicate Session(json: Encoder, states: seq<State>, actions: seq<Action>, connections: seq<Connection>)
    requires |states| == |actions| + 1
  {
    connections == [] ||
    var before, c := connections[..|connections| - 1], connections[|connections| - 1];
    && Session(json, states, actions, before)
    && LastClosed(before) <= c.begun < c.closed < |states|
    && actions[c.begun].Subscribe?
    && actions[c.begun].after == Cursor(Received(before))
    && actions[c.begun].id in states[c.closed].responses
    && var text := PrintAll(Wires(json, states[c.closed].responses[actions[c.begun].id].written));
       c.cut <= |text| && Concat(c.chunks) == text[..c.cut]
  }

  /** The last received identifier is the number of the last received event. */
  lemma CursorOfPrefix(json: Encoder, log: seq<Entry>)
    requires NumberedFrom(log, 0)
    ensures Cursor(FramesFor(json, log)) == |log| - 1
  {
    if log != [] {
      assert FramesFor(json, log)[|log| - 1].id == Some(Decimal(log[|log| - 1].at));
      DecimalRoundTrip(|log| - 1);
    }
  }

  /** One connection continues where the previous ones stopped. */
  lemma ConnectionContinues(
    json: Encoder, log: seq<Entry>, m: nat, written: seq<Entry>, cut: nat, chunks: seq<string>)
    returns (n: nat)
    requires CleanEncoder(json) && m <= |log| && written <= log[m..]
    requires cut <= |PrintAll(Wires(json, written))| && Concat(chunks) == PrintAll(Wires(json, written))[..cut]
    ensures m <= n <= m + |written|
    ensures FramesFor(json, log[..m]) + ParseTerminated(Concat(chunks)) == FramesFor(json, log[..n])
  {
    hide PrintAll, Wire;
    var ws := Wires(json, written);
    var c := Complete(ws, cut);
    n := m + c;
    WiresAreClean(json, written);
    TruncatedRoundTrip(ws, cut);
    assert ws[..c] == Wires(json, written[..c]);
    assert log[..n] == log[..m] + written[..c];
    FramesForConcat(json, log[..m], written[..c]);
  }

  /**
   * No loss and no duplication: whatever the interleaving of the run with subscriptions, and however
   * the connections are cut and chunked, the client has received exactly a prefix of the log.
   */
  lemma {:induction false} ReceivedIsPrefix(
    json: Encoder, nodes: Workflow, states: seq<State>, actions: seq<Action>, connections: seq<Connection>)
    requires CleanEncoder(json) && History(nodes, states, actions)
    requires Session(json, states, actions, connections)
    ensures LastClosed(connections) < |states|
    ensures var got, log := Received(connections), states[LastClosed(connections)].log;
            |got| <= |log| && got == FramesFor(json, log[..|got|])
  {
    assert |states| == |actions| + 1;
    hide History, ParseTerminated, PrintAll, Wires, Cursor, FramesFor;
    if connections == [] {
      StatesExist(nodes, states, actions);
      assert FramesFor(json, states[0].log[..0]) == [];
    } else {
      ReceivedIsPrefix(json, nodes, states, actions, connections[..|connections| - 1]);
      ReceivedStep(json, nodes, states, actions, connections);
    }
  }

  lemma ReceivedStep(
    json: Encoder, nodes: Workflow, states: seq<State>, actions: seq<Action>, connections: seq<Connection>)
    requires CleanEncoder(json) && History(nodes, states, actions)
    requires Session(json, states, actions, connections) && connections != []
    requires var before := connections[..|connections| - 1];
             && LastClosed(before) < |states|
             && |Received(before)| <= |states[LastClosed(before)].log|
             && Received(before) == FramesFor(json, states[LastClosed(before)].log[..|Received(before)|])
    ensures LastClosed(connections) < |states|
    ensures var got, log := Received(connections), states[LastClosed(connections)].log;
            |got| <= |log| && got == FramesFor(json, log[..|got|])
  {
    assert |states| == |actions| + 1;
    var before, c := connections[..|connections| - 1], connections[|connections| - 1];
    var got := Received(before);
    assert Received(connections) == got + ParseTerminated(Concat(c.chunks));
    hide History, ParseTerminated, PrintAll, Wires, Cursor, FramesFor, Received, NumberedFrom;
    var first, atBegin, log := states[LastClosed(before)].log, states[c.begun].log, states[c.closed].log;
    LogGrows(nodes, states, actions, LastClosed(before), c.begun);
    LogGrows(nodes, states, actions, c.begun, c.closed);
    ClosedMeansEnded(nodes, states, actions, LastClosed(before));
    GoneStreamIsPrefix(nodes, states, actions, c.begun, c.closed);
    var written := states[c.closed].responses[actions[c.begun].id].written;
    hide Session, Closed;
    ConnectionAdds(json, first, atBegin, log, got, written, c.cut, c.chunks);
  }

  /** The same on the logs alone: `got` covers the start of `first`, and the logs extend each other. */
  lemma ConnectionAdds(
    json: Encoder, first: seq<Entry>, atBegin: seq<Entry>, log: seq<Entry>, got: seq<Frame>,
    written: seq<Entry>, cut: nat, chunks: seq<string>)
    requires CleanEncoder(json) && first <= atBegin <= log && NumberedFrom(first, 0)
    requires |got| <= |first| && got == FramesFor(json, first[..|got|])
    requires StartAt(atBegin, Cursor(got)) <= |log| && written <= log[StartAt(atBegin, Cursor(got))..]
    requires cut <= |PrintAll(Wires(json, written))| && Concat(chunks) == PrintAll(Wires(json, written))[..cut]
    ensures var got' := got + ParseTerminated(Concat(chunks));
            |got'| <= |log| && got' == FramesFor(json, log[..|got'|])
  {
    hide ParseTerminated, PrintAll, Wires, Cursor, FramesFor;
    var m := |got|;
    PrefixIsNumbered(first, m);
    CursorOfPrefix(json, first[..m]);
    assert first[..m] == log[..m];
    assert StartAt(atBegin, m - 1) == m;
    hide NumberedFrom, StartAt;
    var n := ConnectionContinues(json, log, m, written, cut, chunks);
    assert |FramesFor(json, log[..n])| == n;
  }

  lemma StatesExist(nodes: Workflow, states: seq<State>, actions: seq<Action>)
    requires History(nodes, states, actions)
    ensures |states| > 0
  {
  }

  lemma PrefixIsNumbered(log: seq<Entry>, m: nat)
    requires NumberedFrom(log, 0) && m <= |log|
    ensures NumberedFrom(log[..m], 0)
  {
  }

  predicate TerminalType(name: string) { name in ["run.completed", "run.failed", "run.cancelled"] }

  lemma TerminalTypeIsRunEnded(e: Event)
    ensures TerminalType(TypeName(e)) <==> e.RunEnded?
  {
  }

  /**
   * A client that has seen a terminal event has seen the whole log, and the log stays as it is.
   */
  lemma TerminalCompletesTheLog(
    json: Encoder, nodes: Workflow, states: seq<State>, actions: seq<Action>, connections: seq<Connection>,
    k: nat, j: nat)
    requires CleanEncoder(json) && History(nodes, states, actions)
    requires Session(json, states, actions, connections)
    requires k < |Received(connections)| && TerminalType(Received(connections)[k].event)
    requires LastClosed(connections) <= j < |states|
    ensures states[j].status.Ended? && k == |states[j].log| - 1
    ensures Received(connections) == FramesFor(json, states[j].log)
  {
    var i := LastClosed(connections);
    ReceivedIsPrefix(json, nodes, states, actions, connections);
    hide History, Session, Received, FramesFor;
    var got, log := Received(connections), states[i].log;
    assert got[k].event == TypeName(log[k].event);
    TerminalTypeIsRunEnded(log[k].event);
    TerminalEventIsLast(nodes, states, actions, i, k);
    assert |got| == |log| && log[..|log|] == log;
    LogGrows(nodes, states, actions, i, j);
    assert states[j].log[k] == log[k];
    TerminalEventIsLast(nodes, states, actions, j, k);
  }
}
