/**
 * The polling client of both hosts: it asks again and again with `since` set to the previous
 * `lastEventSeq`, while the run goes on.
 */
module PollCursor {
  import opened RunTypes
  import opened EventLog
  import MemoryRun
  import MemoryRunLog
  import MemoryStreams
  import Sqlite = SqliteStatements
  import LeaseProtocol
  import EventTable
  import LeaseExclusivity

  /** The logs a client's polls find, oldest first: each extends the one before. */
  ghost predicate Growing(logs: seq<seq<Entry>>) {
    && (forall i :: 0 <= i < |logs| ==> NumberedFrom(logs[i], 0))
    && (forall i, j :: 0 <= i <= j < |logs| ==> logs[i] <= logs[j])
  }

  /** What the client has collected, and its cursor, after polling these logs in turn. */
  datatype Client = Client(collected: seq<Entry>, since: int)

  function Polled(logs: seq<seq<Entry>>): Client {
    if logs == [] then Client([], -1)
    else
      var c := Polled(logs[..|logs| - 1]);
      var found := After(logs[|logs| - 1], c.since);
      Client(c.collected + found, LastSeq(found, c.since))
  }

  /** Consecutive slices: after every poll the client holds the whole log of that moment, once. */
  lemma {:induction false} PollsCollectTheLog(logs: seq<seq<Entry>>)
    requires Growing(logs)
    ensures var log := if logs == [] then [] else logs[|logs| - 1];
            Polled(logs) == Client(log, |log| - 1)
  {
    if logs != [] {
      hide After, NumberedFrom, LastSeq;
      var before, log := logs[..|logs| - 1], logs[|logs| - 1];
      PollsCollectTheLog(before);
      if before != [] {
        assert before[|before| - 1] == logs[|logs| - 2] <= log;
      }
      OnePoll(log, Polled(before));
    }
  }

  lemma OnePoll(log: seq<Entry>, c: Client)
    requires NumberedFrom(log, 0) && c.collected <= log && c.since == |c.collected| - 1
    ensures c.collected + After(log, c.since) == log && LastSeq(After(log, c.since), c.since) == |log| - 1
  {
    AfterIsSuffix(log, 0, c.since);
    hide After;
    assert StartAt(log, c.since) == |c.collected|;
    assert c.collected + log[|c.collected|..] == log;
    if After(log, c.since) != [] {
      assert log[|log| - 1].at == |log| - 1;
    }
  }

  // ---- the in-memory host ---------------------------------------------------------------------------------

  /** Poll `n` finds the run in state `times[n]`. */
  ghost predicate InOrder(times: seq<nat>, end: nat) {
    && (forall i :: 0 <= i < |times| ==> times[i] < end)
    && (forall i, j :: 0 <= i <= j < |times| ==> times[i] <= times[j])
  }

  function LogsAt(states: seq<MemoryRun.State>, times: seq<nat>): (logs: seq<seq<Entry>>)
    requires forall i :: 0 <= i < |times| ==> times[i] < |states|
    ensures |logs| == |times| && forall i :: 0 <= i < |times| ==> logs[i] == states[times[i]].log
  {
    seq(|times|, i requires 0 <= i < |times| => states[times[i]].log)
  }

  /** The collected events are the log, and a terminal answer comes with the final one. */
  lemma MemoryPolls(
    nodes: Workflow, states: seq<MemoryRun.State>, actions: seq<MemoryRun.Action>, times: seq<nat>, j: nat)
    requires MemoryRun.History(nodes, states, actions) && InOrder(times, |states|) && times != []
    requires times[|times| - 1] <= j < |states|
    ensures var now := states[times[|times| - 1]];
            && Polled(LogsAt(states, times)).collected == now.log <= states[j].log
            && (now.status.Ended? ==> states[j].log == now.log)
  {
    hide MemoryRun.History;
    var logs, last := LogsAt(states, times), times[|times| - 1];
    forall i | 0 <= i < |times| ensures NumberedFrom(logs[i], 0) {
      MemoryStreams.ClosedMeansEnded(nodes, states, actions, times[i]);
    }
    forall a, b | 0 <= a <= b < |times| ensures logs[a] <= logs[b] {
      MemoryRunLog.LogGrows(nodes, states, actions, times[a], times[b]);
    }
    PollsCollectTheLog(logs);
    MemoryRunLog.LogGrows(nodes, states, actions, last, j);
    if states[last].status.Ended? {
      EndedLogIsFinal(nodes, states, actions, last, j);
    }
  }

  lemma EndedLogIsFinal(nodes: Workflow, states: seq<MemoryRun.State>, actions: seq<MemoryRun.Action>, i: nat, j: nat)
    requires MemoryRun.History(nodes, states, actions) && i <= j < |states| && states[i].status.Ended?
    ensures states[j].log == states[i].log
  {
    hide MemoryRun.History;
    MemoryStreams.ClosedMeansEnded(nodes, states, actions, i);
    MemoryRunLog.LogGrows(nodes, states, actions, i, j);
    var k := |states[i].log| - 1;
    MemoryRunLog.TerminalEventIsLast(nodes, states, actions, i, k);
    MemoryRunLog.TerminalEventIsLast(nodes, states, actions, j, k);
  }

  // ---- the SQLite host --------------------------------------------------------------------------------------

  /** The rows of `getEventsAfter`, in order. */
  function Rows(t: Sqlite.Table): seq<Entry>
    requires EventTable.Dense(t)
  {
    Numbered(EventTable.Log(t))
  }

  lemma RowsAreNumbered(t: Sqlite.Table)
    requires EventTable.Dense(t)
    ensures NumberedFrom(Rows(t), 0)
  {
  }

  lemma ExtendedRows(t: Sqlite.Table, t': Sqlite.Table)
    requires EventTable.Dense(t) && EventTable.Dense(t') && EventTable.Extends(t, t')
    ensures Rows(t) <= Rows(t')
  {
    assert forall k: nat :: k < |t| ==> k in t;
  }

  /** A request reads the run row in state `row` and the events in state `events`. */
  datatype Reading = Reading(row: nat, events: nat)

  ghost predicate ReadingsInOrder(readings: seq<Reading>, end: nat) {
    && (forall i :: 0 <= i < |readings| ==> readings[i].row <= readings[i].events < end)
    && (forall i, j :: 0 <= i < j < |readings| ==> readings[i].events <= readings[j].row)
  }

  ghost predicate FoundRows(
    states: seq<LeaseProtocol.System>, r: LeaseProtocol.RunId, readings: seq<Reading>, logs: seq<seq<Entry>>)
  {
    |logs| == |readings| &&
    forall i :: 0 <= i < |readings| ==>
      && readings[i].events < |states| && r in states[readings[i].events].runs
      && EventTable.Dense(states[readings[i].events].runs[r].table)
      && logs[i] == Rows(states[readings[i].events].runs[r].table)
  }

  /** With no timing assumption at all, and any number of writers, polls collect the log. */
  lemma {:induction false} SqlitePolls(
    states: seq<LeaseProtocol.System>, actions: seq<LeaseProtocol.Action>, r: LeaseProtocol.RunId,
    readings: seq<Reading>, logs: seq<seq<Entry>>)
    requires LeaseProtocol.History(states, actions) && ReadingsInOrder(readings, |states|) && readings != []
    requires FoundRows(states, r, readings, logs)
    ensures Polled(logs).collected == logs[|logs| - 1]
  {
    hide LeaseProtocol.History, EventTable.Dense, EventTable.Extends, Rows, NumberedFrom;
    forall i | 0 <= i < |logs| ensures NumberedFrom(logs[i], 0) {
      RowsAreNumbered(states[readings[i].events].runs[r].table);
    }
    forall m, n | 0 <= m <= n < |readings| ensures logs[m] <= logs[n] {
      var a, b := readings[m].events, readings[n].events;
      EventTable.StoredEventsNeverChange(states, actions, a, b, r);
      ExtendedRows(states[a].runs[r].table, states[b].runs[r].table);
    }
    PollsCollectTheLog(logs);
  }

  /**
   * The status is read before the events, possibly much earlier, and still a terminal answer
   * delivers the final log: it ends in the event of the reported status and never grows again.
   */
  lemma SqliteTerminalAnswerIsFinal(
    states: seq<LeaseProtocol.System>, actions: seq<LeaseProtocol.Action>, r: LeaseProtocol.RunId,
    reading: Reading, j: nat)
    requires LeaseExclusivity.UnstolenHistory(states, actions)
    requires reading.row <= reading.events < |states| && reading.events <= j < |states|
    requires r in states[reading.row].runs && states[reading.row].runs[r].row.status.Terminal?
    ensures r in states[reading.events].runs && r in states[j].runs
    ensures var t := states[reading.events].runs[r].table;
            && EventTable.Dense(t) && states[j].runs[r].table == t && |t| > 0
            && Rows(t)[|t| - 1] == Entry(|t| - 1, RunEnded(states[reading.row].runs[r].row.status.outcome))
  {
    LeaseExclusivity.TerminalIsFinal(states, actions, reading.row, reading.events, r);
    LeaseExclusivity.TerminalIsFinal(states, actions, reading.row, j, r);
    EventTable.SequenceIsDense(states, actions, reading.events, r);
  }
}
