/**
 * The event table under arbitrary interleavings of COUNT and INSERT, with no assumption on timing:
 * sequence numbers stay dense, and stored events never change.
 */
module EventTable {
  import opened Options
  import opened RunTypes
  import opened SqliteStatements
  import opened LeaseProtocol

  /** The stored sequence numbers are exactly 0, 1, ..., n - 1. */
  ghost predicate Dense(t: Table) { forall k: nat :: k in t <==> k < |t| }

  /** Everything stored stays stored, unchanged. */
  ghost predicate Extends(t: Table, t': Table) {
    |t| <= |t'| && forall k :: k in t ==> k in t' && t'[k] == t[k]
  }

  /** Every outstanding COUNT result is at most the current count. */
  ghost predicate CountsAreOld(run: Run) {
    forall p :: p in run.execs && run.execs[p].pc.InsertEvent? ==> run.execs[p].pc.at <= |run.table|
  }

  ghost predicate TableInv(run: Run) { Dense(run.table) && CountsAreOld(run) }

  lemma InsertKeepsDense(t: Table, at: nat, e: Event)
    requires Dense(t) && at <= |t| && at !in t
    ensures at == |t| && Dense(t[at := e]) && Extends(t, t[at := e])
  {
  }

  /** One statement of one executor. */
  lemma AdvanceKeepsTable(run: Run, pid: ProcessId)
    requires TableInv(run) && pid in run.execs
    ensures TableInv(AdvanceRun(run, pid)) && Extends(run.table, AdvanceRun(run, pid).table)
  {
    var pc := run.execs[pid].pc;
    if pc.InsertEvent? && pc.at !in run.table {
      InsertKeepsDense(run.table, pc.at, pc.event);
    }
  }

  lemma MoveKeepsTable(run: Run, m: Move, clock: int)
    requires TableInv(run) && CanMove(run, m)
    ensures TableInv(Moved(run, m, clock)) && Extends(run.table, Moved(run, m, clock).table)
  {
    if m.AdvanceBy? || m.CrashBy? {
      AdvanceKeepsTable(run, m.pid);
    }
  }

  /** Sequence numbers are dense in every reachable state, and events are immutable. */
  lemma {:induction false} SequenceIsDense(states: seq<System>, actions: seq<Action>, i: nat, r: RunId)
    requires History(states, actions) && i < |states| && r in states[i].runs
    ensures TableInv(states[i].runs[r])
  {
    if i > 0 {
      if r in states[i - 1].runs {
        SequenceIsDense(states, actions, i - 1, r);
        ApplyMovesRun(states[i - 1], actions[i - 1], r);
        MoveKeepsTable(states[i - 1].runs[r], MoveOf(states[i - 1], actions[i - 1], r), states[i - 1].clock);
      } else {
        NewRunsAreCreated(states[i - 1], actions[i - 1], r);
      }
    }
  }

  lemma {:induction false} StoredEventsNeverChange(
    states: seq<System>, actions: seq<Action>, i: nat, j: nat, r: RunId)
    requires History(states, actions) && i <= j < |states| && r in states[i].runs
    ensures r in states[j].runs && Extends(states[i].runs[r].table, states[j].runs[r].table)
    decreases j
  {
    if i < j {
      StoredEventsNeverChange(states, actions, i, j - 1, r);
      ApplyMovesRun(states[j - 1], actions[j - 1], r);
      SequenceIsDense(states, actions, j - 1, r);
      MoveKeepsTable(states[j - 1].runs[r], MoveOf(states[j - 1], actions[j - 1], r), states[j - 1].clock);
    }
  }

  /** The log as a list: `SELECT ... ORDER BY seq ASC`. */
  function Log(t: Table): (log: seq<Event>)
    requires Dense(t)
    ensures |log| == |t| && forall k :: 0 <= k < |t| ==> log[k] == t[k]
  {
    seq(|t|, k requires 0 <= k < |t| => t[k])
  }

  /** An INSERT at the count appends to the log. */
  lemma LogAppends(t: Table, e: Event)
    requires Dense(t)
    ensures Dense(t[|t| := e]) && Log(t[|t| := e]) == Log(t) + [e]
  {
  }
}
