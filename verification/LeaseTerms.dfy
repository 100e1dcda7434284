/**
 * What a claim and a heartbeat buy, in clock readings: the run is the holder's for `CLAIM_TTL_MS`
 * from then on, and no longer; so heartbeats at least that often keep every lease on time.
 */
module LeaseTerms {
  import opened Options
  import opened RunTypes
  import opened SqliteStatements
  import opened LeaseProtocol
  import opened OnTimeLeases

  /** Step `a` gives process `p` the lease on run `r`, or renews it. */
  predicate Renews(s: System, a: Action, p: ProcessId, r: RunId) {
    && r in s.runs
    && ((a == Claim(p, r) && Claimable(s.runs[r].row, s.clock))
        || (a == Heartbeat(p, r) && s.runs[r].row.holder == Some(p)))
  }

  /** Step `a` is process `p` giving up run `r`: by its release statement, or by shutting down. */
  predicate GivesUp(s: System, a: Action, p: ProcessId, r: RunId) {
    || a == Shutdown(p)
    || (a == Advance(p, r) && r in s.runs && p in s.runs[r].execs && s.runs[r].execs[p].pc.Release?)
  }

  /** Process `p` does not give up run `r` in steps `i` to `j - 1`. */
  ghost predicate HoldsOn(states: seq<System>, actions: seq<Action>, i: nat, j: nat, p: ProcessId, r: RunId)
    requires j <= |actions| && |states| == |actions| + 1
  {
    forall k :: i <= k < j ==> !GivesUp(states[k], actions[k], p, r)
  }

  /** Held by `p`, with an expiry of at least `until`. */
  predicate LeasedUntil(run: Run, p: ProcessId, until: int) {
    run.row.holder == Some(p) && run.row.expires.Some? && run.row.expires.value >= until
  }

  lemma RenewalLeases(s: System, a: Action, p: ProcessId, r: RunId)
    requires Enabled(s, a) && Renews(s, a, p, r)
    ensures r in Apply(s, a).runs && Apply(s, a).runs[r].row.holder == Some(p)
    ensures Apply(s, a).runs[r].row.expires == Some(s.clock + CLAIM_TTL_MS)
  {
  }

  lemma MoveKeepsLeased(run: Run, m: Move, clock: int, p: ProcessId, until: int)
    requires CanMove(run, m) && LeasedUntil(run, p, until) && clock <= until <= clock + CLAIM_TTL_MS
    requires m != ShutdownOf(p) && !((m == AdvanceBy(p) || m == CrashBy(p)) && run.execs[p].pc.Release?)
    ensures LeasedUntil(Moved(run, m, clock), p, until)
  {
    hide HasStarted, Goto, Throw;
  }

  lemma ActionKeepsLeased(s: System, a: Action, p: ProcessId, r: RunId, until: int)
    requires Enabled(s, a) && r in s.runs && LeasedUntil(s.runs[r], p, until)
    requires s.clock <= until <= s.clock + CLAIM_TTL_MS && !GivesUp(s, a, p, r)
    ensures r in Apply(s, a).runs && LeasedUntil(Apply(s, a).runs[r], p, until)
  {
    hide LeasedUntil, Step;
    ApplyMovesRun(s, a, r);
    MoveKeepsLeased(s.runs[r], MoveOf(s, a, r), s.clock, p, until);
  }

  lemma ClockStep(s: System, a: Action)
    requires Enabled(s, a)
    ensures s.clock <= Apply(s, a).clock
  {
  }

  lemma {:induction false} ClockAdvances(states: seq<System>, actions: seq<Action>, i: nat, j: nat)
    requires History(states, actions) && i <= j < |states|
    ensures states[i].clock <= states[j].clock
    decreases j
  {
    if i < j {
      hide Enabled, Apply;
      ClockAdvances(states, actions, i, j - 1);
      assert Enabled(states[j - 1], actions[j - 1]) && states[j] == Apply(states[j - 1], actions[j - 1]);
      ClockStep(states[j - 1], actions[j - 1]);
    }
  }

  lemma {:induction false} LeasedHolds(
    states: seq<System>, actions: seq<Action>, i: nat, j: nat, p: ProcessId, r: RunId)
    requires History(states, actions) && i < j < |states| && Renews(states[i], actions[i], p, r)
    requires states[j].clock <= states[i].clock + CLAIM_TTL_MS && HoldsOn(states, actions, i + 1, j, p, r)
    ensures r in states[j].runs && LeasedUntil(states[j].runs[r], p, states[i].clock + CLAIM_TTL_MS)
    decreases j
  {
    hide Enabled, Apply, GivesUp, Renews;
    var s, a := states[j - 1], actions[j - 1];
    assert Enabled(s, a) && states[j] == Apply(s, a);
    if i == j - 1 {
      RenewalLeases(s, a, p, r);
    } else {
      hide LeasedUntil;
      ClockStep(s, a);
      ClockAdvances(states, actions, i, j - 1);
      LeasedHolds(states, actions, i, j - 1, p, r);
      ActionKeepsLeased(s, a, p, r, states[i].clock + CLAIM_TTL_MS);
    }
  }

  /**
   * What a renewal buys. For `CLAIM_TTL_MS` after a won claim or a heartbeat of the holder, as long as
   * it does not give the run up itself: it is still the holder, no claim on the run changes anything
   * and no boot scan finds it. No assumption about anybody else.
   */
  lemma LeaseIsKept(states: seq<System>, actions: seq<Action>, i: nat, j: nat, p: ProcessId, r: RunId)
    requires History(states, actions) && i < j < |states| && Renews(states[i], actions[i], p, r)
    requires states[j].clock <= states[i].clock + CLAIM_TTL_MS && HoldsOn(states, actions, i + 1, j, p, r)
    ensures r in states[j].runs && states[j].runs[r].row.holder == Some(p)
    ensures !Lapsed(states[j].runs[r].row, states[j].clock)
    ensures !Orphan(states[j].runs[r].row, states[j].clock)
    ensures forall q :: Enabled(states[j], Claim(q, r)) ==> Apply(states[j], Claim(q, r)) == states[j]
  {
    LeasedHolds(states, actions, i, j, p, r);
    hide History, HoldsOn;
    var s := states[j];
    assert s.runs[r := s.runs[r]] == s.runs;
  }

  // ---- and no more than that --------------------------------------------------------------------------------

  /** Nobody claims run `r`, and process `p` does not renew, in steps `i` to `j - 1`. */
  ghost predicate NotRenewed(actions: seq<Action>, i: nat, j: nat, p: ProcessId, r: RunId)
    requires j <= |actions|
  {
    forall k :: i <= k < j ==> actions[k] != Heartbeat(p, r) && !(actions[k].Claim? && actions[k].run == r)
  }

  /** Held by `p`, with exactly this expiry. */
  predicate LeasedTo(run: Run, p: ProcessId, until: int) {
    run.row.holder == Some(p) && run.row.expires == Some(until)
  }

  lemma MoveKeepsExpiry(run: Run, m: Move, clock: int, p: ProcessId, until: int)
    requires CanMove(run, m) && LeasedTo(run, p, until) && !m.ClaimBy? && m != HeartbeatBy(p)
    requires m != ShutdownOf(p) && !((m == AdvanceBy(p) || m == CrashBy(p)) && run.execs[p].pc.Release?)
    ensures LeasedTo(Moved(run, m, clock), p, until)
  {
    hide HasStarted, Goto, Throw;
  }

  lemma ActionKeepsExpiry(s: System, a: Action, p: ProcessId, r: RunId, until: int)
    requires Enabled(s, a) && r in s.runs && LeasedTo(s.runs[r], p, until) && !GivesUp(s, a, p, r)
    requires a != Heartbeat(p, r) && !(a.Claim? && a.run == r)
    ensures r in Apply(s, a).runs && LeasedTo(Apply(s, a).runs[r], p, until)
  {
    hide LeasedTo, Step;
    ApplyMovesRun(s, a, r);
    MoveKeepsExpiry(s.runs[r], MoveOf(s, a, r), s.clock, p, until);
  }

  lemma {:induction false} ExpiryHolds(
    states: seq<System>, actions: seq<Action>, i: nat, j: nat, p: ProcessId, r: RunId)
    requires History(states, actions) && i < j < |states| && Renews(states[i], actions[i], p, r)
    requires HoldsOn(states, actions, i + 1, j, p, r) && NotRenewed(actions, i + 1, j, p, r)
    ensures r in states[j].runs && LeasedTo(states[j].runs[r], p, states[i].clock + CLAIM_TTL_MS)
    decreases j
  {
    hide Enabled, Apply, GivesUp, Renews;
    var s, a := states[j - 1], actions[j - 1];
    assert Enabled(s, a) && states[j] == Apply(s, a);
    if i == j - 1 {
      RenewalLeases(s, a, p, r);
    } else {
      hide LeasedTo;
      ExpiryHolds(states, actions, i, j - 1, p, r);
      ActionKeepsExpiry(s, a, p, r, states[i].clock + CLAIM_TTL_MS);
    }
  }

  /**
   * The other half: without a further renewal the lease lapses exactly when the clock exceeds the
   * renewal by `CLAIM_TTL_MS`; from then on an open run is an orphan, and whoever claims it gets it.
   */
  lemma LeaseRunsOut(states: seq<System>, actions: seq<Action>, i: nat, j: nat, p: ProcessId, r: RunId)
    requires History(states, actions) && i < j < |states| && Renews(states[i], actions[i], p, r)
    requires HoldsOn(states, actions, i + 1, j, p, r) && NotRenewed(actions, i + 1, j, p, r)
    ensures r in states[j].runs
    ensures var row, late := states[j].runs[r].row, states[j].clock > states[i].clock + CLAIM_TTL_MS;
            && (Lapsed(row, states[j].clock) <==> late)
            && (Orphan(row, states[j].clock) <==> late && !row.status.Terminal?)
            && forall q :: q !in states[j].runs[r].execs ==>
                 var row' := Apply(states[j], Claim(q, r)).runs[r].row;
                 row' == if late && !row.status.Terminal?
                         then Row(row.status, Some(q), Some(states[j].clock + CLAIM_TTL_MS)) else row
  {
    ExpiryHolds(states, actions, i, j, p, r);
    hide History, HoldsOn, NotRenewed;
  }

  // ---- how often to send heartbeats ---------------------------------------------------------------------------

  /** Process `p` has an unfinished executor on run `r` in states `i` to `j`. */
  ghost predicate LiveThroughout(states: seq<System>, i: nat, j: nat, p: ProcessId, r: RunId) {
    i <= j < |states| && forall k :: i <= k <= j ==> r in states[k].runs && LiveOn(states[k].runs[r], p)
  }

  /** Step `i` is a won claim or a heartbeat of `p` at most `CLAIM_TTL_MS` before state `j`. */
  ghost predicate Recent(states: seq<System>, actions: seq<Action>, i: nat, j: nat, p: ProcessId, r: RunId)
    requires i < j < |states| == |actions| + 1
  {
    && (actions[i] == Heartbeat(p, r) ||
        (actions[i] == Claim(p, r) && r in states[i].runs && Claimable(states[i].runs[r].row, states[i].clock)))
    && states[j].clock <= states[i].clock + CLAIM_TTL_MS
    && LiveThroughout(states, i + 1, j, p, r)
  }

  /** Every live executor has claimed its run or sent a heartbeat within the last `CLAIM_TTL_MS`. */
  ghost predicate HeartbeatsOften(states: seq<System>, actions: seq<Action>)
    requires |states| == |actions| + 1
  {
    forall j, r, p :: 0 <= j < |states| && r in states[j].runs && LiveOn(states[j].runs[r], p) ==>
      exists i: nat :: i < j && Recent(states, actions, i, j, p, r)
  }

  /** A live executor has not given up its run. */
  lemma LiveHoldsOn(states: seq<System>, actions: seq<Action>, i: nat, j: nat, p: ProcessId, r: RunId)
    requires History(states, actions) && LiveThroughout(states, i, j, p, r)
    ensures HoldsOn(states, actions, i, j, p, r)
  {
    hide Enabled, Apply, GivesUp;
    forall k | i <= k < j ensures !GivesUp(states[k], actions[k], p, r) {
      assert Enabled(states[k], actions[k]) && states[k + 1] == Apply(states[k], actions[k]);
      assert r in states[k].runs && r in states[k + 1].runs && LiveOn(states[k + 1].runs[r], p);
      if GivesUp(states[k], actions[k], p, r) {
        GivingUpEnds(states[k], actions[k], p, r);
      }
    }
  }

  lemma GivingUpEnds(s: System, a: Action, p: ProcessId, r: RunId)
    requires Enabled(s, a) && GivesUp(s, a, p, r) && r in s.runs
    ensures r in Apply(s, a).runs && !LiveOn(Apply(s, a).runs[r], p)
  {
    ApplyMovesRun(s, a, r);
    hide HasStarted, Goto, Throw;
  }

  lemma {:induction false} LiveIsLeased(
    states: seq<System>, actions: seq<Action>, j: nat, p: ProcessId, r: RunId)
    requires History(states, actions) && HeartbeatsOften(states, actions)
    requires j < |states| && r in states[j].runs && LiveOn(states[j].runs[r], p)
    ensures states[j].runs[r].row.holder == Some(p) && !Lapsed(states[j].runs[r].row, states[j].clock)
    decreases j
  {
    hide Enabled, Apply, Lapsed, GivesUp, Claimable, Orphan;
    var i: nat :| i < j && Recent(states, actions, i, j, p, r);
    assert Enabled(states[i], actions[i]);
    if actions[i].Heartbeat? {
      HeartbeatIsLive(states[i], p, r);
      LiveIsLeased(states, actions, i, p, r);
    }
    LiveHoldsOn(states, actions, i + 1, j, p, r);
    LeaseIsKept(states, actions, i, j, p, r);
  }

  lemma HeartbeatIsLive(s: System, p: ProcessId, r: RunId)
    requires Enabled(s, Heartbeat(p, r))
    ensures r in s.runs && LiveOn(s.runs[r], p)
  {
  }

  /**
   * Heartbeats at least every `CLAIM_TTL_MS` are enough: then every lease is on time, so no claim is
   * stolen. The condition speaks of actions and clock readings only.
   */
  lemma HeartbeatsOftenSuffice(states: seq<System>, actions: seq<Action>)
    requires History(states, actions) && HeartbeatsOften(states, actions)
    ensures OnTimeHistory(states, actions)
  {
    forall j, r, p | 0 <= j < |states| && r in states[j].runs && LiveOn(states[j].runs[r], p)
      ensures !Lapsed(states[j].runs[r].row, states[j].clock)
    {
      LiveIsLeased(states, actions, j, p, r);
    }
    hide HeartbeatsOften, Enabled, Apply, Lapsed;
  }
}
