/**
 * Concurrent duplicates of a create request, exactly: which of them are processed, and which of those
 * end in a 500 with a second run left behind.
 */
module SqliteDuplicates {
  import opened Options
  import C = IdempotencyCache
  import opened SqliteIdempotency

  /** Step `u` answers some request for key `k` with a fresh 201. */
  predicate FreshAt(states: seq<System>, actions: seq<Action>, u: nat, k: Key)
    requires |states| == |actions| + 1 && u < |actions|
  {
    actions[u].Step? && Answers(states, actions, u, actions[u].id, k)
    && states[u + 1].jobs[actions[u].id].pc.reply.Fresh201?
  }

  /** A fresh 201 before state `n`, whose row has not been deleted since. */
  ghost predicate AnsweredAt(states: seq<System>, actions: seq<Action>, u: nat, n: nat, k: Key)
    requires |states| == |actions| + 1 && u < n < |states|
  {
    FreshAt(states, actions, u, k) && NotDeleted(states, u + 1, n, k)
  }

  lemma FreshStoresRow(states: seq<System>, actions: seq<Action>, u: nat, k: Key)
    requires History(states, actions) && u < |actions| && FreshAt(states, actions, u, k)
    ensures k !in states[u].keys
    ensures k in states[u + 1].keys && states[u + 1].keys[k].storedAt == states[u].clock
  {
    var a := actions[u];
    assert Enabled(states[u], a) && states[u + 1] == StepJob(states[u], a.id, a.newId);
    hide StepJob;
    AnswerIsTheRow(states[u], a.id, a.newId, k);
  }

  /** A row appears only with a fresh 201. */
  lemma RowsAppearWithAnswers(states: seq<System>, actions: seq<Action>, u: nat, k: Key)
    requires History(states, actions) && u < |actions| && k !in states[u].keys && k in states[u + 1].keys
    ensures FreshAt(states, actions, u, k)
  {
    assert Enabled(states[u], actions[u]) && states[u + 1] == Apply(states[u], actions[u]);
  }

  /** The row of a key is there if and only if some fresh 201 stored it and no prune has deleted it since. */
  lemma {:induction false} RowMeansAnswer(states: seq<System>, actions: seq<Action>, n: nat, k: Key)
    requires History(states, actions) && n < |states|
    ensures k in states[n].keys <==> exists u: nat :: u < n && AnsweredAt(states, actions, u, n, k)
  {
    hide FreshAt;
    forall u: nat | u < n && AnsweredAt(states, actions, u, n, k) ensures k in states[n].keys {
      FreshStoresRow(states, actions, u, k);
      RowStays(states, actions, u + 1, n, k);
    }
    if n > 0 && k in states[n].keys {
      if k in states[n - 1].keys {
        RowMeansAnswer(states, actions, n - 1, k);
        var u: nat :| u < n - 1 && AnsweredAt(states, actions, u, n - 1, k);
        assert AnsweredAt(states, actions, u, n, k);
      } else {
        RowsAppearWithAnswers(states, actions, n - 1, k);
        assert AnsweredAt(states, actions, n - 1, n, k);
      }
    }
  }

  /** Step `i` is the lookup of request `id` for key `k`. */
  predicate LooksUp(states: seq<System>, actions: seq<Action>, i: nat, id: JobId, k: Key)
    requires |states| == |actions| + 1 && i < |actions|
  {
    actions[i].Step? && actions[i].id == id
    && id in states[i].jobs && states[i].jobs[id].key == Some(k) && states[i].jobs[id].pc.Lookup?
  }

  /** Step `t` is the insertion of the key row by request `id`. */
  predicate InsertsKey(states: seq<System>, actions: seq<Action>, t: nat, id: JobId, k: Key)
    requires |states| == |actions| + 1 && t < |actions|
  {
    actions[t].Step? && actions[t].id == id
    && id in states[t].jobs && states[t].jobs[id].key == Some(k) && states[t].jobs[id].pc.InsertKey?
  }

  /**
   * Which duplicates are processed: a request goes on to insert a run if and only if at its lookup no
   * fresh 201 for its key has been given that still counts. Nothing keeps two requests from both doing so.
   */
  lemma ProcessedIffUnanswered(states: seq<System>, actions: seq<Action>, i: nat, id: JobId, k: Key)
    requires History(states, actions) && i < |actions| && LooksUp(states, actions, i, id, k)
    ensures id in states[i + 1].jobs
    ensures states[i + 1].jobs[id].pc == InsertRun <==>
              forall u: nat :: u < i ==> !AnsweredAt(states, actions, u, i, k)
  {
    assert Enabled(states[i], actions[i]) && states[i + 1] == Apply(states[i], actions[i]);
    RowMeansAnswer(states, actions, i, k);
    hide AnsweredAt, History;
  }

  lemma InsertAnswers(s: System, id: JobId, newId: RunId, k: Key)
    requires Enabled(s, Step(id, newId)) && s.jobs[id].key == Some(k) && s.jobs[id].pc.InsertKey?
    ensures StepJob(s, id, newId).jobs[id].pc
         == Done(if k in s.keys then Error500 else Fresh201(s.jobs[id].pc.response))
  {
  }

  /**
   * The race, exactly and without a time limit: a request whose lookup at step `i` missed is answered
   * 500 at its insertion at step `t` if and only if another request for the key was answered by a fresh
   * 201 in between, and that row is still there. Otherwise it is answered 201 itself.
   */
  lemma ConflictIffRaced(states: seq<System>, actions: seq<Action>, i: nat, t: nat, id: JobId, k: Key)
    requires History(states, actions) && i < t < |actions|
    requires LooksUp(states, actions, i, id, k) && k !in states[i].keys && InsertsKey(states, actions, t, id, k)
    ensures id in states[t + 1].jobs
    ensures states[t + 1].jobs[id].pc == Done(Error500) <==>
              exists u: nat :: i < u < t && AnsweredAt(states, actions, u, t, k)
    ensures states[t + 1].jobs[id].pc != Done(Error500) ==>
              states[t + 1].jobs[id].pc == Done(Fresh201(states[t].jobs[id].pc.response))
  {
    var s := states[t];
    assert Enabled(s, actions[t]) && states[t + 1] == StepJob(s, id, actions[t].newId);
    hide StepJob;
    InsertAnswers(s, id, actions[t].newId, k);
    RowMeansAnswer(states, actions, t, k);
    forall u: nat | u < t && AnsweredAt(states, actions, u, t, k) ensures i < u {
      hide AnsweredAt;
      LookupsCutOff(states, actions, u, i, t, id, k);
    }
    hide AnsweredAt, History;
  }

  /** An answer whose row is still there at `t` was given after every lookup before `t` that missed. */
  lemma LookupsCutOff(states: seq<System>, actions: seq<Action>, u: nat, i: nat, t: nat, id: JobId, k: Key)
    requires History(states, actions) && u < t < |actions| && i < t && AnsweredAt(states, actions, u, t, k)
    requires LooksUp(states, actions, i, id, k) && k !in states[i].keys
    ensures i < u
  {
    FreshStoresRow(states, actions, u, k);
    assert states[i + 1] == Apply(states[i], actions[i]);
    hide StepJob, FreshAt;
    if u < i {
      assert NotDeleted(states, u + 1, i, k);
      RowStays(states, actions, u + 1, i, k);
    } else if u == i {
      LookupStoresNothing(states[i], id, actions[i].newId);
    }
  }

  lemma LookupStoresNothing(s: System, id: JobId, newId: RunId)
    requires id in s.jobs && s.jobs[id].pc.Lookup?
    ensures StepJob(s, id, newId).keys == s.keys
  {
  }

  /** For 24 hours after a fresh 201 its row is there. */
  lemma AnswerLasts(states: seq<System>, actions: seq<Action>, w: nat, n: nat, k: Key)
    requires History(states, actions) && w < n < |states| && FreshAt(states, actions, w, k)
    requires states[n].clock <= states[w].clock + C.IDEMPOTENCY_TTL_MS
    ensures NotDeleted(states, w + 1, n, k) && k in states[n].keys
  {
    hide FreshAt;
    FreshStoresRow(states, actions, w, k);
    RowLivesADay(states, actions, w + 1, n, k);
    RowStays(states, actions, w + 1, n, k);
  }

  /** The same within 24 hours, where no row that matters can have been deleted. */
  lemma ConflictIffRacedWithinADay(states: seq<System>, actions: seq<Action>, i: nat, t: nat, id: JobId, k: Key)
    requires History(states, actions) && i < t < |actions|
    requires LooksUp(states, actions, i, id, k) && k !in states[i].keys && InsertsKey(states, actions, t, id, k)
    requires states[t].clock <= states[i].clock + C.IDEMPOTENCY_TTL_MS
    ensures id in states[t + 1].jobs
    ensures states[t + 1].jobs[id].pc == Done(Error500) <==>
              exists u: nat :: i < u < t && FreshAt(states, actions, u, k)
    ensures states[t + 1].jobs[id].pc != Done(Error500) ==>
              states[t + 1].jobs[id].pc == Done(Fresh201(states[t].jobs[id].pc.response))
  {
    ConflictIffRaced(states, actions, i, t, id, k);
    forall u: nat | i < u < t && FreshAt(states, actions, u, k) ensures AnsweredAt(states, actions, u, t, k) {
      ClockAdvances(states, actions, i, u);
      AnswerLasts(states, actions, u, t, k);
    }
    hide History, FreshAt;
  }

  /**
   * When two duplicates are both processed: request `id` missed at step `i` and was answered by a fresh
   * 201 at step `u`. Another one that looks up at step `j > i` goes on to insert a run if and only if it
   * does so before that answer, all within 24 hours.
   */
  lemma BothProcessedIffRaced(
    states: seq<System>, actions: seq<Action>, i: nat, u: nat, j: nat, id: JobId, id': JobId, k: Key)
    requires History(states, actions) && i < u < |actions| && i < j < |actions|
    requires LooksUp(states, actions, i, id, k) && k !in states[i].keys
    requires FreshAt(states, actions, u, k) && actions[u].id == id
    requires LooksUp(states, actions, j, id', k)
    requires states[u].clock <= states[i].clock + C.IDEMPOTENCY_TTL_MS
    requires states[j].clock <= states[i].clock + C.IDEMPOTENCY_TTL_MS
    ensures id' in states[j + 1].jobs
    ensures states[j + 1].jobs[id'].pc == InsertRun <==> j < u
  {
    ProcessedIffUnanswered(states, actions, j, id', k);
    FreshStoresRow(states, actions, u, k);
    ClockAdvances(states, actions, i, u);
    if u < j {
      AnswerLasts(states, actions, u, j, k);
      assert AnsweredAt(states, actions, u, j, k);
    } else if u == j {
      assert states[j + 1] == Apply(states[j], actions[j]);
    } else {
      hide FreshAt;
      forall w: nat | w < j && AnsweredAt(states, actions, w, j, k) ensures false {
        LookupsCutOff(states, actions, w, i, j, id, k);
        ClockAdvances(states, actions, i, w);
        AnswerLasts(states, actions, w, u, k);
      }
    }
    hide History, FreshAt, AnsweredAt;
  }
}
