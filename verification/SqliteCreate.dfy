/**
 * The SQLite create handler in one piece: without a race it answers exactly like the in-memory
 * cache, and with one it can leave a run behind that no key names.
 */
module SqliteCreate {
  import opened Options
  import C = IdempotencyCache
  import opened SqliteIdempotency

  /** The two tables a create request touches before it claims its run. */
  class Tables {
    var runs: set<RunId>
    var keys: C.Cache

    method PruneIdempotency(now: int)
      modifies this`keys
      ensures keys == C.Pruned(old(keys), now - C.IDEMPOTENCY_TTL_MS)
    {
      keys := map k | k in keys && !(keys[k].storedAt < now - C.IDEMPOTENCY_TTL_MS) :: keys[k];
    }

    method GetIdempotency(k: Key) returns (row: Option<C.Entry>)
      ensures row == if k in keys then Some(keys[k]) else None
    {
      row := if k in keys then Some(keys[k]) else None;
    }

    method InsertRun(r: RunId)
      requires r !in runs
      modifies this`runs
      ensures runs == old(runs) + {r}
    {
      runs := runs + {r};
    }

    /** False where the primary key is taken. */
    method InsertIdempotency(k: Key, row: C.Entry) returns (stored: bool)
      modifies this`keys
      ensures stored == (k !in old(keys))
      ensures keys == if stored then old(keys)[k := row] else old(keys)
    {
      stored := k !in keys;
      if stored {
        keys := keys[k := row];
      }
    }

    /** `handleCreateRun` with no other process in between: the insertion cannot conflict. */
    method HandleCreateRun(q: C.Request) returns (reply: C.Reply)
      requires q.newId !in runs
      modifies this
      ensures reply == C.ReplyTo(old(keys), q)
      ensures keys == C.CacheAfter(old(keys), q)
      ensures runs == C.RunsAfter(old(runs), old(keys), q)
    {
      if q.check != C.Valid {
        return C.Rejected(q.check);
      }
      if q.key.Some? {
        PruneIdempotency(q.prunedAt);
        var cached := GetIdempotency(q.key.value);
        if cached.Some? {
          if cached.value.body != q.body {
            return C.Conflict;
          }
          return C.Replayed(cached.value.response);
        }
      }
      InsertRun(q.newId);
      var response := C.Response(q.newId, q.startedAt);
      if q.key.Some? {
        var stored := InsertIdempotency(q.key.value, C.Entry(response, q.body, q.storedAt));
        assert stored;
      }
      reply := C.Accepted(response);
    }
  }

  // ---- statements in sequence ---------------------------------------------------------------------------

  /** Up to `n` statements of one request, with nobody in between and the clock standing still. */
  function RunJob(s: System, id: JobId, newId: RunId, n: nat): System
    requires id in s.jobs
    decreases n
  {
    if n == 0 || !InFlight(s.jobs[id].pc) then s else RunJob(StepJob(s, id, newId), id, newId, n - 1)
  }

  function AsReply(reply: C.Reply): Reply
    requires !reply.Rejected?
  {
    match reply
    case Conflict => Conflict409
    case Replayed(response) => Replay201(response)
    case Accepted(response) => Fresh201(response)
  }

  /** Four statements suffice, and together they are the handler. */
  lemma UninterruptedJob(s: System, id: JobId, newId: RunId)
    requires id in s.jobs && newId !in s.runs
    requires s.jobs[id].pc == if s.jobs[id].key.Some? then Prune else InsertRun
    ensures var job := s.jobs[id];
            var q := C.Request(job.key, job.body, C.Valid, s.clock, s.clock, s.clock, newId);
            var s' := RunJob(s, id, newId, 4);
            && id in s'.jobs && s'.jobs[id].pc == Done(AsReply(C.ReplyTo(s.keys, q)))
            && s'.keys == C.CacheAfter(s.keys, q)
            && s'.runs == C.RunsAfter(s.runs, s.keys, q)
  {
    hide RunJob;
    RunJobStep(s, id, newId, 4);
    var s1 := StepJob(s, id, newId);
    RunJobStep(s1, id, newId, 3);
    var s2 := StepJob(s1, id, newId);
    RunJobStep(s2, id, newId, 2);
    var s3 := StepJob(s2, id, newId);
    RunJobStep(s3, id, newId, 1);
    RunJobStep(StepJob(s3, id, newId), id, newId, 0);
  }

  lemma RunJobStep(s: System, id: JobId, newId: RunId, n: nat)
    requires id in s.jobs
    ensures n > 0 && InFlight(s.jobs[id].pc) ==>
              RunJob(s, id, newId, n) == RunJob(StepJob(s, id, newId), id, newId, n - 1)
    ensures n == 0 || !InFlight(s.jobs[id].pc) ==> RunJob(s, id, newId, n) == s
  {
  }

  // ---- a race ---------------------------------------------------------------------------------------------

  ghost predicate Reachable(s: System) {
    exists states, actions :: History(states, actions) && states[|states| - 1] == s
  }

  lemma ReachableStep(s: System, a: Action)
    requires Reachable(s) && Enabled(s, a)
    ensures Reachable(Apply(s, a))
  {
    hide Enabled, Apply;
    var states, actions :| History(states, actions) && states[|states| - 1] == s;
    assert History(states + [Apply(s, a)], actions + [a]);
  }

  const FIRST := Job("p", Some("k"), "body", Prune, None)
  const SECOND := Job("q", Some("k"), "body", Prune, None)

  function Two(runs: set<RunId>, keys: C.Cache, first: Job, second: Job): System {
    System(0, runs, keys, map[1 := first, 2 := second])
  }

  /** One statement of the first or the second request. */
  lemma StepTwo(runs: set<RunId>, keys: C.Cache, first: Job, second: Job, id: JobId, newId: RunId)
    requires Reachable(Two(runs, keys, first, second)) && newId !in runs && (id == 1 || id == 2)
    requires InFlight((if id == 1 then first else second).pc)
    ensures Reachable(StepJob(Two(runs, keys, first, second), id, newId))
  {
    hide Reachable, StepJob;
    ReachableStep(Two(runs, keys, first, second), Step(id, newId));
  }

  lemma BothArrive()
    ensures Reachable(Two({}, map[], FIRST, SECOND))
  {
    var s0 := System(0, {}, map[], map[]);
    assert History([s0], []);
    assert [s0][|[s0]| - 1] == s0;
    ReachableStep(s0, Arrive(1, "p", Some("k"), "body"));
    var s1 := System(0, {}, map[], map[1 := FIRST]);
    assert Apply(s0, Arrive(1, "p", Some("k"), "body")) == s1;
    hide Reachable;
    ReachableStep(s1, Arrive(2, "q", Some("k"), "body"));
    assert Apply(s1, Arrive(2, "q", Some("k"), "body")) == Two({}, map[], FIRST, SECOND);
  }

  /** Both requests find no row before either has inserted one. */
  lemma BothMiss()
    ensures Reachable(Two({}, map[], FIRST.(pc := InsertRun), SECOND.(pc := InsertRun)))
  {
    hide Reachable;
    BothArrive();
    StepTwo({}, map[], FIRST, SECOND, 1, "");
    assert StepJob(Two({}, map[], FIRST, SECOND), 1, "") == Two({}, map[], FIRST.(pc := Lookup), SECOND);
    StepTwo({}, map[], FIRST.(pc := Lookup), SECOND, 2, "");
    assert StepJob(Two({}, map[], FIRST.(pc := Lookup), SECOND), 2, "")
        == Two({}, map[], FIRST.(pc := Lookup), SECOND.(pc := Lookup));
    StepTwo({}, map[], FIRST.(pc := Lookup), SECOND.(pc := Lookup), 1, "");
    assert StepJob(Two({}, map[], FIRST.(pc := Lookup), SECOND.(pc := Lookup)), 1, "")
        == Two({}, map[], FIRST.(pc := InsertRun), SECOND.(pc := Lookup));
    StepTwo({}, map[], FIRST.(pc := InsertRun), SECOND.(pc := Lookup), 2, "");
    assert StepJob(Two({}, map[], FIRST.(pc := InsertRun), SECOND.(pc := Lookup)), 2, "")
        == Two({}, map[], FIRST.(pc := InsertRun), SECOND.(pc := InsertRun));
  }

  /** Then both insert a run, and only one of them the key. */
  lemma RaceLeavesTwoRuns()
    ensures exists s :: Reachable(s) && |s.runs| == 2 && |s.keys| == 1 &&
                        1 in s.jobs && s.jobs[1].pc.Done? && s.jobs[1].pc.reply.Fresh201? &&
                        2 in s.jobs && s.jobs[2].pc == Done(Error500) && s.jobs[1].key == s.jobs[2].key
  {
    hide Reachable;
    var a, b := C.Response("a", 0), C.Response("b", 0);
    var first, second := FIRST.(pc := InsertRun), SECOND.(pc := InsertRun);
    BothMiss();
    StepTwo({}, map[], first, second, 1, "a");
    var first1 := FIRST.(pc := InsertKey(a), created := Some("a"));
    assert StepJob(Two({}, map[], first, second), 1, "a") == Two({"a"}, map[], first1, second);
    StepTwo({"a"}, map[], first1, second, 2, "b");
    var second1 := SECOND.(pc := InsertKey(b), created := Some("b"));
    assert StepJob(Two({"a"}, map[], first1, second), 2, "b") == Two({"a", "b"}, map[], first1, second1);
    StepTwo({"a", "b"}, map[], first1, second1, 1, "c");
    var first2, keys := first1.(pc := Done(Fresh201(a))), map["k" := C.Entry(a, "body", 0)];
    assert StepJob(Two({"a", "b"}, map[], first1, second1), 1, "c") == Two({"a", "b"}, keys, first2, second1);
    StepTwo({"a", "b"}, keys, first2, second1, 2, "c");
    var s := Two({"a", "b"}, keys, first2, second1.(pc := Done(Error500)));
    assert StepJob(Two({"a", "b"}, keys, first2, second1), 2, "c") == s;
  }
}
