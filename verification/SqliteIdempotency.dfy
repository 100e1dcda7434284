/**
 * Create requests of any number of processes racing on the SQLite idempotency table, one statement
 * at a time. The run row is inserted before the key row, and nothing ties the two together.
 */
module SqliteIdempotency {
  import opened Options
  import C = IdempotencyCache

  type Key = C.Key
  type RunId = C.RunId
  type Response = C.Response
  type JobId = nat
  type ProcessId = string

  datatype Reply = Conflict409 | Replay201(response: Response) | Fresh201(response: Response) | Error500

  /** The next statement of a create request whose body has passed validation. */
  datatype Pc = Prune | Lookup | InsertRun | InsertKey(response: Response) | Done(reply: Reply) | Gone

  /** A request in flight or answered; `created` records the run row it inserted, if any. */
  datatype Job = Job(process: ProcessId, key: Option<Key>, body: string, pc: Pc, created: Option<RunId>)

  datatype System = System(clock: int, runs: set<RunId>, keys: C.Cache, jobs: map<JobId, Job>)

  datatype Action =
    | Tick(now: int)
    | Arrive(id: JobId, process: ProcessId, key: Option<Key>, body: string)
    | Step(id: JobId, newId: RunId)
    | Kill(process: ProcessId)

  predicate InFlight(pc: Pc) { !pc.Done? && !pc.Gone? }

  predicate Enabled(s: System, a: Action) {
    match a
    case Tick(now) => s.clock <= now
    case Arrive(id, _, _, _) => id !in s.jobs
    case Step(id, newId) => id in s.jobs && InFlight(s.jobs[id].pc) && newId !in s.runs
    case Kill(_) => true
  }

  /** `SELECT * FROM idempotency WHERE cache_key = ?`, and the answer if there is a row. */
  function AfterLookup(keys: C.Cache, job: Job): Pc {
    if job.key.None? || job.key.value !in keys then InsertRun
    else if keys[job.key.value].body != job.body then Done(Conflict409)
    else Done(Replay201(keys[job.key.value].response))
  }

  /** One statement of request `id`. A duplicate key row is a primary-key violation: status 500. */
  function StepJob(s: System, id: JobId, newId: RunId): System
    requires id in s.jobs
  {
    var job := s.jobs[id];
    match job.pc
    case Prune =>
      s.(keys := C.Pruned(s.keys, s.clock - C.IDEMPOTENCY_TTL_MS), jobs := s.jobs[id := job.(pc := Lookup)])
    case Lookup => s.(jobs := s.jobs[id := job.(pc := AfterLookup(s.keys, job))])
    case InsertRun =>
      var response := C.Response(newId, s.clock);
      var next := if job.key.Some? then InsertKey(response) else Done(Fresh201(response));
      s.(runs := s.runs + {newId}, jobs := s.jobs[id := job.(pc := next, created := Some(newId))])
    case InsertKey(response) =>
      if job.key.None? || job.key.value in s.keys then s.(jobs := s.jobs[id := job.(pc := Done(Error500))])
      else s.(keys := s.keys[job.key.value := C.Entry(response, job.body, s.clock)],
              jobs := s.jobs[id := job.(pc := Done(Fresh201(response)))])
    case Done(_) => s
    case Gone => s
  }

  function Killed(job: Job, process: ProcessId): Job {
    if job.process == process && InFlight(job.pc) then job.(pc := Gone) else job
  }

  function Apply(s: System, a: Action): System
    requires Enabled(s, a)
  {
    match a
    case Tick(now) => s.(clock := now)
    case Arrive(id, process, key, body) =>
      s.(jobs := s.jobs[id := Job(process, key, body, if key.Some? then Prune else InsertRun, None)])
    case Step(id, newId) => StepJob(s, id, newId)
    case Kill(process) => s.(jobs := map id | id in s.jobs :: Killed(s.jobs[id], process))
  }

  ghost predicate History(states: seq<System>, actions: seq<Action>) {
    && |states| == |actions| + 1
    && states[0].runs == {} && states[0].keys == map[] && states[0].jobs == map[]
    && forall i :: 0 <= i < |actions| ==>
         Enabled(states[i], actions[i]) && states[i + 1] == Apply(states[i], actions[i])
  }

  // ---- one answer per key between two deletions -----------------------------------------------------------

  /** Step `t` answers request `id`, which carries key `k`, with a 201. */
  predicate Answers(states: seq<System>, actions: seq<Action>, t: nat, id: JobId, k: Key)
    requires |states| == |actions| + 1 && t < |actions|
  {
    && actions[t].Step? && actions[t].id == id
    && id in states[t].jobs && states[t].jobs[id].key == Some(k)
    && id in states[t + 1].jobs && states[t + 1].jobs[id].pc.Done?
    && (states[t + 1].jobs[id].pc.reply.Fresh201? || states[t + 1].jobs[id].pc.reply.Replay201?)
  }

  /** No step between states `i` and `j` deletes the row of key `k`. */
  ghost predicate NotDeleted(states: seq<System>, i: nat, j: nat, k: Key)
    requires j < |states|
  {
    forall t :: i <= t < j && k in states[t].keys ==> k in states[t + 1].keys
  }

  /** The row of a key is never updated, only inserted and deleted. */
  lemma RowsNeverChange(s: System, a: Action, k: Key)
    requires Enabled(s, a) && k in s.keys && k in Apply(s, a).keys
    ensures Apply(s, a).keys[k] == s.keys[k]
  {
  }

  lemma {:induction false} RowStays(states: seq<System>, actions: seq<Action>, i: nat, j: nat, k: Key)
    requires History(states, actions) && i <= j < |states| && k in states[i].keys && NotDeleted(states, i, j, k)
    ensures k in states[j].keys && states[j].keys[k] == states[i].keys[k]
    decreases j
  {
    if i < j {
      RowStays(states, actions, i, j - 1, k);
      assert k in states[j - 1].keys && k in states[j].keys;
      RowsNeverChange(states[j - 1], actions[j - 1], k);
    }
  }

  /** A 201 for a keyed request is either the insertion of the key's row or a copy of it. */
  lemma AnswerIsTheRow(s: System, id: JobId, newId: RunId, k: Key)
    requires Enabled(s, Step(id, newId)) && s.jobs[id].key == Some(k)
    ensures var s', pc := StepJob(s, id, newId), StepJob(s, id, newId).jobs[id].pc;
            && (pc.Done? && pc.reply.Fresh201? ==>
                  && k !in s.keys && k in s'.keys
                  && s'.keys[k] == C.Entry(pc.reply.response, s.jobs[id].body, s.clock))
            && (pc.Done? && pc.reply.Replay201? ==>
                  && k in s.keys && s'.keys == s.keys
                  && s.keys[k].response == pc.reply.response && s.keys[k].body == s.jobs[id].body)
  {
  }

  /**
   * However many processes race on one key: between two deletions of its row at most one request
   * is answered by a fresh 201, every later 201 is a replay of the same run, and the bodies agree.
   */
  lemma OneRunPerKey(
    states: seq<System>, actions: seq<Action>, t: nat, t': nat, id: JobId, id': JobId, k: Key)
    requires History(states, actions) && t < t' < |actions| && NotDeleted(states, t, t', k)
    requires Answers(states, actions, t, id, k) && Answers(states, actions, t', id', k)
    ensures states[t' + 1].jobs[id'].pc.reply.Replay201?
    ensures states[t' + 1].jobs[id'].pc.reply.response == states[t + 1].jobs[id].pc.reply.response
    ensures states[t'].jobs[id'].body == states[t].jobs[id].body
  {
    hide StepJob;
    AnswerIsTheRow(states[t], id, actions[t].newId, k);
    AnswerIsTheRow(states[t'], id', actions[t'].newId, k);
    assert states[t + 1] == StepJob(states[t], id, actions[t].newId);
    assert states[t' + 1] == StepJob(states[t'], id', actions[t'].newId);
    RowStays(states, actions, t + 1, t', k);
    assert k in states[t'].keys;
  }

  // ---- 24 hours ---------------------------------------------------------------------------------------------

  lemma {:induction false} ClockAdvances(states: seq<System>, actions: seq<Action>, i: nat, j: nat)
    requires History(states, actions) && i <= j < |states|
    ensures states[i].clock <= states[j].clock
    decreases j
  {
    if i < j {
      hide StepJob;
      ClockAdvances(states, actions, i, j - 1);
      StepKeepsClock(states[j - 1], actions[j - 1]);
    }
  }

  lemma StepKeepsClock(s: System, a: Action)
    requires Enabled(s, a)
    ensures s.clock <= Apply(s, a).clock
    ensures forall k :: k in s.keys && s.keys[k].storedAt >= s.clock - C.IDEMPOTENCY_TTL_MS ==> k in Apply(s, a).keys
  {
  }

  /** A row is not deleted before it is 24 hours old. */
  lemma {:induction false} RowLivesADay(states: seq<System>, actions: seq<Action>, i: nat, j: nat, k: Key)
    requires History(states, actions) && i <= j < |states| && k in states[i].keys
    requires states[i].keys[k].storedAt >= states[j].clock - C.IDEMPOTENCY_TTL_MS
    ensures NotDeleted(states, i, j, k)
    decreases j
  {
    if i < j {
      ClockAdvances(states, actions, j - 1, j);
      RowLivesADay(states, actions, i, j - 1, k);
      RowStays(states, actions, i, j - 1, k);
      StepKeepsClock(states[j - 1], actions[j - 1]);
    }
  }

  /** For 24 hours after its row was stored, a key answers 201 only with that row's run. */
  lemma KeyPinsOneRunForADay(states: seq<System>, actions: seq<Action>, t: nat, t': nat, id: JobId, id': JobId, k: Key)
    requires History(states, actions) && t < t' < |actions|
    requires Answers(states, actions, t, id, k) && Answers(states, actions, t', id', k)
    requires states[t + 1].jobs[id].pc.reply.Fresh201?
    requires states[t'].clock <= states[t].clock + C.IDEMPOTENCY_TTL_MS
    ensures states[t' + 1].jobs[id'].pc.reply == Replay201(states[t + 1].jobs[id].pc.reply.response)
  {
    hide StepJob;
    AnswerIsTheRow(states[t], id, actions[t].newId, k);
    assert states[t + 1] == StepJob(states[t], id, actions[t].newId);
    RowLivesADay(states, actions, t + 1, t', k);
    OneRunPerKey(states, actions, t, t', id, id', k);
  }

  // ---- what the other answers mean ------------------------------------------------------------------------

  /** Request `id` was the one whose fresh 201 stored this row. */
  predicate Stored(s: System, id: JobId, k: Key, body: string, response: Response) {
    && id in s.jobs && s.jobs[id].key == Some(k) && s.jobs[id].body == body
    && s.jobs[id].pc == Done(Fresh201(response)) && s.jobs[id].created == Some(response.run)
  }

  ghost predicate KeyAnswered(s: System, k: Key, body: string, response: Response) {
    exists id :: Stored(s, id, k, body, response)
  }

  /** What a request's position says about the runs and the answers of others. */
  ghost predicate JobGrounded(s: System, job: Job) {
    match job.pc
    case Prune => job.created.None?
    case Lookup => job.created.None?
    case InsertRun => job.created.None?
    case InsertKey(response) => job.key.Some? && job.created == Some(response.run)
    case Done(Fresh201(response)) => job.created == Some(response.run)
    case Done(Replay201(response)) =>
      job.created.None? && job.key.Some? && KeyAnswered(s, job.key.value, job.body, response)
    case Done(Conflict409) =>
      job.created.None? && job.key.Some?
      && exists body, response :: body != job.body && KeyAnswered(s, job.key.value, body, response)
    case Done(Error500) =>
      job.created.Some? && job.key.Some?
      && exists body, response: Response ::
           response.run != job.created.value && KeyAnswered(s, job.key.value, body, response)
    case Gone => true
  }

  /** Every run row was inserted by exactly one request. */
  ghost predicate RunsGrounded(s: System) {
    && (forall id :: id in s.jobs && s.jobs[id].created.Some? ==> s.jobs[id].created.value in s.runs)
    && (forall id, id' :: id in s.jobs && id' in s.jobs && id != id' && s.jobs[id].created.Some? ==>
          s.jobs[id].created != s.jobs[id'].created)
    && (forall r :: r in s.runs ==> exists id :: id in s.jobs && s.jobs[id].created == Some(r))
  }

  ghost predicate RowsGrounded(s: System) {
    forall k :: k in s.keys ==> KeyAnswered(s, k, s.keys[k].body, s.keys[k].response)
  }

  ghost predicate Grounded(s: System) {
    && RunsGrounded(s) && RowsGrounded(s)
    && forall id :: id in s.jobs ==> JobGrounded(s, s.jobs[id])
  }

  lemma AnswersStay(s: System, a: Action, k: Key, body: string, response: Response)
    requires Enabled(s, a) && KeyAnswered(s, k, body, response)
    ensures KeyAnswered(Apply(s, a), k, body, response)
  {
    var id :| Stored(s, id, k, body, response);
    assert Stored(Apply(s, a), id, k, body, response);
  }

  lemma OthersStayGrounded(s: System, a: Action, job: Job)
    requires Enabled(s, a) && JobGrounded(s, job)
    ensures JobGrounded(Apply(s, a), job)
  {
    hide Enabled, Apply, KeyAnswered;
    if job.pc.Done? {
      match job.pc.reply {
        case Replay201(response) => AnswersStay(s, a, job.key.value, job.body, response);
        case Conflict409 =>
          var body, response :| body != job.body && KeyAnswered(s, job.key.value, body, response);
          AnswersStay(s, a, job.key.value, body, response);
        case Error500 =>
          var body, response: Response :|
            response.run != job.created.value && KeyAnswered(s, job.key.value, body, response);
          AnswersStay(s, a, job.key.value, body, response);
        case _ =>
      }
    }
  }

  lemma RunsUnchanged(s: System, s': System)
    requires RunsGrounded(s) && s'.runs == s.runs && s.jobs.Keys <= s'.jobs.Keys
    requires forall id :: id in s'.jobs ==> s'.jobs[id].created == if id in s.jobs then s.jobs[id].created else None
    ensures RunsGrounded(s')
  {
    forall r | r in s'.runs
      ensures exists id :: id in s'.jobs && s'.jobs[id].created == Some(r)
    {
      var id :| id in s.jobs && s.jobs[id].created == Some(r);
      assert s'.jobs[id].created == Some(r);
    }
  }

  lemma RunAdded(s: System, s': System, id: JobId, r: RunId)
    requires RunsGrounded(s) && id in s.jobs && s.jobs[id].created.None?
    requires r !in s.runs && s'.runs == s.runs + {r} && s'.jobs.Keys == s.jobs.Keys
    requires forall x :: x in s'.jobs ==> s'.jobs[x].created == if x == id then Some(r) else s.jobs[x].created
    ensures RunsGrounded(s')
  {
    forall q | q in s'.runs
      ensures exists x :: x in s'.jobs && s'.jobs[x].created == Some(q)
    {
      if q == r {
        assert s'.jobs[id].created == Some(q);
      } else {
        var x :| x in s.jobs && s.jobs[x].created == Some(q);
        assert s'.jobs[x].created == Some(q);
      }
    }
  }

  lemma StepKeepsRuns(s: System, a: Action)
    requires Enabled(s, a) && RunsGrounded(s)
    requires forall id :: id in s.jobs ==> JobGrounded(s, s.jobs[id])
    ensures RunsGrounded(Apply(s, a))
  {
    hide RunsGrounded, KeyAnswered;
    var s' := Apply(s, a);
    JobsStay(s, a);
    RunsAfterStep(s, a);
    if a.Step? && s.jobs[a.id].pc.InsertRun? {
      assert JobGrounded(s, s.jobs[a.id]);
      RunAdded(s, s', a.id, a.newId);
    } else {
      RunsUnchanged(s, s');
    }
  }

  lemma JobsStay(s: System, a: Action)
    requires Enabled(s, a)
    ensures forall id :: id in s.jobs ==> id in Apply(s, a).jobs
  {
  }

  lemma RunsAfterStep(s: System, a: Action)
    requires Enabled(s, a)
    ensures Apply(s, a).runs == if a.Step? && s.jobs[a.id].pc.InsertRun? then s.runs + {a.newId} else s.runs
  {
  }

  lemma StepKeepsRows(s: System, a: Action)
    requires Enabled(s, a) && RowsGrounded(s)
    requires forall id :: id in s.jobs ==> JobGrounded(s, s.jobs[id])
    ensures RowsGrounded(Apply(s, a))
  {
    var s' := Apply(s, a);
    forall k | k in s'.keys
      ensures KeyAnswered(s', k, s'.keys[k].body, s'.keys[k].response)
    {
      if k in s.keys {
        RowsNeverChange(s, a, k);
        AnswersStay(s, a, k, s.keys[k].body, s.keys[k].response);
      } else {
        assert JobGrounded(s, s.jobs[a.id]);
        assert Stored(s', a.id, k, s'.keys[k].body, s'.keys[k].response);
      }
    }
  }

  lemma LookupIsGrounded(s: System, id: JobId, newId: RunId)
    requires Enabled(s, Step(id, newId)) && RowsGrounded(s) && JobGrounded(s, s.jobs[id]) && s.jobs[id].pc.Lookup?
    ensures JobGrounded(StepJob(s, id, newId), StepJob(s, id, newId).jobs[id])
  {
    var job, s' := s.jobs[id], StepJob(s, id, newId);
    if job.key.Some? && job.key.value in s.keys {
      var k, row := job.key.value, s.keys[job.key.value];
      AnswersStay(s, Step(id, newId), k, row.body, row.response);
      assert KeyAnswered(s', k, row.body, row.response);
    }
    hide KeyAnswered;
  }

  /** The row in the way belongs to another request, with another run. */
  lemma RowOfAnother(s: System, id: JobId, k: Key)
    requires Grounded(s) && id in s.jobs && s.jobs[id].pc.InsertKey? && k in s.keys
    ensures s.jobs[id].created.Some? && s.keys[k].response.run != s.jobs[id].created.value
    ensures KeyAnswered(s, k, s.keys[k].body, s.keys[k].response)
  {
    assert JobGrounded(s, s.jobs[id]);
    var row := s.keys[k];
    var owner :| Stored(s, owner, k, row.body, row.response);
    assert owner != id;
  }

  lemma InsertKeyIsGrounded(s: System, id: JobId, newId: RunId)
    requires Enabled(s, Step(id, newId)) && Grounded(s) && s.jobs[id].pc.InsertKey?
    ensures JobGrounded(StepJob(s, id, newId), StepJob(s, id, newId).jobs[id])
  {
    var job, s' := s.jobs[id], StepJob(s, id, newId);
    assert JobGrounded(s, job);
    if job.key.Some? && job.key.value in s.keys {
      var k, row := job.key.value, s.keys[job.key.value];
      RowOfAnother(s, id, k);
      AnswersStay(s, Step(id, newId), k, row.body, row.response);
      assert KeyAnswered(s', k, row.body, row.response);
    }
    hide KeyAnswered, Grounded;
  }

  /** The request that moved is grounded in its new position. */
  lemma MovedIsGrounded(s: System, id: JobId, newId: RunId)
    requires Enabled(s, Step(id, newId)) && Grounded(s)
    ensures JobGrounded(StepJob(s, id, newId), StepJob(s, id, newId).jobs[id])
  {
    var job := s.jobs[id];
    assert JobGrounded(s, job);
    if job.pc.Lookup? {
      LookupIsGrounded(s, id, newId);
    } else if job.pc.InsertKey? {
      InsertKeyIsGrounded(s, id, newId);
    }
    hide C.Pruned, KeyAnswered, RowsGrounded, RunsGrounded;
  }

  lemma StepKeepsGrounded(s: System, a: Action)
    requires Enabled(s, a) && Grounded(s)
    ensures Grounded(Apply(s, a))
  {
    StepKeepsRuns(s, a);
    StepKeepsRows(s, a);
    hide RunsGrounded, RowsGrounded, StepJob, KeyAnswered;
    var s' := Apply(s, a);
    forall id | id in s'.jobs
      ensures JobGrounded(s', s'.jobs[id])
    {
      if a.Step? && a.id == id {
        MovedIsGrounded(s, id, a.newId);
      } else if id in s.jobs {
        OthersStayGrounded(s, a, s.jobs[id]);
        OtherJobs(s, a, id);
      }
    }
  }

  lemma OtherJobs(s: System, a: Action, id: JobId)
    requires Enabled(s, a) && id in s.jobs && !(a.Step? && a.id == id)
    ensures id in Apply(s, a).jobs
    ensures Apply(s, a).jobs[id] == s.jobs[id] || Apply(s, a).jobs[id].pc.Gone?
  {
  }

  /** In every reachable state each run, each row and each answer has the request behind it. */
  lemma {:induction false} EveryStateIsGrounded(states: seq<System>, actions: seq<Action>, i: nat)
    requires History(states, actions) && i < |states|
    ensures Grounded(states[i])
  {
    if i > 0 {
      hide Grounded, Apply, Enabled;
      assert Enabled(states[i - 1], actions[i - 1]);
      EveryStateIsGrounded(states, actions, i - 1);
      StepKeepsGrounded(states[i - 1], actions[i - 1]);
    }
  }

  /** The run of a request that lost the race stays behind, and no 201 ever names it. */
  lemma LostRunIsNeverNamed(states: seq<System>, actions: seq<Action>, i: nat, loser: JobId, id: JobId)
    requires History(states, actions) && i < |states|
    requires loser in states[i].jobs && states[i].jobs[loser].pc == Done(Error500)
    requires id in states[i].jobs && states[i].jobs[id].pc.Done?
    ensures states[i].jobs[loser].created.Some? && states[i].jobs[loser].created.value in states[i].runs
    ensures var reply := states[i].jobs[id].pc.reply;
            reply.Fresh201? || reply.Replay201? ==> reply.response.run != states[i].jobs[loser].created.value
  {
    var s := states[i];
    EveryStateIsGrounded(states, actions, i);
    assert JobGrounded(s, s.jobs[loser]) && JobGrounded(s, s.jobs[id]);
    if s.jobs[id].pc.reply.Replay201? {
      var k, body, response := s.jobs[id].key.value, s.jobs[id].body, s.jobs[id].pc.reply.response;
      var owner :| Stored(s, owner, k, body, response);
      assert owner != loser;
    }
  }
}
