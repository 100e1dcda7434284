/**
 * The run of a create request that lost the race for its key: the idempotency table and the lease
 * protocol put together show that nobody touches it until some process boots, and that the boot scan
 * then takes it.
 */
module LostRuns {
  import opened Options
  import opened RunTypes
  import opened SqliteStatements
  import opened LeaseProtocol
  import Race = SqliteIdempotency
  import OrphanRecovery

  /** The create requests and their table, and the runs with their executors. */
  datatype Joint = Joint(race: Race.System, lease: System)

  /** A claim comes either from the create handler, after its 201 is certain, or from a boot scan. */
  datatype JointAction =
    | Request(a: Race.Action, nodes: Workflow)
    | HandlerClaim(pid: ProcessId, job: Race.JobId)
    | BootClaim(pid: ProcessId, run: RunId)
    | Other(b: Action)

  /** The statement that inserts a run row, which both models see. */
  predicate Inserts(s: Race.System, a: Race.Action) {
    a.Step? && a.id in s.jobs && s.jobs[a.id].pc.InsertRun?
  }

  predicate JointEnabled(j: Joint, a: JointAction) {
    match a
    case Request(b, _) => Race.Enabled(j.race, b) && (Inserts(j.race, b) ==> b.newId !in j.lease.runs)
    case HandlerClaim(p, id) =>
      && id in j.race.jobs && j.race.jobs[id].pc.Done? && j.race.jobs[id].pc.reply.Fresh201?
      && Enabled(j.lease, Claim(p, j.race.jobs[id].pc.reply.response.run))
    case BootClaim(p, r) => Enabled(j.lease, Claim(p, r)) && Orphan(j.lease.runs[r].row, j.lease.clock)
    case Other(b) => Enabled(j.lease, b) && !b.Claim? && !b.CreateRun?
  }

  function JointApply(j: Joint, a: JointAction): Joint
    requires JointEnabled(j, a)
  {
    match a
    case Request(b, nodes) =>
      Joint(Race.Apply(j.race, b),
            if Inserts(j.race, b) then Apply(j.lease, CreateRun(b.newId, nodes)) else j.lease)
    case HandlerClaim(p, id) => j.(lease := Apply(j.lease, Claim(p, j.race.jobs[id].pc.reply.response.run)))
    case BootClaim(p, r) => j.(lease := Apply(j.lease, Claim(p, r)))
    case Other(b) => j.(lease := Apply(j.lease, b))
  }

  ghost predicate JointHistory(states: seq<Joint>, actions: seq<JointAction>) {
    && |states| == |actions| + 1
    && states[0].race.runs == {} && states[0].race.keys == map[] && states[0].race.jobs == map[]
    && states[0].lease.runs == map[]
    && forall i :: 0 <= i < |actions| ==>
         JointEnabled(states[i], actions[i]) && states[i + 1] == JointApply(states[i], actions[i])
  }

  /** Inserted, perhaps cancelled, and never claimed. */
  predicate Untouched(run: Run) {
    && run.row.holder.None? && (run.row.status.Pending? || run.row.status.Cancelling?)
    && run.table == map[] && run.execs == map[]
  }

  lemma MoveKeepsUntouched(run: Run, m: Move, clock: int)
    requires Untouched(run) && CanMove(run, m) && !m.ClaimBy?
    ensures Untouched(Moved(run, m, clock))
  {
    hide Step;
  }

  lemma OtherKeepsUntouched(s: System, b: Action, u: RunId)
    requires Enabled(s, b) && u in s.runs && Untouched(s.runs[u]) && (b.Claim? ==> b.run != u)
    ensures u in Apply(s, b).runs && Untouched(Apply(s, b).runs[u])
  {
    hide Enabled, Apply, Untouched, AdvanceRun;
    ApplyMovesRun(s, b, u);
    MoveKeepsUntouched(s.runs[u], MoveOf(s, b, u), s.clock);
  }

  /** Request `id` inserted run `u` and has not been answered by a 201. */
  predicate Unanswered(s: Race.System, id: Race.JobId, u: RunId) {
    && id in s.jobs && s.jobs[id].created == Some(u)
    && !(s.jobs[id].pc.Done? && s.jobs[id].pc.reply.Fresh201?)
  }

  /** An unanswered request was so before, unless this step inserted its run. */
  lemma UnansweredBefore(s: Race.System, a: Race.Action, id: Race.JobId, u: RunId)
    requires Race.Enabled(s, a) && Unanswered(Race.Apply(s, a), id, u)
    ensures Unanswered(s, id, u) || (Inserts(s, a) && a.id == id && a.newId == u)
  {
    hide Race.C.Pruned, Race.AfterLookup;
  }

  lemma JointStepKeepsGrounded(j: Joint, a: JointAction)
    requires JointEnabled(j, a) && Race.Grounded(j.race)
    ensures Race.Grounded(JointApply(j, a).race)
  {
    hide Race.Grounded, Race.Apply, Race.Enabled, Apply, Enabled, Inserts, Orphan;
    if a.Request? {
      Race.StepKeepsGrounded(j.race, a.a);
    }
  }

  lemma EmptyIsGrounded(s: Race.System)
    requires s.runs == {} && s.keys == map[] && s.jobs == map[]
    ensures Race.Grounded(s)
  {
  }

  lemma {:induction false} RequestsStayGrounded(states: seq<Joint>, actions: seq<JointAction>, i: nat)
    requires JointHistory(states, actions) && i < |states|
    ensures Race.Grounded(states[i].race)
  {
    hide JointEnabled, JointApply, Race.Grounded;
    if i > 0 {
      RequestsStayGrounded(states, actions, i - 1);
      JointStepKeepsGrounded(states[i - 1], actions[i - 1]);
    } else {
      EmptyIsGrounded(states[0].race);
    }
  }

  /** The handler only claims the run it has answered for. */
  lemma HandlersClaimTheirOwn(s: Race.System, id: Race.JobId, u: RunId, other: Race.JobId)
    requires Race.Grounded(s) && Unanswered(s, id, u)
    requires other in s.jobs && s.jobs[other].pc.Done? && s.jobs[other].pc.reply.Fresh201?
    ensures s.jobs[other].pc.reply.response.run != u
  {
    assert Race.JobGrounded(s, s.jobs[other]);
    assert other != id;
    hide Race.KeyAnswered, Race.RowsGrounded;
  }

  /** One joint step leaves an unanswered request's run alone. */
  lemma StepKeepsUntouched(j: Joint, a: JointAction, id: Race.JobId, u: RunId)
    requires JointEnabled(j, a) && Race.Grounded(j.race)
    requires Unanswered(JointApply(j, a).race, id, u) && (a.BootClaim? ==> a.run != u)
    requires Unanswered(j.race, id, u) ==> u in j.lease.runs && Untouched(j.lease.runs[u])
    ensures u in JointApply(j, a).lease.runs && Untouched(JointApply(j, a).lease.runs[u])
  {
    hide Race.Grounded, Race.Apply, Race.Enabled, Untouched, Unanswered, Orphan;
    match a {
      case Request(b, nodes) =>
        UnansweredBefore(j.race, b, id, u);
        if Inserts(j.race, b) && b.newId == u {
          assert Untouched(Created(nodes)) by { NewRunsAreUntouched(nodes); }
        }
      case HandlerClaim(p, other) =>
        HandlersClaimTheirOwn(j.race, id, u, other);
        OtherKeepsUntouched(j.lease, Claim(p, j.race.jobs[other].pc.reply.response.run), u);
      case BootClaim(p, r) => OtherKeepsUntouched(j.lease, Claim(p, r), u);
      case Other(b) => OtherKeepsUntouched(j.lease, b, u);
    }
  }

  lemma NewRunsAreUntouched(nodes: Workflow)
    ensures Untouched(Created(nodes))
  {
  }

  /** Until a boot scan claims it, the run of an unanswered request stays untouched. */
  lemma {:induction false} UnansweredIsUntouched(
    states: seq<Joint>, actions: seq<JointAction>, i: nat, id: Race.JobId, u: RunId)
    requires JointHistory(states, actions) && i < |states| && Unanswered(states[i].race, id, u)
    requires forall k :: 0 <= k < i && actions[k].BootClaim? ==> actions[k].run != u
    ensures u in states[i].lease.runs && Untouched(states[i].lease.runs[u])
  {
    hide JointEnabled, JointApply, Inserts, Unanswered, Untouched, Race.Grounded;
    hide Apply, Enabled, Orphan, Race.Apply, Race.Enabled;
    if i > 0 {
      var j, a := states[i - 1], actions[i - 1];
      assert JointEnabled(j, a) && states[i] == JointApply(j, a);
      RequestsStayGrounded(states, actions, i - 1);
      if Unanswered(j.race, id, u) {
        UnansweredIsUntouched(states, actions, i - 1, id, u);
      }
      hide JointHistory;
      StepKeepsUntouched(j, a, id, u);
    } else {
      NothingAsked(states[0].race, id, u);
    }
  }

  lemma NothingAsked(s: Race.System, id: Race.JobId, u: RunId)
    requires s.jobs == map[]
    ensures !Unanswered(s, id, u)
  {
  }

  /**
   * The run of a request answered 500 is not lost for good: until a boot scan has claimed it, it is
   * an orphan at every time, any process's boot scan takes it, and executes it from its first
   * statement although no client ever learns of it.
   */
  lemma LostRunIsAdopted(
    states: seq<Joint>, actions: seq<JointAction>, i: nat, loser: Race.JobId, u: RunId, p: ProcessId, now: int)
    requires JointHistory(states, actions) && i < |states|
    requires loser in states[i].race.jobs && states[i].race.jobs[loser].pc == Race.Done(Race.Error500)
    requires states[i].race.jobs[loser].created == Some(u)
    requires forall k :: 0 <= k < i && actions[k].BootClaim? ==> actions[k].run != u
    ensures u in states[i].lease.runs && Orphan(states[i].lease.runs[u].row, now)
    ensures JointEnabled(states[i], BootClaim(p, u))
    ensures var run := JointApply(states[i], BootClaim(p, u)).lease.runs[u];
            run.row.holder == Some(p) && run.execs == map[p := FRESH] && run.table == map[]
  {
    UnansweredIsUntouched(states, actions, i, loser, u);
    OrphanRecovery.OrphanIsClaimed(states[i].lease, p, u);
    hide JointHistory;
  }
}
