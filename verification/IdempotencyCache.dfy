/**
 * The in-memory host's idempotency cache: pruned lazily, looked up by key, and equivalent to a
 * search of the complete request history.
 */
module IdempotencyCache {
  import opened Options

  type Key = string
  type RunId = string

  const IDEMPOTENCY_TTL_MS: int := 24 * 60 * 60 * 1000

  /** The stored response text, which names the run and when it started. */
  datatype Response = Response(run: RunId, startedAt: int)

  datatype Entry = Entry(response: Response, body: string, storedAt: int)

  type Cache = map<Key, Entry>

  /** What `handleCreateRun` checks before it looks at the key. */
  datatype Check = Valid | Malformed | UnknownWorkflow

  /**
   * A create request with the clock readings its handler takes, in order, and the identifier
   * `randomUUID` gives it if it comes to that.
   */
  datatype Request = Request(
    key: Option<Key>, body: string, check: Check, prunedAt: int, startedAt: int, storedAt: int, newId: RunId)

  /** Status 400 or 404, 409, a replayed 201, a fresh 201. */
  datatype Reply = Rejected(why: Check) | Conflict | Replayed(response: Response) | Accepted(response: Response)

  // ---- the handler as a function ------------------------------------------------------------------------

  function Pruned(cache: Cache, cutoff: int): Cache {
    map k | k in cache && !(cache[k].storedAt < cutoff) :: cache[k]
  }

  function NewResponse(q: Request): Response { Response(q.newId, q.startedAt) }

  /** The answer, given what was found under the request's key. */
  function Answer(q: Request, found: Option<Entry>): Reply {
    if !q.check.Valid? then Rejected(q.check)
    else match found
      case None => Accepted(NewResponse(q))
      case Some(entry) => if entry.body != q.body then Conflict else Replayed(entry.response)
  }

  function Lookup(cache: Cache, q: Request): Option<Entry> {
    match q.key
    case None => None
    case Some(k) =>
      var live := Pruned(cache, q.prunedAt - IDEMPOTENCY_TTL_MS);
      if k in live then Some(live[k]) else None
  }

  function ReplyTo(cache: Cache, q: Request): Reply { Answer(q, Lookup(cache, q)) }

  /** The cache afterwards: pruned by every keyed request, extended by an accepted one. */
  function CacheAfter(cache: Cache, q: Request): Cache {
    if !q.check.Valid? || q.key.None? then cache
    else
      var live := Pruned(cache, q.prunedAt - IDEMPOTENCY_TTL_MS);
      if q.key.value in live then live else live[q.key.value := Entry(NewResponse(q), q.body, q.storedAt)]
  }

  function RunsAfter(runs: set<RunId>, cache: Cache, q: Request): set<RunId> {
    if ReplyTo(cache, q).Accepted? then runs + {q.newId} else runs
  }

  // ---- the handler as it is written -----------------------------------------------------------------------

  class Host {
    var cache: Cache
    var runs: set<RunId>

    constructor ()
      ensures cache == map[] && runs == {}
    {
      cache, runs := map[], {};
    }

    /** `pruneIdempotencyCache`. */
    method Prune(now: int)
      modifies this`cache
      ensures cache == Pruned(old(cache), now - IDEMPOTENCY_TTL_MS)
    {
      var cutoff := now - IDEMPOTENCY_TTL_MS;
      var todo := cache.Keys;
      while todo != {}
        invariant todo <= cache.Keys <= old(cache).Keys
        invariant forall k :: k in cache ==> cache[k] == old(cache)[k]
        invariant forall k :: k in old(cache) && k !in todo ==> (k in cache <==> !(old(cache)[k].storedAt < cutoff))
        decreases todo
      {
        var k :| k in todo;
        todo := todo - {k};
        if cache[k].storedAt < cutoff {
          cache := cache - {k};
        }
      }
    }

    method HandleCreateRun(q: Request) returns (reply: Reply)
      requires q.newId !in runs
      modifies this
      ensures reply == ReplyTo(old(cache), q)
      ensures cache == CacheAfter(old(cache), q)
      ensures runs == RunsAfter(old(runs), old(cache), q)
    {
      if q.check != Valid {
        return Rejected(q.check);
      }
      if q.key.Some? {
        Prune(q.prunedAt);
        if q.key.value in cache {
          var cached := cache[q.key.value];
          if cached.body != q.body {
            return Conflict;
          }
          return Replayed(cached.response);
        }
      }
      runs := runs + {q.newId};
      var response := Response(q.newId, q.startedAt);
      if q.key.Some? {
        cache := cache[q.key.value := Entry(response, q.body, q.storedAt)];
      }
      reply := Accepted(response);
    }
  }

  // ---- whole histories --------------------------------------------------------------------------------------

  datatype State = State(cache: Cache, runs: set<RunId>)

  /** The host after these requests, in order. */
  function After(requests: seq<Request>): State {
    if requests == [] then State(map[], {})
    else
      var s, q := After(requests[..|requests| - 1]), requests[|requests| - 1];
      State(CacheAfter(s.cache, q), RunsAfter(s.runs, s.cache, q))
  }

  /** The reply to request `i`. */
  function ReplyAt(requests: seq<Request>, i: nat): Reply
    requires i < |requests|
  {
    ReplyTo(After(requests[..i]).cache, requests[i])
  }

  /** The clock never goes back, and run identifiers are not reused. */
  ghost predicate Timed(requests: seq<Request>) {
    && (forall i :: 0 <= i < |requests| ==> requests[i].prunedAt <= requests[i].startedAt <= requests[i].storedAt)
    && (forall i, j :: 0 <= i < j < |requests| ==> requests[i].storedAt <= requests[j].prunedAt)
    && (forall i, j :: 0 <= i < j < |requests| ==> requests[i].newId != requests[j].newId)
  }

  // ---- the reference: replies from the history alone --------------------------------------------------------

  function EntryOf(q: Request): Entry { Entry(NewResponse(q), q.body, q.storedAt) }

  /** The reply to request `i`, from nothing but the requests before it. */
  function Reference(requests: seq<Request>, i: nat): Reply
    requires i < |requests|
    decreases i, 1
  {
    var q := requests[i];
    Answer(q, if q.key.None? then None else Search(requests, i, q.key.value, q.prunedAt - IDEMPOTENCY_TTL_MS))
  }

  /** Request `i` created a run under key `k`. */
  predicate Creates(requests: seq<Request>, i: nat, k: Key)
    requires i < |requests|
    decreases i, 2
  {
    requests[i].key == Some(k) && Reference(requests, i).Accepted?
  }

  /** Go back through the first `n` requests for one that created a run under `k` since `cutoff`. */
  function Search(requests: seq<Request>, n: nat, k: Key, cutoff: int): Option<Entry>
    requires n <= |requests|
    decreases n, 0
  {
    if n == 0 then None
    else if Creates(requests, n - 1, k) && requests[n - 1].storedAt >= cutoff then Some(EntryOf(requests[n - 1]))
    else Search(requests, n - 1, k, cutoff)
  }

  // ---- the cache against the reference ----------------------------------------------------------------------

  function Find(cache: Cache, k: Key, cutoff: int): Option<Entry> {
    if k in cache && cache[k].storedAt >= cutoff then Some(cache[k]) else None
  }

  /**
   * The invariant: for every cutoff from the last prune on, the cache and the history search agree.
   * What was pruned earlier is too old for such a cutoff as well.
   */
  lemma {:induction false} CacheAgrees(requests: seq<Request>, n: nat, k: Key, cutoff: int)
    requires Timed(requests) && n <= |requests|
    requires forall i :: 0 <= i < n ==> requests[i].prunedAt - IDEMPOTENCY_TTL_MS <= cutoff
    ensures Find(After(requests[..n]).cache, k, cutoff) == Search(requests, n, k, cutoff)
    decreases n, 0
  {
    if n > 0 {
      RepliesAreSearches(requests, n - 1);
      var q := requests[n - 1];
      var before := After(requests[..n - 1]).cache;
      assert requests[..n][..n - 1] == requests[..n - 1];
      CacheAgrees(requests, n - 1, k, cutoff);
      hide After, Search, Reference, Answer;
      StepAgrees(before, q, k, cutoff);
      SearchStep(requests, n, k, cutoff);
      AfterStep(requests, n);
    }
  }

  lemma AfterStep(requests: seq<Request>, n: nat)
    requires 0 < n <= |requests|
    ensures After(requests[..n]).cache == CacheAfter(After(requests[..n - 1]).cache, requests[n - 1])
    ensures After(requests[..n]).runs
         == RunsAfter(After(requests[..n - 1]).runs, After(requests[..n - 1]).cache, requests[n - 1])
    ensures ReplyAt(requests, n - 1) == ReplyTo(After(requests[..n - 1]).cache, requests[n - 1])
  {
    assert requests[..n][..n - 1] == requests[..n - 1];
  }

  lemma SearchStep(requests: seq<Request>, n: nat, k: Key, cutoff: int)
    requires 0 < n <= |requests|
    ensures Search(requests, n, k, cutoff)
         == if Creates(requests, n - 1, k) && requests[n - 1].storedAt >= cutoff then Some(EntryOf(requests[n - 1]))
            else Search(requests, n - 1, k, cutoff)
  {
  }

  /** One request, as far as key `k` is concerned. */
  lemma StepAgrees(cache: Cache, q: Request, k: Key, cutoff: int)
    requires q.prunedAt - IDEMPOTENCY_TTL_MS <= cutoff
    ensures Find(CacheAfter(cache, q), k, cutoff)
         == if q.key == Some(k) && ReplyTo(cache, q).Accepted? && q.storedAt >= cutoff then Some(EntryOf(q))
            else if q.key == Some(k) && ReplyTo(cache, q).Accepted? then None
            else Find(cache, k, cutoff)
    ensures q.key == Some(k) && ReplyTo(cache, q).Accepted? && q.storedAt < cutoff ==> Find(cache, k, cutoff) == None
  {
  }

  /** Refinement: the lazily pruned cache answers exactly as the search of the full history. */
  lemma {:induction false} RepliesAreSearches(requests: seq<Request>, i: nat)
    requires Timed(requests) && i < |requests|
    ensures ReplyAt(requests, i) == Reference(requests, i)
    decreases i, 1
  {
    var q := requests[i];
    if q.key.Some? {
      CacheAgrees(requests, i, q.key.value, q.prunedAt - IDEMPOTENCY_TTL_MS);
    }
    hide After, Search;
  }

  /** A key that is found creates nothing. */
  lemma FoundCreatesNothing(requests: seq<Request>, i: nat, k: Key)
    requires i < |requests|
    ensures Search(requests, i, k, requests[i].prunedAt - IDEMPOTENCY_TTL_MS).Some? ==> !Creates(requests, i, k)
  {
    hide Search;
  }

  /** From its creation on, the run created under `k` is what every search within 24 hours finds. */
  lemma {:induction false} SearchFinds(requests: seq<Request>, i: nat, n: nat, k: Key, cutoff: int)
    requires Timed(requests) && i < n <= |requests| && Creates(requests, i, k) && cutoff <= requests[i].storedAt
    requires forall m :: i < m < n ==> requests[m].prunedAt - IDEMPOTENCY_TTL_MS <= requests[i].storedAt
    ensures Search(requests, n, k, cutoff) == Some(EntryOf(requests[i]))
    decreases n
  {
    if i < n - 1 {
      SearchFinds(requests, i, n - 1, k, cutoff);
      SearchFinds(requests, i, n - 1, k, requests[n - 1].prunedAt - IDEMPOTENCY_TTL_MS);
      FoundCreatesNothing(requests, n - 1, k);
    }
    hide Creates;
  }

  /**
   * For 24 hours after a run was created under a key, that key creates nothing: the same body
   * replays the very same response, and any other body is a conflict.
   */
  lemma KeyPinsOneRun(requests: seq<Request>, i: nat, j: nat, k: Key)
    requires Timed(requests) && i < j < |requests|
    requires requests[i].key == Some(k) && ReplyAt(requests, i).Accepted?
    requires requests[j].key == Some(k) && requests[j].check.Valid?
    requires requests[j].prunedAt - IDEMPOTENCY_TTL_MS <= requests[i].storedAt
    ensures ReplyAt(requests, j) == if requests[j].body == requests[i].body
                                    then Replayed(NewResponse(requests[i])) else Conflict
  {
    forall m | i < m < j ensures requests[m].prunedAt - IDEMPOTENCY_TTL_MS <= requests[i].storedAt {
      assert requests[m].prunedAt <= requests[m].storedAt <= requests[j].prunedAt;
    }
    RepliesAreSearches(requests, i);
    SearchFinds(requests, i, j, k, requests[j].prunedAt - IDEMPOTENCY_TTL_MS);
    RepliesAreSearches(requests, j);
    hide ReplyAt, Search;
  }

  /** The runs whose creation was accepted among the first `n` requests. */
  function AcceptedRuns(requests: seq<Request>, n: nat): nat
    requires n <= |requests|
  {
    if n == 0 then 0
    else AcceptedRuns(requests, n - 1) + if ReplyAt(requests, n - 1).Accepted? then 1 else 0
  }

  predicate CreatedBy(requests: seq<Request>, i: nat, r: RunId)
    requires i < |requests|
  {
    requests[i].newId == r && ReplyAt(requests, i).Accepted?
  }

  /** A run exists exactly if one of the requests so far created it. */
  lemma {:induction false} RunsHaveCreators(requests: seq<Request>, n: nat, r: RunId)
    requires n <= |requests|
    ensures r in After(requests[..n]).runs <==> exists i :: 0 <= i < n && CreatedBy(requests, i, r)
    decreases n
  {
    if n > 0 {
      RunsHaveCreators(requests, n - 1, r);
      AfterStep(requests, n);
      assert r in After(requests[..n]).runs <==> r in After(requests[..n - 1]).runs || CreatedBy(requests, n - 1, r);
    }
    hide After, CreatedBy;
  }

  /** Conservation: every accepted, non-replayed request created one run, and nothing else did. */
  lemma {:induction false} RunsAreAcceptedRequests(requests: seq<Request>, n: nat)
    requires Timed(requests) && n <= |requests|
    ensures |After(requests[..n]).runs| == AcceptedRuns(requests, n)
    decreases n
  {
    if n > 0 {
      RunsAreAcceptedRequests(requests, n - 1);
      AfterStep(requests, n);
      RunsHaveCreators(requests, n - 1, requests[n - 1].newId);
      hide After, ReplyAt, ReplyTo;
      assert requests[n - 1].newId !in After(requests[..n - 1]).runs;
    }
  }

  /** A conflict or a replay changes nothing, except that entries past their 24 hours are gone. */
  lemma RefusalsChangeNothing(s: State, q: Request, k: Key)
    requires !ReplyTo(s.cache, q).Accepted?
    ensures RunsAfter(s.runs, s.cache, q) == s.runs
    ensures k in CacheAfter(s.cache, q) ==> k in s.cache && CacheAfter(s.cache, q)[k] == s.cache[k]
    ensures k in s.cache && k !in CacheAfter(s.cache, q) ==>
              s.cache[k].storedAt < q.prunedAt - IDEMPOTENCY_TTL_MS && q.key != Some(k)
  {
  }

  // ---- what each answer means ---------------------------------------------------------------------------------

  /** The HTTP status of a reply. */
  function StatusCode(reply: Reply): nat {
    match reply
    case Rejected(why) => if why.UnknownWorkflow? then 404 else 400
    case Conflict => 409
    case Replayed(_) => 201
    case Accepted(_) => 201
  }

  /** An invalid request is rejected for what is wrong with it, whatever is cached; a valid one never is. */
  lemma RejectedIffInvalid(cache: Cache, q: Request)
    ensures ReplyTo(cache, q) == Rejected(q.check) <==> q.check != Valid
    ensures ReplyTo(cache, q).Rejected? <==> q.check != Valid
    ensures StatusCode(ReplyTo(cache, q)) == 400 <==> q.check == Malformed
    ensures StatusCode(ReplyTo(cache, q)) == 404 <==> q.check == UnknownWorkflow
    ensures q.check != Valid ==> CacheAfter(cache, q) == cache && !ReplyTo(cache, q).Accepted?
  {
    hide Lookup;
  }

  /** In a history: 400 for a malformed request, 404 for an unknown workflow, and neither for any other. */
  lemma RepliesToInvalid(requests: seq<Request>, i: nat)
    requires i < |requests|
    ensures ReplyAt(requests, i).Rejected? <==> requests[i].check != Valid
    ensures ReplyAt(requests, i).Rejected? ==> ReplyAt(requests, i).why == requests[i].check
    ensures StatusCode(ReplyAt(requests, i)) == 400 <==> requests[i].check == Malformed
    ensures StatusCode(ReplyAt(requests, i)) == 404 <==> requests[i].check == UnknownWorkflow
  {
    RejectedIffInvalid(After(requests[..i]).cache, requests[i]);
    hide After, ReplyTo;
  }

  function Deleted(requests: seq<Request>, i: nat): (rest: seq<Request>)
    requires i < |requests|
    ensures |rest| == |requests| - 1
  {
    requests[..i] + requests[i + 1..]
  }

  lemma {:induction false} InvalidLeavesNoTrace(requests: seq<Request>, i: nat, n: nat)
    requires i < n <= |requests| && requests[i].check != Valid
    ensures After(requests[..n]) == After(Deleted(requests, i)[..n - 1])
    decreases n
  {
    var rest := Deleted(requests, i);
    AfterStep(requests, n);
    if n == i + 1 {
      RejectedIffInvalid(After(requests[..i]).cache, requests[i]);
      assert rest[..i] == requests[..i];
    } else {
      InvalidLeavesNoTrace(requests, i, n - 1);
      AfterStep(rest, n - 1);
      assert rest[n - 2] == requests[n - 1];
    }
    hide After, CacheAfter, ReplyTo;
  }

  /** An invalid request changes no other reply: every history answers as if it had never been sent. */
  lemma InvalidChangesNoReply(requests: seq<Request>, i: nat, j: nat)
    requires i < |requests| && j < |requests| && j != i && requests[i].check != Valid
    ensures ReplyAt(requests, j) == ReplyAt(Deleted(requests, i), if j < i then j else j - 1)
  {
    var rest := Deleted(requests, i);
    if j < i {
      assert rest[..j] == requests[..j] && rest[j] == requests[j];
    } else {
      InvalidLeavesNoTrace(requests, i, j);
      assert rest[j - 1] == requests[j];
    }
    hide After, ReplyTo;
  }

  lemma {:induction false} SearchIsCreation(requests: seq<Request>, n: nat, k: Key, cutoff: int)
    requires n <= |requests| && Search(requests, n, k, cutoff).Some?
    ensures exists m :: 0 <= m < n && Creates(requests, m, k) && requests[m].storedAt >= cutoff &&
                        Search(requests, n, k, cutoff).value == EntryOf(requests[m])
    decreases n
  {
    hide Creates;
    SearchStep(requests, n, k, cutoff);
    if !(Creates(requests, n - 1, k) && requests[n - 1].storedAt >= cutoff) {
      SearchIsCreation(requests, n - 1, k, cutoff);
    }
  }

  /** Request `m` was accepted under the same key at most 24 hours before request `i` looked. */
  predicate Precedes(requests: seq<Request>, m: nat, i: nat)
    requires m < i < |requests|
  {
    && requests[m].key == requests[i].key && requests[m].key.Some?
    && ReplyAt(requests, m) == Accepted(Response(requests[m].newId, requests[m].startedAt))
    && requests[m].storedAt >= requests[i].prunedAt - IDEMPOTENCY_TTL_MS
  }

  lemma CreationPrecedes(requests: seq<Request>, m: nat, i: nat, k: Key)
    requires Timed(requests) && m < i < |requests| && requests[i].key == Some(k) && Creates(requests, m, k)
    requires requests[m].storedAt >= requests[i].prunedAt - IDEMPOTENCY_TTL_MS
    ensures Precedes(requests, m, i)
  {
    RepliesAreSearches(requests, m);
    hide ReplyAt, Search;
  }

  /** An accepted request is told its own new run, which exists from then on. */
  lemma AcceptedNamesItsRun(requests: seq<Request>, i: nat)
    requires i < |requests| && ReplyAt(requests, i).Accepted?
    ensures ReplyAt(requests, i).response == Response(requests[i].newId, requests[i].startedAt)
    ensures requests[i].newId in After(requests[..i + 1]).runs
  {
    AfterStep(requests, i + 1);
    hide After, Lookup;
  }

  /** A replay is the answer to an accepted request with the same key and body, a 409 has one with another body. */
  lemma RefusalsHaveCauses(requests: seq<Request>, i: nat)
    requires Timed(requests) && i < |requests| && (ReplyAt(requests, i).Replayed? || ReplyAt(requests, i).Conflict?)
    ensures exists m: nat :: m < i && Precedes(requests, m, i) &&
                             ReplyAt(requests, i) == if requests[m].body == requests[i].body
                                                     then Replayed(NewResponse(requests[m])) else Conflict
  {
    RepliesAreSearches(requests, i);
    var q := requests[i];
    hide ReplyAt, Search, Creates, Precedes, Timed;
    var k, cutoff := q.key.value, q.prunedAt - IDEMPOTENCY_TTL_MS;
    SearchIsCreation(requests, i, k, cutoff);
    var m: nat :| m < i && Creates(requests, m, k) && requests[m].storedAt >= cutoff
                  && Search(requests, i, k, cutoff).value == EntryOf(requests[m]);
    CreationPrecedes(requests, m, i, k);
  }
}
