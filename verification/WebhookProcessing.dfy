/**
 One undisturbed run of processWebhookDeliveryById, and of the batch loop around it. The HTTP exchange
 and the clock readings of an attempt are its input.
 */
module WebhookProcessing {
  import opened Wrappers
  import opened DeliveryRetry
  import opened WebhookTables

  datatype HttpOutcome = ResponseOk | ResponseNotOk | RequestFailed

  /** When processing began, when the claim was written, what the receiver did, when the outcome was written. */
  datatype Attempt = Attempt(startedAt: int, claimedAt: int, outcome: HttpOutcome, finishedAt: int)

  datatype ProcessingResult = RESULT_ABANDONED | RESULT_RESCHEDULED | RESULT_SKIPPED | RESULT_SUCCEEDED

  function ProcessOne(t: Tables, staleWindowMs: nat, id: nat, a: Attempt): (r: (Tables, ProcessingResult))
    requires t.Valid()
    ensures r.0.Valid()
  {
    var threshold := a.startedAt - staleWindowMs;
    match Decide(t, id, threshold)
    case Skip => (t, RESULT_SKIPPED)
    case AbandonNow => (MarkAbandoned(t, id), RESULT_ABANDONED)
    case Proceed(attemptCount) =>
      var claimed := Claim(t, id, threshold, attemptCount, a.claimedAt).0;
      if a.outcome == ResponseOk then (RecordSuccess(claimed, id, a.finishedAt), RESULT_SUCCEEDED)
      else (RecordFailure(claimed, id, attemptCount, a.finishedAt),
            if attemptCount >= MAX_DELIVERY_ATTEMPTS then RESULT_ABANDONED else RESULT_RESCHEDULED)
  }

  /** The tables after the first `n` deliveries of the batch. */
  function ProcessFirst(t: Tables, staleWindowMs: nat, batch: seq<nat>, attempts: seq<Attempt>, n: nat): (r: Tables)
    requires t.Valid() && n <= |batch| <= |attempts|
    ensures r.Valid()
  {
    if n == 0 then t
    else ProcessOne(ProcessFirst(t, staleWindowMs, batch, attempts, n - 1), staleWindowMs,
                    batch[n - 1], attempts[n - 1]).0
  }

  function ResultOf(t: Tables, staleWindowMs: nat, batch: seq<nat>, attempts: seq<Attempt>, k: nat): ProcessingResult
    requires t.Valid() && k < |batch| <= |attempts|
  {
    ProcessOne(ProcessFirst(t, staleWindowMs, batch, attempts, k), staleWindowMs, batch[k], attempts[k]).1
  }

  /** The four counters of a batch run. */
  datatype Tally = Tally(succeeded: nat, rescheduled: nat, abandoned: nat, skipped: nat)

  function Counted(c: Tally, r: ProcessingResult): Tally {
    match r
    case RESULT_SUCCEEDED => c.(succeeded := c.succeeded + 1)
    case RESULT_RESCHEDULED => c.(rescheduled := c.rescheduled + 1)
    case RESULT_ABANDONED => c.(abandoned := c.abandoned + 1)
    case RESULT_SKIPPED => c.(skipped := c.skipped + 1)
  }

  /** Each counter is the number of results of its kind, and together they are all of them. */
  function TallyOf(results: seq<ProcessingResult>): (c: Tally)
    ensures c.succeeded == multiset(results)[RESULT_SUCCEEDED] && c.rescheduled == multiset(results)[RESULT_RESCHEDULED]
    ensures c.abandoned == multiset(results)[RESULT_ABANDONED] && c.skipped == multiset(results)[RESULT_SKIPPED]
    ensures c.succeeded + c.rescheduled + c.abandoned + c.skipped == |results|
  {
    if results == [] then Tally(0, 0, 0, 0)
    else
      assert results == results[..|results| - 1] + [results[|results| - 1]];
      Counted(TallyOf(results[..|results| - 1]), results[|results| - 1])
  }

  lemma TallyAppend(results: seq<ProcessingResult>, r: ProcessingResult)
    ensures TallyOf(results + [r]) == Counted(TallyOf(results), r)
  {
    assert (results + [r])[..|results|] == results;
  }

  /** What the first `n` processings returned. */
  function ResultsOf(t: Tables, staleWindowMs: nat, batch: seq<nat>, attempts: seq<Attempt>, n: nat)
    : (results: seq<ProcessingResult>)
    requires t.Valid() && n <= |batch| <= |attempts|
    ensures |results| == n
  {
    if n == 0 then []
    else ResultsOf(t, staleWindowMs, batch, attempts, n - 1) + [ResultOf(t, staleWindowMs, batch, attempts, n - 1)]
  }

  // ---- the query that selects the batch ----

  predicate Due(d: Delivery, now: int) {
    d.nextAttemptAt == None || d.nextAttemptAt.value <= now
  }

  predicate Selected(t: Tables, now: int, staleWindowMs: nat, ignoreSchedule: bool, id: nat)
    requires t.Valid() && id < |t.deliveries|
  {
    var d := t.deliveries[id];
    && t.endpoints[d.endpointId].status == ACTIVE
    && (|| (d.status == PENDING && (ignoreSchedule || Due(d, now)))
        || (d.status == PROCESSING && d.lastAttemptAt.Some? && d.lastAttemptAt.value <= now - staleWindowMs))
  }

  /** Ascending nextAttemptAt with nulls last, then creation order. */
  predicate Before(t: Tables, i: nat, j: nat)
    requires i < |t.deliveries| && j < |t.deliveries|
  {
    match (t.deliveries[i].nextAttemptAt, t.deliveries[j].nextAttemptAt)
    case (Some(a), Some(b)) => a < b || (a == b && i < j)
    case (Some(_), None) => true
    case (None, Some(_)) => false
    case (None, None) => i < j
  }

  /** `batch` is the answer to the batch query with `take: limit`. */
  ghost predicate IsBatch(t: Tables, now: int, staleWindowMs: nat, ignoreSchedule: bool, limit: nat, batch: seq<nat>)
    requires t.Valid()
  {
    && |batch| <= limit
    && (forall k :: 0 <= k < |batch| ==>
          batch[k] < |t.deliveries| && Selected(t, now, staleWindowMs, ignoreSchedule, batch[k]))
    && (forall j, k :: 0 <= j < k < |batch| ==> Before(t, batch[j], batch[k]))
    && (forall id :: 0 <= id < |t.deliveries| && Selected(t, now, staleWindowMs, ignoreSchedule, id) && id !in batch ==>
          |batch| == limit && forall k :: 0 <= k < |batch| ==> Before(t, batch[k], id))
  }

  // ---- properties ----

  /** One processing touches one delivery, moves no endpoint's status and adds no row. */
  lemma ProcessOneFrame(t: Tables, staleWindowMs: nat, id: nat, a: Attempt)
    requires t.Valid()
    ensures var t' := ProcessOne(t, staleWindowMs, id, a).0;
            && |t'.deliveries| == |t.deliveries| && |t'.endpoints| == |t.endpoints|
            && (forall i :: 0 <= i < |t.deliveries| && i != id ==> t'.deliveries[i] == t.deliveries[i])
            && (forall i :: 0 <= i < |t.deliveries| ==> t'.deliveries[i].endpointId == t.deliveries[i].endpointId)
            && (forall e :: 0 <= e < |t.endpoints| ==> t'.endpoints[e].status == t.endpoints[e].status)
  {
  }

  ghost predicate SameStanding(t: Tables, t': Tables, id: nat)
    requires t.Valid() && t'.Valid() && id < |t.deliveries|
  {
    && id < |t'.deliveries| && t'.deliveries[id] == t.deliveries[id]
    && t'.endpoints[t.deliveries[id].endpointId].status == t.endpoints[t.deliveries[id].endpointId].status
  }

  lemma {:induction false} ProcessFirstFrame(t: Tables, staleWindowMs: nat, batch: seq<nat>, attempts: seq<Attempt>,
                                             n: nat, id: nat)
    requires t.Valid() && n <= |batch| <= |attempts| && id < |t.deliveries|
    requires id !in batch[..n]
    ensures SameStanding(t, ProcessFirst(t, staleWindowMs, batch, attempts, n), id)
  {
    if n > 0 {
      assert batch[..n - 1] <= batch[..n] && batch[n - 1] in batch[..n];
      ProcessFirstFrame(t, staleWindowMs, batch, attempts, n - 1, id);
      ProcessOneFrame(ProcessFirst(t, staleWindowMs, batch, attempts, n - 1), staleWindowMs,
                      batch[n - 1], attempts[n - 1]);
    }
  }

  /** When its turn comes, every delivery of the batch stands as it was when it was selected; so on a single
      processor that respects the schedule, each claim of a PENDING delivery finds it due. */
  lemma BatchRowsWaitTheirTurn(t: Tables, now: int, staleWindowMs: nat, ignoreSchedule: bool, limit: nat,
                               batch: seq<nat>, attempts: seq<Attempt>, k: nat)
    requires t.Valid() && |batch| <= |attempts| && k < |batch|
    requires IsBatch(t, now, staleWindowMs, ignoreSchedule, limit, batch)
    ensures var at := ProcessFirst(t, staleWindowMs, batch, attempts, k);
            && SameStanding(t, at, batch[k])
            && (at.deliveries[batch[k]].status == PENDING && !ignoreSchedule ==> Due(at.deliveries[batch[k]], now))
            && (now <= attempts[k].startedAt ==> ResultOf(t, staleWindowMs, batch, attempts, k) != RESULT_SKIPPED)
  {
    assert forall j :: 0 <= j < k ==> Before(t, batch[j], batch[k]);
    ProcessFirstFrame(t, staleWindowMs, batch, attempts, k, batch[k]);
  }

  /** Processing the same delivery again and again, with nothing in between. */
  function ProcessRepeatedly(t: Tables, staleWindowMs: nat, id: nat, attempts: seq<Attempt>): (r: Tables)
    requires t.Valid()
    ensures r.Valid()
    decreases |attempts|
  {
    if attempts == [] then t
    else ProcessRepeatedly(ProcessOne(t, staleWindowMs, id, attempts[0]).0, staleWindowMs, id, attempts[1..])
  }

  lemma {:induction false} TerminalRowsStay(t: Tables, staleWindowMs: nat, id: nat, attempts: seq<Attempt>)
    requires t.Valid() && id < |t.deliveries| && Terminal(t.deliveries[id])
    ensures ProcessRepeatedly(t, staleWindowMs, id, attempts) == t
    decreases |attempts|
  {
    if attempts != [] {
      TerminalRowsStay(t, staleWindowMs, id, attempts[1..]);
    }
  }

  /** While its endpoint is paused a PENDING delivery waits unchanged. */
  lemma {:induction false} PausedRowsWait(t: Tables, staleWindowMs: nat, id: nat, attempts: seq<Attempt>)
    requires t.Valid() && id < |t.deliveries| && t.endpoints[t.deliveries[id].endpointId].status == PAUSED
    ensures ProcessRepeatedly(t, staleWindowMs, id, attempts) == t
    decreases |attempts|
  {
    if attempts != [] {
      PausedRowsWait(t, staleWindowMs, id, attempts[1..]);
    }
  }

  /** How a PENDING delivery fares, whatever the receiver does, when its processing is repeated without crashes. */
  lemma {:induction false} RetriesTerminate(t: Tables, staleWindowMs: nat, id: nat, attempts: seq<Attempt>)
    requires t.Valid() && id < |t.deliveries| && t.deliveries[id].status == PENDING
    requires t.deliveries[id].attemptCount < MAX_DELIVERY_ATTEMPTS
    ensures var d := ProcessRepeatedly(t, staleWindowMs, id, attempts).deliveries;
            var paused := t.endpoints[t.deliveries[id].endpointId].status == PAUSED;
            && id < |d|
            && d[id].attemptCount <= MAX_DELIVERY_ATTEMPTS
            && (paused ==> d[id] == t.deliveries[id])
            && (!paused && |attempts| >= MAX_DELIVERY_ATTEMPTS - t.deliveries[id].attemptCount ==> Terminal(d[id]))
            && (d[id].status == SUCCEEDED <==>
                && t.endpoints[t.deliveries[id].endpointId].status == ACTIVE
                && exists k :: 0 <= k < |attempts| && k < MAX_DELIVERY_ATTEMPTS - t.deliveries[id].attemptCount
                               && attempts[k].outcome == ResponseOk)
    decreases |attempts|
  {
    if t.endpoints[t.deliveries[id].endpointId].status == PAUSED {
      PausedRowsWait(t, staleWindowMs, id, attempts);
    } else if attempts != [] {
      var t1 := ProcessOne(t, staleWindowMs, id, attempts[0]).0;
      var rest := attempts[1..];
      ProcessOneFrame(t, staleWindowMs, id, attempts[0]);
      if Terminal(t1.deliveries[id]) {
        TerminalRowsStay(t1, staleWindowMs, id, rest);
        if t1.deliveries[id].status == SUCCEEDED {
          assert attempts[0].outcome == ResponseOk;
        }
      } else {
        RetriesTerminate(t1, staleWindowMs, id, rest);
        assert attempts[0].outcome != ResponseOk;
        assert forall k :: 0 <= k < |rest| ==> rest[k] == attempts[k + 1];
        assert forall k :: 1 <= k < |attempts| ==> attempts[k] == rest[k - 1];
      }
    }
  }
}
