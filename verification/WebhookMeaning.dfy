/**
 What each undisturbed call of the webhook engine does, in the columns of its tables and in the fields of its input. The
 sentences here use none of the predicates the engine is specified with.
 */
module WebhookMeaning {
  import opened Wrappers
  import opened DeliveryRetry
  import opened WebhookTables
  import opened WebhookProcessing

  // ---- one processing ----

  /** The delivery waits, or its attempt is not known to have begun after the threshold. */
  predicate Free(d: Delivery, threshold: int) {
    || d.status == PENDING
    || (d.status == PROCESSING && (d.lastAttemptAt == None || d.lastAttemptAt.value <= threshold))
  }

  /** Which result a processing has, by the row, its endpoint and the receiver. */
  lemma ResultMeans(t: Tables, staleWindowMs: nat, id: nat, a: Attempt)
    requires t.Valid()
    ensures var r := ProcessOne(t, staleWindowMs, id, a).1;
      if id >= |t.deliveries| then r == RESULT_SKIPPED
      else
        var d := t.deliveries[id];
        var free, status := Free(d, a.startedAt - staleWindowMs), t.endpoints[d.endpointId].status;
        && (r == RESULT_SKIPPED <==> !free || status == PAUSED)
        && (r == RESULT_SUCCEEDED <==> free && status == ACTIVE && a.outcome == ResponseOk)
        && (r == RESULT_RESCHEDULED <==> free && status == ACTIVE && a.outcome != ResponseOk && d.attemptCount + 1 < 5)
        && (r == RESULT_ABANDONED <==>
              free && (status == DISABLED || (status == ACTIVE && a.outcome != ResponseOk && d.attemptCount + 1 >= 5)))
  {
  }

  /** What each result says of the rows. */
  lemma ResultIsInTheRow(t: Tables, staleWindowMs: nat, id: nat, a: Attempt)
    requires t.Valid() && id < |t.deliveries|
    ensures var (t', r) := ProcessOne(t, staleWindowMs, id, a);
      var d, e := t.deliveries[id], t.deliveries[id].endpointId;
      && |t'.deliveries| == |t.deliveries| && |t'.endpoints| == |t.endpoints|
      && var d' := t'.deliveries[id];
      && d'.endpointId == d.endpointId && d'.eventType == d.eventType
      && (r == RESULT_SKIPPED <==> t' == t)
      && (r == RESULT_SUCCEEDED <==> d.status != SUCCEEDED && d'.status == SUCCEEDED)
      && (r == RESULT_ABANDONED <==> d.status != ABANDONED && d'.status == ABANDONED)
      && (r == RESULT_RESCHEDULED <==> d'.attemptCount == d.attemptCount + 1 && d'.status == PENDING)
      && (r == RESULT_SUCCEEDED ==>
            && d'.attemptCount == d.attemptCount + 1 && d'.lastAttemptAt == Some(a.claimedAt) && d'.nextAttemptAt == None
            && t'.abandonAudits == t.abandonAudits
            && t'.endpoints == t.endpoints[e := t.endpoints[e].(lastDeliveredAt := Some(a.finishedAt))])
      && (r == RESULT_RESCHEDULED ==>
            && d'.lastAttemptAt == Some(a.claimedAt)
            && d'.nextAttemptAt == Some(a.finishedAt + 60_000 * Pow2(d.attemptCount))
            && t'.abandonAudits == t.abandonAudits && t'.endpoints == t.endpoints)
      && (r == RESULT_ABANDONED ==>
            && d'.nextAttemptAt == None && t'.abandonAudits == t.abandonAudits + [id] && t'.endpoints == t.endpoints
            && (if t.endpoints[e].status == DISABLED
                then d'.attemptCount == d.attemptCount && d'.lastAttemptAt == d.lastAttemptAt
                else d'.attemptCount == d.attemptCount + 1 && d'.lastAttemptAt == Some(a.claimedAt)))
      && (forall i :: 0 <= i < |t.deliveries| && i != id ==> t'.deliveries[i] == t.deliveries[i])
  {
    ResultMeans(t, staleWindowMs, id, a);
    if ProcessOne(t, staleWindowMs, id, a).1 == RESULT_RESCHEDULED {
      RetryDelayShape(t.deliveries[id].attemptCount + 1, t.deliveries[id].attemptCount + 1);
    }
    hide RetryDelay, Pow2;
  }

  /** The four counters of a batch count its results, and a result what became of the delivery. */
  lemma BatchCounts(t: Tables, staleWindowMs: nat, batch: seq<nat>, attempts: seq<Attempt>, k: nat)
    requires t.Valid() && k < |batch| <= |attempts|
    requires batch[k] < |t.deliveries|
    ensures var results := ResultsOf(t, staleWindowMs, batch, attempts, |batch|);
      var before, after := ProcessFirst(t, staleWindowMs, batch, attempts, k),
                           ProcessFirst(t, staleWindowMs, batch, attempts, k + 1);
      && TallyOf(results) == Tally(multiset(results)[RESULT_SUCCEEDED], multiset(results)[RESULT_RESCHEDULED],
                                   multiset(results)[RESULT_ABANDONED], multiset(results)[RESULT_SKIPPED])
      && |results| == |batch|
      && |before.deliveries| == |after.deliveries| == |t.deliveries|
      && var d, d' := before.deliveries[batch[k]], after.deliveries[batch[k]];
      && (results[k] == RESULT_SKIPPED <==> after == before)
      && (results[k] == RESULT_SUCCEEDED <==> d.status != SUCCEEDED && d'.status == SUCCEEDED)
      && (results[k] == RESULT_ABANDONED <==> d.status != ABANDONED && d'.status == ABANDONED)
      && (results[k] == RESULT_RESCHEDULED <==> d'.attemptCount == d.attemptCount + 1 && d'.status == PENDING)
  {
    ResultsAt(t, staleWindowMs, batch, attempts, |batch|, k);
    FirstKeepsLength(t, staleWindowMs, batch, attempts, k);
    ResultIsInTheRow(ProcessFirst(t, staleWindowMs, batch, attempts, k), staleWindowMs, batch[k], attempts[k]);
    hide ProcessOne;
  }

  lemma {:induction false} ResultsAt(t: Tables, staleWindowMs: nat, batch: seq<nat>, attempts: seq<Attempt>, n: nat, k: nat)
    requires t.Valid() && k < n <= |batch| <= |attempts|
    ensures ResultsOf(t, staleWindowMs, batch, attempts, n)[k] == ResultOf(t, staleWindowMs, batch, attempts, k)
  {
    if k < n - 1 {
      ResultsAt(t, staleWindowMs, batch, attempts, n - 1, k);
    }
  }

  lemma {:induction false} FirstKeepsLength(t: Tables, staleWindowMs: nat, batch: seq<nat>, attempts: seq<Attempt>, n: nat)
    requires t.Valid() && n <= |batch| <= |attempts|
    ensures |ProcessFirst(t, staleWindowMs, batch, attempts, n).deliveries| == |t.deliveries|
  {
    if n > 0 {
      FirstKeepsLength(t, staleWindowMs, batch, attempts, n - 1);
      ProcessOneFrame(ProcessFirst(t, staleWindowMs, batch, attempts, n - 1), staleWindowMs, batch[n - 1],
                      attempts[n - 1]);
    }
  }

  // ---- the batch query ----

  /** A delivery of an active endpoint that is due, or waits and the schedule does not matter, or is overdue. */
  predicate Wanted(t: Tables, now: int, staleWindowMs: nat, ignoreSchedule: bool, id: nat) {
    && id < |t.deliveries|
    && var d := t.deliveries[id];
    && d.endpointId < |t.endpoints| && t.endpoints[d.endpointId].status == ACTIVE
    && (|| (d.status == PENDING && (ignoreSchedule || d.nextAttemptAt == None || d.nextAttemptAt.value <= now))
        || (d.status == PROCESSING && d.lastAttemptAt.Some? && d.lastAttemptAt.value + staleWindowMs <= now))
  }

  /**
   A batch holds wanted deliveries only, each once, in the order of their times, those without one last, and older rows
   first among equals; what it leaves out for the limit comes after what it holds, and without need it leaves out none.
   */
  lemma BatchMeans(t: Tables, now: int, staleWindowMs: nat, ignoreSchedule: bool, limit: nat, batch: seq<nat>)
    requires t.Valid() && IsBatch(t, now, staleWindowMs, ignoreSchedule, limit, batch)
    ensures |batch| <= limit
    ensures forall k :: 0 <= k < |batch| ==> Wanted(t, now, staleWindowMs, ignoreSchedule, batch[k])
    ensures forall j, k :: 0 <= j < k < |batch| ==>
      && batch[j] != batch[k]
      && var x, y := t.deliveries[batch[j]].nextAttemptAt, t.deliveries[batch[k]].nextAttemptAt;
      && (x.None? ==> y.None?) && (x.Some? && y.Some? ==> x.value <= y.value) && (x == y ==> batch[j] < batch[k])
    ensures forall id: nat :: Wanted(t, now, staleWindowMs, ignoreSchedule, id) && id !in batch ==>
      && |batch| == limit
      && forall k :: 0 <= k < |batch| ==>
           var x, y := t.deliveries[batch[k]].nextAttemptAt, t.deliveries[id].nextAttemptAt;
           && (x.None? ==> y.None?) && (x.Some? && y.Some? ==> x.value <= y.value) && (x == y ==> batch[k] < id)
  {
    forall id: nat ensures Wanted(t, now, staleWindowMs, ignoreSchedule, id) <==>
      id < |t.deliveries| && Selected(t, now, staleWindowMs, ignoreSchedule, id)
    {
    }
    hide Wanted, Selected;
    forall k | 0 <= k < |batch| ensures Wanted(t, now, staleWindowMs, ignoreSchedule, batch[k]) {
    }
    forall j, k | 0 <= j < k < |batch| ensures Before(t, batch[j], batch[k]) {
    }
    forall id: nat | Wanted(t, now, staleWindowMs, ignoreSchedule, id) && id !in batch
      ensures |batch| == limit && id < |t.deliveries| && forall k :: 0 <= k < |batch| ==> Before(t, batch[k], id)
    {
    }
  }

  // ---- endpoints ----

  /** The transaction of an update: each field given replaces its column, and no other endpoint or column changes; if it
      disables an endpoint that was read as enabled, its waiting deliveries are abandoned, and none otherwise. */
  lemma UpdateMeans(t: Tables, endpointId: nat, u: EndpointUpdate, before: EndpointStatus)
    requires endpointId < |t.endpoints|
    ensures var t', e := WriteUpdate(t, endpointId, u, before), t.endpoints[endpointId];
      && |t'.endpoints| == |t.endpoints| && |t'.deliveries| == |t.deliveries|
      && (forall i :: 0 <= i < |t.endpoints| && i != endpointId ==> t'.endpoints[i] == t.endpoints[i])
      && var e' := t'.endpoints[endpointId];
      && e'.title == (if u.title.Some? then u.title.value else e.title)
      && e'.url == (if u.url.Some? then u.url.value else e.url)
      && e'.eventTypes == (if u.eventTypes.Some? then u.eventTypes.value else e.eventTypes)
      && e'.status == (if u.status.Some? then u.status.value else e.status)
      && e'.partnerId == e.partnerId && e'.lastDeliveredAt == e.lastDeliveredAt
      && forall i :: 0 <= i < |t.deliveries| ==>
           var d, d' := t.deliveries[i], t'.deliveries[i];
           if before != DISABLED && e'.status == DISABLED && d.status == PENDING && d.endpointId == endpointId
           then d'.status == ABANDONED && d'.nextAttemptAt == None && d'.attemptCount == d.attemptCount
                && d'.lastAttemptAt == d.lastAttemptAt && d'.endpointId == d.endpointId && d'.eventType == d.eventType
           else d' == d
  {
  }

  /** An update is refused for an endpoint the partner does not have, and for no fields. */
  lemma UpdateIsChecked(t: Tables, partnerId: nat, endpointId: nat, u: EndpointUpdate)
    ensures var r := UpdateEndpoint(t, partnerId, endpointId, u);
      && (r == Failure(NotFound) <==> endpointId >= |t.endpoints| || t.endpoints[endpointId].partnerId != partnerId)
      && (r == Failure(BadRequest) <==>
            && endpointId < |t.endpoints| && t.endpoints[endpointId].partnerId == partnerId
            && u.title == None && u.url == None && u.eventTypes == None && u.status == None)
      && (r.Failure? ==> r.error in {NotFound, BadRequest})
      && (r.Success? ==> r.value == WriteUpdate(t, endpointId, u, t.endpoints[endpointId].status))
  {
    hide WriteUpdate;
  }

  // ---- new deliveries ----

  /** Publishing adds fresh deliveries of the event, due at once: one for each endpoint of the partner that is active and
      subscribes to it, and none for any other. */
  lemma PublishMeans(t: Tables, partnerId: nat, eventType: EventType, now: int, endpointId: nat)
    ensures var t', n := Enqueue(t, partnerId, eventType, now), |t.deliveries|;
      && t'.endpoints == t.endpoints && t'.abandonAudits == t.abandonAudits
      && |t'.deliveries| >= n && t'.deliveries[..n] == t.deliveries
      && (forall k :: n <= k < |t'.deliveries| ==>
            var d := t'.deliveries[k];
            d.eventType == eventType && d.status == PENDING && d.attemptCount == 0 && d.lastAttemptAt == None
            && d.nextAttemptAt == Some(now))
      && Occurrences(EndpointsFrom(t'.deliveries, n), endpointId) ==
         (if && endpointId < |t.endpoints| && t.endpoints[endpointId].partnerId == partnerId
             && t.endpoints[endpointId].status == ACTIVE && eventType in t.endpoints[endpointId].eventTypes
          then 1 else 0)
  {
    FanOut(t, partnerId, eventType, now, endpointId);
    hide Enqueue;
    var t' := Enqueue(t, partnerId, eventType, now);
    assert t'.endpoints == t.endpoints && t'.abandonAudits == t.abandonAudits by {
      EnqueueAddsOnly(t, partnerId, eventType, now);
    }
  }

  lemma EnqueueAddsOnly(t: Tables, partnerId: nat, eventType: EventType, now: int)
    ensures Enqueue(t, partnerId, eventType, now).endpoints == t.endpoints
    ensures Enqueue(t, partnerId, eventType, now).abandonAudits == t.abandonAudits
  {
  }

  /** A replay adds one fresh delivery of the same event to the same endpoint, due at once; it is refused for a delivery
      of another partner and for a disabled endpoint. */
  lemma ReplayMeans(t: Tables, partnerId: nat, id: nat, now: int)
    requires t.Valid()
    ensures var r := Replay(t, partnerId, id, now);
      && (r == Failure(NotFound) <==>
            id >= |t.deliveries| || t.endpoints[t.deliveries[id].endpointId].partnerId != partnerId)
      && (r == Failure(Conflict) <==>
            && id < |t.deliveries| && t.endpoints[t.deliveries[id].endpointId].partnerId == partnerId
            && t.endpoints[t.deliveries[id].endpointId].status == DISABLED)
      && (r.Failure? ==> r.error in {NotFound, Conflict})
      && (r.Success? ==>
            r.value == t.(deliveries := t.deliveries + [
              Delivery(t.deliveries[id].endpointId, t.deliveries[id].eventType, PENDING, 0, None, Some(now))]))
  {
  }
}
