/**
 The webhook service as an object over its tables (backend/src/webhooks/webhooks.service.ts). Every method is
 proved to do to the tables exactly what the specification functions say; clock readings, HTTP outcomes and
 the answer to the batch query are arguments.
 */
module WebhooksServiceModel {
  import opened Wrappers
  import opened DeliveryRetry
  import opened WebhookTables
  import opened WebhookProcessing

  class WebhooksService {
    const staleWindowMs: nat
    var endpoints: seq<Endpoint>
    var deliveries: seq<Delivery>
    var abandonAudits: seq<nat>

    constructor (staleWindowMs: nat)
      ensures this.staleWindowMs == staleWindowMs
      ensures Rows() == Tables([], [], [])
    {
      this.staleWindowMs := staleWindowMs;
      endpoints, deliveries, abandonAudits := [], [], [];
    }

    function Rows(): Tables
      reads this
    {
      Tables(endpoints, deliveries, abandonAudits)
    }

    method CreateWebhookEndpoint(partnerId: nat, title: string, url: string, eventTypes: set<EventType>)
      returns (id: nat)
      requires Rows().Valid()
      modifies this
      ensures Rows().Valid() && id == |old(endpoints)|
      ensures Rows() == old(Rows()).(endpoints :=
                old(endpoints) + [Endpoint(partnerId, title, url, eventTypes, ACTIVE, None)])
    {
      id := |endpoints|;
      endpoints := endpoints + [Endpoint(partnerId, title, url, eventTypes, ACTIVE, None)];
    }

    method EnqueuePartnerWebhookEvent(partnerId: nat, eventType: EventType, now: int) returns (count: nat)
      requires Rows().Valid()
      modifies this`deliveries
      ensures Rows().Valid() && Rows() == Enqueue(old(Rows()), partnerId, eventType, now)
      ensures count == |deliveries| - |old(deliveries)|
    {
      var subscribers: seq<nat> := [];
      for e := 0 to |endpoints|
        invariant subscribers == SubscriberIds(endpoints, partnerId, eventType, e)
      {
        if Subscribed(endpoints[e], partnerId, eventType) {
          subscribers := subscribers + [e];
        }
      }
      SubscriberIdsBound(endpoints, partnerId, eventType, |endpoints|);
      count := |subscribers|;
      if count > 0 {
        InsertDeliveries(subscribers, eventType, now);
      }
    }

    /** The insert at the end of a publish or a replay, for the endpoints that were read before it. */
    method InsertDeliveries(endpointIds: seq<nat>, eventType: EventType, now: int)
      requires Rows().Valid() && forall k :: 0 <= k < |endpointIds| ==> endpointIds[k] < |endpoints|
      modifies this`deliveries
      ensures Rows().Valid() && Rows() == Insert(old(Rows()), endpointIds, eventType, now)
    {
      deliveries := deliveries + NewDeliveries(endpointIds, eventType, now);
    }

    method UpdateWebhookEndpoint(partnerId: nat, endpointId: nat, u: EndpointUpdate)
      returns (r: Result<nat, WebhookError>)
      requires Rows().Valid()
      modifies this
      ensures Rows().Valid()
      ensures match UpdateEndpoint(old(Rows()), partnerId, endpointId, u)
              case Success(t) => r == Success(endpointId) && Rows() == t
              case Failure(error) => r == Failure(error) && Rows() == old(Rows())
    {
      if endpointId >= |endpoints| || endpoints[endpointId].partnerId != partnerId {
        return Failure(NotFound);
      }
      if u == EndpointUpdate(None, None, None, None) {
        return Failure(BadRequest);
      }
      WriteEndpointUpdate(endpointId, u, endpoints[endpointId].status);
      r := Success(endpointId);
    }

    /** The transaction of an endpoint update, which goes by the status that was read before it. */
    method WriteEndpointUpdate(endpointId: nat, u: EndpointUpdate, before: EndpointStatus)
      requires Rows().Valid() && endpointId < |endpoints|
      modifies this
      ensures Rows().Valid() && Rows() == WriteUpdate(old(Rows()), endpointId, u, before)
    {
      endpoints := endpoints[endpointId := UpdatedEndpoint(endpoints[endpointId], u)];
      if before != DISABLED && endpoints[endpointId].status == DISABLED {
        AbandonPendingDeliveriesForEndpoint(endpointId);
      }
    }

    method AbandonPendingDeliveriesForEndpoint(endpointId: nat)
      requires Rows().Valid()
      modifies this`deliveries, this`abandonAudits
      ensures Rows().Valid() && Rows() == AbandonPending(old(Rows()), endpointId)
    {
      var ids: seq<nat> := [];
      for i := 0 to |deliveries|
        invariant ids == PendingIds(deliveries, endpointId, i)
      {
        if PendingOn(deliveries[i], endpointId) {
          ids := ids + [i];
        }
      }
      var updated: seq<Delivery> := [];
      for i := 0 to |deliveries|
        invariant |updated| == i
        invariant forall j :: 0 <= j < i ==> updated[j] == AbandonPending(Rows(), endpointId).deliveries[j]
      {
        updated := updated + [if PendingOn(deliveries[i], endpointId) then Abandoned(deliveries[i]) else deliveries[i]];
      }
      deliveries := updated;
      for k := 0 to |ids|
        modifies this`abandonAudits
        invariant abandonAudits == old(abandonAudits) + ids[..k]
      {
        abandonAudits := abandonAudits + [ids[k]];
      }
    }

    method MarkDeliveryAsAbandoned(id: nat)
      requires Rows().Valid() && id < |deliveries|
      modifies this`deliveries, this`abandonAudits
      ensures Rows().Valid() && Rows() == MarkAbandoned(old(Rows()), id)
    {
      deliveries := deliveries[id := deliveries[id].(status := ABANDONED, nextAttemptAt := None)];
      abandonAudits := abandonAudits + [id];
    }

    method HandleFailedDeliveryAttempt(id: nat, attemptCount: nat, now: int) returns (r: ProcessingResult)
      requires Rows().Valid() && id < |deliveries| && attemptCount >= 1
      modifies this`deliveries, this`abandonAudits
      ensures Rows().Valid() && Rows() == RecordFailure(old(Rows()), id, attemptCount, now)
      ensures r == if attemptCount >= MAX_DELIVERY_ATTEMPTS then RESULT_ABANDONED else RESULT_RESCHEDULED
    {
      if ShouldAbandonWebhookDelivery(attemptCount).value {
        MarkDeliveryAsAbandoned(id);
        return RESULT_ABANDONED;
      }
      deliveries := deliveries[id := deliveries[id].(status := PENDING,
        nextAttemptAt := Some(CalculateNextWebhookAttemptAt(now, attemptCount).value))];
      r := RESULT_RESCHEDULED;
    }

    method ProcessWebhookDeliveryById(id: nat, a: Attempt) returns (r: ProcessingResult)
      requires Rows().Valid()
      modifies this
      ensures Rows().Valid()
      ensures Rows() == ProcessOne(old(Rows()), staleWindowMs, id, a).0
      ensures r == ProcessOne(old(Rows()), staleWindowMs, id, a).1
    {
      var threshold := a.startedAt - staleWindowMs;
      if id >= |deliveries| {
        return RESULT_SKIPPED;
      }
      var d := deliveries[id];
      var staleProcessing := d.status == PROCESSING && (d.lastAttemptAt == None || d.lastAttemptAt.value <= threshold);
      if d.status != PENDING && !staleProcessing {
        return RESULT_SKIPPED;
      }
      if endpoints[d.endpointId].status == DISABLED {
        MarkDeliveryAsAbandoned(id);
        return RESULT_ABANDONED;
      }
      if endpoints[d.endpointId].status != ACTIVE {
        return RESULT_SKIPPED;
      }
      var attemptCount := d.attemptCount + 1;
      deliveries := deliveries[id := d.(status := PROCESSING, attemptCount := attemptCount,
                                        lastAttemptAt := Some(a.claimedAt), nextAttemptAt := None)];
      if a.outcome == ResponseOk {
        deliveries := deliveries[id := deliveries[id].(status := SUCCEEDED)];
        var e := endpoints[d.endpointId];
        endpoints := endpoints[d.endpointId := e.(lastDeliveredAt := Some(a.finishedAt))];
        return RESULT_SUCCEEDED;
      }
      r := HandleFailedDeliveryAttempt(id, attemptCount, a.finishedAt);
    }

    /** `batch` is what the batch query answered at `now`; `attempts` says how each processing went. */
    method ProcessPendingDeliveries(now: int, ignoreSchedule: bool, limit: nat, batch: seq<nat>, attempts: seq<Attempt>)
      returns (processed: nat, counts: Tally)
      requires Rows().Valid() && IsBatch(Rows(), now, staleWindowMs, ignoreSchedule, limit, batch)
      requires |attempts| == |batch|
      modifies this
      ensures Rows().Valid()
      ensures Rows() == ProcessFirst(old(Rows()), staleWindowMs, batch, attempts, |batch|)
      ensures counts == TallyOf(ResultsOf(old(Rows()), staleWindowMs, batch, attempts, |batch|))
      ensures var results := multiset(ResultsOf(old(Rows()), staleWindowMs, batch, attempts, |batch|));
              counts == Tally(results[RESULT_SUCCEEDED], results[RESULT_RESCHEDULED], results[RESULT_ABANDONED],
                              results[RESULT_SKIPPED])
      ensures processed == |batch| == counts.succeeded + counts.rescheduled + counts.abandoned + counts.skipped
    {
      ghost var before := Rows();
      counts := Tally(0, 0, 0, 0);
      for k := 0 to |batch|
        invariant Rows().Valid() && Rows() == ProcessFirst(before, staleWindowMs, batch, attempts, k)
        invariant counts == TallyOf(ResultsOf(before, staleWindowMs, batch, attempts, k))
      {
        var result := ProcessWebhookDeliveryById(batch[k], attempts[k]);
        TallyAppend(ResultsOf(before, staleWindowMs, batch, attempts, k), result);
        match result {
          case RESULT_SUCCEEDED => counts := counts.(succeeded := counts.succeeded + 1);
          case RESULT_RESCHEDULED => counts := counts.(rescheduled := counts.rescheduled + 1);
          case RESULT_ABANDONED => counts := counts.(abandoned := counts.abandoned + 1);
          case RESULT_SKIPPED => counts := counts.(skipped := counts.skipped + 1);
        }
      }
      processed := |batch|;
    }

    /** A new delivery of the same event, and then a batch run without regard to the schedule, for one delivery. The
        batch query is answered on the tables with the new row, so it need not pick that row. */
    method ReplayWebhookDelivery(partnerId: nat, id: nat, now: int, batch: seq<nat>, attempts: seq<Attempt>)
      returns (r: Result<nat, WebhookError>)
      requires Rows().Valid()
      requires Replay(Rows(), partnerId, id, now).Success? ==>
        && Replay(Rows(), partnerId, id, now).value.Valid() && |attempts| == |batch|
        && IsBatch(Replay(Rows(), partnerId, id, now).value, now, staleWindowMs, true, 1, batch)
      modifies this
      ensures Rows().Valid()
      ensures match Replay(old(Rows()), partnerId, id, now)
              case Success(t) =>
                && r == Success(|old(deliveries)|) && t.Valid() && |batch| == |attempts| <= 1
                && Rows() == ProcessFirst(t, staleWindowMs, batch, attempts, |batch|)
                && t.deliveries[..|old(deliveries)|] == old(deliveries) && t.deliveries[|old(deliveries)|].status == PENDING
                && t.deliveries[|old(deliveries)|].eventType == old(deliveries)[id].eventType
              case Failure(error) => r == Failure(error) && Rows() == old(Rows())
    {
      if id >= |deliveries| || endpoints[deliveries[id].endpointId].partnerId != partnerId {
        return Failure(NotFound);
      }
      var d := deliveries[id];
      if endpoints[d.endpointId].status == DISABLED {
        return Failure(Conflict);
      }
      r := Success(|deliveries|);
      InsertDeliveries([d.endpointId], d.eventType, now);
      hide Insert, ProcessFirst;
      var processed, counts := ProcessPendingDeliveries(now, true, 1, batch, attempts);
    }
  }
}
