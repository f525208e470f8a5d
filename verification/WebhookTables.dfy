/**
 The rows the webhook engine moves, and what each single database statement of
 backend/src/webhooks/webhooks.service.ts does to them. A row's identifier is its position:
 rows are only ever appended, so positions are also creation order.
 */
module WebhookTables {
  import opened Wrappers
  import opened DeliveryRetry

  datatype EventType = DESTINATION_UPDATED | DESTINATION_REVOKED | SIGNING_KEY_ROTATED | RECIPIENT_STATUS_CHANGED

  datatype EndpointStatus = ACTIVE | PAUSED | DISABLED

  datatype DeliveryStatus = PENDING | PROCESSING | SUCCEEDED | FAILED | ABANDONED

  datatype Endpoint = Endpoint(
    partnerId: nat,
    title: string,
    url: string,
    eventTypes: set<EventType>,
    status: EndpointStatus,
    lastDeliveredAt: Option<int>)

  datatype Delivery = Delivery(
    endpointId: nat,
    eventType: EventType,
    status: DeliveryStatus,
    attemptCount: nat,
    lastAttemptAt: Option<int>,
    nextAttemptAt: Option<int>)

  /** `abandonAudits` lists the delivery of every `webhook.delivery.abandoned` audit record. */
  datatype Tables = Tables(
    endpoints: seq<Endpoint>,
    deliveries: seq<Delivery>,
    abandonAudits: seq<nat>)
  {
    ghost predicate Valid() {
      forall i :: 0 <= i < |deliveries| ==> deliveries[i].endpointId < |endpoints|
    }
  }

  datatype EndpointUpdate = EndpointUpdate(
    title: Option<string>,
    url: Option<string>,
    eventTypes: Option<set<EventType>>,
    status: Option<EndpointStatus>)

  datatype WebhookError = NotFound | BadRequest | Conflict

  /** What the unlocked read of a delivery leads to. */
  datatype Decision = Skip | AbandonNow | Proceed(attemptCount: nat)

  // ---- one row ----

  predicate Stale(d: Delivery, threshold: int) {
    d.status == PROCESSING && (d.lastAttemptAt == None || d.lastAttemptAt.value <= threshold)
  }

  predicate Claimable(d: Delivery, threshold: int) {
    d.status == PENDING || Stale(d, threshold)
  }

  predicate Terminal(d: Delivery) {
    d.status == SUCCEEDED || d.status == ABANDONED
  }

  function Claimed(d: Delivery, attemptCount: nat, now: int): Delivery {
    d.(status := PROCESSING, attemptCount := attemptCount, lastAttemptAt := Some(now), nextAttemptAt := None)
  }

  function Abandoned(d: Delivery): Delivery {
    d.(status := ABANDONED, nextAttemptAt := None)
  }

  function Rescheduled(d: Delivery, attemptCount: nat, now: int): Delivery
    requires attemptCount >= 1
  {
    d.(status := PENDING, nextAttemptAt := Some(now + RetryDelay(attemptCount)))
  }

  function NewDelivery(endpointId: nat, eventType: EventType, now: int): Delivery {
    Delivery(endpointId, eventType, PENDING, 0, None, Some(now))
  }

  // ---- one statement or transaction ----

  /** The checks made on the row that was read, before anything is written. */
  function Decide(t: Tables, id: nat, threshold: int): Decision
    requires t.Valid()
  {
    if id >= |t.deliveries| then Skip
    else
      var d := t.deliveries[id];
      if !Claimable(d, threshold) then Skip
      else match t.endpoints[d.endpointId].status
        case DISABLED => AbandonNow
        case PAUSED => Skip
        case ACTIVE => Proceed(d.attemptCount + 1)
  }

  /** The conditional update; the flag tells whether a row matched. */
  function Claim(t: Tables, id: nat, threshold: int, attemptCount: nat, now: int): (Tables, bool)
    requires id < |t.deliveries|
  {
    var d := t.deliveries[id];
    if Claimable(d, threshold) then (t.(deliveries := t.deliveries[id := Claimed(d, attemptCount, now)]), true)
    else (t, false)
  }

  function RecordSuccess(t: Tables, id: nat, now: int): Tables
    requires t.Valid() && id < |t.deliveries|
  {
    var d := t.deliveries[id];
    var e := t.endpoints[d.endpointId];
    t.(deliveries := t.deliveries[id := d.(status := SUCCEEDED)],
       endpoints := t.endpoints[d.endpointId := e.(lastDeliveredAt := Some(now))])
  }

  function MarkAbandoned(t: Tables, id: nat): Tables
    requires id < |t.deliveries|
  {
    t.(deliveries := t.deliveries[id := Abandoned(t.deliveries[id])],
       abandonAudits := t.abandonAudits + [id])
  }

  function RecordFailure(t: Tables, id: nat, attemptCount: nat, now: int): Tables
    requires id < |t.deliveries| && attemptCount >= 1
  {
    if attemptCount >= MAX_DELIVERY_ATTEMPTS then MarkAbandoned(t, id)
    else t.(deliveries := t.deliveries[id := Rescheduled(t.deliveries[id], attemptCount, now)])
  }

  predicate PendingOn(d: Delivery, endpointId: nat) {
    d.status == PENDING && d.endpointId == endpointId
  }

  /** The PENDING deliveries of an endpoint among the first `n`, in order. */
  function PendingIds(ds: seq<Delivery>, endpointId: nat, n: nat): seq<nat>
    requires n <= |ds|
  {
    if n == 0 then []
    else
      var before := PendingIds(ds, endpointId, n - 1);
      if PendingOn(ds[n - 1], endpointId) then before + [n - 1] else before
  }

  function AbandonPending(t: Tables, endpointId: nat): Tables {
    t.(deliveries := seq(|t.deliveries|, i requires 0 <= i < |t.deliveries| =>
                         if PendingOn(t.deliveries[i], endpointId) then Abandoned(t.deliveries[i])
                         else t.deliveries[i]),
       abandonAudits := t.abandonAudits + PendingIds(t.deliveries, endpointId, |t.deliveries|))
  }

  function UpdatedEndpoint(e: Endpoint, u: EndpointUpdate): Endpoint {
    e.(title := Or(u.title, e.title), url := Or(u.url, e.url),
       eventTypes := Or(u.eventTypes, e.eventTypes), status := Or(u.status, e.status))
  }

  /** What an endpoint update reads before its transaction: the status it will go by. */
  function ReadForUpdate(t: Tables, partnerId: nat, endpointId: nat, u: EndpointUpdate)
    : (r: Result<EndpointStatus, WebhookError>)
    ensures r.Success? ==> endpointId < |t.endpoints|
  {
    if endpointId >= |t.endpoints| || t.endpoints[endpointId].partnerId != partnerId then Failure(NotFound)
    else if u == EndpointUpdate(None, None, None, None) then Failure(BadRequest)
    else Success(t.endpoints[endpointId].status)
  }

  /** Its transaction, which goes by the status that was read. */
  function WriteUpdate(t: Tables, endpointId: nat, u: EndpointUpdate, before: EndpointStatus): Tables
    requires endpointId < |t.endpoints|
  {
    var updated := t.(endpoints := t.endpoints[endpointId := UpdatedEndpoint(t.endpoints[endpointId], u)]);
    if before != DISABLED && updated.endpoints[endpointId].status == DISABLED then AbandonPending(updated, endpointId)
    else updated
  }

  function UpdateEndpoint(t: Tables, partnerId: nat, endpointId: nat, u: EndpointUpdate): Result<Tables, WebhookError> {
    match ReadForUpdate(t, partnerId, endpointId, u)
    case Failure(error) => Failure(error)
    case Success(before) => Success(WriteUpdate(t, endpointId, u, before))
  }

  predicate Subscribed(e: Endpoint, partnerId: nat, eventType: EventType) {
    e.partnerId == partnerId && e.status == ACTIVE && eventType in e.eventTypes
  }

  /** The subscribed endpoints among the first `n`, in order. */
  function SubscriberIds(es: seq<Endpoint>, partnerId: nat, eventType: EventType, n: nat): seq<nat>
    requires n <= |es|
  {
    if n == 0 then []
    else
      var before := SubscriberIds(es, partnerId, eventType, n - 1);
      if Subscribed(es[n - 1], partnerId, eventType) then before + [n - 1] else before
  }

  function NewDeliveries(ids: seq<nat>, eventType: EventType, now: int): seq<Delivery> {
    seq(|ids|, k requires 0 <= k < |ids| => NewDelivery(ids[k], eventType, now))
  }

  function Insert(t: Tables, endpointIds: seq<nat>, eventType: EventType, now: int): Tables {
    t.(deliveries := t.deliveries + NewDeliveries(endpointIds, eventType, now))
  }

  function Enqueue(t: Tables, partnerId: nat, eventType: EventType, now: int): (t': Tables)
    ensures t.Valid() ==> t'.Valid()
  {
    SubscriberIdsBound(t.endpoints, partnerId, eventType, |t.endpoints|);
    Insert(t, SubscriberIds(t.endpoints, partnerId, eventType, |t.endpoints|), eventType, now)
  }

  /** What a replay reads before its insert: the delivery to repeat. */
  function ReadForReplay(t: Tables, partnerId: nat, id: nat): (r: Result<Delivery, WebhookError>)
    requires t.Valid()
    ensures r.Success? ==> r.value.endpointId < |t.endpoints|
  {
    if id >= |t.deliveries| || t.endpoints[t.deliveries[id].endpointId].partnerId != partnerId then Failure(NotFound)
    else if t.endpoints[t.deliveries[id].endpointId].status == DISABLED then Failure(Conflict)
    else Success(t.deliveries[id])
  }

  function Replay(t: Tables, partnerId: nat, id: nat, now: int): Result<Tables, WebhookError>
    requires t.Valid()
  {
    match ReadForReplay(t, partnerId, id)
    case Failure(error) => Failure(error)
    case Success(d) => Success(Insert(t, [d.endpointId], d.eventType, now))
  }

  // ---- what the row lists contain ----

  function Occurrences(s: seq<int>, x: int): nat {
    if s == [] then 0 else Occurrences(s[..|s| - 1], x) + (if s[|s| - 1] == x then 1 else 0)
  }

  lemma OccurrencesAppend(s: seq<int>, y: int, x: int)
    ensures Occurrences(s + [y], x) == Occurrences(s, x) + (if x == y then 1 else 0)
  {
    assert (s + [y])[..|s|] == s;
  }

  lemma {:induction false} OccurrencesConcat(a: seq<int>, b: seq<int>, x: int)
    ensures Occurrences(a + b, x) == Occurrences(a, x) + Occurrences(b, x)
    decreases |b|
  {
    if b == [] {
      assert a + b == a;
    } else {
      assert (a + b)[..|a + b| - 1] == a + b[..|b| - 1];
      OccurrencesConcat(a, b[..|b| - 1], x);
    }
  }

  lemma {:induction false} PendingIdsCount(ds: seq<Delivery>, endpointId: nat, n: nat, id: nat)
    requires n <= |ds|
    ensures Occurrences(PendingIds(ds, endpointId, n), id) == if id < n && PendingOn(ds[id], endpointId) then 1 else 0
  {
    if n > 0 {
      PendingIdsCount(ds, endpointId, n - 1, id);
      OccurrencesAppend(PendingIds(ds, endpointId, n - 1), n - 1, id);
    }
  }

  /** Disabling an endpoint abandons exactly its PENDING deliveries, with one audit record each. */
  lemma AbandonPendingAudits(t: Tables, endpointId: nat, id: nat)
    requires id < |t.deliveries|
    ensures var t' := AbandonPending(t, endpointId);
            && Occurrences(t'.abandonAudits, id) ==
               Occurrences(t.abandonAudits, id) + (if PendingOn(t.deliveries[id], endpointId) then 1 else 0)
            && t'.deliveries[id] == if PendingOn(t.deliveries[id], endpointId) then Abandoned(t.deliveries[id])
                                    else t.deliveries[id]
  {
    PendingIdsCount(t.deliveries, endpointId, |t.deliveries|, id);
    OccurrencesConcat(t.abandonAudits, PendingIds(t.deliveries, endpointId, |t.deliveries|), id);
  }

  lemma {:induction false} SubscriberIdsBound(es: seq<Endpoint>, partnerId: nat, eventType: EventType, n: nat)
    requires n <= |es|
    ensures forall k :: 0 <= k < |SubscriberIds(es, partnerId, eventType, n)| ==>
              SubscriberIds(es, partnerId, eventType, n)[k] < n
  {
    if n > 0 {
      SubscriberIdsBound(es, partnerId, eventType, n - 1);
    }
  }

  lemma {:induction false} SubscriberIdsCount(es: seq<Endpoint>, partnerId: nat, eventType: EventType, n: nat, e: nat)
    requires n <= |es|
    ensures Occurrences(SubscriberIds(es, partnerId, eventType, n), e) ==
            if e < n && Subscribed(es[e], partnerId, eventType) then 1 else 0
  {
    if n > 0 {
      SubscriberIdsCount(es, partnerId, eventType, n - 1, e);
      OccurrencesAppend(SubscriberIds(es, partnerId, eventType, n - 1), n - 1, e);
    }
  }

  /** The endpoints the deliveries from position `from` on are for. */
  function EndpointsFrom(ds: seq<Delivery>, from: nat): seq<int>
    requires from <= |ds|
  {
    seq(|ds| - from, k requires 0 <= k < |ds| - from => ds[from + k].endpointId)
  }

  /** An event adds one fresh PENDING delivery, due at once, per subscribed endpoint and nothing else. */
  lemma FanOut(t: Tables, partnerId: nat, eventType: EventType, now: int, e: nat)
    ensures var size, all := |t.deliveries|, Enqueue(t, partnerId, eventType, now).deliveries;
            && size <= |all| && all[..size] == t.deliveries
            && (forall k :: size <= k < |all| ==> all[k] == NewDelivery(all[k].endpointId, eventType, now))
            && Occurrences(EndpointsFrom(all, size), e) ==
               (if e < |t.endpoints| && Subscribed(t.endpoints[e], partnerId, eventType) then 1 else 0)
  {
    var ids := SubscriberIds(t.endpoints, partnerId, eventType, |t.endpoints|);
    SubscriberIdsCount(t.endpoints, partnerId, eventType, |t.endpoints|, e);
    assert EndpointsFrom(Enqueue(t, partnerId, eventType, now).deliveries, |t.deliveries|) == ids;
  }
}
