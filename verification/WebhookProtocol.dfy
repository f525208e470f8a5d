/**
 The delivery engine as a protocol: any number of processors select a batch and work it off, interleaving the read,
 the claim and the write of each outcome, and crash between them, while events are published, endpoints change and
 deliveries are replayed. A run is any list of events; an event that is not enabled leaves the system as it is.
 */
module WebhookProtocol {
  import opened Wrappers
  import Runs
  import opened DeliveryRetry
  import opened WebhookTables
  import opened WebhookProcessing

  /**
   `lateness`: how long after its claim an attempt that has not crashed may still be unfinished.
   `splitClaim` / `splitAbandon` / `splitUpdate`: whether other steps may come between the read and the write that
   follows it, of a claim, of the abandonment of a disabled endpoint's delivery, of an endpoint update.
   `scheduledOnly`: whether every caller of processPendingDeliveries respects the schedule.
   `single`: whether a processor only starts when no other is running.
   */
  datatype Config = Config(
    staleWindow: nat, lateness: nat, splitClaim: bool, splitAbandon: bool, splitUpdate: bool, scheduledOnly: bool,
    single: bool)

  /** What a processor is doing with a delivery. */
  datatype Worker =
    | Reading(id: nat, attemptCount: nat, threshold: int)
    | Abandoning(id: nat)
    | InFlight(id: nat, attemptCount: nat, claimedAt: int)

  /** A call of the partner between its read and its write: an endpoint update goes by the status it read, a publish or
      replay inserts deliveries for the endpoints it read. */
  datatype Call =
    | Updating(endpointId: nat, update: EndpointUpdate, before: EndpointStatus)
    | Inserting(endpointIds: seq<nat>, eventType: EventType)

  /** `queues` holds what each running processor has still to come to. `starts` (the claim times of each delivery) and
      `crashes` (crashed attempts of each) are history. */
  datatype System = System(
    now: int,
    tables: Tables,
    calls: map<int, Call>,
    queues: map<int, seq<nat>>,
    workers: map<int, Worker>,
    starts: map<nat, seq<int>>,
    crashes: map<nat, nat>)

  datatype Ending = Delivered | NotDelivered | Crashed

  datatype Event =
    | Elapse(ms: nat)
    | AddEndpoint(partnerId: nat, eventTypes: set<EventType>)
    | BeginUpdate(call: int, partnerId: nat, endpointId: nat, update: EndpointUpdate)
    | BeginPublish(call: int, partnerId: nat, eventType: EventType)
    | BeginReplay(call: int, partnerId: nat, id: nat)
    | Commit(call: int, dueAt: int)
    | SelectBatch(worker: int, ignoreSchedule: bool, limit: nat, askedAt: int, batch: seq<nat>)
    | ReadRow(worker: int, startedAt: int)
    | WriteClaim(worker: int)
    | WriteAbandon(worker: int)
    | Finish(worker: int, ending: Ending)
    | Leave(worker: int)

  function Init(now: int): System {
    System(now, Tables([], [], []), map[], map[], map[], map[], map[])
  }

  function StartsOf(s: System, id: nat): seq<int> {
    if id in s.starts then s.starts[id] else []
  }

  function CrashesOf(s: System, id: nat): nat {
    if id in s.crashes then s.crashes[id] else 0
  }

  /** The endpoints a call is about to write for exist. */
  predicate CallOk(t: Tables, k: Call) {
    match k
    case Updating(endpointId, _, _) => endpointId < |t.endpoints|
    case Inserting(endpointIds, _) => forall i :: 0 <= i < |endpointIds| ==> endpointIds[i] < |t.endpoints|
  }

  /** Only running processors work; every delivery they name exists; every attempt counts itself. */
  ghost predicate Sane(s: System) {
    && s.tables.Valid()
    && (forall call :: call in s.calls ==> CallOk(s.tables, s.calls[call]))
    && s.workers.Keys <= s.queues.Keys
    && (forall w :: w in s.queues ==> forall k :: 0 <= k < |s.queues[w]| ==> s.queues[w][k] < |s.tables.deliveries|)
    && (forall w :: w in s.workers ==> s.workers[w].id < |s.tables.deliveries|)
    && (forall w :: w in s.workers && !s.workers[w].Abandoning? ==> s.workers[w].attemptCount >= 1)
  }

  function Begin(s: System, call: int, k: Call): System {
    if call in s.calls then s else s.(calls := s.calls[call := k])
  }

  function Committed(t: Tables, k: Call, dueAt: int): (t': Tables)
    requires t.Valid() && CallOk(t, k)
    ensures t'.Valid() && |t'.deliveries| >= |t.deliveries| && |t'.endpoints| == |t.endpoints|
  {
    match k
    case Updating(endpointId, u, before) => WriteUpdate(t, endpointId, u, before)
    case Inserting(endpointIds, eventType) => Insert(t, endpointIds, eventType, dueAt)
  }

  /** What everything but the workers does. Any call may stop for good between its read and its write. */
  function Environment(c: Config, s: System, e: Event): (s': System)
    requires Sane(s)
    ensures Sane(s') && |s'.tables.deliveries| >= |s.tables.deliveries|
    ensures s' == s.(tables := s'.tables, calls := s'.calls)
  {
    match e
    case AddEndpoint(partnerId, eventTypes) =>
      s.(tables := s.tables.(endpoints := s.tables.endpoints + [Endpoint(partnerId, "", "", eventTypes, ACTIVE, None)]))
    case BeginUpdate(call, partnerId, endpointId, u) =>
      (match ReadForUpdate(s.tables, partnerId, endpointId, u)
       case Failure(_) => s
       case Success(before) =>
         var k := Updating(endpointId, u, before);
         if c.splitUpdate then Begin(s, call, k) else s.(tables := Committed(s.tables, k, s.now)))
    case BeginPublish(call, partnerId, eventType) =>
      SubscriberIdsBound(s.tables.endpoints, partnerId, eventType, |s.tables.endpoints|);
      Begin(s, call, Inserting(SubscriberIds(s.tables.endpoints, partnerId, eventType, |s.tables.endpoints|), eventType))
    case BeginReplay(call, partnerId, id) =>
      (match ReadForReplay(s.tables, partnerId, id)
       case Failure(_) => s
       case Success(d) => Begin(s, call, Inserting([d.endpointId], d.eventType)))
    case Commit(call, dueAt) =>
      if call !in s.calls || dueAt > s.now then s
      else s.(tables := Committed(s.tables, s.calls[call], dueAt), calls := s.calls - {call})
    case _ => s
  }

  function Release(s: System, w: int): System {
    s.(workers := s.workers - {w})
  }

  function Take(s: System, w: int, worker: Worker): System {
    s.(workers := s.workers[w := worker])
  }

  function TryClaim(s: System, w: int, id: nat, threshold: int, attemptCount: nat): (s': System)
    requires id < |s.tables.deliveries|
    ensures Sane(s) && w in s.queues && attemptCount >= 1 ==> Sane(s')
  {
    var (tables, claimed) := Claim(s.tables, id, threshold, attemptCount, s.now);
    if claimed then
      Take(s, w, InFlight(id, attemptCount, s.now)).(tables := tables, starts := s.starts[id := StartsOf(s, id) + [s.now]])
    else Release(s, w)
  }

  ghost predicate MaySelect(c: Config, s: System, w: int, ignoreSchedule: bool, limit: nat, askedAt: int,
                            batch: seq<nat>)
    requires s.tables.Valid()
  {
    && w !in s.queues && (c.single ==> s.queues == map[])
    && (c.scheduledOnly ==> !ignoreSchedule)
    && askedAt <= s.now && IsBatch(s.tables, askedAt, c.staleWindow, ignoreSchedule, limit, batch)
  }

  predicate MayRead(s: System, w: int, startedAt: int) {
    w in s.queues && s.queues[w] != [] && w !in s.workers && startedAt <= s.now
  }

  /** The processor takes the next delivery off its list. */
  function Dequeue(s: System, w: int): System
    requires w in s.queues && s.queues[w] != []
  {
    s.(queues := s.queues[w := s.queues[w][1..]])
  }

  /** The processor is gone, with whatever it had still to do. */
  function Quit(s: System, w: int): System {
    s.(queues := s.queues - {w}, workers := s.workers - {w})
  }

  /** The decision on the delivery that was read, and what follows in the same step. */
  function Act(c: Config, s: System, w: int, id: nat, threshold: int): (s': System)
    requires Sane(s) && w in s.queues && w !in s.workers
    ensures Sane(s')
  {
    match Decide(s.tables, id, threshold)
    case Skip => s
    case AbandonNow =>
      if c.splitAbandon then Take(s, w, Abandoning(id)) else s.(tables := MarkAbandoned(s.tables, id))
    case Proceed(attemptCount) =>
      if c.splitClaim then Take(s, w, Reading(id, attemptCount, threshold))
      else TryClaim(s, w, id, threshold, attemptCount)
  }

  function Read(c: Config, s: System, w: int, startedAt: int): (s': System)
    requires Sane(s)
    ensures Sane(s')
  {
    if !MayRead(s, w, startedAt) then s
    else Act(c, Dequeue(s, w), w, s.queues[w][0], startedAt - c.staleWindow)
  }

  function End(s: System, w: int, ending: Ending): (s': System)
    requires Sane(s) && w in s.workers && s.workers[w].InFlight?
    ensures Sane(s')
  {
    var InFlight(id, attemptCount, _) := s.workers[w];
    match ending
    case Delivered => Release(s, w).(tables := RecordSuccess(s.tables, id, s.now))
    case NotDelivered => Release(s, w).(tables := RecordFailure(s.tables, id, attemptCount, s.now))
    case Crashed => Quit(s, w).(crashes := s.crashes[id := CrashesOf(s, id) + 1])
  }

  predicate MayElapse(c: Config, s: System, ms: nat) {
    forall w | w in s.workers :: s.workers[w].InFlight? ==> s.now + ms <= s.workers[w].claimedAt + c.lateness
  }

  ghost function Step(c: Config, s: System, e: Event): (s': System)
    requires Sane(s)
    ensures Sane(s')
  {
    match e
    case Elapse(ms) => if MayElapse(c, s, ms) then s.(now := s.now + ms) else s
    case SelectBatch(w, ignoreSchedule, limit, askedAt, batch) =>
      if MaySelect(c, s, w, ignoreSchedule, limit, askedAt, batch) then s.(queues := s.queues[w := batch]) else s
    case ReadRow(w, startedAt) => Read(c, s, w, startedAt)
    case WriteClaim(w) =>
      if w in s.workers && s.workers[w].Reading? then
        TryClaim(s, w, s.workers[w].id, s.workers[w].threshold, s.workers[w].attemptCount)
      else s
    case WriteAbandon(w) =>
      if w in s.workers && s.workers[w].Abandoning? then
        Release(s, w).(tables := MarkAbandoned(s.tables, s.workers[w].id))
      else s
    case Finish(w, ending) =>
      if w in s.workers && s.workers[w].InFlight? then End(s, w, ending) else s
    case Leave(w) => if w in s.workers && s.workers[w].InFlight? then s else Quit(s, w)
    case _ => Environment(c, s, e)
  }

  ghost function Machine(c: Config): (System, Event) -> System {
    (s: System, e: Event) => if Sane(s) then Step(c, s, e) else s
  }

  lemma {:induction false} RunIsSane(c: Config, s: System, events: seq<Event>)
    requires Sane(s)
    ensures Sane(Runs.Run(Machine(c), s, events))
    decreases |events|
  {
    if events != [] {
      RunIsSane(c, Step(c, s, events[0]), events[1..]);
    }
  }

  ghost function Run(c: Config, s: System, events: seq<Event>): (s': System)
    requires Sane(s)
    ensures Sane(s')
  {
    RunIsSane(c, s, events);
    Runs.Run(Machine(c), s, events)
  }

  // ---- what the environment may do to one row ----

  /** A row that existed is left alone or, when PENDING, abandoned with one audit record. */
  predicate KeptOrAbandoned(t: Tables, t': Tables, id: nat)
    requires id < |t.deliveries| <= |t'.deliveries|
  {
    || (t'.deliveries[id] == t.deliveries[id]
        && Occurrences(t'.abandonAudits, id) == Occurrences(t.abandonAudits, id))
    || (t.deliveries[id].status == PENDING && t'.deliveries[id] == Abandoned(t.deliveries[id])
        && Occurrences(t'.abandonAudits, id) == Occurrences(t.abandonAudits, id) + 1)
  }

  lemma CommittedOnOldRow(t: Tables, k: Call, dueAt: int, id: nat)
    requires t.Valid() && CallOk(t, k) && id < |t.deliveries|
    ensures KeptOrAbandoned(t, Committed(t, k, dueAt), id)
  {
    if k.Updating? {
      AbandonPendingAudits(t.(endpoints := t.endpoints[k.endpointId := UpdatedEndpoint(t.endpoints[k.endpointId], k.update)]),
                           k.endpointId, id);
    }
  }

  lemma EnvironmentOnOldRow(c: Config, s: System, e: Event, id: nat)
    requires Sane(s) && id < |s.tables.deliveries|
    ensures KeptOrAbandoned(s.tables, Environment(c, s, e).tables, id)
  {
    hide Committed, KeptOrAbandoned;
    assert KeptOrAbandoned(s.tables, s.tables, id) by {
      SameIsKept(s.tables, s.tables, id);
    }
    match e {
      case AddEndpoint(_, _) => SameIsKept(s.tables, Environment(c, s, e).tables, id);
      case BeginUpdate(call, partnerId, endpointId, u) =>
        var before := ReadForUpdate(s.tables, partnerId, endpointId, u);
        if before.Success? {
          CommittedOnOldRow(s.tables, Updating(endpointId, u, before.value), s.now, id);
        }
      case Commit(call, dueAt) =>
        if call in s.calls {
          CommittedOnOldRow(s.tables, s.calls[call], dueAt, id);
        }
      case _ =>
    }
  }

  lemma SameIsKept(t: Tables, t': Tables, id: nat)
    requires id < |t.deliveries| && t'.deliveries == t.deliveries && t'.abandonAudits == t.abandonAudits
    ensures KeptOrAbandoned(t, t', id)
  {
  }

  predicate Fresh(d: Delivery) {
    d.status == PENDING && d.attemptCount == 0 && d.lastAttemptAt == None
  }

  /** A row that is new is a fresh one, and no audit record names it or a later one. */
  predicate FreshOrAbsent(t: Tables, t': Tables, id: nat) {
    && (id < |t'.deliveries| ==> Fresh(t'.deliveries[id]))
    && Occurrences(t'.abandonAudits, id) == Occurrences(t.abandonAudits, id)
  }

  lemma CommittedOnNewRow(t: Tables, k: Call, dueAt: int, id: nat)
    requires t.Valid() && CallOk(t, k) && id >= |t.deliveries|
    ensures FreshOrAbsent(t, Committed(t, k, dueAt), id)
  {
    if k.Updating? {
      PendingIdsCount(t.deliveries, k.endpointId, |t.deliveries|, id);
      OccurrencesConcat(t.abandonAudits, PendingIds(t.deliveries, k.endpointId, |t.deliveries|), id);
    }
  }

  lemma EnvironmentOnNewRow(c: Config, s: System, e: Event, id: nat)
    requires Sane(s) && id >= |s.tables.deliveries|
    ensures FreshOrAbsent(s.tables, Environment(c, s, e).tables, id)
  {
    hide Committed, Occurrences;
    match e {
      case BeginUpdate(call, partnerId, endpointId, u) =>
        var before := ReadForUpdate(s.tables, partnerId, endpointId, u);
        if before.Success? {
          CommittedOnNewRow(s.tables, Updating(endpointId, u, before.value), s.now, id);
        }
      case Commit(call, dueAt) =>
        if call in s.calls {
          CommittedOnNewRow(s.tables, s.calls[call], dueAt, id);
        }
      case _ =>
    }
  }

  // ---- leases ----

  /** A worker is between the claim of this delivery and the write of its outcome. */
  ghost predicate Held(workers: map<int, Worker>, id: nat) {
    exists w :: w in workers && workers[w].InFlight? && workers[w].id == id
  }

  /** No delivery is in the hands of two workers at once. */
  ghost predicate Exclusive(s: System) {
    forall v, w :: v in s.workers && w in s.workers && v != w && s.workers[v].InFlight? && s.workers[w].InFlight?
      ==> s.workers[v].id != s.workers[w].id
  }

  /** What decides whether a held delivery can be taken over: time, or there being nobody else. */
  predicate Safe(c: Config) {
    c.single || c.lateness < c.staleWindow
  }

  /** What decides whether a delivery can be abandoned while somebody else works on it. */
  predicate Calm(c: Config) {
    c.single || (c.lateness < c.staleWindow && !c.splitAbandon)
  }

  /** What decides whether a delivery can be abandoned twice: a lone processor can still be overtaken by the partner. */
  predicate Recorded(c: Config) {
    || (c.lateness < c.staleWindow && !c.splitAbandon)
    || (c.single && (!c.splitAbandon || !c.splitUpdate))
  }

  /** What the row of a held delivery says: it carries its holder's claim, unless it was abandoned meanwhile. */
  ghost predicate Leased(c: Config, s: System)
    requires Sane(s)
  {
    forall w :: w in s.workers && s.workers[w].InFlight? ==>
      var d := s.tables.deliveries[s.workers[w].id];
      && s.workers[w].claimedAt <= s.now <= s.workers[w].claimedAt + c.lateness
      && d.lastAttemptAt == Some(s.workers[w].claimedAt)
      && d.attemptCount == s.workers[w].attemptCount
      && (d.status == PROCESSING || (!Calm(c) && d.status == ABANDONED))
  }

  /** A delivery a lone processor has selected is still waiting as it was selected, or waits no more; only an update
      that goes by a status of the past can disable its endpoint and leave it waiting. */
  predicate StillWaits(c: Config, s: System, id: nat)
    requires s.tables.Valid() && id < |s.tables.deliveries|
  {
    var d := s.tables.deliveries[id];
    d.status == PENDING ==>
      && (!c.splitUpdate ==> s.tables.endpoints[d.endpointId].status != DISABLED)
      && (c.scheduledOnly ==> Due(d, s.now))
  }

  /** What a lone processor finds as it works its list off. */
  ghost predicate Undisturbed(c: Config, s: System, w: int)
    requires Sane(s) && w in s.queues
  {
    var queue := s.queues[w];
    && (forall j, k :: 0 <= j < k < |queue| ==> queue[j] != queue[k])
    && (forall k :: 0 <= k < |queue| ==> StillWaits(c, s, queue[k]))
    && (w in s.workers ==>
          var worker := s.workers[w];
          && worker.id !in queue
          && (worker.Reading? ==>
                StillWaits(c, s, worker.id) && worker.attemptCount == s.tables.deliveries[worker.id].attemptCount + 1)
          && (worker.Abandoning? ==> MayBeAbandoned(c, s.tables.deliveries[worker.id])))
  }

  /** The row a lone processor is about to abandon is unsettled, or was abandoned meanwhile. */
  predicate MayBeAbandoned(c: Config, d: Delivery) {
    && (!c.splitUpdate ==> d.status == PROCESSING)
    && (Terminal(d) ==> d == Abandoned(d))
  }

  ghost predicate Alone(c: Config, s: System)
    requires Sane(s)
  {
    c.single ==>
      && (forall v, w :: v in s.queues && w in s.queues ==> v == w)
      && (forall w :: w in s.queues ==> Undisturbed(c, s, w))
  }

  /** An update is only between its read and its write if these are two steps. */
  predicate UpdatesOnlySplit(c: Config, s: System) {
    forall call | call in s.calls :: s.calls[call].Updating? ==> c.splitUpdate
  }

  ghost predicate Core(c: Config, s: System)
    requires Sane(s)
  {
    && Exclusive(s)
    && Leased(c, s)
    && (forall w :: w in s.workers && s.workers[w].Reading? ==>
          c.splitClaim && s.workers[w].threshold <= s.now - c.staleWindow)
    && (forall w :: w in s.workers && s.workers[w].Abandoning? ==> c.splitAbandon)
    && UpdatesOnlySplit(c, s)
  }

  ghost predicate Lease(c: Config, s: System)
    requires Sane(s)
  {
    Core(c, s) && Alone(c, s)
  }

  // ---- holders ----

  /** While a delivery is held its row matches no claim of another processor. */
  lemma HeldIsNotClaimable(c: Config, s: System, w: int, id: nat, threshold: int)
    requires Sane(s) && Lease(c, s) && Safe(c)
    requires w in s.queues && (w in s.workers ==> !s.workers[w].InFlight?)
    requires id < |s.tables.deliveries| && threshold <= s.now - c.staleWindow
    ensures Held(s.workers, id) ==> !Claimable(s.tables.deliveries[id], threshold)
  {
    hide Undisturbed;
    if Held(s.workers, id) {
      var v :| v in s.workers && s.workers[v].InFlight? && s.workers[v].id == id;
      assert v in s.queues;
    }
  }

  lemma ReleaseKeepsCore(c: Config, s: System, w: int)
    requires Sane(s) && Core(c, s)
    ensures Sane(Release(s, w)) && Core(c, Release(s, w))
  {
  }

  /** A claim of a delivery nobody holds. */
  lemma TakeKeepsCore(c: Config, s: System, w: int, id: nat, attemptCount: nat)
    requires Sane(s) && Core(c, s) && w in s.queues && (w in s.workers ==> s.workers[w].Reading?)
    requires id < |s.tables.deliveries| && attemptCount >= 1 && !Held(s.workers, id)
    ensures var s' := Take(s, w, InFlight(id, attemptCount, s.now)).(
                        tables := s.tables.(deliveries := s.tables.deliveries[id :=
                                              Claimed(s.tables.deliveries[id], attemptCount, s.now)]),
                        starts := s.starts[id := StartsOf(s, id) + [s.now]]);
            Sane(s') && Core(c, s')
  {
    assert forall v :: v in s.workers && s.workers[v].InFlight? ==> s.workers[v].id != id;
    hide Held, StartsOf;
  }

  lemma TryClaimKeepsCore(c: Config, s: System, w: int, id: nat, threshold: int, attemptCount: nat)
    requires Sane(s) && Lease(c, s) && Safe(c)
    requires w in s.queues && (w in s.workers ==> s.workers[w].Reading?)
    requires id < |s.tables.deliveries| && threshold <= s.now - c.staleWindow && attemptCount >= 1
    ensures Core(c, TryClaim(s, w, id, threshold, attemptCount))
  {
    HeldIsNotClaimable(c, s, w, id, threshold);
    assert Core(c, s);
    hide Lease, Core, Sane, Held, Claimable, StartsOf;
    ReleaseKeepsCore(c, s, w);
    if Claimable(s.tables.deliveries[id], threshold) {
      TakeKeepsCore(c, s, w, id, attemptCount);
    }
  }

  /** A processor that holds nothing turns to a delivery. */
  lemma TurnKeepsCore(c: Config, s: System, w: int, worker: Worker)
    requires Sane(s) && Core(c, s) && w in s.queues && w !in s.workers && worker.id < |s.tables.deliveries|
    requires match worker
             case Reading(_, n, threshold) => n >= 1 && c.splitClaim && threshold <= s.now - c.staleWindow
             case Abandoning(_) => c.splitAbandon
             case InFlight(_, _, _) => false
    ensures Sane(Take(s, w, worker)) && Core(c, Take(s, w, worker))
  {
  }

  lemma MarkKeepsCore(c: Config, s: System, id: nat)
    requires Sane(s) && Core(c, s) && id < |s.tables.deliveries| && !Held(s.workers, id)
    ensures Sane(s.(tables := MarkAbandoned(s.tables, id))) && Core(c, s.(tables := MarkAbandoned(s.tables, id)))
  {
    assert forall v :: v in s.workers && s.workers[v].InFlight? ==> s.workers[v].id != id;
    hide Held;
  }

  lemma ActKeepsCore(c: Config, s: System, w: int, id: nat, threshold: int)
    requires Sane(s) && Lease(c, s) && Safe(c)
    requires w in s.queues && w !in s.workers && threshold <= s.now - c.staleWindow
    ensures Core(c, Act(c, s, w, id, threshold))
  {
    assert Core(c, s);
    hide Lease, Core, Sane, TryClaim, MarkAbandoned;
    match Decide(s.tables, id, threshold) {
      case Skip =>
      case AbandonNow =>
        HeldIsNotClaimable(c, s, w, id, threshold);
        MarkKeepsCore(c, s, id);
        if c.splitAbandon {
          TurnKeepsCore(c, s, w, Abandoning(id));
        }
      case Proceed(attemptCount) =>
        TryClaimKeepsCore(c, s, w, id, threshold, attemptCount);
        if c.splitClaim {
          TurnKeepsCore(c, s, w, Reading(id, attemptCount, threshold));
        }
    }
  }

  lemma EndKeepsCore(c: Config, s: System, w: int, ending: Ending)
    requires Sane(s) && Core(c, s) && w in s.workers && s.workers[w].InFlight?
    ensures Core(c, End(s, w, ending))
  {
    var id, t' := s.workers[w].id, End(s, w, ending).tables;
    assert |t'.deliveries| == |s.tables.deliveries|;
    assert forall i :: 0 <= i < |t'.deliveries| && i != id ==> t'.deliveries[i] == s.tables.deliveries[i];
  }

  /** An abandonment on its way may hit a held row, unless the processor is alone. */
  lemma AbandonKeepsCore(c: Config, s: System, w: int)
    requires Sane(s) && Lease(c, s) && w in s.workers && s.workers[w].Abandoning?
    ensures Core(c, Release(s, w).(tables := MarkAbandoned(s.tables, s.workers[w].id)))
  {
    hide Undisturbed;
    forall v | v in s.workers && s.workers[v].InFlight? ensures v != w && v in s.queues {
    }
  }

  lemma EnvironmentKeepsCore(c: Config, s: System, e: Event)
    requires Sane(s) && Core(c, s)
    ensures Core(c, Environment(c, s, e))
  {
    forall w | w in s.workers && s.workers[w].InFlight?
      ensures Environment(c, s, e).tables.deliveries[s.workers[w].id] == s.tables.deliveries[s.workers[w].id]
    {
      EnvironmentOnOldRow(c, s, e, s.workers[w].id);
    }
  }

  // ---- a lone processor ----

  /** An update that is one step abandons what it leaves without an endpoint. */
  lemma CommitKeepsWaiting(c: Config, s: System, k: Call, dueAt: int, id: nat)
    requires s.tables.Valid() && CallOk(s.tables, k) && id < |s.tables.deliveries| && StillWaits(c, s, id)
    requires k.Updating? && !c.splitUpdate ==> k.before == s.tables.endpoints[k.endpointId].status
    ensures StillWaits(c, s.(tables := Committed(s.tables, k, dueAt)), id)
  {
    hide Due;
    CommittedOnOldRow(s.tables, k, dueAt, id);
  }

  lemma EnvironmentKeepsWaiting(c: Config, s: System, e: Event, id: nat)
    requires Sane(s) && UpdatesOnlySplit(c, s) && id < |s.tables.deliveries| && StillWaits(c, s, id)
    ensures StillWaits(c, Environment(c, s, e), id)
  {
    hide Due, Committed;
    match e {
      case BeginUpdate(call, partnerId, endpointId, u) =>
        var before := ReadForUpdate(s.tables, partnerId, endpointId, u);
        if before.Success? {
          CommitKeepsWaiting(c, s, Updating(endpointId, u, before.value), s.now, id);
        }
      case Commit(call, dueAt) =>
        if call in s.calls {
          CommitKeepsWaiting(c, s, s.calls[call], dueAt, id);
        }
      case _ =>
    }
  }

  lemma EnvironmentKeepsAlone(c: Config, s: System, e: Event)
    requires Sane(s) && Alone(c, s) && UpdatesOnlySplit(c, s)
    ensures Alone(c, Environment(c, s, e))
  {
    var s' := Environment(c, s, e);
    forall id: nat | id < |s.tables.deliveries| && StillWaits(c, s, id) ensures StillWaits(c, s', id) {
      EnvironmentKeepsWaiting(c, s, e, id);
    }
    forall id: nat | id < |s.tables.deliveries|
      ensures s'.tables.deliveries[id].attemptCount == s.tables.deliveries[id].attemptCount
      ensures MayBeAbandoned(c, s.tables.deliveries[id]) ==> MayBeAbandoned(c, s'.tables.deliveries[id])
    {
      EnvironmentOnOldRow(c, s, e, id);
    }
    hide StillWaits, Environment, MayBeAbandoned;
  }

  /** A selected batch lists each delivery once, all of them of active endpoints. */
  lemma SelectKeepsAlone(c: Config, s: System, w: int, ignoreSchedule: bool, limit: nat, askedAt: int, batch: seq<nat>)
    requires Sane(s) && Alone(c, s) && w !in s.workers
    requires MaySelect(c, s, w, ignoreSchedule, limit, askedAt, batch)
    ensures Alone(c, s.(queues := s.queues[w := batch]))
  {
    forall j, k | 0 <= j < k < |batch| ensures batch[j] != batch[k] {
      assert Before(s.tables, batch[j], batch[k]);
    }
  }

  /** The rows of the list are left alone when only this one row changes. */
  lemma OtherRowKeepsAlone(c: Config, s: System, w: int, id: nat, s': System)
    requires Sane(s) && Alone(c, s) && Sane(s') && c.single && w in s.queues
    requires s'.now == s.now && s'.queues.Keys == {w}
    requires |s'.queues[w]| <= |s.queues[w]| && s'.queues[w] == s.queues[w][|s.queues[w]| - |s'.queues[w]|..]
    requires id !in s'.queues[w]
    requires |s'.tables.deliveries| == |s.tables.deliveries| && |s'.tables.endpoints| == |s.tables.endpoints|
    requires forall i :: 0 <= i < |s.tables.deliveries| && i != id ==> s'.tables.deliveries[i] == s.tables.deliveries[i]
    requires forall e :: 0 <= e < |s.tables.endpoints| ==> s'.tables.endpoints[e].status == s.tables.endpoints[e].status
    requires w in s'.workers ==>
      var worker := s'.workers[w];
      && worker.id == id
      && (worker.Reading? ==>
            StillWaits(c, s', id) && worker.attemptCount == s'.tables.deliveries[id].attemptCount + 1)
      && (worker.Abandoning? ==> MayBeAbandoned(c, s'.tables.deliveries[id]))
    ensures Alone(c, s')
  {
    var queue, queue' := s.queues[w], s'.queues[w];
    var n := |queue| - |queue'|;
    assert Undisturbed(c, s, w);
    forall k | 0 <= k < |queue'| ensures StillWaits(c, s', queue'[k]) {
      assert queue'[k] == queue[n + k] && queue'[k] in queue';
      assert StillWaits(c, s, queue[n + k]);
    }
  }

  lemma OnlyProcessor(c: Config, s: System, w: int)
    requires Sane(s) && Alone(c, s) && c.single && w in s.queues
    ensures s.queues.Keys == {w} && Undisturbed(c, s, w)
  {
    hide Undisturbed;
    assert forall v :: v in s.queues ==> v == w;
  }

  /** What follows a read changes only the row that was read, and the processor is then at that row. */
  lemma ActIsLocal(c: Config, s: System, w: int, id: nat, threshold: int)
    requires Sane(s) && w in s.queues && w !in s.workers && id < |s.tables.deliveries| && StillWaits(c, s, id)
    ensures var s' := Act(c, s, w, id, threshold);
      && s'.now == s.now && s'.queues == s.queues
      && |s'.tables.deliveries| == |s.tables.deliveries| && |s'.tables.endpoints| == |s.tables.endpoints|
      && (forall i :: 0 <= i < |s.tables.deliveries| && i != id ==> s'.tables.deliveries[i] == s.tables.deliveries[i])
      && (forall e :: 0 <= e < |s.tables.endpoints| ==> s'.tables.endpoints[e].status == s.tables.endpoints[e].status)
      && (w in s'.workers ==>
            var worker := s'.workers[w];
            && worker.id == id
            && (worker.Reading? ==>
                  StillWaits(c, s', id) && worker.attemptCount == s'.tables.deliveries[id].attemptCount + 1)
            && (worker.Abandoning? ==> MayBeAbandoned(c, s'.tables.deliveries[id])))
  {
    hide Due;
    match Decide(s.tables, id, threshold) {
      case Skip =>
      case AbandonNow =>
      case Proceed(attemptCount) =>
        hide Decide;
    }
  }

  lemma NextIsTaken(c: Config, s: System, w: int)
    requires Sane(s) && Alone(c, s) && c.single && w in s.queues && s.queues[w] != []
    ensures Dequeue(s, w).queues.Keys == {w} && s.queues[w][0] !in s.queues[w][1..]
    ensures s.queues[w][0] < |s.tables.deliveries| && StillWaits(c, Dequeue(s, w), s.queues[w][0])
  {
    OnlyProcessor(c, s, w);
    hide Alone;
    assert StillWaits(c, s, s.queues[w][0]);
    assert forall k :: 0 <= k < |s.queues[w][1..]| ==> s.queues[w][1..][k] == s.queues[w][k + 1];
  }

  lemma ReadKeepsAlone(c: Config, s: System, w: int, startedAt: int)
    requires Sane(s) && Alone(c, s) && c.single && MayRead(s, w, startedAt)
    ensures Alone(c, Read(c, s, w, startedAt))
  {
    hide Undisturbed, Alone, StillWaits, Act;
    NextIsTaken(c, s, w);
    ActIsLocal(c, Dequeue(s, w), w, s.queues[w][0], startedAt - c.staleWindow);
    OtherRowKeepsAlone(c, s, w, s.queues[w][0], Read(c, s, w, startedAt));
  }

  lemma ClaimKeepsAlone(c: Config, s: System, w: int)
    requires Sane(s) && Alone(c, s) && c.single && w in s.workers && s.workers[w].Reading?
    ensures Alone(c, TryClaim(s, w, s.workers[w].id, s.workers[w].threshold, s.workers[w].attemptCount))
  {
    OnlyProcessor(c, s, w);
    var s' := TryClaim(s, w, s.workers[w].id, s.workers[w].threshold, s.workers[w].attemptCount);
    assert s.workers[w].id !in s.queues[w];
    hide Undisturbed, Alone;
    OtherRowKeepsAlone(c, s, w, s.workers[w].id, s');
  }

  lemma AbandonKeepsAlone(c: Config, s: System, w: int)
    requires Sane(s) && Alone(c, s) && c.single && w in s.workers && s.workers[w].Abandoning?
    ensures Alone(c, Release(s, w).(tables := MarkAbandoned(s.tables, s.workers[w].id)))
  {
    OnlyProcessor(c, s, w);
    assert s.workers[w].id !in s.queues[w];
    hide Undisturbed, Alone;
    OtherRowKeepsAlone(c, s, w, s.workers[w].id, Release(s, w).(tables := MarkAbandoned(s.tables, s.workers[w].id)));
  }

  lemma EndKeepsAlone(c: Config, s: System, w: int, ending: Ending)
    requires Sane(s) && Alone(c, s) && c.single && w in s.workers && s.workers[w].InFlight?
    ensures Alone(c, End(s, w, ending))
  {
    OnlyProcessor(c, s, w);
    assert s.workers[w].id !in s.queues[w];
    hide Undisturbed;
    if ending == Crashed {
      assert End(s, w, ending).queues == map[];
    } else {
      hide Alone;
      OtherRowKeepsAlone(c, s, w, s.workers[w].id, End(s, w, ending));
    }
  }

  lemma ElapseKeepsLease(c: Config, s: System, ms: nat)
    requires Sane(s) && Lease(c, s) && MayElapse(c, s, ms)
    ensures Lease(c, s.(now := s.now + ms))
  {
    assert Core(c, s.(now := s.now + ms)) by {
      hide Alone;
    }
    hide Core;
  }

  /** A processor that holds nothing leaves. */
  lemma QuitKeepsLease(c: Config, s: System, w: int)
    requires Sane(s) && Lease(c, s) && (w in s.workers ==> !s.workers[w].InFlight?)
    ensures Lease(c, Quit(s, w))
  {
    assert Core(c, Quit(s, w)) by {
      hide Alone;
    }
    hide Core;
  }

  lemma SelectKeepsLease(c: Config, s: System, w: int, ignoreSchedule: bool, limit: nat, askedAt: int, batch: seq<nat>)
    requires Sane(s) && Lease(c, s) && MaySelect(c, s, w, ignoreSchedule, limit, askedAt, batch)
    ensures Lease(c, s.(queues := s.queues[w := batch]))
  {
    assert w !in s.workers;
    SelectKeepsAlone(c, s, w, ignoreSchedule, limit, askedAt, batch);
    hide Alone, MaySelect;
  }

  lemma DequeueKeepsLease(c: Config, s: System, w: int)
    requires Sane(s) && Lease(c, s) && w in s.queues && s.queues[w] != [] && w !in s.workers
    ensures Sane(Dequeue(s, w)) && Lease(c, Dequeue(s, w))
  {
    var s1 := Dequeue(s, w);
    if c.single {
      OnlyProcessor(c, s, w);
      assert s1.queues.Keys == s.queues.Keys;
      assert s.queues[w][0] !in s1.queues[w] by {
        assert forall k :: 0 <= k < |s1.queues[w]| ==> s1.queues[w][k] == s.queues[w][k + 1];
      }
      hide Undisturbed, Alone;
      OtherRowKeepsAlone(c, s, w, s.queues[w][0], s1);
    }
  }

  lemma ReadKeepsCore(c: Config, s: System, w: int, startedAt: int)
    requires Sane(s) && Lease(c, s) && Safe(c) && MayRead(s, w, startedAt)
    ensures Core(c, Read(c, s, w, startedAt))
  {
    hide Lease, Core, Act;
    DequeueKeepsLease(c, s, w);
    ActKeepsCore(c, Dequeue(s, w), w, s.queues[w][0], startedAt - c.staleWindow);
  }

  lemma ReadKeepsLease(c: Config, s: System, w: int, startedAt: int)
    requires Sane(s) && Lease(c, s) && Safe(c)
    ensures Lease(c, Read(c, s, w, startedAt))
  {
    if MayRead(s, w, startedAt) {
      ReadKeepsCore(c, s, w, startedAt);
      if c.single {
        ReadKeepsAlone(c, s, w, startedAt);
      }
      hide Core, Undisturbed, Read;
    }
  }

  lemma ReadingIsStale(c: Config, s: System, w: int)
    requires Sane(s) && Lease(c, s) && w in s.workers && s.workers[w].Reading?
    ensures c.splitClaim && s.workers[w].threshold <= s.now - c.staleWindow
  {
    hide Alone;
  }

  lemma WriteClaimKeepsLease(c: Config, s: System, w: int)
    requires Sane(s) && Lease(c, s) && Safe(c) && w in s.workers && s.workers[w].Reading?
    ensures Lease(c, TryClaim(s, w, s.workers[w].id, s.workers[w].threshold, s.workers[w].attemptCount))
  {
    ReadingIsStale(c, s, w);
    TryClaimKeepsCore(c, s, w, s.workers[w].id, s.workers[w].threshold, s.workers[w].attemptCount);
    if c.single {
      ClaimKeepsAlone(c, s, w);
    }
    hide Core, Undisturbed, TryClaim;
  }

  lemma WriteAbandonKeepsLease(c: Config, s: System, w: int)
    requires Sane(s) && Lease(c, s) && w in s.workers && s.workers[w].Abandoning?
    ensures Lease(c, Release(s, w).(tables := MarkAbandoned(s.tables, s.workers[w].id)))
  {
    AbandonKeepsCore(c, s, w);
    if c.single {
      AbandonKeepsAlone(c, s, w);
    }
    hide Core, Undisturbed;
  }

  lemma EndKeepsLease(c: Config, s: System, w: int, ending: Ending)
    requires Sane(s) && Lease(c, s) && w in s.workers && s.workers[w].InFlight?
    ensures Lease(c, End(s, w, ending))
  {
    EndKeepsCore(c, s, w, ending);
    if c.single {
      EndKeepsAlone(c, s, w, ending);
    }
    hide Core, Undisturbed, End;
  }

  lemma EnvironmentKeepsLease(c: Config, s: System, e: Event)
    requires Sane(s) && Lease(c, s)
    ensures Lease(c, Environment(c, s, e))
  {
    assert UpdatesOnlySplit(c, s);
    hide Core, Alone;
    EnvironmentKeepsCore(c, s, e);
    EnvironmentKeepsAlone(c, s, e);
  }

  lemma StepKeepsLease(c: Config, s: System, e: Event)
    requires Sane(s) && Lease(c, s) && Safe(c)
    ensures Lease(c, Step(c, s, e))
  {
    hide Lease, MayElapse, MaySelect, TryClaim, Read, End, Environment, MarkAbandoned;
    match e {
      case Elapse(ms) =>
        if MayElapse(c, s, ms) {
          ElapseKeepsLease(c, s, ms);
        }
      case SelectBatch(w, ignoreSchedule, limit, askedAt, batch) =>
        if MaySelect(c, s, w, ignoreSchedule, limit, askedAt, batch) {
          SelectKeepsLease(c, s, w, ignoreSchedule, limit, askedAt, batch);
        }
      case ReadRow(w, startedAt) => ReadKeepsLease(c, s, w, startedAt);
      case WriteClaim(w) =>
        if w in s.workers && s.workers[w].Reading? {
          WriteClaimKeepsLease(c, s, w);
        }
      case WriteAbandon(w) =>
        if w in s.workers && s.workers[w].Abandoning? {
          WriteAbandonKeepsLease(c, s, w);
        }
      case Finish(w, ending) =>
        if w in s.workers && s.workers[w].InFlight? {
          EndKeepsLease(c, s, w, ending);
        }
      case Leave(w) =>
        if w !in s.workers || !s.workers[w].InFlight? {
          QuitKeepsLease(c, s, w);
        }
      case _ => EnvironmentKeepsLease(c, s, e);
    }
  }

  lemma {:induction false} RunKeepsLease(c: Config, s: System, events: seq<Event>)
    requires Sane(s) && Lease(c, s) && Safe(c)
    ensures Lease(c, Run(c, s, events))
    decreases |events|
  {
    if events != [] {
      StepKeepsLease(c, s, events[0]);
      RunKeepsLease(c, Step(c, s, events[0]), events[1..]);
    }
  }
}
