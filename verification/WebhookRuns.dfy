/**
 Runs that break a guarantee, one step at a time. They all play on one endpoint with one delivery; a scene is such a
 state, and each lemma plays one step from a scene that is reached.
 */
module WebhookRuns {
  import opened Wrappers
  import opened Runs
  import opened DeliveryRetry
  import opened WebhookTables
  import opened WebhookProcessing
  import opened WebhookProtocol
  import opened WebhookLifeCycle

  datatype Scene = Scene(
    now: int, status: EndpointStatus, last: Option<int>, d: Delivery, audits: seq<nat>, calls: map<int, Call>,
    queues: map<int, seq<nat>>, workers: map<int, Worker>, starts: seq<int>)

  function Staged(x: Scene): System {
    System(x.now, Tables([Endpoint(0, "", "", {DESTINATION_UPDATED}, x.status, x.last)], [x.d], x.audits), x.calls,
           x.queues, x.workers, if x.starts == [] then map[] else map[0 := x.starts], map[])
  }

  predicate Playable(x: Scene) {
    && x.d.endpointId == 0 && x.workers.Keys <= x.queues.Keys
    && (forall call :: call in x.calls ==> x.calls[call].Updating? && x.calls[call].endpointId == 0)
    && (forall w :: w in x.queues ==> x.queues[w] == [] || x.queues[w] == [0])
    && (forall w :: w in x.workers ==> x.workers[w].id == 0)
    && (forall w :: w in x.workers && !x.workers[w].Abandoning? ==> x.workers[w].attemptCount >= 1)
  }

  ghost predicate Played(c: Config, start: int, x: Scene) {
    Playable(x) && Sane(Staged(x)) && Reached(Machine(c), Init(start), Staged(x))
  }

  /** One active endpoint with one delivery, due since `start`. */
  function Opening(start: int): Scene {
    Scene(start, ACTIVE, None, NewDelivery(0, DESTINATION_UPDATED, start), [], map[], map[], map[], [])
  }

  lemma Opens(c: Config, start: int)
    ensures Played(c, start, Opening(start))
  {
    hide Reached;
    StartIsReached(Machine(c), Init(start));
    ReachedStep(Machine(c), Init(start), Init(start), AddEndpoint(0, {DESTINATION_UPDATED}));
    var s := Step(c, Init(start), AddEndpoint(0, {DESTINATION_UPDATED}));
    assert Subscribed(s.tables.endpoints[0], 0, DESTINATION_UPDATED);
    assert SubscriberIds(s.tables.endpoints, 0, DESTINATION_UPDATED, 0) == [];
    assert SubscriberIds(s.tables.endpoints, 0, DESTINATION_UPDATED, 1) == [0];
    ReachedStep(Machine(c), Init(start), s, BeginPublish(0, 0, DESTINATION_UPDATED));
    var s1 := s.(calls := map[0 := Inserting([0], DESTINATION_UPDATED)]);
    assert Step(c, s, BeginPublish(0, 0, DESTINATION_UPDATED)) == s1;
    ReachedStep(Machine(c), Init(start), s1, Commit(0, start));
    assert NewDeliveries([0], DESTINATION_UPDATED, start) == [NewDelivery(0, DESTINATION_UPDATED, start)];
    assert s1.calls - {0} == map[];
    assert Step(c, s1, Commit(0, start)) == Staged(Opening(start));
  }

  /** A step that leads from one scene to another. */
  lemma Plays(c: Config, start: int, x: Scene, e: Event, x': Scene)
    requires Played(c, start, x) && Playable(x') && Step(c, Staged(x), e) == Staged(x')
    ensures Played(c, start, x')
  {
    hide Reached, Step, Playable;
    ReachedStep(Machine(c), Init(start), Staged(x), e);
  }

  // ---- the steps ----

  function WithQueue(x: Scene, w: int, queue: seq<nat>): Scene {
    x.(queues := x.queues[w := queue])
  }

  /** The delivery is one the batch query finds. */
  predicate Waiting(c: Config, x: Scene, ignoring: bool) {
    || (x.d.status == PENDING && (ignoring || Due(x.d, x.now)))
    || (x.d.status == PROCESSING && x.d.lastAttemptAt.Some? && x.d.lastAttemptAt.value <= x.now - c.staleWindow)
  }

  lemma Selects(c: Config, start: int, x: Scene, w: int, ignoring: bool)
    requires Played(c, start, x) && w !in x.queues && x.status == ACTIVE
    requires (c.single ==> x.queues == map[]) && (c.scheduledOnly ==> !ignoring)
    requires Waiting(c, x, ignoring)
    ensures Played(c, start, WithQueue(x, w, [0]))
  {
    hide Reached;
    assert IsBatch(Staged(x).tables, x.now, c.staleWindow, ignoring, 1, [0]);
    Plays(c, start, x, SelectBatch(w, ignoring, 1, x.now, [0]), WithQueue(x, w, [0]));
  }

  function AsReading(c: Config, x: Scene, w: int): Scene {
    WithQueue(x, w, []).(
      workers := x.workers[w := Reading(0, x.d.attemptCount + 1, x.now - c.staleWindow)])
  }

  /** The claim as it was decided when `n` was read. */
  function AsClaimed(x: Scene, w: int, n: nat): Scene {
    WithQueue(x, w, []).(
      d := Claimed(x.d, n, x.now), workers := x.workers[w := InFlight(0, n, x.now)], starts := x.starts + [x.now])
  }

  lemma ReadsOnly(c: Config, x: Scene, w: int)
    requires Playable(x) && Sane(Staged(x)) && w in x.queues && x.queues[w] == [0] && w !in x.workers && c.splitClaim
    requires x.status == ACTIVE && Claimable(x.d, x.now - c.staleWindow)
    ensures Read(c, Staged(x), w, x.now) == Staged(AsReading(c, x, w))
  {
    assert Dequeue(Staged(x), w) == Staged(WithQueue(x, w, []));
    assert Decide(Staged(x).tables, 0, x.now - c.staleWindow) == Proceed(x.d.attemptCount + 1);
    hide Decide, Dequeue, Claimable, TryClaim, Playable;
  }

  lemma ReadsToClaim(c: Config, start: int, x: Scene, w: int)
    requires Played(c, start, x) && w in x.queues && x.queues[w] == [0] && w !in x.workers && c.splitClaim
    requires x.status == ACTIVE && Claimable(x.d, x.now - c.staleWindow)
    ensures Played(c, start, AsReading(c, x, w))
  {
    hide Reached, Read, Claimable, Sane;
    ReadsOnly(c, x, w);
    Plays(c, start, x, ReadRow(w, x.now), AsReading(c, x, w));
  }

  lemma WritesClaim(c: Config, start: int, x: Scene, w: int, n: nat)
    requires Played(c, start, x) && w in x.workers && x.workers[w].Reading? && x.workers[w].attemptCount == n
    requires x.queues[w] == [] && Claimable(x.d, x.workers[w].threshold)
    ensures Played(c, start, AsClaimed(x, w, n))
  {
    hide Reached;
    var x' := AsClaimed(x, w, n);
    assert x'.queues == x.queues;
    assert Staged(x').starts == Staged(x).starts[0 := StartsOf(Staged(x), 0) + [x.now]];
    Plays(c, start, x, WriteClaim(w), x');
  }

  /** The claim itself, after the delivery has been taken off the list. */
  lemma ClaimOnScene(x: Scene, w: int, threshold: int, n: nat)
    requires Playable(x) && w in x.queues && x.queues[w] == [] && Claimable(x.d, threshold)
    ensures TryClaim(Staged(x), w, 0, threshold, n) == Staged(AsClaimed(x, w, n))
  {
    var x' := AsClaimed(x, w, n);
    assert x'.queues == x.queues;
    assert Staged(x').starts == Staged(x).starts[0 := StartsOf(Staged(x), 0) + [x.now]];
  }

  lemma ReadOnScene(c: Config, x: Scene, w: int)
    requires Playable(x) && Sane(Staged(x)) && w in x.queues && x.queues[w] == [0] && w !in x.workers && !c.splitClaim
    requires x.status == ACTIVE && Claimable(x.d, x.now - c.staleWindow)
    ensures Read(c, Staged(x), w, x.now) ==
      TryClaim(Staged(WithQueue(x, w, [])), w, 0, x.now - c.staleWindow, x.d.attemptCount + 1)
  {
    hide TryClaim, Claimable;
    assert Dequeue(Staged(x), w) == Staged(WithQueue(x, w, []));
    assert Decide(Staged(x).tables, 0, x.now - c.staleWindow) == Proceed(x.d.attemptCount + 1);
  }

  lemma ClaimsInOneStep(c: Config, x: Scene, w: int)
    requires Playable(x) && Sane(Staged(x)) && w in x.queues && x.queues[w] == [0] && w !in x.workers && !c.splitClaim
    requires x.status == ACTIVE && Claimable(x.d, x.now - c.staleWindow)
    ensures Read(c, Staged(x), w, x.now) == Staged(AsClaimed(x, w, x.d.attemptCount + 1))
  {
    ReadOnScene(c, x, w);
    hide Read, Sane, Claimable;
    ClaimOnScene(WithQueue(x, w, []), w, x.now - c.staleWindow, x.d.attemptCount + 1);
    assert x.queues[w := []][w := []] == x.queues[w := []];
    hide TryClaim;
  }

  lemma ClaimsAtOnce(c: Config, start: int, x: Scene, w: int)
    requires Played(c, start, x) && w in x.queues && x.queues[w] == [0] && w !in x.workers && !c.splitClaim
    requires x.status == ACTIVE && Claimable(x.d, x.now - c.staleWindow)
    ensures Played(c, start, AsClaimed(x, w, x.d.attemptCount + 1))
  {
    hide Reached, Read, Claimable, Sane;
    ClaimsInOneStep(c, x, w);
    Plays(c, start, x, ReadRow(w, x.now), AsClaimed(x, w, x.d.attemptCount + 1));
  }

  /** A processor comes to the delivery and claims it, whether or not that is one step. */
  lemma Claims(c: Config, start: int, x: Scene, w: int)
    requires Played(c, start, x) && w in x.queues && x.queues[w] == [0] && w !in x.workers
    requires x.status == ACTIVE && Claimable(x.d, x.now - c.staleWindow)
    ensures Played(c, start, AsClaimed(x, w, x.d.attemptCount + 1))
  {
    var n := x.d.attemptCount + 1;
    hide Played, Claimable;
    if c.splitClaim {
      ReadsToClaim(c, start, x, w);
      var x1 := AsReading(c, x, w);
      WritesClaim(c, start, x1, w, n);
      assert x1.queues[w := []] == x.queues[w := []];
      assert x1.workers[w := InFlight(0, n, x.now)] == x.workers[w := InFlight(0, n, x.now)];
    } else {
      ClaimsAtOnce(c, start, x, w);
    }
  }

  function AsAbandoning(x: Scene, w: int): Scene {
    WithQueue(x, w, []).(workers := x.workers[w := Abandoning(0)])
  }

  lemma ReadsToAbandon(c: Config, start: int, x: Scene, w: int)
    requires Played(c, start, x) && w in x.queues && x.queues[w] == [0] && w !in x.workers && c.splitAbandon
    requires x.status == DISABLED && Claimable(x.d, x.now - c.staleWindow)
    ensures Played(c, start, AsAbandoning(x, w))
  {
    hide Reached;
    Plays(c, start, x, ReadRow(w, x.now), AsAbandoning(x, w));
  }

  function AsAbandoned(x: Scene, w: int): Scene {
    x.(workers := x.workers - {w}, d := Abandoned(x.d), audits := x.audits + [0])
  }

  lemma WritesAbandon(c: Config, start: int, x: Scene, w: int)
    requires Played(c, start, x) && w in x.workers && x.workers[w].Abandoning?
    ensures Played(c, start, AsAbandoned(x, w))
  {
    hide Reached;
    Plays(c, start, x, WriteAbandon(w), AsAbandoned(x, w));
  }

  function AsFailed(x: Scene, w: int): Scene
    requires w in x.workers && x.workers[w].InFlight? && x.workers[w].attemptCount >= 1
  {
    x.(workers := x.workers - {w}, d := Rescheduled(x.d, x.workers[w].attemptCount, x.now))
  }

  lemma Fails(c: Config, start: int, x: Scene, w: int)
    requires Played(c, start, x) && w in x.workers && x.workers[w].InFlight?
    requires 1 <= x.workers[w].attemptCount < MAX_DELIVERY_ATTEMPTS
    ensures Played(c, start, AsFailed(x, w))
  {
    hide Reached;
    Plays(c, start, x, Finish(w, NotDelivered), AsFailed(x, w));
  }

  function AsDelivered(x: Scene, w: int): Scene {
    x.(workers := x.workers - {w}, d := x.d.(status := SUCCEEDED), last := Some(x.now))
  }

  lemma Delivers(c: Config, start: int, x: Scene, w: int)
    requires Played(c, start, x) && w in x.workers && x.workers[w].InFlight?
    ensures Played(c, start, AsDelivered(x, w))
  {
    hide Reached;
    Plays(c, start, x, Finish(w, Delivered), AsDelivered(x, w));
  }

  lemma Leaves(c: Config, start: int, x: Scene, w: int)
    requires Played(c, start, x) && w !in x.workers
    ensures Played(c, start, x.(queues := x.queues - {w}))
  {
    hide Reached;
    assert x.workers - {w} == x.workers;
    Plays(c, start, x, Leave(w), x.(queues := x.queues - {w}));
  }

  lemma Waits(c: Config, start: int, x: Scene, ms: nat)
    requires Played(c, start, x)
    requires forall w :: w in x.workers && x.workers[w].InFlight? ==> x.now + ms <= x.workers[w].claimedAt + c.lateness
    ensures Played(c, start, x.(now := x.now + ms))
  {
    hide Reached;
    Plays(c, start, x, Elapse(ms), x.(now := x.now + ms));
  }

  function To(status: EndpointStatus): EndpointUpdate {
    EndpointUpdate(None, None, None, Some(status))
  }

  function AsUpdating(x: Scene, call: int, status: EndpointStatus): Scene {
    x.(calls := x.calls[call := Updating(0, To(status), x.status)])
  }

  /** An update has read the endpoint. */
  lemma Begins(c: Config, start: int, x: Scene, call: int, status: EndpointStatus)
    requires Played(c, start, x) && call !in x.calls && c.splitUpdate
    ensures Played(c, start, AsUpdating(x, call, status))
  {
    hide Reached;
    Plays(c, start, x, BeginUpdate(call, 0, 0, To(status)), AsUpdating(x, call, status));
  }

  /** An update is written, by the status it read. */
  lemma Commits(c: Config, start: int, x: Scene, call: int, x': Scene)
    requires Played(c, start, x) && call in x.calls && x'.d.endpointId == 0
    requires x' == x.(status := x'.status, d := x'.d, audits := x'.audits, calls := x.calls - {call})
    requires WriteUpdate(Staged(x).tables, 0, x.calls[call].update, x.calls[call].before) == Staged(x').tables
    ensures Played(c, start, x')
  {
    hide Reached, WriteUpdate;
    Plays(c, start, x, Commit(call, x.now), x');
  }

  /** An update that nothing comes between. */
  lemma Updates(c: Config, start: int, x: Scene, status: EndpointStatus, x': Scene)
    requires Played(c, start, x) && 0 !in x.calls && x'.d.endpointId == 0
    requires x' == x.(status := x'.status, d := x'.d, audits := x'.audits)
    requires WriteUpdate(Staged(x).tables, 0, To(status), x.status) == Staged(x').tables
    ensures Played(c, start, x')
  {
    hide WriteUpdate;
    if c.splitUpdate {
      hide Played;
      Begins(c, start, x, 0, status);
      assert AsUpdating(x, 0, status).calls - {0} == x.calls;
      Commits(c, start, AsUpdating(x, 0, status), 0, x');
    } else {
      hide Reached;
      Plays(c, start, x, BeginUpdate(0, 0, 0, To(status)), x');
    }
  }

  /** The partner enables the endpoint, or disables it while its delivery does not wait. */
  lemma Switches(c: Config, start: int, x: Scene, status: EndpointStatus)
    requires Played(c, start, x) && 0 !in x.calls && (status == DISABLED ==> x.d.status != PENDING)
    ensures Played(c, start, x.(status := status))
  {
    assert x.d.status != PENDING ==> PendingIds([x.d], 0, 0) == [] && PendingIds([x.d], 0, 1) == [];
    assert WriteUpdate(Staged(x).tables, 0, To(status), x.status) == Staged(x.(status := status)).tables;
    hide Reached, WriteUpdate;
    Updates(c, start, x, status, x.(status := status));
  }

  function AsSwitchedOff(x: Scene): Scene {
    x.(status := DISABLED, d := Abandoned(x.d), audits := x.audits + [0])
  }

  /** The partner disables the endpoint while its delivery waits. */
  lemma SwitchesOff(c: Config, start: int, x: Scene)
    requires Played(c, start, x) && 0 !in x.calls && x.d.status == PENDING && x.status == ACTIVE
    ensures Played(c, start, AsSwitchedOff(x))
  {
    assert PendingIds([x.d], 0, 0) == [] && PendingIds([x.d], 0, 1) == [0];
    assert WriteUpdate(Staged(x).tables, 0, To(DISABLED), x.status) == Staged(AsSwitchedOff(x)).tables;
    hide Reached, WriteUpdate;
    Updates(c, start, x, DISABLED, AsSwitchedOff(x));
  }

  /** An update that read a disabled endpoint disables it again and abandons nothing. */
  lemma CommitsLate(c: Config, start: int, x: Scene, call: int)
    requires Played(c, start, x) && call in x.calls && x.calls[call] == Updating(0, To(DISABLED), DISABLED)
    ensures Played(c, start, x.(status := DISABLED, calls := x.calls - {call}))
  {
    var x' := x.(status := DISABLED, calls := x.calls - {call});
    assert WriteUpdate(Staged(x).tables, 0, To(DISABLED), DISABLED) == Staged(x').tables;
    hide Reached, WriteUpdate;
    Commits(c, start, x, call, x');
  }
}
