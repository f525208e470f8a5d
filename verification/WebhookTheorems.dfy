/**
 The delivery engine over whole runs. Each guarantee is stated with exactly the condition it needs: below it a run
 breaks the guarantee, in every configuration that lacks the condition.
 */
module WebhookTheorems {
  import opened Wrappers
  import Runs
  import opened DeliveryRetry
  import opened WebhookTables
  import opened WebhookProcessing
  import opened WebhookProtocol
  import opened WebhookLifeCycle
  import opened WebhookRuns

  // ---- invariants of runs ----

  lemma {:induction false} RunKeepsOk(c: Config, s: System, events: seq<Event>)
    requires Safe(c) && Ok(c, s)
    ensures Ok(c, Run(c, s, events))
    decreases |events|
  {
    hide SlotOk, Lease;
    if events != [] {
      var s' := Step(c, s, events[0]);
      StepKeepsLease(c, s, events[0]);
      forall id: nat ensures SlotOk(c, s', id) {
        StepKeepsSlot(c, s, events[0], id);
      }
      RunKeepsOk(c, s', events[1..]);
    }
  }

  lemma InitIsOk(c: Config, start: int)
    ensures Ok(c, Init(start))
  {
  }

  lemma ReachedIsOk(c: Config, start: int, events: seq<Event>, id: nat)
    requires Safe(c)
    ensures SlotOk(c, Run(c, Init(start), events), id)
  {
    InitIsOk(c, start);
    hide SlotOk, Lease;
    RunKeepsOk(c, Init(start), events);
  }

  lemma ReadSettles(c: Config, s: System, w: int, startedAt: int, id: nat)
    requires Sane(s) && id < |s.tables.deliveries| && Terminal(s.tables.deliveries[id])
    ensures id < |Read(c, s, w, startedAt).tables.deliveries|
    ensures Read(c, s, w, startedAt).tables.deliveries[id] == s.tables.deliveries[id]
  {
  }

  lemma EndSettles(c: Config, s: System, w: int, ending: Ending, id: nat)
    requires Calm(c) && Sane(s) && Core(c, s) && w in s.workers && s.workers[w].InFlight?
    requires id < |s.tables.deliveries| && Terminal(s.tables.deliveries[id])
    ensures id < |End(s, w, ending).tables.deliveries|
    ensures End(s, w, ending).tables.deliveries[id] == s.tables.deliveries[id]
  {
  }

  lemma StepSettles(c: Config, s: System, e: Event, id: nat)
    requires Calm(c) && Sane(s) && Lease(c, s)
    requires id < |s.tables.deliveries| && Terminal(s.tables.deliveries[id])
    ensures id < |Step(c, s, e).tables.deliveries|
    ensures Step(c, s, e).tables.deliveries[id] == s.tables.deliveries[id]
  {
    hide Core, Alone, Read, End, Environment, IsBatch, MayElapse;
    match e {
      case Elapse(_) =>
      case SelectBatch(_, _, _, _, _) =>
      case Leave(_) =>
      case ReadRow(w, startedAt) => ReadSettles(c, s, w, startedAt, id);
      case WriteClaim(_) =>
      case WriteAbandon(w) =>
        if w in s.workers && s.workers[w].Abandoning? {
          LateAbandonChangesNothing(c, s, w);
        }
      case Finish(w, ending) =>
        if w in s.workers && s.workers[w].InFlight? {
          EndSettles(c, s, w, ending, id);
        }
      case _ => EnvironmentOnOldRow(c, s, e, id);
    }
  }

  /** Where no other processor interferes, a delivery about to be abandoned is unsettled, or is already what it will
      be. */
  lemma LateAbandonChangesNothing(c: Config, s: System, w: int)
    requires Calm(c) && Sane(s) && Lease(c, s) && w in s.workers && s.workers[w].Abandoning?
    ensures var d := s.tables.deliveries[s.workers[w].id]; Terminal(d) ==> d == Abandoned(d)
  {
    assert c.single by {
      hide Alone;
    }
    NextStillWaits(c, s, w);
  }

  lemma ReadOrEndKeepsRows(c: Config, s: System, w: int, startedAt: int, ending: Ending)
    requires Sane(s)
    ensures |Read(c, s, w, startedAt).tables.deliveries| == |s.tables.deliveries|
    ensures w in s.workers && s.workers[w].InFlight? ==>
      |End(s, w, ending).tables.deliveries| == |s.tables.deliveries|
  {
    hide Decide, Claimable;
  }

  lemma StepKeepsRows(c: Config, s: System, e: Event)
    requires Sane(s)
    ensures |Step(c, s, e).tables.deliveries| >= |s.tables.deliveries|
  {
    hide IsBatch, MayElapse, Read, End, Environment;
    match e {
      case ReadRow(w, startedAt) => ReadOrEndKeepsRows(c, s, w, startedAt, Crashed);
      case Finish(w, ending) => ReadOrEndKeepsRows(c, s, w, 0, ending);
      case _ =>
    }
  }

  lemma StepSettlesAll(c: Config, s: System, e: Event)
    requires Calm(c) && Sane(s) && Lease(c, s)
    ensures Settles(s, Step(c, s, e))
  {
    StepKeepsRows(c, s, e);
    hide Lease, Step;
    forall id | 0 <= id < |s.tables.deliveries| && Terminal(s.tables.deliveries[id])
      ensures id < |Step(c, s, e).tables.deliveries|
      ensures Step(c, s, e).tables.deliveries[id] == s.tables.deliveries[id]
    {
      StepSettles(c, s, e, id);
    }
  }

  lemma {:induction false} RunSettles(c: Config, s: System, events: seq<Event>)
    requires Calm(c) && Sane(s) && Lease(c, s)
    ensures Settles(s, Run(c, s, events))
    decreases |events|
  {
    if events != [] {
      StepKeepsLease(c, s, events[0]);
      StepSettlesAll(c, s, events[0]);
      RunSettles(c, Step(c, s, events[0]), events[1..]);
      hide Lease, Step, Sane;
    }
  }

  // ---- runs that break a guarantee ----

  /** An attempt lasts as long as the stale window, and a second processor takes its delivery over. */
  lemma TakenOver(c: Config, start: int, x: Scene) returns (x': Scene)
    requires !c.single && c.lateness >= c.staleWindow
    requires Played(c, start, x) && x.calls == map[] && x.queues == map[] && x.workers == map[] && x.status == ACTIVE
    requires x.d.status == PENDING && Due(x.d, x.now)
    ensures Played(c, start, x') && x'.now == x.now + c.staleWindow && x'.status == ACTIVE
    ensures x'.audits == x.audits && x'.calls == x.calls
    ensures x'.workers == map[1 := InFlight(0, x.d.attemptCount + 1, x.now),
                              2 := InFlight(0, x.d.attemptCount + 2, x'.now)]
    ensures x'.d.status == PROCESSING && x'.d.attemptCount == x.d.attemptCount + 2
    ensures x'.starts == x.starts + [x.now, x'.now]
  {
    hide Played;
    Selects(c, start, x, 1, false);
    var x1 := WithQueue(x, 1, [0]);
    Claims(c, start, x1, 1);
    var x2 := AsClaimed(x1, 1, x.d.attemptCount + 1);
    Waits(c, start, x2, c.staleWindow);
    var x3 := x2.(now := x2.now + c.staleWindow);
    Selects(c, start, x3, 2, false);
    var x4 := WithQueue(x3, 2, [0]);
    Claims(c, start, x4, 2);
    x' := AsClaimed(x4, 2, x4.d.attemptCount + 1);
  }

  /** A delivery comes up that has failed and whose next attempt is still far. */
  predicate ComesUpEarly(x: Scene, w: int) {
    && w in x.queues && x.queues[w] == [0] && w !in x.workers && x.status == ACTIVE
    && x.d.status == PENDING && x.d.attemptCount == 1 && !Due(x.d, x.now) && x.starts == [x.now]
  }

  /** Two processors select the same due delivery, and the first attempt fails. */
  lemma SelectedTwice(c: Config, start: int) returns (x: Scene)
    requires !c.single
    ensures Played(c, start, x) && ComesUpEarly(x, 2) && x.now == start
  {
    hide Played;
    Opens(c, start);
    var x0 := Opening(start);
    Selects(c, start, x0, 1, false);
    var x1 := WithQueue(x0, 1, [0]);
    Selects(c, start, x1, 2, false);
    var x2 := WithQueue(x1, 2, [0]);
    Claims(c, start, x2, 1);
    var x3 := AsClaimed(x2, 1, 1);
    Fails(c, start, x3, 1);
    x := AsFailed(x3, 1);
  }

  /** The second attempt follows at once. */
  lemma TwoBatches(c: Config, start: int) returns (x: Scene)
    requires !c.single
    ensures Played(c, start, x) && x.starts == [start, start]
  {
    hide Played;
    x := SelectedTwice(c, start);
    Claims(c, start, x, 2);
    x := AsClaimed(x, 2, 2);
  }

  /** A caller that ignores the schedule selects a delivery that has just failed, even alone. */
  lemma SelectedEarly(c: Config, start: int) returns (x: Scene)
    requires !c.scheduledOnly
    ensures Played(c, start, x) && ComesUpEarly(x, 1) && x.now == start
  {
    hide Played;
    Opens(c, start);
    var x0 := Opening(start);
    Selects(c, start, x0, 1, false);
    var x1 := WithQueue(x0, 1, [0]);
    Claims(c, start, x1, 1);
    var x2 := AsClaimed(x1, 1, 1);
    Fails(c, start, x2, 1);
    var x3 := AsFailed(x2, 1);
    Leaves(c, start, x3, 1);
    var x4 := x3.(queues := x3.queues - {1});
    Selects(c, start, x4, 1, true);
    x := WithQueue(x4, 1, [0]);
  }

  /** And retries it at once. */
  lemma IgnoredSchedule(c: Config, start: int) returns (x: Scene)
    requires !c.scheduledOnly
    ensures Played(c, start, x) && x.starts == [start, start]
  {
    hide Played;
    x := SelectedEarly(c, start);
    Claims(c, start, x, 1);
    x := AsClaimed(x, 1, 2);
  }

  /** Two processors read the same attempt count, and both write it. */
  lemma CountedOnce(c: Config, start: int) returns (x: Scene)
    requires !c.single && c.splitClaim
    ensures Played(c, start, x) && x.starts == [start, start] && x.d.attemptCount == 1
  {
    hide Played;
    Opens(c, start);
    var x0 := Opening(start);
    Selects(c, start, x0, 1, false);
    var x1 := WithQueue(x0, 1, [0]);
    Selects(c, start, x1, 2, false);
    var x2 := WithQueue(x1, 2, [0]);
    ReadsToClaim(c, start, x2, 1);
    var x3 := AsReading(c, x2, 1);
    ReadsToClaim(c, start, x3, 2);
    var x4 := AsReading(c, x3, 2);
    WritesClaim(c, start, x4, 1, 1);
    var x5 := AsClaimed(x4, 1, 1);
    Fails(c, start, x5, 1);
    var x6 := AsFailed(x5, 1);
    WritesClaim(c, start, x6, 2, 1);
    x := AsClaimed(x6, 2, 1);
  }

  /** One attempt that fails at once, and the wait until the next is due. */
  lemma FailsOnce(c: Config, start: int, x: Scene) returns (x': Scene)
    requires Played(c, start, x) && x.calls == map[] && x.queues == map[] && x.workers == map[] && x.status == ACTIVE
    requires x.d.status == PENDING && Due(x.d, x.now) && x.d.attemptCount + 1 < MAX_DELIVERY_ATTEMPTS
    ensures Played(c, start, x') && x'.calls == map[] && x'.queues == map[] && x'.workers == map[] && x'.status == ACTIVE
    ensures x'.d.status == PENDING && Due(x'.d, x'.now) && x'.d.attemptCount == x.d.attemptCount + 1
    ensures |x'.starts| == |x.starts| + 1
  {
    hide Played;
    var n := x.d.attemptCount + 1;
    Selects(c, start, x, 1, false);
    var x1 := WithQueue(x, 1, [0]);
    Claims(c, start, x1, 1);
    var x2 := AsClaimed(x1, 1, n);
    Fails(c, start, x2, 1);
    var x3 := AsFailed(x2, 1);
    hide RetryDelay;
    Waits(c, start, x3, RetryDelay(n));
    var x4 := x3.(now := x3.now + RetryDelay(n));
    Leaves(c, start, x4, 1);
    x' := x4.(queues := x4.queues - {1});
  }

  /** `k` attempts have failed and the next is due. */
  lemma {:induction false} AfterFailures(c: Config, start: int, k: nat) returns (x: Scene)
    requires k < MAX_DELIVERY_ATTEMPTS
    ensures Played(c, start, x) && x.calls == map[] && x.queues == map[] && x.workers == map[] && x.status == ACTIVE
    ensures x.d.status == PENDING && Due(x.d, x.now) && x.d.attemptCount == k == |x.starts|
  {
    hide Played;
    if k == 0 {
      Opens(c, start);
      x := Opening(start);
    } else {
      x := AfterFailures(c, start, k - 1);
      x := FailsOnce(c, start, x);
    }
  }

  /** A processor is about to abandon the delivery of a disabled endpoint; the endpoint is enabled again, and another
      processor has claimed the delivery. */
  lemma Interrupted(c: Config, start: int) returns (x: Scene)
    requires !c.single && c.splitAbandon
    ensures Played(c, start, x) && x.audits == [] && x.calls == map[]
    ensures x.workers == map[2 := Abandoning(0), 3 := InFlight(0, 2, start)]
  {
    hide Played;
    Opens(c, start);
    var x0 := Opening(start);
    Selects(c, start, x0, 1, false);
    var x1 := WithQueue(x0, 1, [0]);
    Selects(c, start, x1, 2, false);
    var x2 := WithQueue(x1, 2, [0]);
    Selects(c, start, x2, 3, false);
    var x3 := WithQueue(x2, 3, [0]);
    Claims(c, start, x3, 1);
    var x4 := AsClaimed(x3, 1, 1);
    Switches(c, start, x4, DISABLED);
    var x5 := x4.(status := DISABLED);
    Fails(c, start, x5, 1);
    var x6 := AsFailed(x5, 1);
    ReadsToAbandon(c, start, x6, 2);
    var x7 := AsAbandoning(x6, 2);
    Switches(c, start, x7, ACTIVE);
    var x8 := x7.(status := ACTIVE);
    Claims(c, start, x8, 3);
    x := AsClaimed(x8, 3, 2);
  }

  /** An update reads the endpoint while it is disabled; the endpoint is enabled again, and the delivery waits. A lone
      processor selects it, and only then is the update written, which abandons nothing. */
  lemma LeftWaiting(c: Config, start: int) returns (x: Scene)
    requires c.splitUpdate
    ensures Played(c, start, x) && x.calls == map[] && x.queues == map[1 := [0]] && x.workers == map[]
    ensures x.status == DISABLED && x.d.status == PENDING && x.audits == []
  {
    hide Played;
    Opens(c, start);
    var x0 := Opening(start);
    Selects(c, start, x0, 1, false);
    var x1 := WithQueue(x0, 1, [0]);
    Claims(c, start, x1, 1);
    var x2 := AsClaimed(x1, 1, 1);
    Switches(c, start, x2, DISABLED);
    var x3 := x2.(status := DISABLED);
    Begins(c, start, x3, 9, DISABLED);
    var x4 := AsUpdating(x3, 9, DISABLED);
    Switches(c, start, x4, ACTIVE);
    var x5 := x4.(status := ACTIVE);
    Fails(c, start, x5, 1);
    var x6 := AsFailed(x5, 1);
    Leaves(c, start, x6, 1);
    var x7 := x6.(queues := x6.queues - {1});
    hide RetryDelay;
    Waits(c, start, x7, RetryDelay(1));
    var x8 := x7.(now := x7.now + RetryDelay(1));
    Selects(c, start, x8, 1, false);
    var x9 := WithQueue(x8, 1, [0]);
    CommitsLate(c, start, x9, 9);
    x := x9.(status := DISABLED, calls := x9.calls - {9});
  }

  /** While the processor is about to abandon it, the partner enables and disables the endpoint. */
  lemma OvertakenAbandonment(c: Config, start: int) returns (x: Scene)
    requires c.splitAbandon && c.splitUpdate
    ensures Played(c, start, x) && x.audits == [0, 0]
  {
    hide Played;
    var x0 := LeftWaiting(c, start);
    ReadsToAbandon(c, start, x0, 1);
    var x1 := AsAbandoning(x0, 1);
    Switches(c, start, x1, ACTIVE);
    var x2 := x1.(status := ACTIVE);
    SwitchesOff(c, start, x2);
    var x3 := AsSwitchedOff(x2);
    WritesAbandon(c, start, x3, 1);
    x := AsAbandoned(x3, 1);
  }

  lemma EventsOf(c: Config, start: int, x: Scene) returns (events: seq<Event>)
    requires Played(c, start, x)
    ensures Run(c, Init(start), events) == Staged(x)
  {
    events := Runs.EventsTo(Machine(c), Init(start), Staged(x));
  }

  // ---- the theorems ----

  /** In no interleaving do two processors hold the same delivery. */
  ghost predicate AlwaysExclusive(c: Config) {
    forall start, events :: Exclusive(Run(c, Init(start), events))
  }

  /** That holds exactly when every attempt that does not crash writes its outcome strictly within the stale window of
      its claim, or no two processors run at once. */
  lemma LeaseSafety(c: Config)
    ensures AlwaysExclusive(c) <==> c.single || c.lateness < c.staleWindow
  {
    if Safe(c) {
      forall start, events ensures Exclusive(Run(c, Init(start), events)) {
        RunKeepsLease(c, Init(start), events);
      }
    } else {
      Opens(c, 0);
      var x := TakenOver(c, 0, Opening(0));
      var events := EventsOf(c, 0, x);
      assert 1 in x.workers && 2 in x.workers;
      assert !Exclusive(Run(c, Init(0), events));
    }
  }

  /** Then the row of a held delivery is PROCESSING with its holder's attempt and claim time; only an abandonment in two
      steps can turn it ABANDONED under the holder, and only if the holder is not alone. */
  lemma HeldRowsCarryTheirClaim(c: Config, start: int, events: seq<Event>, w: int)
    requires c.single || c.lateness < c.staleWindow
    requires w in Run(c, Init(start), events).workers && Run(c, Init(start), events).workers[w].InFlight?
    ensures var s := Run(c, Init(start), events);
            var d := s.tables.deliveries[s.workers[w].id];
            && d.attemptCount == s.workers[w].attemptCount && d.lastAttemptAt == Some(s.workers[w].claimedAt)
            && (d.status == PROCESSING || (c.splitAbandon && !c.single && d.status == ABANDONED))
            && s.now <= s.workers[w].claimedAt + c.lateness
  {
    RunKeepsLease(c, Init(start), events);
  }

  /** In every interleaving, a delivery that is SUCCEEDED or ABANDONED after `p` is the same row after `p + q`. */
  ghost predicate AlwaysSettles(c: Config) {
    forall start, p, q :: Settles(Run(c, Init(start), p), Run(c, Init(start), p + q))
  }

  /** That holds exactly when no two processors run at once, or attempts end within the stale window and reading a
      disabled endpoint's delivery and abandoning it are one step. */
  lemma SettledForever(c: Config)
    ensures AlwaysSettles(c) <==> c.single || (c.lateness < c.staleWindow && !c.splitAbandon)
  {
    if Calm(c) {
      forall start, p, q ensures Settles(Run(c, Init(start), p), Run(c, Init(start), p + q)) {
        RunKeepsLease(c, Init(start), p);
        Runs.RunConcat(Machine(c), Init(start), p, q);
        RunSettles(c, Run(c, Init(start), p), q);
      }
    } else {
      var p, q := SettledMoves(c, 0);
      assert !Settles(Run(c, Init(0), p), Run(c, Init(0), p + q));
    }
  }

  lemma SettledMoves(c: Config, start: int) returns (p: seq<Event>, q: seq<Event>)
    requires !Calm(c)
    ensures !Settles(Run(c, Init(start), p), Run(c, Init(start), p + q))
  {
    var x, w, ending := SettledUnderAnAttempt(c, start);
    p := EventsOf(c, start, x);
    q := [Finish(w, ending)];
    Runs.LastStep(Machine(c), Init(start), p, Finish(w, ending));
    EndsOnScene(c, x, w, ending);
    hide Run, Played, Step;
  }

  /** A settled delivery that another processor is still about to write to. */
  lemma SettledUnderAnAttempt(c: Config, start: int) returns (x: Scene, w: int, ending: Ending)
    requires !Calm(c)
    ensures Played(c, start, x) && Terminal(x.d) && w in x.workers && x.workers[w].InFlight?
    ensures 1 <= x.workers[w].attemptCount < MAX_DELIVERY_ATTEMPTS
    ensures if x.d.status == SUCCEEDED then ending == NotDelivered else ending == Delivered
  {
    hide Played;
    if c.lateness >= c.staleWindow {
      Opens(c, start);
      x := TakenOver(c, start, Opening(start));
      Delivers(c, start, x, 1);
      x, w, ending := AsDelivered(x, 1), 2, NotDelivered;
    } else {
      x := Interrupted(c, start);
      WritesAbandon(c, start, x, 2);
      x, w, ending := AsAbandoned(x, 2), 3, Delivered;
    }
  }

  lemma EndsOnScene(c: Config, x: Scene, w: int, ending: Ending)
    requires Playable(x) && Sane(Staged(x)) && w in x.workers && x.workers[w].InFlight?
    requires x.workers[w].attemptCount < MAX_DELIVERY_ATTEMPTS && ending != Crashed
    ensures var s' := Step(c, Staged(x), Finish(w, ending));
      |s'.tables.deliveries| == 1
      && s'.tables.deliveries[0].status == if ending == Delivered then SUCCEEDED else PENDING
  {
  }

  /** In every run FAILED is never written, PENDING means fewer than five attempts, and a time for the next attempt
      means PENDING. */
  ghost predicate AlwaysWellFormed(c: Config) {
    forall start, events, id: nat :: id < |Run(c, Init(start), events).tables.deliveries| ==>
      WellFormed(Run(c, Init(start), events).tables.deliveries[id])
  }

  /** That holds exactly when deliveries are never taken over from an attempt that is still to write. */
  lemma DeliveryLifeCycle(c: Config)
    ensures AlwaysWellFormed(c) <==> c.single || c.lateness < c.staleWindow
  {
    if Safe(c) {
      forall start, events, id: nat | id < |Run(c, Init(start), events).tables.deliveries|
        ensures WellFormed(Run(c, Init(start), events).tables.deliveries[id])
      {
        ReachedIsOk(c, start, events, id);
      }
    } else {
      var x := DeliveredYetScheduled(c, 0);
      var events := EventsOf(c, 0, x);
      hide Played;
      assert !WellFormed(Run(c, Init(0), events).tables.deliveries[0]);
    }
  }

  /** The first of two holders reschedules the delivery, the second delivers it. */
  lemma DeliveredYetScheduled(c: Config, start: int) returns (x: Scene)
    requires !Safe(c)
    ensures Played(c, start, x) && !WellFormed(x.d)
  {
    hide Played;
    Opens(c, start);
    x := TakenOver(c, start, Opening(start));
    Fails(c, start, x, 1);
    x := AsFailed(x, 1);
    Delivers(c, start, x, 2);
    x := AsDelivered(x, 2);
  }

  /** In every run an ABANDONED delivery has one audit record of its abandonment, and no other has any. */
  ghost predicate AlwaysAuditedOnce(c: Config) {
    forall start, events, id: nat :: id < |Run(c, Init(start), events).tables.deliveries| ==>
      AuditedOnce(Run(c, Init(start), events), id)
  }

  /** That holds exactly when attempts end within the stale window and reading a disabled endpoint's delivery and
      abandoning it are one step, or no two processors run at once and that or an endpoint update is one step. */
  lemma AbandonmentIsAudited(c: Config)
    ensures AlwaysAuditedOnce(c) <==>
      || (c.lateness < c.staleWindow && !c.splitAbandon)
      || (c.single && (!c.splitAbandon || !c.splitUpdate))
  {
    if Recorded(c) {
      forall start, events, id: nat | id < |Run(c, Init(start), events).tables.deliveries|
        ensures AuditedOnce(Run(c, Init(start), events), id)
      {
        ReachedIsOk(c, start, events, id);
      }
    } else {
      var x := AuditedTwice(c, 0);
      var events := EventsOf(c, 0, x);
      assert Occurrences([0], 0) == 1 && Occurrences([0, 0], 0) == 2;
      assert !AuditedOnce(Run(c, Init(0), events), 0);
    }
  }

  /** One delivery abandoned twice. */
  lemma AuditedTwice(c: Config, start: int) returns (x: Scene)
    requires !Recorded(c)
    ensures Played(c, start, x) && x.audits == [0, 0]
  {
    hide Played;
    if c.single {
      x := OvertakenAbandonment(c, start);
    } else if c.lateness >= c.staleWindow {
      Opens(c, start);
      x := TakenOver(c, start, Opening(start));
      Fails(c, start, x, 1);
      x := AsFailed(x, 1);
      SwitchesOff(c, start, x);
      x := AsSwitchedOff(x);
      x := AbandonedAgain(c, start, x, 2);
    } else {
      x := Interrupted(c, start);
      WritesAbandon(c, start, x, 2);
      x := AsAbandoned(x, 2);
      x := AbandonedAgain(c, start, x, 3);
    }
  }

  /** An attempt under way puts an abandoned delivery back to PENDING, and it is abandoned again. */
  lemma AbandonedAgain(c: Config, start: int, x: Scene, w: int) returns (x': Scene)
    requires Played(c, start, x) && x.calls == map[] && w in x.workers && x.workers[w].InFlight?
    requires 1 <= x.workers[w].attemptCount < MAX_DELIVERY_ATTEMPTS
    ensures Played(c, start, x') && x'.audits == x.audits + [0]
  {
    hide Played;
    Fails(c, start, x, w);
    var x1 := AsFailed(x, w);
    Switches(c, start, x1, ACTIVE);
    SwitchesOff(c, start, x1.(status := ACTIVE));
    x' := AsSwitchedOff(x1.(status := ACTIVE));
  }

  /** In every run the attempt count of a delivery is the number of its claims, and these never exceed five plus the
      attempts that crashed. */
  ghost predicate AlwaysCounted(c: Config) {
    forall start, events, id: nat :: id < |Run(c, Init(start), events).tables.deliveries| ==>
      ClaimsCounted(Run(c, Init(start), events), id)
  }

  predicate ClaimsCounted(s: System, id: nat)
    requires id < |s.tables.deliveries|
  {
    s.tables.deliveries[id].attemptCount == |StartsOf(s, id)| <= MAX_DELIVERY_ATTEMPTS + CrashesOf(s, id)
  }

  /** That holds exactly when no two processors run at once, or reading and claiming are one step and attempts end
      within the stale window. */
  lemma AttemptBound(c: Config)
    ensures AlwaysCounted(c) <==> c.single || (!c.splitClaim && c.lateness < c.staleWindow)
  {
    if CountsClaims(c) {
      forall start, events, id: nat | id < |Run(c, Init(start), events).tables.deliveries|
        ensures ClaimsCounted(Run(c, Init(start), events), id)
      {
        ReachedIsOk(c, start, events, id);
      }
    } else {
      var x: Scene;
      if c.splitClaim {
        x := CountedOnce(c, 0);
      } else {
        x := AfterFailures(c, 0, 4);
        x := TakenOver(c, 0, x);
      }
      var events := EventsOf(c, 0, x);
      assert !ClaimsCounted(Run(c, Init(0), events), 0);
    }
  }

  /** Every delivery none of whose attempts crashed has spaced attempts. */
  ghost predicate KeepsBackoff(s: System) {
    forall id: nat :: CrashesOf(s, id) == 0 ==> Spaced(StartsOf(s, id))
  }

  /** In every run attempts are spaced by the exponential backoff. */
  ghost predicate AlwaysSpaced(c: Config) {
    forall start, events :: KeepsBackoff(Run(c, Init(start), events))
  }

  /** That holds exactly when no caller ignores the schedule and no two processors run at once. */
  lemma BackoffSpacing(c: Config)
    ensures AlwaysSpaced(c) <==> c.single && c.scheduledOnly
  {
    if Paced(c) {
      forall start, events ensures KeepsBackoff(Run(c, Init(start), events)) {
        var s := Run(c, Init(start), events);
        forall id: nat | CrashesOf(s, id) == 0 ensures Spaced(StartsOf(s, id)) {
          ReachedIsOk(c, start, events, id);
        }
      }
    } else {
      var x: Scene;
      if c.single {
        x := IgnoredSchedule(c, 0);
      } else {
        x := TwoBatches(c, 0);
      }
      var events := EventsOf(c, 0, x);
      assert StartsOf(Run(c, Init(0), events), 0) == [0, 0] && Pow2(1) == 2;
      assert !Spaced([0, 0]) by {
        assert [0, 0][1] < [0, 0][0] + INITIAL_RETRY_DELAY_MS * (Pow2(1) - 1);
      }
      assert !KeepsBackoff(Run(c, Init(0), events));
    }
  }

  /** The delivery a processor comes to next is due if it is PENDING. */
  ghost predicate NextIsDue(s: System)
    requires Sane(s)
  {
    forall w :: w in s.queues && s.queues[w] != [] ==>
      s.tables.deliveries[s.queues[w][0]].status == PENDING ==> Due(s.tables.deliveries[s.queues[w][0]], s.now)
  }

  /** In every run, whatever comes between the deliveries of a batch. */
  ghost predicate AlwaysNextIsDue(c: Config) {
    forall start, events :: NextIsDue(Run(c, Init(start), events))
  }

  /** That holds under exactly the condition that spaces the attempts. */
  lemma BatchesWaitTheirTurn(c: Config)
    ensures AlwaysNextIsDue(c) <==> c.single && c.scheduledOnly
  {
    if Paced(c) {
      forall start, events ensures NextIsDue(Run(c, Init(start), events)) {
        RunKeepsLease(c, Init(start), events);
        var s := Run(c, Init(start), events);
        hide Run, Lease, Due;
        forall w | w in s.queues && s.queues[w] != []
          ensures s.tables.deliveries[s.queues[w][0]].status == PENDING ==>
            Due(s.tables.deliveries[s.queues[w][0]], s.now)
        {
          NextStillWaits(c, s, w);
        }
      }
    } else {
      var x: Scene, w: int;
      if c.single {
        x := SelectedEarly(c, 0);
        w := 1;
      } else {
        x := SelectedTwice(c, 0);
        w := 2;
      }
      var events := EventsOf(c, 0, x);
      assert w in Run(c, Init(0), events).queues;
      assert !NextIsDue(Run(c, Init(0), events));
    }
  }
}
