/**
 What every run of the delivery protocol keeps of each single delivery: the shape of its row, its audit record, the
 accounting of its attempts and their spacing, each under the condition it needs.
 */
module WebhookLifeCycle {
  import opened Wrappers
  import opened DeliveryRetry
  import opened WebhookTables
  import opened WebhookProcessing
  import opened WebhookProtocol

  /** Claims are counted one by one, beyond five only by as many as crashed, and nothing is left unheld in
      PROCESSING except by a crash. */
  ghost predicate Accounted(s: System, id: nat)
    requires id < |s.tables.deliveries|
  {
    var d := s.tables.deliveries[id];
    && d.attemptCount == |StartsOf(s, id)| <= MAX_DELIVERY_ATTEMPTS + CrashesOf(s, id)
    && (!Terminal(d) && !Held(s.workers, id) ==> d.attemptCount < MAX_DELIVERY_ATTEMPTS + CrashesOf(s, id))
    && (d.status == PROCESSING && CrashesOf(s, id) == 0 ==> Held(s.workers, id))
  }

  /** Attempt k (counting from 0) starts at least 60000 * (2^k - 1) ms after the first. */
  ghost predicate Spaced(starts: seq<int>) {
    forall k :: 0 <= k < |starts| ==> starts[k] >= starts[0] + INITIAL_RETRY_DELAY_MS * (Pow2(k) - 1)
  }

  /** The attempts made are spaced, and a waiting delivery is not due before its delay has passed. */
  ghost predicate Backoff(s: System, id: nat)
    requires id < |s.tables.deliveries|
  {
    var d, starts := s.tables.deliveries[id], StartsOf(s, id);
    CrashesOf(s, id) == 0 ==>
      && Spaced(starts)
      && (starts != [] ==> starts[|starts| - 1] <= s.now)
      && (d.status == PENDING && starts != [] ==>
            d.nextAttemptAt.Some? && d.nextAttemptAt.value >= starts[|starts| - 1] + RetryDelay(|starts|))
  }

  /** What decides whether every claim is counted. */
  predicate CountsClaims(c: Config) {
    c.single || (!c.splitClaim && c.lateness < c.staleWindow)
  }

  /** What decides whether retries wait for their time. */
  predicate Paced(c: Config) {
    c.single && c.scheduledOnly
  }

  predicate WellFormed(d: Delivery) {
    && d.status != FAILED
    && (d.status == PENDING ==> d.attemptCount < MAX_DELIVERY_ATTEMPTS)
    && (d.nextAttemptAt != None ==> d.status == PENDING)
  }

  /** One record of abandonment for an ABANDONED delivery, none for any other. */
  predicate AuditedOnce(s: System, id: nat)
    requires id < |s.tables.deliveries|
  {
    Occurrences(s.tables.abandonAudits, id) == if s.tables.deliveries[id].status == ABANDONED then 1 else 0
  }

  ghost predicate RowOk(c: Config, s: System, id: nat)
    requires id < |s.tables.deliveries|
  {
    && WellFormed(s.tables.deliveries[id])
    && (Recorded(c) ==> AuditedOnce(s, id))
    && (CountsClaims(c) ==> Accounted(s, id))
    && (Paced(c) ==> Backoff(s, id))
  }

  ghost predicate Unused(s: System, id: nat) {
    Occurrences(s.tables.abandonAudits, id) == 0 && StartsOf(s, id) == [] && CrashesOf(s, id) == 0
  }

  ghost predicate SlotOk(c: Config, s: System, id: nat) {
    if id < |s.tables.deliveries| then RowOk(c, s, id) else Unused(s, id)
  }

  ghost predicate Ok(c: Config, s: System) {
    Sane(s) && Lease(c, s) && forall id: nat :: SlotOk(c, s, id)
  }

  /** Settled rows never move again. */
  ghost predicate Settles(s: System, s': System) {
    && |s.tables.deliveries| <= |s'.tables.deliveries|
    && (forall id :: 0 <= id < |s.tables.deliveries| && Terminal(s.tables.deliveries[id]) ==>
          s'.tables.deliveries[id] == s.tables.deliveries[id])
  }

  lemma HeldAfterRelease(s: System, w: int, id: nat)
    requires Exclusive(s)
    ensures Held(s.workers - {w}, id) <==>
            Held(s.workers, id) && !(w in s.workers && s.workers[w].InFlight? && id == s.workers[w].id)
  {
    if Held(s.workers, id) {
      var v :| v in s.workers && s.workers[v].InFlight? && s.workers[v].id == id;
      assert v != w ==> v in s.workers - {w};
    }
  }

  lemma HeldAfterTake(workers: map<int, Worker>, w: int, worker: Worker, id: nat)
    requires w !in workers || !workers[w].InFlight?
    ensures Held(workers[w := worker], id) <==> Held(workers, id) || (worker.InFlight? && worker.id == id)
  {
    if Held(workers, id) {
      var v :| v in workers && workers[v].InFlight? && workers[v].id == id;
      assert v in workers[w := worker];
    } else if worker.InFlight? && worker.id == id {
      assert w in workers[w := worker];
    }
  }

  // ---- one lemma per kind of step, for one slot ----

  /** A slot only depends on its row, its audit records, its history, whether it is held and the time. */
  lemma SameSlot(c: Config, s: System, s': System, j: nat)
    requires SlotOk(c, s, j) && s.now <= s'.now
    requires j < |s.tables.deliveries| <==> j < |s'.tables.deliveries|
    requires j < |s.tables.deliveries| ==> s'.tables.deliveries[j] == s.tables.deliveries[j]
    requires Occurrences(s'.tables.abandonAudits, j) == Occurrences(s.tables.abandonAudits, j)
    requires StartsOf(s', j) == StartsOf(s, j) && CrashesOf(s', j) == CrashesOf(s, j)
    requires Held(s'.workers, j) <==> Held(s.workers, j)
    ensures SlotOk(c, s', j)
  {
    hide Occurrences;
  }

  lemma EnvironmentKeepsSlot(c: Config, s: System, e: Event, id: nat)
    requires Sane(s) && SlotOk(c, s, id)
    ensures SlotOk(c, Environment(c, s, e), id)
  {
    if id < |s.tables.deliveries| {
      EnvironmentOnOldRow(c, s, e, id);
    } else {
      EnvironmentOnNewRow(c, s, e, id);
    }
  }

  /** Time passes, or (with `ms` zero) nothing happens. */
  lemma ElapseKeepsSlot(c: Config, s: System, ms: nat, id: nat)
    requires SlotOk(c, s, id)
    ensures SlotOk(c, s.(now := s.now + ms), id)
  {
  }

  /** Abandoning a row, which is its first abandonment if nobody interferes. */
  lemma AbandonKeepsSlot(c: Config, s: System, id: nat, j: nat)
    requires SlotOk(c, s, j) && id < |s.tables.deliveries|
    requires Recorded(c) ==> s.tables.deliveries[id].status != ABANDONED
    ensures SlotOk(c, s.(tables := MarkAbandoned(s.tables, id)), j)
  {
    OccurrencesAppend(s.tables.abandonAudits, id, j);
    hide Occurrences;
  }

  /** A worker that holds nothing comes or goes; lists of what is still to do do not matter. */
  lemma IdleWorkerKeepsSlot(c: Config, s: System, w: int, worker: Worker, queues: map<int, seq<nat>>, id: nat)
    requires Exclusive(s) && (w in s.workers ==> !s.workers[w].InFlight?) && !worker.InFlight?
    requires SlotOk(c, s, id)
    ensures SlotOk(c, Release(s, w).(queues := queues), id) && SlotOk(c, Take(s, w, worker).(queues := queues), id)
    ensures SlotOk(c, s.(queues := queues), id)
  {
    HeldAfterRelease(s, w, id);
    HeldAfterTake(s.workers, w, worker, id);
    hide SlotOk;
    SameSlot(c, s, Release(s, w).(queues := queues), id);
    SameSlot(c, s, Take(s, w, worker).(queues := queues), id);
    SameSlot(c, s, s.(queues := queues), id);
  }

  /** One more start after the due time keeps the spacing. */
  lemma SpacedAppend(starts: seq<int>, now: int)
    requires Spaced(starts) && |starts| < MAX_DELIVERY_ATTEMPTS
    requires starts != [] ==> now >= starts[|starts| - 1] + RetryDelay(|starts|)
    ensures Spaced(starts + [now])
  {
    if starts != [] {
      RetryDelayShape(|starts|, |starts|);
    }
  }

  /** A claim touches no other delivery, and none at all if it fails. */
  lemma ClaimLeavesOthers(s: System, w: int, id: nat, threshold: int, attemptCount: nat, j: nat)
    requires Exclusive(s) && (w in s.workers ==> s.workers[w].Reading?) && id < |s.tables.deliveries|
    requires j != id || !Claimable(s.tables.deliveries[id], threshold)
    ensures var s' := TryClaim(s, w, id, threshold, attemptCount);
      && s'.now == s.now && |s'.tables.deliveries| == |s.tables.deliveries|
      && (j < |s.tables.deliveries| ==> s'.tables.deliveries[j] == s.tables.deliveries[j])
      && s'.tables.abandonAudits == s.tables.abandonAudits
      && StartsOf(s', j) == StartsOf(s, j) && CrashesOf(s', j) == CrashesOf(s, j)
      && (Held(s'.workers, j) <==> Held(s.workers, j))
  {
    HeldAfterTake(s.workers, w, InFlight(id, attemptCount, s.now), j);
    HeldAfterRelease(s, w, j);
    hide Held, Exclusive;
  }

  lemma ClaimKeepsSlot(c: Config, s: System, w: int, id: nat, threshold: int, attemptCount: nat, j: nat)
    requires Safe(c) && Sane(s) && Lease(c, s) && SlotOk(c, s, j)
    requires w in s.queues && (w in s.workers ==> s.workers[w].Reading?)
    requires id < |s.tables.deliveries| && threshold <= s.now - c.staleWindow && attemptCount >= 1
    requires CountsClaims(c) ==> attemptCount == s.tables.deliveries[id].attemptCount + 1
    requires Paced(c) && s.tables.deliveries[id].status == PENDING ==> Due(s.tables.deliveries[id], s.now)
    ensures SlotOk(c, TryClaim(s, w, id, threshold, attemptCount), j)
  {
    hide SlotOk, Lease, Sane, Held, Occurrences, Due, TryClaim, Exclusive;
    HeldIsNotClaimable(c, s, w, id, threshold);
    LeaseIsExclusive(c, s);
    if j != id || !Claimable(s.tables.deliveries[id], threshold) {
      ClaimLeavesOthers(s, w, id, threshold, attemptCount, j);
      SameSlot(c, s, TryClaim(s, w, id, threshold, attemptCount), j);
    } else {
      HeldAfterTake(s.workers, w, InFlight(id, attemptCount, s.now), j);
      ClaimKeepsItsSlot(c, s, w, id, threshold, attemptCount);
    }
  }

  lemma ClaimKeepsItsSlot(c: Config, s: System, w: int, id: nat, threshold: int, attemptCount: nat)
    requires id < |s.tables.deliveries| && attemptCount >= 1 && SlotOk(c, s, id)
    requires Claimable(s.tables.deliveries[id], threshold) && !Held(s.workers, id)
    requires Held(s.workers[w := InFlight(id, attemptCount, s.now)], id)
    requires CountsClaims(c) ==> attemptCount == s.tables.deliveries[id].attemptCount + 1
    requires Paced(c) && s.tables.deliveries[id].status == PENDING ==> Due(s.tables.deliveries[id], s.now)
    ensures SlotOk(c, TryClaim(s, w, id, threshold, attemptCount), id)
  {
    hide Occurrences, Held;
    if Paced(c) && CrashesOf(s, id) == 0 {
      SpacedAppend(StartsOf(s, id), s.now);
    }
  }

  lemma ActKeepsSlot(c: Config, s: System, w: int, id: nat, threshold: int, j: nat)
    requires Safe(c) && Sane(s) && Lease(c, s) && SlotOk(c, s, j)
    requires w in s.queues && w !in s.workers && threshold <= s.now - c.staleWindow
    requires Paced(c) && id < |s.tables.deliveries| && s.tables.deliveries[id].status == PENDING ==>
               Due(s.tables.deliveries[id], s.now)
    ensures SlotOk(c, Act(c, s, w, id, threshold), j)
  {
    hide SlotOk, Lease, TryClaim;
    match Decide(s.tables, id, threshold) {
      case Skip =>
      case AbandonNow =>
        AbandonKeepsSlot(c, s, id, j);
        LeaseIsExclusive(c, s);
        IdleWorkerKeepsSlot(c, s, w, Abandoning(id), s.queues, j);
      case Proceed(attemptCount) =>
        LeaseIsExclusive(c, s);
        IdleWorkerKeepsSlot(c, s, w, Reading(id, attemptCount, threshold), s.queues, j);
        ClaimKeepsSlot(c, s, w, id, threshold, attemptCount, j);
    }
  }

  lemma LeaseIsExclusive(c: Config, s: System)
    requires Sane(s) && Lease(c, s)
    ensures Exclusive(s)
  {
    hide Alone;
  }

  /** The delivery a lone processor comes to next is still as it was selected. */
  lemma NextStillWaits(c: Config, s: System, w: int)
    requires Sane(s) && Lease(c, s) && c.single && w in s.queues
    ensures s.queues[w] != [] ==> StillWaits(c, s, s.queues[w][0])
    ensures w in s.workers && s.workers[w].Reading? ==>
      StillWaits(c, s, s.workers[w].id)
      && s.workers[w].attemptCount == s.tables.deliveries[s.workers[w].id].attemptCount + 1
    ensures w in s.workers && s.workers[w].Abandoning? ==> MayBeAbandoned(c, s.tables.deliveries[s.workers[w].id])
  {
    hide Core;
    OnlyProcessor(c, s, w);
  }

  lemma ReadKeepsSlot(c: Config, s: System, w: int, startedAt: int, j: nat)
    requires Safe(c) && Sane(s) && Lease(c, s) && SlotOk(c, s, j)
    ensures SlotOk(c, Read(c, s, w, startedAt), j)
  {
    hide SlotOk, Lease, Act;
    if MayRead(s, w, startedAt) {
      var s1 := Dequeue(s, w);
      DequeueKeepsLease(c, s, w);
      LeaseIsExclusive(c, s);
      IdleWorkerKeepsSlot(c, s, w, Abandoning(0), s1.queues, j);
      if c.single {
        NextStillWaits(c, s, w);
      }
      ActKeepsSlot(c, s1, w, s.queues[w][0], startedAt - c.staleWindow, j);
    }
  }

  lemma WriteClaimKeepsSlot(c: Config, s: System, w: int, j: nat)
    requires Safe(c) && Sane(s) && Lease(c, s) && SlotOk(c, s, j) && w in s.workers && s.workers[w].Reading?
    ensures SlotOk(c, TryClaim(s, w, s.workers[w].id, s.workers[w].threshold, s.workers[w].attemptCount), j)
  {
    ReadingIsStale(c, s, w);
    if c.single {
      NextStillWaits(c, s, w);
    }
    hide SlotOk, Lease, TryClaim;
    ClaimKeepsSlot(c, s, w, s.workers[w].id, s.workers[w].threshold, s.workers[w].attemptCount, j);
  }

  lemma WriteAbandonKeepsSlot(c: Config, s: System, w: int, j: nat)
    requires Sane(s) && Lease(c, s) && SlotOk(c, s, j) && w in s.workers && s.workers[w].Abandoning?
    ensures SlotOk(c, Release(s, w).(tables := MarkAbandoned(s.tables, s.workers[w].id)), j)
  {
    assert c.splitAbandon by {
      hide Alone;
    }
    if c.single {
      NextStillWaits(c, s, w);
    }
    LeaseIsExclusive(c, s);
    hide SlotOk, Lease, MarkAbandoned;
    IdleWorkerKeepsSlot(c, s, w, Abandoning(0), s.queues, j);
    AbandonKeepsSlot(c, Release(s, w), s.workers[w].id, j);
  }

  /** The end of an attempt touches no other delivery. */
  lemma EndLeavesOthers(s: System, w: int, ending: Ending, j: nat)
    requires Sane(s) && Exclusive(s) && w in s.workers && s.workers[w].InFlight? && j != s.workers[w].id
    ensures var s' := End(s, w, ending);
      && s'.now == s.now && |s'.tables.deliveries| == |s.tables.deliveries|
      && (j < |s.tables.deliveries| ==> s'.tables.deliveries[j] == s.tables.deliveries[j])
      && Occurrences(s'.tables.abandonAudits, j) == Occurrences(s.tables.abandonAudits, j)
      && StartsOf(s', j) == StartsOf(s, j) && CrashesOf(s', j) == CrashesOf(s, j)
      && (Held(s'.workers, j) <==> Held(s.workers, j))
  {
    HeldAfterRelease(s, w, j);
    OccurrencesAppend(s.tables.abandonAudits, s.workers[w].id, j);
    hide Held, Occurrences, Exclusive;
  }

  lemma EndKeepsOtherSlot(c: Config, s: System, w: int, ending: Ending, j: nat)
    requires Sane(s) && Exclusive(s) && SlotOk(c, s, j)
    requires w in s.workers && s.workers[w].InFlight? && j != s.workers[w].id
    ensures SlotOk(c, End(s, w, ending), j)
  {
    EndLeavesOthers(s, w, ending, j);
    hide SlotOk, End, Exclusive, Held, Occurrences;
    SameSlot(c, s, End(s, w, ending), j);
  }

  lemma FailureKeepsItsSlot(c: Config, s: System, w: int)
    requires Sane(s) && Core(c, s)
    requires w in s.workers && s.workers[w].InFlight? && SlotOk(c, s, s.workers[w].id)
    ensures SlotOk(c, End(s, w, NotDelivered), s.workers[w].id)
  {
    HeldAfterRelease(s, w, s.workers[w].id);
    OccurrencesAppend(s.tables.abandonAudits, s.workers[w].id, s.workers[w].id);
    hide Occurrences;
  }

  lemma SuccessOrCrashKeepsItsSlot(c: Config, s: System, w: int, ending: Ending)
    requires Sane(s) && Core(c, s) && ending != NotDelivered
    requires w in s.workers && s.workers[w].InFlight? && SlotOk(c, s, s.workers[w].id)
    ensures SlotOk(c, End(s, w, ending), s.workers[w].id)
  {
    HeldAfterRelease(s, w, s.workers[w].id);
    hide Occurrences;
  }

  lemma EndKeepsSlot(c: Config, s: System, w: int, ending: Ending, j: nat)
    requires Sane(s) && Lease(c, s) && SlotOk(c, s, j)
    requires w in s.workers && s.workers[w].InFlight?
    ensures SlotOk(c, End(s, w, ending), j)
  {
    hide SlotOk, Alone, Core, End;
    LeaseIsExclusive(c, s);
    if j == s.workers[w].id && ending == NotDelivered {
      FailureKeepsItsSlot(c, s, w);
    } else if j == s.workers[w].id {
      SuccessOrCrashKeepsItsSlot(c, s, w, ending);
    } else {
      EndKeepsOtherSlot(c, s, w, ending, j);
    }
  }

  /** A processor comes with its list, or goes. */
  lemma ComingAndGoingKeepsSlot(c: Config, s: System, e: Event, id: nat)
    requires Sane(s) && Exclusive(s) && SlotOk(c, s, id) && (e.SelectBatch? || e.Leave?)
    ensures SlotOk(c, Step(c, s, e), id)
  {
    hide SlotOk, IsBatch;
    match e {
      case SelectBatch(w, _, _, _, batch) =>
        if w !in s.queues {
          IdleWorkerKeepsSlot(c, s, w, Abandoning(0), s.queues[w := batch], id);
        }
      case Leave(w) =>
        if w !in s.workers || !s.workers[w].InFlight? {
          IdleWorkerKeepsSlot(c, s, w, Abandoning(0), s.queues - {w}, id);
        }
    }
  }

  lemma StepKeepsSlot(c: Config, s: System, e: Event, id: nat)
    requires Safe(c) && Sane(s) && Lease(c, s) && SlotOk(c, s, id)
    ensures SlotOk(c, Step(c, s, e), id)
  {
    LeaseIsExclusive(c, s);
    hide SlotOk, Lease, Exclusive, MaySelect, MayElapse, TryClaim, Read, End, Environment, MarkAbandoned, Quit;
    match e {
      case Elapse(ms) => ElapseKeepsSlot(c, s, ms, id);
      case SelectBatch(_, _, _, _, _) => ComingAndGoingKeepsSlot(c, s, e, id);
      case Leave(_) => ComingAndGoingKeepsSlot(c, s, e, id);
      case ReadRow(w, startedAt) => ReadKeepsSlot(c, s, w, startedAt, id);
      case WriteClaim(w) =>
        if w in s.workers && s.workers[w].Reading? {
          WriteClaimKeepsSlot(c, s, w, id);
        }
      case WriteAbandon(w) =>
        if w in s.workers && s.workers[w].Abandoning? {
          WriteAbandonKeepsSlot(c, s, w, id);
        }
      case Finish(w, ending) =>
        if w in s.workers && s.workers[w].InFlight? {
          EndKeepsSlot(c, s, w, ending, id);
        }
      case _ => EnvironmentKeepsSlot(c, s, e, id);
    }
  }
}
