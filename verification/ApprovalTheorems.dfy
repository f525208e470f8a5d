/** What every run of the approval workflow keeps, and when the dashboard's prediction is right. */
module ApprovalTheorems {
  import opened Wrappers
  import opened Normalization
  import opened ProductionApproval
  import opened ApprovalMeaning

  // ---- runs ----

  /** One call of the service, successful or not, or any change to the table of users. */
  datatype Event =
    | CreatePartner(slug: string, plan: PricingPlan)
    | ChangeUsers(users: seq<User>)
    | Request(actor: Actor, counts: Counts, networks: set<nat>, active: set<nat>)
    | Cancel(actor: Actor, id: nat, now: int)
    | Review(id: nat, approve: bool, networks: set<nat>, active: set<nat>, now: int)
    | AdminEdit(partnerId: nat, edit: AdminUpdate)
    | SetCorridor(partnerId: nat, network: nat, enabled: bool, active: set<nat>, now: int)

  function Call(t: Tables, e: Event): Result<Tables, WorkflowError> {
    match e
    case CreatePartner(slug, plan) => AddPartner(t, slug, plan)
    case ChangeUsers(users) => Success(t.(users := users))
    case Request(actor, counts, networks, active) => RequestApproval(t, actor, counts, networks, active)
    case Cancel(actor, id, now) => CancelRequest(t, actor, id, now)
    case Review(id, approve, networks, active, now) => ReviewRequest(t, id, approve, networks, active, now)
    case AdminEdit(partnerId, edit) => UpdateAdminState(t, partnerId, edit)
    case SetCorridor(partnerId, network, enabled, active, now) =>
      UpdateCorridor(t, partnerId, network, enabled, active, now)
  }

  function Step(t: Tables, e: Event): Tables {
    match Call(t, e)
    case Success(t') => t'
    case Failure(_) => t
  }

  function Run(t: Tables, events: seq<Event>): Tables
    decreases |events|
  {
    if events == [] then t else Step(Run(t, events[..|events| - 1]), events[|events| - 1])
  }

  const EMPTY := Tables([], [], [], map[])

  // ---- the invariant ----

  /** `j` is a later request of the partner that made request `i`. */
  predicate Later(requests: seq<ApprovalRequest>, i: nat, j: nat) {
    i < j < |requests| && requests[i].partnerId == requests[j].partnerId
  }

  ghost predicate IsLatest(requests: seq<ApprovalRequest>, i: nat) {
    i < |requests| && forall j: nat :: !Later(requests, i, j)
  }

  predicate PartnerOk(p: Partner) {
    && (p.production <==> p.stage == PRODUCTION_APPROVED)
    && (p.fullAttestation ==> p.dataPartner)
  }

  predicate CorridorOk(corridor: Corridor) {
    corridor.status == GRANTED <==> corridor.revokedAt == None
  }

  /** A request that is not its partner's latest has been refused or withdrawn. */
  ghost predicate RequestOk(t: Tables, i: nat)
    requires i < |t.requests|
  {
    var r := t.requests[i];
    && r.partnerId < |t.partners|
    && (r.status == PENDING <==> r.reviewedAt == None)
    && (r.status == APPROVED <==> r.approvedCorridors != {})
    && (r.status == APPROVED ==> t.partners[r.partnerId].production)
    && (r.status == PENDING || r.status == APPROVED ==> IsLatest(t.requests, i))
  }

  predicate ApprovedBy(t: Tables, partnerId: nat, i: nat) {
    i < |t.requests| && t.requests[i].partnerId == partnerId && t.requests[i].status == APPROVED
  }

  ghost predicate PartnerRowsOk(t: Tables) {
    && (forall k: nat :: k < |t.partners| ==> PartnerOk(t.partners[k]))
    && (forall k: nat :: k < |t.partners| && t.partners[k].production ==> exists i: nat :: ApprovedBy(t, k, i))
  }

  ghost predicate RequestRowsOk(t: Tables) {
    forall i: nat :: i < |t.requests| ==> RequestOk(t, i)
  }

  predicate CorridorRowsOk(t: Tables) {
    forall key :: key in t.corridors ==> CorridorOk(t.corridors[key])
  }

  ghost predicate Consistent(t: Tables) {
    PartnerRowsOk(t) && RequestRowsOk(t) && CorridorRowsOk(t)
  }

  /** The request no later one follows is the one the latest-first query returns. */
  lemma {:induction false} LatestIsLast(requests: seq<ApprovalRequest>, i: nat, n: nat)
    requires IsLatest(requests, i) && i < n <= |requests|
    ensures Latest(requests, requests[i].partnerId, n) == Some(requests[i].status)
  {
    if i != n - 1 {
      assert !Later(requests, i, n - 1);
      LatestIsLast(requests, i, n - 1);
    }
  }

  lemma {:induction false} LatestIsARow(requests: seq<ApprovalRequest>, partnerId: nat, n: nat) returns (i: nat)
    requires n <= |requests| && Latest(requests, partnerId, n).Some?
    ensures i < n && requests[i].partnerId == partnerId
    ensures requests[i].status == Latest(requests, partnerId, n).value
  {
    i := n - 1;
    if requests[i].partnerId != partnerId {
      i := LatestIsARow(requests, partnerId, n - 1);
    }
  }

  /** Every request of the partner has been refused or withdrawn. */
  ghost predicate Free(t: Tables, partnerId: nat) {
    forall i: nat :: i < |t.requests| && t.requests[i].partnerId == partnerId ==>
      t.requests[i].status in {REJECTED, CANCELLED}
  }

  lemma GuardedIsFree(t: Tables, actor: Actor, counts: Counts)
    requires Consistent(t) && RequestGuards(t, actor, counts).Success?
    ensures actor.partnerId < |t.partners| && Free(t, actor.partnerId)
  {
    forall i: nat | i < |t.requests| && t.requests[i].partnerId == actor.partnerId
      ensures t.requests[i].status in {REJECTED, CANCELLED}
    {
      assert RequestOk(t, i);
      if t.requests[i].status == PENDING || t.requests[i].status == APPROVED {
        LatestIsLast(t.requests, i, |t.requests|);
      }
    }
  }

  /** A partner without a request in force makes one. */
  lemma NewRequestKeeps(t: Tables, r: ApprovalRequest)
    requires Consistent(t) && r.partnerId < |t.partners| && Free(t, r.partnerId)
    requires r.status == PENDING && r.reviewedAt == None && r.approvedCorridors == {}
    ensures Consistent(t.(requests := t.requests + [r]))
  {
    var t' := t.(requests := t.requests + [r]);
    forall i: nat | i < |t'.requests| ensures RequestOk(t', i) {
      if i < |t.requests| {
        assert RequestOk(t, i);
        assert forall j: nat :: Later(t'.requests, i, j) && j < |t.requests| ==> Later(t.requests, i, j);
      }
    }
    forall k: nat | k < |t'.partners| && t'.partners[k].production ensures exists i: nat :: ApprovedBy(t', k, i) {
      var i: nat :| ApprovedBy(t, k, i);
      assert ApprovedBy(t', k, i);
    }
  }

  lemma RequestKeeps(t: Tables, actor: Actor, counts: Counts, networks: set<nat>, active: set<nat>)
    requires Consistent(t) && RequestApproval(t, actor, counts, networks, active).Success?
    ensures Consistent(RequestApproval(t, actor, counts, networks, active).value)
  {
    GuardedIsFree(t, actor, counts);
    hide RequestGuards;
    NewRequestKeeps(t, ApprovalRequest(actor.partnerId, PENDING, networks, {}, None));
  }

  /** A pending request is settled: its row gets another status and a review time. */
  lemma SettleKeeps(t: Tables, id: nat, settled: ApprovalRequest, t': Tables)
    requires Consistent(t) && id < |t.requests| && t.requests[id].status == PENDING
    requires settled.partnerId == t.requests[id].partnerId && settled.reviewedAt.Some? && settled.status != PENDING
    requires settled.status == APPROVED <==> settled.approvedCorridors != {}
    requires t'.requests == t.requests[id := settled] && |t'.partners| == |t.partners|
    requires forall k: nat :: k < |t.partners| ==> PartnerOk(t'.partners[k])
    requires forall k: nat :: k < |t.partners| ==>
      t'.partners[k].production == (t.partners[k].production || (k == settled.partnerId && settled.status == APPROVED))
    ensures PartnerRowsOk(t') && RequestRowsOk(t')
  {
    assert RequestOk(t, id);
    forall i: nat | i < |t'.requests| ensures RequestOk(t', i) {
      assert RequestOk(t, i);
      assert forall j: nat :: Later(t'.requests, i, j) ==> Later(t.requests, i, j);
    }
    forall k: nat | k < |t'.partners| && t'.partners[k].production ensures exists i: nat :: ApprovedBy(t', k, i) {
      if t.partners[k].production {
        var i: nat :| ApprovedBy(t, k, i);
        assert i != id;
        assert ApprovedBy(t', k, i);
      } else {
        assert ApprovedBy(t', k, id);
      }
    }
  }

  lemma CancelKeeps(t: Tables, actor: Actor, id: nat, now: int)
    requires Consistent(t) && CancelRequest(t, actor, id, now).Success?
    ensures Consistent(CancelRequest(t, actor, id, now).value)
  {
    assert RequestOk(t, id);
    var settled := t.requests[id].(status := CANCELLED, reviewedAt := Some(now));
    SettleKeeps(t, id, settled, CancelRequest(t, actor, id, now).value);
  }

  lemma ReviewKeeps(t: Tables, id: nat, approve: bool, networks: set<nat>, active: set<nat>, now: int)
    requires Consistent(t) && ReviewRequest(t, id, approve, networks, active, now).Success?
    ensures Consistent(ReviewRequest(t, id, approve, networks, active, now).value)
  {
    var t' := ReviewRequest(t, id, approve, networks, active, now).value;
    assert RequestOk(t, id);
    SettleKeeps(t, id, t'.requests[id], t');
  }

  lemma PartnerEditKeeps(t: Tables, t': Tables)
    requires Consistent(t) && t' == t.(partners := t'.partners)
    requires |t.partners| <= |t'.partners|
    requires forall k: nat :: k < |t'.partners| ==>
      PartnerOk(t'.partners[k]) && t'.partners[k].production == (k < |t.partners| && t.partners[k].production)
    ensures Consistent(t')
  {
    forall i: nat | i < |t'.requests| ensures RequestOk(t', i) {
      assert RequestOk(t, i);
    }
    forall k: nat | k < |t'.partners| && t'.partners[k].production ensures exists i: nat :: ApprovedBy(t', k, i) {
      var i: nat :| ApprovedBy(t, k, i);
      assert ApprovedBy(t', k, i);
    }
  }

  lemma StepKeeps(t: Tables, e: Event)
    requires Consistent(t)
    ensures Consistent(Step(t, e))
  {
    if Call(t, e).Success? {
      match e
      case CreatePartner(_, _) => PartnerEditKeeps(t, Step(t, e));
      case ChangeUsers(users) =>
        forall i: nat | i < |t.requests| ensures RequestOk(t.(users := users), i) {
          assert RequestOk(t, i);
        }
        forall k: nat, i: nat | ApprovedBy(t, k, i) ensures ApprovedBy(t.(users := users), k, i) {}
        PartnerEditKeeps(t.(users := users), t.(users := users));
      case Request(actor, counts, networks, active) => RequestKeeps(t, actor, counts, networks, active);
      case Cancel(actor, id, now) => CancelKeeps(t, actor, id, now);
      case Review(id, approve, networks, active, now) => ReviewKeeps(t, id, approve, networks, active, now);
      case AdminEdit(partnerId, edit) => PartnerEditKeeps(t, Step(t, e));
      case SetCorridor(partnerId, network, enabled, active, now) =>
        forall i: nat | i < |t.requests| ensures RequestOk(Step(t, e), i) {
          assert RequestOk(t, i);
        }
        forall k: nat, i: nat | ApprovedBy(t, k, i) ensures ApprovedBy(Step(t, e), k, i) {}
    }
  }

  lemma {:induction false} RunKeeps(events: seq<Event>)
    ensures Consistent(Run(EMPTY, events))
    decreases |events|
  {
    if events != [] {
      RunKeeps(events[..|events| - 1]);
      StepKeeps(Run(EMPTY, events[..|events| - 1]), events[|events| - 1]);
    }
  }

  // ---- what every run keeps ----

  /**
   Production access, the final stage and an approved latest request are one and the same thing; a pending request is
   the only one of its partner and its latest; a corridor is open exactly while it has no revocation time.
   */
  ghost predicate InOrder(t: Tables) {
    && (forall k: nat :: k < |t.partners| ==>
          && (t.partners[k].production <==> t.partners[k].stage == PRODUCTION_APPROVED)
          && (t.partners[k].production <==> LatestOf(t, k) == Some(APPROVED))
          && (t.partners[k].fullAttestation ==> t.partners[k].dataPartner))
    && (forall i: nat, j: nat :: Later(t.requests, i, j) ==> t.requests[i].status in {REJECTED, CANCELLED})
    && (forall i: nat :: i < |t.requests| ==>
          && t.requests[i].partnerId < |t.partners|
          && (t.requests[i].status == PENDING <==> t.requests[i].reviewedAt == None)
          && (t.requests[i].status == APPROVED <==> t.requests[i].approvedCorridors != {}))
    && (forall key :: key in t.corridors ==>
          (t.corridors[key].status == GRANTED <==> t.corridors[key].revokedAt == None))
  }

  lemma ConsistentIsInOrder(t: Tables)
    requires Consistent(t)
    ensures InOrder(t)
  {
    forall k: nat | k < |t.partners| ensures t.partners[k].production <==> LatestOf(t, k) == Some(APPROVED) {
      if t.partners[k].production {
        var i: nat :| ApprovedBy(t, k, i);
        assert RequestOk(t, i);
        LatestIsLast(t.requests, i, |t.requests|);
      }
      if LatestOf(t, k) == Some(APPROVED) {
        var i := LatestIsARow(t.requests, k, |t.requests|);
        assert RequestOk(t, i);
      }
    }
    forall i: nat, j: nat | Later(t.requests, i, j) ensures t.requests[i].status in {REJECTED, CANCELLED} {
      assert RequestOk(t, i);
    }
    forall i: nat | i < |t.requests|
      ensures t.requests[i].partnerId < |t.partners|
      ensures t.requests[i].status == PENDING <==> t.requests[i].reviewedAt == None
      ensures t.requests[i].status == APPROVED <==> t.requests[i].approvedCorridors != {}
    {
      assert RequestOk(t, i);
    }
    forall key | key in t.corridors
      ensures t.corridors[key].status == GRANTED <==> t.corridors[key].revokedAt == None
    {
      assert CorridorOk(t.corridors[key]);
    }
  }

  /** In every state that undisturbed calls can reach, the workflow is in order. */
  lemma ApprovalWorkflow(events: seq<Event>)
    ensures InOrder(Run(EMPTY, events))
  {
    RunKeeps(events);
    ConsistentIsInOrder(Run(EMPTY, events));
  }

  // ---- slugs ----

  /** Slugs are stored in normal form, and no two partners share one. */
  predicate SlugsKept(partners: seq<Partner>) {
    && (forall i :: 0 <= i < |partners| ==> NormalizePartnerSlug(partners[i].slug) == Some(partners[i].slug))
    && (forall i, j :: 0 <= i < j < |partners| ==> partners[i].slug != partners[j].slug)
  }

  lemma StepKeepsSlugs(t: Tables, e: Event)
    requires SlugsKept(t.partners)
    ensures SlugsKept(Step(t, e).partners)
  {
    match e
    case CreatePartner(slug, _) =>
      if NormalizePartnerSlug(slug).Some? {
        SlugIsNormal(slug);
      }
      hide NormalizePartnerSlug;
    case ChangeUsers(_) =>
    case Request(_, _, _, _) =>
    case Cancel(_, _, _) =>
    case Review(_, _, _, _, _) => hide NormalizePartnerSlug;
    case AdminEdit(_, _) => hide NormalizePartnerSlug;
    case SetCorridor(_, _, _, _, _) =>
  }

  lemma {:induction false} RunKeepsSlugs(events: seq<Event>)
    ensures SlugsKept(Run(EMPTY, events).partners)
    decreases |events|
  {
    if events != [] {
      hide SlugsKept, Step;
      RunKeepsSlugs(events[..|events| - 1]);
      StepKeepsSlugs(Run(EMPTY, events[..|events| - 1]), events[|events| - 1]);
    } else {
      assert Run(EMPTY, events) == EMPTY;
    }
  }

  /** A settled request never changes again, and production access is never withdrawn. */
  lemma {:induction false} SettledForever(t: Tables, events: seq<Event>)
    ensures forall i: nat :: i < |t.requests| && t.requests[i].status != PENDING ==>
      i < |Run(t, events).requests| && Run(t, events).requests[i] == t.requests[i]
    ensures forall k: nat :: k < |t.partners| && t.partners[k].production ==>
      k < |Run(t, events).partners| && Run(t, events).partners[k].production
    decreases |events|
  {
    if events != [] {
      var before := events[..|events| - 1];
      SettledForever(t, before);
      StepKeepsSettled(Run(t, before), events[|events| - 1]);
    }
  }

  lemma StepKeepsSettled(t: Tables, e: Event)
    ensures forall i: nat :: i < |t.requests| && t.requests[i].status != PENDING ==>
      i < |Step(t, e).requests| && Step(t, e).requests[i] == t.requests[i]
    ensures forall k: nat :: k < |t.partners| && t.partners[k].production ==>
      k < |Step(t, e).partners| && Step(t, e).partners[k].production
  {
    match e
    case CreatePartner(_, _) =>
    case ChangeUsers(_) =>
    case Request(_, _, _, _) =>
    case Cancel(_, _, _) =>
    case Review(_, _, _, _, _) =>
    case AdminEdit(_, _) =>
    case SetCorridor(_, _, _, _, _) =>
  }

  /** Only an approval turns production on, and it opens the approved corridors of that partner and touches no other. */
  lemma OnlyApprovalEnables(t: Tables, e: Event, k: nat)
    requires k < |t.partners| && !t.partners[k].production && Step(t, e).partners[k].production
    ensures e.Review? && e.approve && e.id < |t.requests| && t.requests[e.id].partnerId == k
    ensures t.requests[e.id].status == PENDING && Step(t, e).requests[e.id].status == APPROVED
    ensures forall key :: key in Step(t, e).corridors <==>
      key in t.corridors || (key.partnerId == k && key.assetNetworkId in Step(t, e).requests[e.id].approvedCorridors)
    ensures forall key :: key in Step(t, e).corridors ==>
      Step(t, e).corridors[key] == (
        if key.partnerId == k && key.assetNetworkId in Step(t, e).requests[e.id].approvedCorridors
        then Corridor(GRANTED, e.now, None) else t.corridors[key])
  {
    assert Call(t, e).Success?;
    assert e.Review?;
    var t', approved := Step(t, e), Step(t, e).requests[e.id].approvedCorridors;
    forall key: CorridorKey | key.partnerId == k && key.assetNetworkId in approved
      ensures key in t'.corridors && t'.corridors[key] == Corridor(GRANTED, e.now, None)
    {
      assert key == CorridorKey(k, key.assetNetworkId);
    }
  }

  // ---- the dashboard and the endpoint ----

  /** Without regard to how the actor got in: the predictions agree with each other, and the endpoint also wants the
      account to be active. */
  lemma GateNeedsActiveAccount(t: Tables, actor: Actor, counts: Counts)
    requires actor.partnerId < |t.partners|
    ensures var p, user, latest := t.partners[actor.partnerId], FindUser(t.users, actor), LatestOf(t, actor.partnerId);
      && (CanRequest(actor, user, p, counts, latest) <==>
          ResolveBlockedReason(actor, user, p, counts, latest) == None)
      && (RequestGuards(t, actor, counts).Success? <==>
          CanRequest(actor, user, p, counts, latest) && AccountActive(user.value))
  {
    var p, user, latest := t.partners[actor.partnerId], FindUser(t.users, actor), LatestOf(t, actor.partnerId);
    var next := ResolveNextRecommendedAction(p, counts, latest);
    assert next == Some(AwaitProductionReview) <==> latest == Some(PENDING);
    assert HasAccess(t.users, actor) <==> ActorCanManage(actor, user) && AccountActive(user.value);
  }

  /** For everybody the login lets in, what the dashboard shows and what the endpoint accepts are one and the same. */
  lemma GateAgreement(t: Tables, login: Login, now: int, actor: Actor, counts: Counts)
    requires Authenticate(t, login, now) == Some(actor)
    ensures actor.partnerId < |t.partners|
    ensures var p, user, latest := t.partners[actor.partnerId], FindUser(t.users, actor), LatestOf(t, actor.partnerId);
      && (RequestGuards(t, actor, counts).Success? <==> CanRequest(actor, user, p, counts, latest))
      && (RequestGuards(t, actor, counts).Success? <==>
          ResolveBlockedReason(actor, user, p, counts, latest) == None)
  {
    GateNeedsActiveAccount(t, actor, counts);
    hide RequestGuards, CanRequest, ResolveBlockedReason;
  }

  /** Every onboarding step the partner's capabilities ask for has been taken. */
  predicate Onboarded(p: Partner, counts: Counts) {
    && (p.apiConsumer ==> counts.credentials > 0 && counts.resolutionRequests > 0)
    && (p.dataPartner || p.fullAttestation ==>
          counts.signingKeys > 0 && counts.recipients > 0 && counts.verifiedAttestations > 0)
    && (p.webhooks ==> counts.webhooks > 0)
  }

  /**
   In every reachable state a request passes the guards exactly when an active owner or admin of a partner that is
   onboarded, healthy if it contributes data, and neither approved nor under review makes it.
   */
  lemma RequestIsAccepted(events: seq<Event>, actor: Actor, counts: Counts, p: Partner)
    requires var t := Run(EMPTY, events); actor.partnerId < |t.partners| && p == t.partners[actor.partnerId]
    ensures var t := Run(EMPTY, events);
      RequestGuards(t, actor, counts).Success? <==>
        && IsManager(t.users, actor) && Onboarded(p, counts)
        && (p.dataPartner ==> p.feedHealth == HEALTHY)
        && (forall i: nat :: i < |t.requests| && t.requests[i].partnerId == actor.partnerId ==>
              t.requests[i].status in {REJECTED, CANCELLED})
  {
    var t, latest := Run(EMPTY, events), LatestOf(Run(EMPTY, events), actor.partnerId);
    RunKeeps(events);
    ApprovalWorkflow(events);
    AccessMeans(t.users, actor);
    hide Run;
    if latest.Some? {
      var i := LatestIsARow(t.requests, actor.partnerId, |t.requests|);
    }
    if i: nat :| i < |t.requests| && t.requests[i].partnerId == actor.partnerId
                 && t.requests[i].status !in {REJECTED, CANCELLED} {
      assert RequestOk(t, i);
      LatestIsLast(t.requests, i, |t.requests|);
    }
    hide Consistent, Latest;
  }

  /** A request that is pending was pending all along, as it was made. */
  lemma {:induction false} PendingIsAsMade(t: Tables, events: seq<Event>, i: nat)
    requires i < |t.requests|
    ensures i < |Run(t, events).requests| && |Run(t, events).partners| >= |t.partners|
    ensures Run(t, events).requests[i].status == PENDING ==> Run(t, events).requests[i] == t.requests[i]
    decreases |events|
  {
    if events != [] {
      var before := events[..|events| - 1];
      PendingIsAsMade(t, before, i);
      StepKeepsPending(Run(t, before), events[|events| - 1], i);
    }
  }

  lemma StepKeepsPending(t: Tables, e: Event, i: nat)
    requires i < |t.requests|
    ensures i < |Step(t, e).requests| && |Step(t, e).partners| >= |t.partners|
    ensures Step(t, e).requests[i].status == PENDING ==> Step(t, e).requests[i] == t.requests[i]
  {
    hide NormalizePartnerSlug;
    match e
    case CreatePartner(_, _) =>
    case ChangeUsers(_) =>
    case Request(_, _, _, _) =>
    case Cancel(_, _, _) =>
    case Review(_, _, _, _, _) =>
    case AdminEdit(_, _) =>
    case SetCorridor(_, _, _, _, _) =>
  }

  /**
   Approving a request opens exactly the corridors the reviewer names or, if none are named, exactly those it asked for
   when it was made, whatever happened in between.
   */
  lemma RequestedCorridorsAreOpened(t: Tables, actor: Actor, counts: Counts, networks: set<nat>, active: set<nat>,
                                    asked: Tables, between: seq<Event>, override: set<nat>, later: set<nat>, now: int)
    requires RequestApproval(t, actor, counts, networks, active) == Success(asked)
    requires PendingIsStill(Run(asked, between), |t.requests|)
    requires override <= later && (networks != {} || override != {})
    ensures var before := Run(asked, between);
      var reviewed := ReviewRequest(before, |t.requests|, true, override, later, now);
      var granted := if override != {} then override else networks;
      && reviewed.Success? && actor.partnerId < |reviewed.value.partners|
      && reviewed.value.partners[actor.partnerId].production
      && reviewed.value.requests[|t.requests|].approvedCorridors == granted
      && (forall n: nat :: n in granted ==>
            && CorridorKey(actor.partnerId, n) in reviewed.value.corridors
            && reviewed.value.corridors[CorridorKey(actor.partnerId, n)] == Corridor(GRANTED, now, None))
      && (forall key :: key in before.corridors && !(key.partnerId == actor.partnerId && key.assetNetworkId in granted) ==>
            key in reviewed.value.corridors && reviewed.value.corridors[key] == before.corridors[key])
  {
    PendingIsAsMade(asked, between, |t.requests|);
    assert asked.requests[|t.requests|].requestedCorridors == networks;
    hide Run;
    ReviewMeans(Run(asked, between), |t.requests|, true, override, later, now);
    hide ReviewRequest;
  }

  predicate PendingIsStill(t: Tables, i: nat) {
    i < |t.requests| && t.requests[i].status == PENDING
  }

  /** The dashboard offers an actor it let in to cancel exactly when the actor can cancel some request. */
  lemma CancelAgreement(events: seq<Event>, login: Login, signedInAt: int, actor: Actor, now: int)
    requires Authenticate(Run(EMPTY, events), login, signedInAt) == Some(actor)
    ensures var t := Run(EMPTY, events);
      (exists id: nat :: CancelRequest(t, actor, id, now).Success?) <==>
      CanCancel(actor, FindUser(t.users, actor), LatestOf(t, actor.partnerId))
  {
    var t := Run(EMPTY, events);
    var user := FindUser(t.users, actor);
    RunKeeps(events);
    hide Run;
    if id: nat :| CancelRequest(t, actor, id, now).Success? {
      assert RequestOk(t, id);
      LatestIsLast(t.requests, id, |t.requests|);
    }
    if CanCancel(actor, user, LatestOf(t, actor.partnerId)) {
      var id := LatestIsARow(t.requests, actor.partnerId, |t.requests|);
      assert CancelRequest(t, actor, id, now).Success?;
    }
  }
}
