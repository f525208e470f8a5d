/**
 What each call of the approval workflow demands and does, in the columns of its tables and in the fields of its input.
 The sentences here use none of the predicates the workflow is specified with.
 */
module ApprovalMeaning {
  import opened Wrappers
  import opened Normalization
  import opened ProductionApproval

  // ---- who may act ----

  /** The actor is an owner or administrator of its partner, signed in to the dashboard, with an account in use. */
  predicate IsManager(users: seq<User>, actor: Actor) {
    && actor.isDashboardUser && actor.userId.Some? && actor.userId.value < |users|
    && var user := users[actor.userId.value];
    && user.partnerId == actor.partnerId && (user.role == OWNER || user.role == ADMIN)
    && user.active && user.disabledAt == None
  }

  lemma AccessMeans(users: seq<User>, actor: Actor)
    ensures HasAccess(users, actor) <==> IsManager(users, actor)
  {
  }

  /** A login is accepted only as what it says, unrevoked, unexpired, and for an active partner. */
  lemma LoginMeans(t: Tables, login: Login, now: int)
    ensures var actor := Authenticate(t, login, now);
      match login
      case DashboardSession(userId, revokedAt, expiresAt) =>
        && (actor.Some? <==>
              && revokedAt == None && now < expiresAt && userId < |t.users|
              && t.users[userId].active && t.users[userId].disabledAt == None
              && t.users[userId].partnerId < |t.partners| && t.partners[t.users[userId].partnerId].status == ACTIVE)
        && (actor.Some? ==> actor == Some(Actor(true, Some(userId), t.users[userId].partnerId)))
      case ApiCredential(partnerId, active, revokedAt) =>
        && (actor.Some? <==>
              active && revokedAt == None && partnerId < |t.partners| && t.partners[partnerId].status == ACTIVE)
        && (actor.Some? ==> actor == Some(Actor(false, None, partnerId)))
  {
  }

  // ---- onboarding ----

  /** The steps in the order they are recommended: whether the partner still has to take one. */
  function Missing(p: Partner, counts: Counts): seq<(bool, Action)> {
    var contributes := p.dataPartner || p.fullAttestation;
    [(p.apiConsumer && counts.credentials == 0, CreateApiKey),
     (contributes && counts.signingKeys == 0, RegisterSigningKey),
     (p.webhooks && counts.webhooks == 0, ConfigureWebhook),
     (p.apiConsumer && counts.resolutionRequests == 0, RunSandboxRequest),
     (contributes && counts.recipients == 0, MapRecipientData),
     (contributes && counts.verifiedAttestations == 0, IngestAttestationData),
     (!p.production, RequestProductionApproval)]
  }

  /** What is recommended next is to wait for a review under way, or else the first missing step. */
  lemma NextActionMeans(p: Partner, counts: Counts, latest: Option<RequestStatus>)
    ensures var next, steps := ResolveNextRecommendedAction(p, counts, latest), Missing(p, counts);
      && (next == Some(AwaitProductionReview) <==> latest == Some(PENDING))
      && (latest != Some(PENDING) ==>
            && (next == None <==> forall i :: 0 <= i < |steps| ==> !steps[i].0)
            && (next.Some? ==>
                  exists i :: 0 <= i < |steps| && steps[i] == (true, next.value) && forall j :: 0 <= j < i ==> !steps[j].0))
  {
    var steps, next := Missing(p, counts), ResolveNextRecommendedAction(p, counts, latest);
    assert |steps| == 7;
    if latest != Some(PENDING) && next.Some? {
      var i := match next.value
        case CreateApiKey => 0
        case RegisterSigningKey => 1
        case ConfigureWebhook => 2
        case RunSandboxRequest => 3
        case MapRecipientData => 4
        case IngestAttestationData => 5
        case _ => 6;
      assert steps[i] == (true, next.value);
    }
    assert next == None ==> forall i :: 0 <= i < |steps| ==> !steps[i].0;
    assert latest != Some(PENDING) && (forall i :: 0 <= i < |steps| ==> !steps[i].0) ==> next == None by {
      assert steps[0].0 == (p.apiConsumer && counts.credentials == 0) && steps[6].0 == !p.production;
      assert steps[1].0 == ((p.dataPartner || p.fullAttestation) && counts.signingKeys == 0);
      assert steps[2].0 == (p.webhooks && counts.webhooks == 0);
      assert steps[3].0 == (p.apiConsumer && counts.resolutionRequests == 0);
      assert steps[4].0 == ((p.dataPartner || p.fullAttestation) && counts.recipients == 0);
      assert steps[5].0 == ((p.dataPartner || p.fullAttestation) && counts.verifiedAttestations == 0);
    }
  }

  /** What can stand in the way of a request, in the order it is told. */
  function Obstacles(actor: Actor, user: Option<User>, p: Partner, counts: Counts, latest: Option<RequestStatus>)
    : seq<(bool, BlockedReason)>
  {
    [(!actor.isDashboardUser || actor.userId == None, DashboardUserRequired),
     (user == None || (user.value.role != OWNER && user.value.role != ADMIN), InsufficientRole),
     (p.production, AlreadyProductionEnabled),
     (latest == Some(PENDING), PendingReview),
     ((p.dataPartner || p.fullAttestation) && p.feedHealth != HEALTHY, FeedHealthNotReady),
     (exists i :: 0 <= i < 6 && Missing(p, counts)[i].0, OnboardingIncomplete)]
  }

  /** The reason the dashboard gives is the first that stands in the way. */
  lemma BlockedReasonMeans(actor: Actor, user: Option<User>, p: Partner, counts: Counts, latest: Option<RequestStatus>)
    ensures var reason, obstacles := ResolveBlockedReason(actor, user, p, counts, latest),
                                     Obstacles(actor, user, p, counts, latest);
      && (reason == None <==> forall i :: 0 <= i < |obstacles| ==> !obstacles[i].0)
      && (reason.Some? ==>
            exists i :: 0 <= i < |obstacles| && obstacles[i] == (true, reason.value)
                        && forall j :: 0 <= j < i ==> !obstacles[j].0)
  {
    var reason, obstacles := ResolveBlockedReason(actor, user, p, counts, latest), Obstacles(actor, user, p, counts, latest);
    assert |obstacles| == 6;
    NextActionMeans(p, counts, latest);
    if latest != Some(PENDING) {
      OnboardingMeans(p, counts, latest);
    }
    hide ResolveNextRecommendedAction, Missing;
    if reason.Some? {
      var i := match reason.value
        case DashboardUserRequired => 0
        case InsufficientRole => 1
        case AlreadyProductionEnabled => 2
        case PendingReview => 3
        case FeedHealthNotReady => 4
        case OnboardingIncomplete => 5;
      assert obstacles[i] == (true, reason.value);
    } else {
      forall i | 0 <= i < |obstacles| ensures !obstacles[i].0 {
      }
    }
    if forall i :: 0 <= i < |obstacles| ==> !obstacles[i].0 {
      assert !obstacles[0].0 && !obstacles[1].0 && !obstacles[2].0 && !obstacles[3].0 && !obstacles[4].0 && !obstacles[5].0;
    }
  }

  /** Without a review under way, something is to be done first exactly if a step before the last is missing. */
  lemma OnboardingMeans(p: Partner, counts: Counts, latest: Option<RequestStatus>)
    requires latest != Some(PENDING)
    ensures var next := ResolveNextRecommendedAction(p, counts, latest);
      (exists i :: 0 <= i < 6 && Missing(p, counts)[i].0) <==> next != None && next != Some(RequestProductionApproval)
    ensures |Missing(p, counts)| == 7
  {
    var steps := Missing(p, counts);
    assert steps[0].0 == (p.apiConsumer && counts.credentials == 0) && steps[6].0 == !p.production;
    assert steps[1].0 == ((p.dataPartner || p.fullAttestation) && counts.signingKeys == 0);
    assert steps[2].0 == (p.webhooks && counts.webhooks == 0);
    assert steps[3].0 == (p.apiConsumer && counts.resolutionRequests == 0);
    assert steps[4].0 == ((p.dataPartner || p.fullAttestation) && counts.recipients == 0);
    assert steps[5].0 == ((p.dataPartner || p.fullAttestation) && counts.verifiedAttestations == 0);
  }

  // ---- requests ----

  /** A request that is accepted is one new pending row of the actor's partner for active networks, and changes nothing
      else; a refusal says what is wrong. */
  lemma RequestMeans(t: Tables, actor: Actor, counts: Counts, networks: set<nat>, active: set<nat>)
    ensures var r := RequestApproval(t, actor, counts, networks, active);
      && (r.Success? <==> RequestGuards(t, actor, counts).Success? && networks <= active)
      && (r.Success? ==> r.value == t.(requests := t.requests + [
            ApprovalRequest(actor.partnerId, PENDING, networks, {}, None)]))
      && (r == Failure(Forbidden) <==> !IsManager(t.users, actor))
      && (r == Failure(NotFound) <==> IsManager(t.users, actor) && actor.partnerId >= |t.partners|)
      && (r == Failure(Conflict) <==>
            && IsManager(t.users, actor) && actor.partnerId < |t.partners|
            && (t.partners[actor.partnerId].production || LatestOf(t, actor.partnerId) == Some(PENDING)))
  {
    AccessMeans(t.users, actor);
    hide HasAccess, IsManager, ResolveNextRecommendedAction, LatestOf;
  }

  /** A cancellation ends the partner's own pending request and changes nothing else. */
  lemma CancelMeans(t: Tables, actor: Actor, id: nat, now: int)
    ensures var r := CancelRequest(t, actor, id, now);
      && (r == Failure(Forbidden) <==> !IsManager(t.users, actor))
      && (r == Failure(NotFound) <==>
            IsManager(t.users, actor) && (id >= |t.requests| || t.requests[id].partnerId != actor.partnerId))
      && (r == Failure(Conflict) <==>
            IsManager(t.users, actor) && id < |t.requests| && t.requests[id].partnerId == actor.partnerId
            && t.requests[id].status != PENDING)
      && (r.Failure? ==> r.error != BadRequest)
      && (r.Success? ==>
            && r.value == t.(requests := r.value.requests) && |r.value.requests| == |t.requests|
            && (forall i :: 0 <= i < |t.requests| && i != id ==> r.value.requests[i] == t.requests[i])
            && var before, after := t.requests[id], r.value.requests[id];
            && after.status == CANCELLED && after.reviewedAt == Some(now) && after.partnerId == before.partnerId
            && after.requestedCorridors == before.requestedCorridors
            && after.approvedCorridors == before.approvedCorridors)
  {
    AccessMeans(t.users, actor);
    hide HasAccess, IsManager;
  }

  /** The corridors of the partner in the set are open as of now, and every other corridor is as it was. */
  ghost predicate Opens(before: map<CorridorKey, Corridor>, after: map<CorridorKey, Corridor>, partnerId: nat,
                  networks: set<nat>, now: int)
  {
    && (forall n: nat :: n in networks ==>
          CorridorKey(partnerId, n) in after && after[CorridorKey(partnerId, n)] == Corridor(GRANTED, now, None))
    && (forall key: CorridorKey :: !(key.partnerId == partnerId && key.assetNetworkId in networks) ==>
          (key in after <==> key in before) && (key in before ==> after[key] == before[key]))
  }

  /**
   A review settles a pending request. A rejection changes nothing else. An approval opens the corridors the reviewer
   names or, if none are named, those requested; it records them, and puts the partner into production.
   */
  lemma ReviewMeans(t: Tables, id: nat, approve: bool, override: set<nat>, active: set<nat>, now: int)
    ensures var r := ReviewRequest(t, id, approve, override, active, now);
      && (r.Success? <==>
            && id < |t.requests| && t.requests[id].status == PENDING && override <= active
            && (approve ==>
                  (override != {} || t.requests[id].requestedCorridors != {})
                  && t.requests[id].partnerId < |t.partners|))
      && (id >= |t.requests| ==> r == Failure(NotFound))
      && (r == Failure(Conflict) <==> id < |t.requests| && t.requests[id].status != PENDING)
      && (r.Failure? ==> r.error in {NotFound, Conflict, BadRequest})
      && (id < |t.requests| && t.requests[id].partnerId < |t.partners| && r.Failure? ==> r.error != NotFound)
      && (r.Success? ==>
            var t', before, after := r.value, t.requests[id], r.value.requests[id];
            && |t'.requests| == |t.requests| && |t'.partners| == |t.partners| && t'.users == t.users
            && (forall i :: 0 <= i < |t.requests| && i != id ==> t'.requests[i] == t.requests[i])
            && after.partnerId == before.partnerId && after.requestedCorridors == before.requestedCorridors
            && after.reviewedAt == Some(now) && after.status == (if approve then APPROVED else REJECTED)
            && (!approve ==> after.approvedCorridors == before.approvedCorridors && t'.partners == t.partners
                             && t'.corridors == t.corridors)
            && (approve && override != {} ==>
                  after.approvedCorridors == override
                  && Opens(t.corridors, t'.corridors, before.partnerId, override, now))
            && (approve && override == {} ==>
                  after.approvedCorridors == before.requestedCorridors
                  && Opens(t.corridors, t'.corridors, before.partnerId, before.requestedCorridors, now))
            && (approve ==>
                  && (forall k :: 0 <= k < |t.partners| && k != before.partnerId ==> t'.partners[k] == t.partners[k])
                  && t'.partners[before.partnerId] ==
                     t.partners[before.partnerId].(production := true, stage := PRODUCTION_APPROVED)))
  {
    if id < |t.requests| {
      GrantedOpens(t.corridors, t.requests[id].partnerId, override, now);
      GrantedOpens(t.corridors, t.requests[id].partnerId, t.requests[id].requestedCorridors, now);
    }
    hide Granted, Opens;
  }

  lemma GrantedOpens(corridors: map<CorridorKey, Corridor>, partnerId: nat, networks: set<nat>, now: int)
    ensures Opens(corridors, Granted(corridors, partnerId, networks, now), partnerId, networks, now)
  {
    forall key: CorridorKey | key.partnerId == partnerId && key.assetNetworkId in networks
      ensures key == CorridorKey(partnerId, key.assetNetworkId)
    {
    }
  }

  // ---- administration ----

  /** An edit replaces the columns it gives, of that partner only, and never touches its slug or production access; it is
      refused if the result would have full attestation without data, or a final stage that does not go with production. */
  lemma EditMeans(t: Tables, partnerId: nat, u: AdminUpdate)
    ensures var r := UpdateAdminState(t, partnerId, u);
      && (r == Failure(NotFound) <==> partnerId >= |t.partners|)
      && (r.Failure? ==> r.error in {NotFound, BadRequest})
      && (partnerId < |t.partners| ==>
            var p := t.partners[partnerId];
            var full := if u.fullAttestation.Some? then u.fullAttestation.value else p.fullAttestation;
            var data := if u.dataPartner.Some? then u.dataPartner.value else p.dataPartner;
            var stage := if u.stage.Some? then u.stage.value else p.stage;
            && (r.Success? <==>
                  && (full ==> data) && (p.production <==> stage == PRODUCTION_APPROVED)
                  && !(u.status == None && u.stage == None && u.feedHealth == None && u.pricingPlan == None
                       && u.apiConsumer == None && u.dataPartner == None && u.fullAttestation == None
                       && u.webhooks == None && u.batchVerification == None && u.auditExports == None
                       && u.sandbox == None))
            && (r.Success? ==>
                  && r.value == t.(partners := r.value.partners) && |r.value.partners| == |t.partners|
                  && (forall k :: 0 <= k < |t.partners| && k != partnerId ==> r.value.partners[k] == t.partners[k])
                  && var q := r.value.partners[partnerId];
                  && q.slug == p.slug && q.production == p.production
                  && q.fullAttestation == full && q.dataPartner == data && q.stage == stage
                  && q.status == (if u.status.Some? then u.status.value else p.status)
                  && q.feedHealth == (if u.feedHealth.Some? then u.feedHealth.value else p.feedHealth)
                  && q.pricingPlan == (if u.pricingPlan.Some? then u.pricingPlan.value else p.pricingPlan)
                  && q.apiConsumer == (if u.apiConsumer.Some? then u.apiConsumer.value else p.apiConsumer)
                  && q.webhooks == (if u.webhooks.Some? then u.webhooks.value else p.webhooks)
                  && q.batchVerification ==
                     (if u.batchVerification.Some? then u.batchVerification.value else p.batchVerification)
                  && q.auditExports == (if u.auditExports.Some? then u.auditExports.value else p.auditExports)
                  && q.sandbox == (if u.sandbox.Some? then u.sandbox.value else p.sandbox)))
  {
  }

  /** Opening or closing one corridor of a partner, on an active network; a closed one keeps the time it was opened. */
  lemma SetCorridorMeans(t: Tables, partnerId: nat, network: nat, enabled: bool, active: set<nat>, now: int)
    ensures var r, key := UpdateCorridor(t, partnerId, network, enabled, active, now), CorridorKey(partnerId, network);
      && (r.Success? <==> partnerId < |t.partners| && network in active && (enabled || key in t.corridors))
      && (r.Failure? ==> r == Failure(NotFound))
      && (r.Success? ==>
            && r.value == t.(corridors := r.value.corridors) && r.value.corridors.Keys == t.corridors.Keys + {key}
            && (forall k :: k in t.corridors && k != key ==> r.value.corridors[k] == t.corridors[k])
            && var corridor := r.value.corridors[key];
            if enabled then corridor.status == GRANTED && corridor.grantedAt == now && corridor.revokedAt == None
            else corridor.status == REVOKED && corridor.grantedAt == t.corridors[key].grantedAt
                 && corridor.revokedAt == Some(now))
  {
  }

  /** A partner is created under a free slug in normal form, active, with everything but production, data and full
      attestation, and nothing known of its feed. */
  lemma CreateMeans(t: Tables, slug: string, plan: PricingPlan)
    ensures var r := AddPartner(t, slug, plan);
      && (r == Failure(BadRequest) <==> NormalizePartnerSlug(slug).None?)
      && (r == Failure(Conflict) <==> NormalizePartnerSlug(slug).Some? && exists i ::
            0 <= i < |t.partners| && t.partners[i].slug == NormalizePartnerSlug(slug).value)
      && (r.Failure? ==> r.error in {BadRequest, Conflict})
      && (r.Success? ==>
            && |r.value.partners| == |t.partners| + 1 && r.value == t.(partners := r.value.partners)
            && r.value.partners[..|t.partners|] == t.partners
            && var p := r.value.partners[|t.partners|];
            && Some(p.slug) == NormalizePartnerSlug(slug) && p.pricingPlan == plan
            && p.status == ACTIVE && p.stage == ACCOUNT_CREATED && p.feedHealth == UNKNOWN
            && p.apiConsumer && p.webhooks && p.batchVerification && p.auditExports && p.sandbox
            && !p.production && !p.dataPartner && !p.fullAttestation)
  {
    hide NormalizePartnerSlug;
  }
}
