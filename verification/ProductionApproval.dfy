/**
 The production-approval workflow (backend/src/partners/partners.service.ts): partners ask, cancel, are reviewed and
 are edited by administrators; a dashboard summary predicts what the request endpoint will accept. Checks and
 writes of one operation are one step, and requests are listed in the order they were made.
 */
module ProductionApproval {
  import opened Wrappers
  import opened Normalization

  datatype Stage =
    | ACCOUNT_CREATED | API_ACCESS_READY | TRUST_SETUP_READY | DATA_MAPPING_IN_PROGRESS
    | BOOTSTRAP_IMPORT_COMPLETED | LIVE_FEED_CONNECTED | PRODUCTION_APPROVED

  datatype FeedHealth = UNKNOWN | HEALTHY | DEGRADED | DISCONNECTED

  datatype PartnerStatus = ACTIVE | SUSPENDED | DISABLED

  datatype PricingPlan = STARTER | GROWTH | SCALE | ENTERPRISE

  datatype Partner = Partner(
    slug: string, status: PartnerStatus, stage: Stage, feedHealth: FeedHealth, pricingPlan: PricingPlan,
    apiConsumer: bool, dataPartner: bool, fullAttestation: bool, webhooks: bool, batchVerification: bool,
    auditExports: bool, sandbox: bool, production: bool)

  datatype RequestStatus = PENDING | APPROVED | REJECTED | CANCELLED

  datatype ApprovalRequest = ApprovalRequest(
    partnerId: nat, status: RequestStatus, requestedCorridors: set<nat>, approvedCorridors: set<nat>,
    reviewedAt: Option<int>)

  datatype CorridorStatus = GRANTED | REVOKED

  datatype CorridorKey = CorridorKey(partnerId: nat, assetNetworkId: nat)

  datatype Corridor = Corridor(status: CorridorStatus, grantedAt: int, revokedAt: Option<int>)

  datatype Role = OWNER | ADMIN | DEVELOPER | ANALYST | READ_ONLY

  datatype User = User(partnerId: nat, role: Role, active: bool, disabledAt: Option<int>)

  datatype Actor = Actor(isDashboardUser: bool, userId: Option<nat>, partnerId: nat)

  /** What a caller signs in with: a dashboard session, or a credential of the partner. */
  datatype Login =
    | DashboardSession(userId: nat, revokedAt: Option<int>, expiresAt: int)
    | ApiCredential(partnerId: nat, active: bool, revokedAt: Option<int>)

  datatype Counts = Counts(
    credentials: nat, signingKeys: nat, webhooks: nat, recipients: nat, verifiedAttestations: nat,
    resolutionRequests: nat)

  datatype Tables = Tables(
    partners: seq<Partner>, users: seq<User>, requests: seq<ApprovalRequest>, corridors: map<CorridorKey, Corridor>)

  datatype WorkflowError = Forbidden | NotFound | Conflict | BadRequest

  // ---- onboarding and the dashboard ----

  datatype Action =
    | AwaitProductionReview | CreateApiKey | RegisterSigningKey | ConfigureWebhook | RunSandboxRequest
    | MapRecipientData | IngestAttestationData | RequestProductionApproval

  predicate Contributes(p: Partner) {
    p.dataPartner || p.fullAttestation
  }

  function ResolveNextRecommendedAction(p: Partner, counts: Counts, latest: Option<RequestStatus>): Option<Action> {
    if latest == Some(PENDING) then Some(AwaitProductionReview)
    else if p.apiConsumer && counts.credentials == 0 then Some(CreateApiKey)
    else if Contributes(p) && counts.signingKeys == 0 then Some(RegisterSigningKey)
    else if p.webhooks && counts.webhooks == 0 then Some(ConfigureWebhook)
    else if p.apiConsumer && counts.resolutionRequests == 0 then Some(RunSandboxRequest)
    else if Contributes(p) && counts.recipients == 0 then Some(MapRecipientData)
    else if Contributes(p) && counts.verifiedAttestations == 0 then Some(IngestAttestationData)
    else if !p.production then Some(RequestProductionApproval)
    else None
  }

  /** The user row of the actor, whatever its status. */
  function FindUser(users: seq<User>, actor: Actor): Option<User> {
    if actor.userId.Some? && actor.userId.value < |users| && users[actor.userId.value].partnerId == actor.partnerId
    then Some(users[actor.userId.value]) else None
  }

  predicate Manages(role: Role) {
    role == OWNER || role == ADMIN
  }

  predicate ActorCanManage(actor: Actor, user: Option<User>) {
    actor.isDashboardUser && actor.userId.Some? && user.Some? && Manages(user.value.role)
  }

  predicate CanRequest(actor: Actor, user: Option<User>, p: Partner, counts: Counts, latest: Option<RequestStatus>) {
    var next := ResolveNextRecommendedAction(p, counts, latest);
    && ActorCanManage(actor, user)
    && !p.production
    && latest != Some(PENDING)
    && (next == Some(RequestProductionApproval) || next == None)
    && (if !p.dataPartner && !p.fullAttestation then true else p.feedHealth == HEALTHY)
  }

  predicate CanCancel(actor: Actor, user: Option<User>, latest: Option<RequestStatus>) {
    ActorCanManage(actor, user) && latest == Some(PENDING)
  }

  datatype BlockedReason =
    | DashboardUserRequired | InsufficientRole | AlreadyProductionEnabled | PendingReview | FeedHealthNotReady
    | OnboardingIncomplete

  function ResolveBlockedReason(actor: Actor, user: Option<User>, p: Partner, counts: Counts,
                                latest: Option<RequestStatus>): Option<BlockedReason>
  {
    var next := ResolveNextRecommendedAction(p, counts, latest);
    if !(actor.isDashboardUser && actor.userId.Some?) then Some(DashboardUserRequired)
    else if !ActorCanManage(actor, user) then Some(InsufficientRole)
    else if p.production then Some(AlreadyProductionEnabled)
    else if latest == Some(PENDING) then Some(PendingReview)
    else if (p.dataPartner || p.fullAttestation) && p.feedHealth != HEALTHY then Some(FeedHealthNotReady)
    else if next != None && next != Some(RequestProductionApproval) && next != Some(AwaitProductionReview)
    then Some(OnboardingIncomplete)
    else None
  }

  // ---- signing in ----

  predicate PartnerIsActive(t: Tables, partnerId: nat) {
    partnerId < |t.partners| && t.partners[partnerId].status == ACTIVE
  }

  /** The actor a login stands for, if it is accepted now. */
  function Authenticate(t: Tables, login: Login, now: int): Option<Actor> {
    match login
    case DashboardSession(userId, revokedAt, expiresAt) =>
      if revokedAt.Some? || expiresAt <= now || userId >= |t.users| || !AccountActive(t.users[userId])
         || !PartnerIsActive(t, t.users[userId].partnerId)
      then None else Some(Actor(true, Some(userId), t.users[userId].partnerId))
    case ApiCredential(partnerId, active, revokedAt) =>
      if !active || revokedAt.Some? || !PartnerIsActive(t, partnerId) then None
      else Some(Actor(false, None, partnerId))
  }

  // ---- the operations ----

  predicate AccountActive(user: User) {
    user.active && user.disabledAt == None
  }

  predicate HasAccess(users: seq<User>, actor: Actor) {
    var user := FindUser(users, actor);
    actor.isDashboardUser && actor.userId.Some? && user.Some? && AccountActive(user.value) && Manages(user.value.role)
  }

  /** The partner's last request among the first `n`. */
  function Latest(requests: seq<ApprovalRequest>, partnerId: nat, n: nat): (r: Option<RequestStatus>)
    requires n <= |requests|
  {
    if n == 0 then None
    else if requests[n - 1].partnerId == partnerId then Some(requests[n - 1].status)
    else Latest(requests, partnerId, n - 1)
  }

  function LatestOf(t: Tables, partnerId: nat): Option<RequestStatus> {
    Latest(t.requests, partnerId, |t.requests|)
  }

  /** Every actor and state guard of requestProductionApproval, in its order. */
  function RequestGuards(t: Tables, actor: Actor, counts: Counts): Result<Partner, WorkflowError> {
    if !HasAccess(t.users, actor) then Failure(Forbidden)
    else if actor.partnerId >= |t.partners| then Failure(NotFound)
    else
      var p, latest := t.partners[actor.partnerId], LatestOf(t, actor.partnerId);
      var next := ResolveNextRecommendedAction(p, counts, latest);
      if p.production then Failure(Conflict)
      else if latest == Some(PENDING) then Failure(Conflict)
      else if next != None && next != Some(RequestProductionApproval) && next != Some(AwaitProductionReview)
      then Failure(BadRequest)
      else if Contributes(p) && p.feedHealth != HEALTHY then Failure(BadRequest)
      else Success(p)
  }

  function RequestApproval(t: Tables, actor: Actor, counts: Counts, corridors: set<nat>, activeNetworks: set<nat>)
    : Result<Tables, WorkflowError>
  {
    match RequestGuards(t, actor, counts)
    case Failure(error) => Failure(error)
    case Success(_) =>
      if !(corridors <= activeNetworks) then Failure(BadRequest)
      else Success(t.(requests := t.requests + [ApprovalRequest(actor.partnerId, PENDING, corridors, {}, None)]))
  }

  function CancelRequest(t: Tables, actor: Actor, requestId: nat, now: int): Result<Tables, WorkflowError> {
    if !HasAccess(t.users, actor) then Failure(Forbidden)
    else if requestId >= |t.requests| || t.requests[requestId].partnerId != actor.partnerId then Failure(NotFound)
    else if t.requests[requestId].status != PENDING then Failure(Conflict)
    else
      Success(t.(requests := t.requests[requestId := t.requests[requestId].(status := CANCELLED, reviewedAt := Some(now))]))
  }

  /** The corridors after these networks are granted to the partner. */
  function Granted(corridors: map<CorridorKey, Corridor>, partnerId: nat, networks: set<nat>, now: int)
    : map<CorridorKey, Corridor>
  {
    corridors + map network | network in networks :: CorridorKey(partnerId, network) := Corridor(GRANTED, now, None)
  }

  lemma GrantOne(corridors: map<CorridorKey, Corridor>, partnerId: nat, networks: set<nat>, network: nat, now: int)
    ensures Granted(corridors, partnerId, networks + {network}, now)
            == Granted(corridors, partnerId, networks, now)[CorridorKey(partnerId, network) := Corridor(GRANTED, now, None)]
  {
  }

  /** `override` lists the corridors the decision names; if there are none, the requested ones are meant. */
  function ReviewRequest(t: Tables, requestId: nat, approve: bool, override: set<nat>, activeNetworks: set<nat>, now: int)
    : Result<Tables, WorkflowError>
  {
    if requestId >= |t.requests| then Failure(NotFound)
    else
      var r := t.requests[requestId];
      var approved := if override != {} then override else r.requestedCorridors;
      if r.status != PENDING then Failure(Conflict)
      else if !(override <= activeNetworks) then Failure(BadRequest)
      else if approve && approved == {} then Failure(BadRequest)
      else if !approve then
        Success(t.(requests := t.requests[requestId := r.(status := REJECTED, reviewedAt := Some(now))]))
      else if r.partnerId >= |t.partners| then Failure(NotFound)
      else
        var p := t.partners[r.partnerId];
        Success(t.(
          requests := t.requests[requestId := r.(status := APPROVED, approvedCorridors := approved, reviewedAt := Some(now))],
          partners := t.partners[r.partnerId := p.(production := true, stage := PRODUCTION_APPROVED)],
          corridors := Granted(t.corridors, r.partnerId, approved, now)))
  }

  datatype AdminUpdate = AdminUpdate(
    status: Option<PartnerStatus>, stage: Option<Stage>, feedHealth: Option<FeedHealth>,
    pricingPlan: Option<PricingPlan>, apiConsumer: Option<bool>, dataPartner: Option<bool>,
    fullAttestation: Option<bool>, webhooks: Option<bool>, batchVerification: Option<bool>,
    auditExports: Option<bool>, sandbox: Option<bool>)

  function Edited(p: Partner, u: AdminUpdate): Partner {
    Partner(p.slug, Or(u.status, p.status), Or(u.stage, p.stage), Or(u.feedHealth, p.feedHealth),
            Or(u.pricingPlan, p.pricingPlan), Or(u.apiConsumer, p.apiConsumer), Or(u.dataPartner, p.dataPartner),
            Or(u.fullAttestation, p.fullAttestation), Or(u.webhooks, p.webhooks),
            Or(u.batchVerification, p.batchVerification), Or(u.auditExports, p.auditExports),
            Or(u.sandbox, p.sandbox), p.production)
  }

  const NO_UPDATE := AdminUpdate(None, None, None, None, None, None, None, None, None, None, None)

  function UpdateAdminState(t: Tables, partnerId: nat, u: AdminUpdate): Result<Tables, WorkflowError> {
    if partnerId >= |t.partners| then Failure(NotFound)
    else
      var p := t.partners[partnerId];
      var stage := Or(u.stage, p.stage);
      if Or(u.fullAttestation, p.fullAttestation) && !Or(u.dataPartner, p.dataPartner) then Failure(BadRequest)
      else if p.production && stage != PRODUCTION_APPROVED then Failure(BadRequest)
      else if !p.production && stage == PRODUCTION_APPROVED then Failure(BadRequest)
      else if u == NO_UPDATE then Failure(BadRequest)
      else Success(t.(partners := t.partners[partnerId := Edited(p, u)]))
  }

  function UpdateCorridor(t: Tables, partnerId: nat, network: nat, enabled: bool, activeNetworks: set<nat>, now: int)
    : Result<Tables, WorkflowError>
  {
    var key := CorridorKey(partnerId, network);
    if partnerId >= |t.partners| then Failure(NotFound)
    else if network !in activeNetworks then Failure(NotFound)
    else if !enabled && key !in t.corridors then Failure(NotFound)
    else if enabled then Success(t.(corridors := t.corridors[key := Corridor(GRANTED, now, None)]))
    else Success(t.(corridors := t.corridors[key := Corridor(REVOKED, t.corridors[key].grantedAt, Some(now))]))
  }

  function NewPartner(slug: string, plan: PricingPlan): Partner {
    Partner(slug, ACTIVE, ACCOUNT_CREATED, UNKNOWN, plan, true, false, false, true, true, true, true, false)
  }

  predicate SlugTaken(partners: seq<Partner>, slug: string) {
    exists i :: 0 <= i < |partners| && partners[i].slug == slug
  }

  function AddPartner(t: Tables, slug: string, plan: PricingPlan): Result<Tables, WorkflowError> {
    match NormalizePartnerSlug(slug)
    case None => Failure(BadRequest)
    case Some(normal) =>
      if SlugTaken(t.partners, normal) then Failure(Conflict)
      else Success(t.(partners := t.partners + [NewPartner(normal, plan)]))
  }

  // ---- the service as an object ----

  class PartnersService {
    var partners: seq<Partner>
    var users: seq<User>
    var requests: seq<ApprovalRequest>
    var corridors: map<CorridorKey, Corridor>

    constructor ()
      ensures Rows() == Tables([], [], [], map[])
    {
      partners, users, requests, corridors := [], [], [], map[];
    }

    function Rows(): Tables
      reads this
    {
      Tables(partners, users, requests, corridors)
    }

    /** The new partner has a slug no other partner has, and none of what only a review or an administrator grants. */
    method CreatePartner(slug: string, plan: PricingPlan) returns (r: Result<nat, WorkflowError>)
      modifies this`partners
      ensures match AddPartner(old(Rows()), slug, plan)
              case Success(t) => r == Success(|old(partners)|) && Rows() == t
              case Failure(error) => r == Failure(error) && Rows() == old(Rows())
      ensures r.Success? ==>
        var p := partners[r.value];
        && (forall i :: 0 <= i < r.value ==> partners[i].slug != p.slug)
        && !p.production && p.stage != PRODUCTION_APPROVED && !p.dataPartner && !p.fullAttestation
    {
      hide NormalizePartnerSlug;
      var normal := NormalizePartnerSlug(slug);
      if normal == None { return Failure(BadRequest); }
      for i := 0 to |partners|
        invariant forall k :: 0 <= k < i ==> partners[k].slug != normal.value
      {
        if partners[i].slug == normal.value { return Failure(Conflict); }
      }
      r := Success(|partners|);
      partners := partners + [NewPartner(normal.value, plan)];
    }

    method RequestProductionApproval(actor: Actor, counts: Counts, corridorIds: set<nat>, activeNetworks: set<nat>)
      returns (r: Result<nat, WorkflowError>)
      modifies this`requests
      ensures match RequestApproval(old(Rows()), actor, counts, corridorIds, activeNetworks)
              case Success(t) => r == Success(|old(requests)|) && Rows() == t
              case Failure(error) => r == Failure(error) && Rows() == old(Rows())
    {
      if !HasAccess(users, actor) { return Failure(Forbidden); }
      if actor.partnerId >= |partners| { return Failure(NotFound); }
      var partner := partners[actor.partnerId];
      var latest: Option<RequestStatus> := None;
      for i := 0 to |requests|
        invariant latest == Latest(requests, actor.partnerId, i)
      {
        if requests[i].partnerId == actor.partnerId {
          latest := Some(requests[i].status);
        }
      }
      if partner.production { return Failure(Conflict); }
      if latest == Some(PENDING) { return Failure(Conflict); }
      var nextAction := ResolveNextRecommendedAction(partner, counts, latest);
      if nextAction != None && nextAction != Some(Action.RequestProductionApproval)
         && nextAction != Some(AwaitProductionReview) {
        return Failure(BadRequest);
      }
      if (partner.dataPartner || partner.fullAttestation) && partner.feedHealth != HEALTHY {
        return Failure(BadRequest);
      }
      if !(corridorIds <= activeNetworks) { return Failure(BadRequest); }
      r := Success(|requests|);
      requests := requests + [ApprovalRequest(actor.partnerId, PENDING, corridorIds, {}, None)];
    }

    method CancelProductionApprovalRequest(actor: Actor, requestId: nat, now: int) returns (r: Result<nat, WorkflowError>)
      modifies this`requests
      ensures match CancelRequest(old(Rows()), actor, requestId, now)
              case Success(t) => r == Success(requestId) && Rows() == t
              case Failure(error) => r == Failure(error) && Rows() == old(Rows())
    {
      if !HasAccess(users, actor) { return Failure(Forbidden); }
      if requestId >= |requests| || requests[requestId].partnerId != actor.partnerId { return Failure(NotFound); }
      if requests[requestId].status != PENDING { return Failure(Conflict); }
      requests := requests[requestId := requests[requestId].(status := CANCELLED, reviewedAt := Some(now))];
      r := Success(requestId);
    }

    /** The upserts at the end of an approval, one corridor at a time. */
    method GrantCorridors(partnerId: nat, networks: set<nat>, now: int)
      modifies this`corridors
      ensures corridors == Granted(old(corridors), partnerId, networks, now)
    {
      var left := networks;
      while left != {}
        invariant left <= networks
        invariant corridors == Granted(old(corridors), partnerId, networks - left, now)
        decreases left
      {
        hide Granted;
        var network :| network in left;
        GrantOne(old(corridors), partnerId, networks - left, network, now);
        left := left - {network};
        assert networks - left == networks - (left + {network}) + {network};
        corridors := corridors[CorridorKey(partnerId, network) := Corridor(GRANTED, now, None)];
      }
      assert networks - left == networks;
    }

    method ReviewProductionApprovalRequest(requestId: nat, approve: bool, override: set<nat>,
                                           activeNetworks: set<nat>, now: int)
      returns (r: Result<nat, WorkflowError>)
      modifies this
      ensures r.Success? && approve ==>
        && requestId < |old(requests)| == |requests|
        && requests[requestId].approvedCorridors ==
           (if override != {} then override else old(requests)[requestId].requestedCorridors)
        && forall key :: key in corridors ==>
             if key.partnerId == old(requests)[requestId].partnerId
                && key.assetNetworkId in requests[requestId].approvedCorridors
             then corridors[key] == Corridor(GRANTED, now, None)
             else key in old(corridors) && corridors[key] == old(corridors)[key]
      ensures match ReviewRequest(old(Rows()), requestId, approve, override, activeNetworks, now)
              case Success(t) => r == Success(requestId) && Rows() == t
              case Failure(error) => r == Failure(error) && Rows() == old(Rows())
    {
      if requestId >= |requests| { return Failure(NotFound); }
      var existing := requests[requestId];
      if existing.status != PENDING { return Failure(Conflict); }
      if !(override <= activeNetworks) { return Failure(BadRequest); }
      var approved := if override != {} then override else existing.requestedCorridors;
      if approve && approved == {} { return Failure(BadRequest); }
      if !approve {
        requests := requests[requestId := existing.(status := REJECTED, reviewedAt := Some(now))];
        return Success(requestId);
      }
      var partnerId := existing.partnerId;
      if partnerId >= |partners| { return Failure(NotFound); }
      requests := requests[requestId := existing.(status := APPROVED, approvedCorridors := approved,
                                                  reviewedAt := Some(now))];
      partners := partners[partnerId := partners[partnerId].(production := true, stage := PRODUCTION_APPROVED)];
      GrantCorridors(partnerId, approved, now);
      r := Success(requestId);
    }

    method UpdatePartnerAdminState(partnerId: nat, u: AdminUpdate) returns (r: Result<Partner, WorkflowError>)
      modifies this`partners
      ensures match UpdateAdminState(old(Rows()), partnerId, u)
              case Success(t) => Rows() == t && r == Success(t.partners[partnerId])
              case Failure(error) => r == Failure(error) && Rows() == old(Rows())
    {
      if partnerId >= |partners| { return Failure(NotFound); }
      var existing := partners[partnerId];
      var nextStage := Or(u.stage, existing.stage);
      if Or(u.fullAttestation, existing.fullAttestation) && !Or(u.dataPartner, existing.dataPartner) {
        return Failure(BadRequest);
      }
      if existing.production && nextStage != PRODUCTION_APPROVED { return Failure(BadRequest); }
      if !existing.production && nextStage == PRODUCTION_APPROVED { return Failure(BadRequest); }
      if u == NO_UPDATE { return Failure(BadRequest); }
      partners := partners[partnerId := Edited(existing, u)];
      r := Success(partners[partnerId]);
    }

    method UpdatePartnerProductionCorridor(partnerId: nat, network: nat, enabled: bool, activeNetworks: set<nat>, now: int)
      returns (r: Result<Corridor, WorkflowError>)
      modifies this`corridors
      ensures match UpdateCorridor(old(Rows()), partnerId, network, enabled, activeNetworks, now)
              case Success(t) => Rows() == t && r == Success(corridors[CorridorKey(partnerId, network)])
              case Failure(error) => r == Failure(error) && Rows() == old(Rows())
    {
      var key := CorridorKey(partnerId, network);
      if partnerId >= |partners| { return Failure(NotFound); }
      if network !in activeNetworks { return Failure(NotFound); }
      if !enabled && key !in corridors { return Failure(NotFound); }
      var grantedAt := if enabled then now else corridors[key].grantedAt;
      corridors := corridors[key := Corridor(if enabled then GRANTED else REVOKED, grantedAt,
                                             if enabled then None else Some(now))];
      r := Success(corridors[key]);
    }
  }
}
