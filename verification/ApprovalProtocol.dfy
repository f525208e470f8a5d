/**
 The approval workflow with its calls taken apart: the services check before their transaction begins, and the
 transaction writes by identifier without looking again (backend/src/partners/partners.service.ts).
 */
module ApprovalProtocol {
  import opened Wrappers
  import opened Normalization
  import opened ProductionApproval
  import opened ApprovalTheorems
  import Runs

  /** What a call that has passed its checks is going to write. */
  datatype Ticket =
    | InsertPartner(slug: string, plan: PricingPlan)
    | ReplaceUsers(users: seq<User>)
    | InsertRequest(partnerId: nat, networks: set<nat>)
    | UpdateCancelled(id: nat, partnerId: nat, now: int)
    | UpdateReviewed(id: nat, partnerId: nat, approve: bool, networks: set<nat>, now: int)
    | UpdatePartner(partnerId: nat, edit: AdminUpdate)
    | UpsertCorridor(key: CorridorKey, enabled: bool, found: Option<int>, now: int)

  function Check(t: Tables, e: Event): Result<Ticket, WorkflowError> {
    match Call(t, e)
    case Failure(error) => Failure(error)
    case Success(_) => Success(TicketOf(t, e))
  }

  function TicketOf(t: Tables, e: Event): Ticket {
    match e
    case CreatePartner(slug, plan) => InsertPartner(Or(NormalizePartnerSlug(slug), ""), plan)
    case ChangeUsers(users) => ReplaceUsers(users)
    case Request(actor, _, networks, _) => InsertRequest(actor.partnerId, networks)
    case Cancel(actor, id, now) => UpdateCancelled(id, actor.partnerId, now)
    case Review(id, approve, networks, _, now) =>
      if id >= |t.requests| then UpdateReviewed(id, 0, approve, networks, now)
      else UpdateReviewed(id, t.requests[id].partnerId, approve,
                          if networks != {} then networks else t.requests[id].requestedCorridors, now)
    case AdminEdit(partnerId, edit) => UpdatePartner(partnerId, edit)
    case SetCorridor(partnerId, network, enabled, _, now) =>
      var key := CorridorKey(partnerId, network);
      UpsertCorridor(key, enabled, if key in t.corridors then Some(t.corridors[key].grantedAt) else None, now)
  }

  /** The transaction. A row that a unique index refuses leaves everything as it was. */
  function Write(t: Tables, k: Ticket): Tables {
    match k
    case InsertPartner(slug, plan) =>
      if SlugTaken(t.partners, slug) then t else t.(partners := t.partners + [NewPartner(slug, plan)])
    case ReplaceUsers(users) => t.(users := users)
    case InsertRequest(partnerId, networks) =>
      t.(requests := t.requests + [ApprovalRequest(partnerId, PENDING, networks, {}, None)])
    case UpdateCancelled(id, _, now) =>
      if id >= |t.requests| then t
      else t.(requests := t.requests[id := t.requests[id].(status := CANCELLED, reviewedAt := Some(now))])
    case UpdateReviewed(id, partnerId, approve, networks, now) =>
      if id >= |t.requests| || partnerId >= |t.partners| then t
      else if !approve then
        t.(requests := t.requests[id := t.requests[id].(status := REJECTED, reviewedAt := Some(now))])
      else
        t.(requests := t.requests[id := t.requests[id].(status := APPROVED, approvedCorridors := networks,
                                                        reviewedAt := Some(now))],
           partners := t.partners[partnerId := t.partners[partnerId].(production := true, stage := PRODUCTION_APPROVED)],
           corridors := Granted(t.corridors, partnerId, networks, now))
    case UpdatePartner(partnerId, edit) =>
      if partnerId >= |t.partners| then t
      else t.(partners := t.partners[partnerId := Edited(t.partners[partnerId], edit)])
    case UpsertCorridor(key, enabled, found, now) =>
      if found.None? && key in t.corridors then t
      else if enabled || found.None? then t.(corridors := t.corridors[key := Corridor(GRANTED, now, None)])
      else t.(corridors := t.corridors[key := Corridor(REVOKED, found.value, Some(now))])
  }

  /** Undisturbed, checking and writing is what the call does. */
  lemma CheckThenWrite(t: Tables, e: Event)
    requires Call(t, e).Success? && RequestRowsOk(t)
    ensures Write(t, TicketOf(t, e)) == Call(t, e).value
  {
    hide NormalizePartnerSlug, RequestGuards;
    if e.Review? {
      assert RequestOk(t, e.id);
    }
  }

  // ---- interleaved calls ----

  datatype System = System(t: Tables, tickets: map<int, Ticket>)

  datatype Move = Begin(call: int, event: Event) | Commit(call: int) | Drop(call: int)

  const START := System(EMPTY, map[])

  /** The partner whose rows a ticket goes by. */
  function Subject(k: Ticket): Option<nat> {
    match k
    case InsertPartner(_, _) => None
    case ReplaceUsers(_) => None
    case InsertRequest(partnerId, _) => Some(partnerId)
    case UpdateCancelled(_, partnerId, _) => Some(partnerId)
    case UpdateReviewed(_, partnerId, _, _, _) => Some(partnerId)
    case UpdatePartner(partnerId, _) => Some(partnerId)
    case UpsertCorridor(key, _, _, _) => Some(key.partnerId)
  }

  predicate Clash(k: Ticket, other: Ticket) {
    Subject(k).Some? && Subject(k) == Subject(other)
  }

  /** `apart`: whether calls that concern one partner never overlap; calls that do not may always. */
  function Act(apart: bool, s: System, a: Move): System {
    match a
    case Begin(call, e) =>
      if call in s.tickets || Check(s.t, e).Failure?
         || (apart && exists other | other in s.tickets :: Clash(TicketOf(s.t, e), s.tickets[other]))
      then s else s.(tickets := s.tickets[call := TicketOf(s.t, e)])
    case Commit(call) =>
      if call !in s.tickets then s else System(Write(s.t, s.tickets[call]), s.tickets - {call})
    case Drop(call) => s.(tickets := s.tickets - {call})
  }

  function Machine(apart: bool): (System, Move) -> System {
    (s, a) => Act(apart, s, a)
  }

  function Play(apart: bool, s: System, actions: seq<Move>): System {
    Runs.Run(Machine(apart), s, actions)
  }

  // ---- what calls on other partners leave alone ----

  predicate PendingOf(t: Tables, id: nat, partnerId: nat) {
    id < |t.requests| && t.requests[id].status == PENDING && t.requests[id].partnerId == partnerId
  }

  /** What the checks of a call have found still holds. */
  ghost predicate Good(t: Tables, k: Ticket) {
    match k
    case InsertPartner(_, _) => true
    case ReplaceUsers(_) => true
    case InsertRequest(partnerId, _) => partnerId < |t.partners| && Free(t, partnerId)
    case UpdateCancelled(id, partnerId, _) => PendingOf(t, id, partnerId)
    case UpdateReviewed(id, partnerId, approve, networks, _) =>
      PendingOf(t, id, partnerId) && (approve ==> networks != {})
    case UpdatePartner(partnerId, edit) =>
      partnerId < |t.partners| && PartnerOk(Edited(t.partners[partnerId], edit))
    case UpsertCorridor(_, _, _, _) => true
  }

  lemma CheckedIsGood(t: Tables, e: Event)
    requires Consistent(t) && Call(t, e).Success?
    ensures Good(t, TicketOf(t, e))
  {
    hide NormalizePartnerSlug, RequestGuards;
    match e
    case CreatePartner(_, _) =>
    case ChangeUsers(_) =>
    case Request(actor, counts, _, _) => GuardedIsFree(t, actor, counts);
    case Cancel(_, _, _) =>
    case Review(_, _, _, _, _) =>
    case AdminEdit(_, _) =>
    case SetCorridor(_, _, _, _, _) =>
  }

  lemma SettlementKeeps(t: Tables, id: nat, t': Tables)
    requires Consistent(t) && id < |t.requests| == |t'.requests| && t.requests[id].status == PENDING
    requires var r := t'.requests[id];
      && r.partnerId == t.requests[id].partnerId && r.reviewedAt.Some? && r.status != PENDING
      && (r.status == APPROVED <==> r.approvedCorridors != {})
      && t'.requests == t.requests[id := r]
      && (t'.partners == if r.status != APPROVED || r.partnerId >= |t.partners| then t.partners
                         else t.partners[r.partnerId := t.partners[r.partnerId].(production := true,
                                                                                 stage := PRODUCTION_APPROVED)])
    requires CorridorRowsOk(t')
    ensures Consistent(t')
  {
    assert RequestOk(t, id);
    SettleKeeps(t, id, t'.requests[id], t');
  }

  /** A ticket that is still good keeps the tables consistent. */
  lemma WriteKeeps(t: Tables, k: Ticket)
    requires Consistent(t) && Good(t, k)
    ensures Consistent(Write(t, k))
  {
    match k
    case InsertPartner(_, _) => PartnerEditKeeps(t, Write(t, k));
    case ReplaceUsers(users) => SameRowsKeep(t, Write(t, k));
    case InsertRequest(partnerId, networks) =>
      NewRequestKeeps(t, ApprovalRequest(partnerId, PENDING, networks, {}, None));
    case UpdateCancelled(id, _, _) =>
      assert RequestOk(t, id);
      SettlementKeeps(t, id, Write(t, k));
    case UpdateReviewed(id, _, _, _, _) =>
      assert RequestOk(t, id);
      SettlementKeeps(t, id, Write(t, k));
    case UpdatePartner(_, _) => PartnerEditKeeps(t, Write(t, k));
    case UpsertCorridor(_, _, _, _) => SameRowsKeep(t, Write(t, k));
  }

  lemma SameRowsKeep(t: Tables, t': Tables)
    requires Consistent(t) && t'.partners == t.partners && t'.requests == t.requests && CorridorRowsOk(t')
    ensures Consistent(t')
  {
    forall i: nat | i < |t.requests| ensures RequestOk(t', i) {
      assert RequestOk(t, i);
    }
    forall k: nat, i: nat | ApprovedBy(t, k, i) ensures ApprovedBy(t', k, i) {
    }
  }

  /** What a call on one partner has found, a call on another does not touch. */
  lemma OthersStayGood(t: Tables, k: Ticket, other: Ticket)
    requires Consistent(t) && Good(t, k) && Good(t, other) && !Clash(k, other)
    ensures Good(Write(t, k), other)
  {
    if k.UpdateCancelled? || k.UpdateReviewed? {
      assert RequestOk(t, k.id);
    }
  }

  lemma WriteKeepsSettled(t: Tables, k: Ticket)
    requires Good(t, k)
    ensures KeepsSettled(t, Write(t, k))
  {
  }

  ghost predicate Inv(s: System) {
    && Consistent(s.t)
    && (forall call :: call in s.tickets ==> Good(s.t, s.tickets[call]))
    && (forall call, other :: call in s.tickets && other in s.tickets && call != other ==>
          !Clash(s.tickets[call], s.tickets[other]))
  }

  lemma ActKeepsInv(s: System, a: Move)
    requires Inv(s)
    ensures Inv(Act(true, s, a)) && KeepsSettled(s.t, Act(true, s, a).t)
  {
    hide Consistent, Good, TicketOf, Call, Write;
    match a {
      case Begin(call, e) =>
        if Call(s.t, e).Success? {
          CheckedIsGood(s.t, e);
        }
      case Commit(call) =>
        if call in s.tickets {
          var k := s.tickets[call];
          WriteKeeps(s.t, k);
          WriteKeepsSettled(s.t, k);
          forall other | other in s.tickets && other != call ensures Good(Write(s.t, k), s.tickets[other]) {
            OthersStayGood(s.t, k, s.tickets[other]);
          }
        }
      case Drop(_) =>
    }
  }

  lemma {:induction false} PlayKeepsInv(s: System, actions: seq<Move>)
    requires Inv(s)
    ensures Inv(Play(true, s, actions)) && KeepsSettled(s.t, Play(true, s, actions).t)
    decreases |actions|
  {
    if actions != [] {
      ActKeepsInv(s, actions[0]);
      PlayKeepsInv(Act(true, s, actions[0]), actions[1..]);
      hide Inv, Act;
    }
  }

  /** What a settled request is, it stays. */
  ghost predicate KeepsSettled(t: Tables, t': Tables) {
    forall i: nat :: i < |t.requests| && t.requests[i].status != PENDING ==>
      i < |t'.requests| && t'.requests[i] == t.requests[i]
  }

  ghost predicate AlwaysInOrder(apart: bool) {
    forall actions :: InOrder(Play(apart, START, actions).t)
  }

  ghost predicate AlwaysSettled(apart: bool) {
    forall p, q :: KeepsSettled(Play(apart, START, p).t, Play(apart, START, p + q).t)
  }

  // ---- a run that breaks the order ----

  const ALICE := Actor(true, Some(0), 0)
  const READY := Counts(1, 0, 1, 0, 0, 1)

  lemma PlayStep(apart: bool, actions: seq<Move>, a: Move)
    ensures Play(apart, START, actions + [a]) == Act(apart, Play(apart, START, actions), a)
  {
    Runs.LastStep(Machine(apart), START, actions, a);
  }

  /** One partner with an owner who may ask for production. */
  function Ready(): Tables {
    Tables([NewPartner("p", STARTER)], [User(0, OWNER, true, None)], [], map[])
  }

  lemma PartnerIsPlayed() returns (actions: seq<Move>)
    ensures Play(false, START, actions) == System(Ready().(users := []), map[])
  {
    LetterIsNormal("p");
    hide NormalizePartnerSlug;
    var create := CreatePartner("p", STARTER);
    actions := [Begin(0, create)];
    PlayStep(false, [], Begin(0, create));
    assert [] + actions == actions;
    PlayStep(false, actions, Commit(0));
    actions := actions + [Commit(0)];
    assert map[0 := TicketOf(EMPTY, create)] - {0} == map[];
  }

  lemma ReadyIsPlayed() returns (actions: seq<Move>)
    ensures Play(false, START, actions) == System(Ready(), map[])
  {
    var users := ChangeUsers([User(0, OWNER, true, None)]);
    actions := PartnerIsPlayed();
    hide Play;
    PlayStep(false, actions, Begin(0, users));
    actions := actions + [Begin(0, users)];
    PlayStep(false, actions, Commit(0));
    actions := actions + [Commit(0)];
    assert map[0 := TicketOf(Ready().(users := []), users)] - {0} == map[];
  }

  function Asked(): ApprovalRequest {
    ApprovalRequest(0, PENDING, {}, {}, None)
  }

  lemma AliceMayAsk()
    ensures Call(Ready(), Request(ALICE, READY, {}, {})).Success?
    ensures TicketOf(Ready(), Request(ALICE, READY, {}, {})) == InsertRequest(0, {})
  {
    assert ResolveNextRecommendedAction(NewPartner("p", STARTER), READY, None) == Some(Action.RequestProductionApproval);
  }

  /** Two requests of one partner check at the same time, and both are stored. */
  lemma TwoPending() returns (actions: seq<Move>)
    ensures Play(false, START, actions).t == Ready().(requests := [Asked(), Asked()])
  {
    var ask := Request(ALICE, READY, {}, {});
    actions := ReadyIsPlayed();
    AliceMayAsk();
    hide Call, TicketOf, Play;
    PlayStep(false, actions, Begin(1, ask));
    actions := actions + [Begin(1, ask)];
    PlayStep(false, actions, Begin(2, ask));
    actions := actions + [Begin(2, ask)];
    PlayStep(false, actions, Commit(1));
    actions := actions + [Commit(1)];
    PlayStep(false, actions, Commit(2));
    actions := actions + [Commit(2)];
  }

  lemma OnePending() returns (actions: seq<Move>)
    ensures Play(false, START, actions) == System(Ready().(requests := [Asked()]), map[])
  {
    var ask := Request(ALICE, READY, {}, {});
    actions := ReadyIsPlayed();
    AliceMayAsk();
    hide Call, TicketOf, Play;
    PlayStep(false, actions, Begin(1, ask));
    actions := actions + [Begin(1, ask)];
    PlayStep(false, actions, Commit(1));
    actions := actions + [Commit(1)];
    assert map[1 := InsertRequest(0, {})] - {1} == map[];
  }

  function Withdrawn(): ApprovalRequest {
    Asked().(status := CANCELLED, reviewedAt := Some(1))
  }

  /** A review and a cancellation check at the same time; the request is cancelled, and then rejected. */
  lemma SettledTwice() returns (p: seq<Move>, q: seq<Move>)
    ensures Play(false, START, p).t == Ready().(requests := [Withdrawn()])
    ensures Play(false, START, p + q).t == Ready().(requests := [Withdrawn().(status := REJECTED, reviewedAt := Some(2))])
  {
    var t := Ready().(requests := [Asked()]);
    var cancel, review := Cancel(ALICE, 0, 1), Review(0, false, {}, {}, 2);
    assert Call(t, cancel).Success? && TicketOf(t, cancel) == UpdateCancelled(0, 0, 1);
    assert Call(t, review).Success? && TicketOf(t, review) == UpdateReviewed(0, 0, false, {}, 2);
    p := OnePending();
    hide Call, TicketOf, Play;
    PlayStep(false, p, Begin(1, cancel));
    p := p + [Begin(1, cancel)];
    PlayStep(false, p, Begin(2, review));
    p := p + [Begin(2, review)];
    PlayStep(false, p, Commit(1));
    p := p + [Commit(1)];
    q := [Commit(2)];
    PlayStep(false, p, Commit(2));
  }

  // ---- the theorems ----

  /** The workflow is in order in every interleaving exactly when calls that concern one partner do not overlap; that
      others do is harmless. */
  lemma WorkflowOrder(apart: bool)
    ensures AlwaysInOrder(apart) <==> apart
  {
    if apart {
      forall actions ensures InOrder(Play(true, START, actions).t) {
        PlayKeepsInv(START, actions);
        ConsistentIsInOrder(Play(true, START, actions).t);
      }
    } else {
      var actions := TwoPending();
      assert Later([Asked(), Asked()], 0, 1);
      assert !InOrder(Play(false, START, actions).t);
    }
  }

  /** Under the same condition settled requests stay settled. */
  lemma SettledRequestsStay(apart: bool)
    ensures AlwaysSettled(apart) <==> apart
  {
    if apart {
      forall p, q ensures KeepsSettled(Play(true, START, p).t, Play(true, START, p + q).t) {
        PlayKeepsInv(START, p);
        PlayKeepsInv(Play(true, START, p), q);
        Runs.RunConcat(Machine(true), START, p, q);
      }
    } else {
      var p, q := SettledTwice();
      assert Play(false, START, p).t.requests[0] == Withdrawn();
      assert !KeepsSettled(Play(false, START, p).t, Play(false, START, p + q).t);
    }
  }

  /** Slugs are kept in every interleaving: the unique index sees to it. */
  lemma {:induction false} SlugsAlwaysKept(apart: bool, actions: seq<Move>)
    ensures SlugsKept(Play(apart, START, actions).t.partners)
    ensures forall call :: call in Play(apart, START, actions).tickets ==>
      SlugIsNormalIn(Play(apart, START, actions).tickets[call])
    decreases |actions|
  {
    if actions != [] {
      var s, a := Play(apart, START, actions[..|actions| - 1]), actions[|actions| - 1];
      SlugsAlwaysKept(apart, actions[..|actions| - 1]);
      PlayStep(apart, actions[..|actions| - 1], a);
      assert actions == actions[..|actions| - 1] + [a];
      hide Play, Write, TicketOf, Call, SlugsKept, SlugIsNormalIn;
      if a.Begin? && Call(s.t, a.event).Success? {
        TicketIsNormal(s.t, a.event);
        WriteKeepsSlugs(s.t, TicketOf(s.t, a.event));
      } else if a.Commit? && a.call in s.tickets {
        WriteKeepsSlugs(s.t, s.tickets[a.call]);
      }
    }
  }

  predicate SlugIsNormalIn(k: Ticket) {
    k.InsertPartner? ==> NormalizePartnerSlug(k.slug) == Some(k.slug)
  }

  lemma TicketIsNormal(t: Tables, e: Event)
    requires Call(t, e).Success?
    ensures SlugIsNormalIn(TicketOf(t, e))
  {
    if e.CreatePartner? {
      SlugIsNormal(e.slug);
    }
    hide NormalizePartnerSlug;
  }

  lemma WriteKeepsSlugs(t: Tables, k: Ticket)
    requires SlugsKept(t.partners) && SlugIsNormalIn(k)
    ensures SlugsKept(Write(t, k).partners)
  {
    hide NormalizePartnerSlug;
  }
}
