/**
 Replay protection of attestation writes (backend/src/security/request-hardening.service.ts): a nonce table with
 a unique key and a time to live, a freshness window around the request's timestamp, and a cleanup job.
 */
module RequestNonces {
  import opened Wrappers
  import opened Runs
  import opened Text

  datatype Config = Config(maxAgeMs: nat, nonceTtlMs: nat)

  datatype Header = Missing | Malformed | At(ms: int)

  datatype Request = Request(credentialId: Option<nat>, nonce: Option<string>, timestamp: Header, requestHash: nat)

  /** The unique key (credentialId, nonce). */
  datatype Key = Key(credentialId: nat, nonce: string)

  datatype NonceRow = NonceRow(requestHash: nat, expiresAt: int)

  datatype ReplayError =
    | MissingNonce | NonceTooLong | MissingTimestamp | InvalidTimestamp | CredentialRequired
    | OutsideFreshnessWindow | NonceUsedForOtherPayload | NonceAlreadyUsed | NonceNotProtected

  function ParseRequestNonce(value: Option<string>): (r: Result<string, ReplayError>)
    ensures r.Success? ==> 1 <= |r.value| <= 200 && Trim(r.value) == r.value
  {
    if value == None || Trim(value.value) == [] then Failure(MissingNonce)
    else
      TrimIsTrimmed(value.value);
      if |Trim(value.value)| > 200 then Failure(NonceTooLong) else Success(Trim(value.value))
  }

  /** Everything that is checked before the table is touched: the key, and the timestamp it was fresh with. */
  function CheckRequest(c: Config, req: Request, now: int): (r: Result<(Key, int), ReplayError>)
    ensures r.Success? ==> r.value.1 - c.maxAgeMs <= now <= r.value.1 + c.maxAgeMs
  {
    match ParseRequestNonce(req.nonce)
    case Failure(error) => Failure(error)
    case Success(nonce) =>
      match req.timestamp
      case Missing => Failure(MissingTimestamp)
      case Malformed => Failure(InvalidTimestamp)
      case At(ms) =>
        match req.credentialId
        case None => Failure(CredentialRequired)
        case Some(credentialId) =>
          if (if now >= ms then now - ms else ms - now) > c.maxAgeMs then Failure(OutsideFreshnessWindow)
          else Success((Key(credentialId, nonce), ms))
  }

  /** The insert, refused by the unique key when the nonce is there; `checkedAt` is when the checks were made. */
  function InsertNonce(c: Config, nonces: map<Key, NonceRow>, key: Key, requestHash: nat, checkedAt: int)
    : (r: Result<map<Key, NonceRow>, ReplayError>)
    ensures r.Success? <==> key !in nonces
  {
    if key in nonces then
      Failure(if nonces[key].requestHash != requestHash then NonceUsedForOtherPayload else NonceAlreadyUsed)
    else Success(nonces[key := NonceRow(requestHash, checkedAt + c.nonceTtlMs)])
  }

  function Unexpired(nonces: map<Key, NonceRow>, cutoff: int): map<Key, NonceRow> {
    map key | key in nonces && nonces[key].expiresAt >= cutoff :: nonces[key]
  }

  /** A request passes with its trimmed nonce and its own timestamp exactly if it has a nonce of at most 200 characters, a
      readable timestamp no further than the maximum age from now on either side, and a credential; if not, it is told
      the first of these it lacks. */
  lemma CheckMeans(c: Config, req: Request, now: int)
    ensures var r, nonce := CheckRequest(c, req, now), if req.nonce.Some? then Trim(req.nonce.value) else "";
      && (r == Failure(MissingNonce) <==> nonce == "")
      && (r == Failure(NonceTooLong) <==> |nonce| > 200)
      && (1 <= |nonce| <= 200 ==>
            && (r == Failure(MissingTimestamp) <==> req.timestamp == Missing)
            && (r == Failure(InvalidTimestamp) <==> req.timestamp == Malformed)
            && (req.timestamp.At? ==>
                  && (r == Failure(CredentialRequired) <==> req.credentialId == None)
                  && (r == Failure(OutsideFreshnessWindow) <==>
                        req.credentialId.Some?
                        && (now < req.timestamp.ms - c.maxAgeMs || now > req.timestamp.ms + c.maxAgeMs))
                  && (r.Success? <==>
                        req.credentialId.Some? && req.timestamp.ms - c.maxAgeMs <= now <= req.timestamp.ms + c.maxAgeMs)
                  && (r.Success? ==> r.value == (Key(req.credentialId.value, nonce), req.timestamp.ms))))
  {
    hide Trim;
  }

  /** A nonce is stored once, with the hash of its request and the end of its time; a second request with it is told whether it
      is the same request. */
  lemma InsertMeans(c: Config, nonces: map<Key, NonceRow>, key: Key, requestHash: nat, checkedAt: int)
    ensures var r := InsertNonce(c, nonces, key, requestHash, checkedAt);
      && (r.Success? <==> key !in nonces)
      && (r == Failure(NonceAlreadyUsed) <==> key in nonces && nonces[key].requestHash == requestHash)
      && (r == Failure(NonceUsedForOtherPayload) <==> key in nonces && nonces[key].requestHash != requestHash)
      && (r.Success? ==>
            && r.value.Keys == nonces.Keys + {key} && (forall k :: k in nonces ==> r.value[k] == nonces[k])
            && r.value[key].requestHash == requestHash && r.value[key].expiresAt == checkedAt + c.nonceTtlMs)
  {
  }

  /** A cleanup removes the nonces whose time ended before it, and no other. */
  lemma CleanupMeans(nonces: map<Key, NonceRow>, now: int)
    ensures forall key :: key in Unexpired(nonces, now) <==> key in nonces && !(nonces[key].expiresAt < now)
    ensures forall key :: key in Unexpired(nonces, now) ==> Unexpired(nonces, now)[key] == nonces[key]
  {
  }

  /** The service as an object over its table, one call at a time. */
  class RequestHardeningService {
    const config: Config
    var nonces: map<Key, NonceRow>

    constructor (config: Config)
      ensures this.config == config && nonces == map[]
    {
      this.config := config;
      nonces := map[];
    }

    /** `gone`: a row that collides is no longer there when it is read back, because a cleanup has removed it. */
    method AssertAttestationReplayProtection(req: Request, now: int, gone: bool) returns (r: Result<Key, ReplayError>)
      modifies this
      ensures match CheckRequest(config, req, now)
              case Failure(error) => r == Failure(error) && nonces == old(nonces)
              case Success((key, _)) =>
                match InsertNonce(config, old(nonces), key, req.requestHash, now)
                case Failure(error) => r == Failure(if gone then NonceNotProtected else error) && nonces == old(nonces)
                case Success(inserted) => r == Success(key) && nonces == inserted
    {
      var parsed := ParseRequestNonce(req.nonce);
      if parsed.Failure? { return Failure(parsed.error); }
      if req.timestamp == Missing { return Failure(MissingTimestamp); }
      if req.timestamp == Malformed { return Failure(InvalidTimestamp); }
      if req.credentialId == None { return Failure(CredentialRequired); }
      var age := now - req.timestamp.ms;
      if age > config.maxAgeMs || -age > config.maxAgeMs { return Failure(OutsideFreshnessWindow); }
      var key := Key(req.credentialId.value, parsed.value);
      if key in nonces {
        if gone { return Failure(NonceNotProtected); }
        if nonces[key].requestHash != req.requestHash { return Failure(NonceUsedForOtherPayload); }
        return Failure(NonceAlreadyUsed);
      }
      nonces := nonces[key := NonceRow(req.requestHash, now + config.nonceTtlMs)];
      r := Success(key);
    }

    method CleanupExpiredRequestNonces(now: int) returns (count: nat)
      modifies this
      ensures nonces == Unexpired(old(nonces), now)
      ensures count == |old(nonces)| - |nonces|
    {
      var kept := map key | key in nonces && !(nonces[key].expiresAt < now) :: nonces[key];
      assert kept.Keys + (nonces.Keys - kept.Keys) == nonces.Keys;
      assert |nonces.Keys| == |nonces| && |kept.Keys| == |kept|;
      count := |nonces.Keys - kept.Keys|;
      nonces := kept;
    }
  }

  // ---- concurrent requests ----

  /** A request whose checks passed at `checkedAt` and whose insert has not run yet. */
  datatype Pending = Pending(key: Key, timestamp: int, requestHash: nat, checkedAt: int)

  datatype Acceptance = Acceptance(key: Key, timestamp: int)

  /** `delayMs` bounds the time between a request's checks and its insert; `accepted` is history. */
  datatype System = System(
    now: int,
    nonces: map<Key, NonceRow>,
    pending: map<int, Pending>,
    accepted: seq<Acceptance>)

  datatype Event =
    | Elapse(ms: nat)
    | Check(call: int, request: Request)
    | Insert(call: int)
    | Drop(call: int)
    | Cleanup(cutoff: int)

  function Init(now: int): System {
    System(now, map[], map[], [])
  }

  predicate MayElapse(s: System, delayMs: nat, ms: nat) {
    forall call | call in s.pending :: s.now + ms <= s.pending[call].checkedAt + delayMs
  }

  function Step(c: Config, delayMs: nat, s: System, e: Event): System {
    match e
    case Elapse(ms) => if MayElapse(s, delayMs, ms) then s.(now := s.now + ms) else s
    case Check(call, req) =>
      if call in s.pending then s
      else (match CheckRequest(c, req, s.now)
            case Failure(_) => s
            case Success((key, timestamp)) =>
              s.(pending := s.pending[call := Pending(key, timestamp, req.requestHash, s.now)]))
    case Insert(call) =>
      if call !in s.pending then s
      else
        var p := s.pending[call];
        var s' := s.(pending := s.pending - {call});
        (match InsertNonce(c, s.nonces, p.key, p.requestHash, p.checkedAt)
         case Failure(_) => s'
         case Success(nonces) => s'.(nonces := nonces, accepted := s.accepted + [Acceptance(p.key, p.timestamp)]))
    case Drop(call) => s.(pending := s.pending - {call})
    case Cleanup(cutoff) => if cutoff <= s.now then s.(nonces := Unexpired(s.nonces, cutoff)) else s
  }

  function Machine(c: Config, delayMs: nat): (System, Event) -> System {
    (s, e) => Step(c, delayMs, s, e)
  }

  /** The same credential, nonce and timestamp are never accepted twice. */
  ghost predicate NoReplay(s: System) {
    forall i, j :: 0 <= i < j < |s.accepted| ==> s.accepted[i] != s.accepted[j]
  }

  /** The last instant at which a request with this timestamp can reach its insert. */
  function Deadline(c: Config, delayMs: nat, timestamp: int): int {
    timestamp + c.maxAgeMs + delayMs
  }

  /** An accepted request is remembered by its row until its deadline has passed. */
  ghost predicate Remembered(c: Config, delayMs: nat, s: System, a: Acceptance) {
    || (a.key in s.nonces && s.nonces[a.key].expiresAt >= Deadline(c, delayMs, a.timestamp))
    || s.now > Deadline(c, delayMs, a.timestamp)
  }

  ghost predicate Inv(c: Config, delayMs: nat, s: System) {
    && NoReplay(s)
    && (forall i :: 0 <= i < |s.accepted| ==> Remembered(c, delayMs, s, s.accepted[i]))
    && (forall call :: call in s.pending ==>
          var p := s.pending[call];
          && p.checkedAt <= s.now <= p.checkedAt + delayMs
          && p.timestamp - c.maxAgeMs <= p.checkedAt <= p.timestamp + c.maxAgeMs)
  }

  predicate LongEnough(c: Config, delayMs: nat) {
    c.nonceTtlMs >= 2 * c.maxAgeMs + delayMs
  }

  lemma InsertKeepsInv(c: Config, delayMs: nat, s: System, call: int)
    requires LongEnough(c, delayMs) && Inv(c, delayMs, s) && call in s.pending
    ensures Inv(c, delayMs, Step(c, delayMs, s, Insert(call)))
  {
    var p := s.pending[call];
    var a := Acceptance(p.key, p.timestamp);
    var s' := Step(c, delayMs, s, Insert(call));
    if p.key !in s.nonces {
      forall i | 0 <= i < |s'.accepted| ensures Remembered(c, delayMs, s', s'.accepted[i]) {
        if i < |s.accepted| {
          assert Remembered(c, delayMs, s, s.accepted[i]);
        }
      }
      assert forall i :: 0 <= i < |s.accepted| ==> Remembered(c, delayMs, s, s.accepted[i]) && s.accepted[i] != a;
    }
  }

  lemma StepKeepsInv(c: Config, delayMs: nat, s: System, e: Event)
    requires LongEnough(c, delayMs) && Inv(c, delayMs, s)
    ensures Inv(c, delayMs, Step(c, delayMs, s, e))
  {
    if e.Insert? && e.call in s.pending {
      InsertKeepsInv(c, delayMs, s, e.call);
    } else {
      var s' := Step(c, delayMs, s, e);
      forall i | 0 <= i < |s'.accepted| ensures Remembered(c, delayMs, s', s'.accepted[i]) {
        assert Remembered(c, delayMs, s, s.accepted[i]);
      }
    }
  }

  lemma {:induction false} RunKeepsInv(c: Config, delayMs: nat, s: System, events: seq<Event>)
    requires LongEnough(c, delayMs) && Inv(c, delayMs, s)
    ensures Inv(c, delayMs, Run(Machine(c, delayMs), s, events))
    decreases |events|
  {
    if events != [] {
      StepKeepsInv(c, delayMs, s, events[0]);
      RunKeepsInv(c, delayMs, Step(c, delayMs, s, events[0]), events[1..]);
    }
  }

  /** A request stamped `maxAgeMs` ahead is accepted at once. */
  lemma AcceptedEarly(c: Config, delayMs: nat, start: int, req: Request)
    requires req == Request(Some(0), Some("n"), At(start + c.maxAgeMs), 0)
    ensures Reached(Machine(c, delayMs), Init(start),
                    System(start, map[Key(0, "n") := NonceRow(0, start + c.nonceTtlMs)], map[],
                           [Acceptance(Key(0, "n"), start + c.maxAgeMs)]))
  {
    hide Reached;
    StartIsReached(Machine(c, delayMs), Init(start));
    assert TrimStart("n") == "n" && TrimEnd("n") == "n";
    ReachedStep(Machine(c, delayMs), Init(start), Init(start), Check(1, req));
    var key, timestamp := Key(0, "n"), start + c.maxAgeMs;
    var s1 := Init(start).(pending := map[1 := Pending(key, timestamp, 0, start)]);
    assert Step(c, delayMs, Init(start), Check(1, req)) == s1;
    ReachedStep(Machine(c, delayMs), Init(start), s1, Insert(1));
    assert s1.pending - {1} == map[];
    assert Step(c, delayMs, s1, Insert(1))
        == System(start, map[key := NonceRow(0, start + c.nonceTtlMs)], map[], [Acceptance(key, timestamp)]);
  }

  /** It is checked again at the far end of its window. */
  lemma CheckedLate(c: Config, delayMs: nat, start: int, req: Request, s: System)
    requires req == Request(Some(0), Some("n"), At(start + c.maxAgeMs), 0)
    requires s.now == start && s.pending == map[] && Reached(Machine(c, delayMs), Init(start), s)
    ensures Reached(Machine(c, delayMs), Init(start), s.(now := start + 2 * c.maxAgeMs,
              pending := map[2 := Pending(Key(0, "n"), start + c.maxAgeMs, 0, start + 2 * c.maxAgeMs)]))
  {
    hide Reached;
    assert TrimStart("n") == "n" && TrimEnd("n") == "n";
    ReachedStep(Machine(c, delayMs), Init(start), s, Elapse(2 * c.maxAgeMs));
    ReachedStep(Machine(c, delayMs), Init(start), s.(now := start + 2 * c.maxAgeMs), Check(2, req));
  }

  /** Its row expires while it waits, and it is accepted again. */
  lemma ShortTtlForgets(c: Config, delayMs: nat, start: int) returns (s: System)
    requires !LongEnough(c, delayMs)
    ensures Reached(Machine(c, delayMs), Init(start), s) && !NoReplay(s)
  {
    var req := Request(Some(0), Some("n"), At(start + c.maxAgeMs), 0);
    var key, a := Key(0, "n"), Acceptance(Key(0, "n"), start + c.maxAgeMs);
    var s2 := System(start, map[key := NonceRow(0, start + c.nonceTtlMs)], map[], [a]);
    hide Reached;
    AcceptedEarly(c, delayMs, start, req);
    CheckedLate(c, delayMs, start, req, s2);
    var late := start + 2 * c.maxAgeMs;
    var s4 := s2.(now := late, pending := map[2 := Pending(key, start + c.maxAgeMs, 0, late)]);
    assert MayElapse(s4, delayMs, delayMs);
    ReachedStep(Machine(c, delayMs), Init(start), s4, Elapse(delayMs));
    var s5 := s4.(now := s4.now + delayMs);
    assert Unexpired(s5.nonces, s5.now) == map[];
    ReachedStep(Machine(c, delayMs), Init(start), s5, Cleanup(s5.now));
    var s6 := s5.(nonces := map[]);
    ReachedStep(Machine(c, delayMs), Init(start), s6, Insert(2));
    s := Step(c, delayMs, s6, Insert(2));
    assert s.accepted == [a, a];
    assert s.accepted[0] == s.accepted[1];
  }

  /** No run of concurrent requests and cleanups accepts the same (credential, nonce, timestamp) twice. */
  ghost predicate NeverReplays(c: Config, delayMs: nat) {
    forall start, events :: NoReplay(Run(Machine(c, delayMs), Init(start), events))
  }

  /** That holds exactly when a nonce lives at least twice the maximum age plus the time a request may take from
      its checks to its insert. */
  lemma ReplayWindow(c: Config, delayMs: nat)
    ensures NeverReplays(c, delayMs) <==> c.nonceTtlMs >= 2 * c.maxAgeMs + delayMs
  {
    if LongEnough(c, delayMs) {
      forall start, events ensures NoReplay(Run(Machine(c, delayMs), Init(start), events)) {
        RunKeepsInv(c, delayMs, Init(start), events);
      }
    } else {
      var s := ShortTtlForgets(c, delayMs, 0);
      var events := EventsTo(Machine(c, delayMs), Init(0), s);
      assert !NoReplay(Run(Machine(c, delayMs), Init(0), events));
    }
  }

  const DEFAULTS := Config(300_000, 600_000)

  /** The default settings meet the bound with nothing to spare: they are safe only if checks and insert are one. */
  lemma DefaultsAreTight(delayMs: nat)
    ensures NeverReplays(DEFAULTS, delayMs) <==> delayMs == 0
  {
    ReplayWindow(DEFAULTS, delayMs);
  }
}
