/**
 The lookup limiter (backend/src/security/request-hardening.service.ts) over the request log it shares with batch
 verification and with the retention cleanup (backend/src/resolution/resolution.service.ts).
 */
module LookupRateLimit {
  import opened Wrappers
  import opened Runs

  const HOUR_MS := 60 * 60 * 1000

  /**
   `minHours`: the shortest short retention any partner has; NO_RETAIN counts as zero hours.
   `overlap`: how many allowed lookups of one partner may be between their check and their record at once.
   `delayMs`: how long an allowed lookup may take from dating its retention, which it does before its check, to its
   record.
   */
  datatype Config = Config(
    windowMs: nat, maxRequests: nat, maxIdentifiers: nat, retentionMs: nat, minHours: nat, overlap: nat, delayMs: nat)
  {
    predicate Valid() {
      maxRequests >= 1 && maxIdentifiers >= 1 && overlap >= 1
    }
  }

  datatype LookupKey = AddressKey(address: string) | RecipientKey(identifier: string)

  datatype Retention = ShortRetention(hours: nat) | StandardRetention

  datatype RequestRow = RequestRow(partnerId: nat, requestedAt: int, key: LookupKey, retentionExpiresAt: Option<int>)

  datatype Decision = Allowed | RateLimited | EnumerationSuspected

  function RetentionExpiresAt(r: Retention, datedAt: int): Option<int> {
    match r
    case ShortRetention(hours) => Some(datedAt + hours * HOUR_MS)
    case StandardRetention => None
  }

  /** The row of a request recorded now, whose retention was dated at `datedAt`. */
  function RowAt(now: int, datedAt: int, partnerId: nat, key: LookupKey, r: Retention): RequestRow {
    RequestRow(partnerId, now, key, RetentionExpiresAt(r, datedAt))
  }

  /** The requests of a partner from `since` on, of every kind and outcome. */
  function CountSince(rows: seq<RequestRow>, partnerId: nat, since: int): nat {
    if rows == [] then 0
    else CountSince(rows[..|rows| - 1], partnerId, since) +
         (if rows[|rows| - 1].partnerId == partnerId && rows[|rows| - 1].requestedAt >= since then 1 else 0)
  }

  /** `recentKeys` are the keys of the rows the unordered, limited enumeration query returned. */
  function Evaluate(c: Config, rows: seq<RequestRow>, now: int, partnerId: nat, key: LookupKey,
                    recentKeys: seq<LookupKey>): Decision
  {
    if CountSince(rows, partnerId, now - c.windowMs) >= c.maxRequests then RateLimited
    else if key in recentKeys then Allowed
    else if |set k | k in recentKeys| >= c.maxIdentifiers then EnumerationSuspected
    else Allowed
  }

  lemma {:induction false} CountMeans(rows: seq<RequestRow>, partnerId: nat, since: int)
    ensures CountSince(rows, partnerId, since)
            == |set i | 0 <= i < |rows| && rows[i].partnerId == partnerId && rows[i].requestedAt >= since|
  {
    var n := |rows|;
    var all := set i | 0 <= i < n && rows[i].partnerId == partnerId && rows[i].requestedAt >= since;
    if n == 0 {
      assert all == {};
    } else {
      var before := rows[..n - 1];
      CountMeans(before, partnerId, since);
      var some := set i | 0 <= i < |before| && before[i].partnerId == partnerId && before[i].requestedAt >= since;
      if rows[n - 1].partnerId == partnerId && rows[n - 1].requestedAt >= since {
        assert all == some + {n - 1};
      } else {
        assert all == some;
      }
    }
  }

  /**
   A partner is limited exactly if it has made the maximum of requests since the window opened. Otherwise a key it has
   looked up lately is allowed, and a new one exactly if the keys it has looked up lately are fewer than the maximum.
   */
  lemma EvaluateMeans(c: Config, rows: seq<RequestRow>, now: int, partnerId: nat, key: LookupKey,
                      recentKeys: seq<LookupKey>)
    ensures var d := Evaluate(c, rows, now, partnerId, key, recentKeys);
      var count := |set i | 0 <= i < |rows| && rows[i].partnerId == partnerId && rows[i].requestedAt >= now - c.windowMs|;
      && (d == RateLimited <==> count >= c.maxRequests)
      && (d == EnumerationSuspected <==>
            count < c.maxRequests && key !in recentKeys && |set k | k in recentKeys| >= c.maxIdentifiers)
  {
    CountMeans(rows, partnerId, now - c.windowMs);
    hide CountSince;
  }

  /** A cleanup removes the rows whose own retention has ended, and of those without one the rows older than the
      standard retention; the others stay, in their order. */
  lemma {:induction false} RetainedMeans(c: Config, rows: seq<RequestRow>, now: int, row: RequestRow)
    ensures multiset(Retained(c, rows, now))[row] ==
      if (row.retentionExpiresAt.Some? && row.retentionExpiresAt.value <= now)
         || (row.retentionExpiresAt.None? && row.requestedAt < now - c.retentionMs)
      then 0 else multiset(rows)[row]
  {
    if rows != [] {
      RetainedMeans(c, rows[..|rows| - 1], now, row);
      assert rows == rows[..|rows| - 1] + [rows[|rows| - 1]];
    }
  }

  /** The row of a request carries when it was recorded and, for a short retention, the time it was dated at and so many
      hours; a standard retention carries none. */
  lemma RowMeans(now: int, datedAt: int, partnerId: nat, key: LookupKey, r: Retention)
    ensures var row := RowAt(now, datedAt, partnerId, key, r);
      && row.partnerId == partnerId && row.requestedAt == now && row.key == key
      && (match r
          case ShortRetention(hours) => row.retentionExpiresAt == Some(datedAt + hours * 3_600_000)
          case StandardRetention => row.retentionExpiresAt == None)
  {
  }

  predicate Kept(c: Config, row: RequestRow, now: int) {
    match row.retentionExpiresAt
    case Some(expiresAt) => expiresAt > now
    case None => row.requestedAt >= now - c.retentionMs
  }

  function Retained(c: Config, rows: seq<RequestRow>, now: int): seq<RequestRow> {
    if rows == [] then []
    else
      var before := Retained(c, rows[..|rows| - 1], now);
      if Kept(c, rows[|rows| - 1], now) then before + [rows[|rows| - 1]] else before
  }

  /** The request log as an object. */
  class ResolutionRequests {
    const config: Config
    var rows: seq<RequestRow>

    constructor (config: Config)
      ensures this.config == config && rows == []
    {
      this.config := config;
      rows := [];
    }

    method EvaluateResolutionLookup(now: int, partnerId: nat, key: LookupKey, recentKeys: seq<LookupKey>)
      returns (d: Decision)
      ensures d == Evaluate(config, rows, now, partnerId, key, recentKeys)
    {
      var requestCount := 0;
      for i := 0 to |rows|
        invariant requestCount == CountSince(rows[..i], partnerId, now - config.windowMs)
      {
        assert rows[..i + 1][..i] == rows[..i];
        if rows[i].partnerId == partnerId && rows[i].requestedAt >= now - config.windowMs {
          requestCount := requestCount + 1;
        }
      }
      assert rows[..|rows|] == rows;
      if requestCount >= config.maxRequests { return RateLimited; }
      if key in recentKeys { return Allowed; }
      var distinct := set k | k in recentKeys;
      if |distinct| >= config.maxIdentifiers { return EnumerationSuspected; }
      d := Allowed;
    }

    method RecordResolutionRequest(now: int, partnerId: nat, key: LookupKey, retentionExpiresAt: Option<int>)
      modifies this
      ensures rows == old(rows) + [RequestRow(partnerId, now, key, retentionExpiresAt)]
    {
      rows := rows + [RequestRow(partnerId, now, key, retentionExpiresAt)];
    }

    /** A single undisturbed lookup: its retention is dated, it is evaluated, and it is recorded whether it was allowed
        or blocked. A blocked one dates its retention anew. */
    method Lookup(datedAt: int, checkedAt: int, blockedAt: int, recordedAt: int, partnerId: nat, key: LookupKey,
                  retention: Retention, recentKeys: seq<LookupKey>)
      returns (d: Decision)
      modifies this
      ensures d == Evaluate(config, old(rows), checkedAt, partnerId, key, recentKeys)
      ensures rows == old(rows) + [RowAt(recordedAt, if d == Allowed then datedAt else blockedAt, partnerId, key, retention)]
    {
      var retentionExpiresAt := RetentionExpiresAt(retention, datedAt);
      d := EvaluateResolutionLookup(checkedAt, partnerId, key, recentKeys);
      if d != Allowed {
        retentionExpiresAt := RetentionExpiresAt(retention, blockedAt);
      }
      RecordResolutionRequest(recordedAt, partnerId, key, retentionExpiresAt);
    }

    method CleanupHistoricalResolutionRequests(now: int) returns (deleted: nat)
      modifies this
      ensures rows == Retained(config, old(rows), now)
      ensures deleted == |old(rows)| - |rows|
    {
      var cutoff := now - config.retentionMs;
      var kept: seq<RequestRow> := [];
      deleted := 0;
      for i := 0 to |rows|
        invariant kept == Retained(config, rows[..i], now)
        invariant deleted == i - |kept|
      {
        var row := rows[i];
        assert rows[..i + 1][..i] == rows[..i];
        if (row.retentionExpiresAt.Some? && row.retentionExpiresAt.value <= now)
           || (row.retentionExpiresAt.None? && row.requestedAt < cutoff) {
          deleted := deleted + 1;
        } else {
          kept := kept + [row];
        }
      }
      assert rows[..|rows|] == rows;
      rows := kept;
    }
  }

  // ---- runs ----

  datatype Pass = Pass(partnerId: nat, at: int)

  /** A lookup that has been checked and is still to be recorded. */
  datatype Pending = Pending(partnerId: nat, key: LookupKey, retention: Retention, datedAt: int, allowed: bool)

  /** `passes` lists the allowed single lookups when they were recorded, which no cleanup removes from history. */
  datatype System = System(now: int, rows: seq<RequestRow>, pending: map<int, Pending>, passes: seq<Pass>)

  datatype Event =
    | Elapse(ms: nat)
    | Check(call: int, partnerId: nat, key: LookupKey, retention: Retention, datedAt: int, askedAt: int,
            recentKeys: seq<LookupKey>)
    | Finish(call: int)
    | Block(call: int, datedAt: int)
    | Drop(call: int)
    | BatchRow(partnerId: nat, key: LookupKey, retention: Retention, datedAt: int)
    | Cleanup

  function Init(now: int): System {
    System(now, [], map[], [])
  }

  predicate Permitted(c: Config, r: Retention) {
    r.ShortRetention? ==> r.hours >= c.minHours
  }

  /** The allowed lookups of a partner that are still to be recorded. */
  function AllowedCalls(pending: map<int, Pending>, partnerId: nat): set<int> {
    set call | call in pending && pending[call].allowed && pending[call].partnerId == partnerId
  }

  /** No allowed lookup takes longer than `delayMs`. */
  predicate MayElapse(c: Config, s: System, ms: nat) {
    forall call | call in s.pending :: s.pending[call].allowed ==> s.now + ms <= s.pending[call].datedAt + c.delayMs
  }

  /** A lookup dates its retention, takes the time its windows are counted back from, and asks. */
  predicate MayCheck(c: Config, s: System, retention: Retention, datedAt: int, askedAt: int) {
    Permitted(c, retention) && datedAt <= askedAt <= s.now <= datedAt + c.delayMs
  }

  function Step(c: Config, s: System, e: Event): System {
    match e
    case Elapse(ms) => if MayElapse(c, s, ms) then s.(now := s.now + ms) else s
    case Check(call, partnerId, key, retention, datedAt, askedAt, recentKeys) =>
      var allowed := Evaluate(c, s.rows, askedAt, partnerId, key, recentKeys) == Allowed;
      if call in s.pending || !MayCheck(c, s, retention, datedAt, askedAt)
         || (allowed && |AllowedCalls(s.pending, partnerId)| >= c.overlap)
      then s else s.(pending := s.pending[call := Pending(partnerId, key, retention, datedAt, allowed)])
    case Finish(call) =>
      if call !in s.pending || !s.pending[call].allowed then s
      else
        var p := s.pending[call];
        s.(rows := s.rows + [RowAt(s.now, p.datedAt, p.partnerId, p.key, p.retention)], pending := s.pending - {call},
           passes := s.passes + [Pass(p.partnerId, s.now)])
    case Block(call, datedAt) =>
      if call !in s.pending || s.pending[call].allowed || datedAt > s.now then s
      else
        var p := s.pending[call];
        s.(rows := s.rows + [RowAt(s.now, datedAt, p.partnerId, p.key, p.retention)], pending := s.pending - {call})
    case Drop(call) => s.(pending := s.pending - {call})
    case BatchRow(partnerId, key, retention, datedAt) =>
      if Permitted(c, retention) && datedAt <= s.now
      then s.(rows := s.rows + [RowAt(s.now, datedAt, partnerId, key, retention)]) else s
    case Cleanup => s.(rows := Retained(c, s.rows, s.now))
  }

  function Machine(c: Config): (System, Event) -> System {
    (s, e) => Step(c, s, e)
  }

  /** The allowed lookups of a partner in the closed window from `from` to `to`. */
  function PassesIn(passes: seq<Pass>, partnerId: nat, from: int, to: int): nat {
    if passes == [] then 0
    else
      var last := passes[|passes| - 1];
      PassesIn(passes[..|passes| - 1], partnerId, from, to) +
      (if last.partnerId == partnerId && from <= last.at <= to then 1 else 0)
  }

  function InWindow(c: Config, passes: seq<Pass>, partnerId: nat, from: int): nat {
    PassesIn(passes, partnerId, from, from + c.windowMs)
  }

  /** No closed window of `windowMs` holds more than `bound` allowed lookups of one partner. */
  ghost predicate Within(c: Config, s: System, bound: int) {
    forall partnerId: nat, from: int :: InWindow(c, s.passes, partnerId, from) <= bound
  }

  /** What the limit comes to when lookups overlap. */
  function Limit(c: Config): int {
    c.maxRequests + c.overlap - 1
  }

  /** The row stays as long as an allowed lookup may count on. */
  predicate Lasting(c: Config, row: RequestRow) {
    row.retentionExpiresAt.Some? ==> row.retentionExpiresAt.value >= row.requestedAt + c.minHours * HOUR_MS - c.delayMs
  }

  /** The lasting rows of a partner from `since` on. */
  function CountLasting(c: Config, rows: seq<RequestRow>, partnerId: nat, since: int): nat {
    if rows == [] then 0
    else
      var last := rows[|rows| - 1];
      CountLasting(c, rows[..|rows| - 1], partnerId, since) +
      (if Lasting(c, last) && last.partnerId == partnerId && last.requestedAt >= since then 1 else 0)
  }

  /** The log still holds at least the allowed lookups of the current window. */
  ghost predicate Covered(c: Config, s: System) {
    forall partnerId: nat, since: int :: since >= s.now - c.windowMs ==>
      PassesIn(s.passes, partnerId, since, s.now) <= CountLasting(c, s.rows, partnerId, since)
  }

  /** The allowed lookups of the current window, and those still to be recorded, stay within the limit. */
  ghost predicate Headroom(c: Config, s: System) {
    forall partnerId: nat, since: int :: since >= s.now - c.windowMs ==>
      PassesIn(s.passes, partnerId, since, s.now) + |AllowedCalls(s.pending, partnerId)| <= Limit(c)
  }

  ghost predicate Dated(c: Config, s: System) {
    && (forall i :: 0 <= i < |s.passes| ==> s.passes[i].at <= s.now)
    && (forall call :: call in s.pending && s.pending[call].allowed ==>
          Permitted(c, s.pending[call].retention) && s.now <= s.pending[call].datedAt + c.delayMs)
  }

  ghost predicate Inv(c: Config, s: System) {
    Within(c, s, Limit(c)) && Covered(c, s) && Headroom(c, s) && Dated(c, s)
  }

  /** What the bound takes: no lookup is forgotten while its window is open, however early its retention was dated. */
  predicate RemembersWindow(c: Config) {
    c.minHours * HOUR_MS > c.windowMs + c.delayMs && c.retentionMs >= c.windowMs
  }

  lemma LastingAppend(c: Config, rows: seq<RequestRow>, row: RequestRow, partnerId: nat, since: int)
    ensures CountLasting(c, rows + [row], partnerId, since) ==
            CountLasting(c, rows, partnerId, since)
            + (if Lasting(c, row) && row.partnerId == partnerId && row.requestedAt >= since then 1 else 0)
  {
    assert (rows + [row])[..|rows|] == rows;
  }

  lemma {:induction false} LastingAreRows(c: Config, rows: seq<RequestRow>, partnerId: nat, since: int)
    ensures CountLasting(c, rows, partnerId, since) <= CountSince(rows, partnerId, since)
  {
    if rows != [] {
      LastingAreRows(c, rows[..|rows| - 1], partnerId, since);
    }
  }

  lemma PassAppend(passes: seq<Pass>, p: Pass, partnerId: nat, from: int, to: int)
    ensures PassesIn(passes + [p], partnerId, from, to) ==
            PassesIn(passes, partnerId, from, to) + (if p.partnerId == partnerId && from <= p.at <= to then 1 else 0)
  {
    assert (passes + [p])[..|passes|] == passes;
  }

  /** A wider window holds at least as many. */
  lemma {:induction false} PassesWiden(passes: seq<Pass>, partnerId: nat, from: int, to: int, from': int, to': int)
    requires from' <= from && forall i :: 0 <= i < |passes| && passes[i].at <= to ==> passes[i].at <= to'
    ensures PassesIn(passes, partnerId, from, to) <= PassesIn(passes, partnerId, from', to')
  {
    if passes != [] {
      PassesWiden(passes[..|passes| - 1], partnerId, from, to, from', to');
    }
  }

  /** Cleanup removes no lasting row of the current window. */
  lemma {:induction false} RetainedCount(c: Config, rows: seq<RequestRow>, now: int, partnerId: nat, since: int)
    requires RemembersWindow(c) && since >= now - c.windowMs
    ensures CountLasting(c, Retained(c, rows, now), partnerId, since) == CountLasting(c, rows, partnerId, since)
  {
    if rows != [] {
      var last := rows[|rows| - 1];
      RetainedCount(c, rows[..|rows| - 1], now, partnerId, since);
      LastingAppend(c, Retained(c, rows[..|rows| - 1], now), last, partnerId, since);
    }
  }

  /** A later start of the window counts no more. */
  lemma {:induction false} CountNarrows(rows: seq<RequestRow>, partnerId: nat, since: int, since': int)
    requires since <= since'
    ensures CountSince(rows, partnerId, since') <= CountSince(rows, partnerId, since)
  {
    if rows != [] {
      CountNarrows(rows[..|rows| - 1], partnerId, since, since');
    }
  }

  /** A row is recorded, and if it is that of an allowed lookup, it is lasting. */
  lemma RecordKeepsCovered(c: Config, s: System, row: RequestRow, passes: seq<Pass>)
    requires Covered(c, s) && row.requestedAt == s.now
    requires passes == s.passes || (Lasting(c, row) && passes == s.passes + [Pass(row.partnerId, s.now)])
    ensures Covered(c, s.(rows := s.rows + [row], passes := passes))
  {
    forall p: nat, since: int | since >= s.now - c.windowMs
      ensures PassesIn(passes, p, since, s.now) <= CountLasting(c, s.rows + [row], p, since)
    {
      LastingAppend(c, s.rows, row, p, since);
      PassAppend(s.passes, Pass(row.partnerId, s.now), p, since, s.now);
      assert PassesIn(s.passes, p, since, s.now) <= CountLasting(c, s.rows, p, since);
    }
  }

  lemma ElapseKeepsInv(c: Config, s: System, ms: nat)
    requires Inv(c, s) && MayElapse(c, s, ms)
    ensures Inv(c, s.(now := s.now + ms))
  {
    forall p: nat, since: int | since >= s.now + ms - c.windowMs
      ensures PassesIn(s.passes, p, since, s.now + ms) <= CountLasting(c, s.rows, p, since)
      ensures PassesIn(s.passes, p, since, s.now + ms) + |AllowedCalls(s.pending, p)| <= Limit(c)
    {
      PassesWiden(s.passes, p, since, s.now + ms, since, s.now);
      assert PassesIn(s.passes, p, since, s.now) <= CountLasting(c, s.rows, p, since);
    }
  }

  lemma CleanupKeepsInv(c: Config, s: System)
    requires RemembersWindow(c) && Inv(c, s)
    ensures Inv(c, s.(rows := Retained(c, s.rows, s.now)))
  {
    forall p: nat, since: int | since >= s.now - c.windowMs
      ensures PassesIn(s.passes, p, since, s.now) <= CountLasting(c, Retained(c, s.rows, s.now), p, since)
    {
      RetainedCount(c, s.rows, s.now, p, since);
      assert PassesIn(s.passes, p, since, s.now) <= CountLasting(c, s.rows, p, since);
    }
  }

  lemma AddedCalls(pending: map<int, Pending>, call: int, p: Pending, partnerId: nat)
    requires call !in pending
    ensures |AllowedCalls(pending[call := p], partnerId)|
            == |AllowedCalls(pending, partnerId)| + if p.allowed && p.partnerId == partnerId then 1 else 0
  {
    if p.allowed && p.partnerId == partnerId {
      assert AllowedCalls(pending[call := p], partnerId) == AllowedCalls(pending, partnerId) + {call};
    } else {
      assert AllowedCalls(pending[call := p], partnerId) == AllowedCalls(pending, partnerId);
    }
  }

  lemma RemovedCall(pending: map<int, Pending>, call: int, partnerId: nat)
    requires call in pending
    ensures |AllowedCalls(pending, partnerId)| == |AllowedCalls(pending - {call}, partnerId)|
            + if pending[call].allowed && pending[call].partnerId == partnerId then 1 else 0
  {
    if pending[call].allowed && pending[call].partnerId == partnerId {
      assert AllowedCalls(pending, partnerId) == AllowedCalls(pending - {call}, partnerId) + {call};
    } else {
      assert AllowedCalls(pending, partnerId) == AllowedCalls(pending - {call}, partnerId);
    }
  }

  /** A check that allows a lookup has seen fewer than the maximum; with it at most `overlap` are to be recorded. */
  lemma CheckKeepsInv(c: Config, s: System, call: int, askedAt: int, p: Pending)
    requires Inv(c, s) && call !in s.pending && Permitted(c, p.retention) && s.now <= p.datedAt + c.delayMs
    requires p.allowed ==> CountSince(s.rows, p.partnerId, askedAt - c.windowMs) < c.maxRequests
                           && |AllowedCalls(s.pending, p.partnerId)| < c.overlap
    requires askedAt <= s.now
    ensures Inv(c, s.(pending := s.pending[call := p]))
  {
    forall q: nat, since: int | since >= s.now - c.windowMs
      ensures PassesIn(s.passes, q, since, s.now) + |AllowedCalls(s.pending[call := p], q)| <= Limit(c)
    {
      AddedCalls(s.pending, call, p, q);
      assert PassesIn(s.passes, q, since, s.now) + |AllowedCalls(s.pending, q)| <= Limit(c);
      assert PassesIn(s.passes, q, since, s.now) <= CountLasting(c, s.rows, q, since);
      LastingAreRows(c, s.rows, q, since);
      CountNarrows(s.rows, q, askedAt - c.windowMs, since);
    }
    hide CountSince, CountLasting, PassesIn;
  }

  /** Recording moves a lookup from those to come to those that were, and leaves their sum. */
  lemma PassKeepsHeadroom(c: Config, s: System, call: int)
    requires Headroom(c, s) && call in s.pending && s.pending[call].allowed
    ensures Headroom(c, s.(pending := s.pending - {call},
                           passes := s.passes + [Pass(s.pending[call].partnerId, s.now)]))
  {
    var p := s.pending[call];
    forall q: nat, since: int | since >= s.now - c.windowMs
      ensures PassesIn(s.passes + [Pass(p.partnerId, s.now)], q, since, s.now)
              + |AllowedCalls(s.pending - {call}, q)| <= Limit(c)
    {
      RemovedCall(s.pending, call, q);
      PassAppend(s.passes, Pass(p.partnerId, s.now), q, since, s.now);
      assert PassesIn(s.passes, q, since, s.now) + |AllowedCalls(s.pending, q)| <= Limit(c);
    }
  }

  lemma RemovalKeepsHeadroom(c: Config, s: System, call: int)
    requires Headroom(c, s)
    ensures Headroom(c, s.(pending := s.pending - {call}))
  {
    forall q: nat, since: int | since >= s.now - c.windowMs
      ensures PassesIn(s.passes, q, since, s.now) + |AllowedCalls(s.pending - {call}, q)| <= Limit(c)
    {
      assert PassesIn(s.passes, q, since, s.now) + |AllowedCalls(s.pending, q)| <= Limit(c);
      if call in s.pending {
        RemovedCall(s.pending, call, q);
      } else {
        assert s.pending - {call} == s.pending;
      }
    }
  }

  lemma PassKeepsWithin(c: Config, s: System, call: int)
    requires Within(c, s, Limit(c)) && Headroom(c, s) && Dated(c, s) && call in s.pending && s.pending[call].allowed
    ensures Within(c, s.(passes := s.passes + [Pass(s.pending[call].partnerId, s.now)]), Limit(c))
  {
    var p := s.pending[call];
    forall q: nat, from: int
      ensures InWindow(c, s.passes + [Pass(p.partnerId, s.now)], q, from) <= Limit(c)
    {
      PassAppend(s.passes, Pass(p.partnerId, s.now), q, from, from + c.windowMs);
      if q == p.partnerId && from <= s.now <= from + c.windowMs {
        PassesWiden(s.passes, q, from, from + c.windowMs, from, s.now);
        assert PassesIn(s.passes, q, from, s.now) + |AllowedCalls(s.pending, q)| <= Limit(c);
        RemovedCall(s.pending, call, q);
      } else {
        assert InWindow(c, s.passes, q, from) <= Limit(c);
      }
    }
  }

  lemma FinishKeepsInv(c: Config, s: System, call: int)
    requires Inv(c, s) && call in s.pending && s.pending[call].allowed
    ensures Inv(c, Step(c, s, Finish(call)))
  {
    var p := s.pending[call];
    var row := RowAt(s.now, p.datedAt, p.partnerId, p.key, p.retention);
    RecordKeepsCovered(c, s, row, s.passes + [Pass(p.partnerId, s.now)]);
    PassKeepsHeadroom(c, s, call);
    PassKeepsWithin(c, s, call);
    hide CountSince, CountLasting, PassesIn, InWindow, AllowedCalls;
  }

  lemma BlockKeepsInv(c: Config, s: System, call: int, row: RequestRow)
    requires Inv(c, s) && row.requestedAt == s.now
    ensures Inv(c, s.(rows := s.rows + [row], pending := s.pending - {call}))
  {
    RecordKeepsCovered(c, s, row, s.passes);
    RemovalKeepsHeadroom(c, s, call);
    hide CountSince, CountLasting, PassesIn, InWindow, AllowedCalls;
  }

  lemma StepKeepsInv(c: Config, s: System, e: Event)
    requires c.Valid() && RemembersWindow(c) && Inv(c, s)
    ensures Inv(c, Step(c, s, e))
  {
    hide CountSince, CountLasting, PassesIn, InWindow, Retained, AllowedCalls, RowAt;
    match e {
      case Elapse(ms) =>
        if MayElapse(c, s, ms) {
          ElapseKeepsInv(c, s, ms);
        }
      case Check(call, partnerId, key, retention, datedAt, askedAt, recentKeys) =>
        if Step(c, s, e) != s {
          var allowed := Evaluate(c, s.rows, askedAt, partnerId, key, recentKeys) == Allowed;
          CheckKeepsInv(c, s, call, askedAt, Pending(partnerId, key, retention, datedAt, allowed));
        }
      case Finish(call) =>
        if call in s.pending && s.pending[call].allowed {
          FinishKeepsInv(c, s, call);
        }
      case Block(call, datedAt) =>
        if call in s.pending && !s.pending[call].allowed {
          var p := s.pending[call];
          RowIsOfNow(s.now, datedAt, p.partnerId, p.key, p.retention);
          BlockKeepsInv(c, s, call, RowAt(s.now, datedAt, p.partnerId, p.key, p.retention));
        }
      case Drop(call) => RemovalKeepsHeadroom(c, s, call);
      case BatchRow(partnerId, key, retention, datedAt) =>
        RowIsOfNow(s.now, datedAt, partnerId, key, retention);
        RecordKeepsCovered(c, s, RowAt(s.now, datedAt, partnerId, key, retention), s.passes);
      case Cleanup => CleanupKeepsInv(c, s);
    }
  }

  lemma RowIsOfNow(now: int, datedAt: int, partnerId: nat, key: LookupKey, r: Retention)
    ensures RowAt(now, datedAt, partnerId, key, r).requestedAt == now
  {
  }

  lemma {:induction false} RunKeepsInv(c: Config, s: System, events: seq<Event>)
    requires c.Valid() && RemembersWindow(c) && Inv(c, s)
    ensures Inv(c, Run(Machine(c), s, events))
    decreases |events|
  {
    if events != [] {
      StepKeepsInv(c, s, events[0]);
      RunKeepsInv(c, Step(c, s, events[0]), events[1..]);
    }
  }

  // ---- runs that reach and exceed the limit ----

  const ANYONE := RecipientKey("")

  /** The first `k` lookups by number. */
  function Calls(k: nat): (calls: set<int>)
    ensures |calls| == k && forall call :: call in calls <==> 0 <= call < k
  {
    if k == 0 then {} else Calls(k - 1) + {k - 1}
  }

  /** All at one instant, as late after dating their retention as may be, `n` lookups of partner 0 allowed and recorded,
      and `k` more checked. */
  ghost predicate Crowd(s: System, start: int, at: int, r: Retention, n: nat, k: nat) {
    && s.now == at && |s.rows| == n && |s.passes| == n
    && (forall i :: 0 <= i < n ==> s.rows[i] == RowAt(at, start, 0, ANYONE, r) && s.passes[i] == Pass(0, at))
    && (forall call :: call in s.pending <==> 0 <= call < k)
    && (forall call :: call in s.pending ==> s.pending[call] == Pending(0, ANYONE, r, start, true))
  }

  lemma CrowdCalls(pending: map<int, Pending>, k: nat)
    requires forall call :: call in pending <==> 0 <= call < k
    requires forall call :: call in pending ==> pending[call].allowed && pending[call].partnerId == 0
    ensures |AllowedCalls(pending, 0)| == k
  {
    assert AllowedCalls(pending, 0) == Calls(k);
  }

  lemma AllowsAnyone(c: Config, rows: seq<RequestRow>, now: int)
    requires c.Valid() && |rows| < c.maxRequests
    ensures Evaluate(c, rows, now, 0, ANYONE, []) == Allowed
  {
    CountBound(rows, 0, now - c.windowMs);
    assert (set key: LookupKey | key in []) == {};
  }

  lemma ChecksInOnce(c: Config, start: int, s: System, r: Retention, k: nat)
    requires c.Valid() && Permitted(c, r) && |s.rows| < c.maxRequests && k !in s.pending
    requires s.now == start + c.delayMs
    requires |AllowedCalls(s.pending, 0)| < c.overlap
    ensures Step(c, s, Check(k, 0, ANYONE, r, start, s.now, []))
            == s.(pending := s.pending[k := Pending(0, ANYONE, r, start, true)])
  {
    AllowsAnyone(c, s.rows, s.now);
    hide Evaluate, AllowedCalls, Permitted;
  }

  lemma CrowdIsAllowed(start: int, at: int, s: System, r: Retention, n: nat, k: nat)
    requires Crowd(s, start, at, r, n, k)
    ensures k !in s.pending && |AllowedCalls(s.pending, 0)| == k && |s.rows| == n && s.now == at
  {
    CrowdCalls(s.pending, k);
  }

  lemma CrowdGrows(start: int, at: int, s: System, pending: map<int, Pending>, r: Retention, n: nat, k: nat)
    requires Crowd(s, start, at, r, n, k) && pending == s.pending[k := Pending(0, ANYONE, r, start, true)]
    ensures Crowd(s.(pending := pending), start, at, r, n, k + 1)
  {
    hide RowAt;
  }

  /** One more lookup checks in. */
  lemma ChecksIn(c: Config, start: int, s: System, r: Retention, n: nat, k: nat) returns (s': System)
    requires c.Valid() && Permitted(c, r) && Reached(Machine(c), Init(start), s) && Crowd(s, start, start + c.delayMs, r, n, k)
    requires n < c.maxRequests && k < c.overlap
    ensures Reached(Machine(c), Init(start), s') && Crowd(s', start, start + c.delayMs, r, n, k + 1)
  {
    hide Reached, Crowd, Step, AllowedCalls;
    CrowdIsAllowed(start, start + c.delayMs, s, r, n, k);
    CrowdGrows(start, start + c.delayMs, s, s.pending[k := Pending(0, ANYONE, r, start, true)], r, n, k);
    ChecksInOnce(c, start, s, r, k);
    s' := Step(c, s, Check(k, 0, ANYONE, r, start, s.now, []));
    ReachedStep(Machine(c), Init(start), s, Check(k, 0, ANYONE, r, start, s.now, []));
  }

  /** The last that checked in is recorded. */
  lemma ChecksOut(c: Config, start: int, s: System, r: Retention, n: nat, k: nat) returns (s': System)
    requires Reached(Machine(c), Init(start), s) && Crowd(s, start, start + c.delayMs, r, n, k) && k > 0
    ensures Reached(Machine(c), Init(start), s') && Crowd(s', start, start + c.delayMs, r, n + 1, k - 1)
  {
    ReachedStep(Machine(c), Init(start), s, Finish(k - 1));
    s' := Step(c, s, Finish(k - 1));
    hide Reached;
    assert k - 1 in s.pending;
  }

  /** `n` lookups one after the other. */
  lemma {:induction false} Burst(c: Config, start: int, r: Retention, n: nat) returns (s: System)
    requires c.Valid() && Permitted(c, r) && n < c.maxRequests
    ensures Reached(Machine(c), Init(start), s) && Crowd(s, start, start + c.delayMs, r, n, 0)
  {
    if n == 0 {
      StartIsReached(Machine(c), Init(start));
      ReachedStep(Machine(c), Init(start), Init(start), Elapse(c.delayMs));
      s := Step(c, Init(start), Elapse(c.delayMs));
    } else {
      hide Reached, Crowd;
      s := Burst(c, start, r, n - 1);
      s := ChecksIn(c, start, s, r, n - 1, 0);
      s := ChecksOut(c, start, s, r, n - 1, 1);
    }
  }

  /** All but one of the maximum recorded, then `k` at once checked. */
  lemma {:induction false} Herd(c: Config, start: int, r: Retention, k: nat) returns (s: System)
    requires c.Valid() && Permitted(c, r) && k <= c.overlap
    ensures Reached(Machine(c), Init(start), s) && Crowd(s, start, start + c.delayMs, r, c.maxRequests - 1, k)
  {
    hide Reached, Crowd;
    if k == 0 {
      s := Burst(c, start, r, c.maxRequests - 1);
    } else {
      s := Herd(c, start, r, k - 1);
      s := ChecksIn(c, start, s, r, c.maxRequests - 1, k - 1);
    }
  }

  /** They are recorded one by one. */
  lemma {:induction false} Recorded(c: Config, start: int, r: Retention, k: nat) returns (s: System)
    requires c.Valid() && Permitted(c, r) && k <= c.overlap
    ensures Reached(Machine(c), Init(start), s) && Crowd(s, start, start + c.delayMs, r, c.maxRequests - 1 + k, c.overlap - k)
  {
    hide Reached, Crowd;
    if k == 0 {
      s := Herd(c, start, r, c.overlap);
    } else {
      s := Recorded(c, start, r, k - 1);
      s := ChecksOut(c, start, s, r, c.maxRequests - 2 + k, c.overlap - k + 1);
    }
  }

  lemma {:induction false} AllPassesCount(passes: seq<Pass>, at: int, to: int)
    requires at <= to && forall i :: 0 <= i < |passes| ==> passes[i] == Pass(0, at)
    ensures PassesIn(passes, 0, at, to) == |passes|
  {
    if passes != [] {
      AllPassesCount(passes[..|passes| - 1], at, to);
    }
  }

  /** A window filled to the limit. */
  lemma FullWindow(c: Config, start: int, r: Retention) returns (s: System)
    requires c.Valid() && Permitted(c, r)
    ensures Reached(Machine(c), Init(start), s) && Crowd(s, start, start + c.delayMs, r, c.maxRequests - 1 + c.overlap, 0)
    ensures InWindow(c, s.passes, 0, start + c.delayMs) == Limit(c)
  {
    s := Recorded(c, start, r, c.overlap);
    AllPassesCount(s.passes, start + c.delayMs, start + c.delayMs + c.windowMs);
  }

  lemma {:induction false} CountBound(rows: seq<RequestRow>, partnerId: nat, since: int)
    ensures CountSince(rows, partnerId, since) <= |rows|
  {
    if rows != [] {
      CountBound(rows[..|rows| - 1], partnerId, since);
    }
  }

  lemma {:induction false} NothingRetained(c: Config, rows: seq<RequestRow>, now: int)
    requires forall i :: 0 <= i < |rows| ==> !Kept(c, rows[i], now)
    ensures Retained(c, rows, now) == []
  {
    if rows != [] {
      NothingRetained(c, rows[..|rows| - 1], now);
    }
  }

  /** How long after its record such a row is gone. */
  function Oblivion(c: Config, r: Retention): nat {
    if r.StandardRetention? then c.retentionMs + 1
    else if r.hours * HOUR_MS >= c.delayMs then r.hours * HOUR_MS - c.delayMs
    else 0
  }

  /** A crowd waits until its rows may go, and they go. */
  lemma Forgets(c: Config, start: int, s: System, r: Retention, n: nat) returns (s': System)
    requires c.Valid() && Reached(Machine(c), Init(start), s) && Crowd(s, start, start + c.delayMs, r, n, 0)
    ensures Reached(Machine(c), Init(start), s') && s' == s.(now := s.now + Oblivion(c, r), rows := []) && s'.pending == map[]
  {
    hide Reached;
    ReachedStep(Machine(c), Init(start), s, Elapse(Oblivion(c, r)));
    var waited := s.(now := s.now + Oblivion(c, r));
    NothingRetained(c, waited.rows, waited.now);
    hide Retained;
    ReachedStep(Machine(c), Init(start), waited, Cleanup);
    s' := waited.(rows := []);
    assert forall call :: call !in s'.pending;
  }

  /** If a retention ends inside the window, a full window can be forgotten and one more lookup allowed. */
  lemma ForgottenWindow(c: Config, start: int) returns (s: System)
    requires c.Valid() && !RemembersWindow(c)
    ensures Reached(Machine(c), Init(start), s) && !Within(c, s, Limit(c))
  {
    var r := if c.minHours * HOUR_MS <= c.windowMs + c.delayMs then ShortRetention(c.minHours) else StandardRetention;
    assert Oblivion(c, r) <= c.windowMs;
    var at := start + c.delayMs;
    var s1 := FullWindow(c, start, r);
    assert s1.now == at;
    hide Reached, Crowd, Oblivion;
    var s2 := Forgets(c, start, s1, r, c.maxRequests - 1 + c.overlap);
    s := OneMore(c, start, s2, r);
    PassAppend(s2.passes, Pass(0, s2.now), 0, at, at + c.windowMs);
    assert InWindow(c, s.passes, 0, at) == Limit(c) + 1;
  }

  lemma OneMore(c: Config, start: int, s: System, r: Retention) returns (s': System)
    requires c.Valid() && Permitted(c, r) && Reached(Machine(c), Init(start), s) && s.rows == [] && s.pending == map[]
    ensures Reached(Machine(c), Init(start), s') && s'.passes == s.passes + [Pass(0, s.now)]
  {
    hide Reached;
    var e := Check(0, 0, ANYONE, r, s.now, s.now, []);
    ReachedStep(Machine(c), Init(start), s, e);
    AllowsAnyone(c, s.rows, s.now);
    assert AllowedCalls(s.pending, 0) == {};
    var s1 := Step(c, s, e);
    ReachedStep(Machine(c), Init(start), s1, Finish(0));
    s' := Step(c, s1, Finish(0));
  }

  /** In every run, with blocked lookups, batch rows and cleanups in between, no window holds more than `bound`. */
  ghost predicate AlwaysWithin(c: Config, bound: int) {
    forall start, events :: Within(c, Run(Machine(c), Init(start), events), bound)
  }

  lemma InitIsInv(c: Config, start: int)
    requires c.Valid()
    ensures Inv(c, Init(start))
  {
    assert forall p: nat :: AllowedCalls(map[], p) == {};
  }

  /**
   With at most `overlap` lookups of a partner between check and record, no window ever holds more than the maximum
   and the overlap less one, exactly when every short retention is longer than the window and the longest lookup
   together, and the standard retention at least as long as the window.
   */
  lemma SlidingWindow(c: Config)
    requires c.Valid()
    ensures AlwaysWithin(c, c.maxRequests + c.overlap - 1) <==>
            c.minHours * HOUR_MS > c.windowMs + c.delayMs && c.retentionMs >= c.windowMs
  {
    if RemembersWindow(c) {
      forall start, events ensures Within(c, Run(Machine(c), Init(start), events), Limit(c)) {
        InitIsInv(c, start);
        RunKeepsInv(c, Init(start), events);
      }
    } else {
      var s := ForgottenWindow(c, 0);
      var events := EventsTo(Machine(c), Init(0), s);
      assert !Within(c, Run(Machine(c), Init(0), events), Limit(c));
    }
  }

  /** No smaller bound will do; in particular the configured maximum is kept exactly when lookups do not overlap. */
  lemma LimitIsTight(c: Config, bound: int)
    requires c.Valid() && c.minHours * HOUR_MS > c.windowMs + c.delayMs && c.retentionMs >= c.windowMs
    ensures AlwaysWithin(c, bound) <==> bound >= c.maxRequests + c.overlap - 1
    ensures AlwaysWithin(c, c.maxRequests) <==> c.overlap == 1
  {
    SlidingWindow(c);
    forall b: int ensures AlwaysWithin(c, b) <==> b >= Limit(c) {
      if b >= Limit(c) {
        forall start, events ensures Within(c, Run(Machine(c), Init(start), events), b) {
          assert Within(c, Run(Machine(c), Init(start), events), Limit(c));
        }
      } else {
        var s := FullWindow(c, 0, StandardRetention);
        var events := EventsTo(Machine(c), Init(0), s);
        assert !Within(c, Run(Machine(c), Init(0), events), b);
      }
    }
  }

  /** The default settings (a 60 s window, 30 days of standard retention) keep the limit for every short retention a
      partner can choose, which is at least an hour, exactly while lookups take less than an hour less the window. */
  lemma DefaultsAreBounded(overlap: nat, delayMs: nat)
    requires overlap >= 1
    ensures AlwaysWithin(Config(60_000, 120, 40, 2_592_000_000, 1, overlap, delayMs), 119 + overlap) <==>
            delayMs < 3_540_000
  {
    SlidingWindow(Config(60_000, 120, 40, 2_592_000_000, 1, overlap, delayMs));
  }
}
