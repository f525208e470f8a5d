/**
 The Idempotency-Key protocol of resolve, confirmAddress and verify (backend/src/resolution/resolution.service.ts)
 for one partner and query type: look the key up, compute a response, insert it, and on a unique violation read
 the winner's row. Keys, fingerprints and responses are numbers.
 */
module Idempotency {
  import opened Wrappers
  import opened Runs

  /**
   `indexed`: the request table has the unique index on (requesterPartnerId, queryType, idempotencyKey).
   `atomic`: no other call comes between a call's lookup and its insert.
   */
  datatype Config = Config(indexed: bool, atomic: bool)

  datatype Row = Row(key: Option<nat>, fingerprint: nat, response: nat)

  datatype Outcome = Responded(response: nat) | KeyConflict | Failed

  predicate HasKey(rows: map<nat, Row>, key: nat) {
    exists id | id in rows :: rows[id].key == Some(key)
  }

  /** `found` is an answer of the unordered findFirst by key. */
  predicate Answers(rows: map<nat, Row>, key: nat, found: Option<nat>) {
    match found
    case None => !HasKey(rows, key)
    case Some(id) => id in rows && rows[id].key == Some(key)
  }

  /** What a found row means for a call: its response, or a conflict. */
  function Judge(row: Row, fingerprint: nat): Outcome {
    if row.fingerprint != fingerprint then KeyConflict else Responded(row.response)
  }

  predicate Violates(c: Config, rows: map<nat, Row>, key: Option<nat>) {
    c.indexed && key.Some? && HasKey(rows, key.value)
  }

  /** The request table as an object. */
  class ResolutionRequestStore {
    const config: Config
    var rows: map<nat, Row>
    var nextId: nat

    ghost predicate Valid()
      reads this
    {
      forall id :: id in rows ==> id < nextId
    }

    /** A row of the key holds this request and its response. */
    ghost predicate Stored(key: Option<nat>, fingerprint: nat, response: nat)
      reads this
    {
      exists id | id in rows :: key.Some? && rows[id] == Row(key, fingerprint, response)
    }

    /** A row of the key holds another request. */
    ghost predicate OtherRequest(key: Option<nat>, fingerprint: nat)
      reads this
    {
      exists id | id in rows :: key.Some? && rows[id].key == key && rows[id].fingerprint != fingerprint
    }

    constructor (config: Config)
      ensures Valid() && this.config == config && rows == map[]
    {
      this.config := config;
      rows, nextId := map[], 0;
    }

    method FindStoredIdempotentRequest(key: Option<nat>, fingerprint: nat, found: Option<nat>)
      returns (r: Option<Outcome>)
      requires key.Some? ==> Answers(rows, key.value, found)
      ensures r.None? <==> key.None? || !HasKey(rows, key.value)
      ensures forall x :: r == Some(Responded(x)) ==> Stored(key, fingerprint, x)
      ensures r == Some(KeyConflict) ==> OtherRequest(key, fingerprint)
      ensures r != Some(Failed)
      ensures r.Some? ==> found.Some? && r.value == Judge(rows[found.value], fingerprint)
    {
      if key == None || found == None { return None; }
      if rows[found.value].fingerprint != fingerprint { return Some(KeyConflict); }
      r := Some(Responded(rows[found.value].response));
    }

    method RecordResolutionRequest(key: Option<nat>, fingerprint: nat, response: nat) returns (created: bool)
      requires Valid()
      modifies this
      ensures Valid()
      ensures created <==> !Violates(config, old(rows), key)
      ensures rows == if created then old(rows)[old(nextId) := Row(key, fingerprint, response)] else old(rows)
    {
      if config.indexed && key.Some? && HasKey(rows, key.value) { return false; }
      rows := rows[nextId := Row(key, fingerprint, response)];
      nextId := nextId + 1;
      created := true;
    }

    /** One undisturbed call. `response` is what the lookup computes if it comes to that. */
    method Serve(key: Option<nat>, fingerprint: nat, response: nat, found: Option<nat>) returns (o: Outcome)
      requires Valid() && (key.Some? ==> Answers(rows, key.value, found))
      modifies this
      ensures Valid()
      ensures key.Some? && found.Some? ==> o == Judge(old(rows)[found.value], fingerprint) && rows == old(rows)
      ensures key.None? || found.None? ==>
                o == Responded(response) && rows == old(rows)[old(nextId) := Row(key, fingerprint, response)]
    {
      var stored := FindStoredIdempotentRequest(key, fingerprint, found);
      if stored.Some? { return stored.value; }
      var created := RecordResolutionRequest(key, fingerprint, response);
      o := Responded(response);
    }
  }

  // ---- concurrent calls ----

  datatype Call =
    | Started(key: Option<nat>, fingerprint: nat)
    | Computing(key: Option<nat>, fingerprint: nat)
    | Computed(key: Option<nat>, fingerprint: nat, response: nat)
    | Violated(key: Option<nat>, fingerprint: nat)

  /** A finished call; `epoch` counts the cleanups that had removed a row of its key. */
  datatype Finished = Finished(key: Option<nat>, fingerprint: nat, outcome: Outcome, epoch: nat)

  datatype System = System(
    rows: map<nat, Row>,
    nextId: nat,
    calls: map<int, Call>,
    epochs: map<nat, nat>,
    finished: seq<Finished>)

  datatype Event =
    | Start(call: int, key: Option<nat>, fingerprint: nat)
    | Lookup(call: int, found: Option<nat>, response: nat)
    | Compute(call: int, response: nat)
    | Insert(call: int)
    | Reread(call: int, found: Option<nat>)
    | Drop(call: int)
    | Cleanup(ids: set<nat>)

  const INIT := System(map[], 0, map[], map[], [])

  function EpochOf(s: System, key: Option<nat>): nat {
    if key.Some? && key.value in s.epochs then s.epochs[key.value] else 0
  }

  function End(s: System, call: int, key: Option<nat>, fingerprint: nat, outcome: Outcome): System {
    s.(calls := s.calls - {call}, finished := s.finished + [Finished(key, fingerprint, outcome, EpochOf(s, key))])
  }

  function Store(s: System, call: int, key: Option<nat>, fingerprint: nat, response: nat): System {
    End(s.(rows := s.rows[s.nextId := Row(key, fingerprint, response)], nextId := s.nextId + 1),
        call, key, fingerprint, Responded(response))
  }

  function RemovedKeys(rows: map<nat, Row>, ids: set<nat>): set<nat> {
    set id | id in rows && id in ids && rows[id].key.Some? :: rows[id].key.value
  }

  function Step(c: Config, s: System, e: Event): System {
    match e
    case Start(call, key, fingerprint) =>
      if call in s.calls then s else s.(calls := s.calls[call := Started(key, fingerprint)])
    case Lookup(call, found, response) =>
      if call !in s.calls || !s.calls[call].Started? then s
      else
        var Started(key, fingerprint) := s.calls[call];
        if key.Some? && !Answers(s.rows, key.value, found) then s
        else if key.Some? && found.Some? then End(s, call, key, fingerprint, Judge(s.rows[found.value], fingerprint))
        else if c.atomic then Store(s, call, key, fingerprint, response)
        else s.(calls := s.calls[call := Computing(key, fingerprint)])
    case Compute(call, response) =>
      if call !in s.calls || !s.calls[call].Computing? then s
      else s.(calls := s.calls[call := Computed(s.calls[call].key, s.calls[call].fingerprint, response)])
    case Insert(call) =>
      if call !in s.calls || !s.calls[call].Computed? then s
      else
        var Computed(key, fingerprint, response) := s.calls[call];
        if Violates(c, s.rows, key) then s.(calls := s.calls[call := Violated(key, fingerprint)])
        else Store(s, call, key, fingerprint, response)
    case Reread(call, found) =>
      if call !in s.calls || !s.calls[call].Violated? then s
      else
        var Violated(key, fingerprint) := s.calls[call];
        if key.Some? && !Answers(s.rows, key.value, found) then s
        else if key.Some? && found.Some? then End(s, call, key, fingerprint, Judge(s.rows[found.value], fingerprint))
        else End(s, call, key, fingerprint, Failed)
    case Drop(call) => s.(calls := s.calls - {call})
    case Cleanup(ids) =>
      s.(rows := s.rows - ids,
         epochs := s.epochs + (map k | k in RemovedKeys(s.rows, ids) :: EpochOf(s, Some(k)) + 1))
  }

  function Machine(c: Config): (System, Event) -> System {
    (s, e) => Step(c, s, e)
  }

  /** Two finished calls with the same key agree: two responses are the same response to the same request, and a
      conflict is only reported to a different request. */
  predicate Agree(f: Finished, g: Finished) {
    f.key.Some? && f.key == g.key && f.epoch == g.epoch && f.outcome.Responded? ==>
      && (g.outcome.Responded? ==> g.fingerprint == f.fingerprint && g.outcome == f.outcome)
      && (g.outcome == KeyConflict ==> g.fingerprint != f.fingerprint)
  }

  /** All calls with one key that finished with no cleanup of that key in between agree. */
  ghost predicate Consistent(s: System) {
    forall i, j :: 0 <= i < |s.finished| && 0 <= j < |s.finished| ==> Agree(s.finished[i], s.finished[j])
  }

  ghost predicate UniqueKeys(rows: map<nat, Row>) {
    forall a, b :: a in rows && b in rows && rows[a].key.Some? && rows[a].key == rows[b].key ==> a == b
  }

  /** A call that finished in the current epoch of its key is explained by a row that is still there. */
  predicate Explains(row: Row, f: Finished) {
    row.key == f.key && Judge(row, f.fingerprint) == f.outcome
  }

  ghost predicate Backed(s: System, f: Finished) {
    && f.epoch <= EpochOf(s, f.key)
    && (f.key.Some? && f.outcome != Failed && f.epoch == EpochOf(s, f.key) ==>
          exists id :: id in s.rows && Explains(s.rows[id], f))
  }

  ghost predicate Inv(c: Config, s: System) {
    && UniqueKeys(s.rows)
    && (forall id :: id in s.rows ==> id < s.nextId)
    && (forall i :: 0 <= i < |s.finished| ==> Backed(s, s.finished[i]))
    && (c.atomic ==> forall call :: call in s.calls ==> s.calls[call].Started?)
    && Consistent(s)
  }

  /** Finishing with what a row says. */
  lemma EndKeepsInv(c: Config, s: System, call: int, key: nat, fingerprint: nat, id: nat)
    requires Inv(c, s) && id in s.rows && s.rows[id].key == Some(key)
    ensures Inv(c, End(s, call, Some(key), fingerprint, Judge(s.rows[id], fingerprint)))
  {
    var f := Finished(Some(key), fingerprint, Judge(s.rows[id], fingerprint), EpochOf(s, Some(key)));
    var s' := End(s, call, Some(key), fingerprint, Judge(s.rows[id], fingerprint));
    assert Explains(s.rows[id], f);
    forall i | 0 <= i < |s.finished| ensures Agree(f, s.finished[i]) && Agree(s.finished[i], f) {
      assert Backed(s, s.finished[i]);
    }
    forall i | 0 <= i < |s'.finished| ensures Backed(s', s'.finished[i]) {
      if i < |s.finished| {
        assert Backed(s, s.finished[i]);
      }
    }
  }

  /** Inserting the first row of a key, or a row without a key, keeps the invariant. */
  lemma StoreKeepsInv(c: Config, s: System, call: int, key: Option<nat>, fingerprint: nat, response: nat)
    requires Inv(c, s) && (key.Some? ==> !HasKey(s.rows, key.value))
    ensures Inv(c, Store(s, call, key, fingerprint, response))
  {
    var row := Row(key, fingerprint, response);
    var f := Finished(key, fingerprint, Responded(response), EpochOf(s, key));
    var s' := Store(s, call, key, fingerprint, response);
    assert s'.rows[s.nextId] == row;
    assert key.Some? ==> Explains(row, f);
    forall i | 0 <= i < |s.finished| ensures Backed(s', s.finished[i]) && Agree(f, s.finished[i]) && Agree(s.finished[i], f) {
      assert Backed(s, s.finished[i]);
      if exists id :: id in s.rows && Explains(s.rows[id], s.finished[i]) {
        var id :| id in s.rows && Explains(s.rows[id], s.finished[i]);
        assert id in s'.rows && s'.rows[id] == s.rows[id];
      }
    }
  }

  lemma CleanupKeepsInv(c: Config, s: System, ids: set<nat>)
    requires Inv(c, s)
    ensures Inv(c, Step(c, s, Cleanup(ids)))
  {
    var s' := Step(c, s, Cleanup(ids));
    forall i | 0 <= i < |s.finished| ensures Backed(s', s.finished[i]) {
      var f := s.finished[i];
      assert Backed(s, f);
      if f.key.Some? && f.outcome != Failed && f.epoch == EpochOf(s', f.key) {
        assert f.key.value !in RemovedKeys(s.rows, ids);
        var id :| id in s.rows && Explains(s.rows[id], f);
        assert id in s'.rows;
      }
    }
  }

  /** A call that ends without a response or a conflict. */
  lemma FailKeepsInv(c: Config, s: System, call: int, key: Option<nat>, fingerprint: nat)
    requires Inv(c, s)
    ensures Inv(c, End(s, call, key, fingerprint, Failed))
  {
    var s' := End(s, call, key, fingerprint, Failed);
    forall i | 0 <= i < |s'.finished| ensures Backed(s', s'.finished[i]) {
      if i < |s.finished| {
        assert Backed(s, s.finished[i]);
      }
    }
  }

  lemma CallsKeepInv(c: Config, s: System, calls: map<int, Call>)
    requires Inv(c, s) && (c.atomic ==> forall call :: call in calls ==> calls[call].Started?)
    ensures Inv(c, s.(calls := calls))
  {
    forall i | 0 <= i < |s.finished| ensures Backed(s.(calls := calls), s.finished[i]) {
      assert Backed(s, s.finished[i]);
    }
  }

  lemma StepKeepsInv(c: Config, s: System, e: Event)
    requires (c.indexed || c.atomic) && Inv(c, s)
    ensures Inv(c, Step(c, s, e))
  {
    assert c.atomic ==> forall call :: call in s.calls ==> s.calls[call].Started?;
    hide Inv;
    match e {
      case Start(call, key, fingerprint) => CallsKeepInv(c, s, Step(c, s, e).calls);
      case Compute(call, _) => CallsKeepInv(c, s, Step(c, s, e).calls);
      case Drop(call) => CallsKeepInv(c, s, Step(c, s, e).calls);
      case Cleanup(ids) => CleanupKeepsInv(c, s, ids);
      case Lookup(call, found, response) =>
        if call in s.calls && s.calls[call].Started? {
          var Started(key, fingerprint) := s.calls[call];
          if key.Some? && found.Some? && Answers(s.rows, key.value, found) {
            EndKeepsInv(c, s, call, key.value, fingerprint, found.value);
          } else if key.None? || Answers(s.rows, key.value, found) {
            StoreKeepsInv(c, s, call, key, fingerprint, response);
            if !c.atomic { CallsKeepInv(c, s, Step(c, s, e).calls); }
          }
        }
      case Insert(call) =>
        if call in s.calls && s.calls[call].Computed? {
          var Computed(key, fingerprint, response) := s.calls[call];
          if Violates(c, s.rows, key) {
            CallsKeepInv(c, s, Step(c, s, e).calls);
          } else {
            StoreKeepsInv(c, s, call, key, fingerprint, response);
          }
        }
      case Reread(call, found) =>
        if call in s.calls && s.calls[call].Violated? {
          var Violated(key, fingerprint) := s.calls[call];
          if key.Some? && found.Some? && Answers(s.rows, key.value, found) {
            EndKeepsInv(c, s, call, key.value, fingerprint, found.value);
          } else {
            FailKeepsInv(c, s, call, key, fingerprint);
          }
        }
    }
  }

  lemma {:induction false} RunKeepsInv(c: Config, s: System, events: seq<Event>)
    requires (c.indexed || c.atomic) && Inv(c, s)
    ensures Inv(c, Run(Machine(c), s, events))
    decreases |events|
  {
    if events != [] {
      StepKeepsInv(c, s, events[0]);
      RunKeepsInv(c, Step(c, s, events[0]), events[1..]);
    }
  }

  // ---- the run that breaks the promise ----

  /** A call for key 0 that found no row and has computed its response. */
  lemma ReachedComputed(c: Config, s: System, call: int, response: nat)
    requires !c.atomic && Reached(Machine(c), INIT, s) && call !in s.calls && s.rows == map[]
    ensures Reached(Machine(c), INIT, s.(calls := s.calls[call := Computed(Some(0), 0, response)]))
  {
    hide Reached;
    ReachedStep(Machine(c), INIT, s, Start(call, Some(0), 0));
    var s1 := Step(c, s, Start(call, Some(0), 0));
    ReachedStep(Machine(c), INIT, s1, Lookup(call, None, 0));
    var s2 := Step(c, s1, Lookup(call, None, 0));
    assert s2.calls == s.calls[call := Computing(Some(0), 0)];
    ReachedStep(Machine(c), INIT, s2, Compute(call, response));
    assert s2.calls[call := Computed(Some(0), 0, response)] == s.calls[call := Computed(Some(0), 0, response)];
  }

  /** Two overlapping retries both find nothing, compute different responses and both insert. */
  lemma OverlappingRetriesDisagree(c: Config) returns (s: System)
    requires !c.indexed && !c.atomic
    ensures Reached(Machine(c), INIT, s) && !Consistent(s)
  {
    hide Reached;
    StartIsReached(Machine(c), INIT);
    ReachedComputed(c, INIT, 1, 1);
    var s1 := INIT.(calls := map[1 := Computed(Some(0), 0, 1)]);
    assert INIT.calls[1 := Computed(Some(0), 0, 1)] == s1.calls;
    ReachedComputed(c, s1, 2, 2);
    var s2 := s1.(calls := s1.calls[2 := Computed(Some(0), 0, 2)]);
    ReachedStep(Machine(c), INIT, s2, Insert(1));
    var s3 := Step(c, s2, Insert(1));
    assert s3.calls == map[2 := Computed(Some(0), 0, 2)];
    ReachedStep(Machine(c), INIT, s3, Insert(2));
    s := Step(c, s3, Insert(2));
    assert s.finished == [Finished(Some(0), 0, Responded(1), 0), Finished(Some(0), 0, Responded(2), 0)];
    assert !Agree(s.finished[0], s.finished[1]);
  }

  // ---- the theorems ----

  /** In every interleaving, calls that share a key agree until a cleanup removes the key's row. */
  ghost predicate AlwaysConsistent(c: Config) {
    forall events :: Consistent(Run(Machine(c), INIT, events))
  }

  /** That holds exactly when the unique index exists or calls with the same key never overlap. */
  lemma IdempotencyProtocol(c: Config)
    ensures AlwaysConsistent(c) <==> c.indexed || c.atomic
  {
    if c.indexed || c.atomic {
      forall events ensures Consistent(Run(Machine(c), INIT, events)) {
        RunKeepsInv(c, INIT, events);
      }
    } else {
      var s := OverlappingRetriesDisagree(c);
      var events := EventsTo(Machine(c), INIT, s);
      assert !Consistent(Run(Machine(c), INIT, events));
    }
  }

  /** With the index, what a call reported is what the one stored row of its key says, for as long as no cleanup
      has removed it. */
  lemma ReportedIsStored(c: Config, events: seq<Event>, i: nat) returns (id: nat)
    requires c.indexed || c.atomic
    requires i < |Run(Machine(c), INIT, events).finished|
    requires var s := Run(Machine(c), INIT, events);
             var f := s.finished[i];
             f.key.Some? && f.outcome != Failed && f.epoch == EpochOf(s, f.key)
    ensures var s := Run(Machine(c), INIT, events);
            var f := s.finished[i];
            && id in s.rows && s.rows[id].key == f.key
            && (f.outcome.Responded? ==>
                  f.fingerprint == s.rows[id].fingerprint && f.outcome.response == s.rows[id].response)
            && (f.outcome == KeyConflict ==> f.fingerprint != s.rows[id].fingerprint)
            && (forall other :: other in s.rows && s.rows[other].key == f.key ==> other == id)
  {
    RunKeepsInv(c, INIT, events);
    var s := Run(Machine(c), INIT, events);
    assert Backed(s, s.finished[i]);
    id :| id in s.rows && Explains(s.rows[id], s.finished[i]);
  }
}
