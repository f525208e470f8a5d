/** The registry's main results over whole runs. */
module RegistryLog {
  import opened Wrappers
  import opened Text
  import opened Normalization
  import opened Registry
  import opened RegistryTheorems
  import opened RegistryMeaning

  // ---- log refinement ----

  /** Change `i` takes the assignment of `key` out of force. */
  predicate Ends(change: Change, key: DestinationKey) {
    match change
    case Assigned(other, _) => other.slot == key.slot
    case Withdrawn(other) => other == key
  }

  /** Change `i` assigns `key`, and nothing since has taken its slot or withdrawn it. */
  predicate InForce(log: seq<Change>, i: nat, key: DestinationKey) {
    && i < |log| && log[i].Assigned? && log[i].key == key
    && forall j :: i < j < |log| ==> !Ends(log[j], key)
  }

  /** The replay holds exactly the assignments in force, one per slot. */
  lemma {:induction false} ReplayMeaning(log: seq<Change>, key: DestinationKey)
    ensures (key.slot in Replay(log) && Replay(log)[key.slot].key == key) <==> exists i: nat :: InForce(log, i, key)
    ensures forall i: nat :: InForce(log, i, key) ==>
      key.slot in Replay(log) && Replay(log)[key.slot] == Holder(key, log[i].binding)
    decreases |log|
  {
    if log != [] {
      var n := |log| - 1;
      var before, change := log[..n], log[n];
      ReplayMeaning(before, key);
      assert Replay(log) == Apply(Replay(before), change);
      if change.Assigned? && change.key == key {
        assert InForce(log, n, key);
      }
      forall i: nat | i < n ensures InForce(log, i, key) <==> InForce(before, i, key) && !Ends(change, key) {
        assert log[i] == before[i];
        if InForce(log, i, key) {
          assert forall j :: i < j < n ==> before[j] == log[j];
        }
      }
      if i: nat :| InForce(before, i, key) && !Ends(change, key) {
        assert InForce(log, i, key);
      }
    }
  }

  /**
   At every point of every run, a destination is ACTIVE exactly when some accepted attestation assigned it and no later
   accepted call assigned its slot anew or withdrew that same address and memo; the row then carries that
   attestation's terms, and the attestation passed the gate and was made by the recipient's own partner under its slug.
   */
  lemma LogRefinement(networks: seq<Network>, events: seq<Event>, states: seq<Tables>, n: nat, key: DestinationKey)
    requires IsRun(networks, events, states) && n <= |events|
    ensures var rows, log := states[n].destinations, Log(events, states, n);
      && (key in rows && rows[key].status == ACTIVE <==> exists i: nat :: InForce(log, i, key))
      && (forall i: nat :: InForce(log, i, key) ==> key in rows && BindingOf(rows[key]) == log[i].binding)
      && (forall i: nat :: InForce(log, i, key) ==> exists m :: 0 <= m < n && SaidBy(events[m], log[i]))
  {
    hide Consistent, Replay, SaidBy;
    forall i: nat | InForce(Log(events, states, n), i, key)
      ensures exists m :: 0 <= m < n && SaidBy(events[m], Log(events, states, n)[i])
    {
      AssignmentsAreSigned(networks, events, states, n, i);
    }
    RunKeeps(networks, events, states, n);
    ReplayMeaning(Log(events, states, n), key);
    hide InForce;
  }

  // ---- the rows of every reachable state ----

  /**
   At most one ACTIVE address per recipient and network; a revocation time on exactly the revoked rows; no revoked
   default; and every key is the normal form of the raw address beside it.
   */
  lemma DestinationRows(networks: seq<Network>, t: Tables)
    requires Reachable(networks, t)
    ensures var rows := t.destinations;
      && (forall k, l :: k in rows && l in rows && rows[k].status == ACTIVE && rows[l].status == ACTIVE ==>
            k.slot != l.slot || k == l)
      && (forall k :: k in rows ==>
            && rows[k].status in {PENDING, ACTIVE, REVOKED}
            && (rows[k].revokedAt.Some? <==> rows[k].status == REVOKED)
            && (rows[k].status == REVOKED ==> !rows[k].isDefault)
            && k.slot.network < |networks|
            && NormalizeAddress(networks[k.slot.network].chain, rows[k].addressRaw) == Some(k.address))
  {
    hide Reachable, NormalizeAddress, Backed, LogOk;
    var holders := ReachableIsGood(networks, t);
    forall k | k in t.destinations
      ensures RowOk(t.destinations[k]) && RowRefers(t.recipients, networks, k, t.destinations[k])
    {
    }
  }

  /** Every ACTIVE row carries the terms of a verified attestation, no revocation, by the recipient's own partner; it is
      the last one of its destination. */
  lemma ActiveRowsAreBacked(networks: seq<Network>, t: Tables, key: DestinationKey)
    requires Reachable(networks, t) && key in t.destinations && t.destinations[key].status == ACTIVE
    ensures exists i: nat :: LastBacks(t.attestations, i, key, t.destinations[key])
  {
    hide Reachable, LastBacks, LogOk, ReferencesOk, RowsOk, Agrees;
    var holders := ReachableIsGood(networks, t);
  }

  // ---- sequence numbers ----

  lemma StepAppends(t: Tables, networks: seq<Network>, e: Event)
    ensures t.attestations <= Step(t, networks, e).attestations
  {
    hide NormalizeFields, NormalizeAddress, Trim, ApplyDestination, FindAssetNetwork, ClearDefaults, TrimmedName;
    match e
    case Attest(_, _, _) =>
      AttestStep(t, networks, e);
      if Ingest(t, networks, e.actor, e.gate, e.input).Success? {
        IngestCases(t, networks, e.actor, e.gate, e.input);
      }
    case Create(_, _, _, _) =>
    case Revoke(_, _, _) =>
    case Replace(_, _, _, _, _) =>
    case AddRecipient(_, _, _, _, _, _) =>
    case Suspend(_, _) =>
  }

  /** The attestation log is only ever appended to. */
  lemma {:induction false} LogIsAppendOnly(networks: seq<Network>, events: seq<Event>, states: seq<Tables>, m: nat, n: nat)
    requires IsRun(networks, events, states) && m <= n <= |events|
    ensures states[m].attestations <= states[n].attestations
  {
    if m < n {
      LogIsAppendOnly(networks, events, states, m, n - 1);
      assert Follows(networks, events, states, n - 1);
      StepAppends(states[n - 1], networks, events[n - 1]);
    }
  }

  /** With distinct sequence numbers, looking one up finds the row that carries it. */
  lemma {:induction false} SequenceIsFound(attestations: seq<Attestation>, i: nat, n: nat)
    requires LogOk(attestations) && i < n <= |attestations|
    ensures FindSequence(attestations, attestations[i].partnerId, attestations[i].sequenceNumber, n) == Some(i)
  {
    if i < n - 1 {
      assert Distinct(attestations[i], attestations[n - 1]);
      SequenceIsFound(attestations, i, n - 1);
    }
  }

  /**
   A stored attestation is answered ever after with the same identifier and without effect; the same sequence number
   with another payload is a conflict.
   */
  lemma SequenceIdempotency(networks: seq<Network>, events: seq<Event>, states: seq<Tables>, m: nat, n: nat, id: nat,
                            f: Fields, input: AttestationInput)
    requires |states| == |events| + 1 && IsRun(networks, events, states) && m <= n <= |events|
    requires id < |states[m].attestations| && input.sequenceNumber == states[m].attestations[id].sequenceNumber
    ensures Admit(states[n], networks, states[m].attestations[id].partnerId, f, input) ==
      if input.payloadHash == states[m].attestations[id].payloadHash then Success(Ingested(id, states[n]))
      else Failure(Conflict)
  {
    hide *;
    LogIsAppendOnly(networks, events, states, m, n);
    LogIsOk(networks, events, states, n);
    StoredRowAnswers(states[n], networks, f, input, id);
  }

  lemma LogIsOk(networks: seq<Network>, events: seq<Event>, states: seq<Tables>, n: nat)
    requires IsRun(networks, events, states) && n <= |events|
    ensures LogOk(states[n].attestations)
  {
    RunKeeps(networks, events, states, n);
    hide IsRun, RowsOk, Agrees, Backed, ReferencesOk, LogOk;
  }

  lemma StoredRowAnswers(t: Tables, networks: seq<Network>, f: Fields, input: AttestationInput, id: nat)
    requires LogOk(t.attestations) && id < |t.attestations|
    requires t.attestations[id].sequenceNumber == input.sequenceNumber
    ensures Admit(t, networks, t.attestations[id].partnerId, f, input) ==
      if t.attestations[id].payloadHash == input.payloadHash then Success(Ingested(id, t)) else Failure(Conflict)
  {
    SequenceIsFound(t.attestations, id, |t.attestations|);
    hide Materialize, LogOk;
  }

  /** What an accepted call answers with is the row that carries its sequence number and payload. */
  lemma AcceptedIsStored(t: Tables, networks: seq<Network>, partnerId: nat, f: Fields, input: AttestationInput)
    requires Admit(t, networks, partnerId, f, input).Success?
    ensures var r := Admit(t, networks, partnerId, f, input).value;
      && r.id < |r.tables.attestations| && t.attestations <= r.tables.attestations
      && r.tables.attestations[r.id].partnerId == partnerId
      && r.tables.attestations[r.id].sequenceNumber == input.sequenceNumber
      && r.tables.attestations[r.id].payloadHash == input.payloadHash
  {
    hide NormalizeAddress, Trim, ApplyDestination, TrimmedName, ResolveCorridor;
  }
}
