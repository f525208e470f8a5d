/** What every run of the registry keeps: the tables agree with a replay of the accepted changes. */
module RegistryTheorems {
  import opened Wrappers
  import opened Text
  import opened Normalization
  import opened Registry

  // ---- runs ----

  datatype Event =
    | Attest(actor: Actor, gate: Option<RegistryError>, input: AttestationInput)
    | Create(partnerId: nat, request: DestinationInput, hint: nat, now: int)
    | Revoke(partnerId: nat, key: DestinationKey, now: int)
    | Replace(partnerId: nat, key: DestinationKey, replacement: ReplaceInput, hint: nat, now: int)
    | AddRecipient(partnerId: nat, externalId: string, primaryIdentifier: string, displayName: Option<string>,
                   kind: nat, visibility: Visibility)
    | Suspend(partnerId: nat, recipient: RecipientKey)

  function Call(t: Tables, networks: seq<Network>, e: Event): Result<Tables, RegistryError> {
    match e
    case Attest(actor, gate, input) => (
      match Ingest(t, networks, actor, gate, input)
      case Success(r) => Success(r.tables)
      case Failure(error) => Failure(error))
    case Create(partnerId, request, hint, now) => (
      match CreateDestination(t, networks, partnerId, request, hint, now)
      case Success(r) => Success(r.tables)
      case Failure(error) => Failure(error))
    case Revoke(partnerId, key, now) => RevokeDestination(t, partnerId, key, now)
    case Replace(partnerId, key, replacement, hint, now) => (
      match ReplaceDestination(t, networks, partnerId, key, replacement, hint, now)
      case Success(r) => Success(r.tables)
      case Failure(error) => Failure(error))
    case AddRecipient(partnerId, externalId, primaryIdentifier, displayName, kind, visibility) =>
      CreateRecipient(t, partnerId, externalId, primaryIdentifier, displayName, kind, visibility)
    case Suspend(partnerId, recipient) => DisableRecipient(t, partnerId, recipient)
  }

  /** A rejected call leaves the registry as it was. */
  function Step(t: Tables, networks: seq<Network>, e: Event): Tables {
    match Call(t, networks, e)
    case Success(t') => t'
    case Failure(_) => t
  }

  predicate Follows(networks: seq<Network>, events: seq<Event>, states: seq<Tables>, i: nat)
    requires |states| == |events| + 1 && i < |events|
  {
    states[i + 1] == Step(states[i], networks, events[i])
  }

  /** `states` are the tables before each of the calls of a run that starts empty, and after the last. */
  predicate IsRun(networks: seq<Network>, events: seq<Event>, states: seq<Tables>) {
    && |states| == |events| + 1 && states[0] == EMPTY
    && forall i :: 0 <= i < |events| ==> Follows(networks, events, states, i)
  }

  ghost predicate Reachable(networks: seq<Network>, t: Tables) {
    exists events, states, n: nat :: IsRun(networks, events, states) && n <= |events| && states[n] == t
  }

  // ---- the log and its replay ----

  /** What an attestation says of a destination. */
  datatype Binding = Binding(addressRaw: string, effectiveFrom: int, expiresAt: Option<int>, attestedAt: Option<int>)

  datatype Change = Assigned(key: DestinationKey, binding: Binding) | Withdrawn(key: DestinationKey)

  function ChangeOf(a: Attestation): Change {
    if a.kind == DESTINATION_REVOCATION then Withdrawn(a.destination)
    else Assigned(a.destination, Binding(a.addressRaw, a.effectiveFrom, a.expiresAt, Some(a.issuedAt)))
  }

  /** What a call that took the tables from `t` to `t'` said; a call without effect said nothing. */
  function ChangesOf(t: Tables, e: Event, t': Tables): seq<Change> {
    if t' == t then []
    else
      match e
      case Attest(_, _, _) =>
        if t'.attestations == [] then [] else [ChangeOf(t'.attestations[|t'.attestations| - 1])]
      case Revoke(_, key, _) => [Withdrawn(key)]
      case Replace(_, key, _, _, _) => [Withdrawn(key)]
      case _ => []
  }

  /** The changes of the first `n` calls of a run. */
  function Log(events: seq<Event>, states: seq<Tables>, n: nat): seq<Change>
    requires |states| == |events| + 1 && n <= |events|
  {
    if n == 0 then [] else Log(events, states, n - 1) + ChangesOf(states[n - 1], events[n - 1], states[n])
  }

  datatype Holder = Holder(key: DestinationKey, binding: Binding)

  /** An assignment takes the slot over; a withdrawal frees it if it names the holder. */
  function Replay(changes: seq<Change>): map<Slot, Holder>
    decreases |changes|
  {
    if changes == [] then map[] else Apply(Replay(changes[..|changes| - 1]), changes[|changes| - 1])
  }

  function Apply(holders: map<Slot, Holder>, change: Change): map<Slot, Holder> {
    match change
    case Assigned(key, binding) => holders[key.slot := Holder(key, binding)]
    case Withdrawn(key) =>
      if key.slot in holders && holders[key.slot].key == key then holders - {key.slot} else holders
  }

  // ---- the invariant on destinations ----

  function BindingOf(row: Destination): Binding {
    Binding(row.addressRaw, row.effectiveFrom, row.expiresAt, row.lastAttestedAt)
  }

  predicate RowOk(row: Destination) {
    && row.status != EXPIRED
    && (row.revokedAt.Some? <==> row.status == REVOKED)
    && (row.status == REVOKED ==> !row.isDefault)
  }

  predicate RowsOk(rows: map<DestinationKey, Destination>) {
    forall key :: key in rows ==> RowOk(rows[key])
  }

  /** The ACTIVE rows are the holders of the replay, with the terms they were attested with. */
  predicate Agrees(rows: map<DestinationKey, Destination>, holders: map<Slot, Holder>) {
    && (forall key :: key in rows && rows[key].status == ACTIVE ==>
          key.slot in holders && holders[key.slot] == Holder(key, BindingOf(rows[key])))
    && (forall slot :: slot in holders ==>
          holders[slot].key.slot == slot && holders[slot].key in rows && rows[holders[slot].key].status == ACTIVE)
  }

  lemma AssignAgrees(rows: map<DestinationKey, Destination>, holders: map<Slot, Holder>, key: DestinationKey,
                     effectiveFrom: int, row: Destination)
    requires RowsOk(rows) && Agrees(rows, holders) && RowOk(row) && row.status == ACTIVE
    ensures RowsOk(RevokeOthers(rows, key, effectiveFrom)[key := row])
    ensures Agrees(RevokeOthers(rows, key, effectiveFrom)[key := row], Apply(holders, Assigned(key, BindingOf(row))))
  {
  }

  lemma WithdrawAgrees(rows: map<DestinationKey, Destination>, holders: map<Slot, Holder>, key: DestinationKey,
                       row: Destination)
    requires RowsOk(rows) && Agrees(rows, holders) && RowOk(row) && row.status == REVOKED && key in rows
    ensures RowsOk(rows[key := row]) && Agrees(rows[key := row], Apply(holders, Withdrawn(key)))
  {
  }

  lemma PendingAgrees(rows: map<DestinationKey, Destination>, holders: map<Slot, Holder>, key: DestinationKey,
                      row: Destination, clear: bool)
    requires RowsOk(rows) && Agrees(rows, holders) && RowOk(row) && row.status == PENDING && key !in rows
    ensures var cleared := if clear then ClearDefaults(rows, key.slot) else rows;
      RowsOk(cleared[key := row]) && Agrees(cleared[key := row], holders)
  {
  }

  // ---- the invariant on the other tables ----

  predicate Backs(a: Attestation, key: DestinationKey, row: Destination) {
    && a.destination == key && a.kind != DESTINATION_REVOCATION && a.status == VERIFIED
    && a.partnerId == key.slot.recipient.partnerId
    && Binding(a.addressRaw, a.effectiveFrom, a.expiresAt, Some(a.issuedAt)) == BindingOf(row)
  }

  /** Attestation `i` carries the terms of the row, and no later one is of its destination. */
  predicate LastBacks(attestations: seq<Attestation>, i: nat, key: DestinationKey, row: Destination) {
    && i < |attestations| && Backs(attestations[i], key, row)
    && forall j :: i < j < |attestations| ==> attestations[j].destination != key
  }

  ghost predicate Backed(rows: map<DestinationKey, Destination>, attestations: seq<Attestation>) {
    forall key :: key in rows && rows[key].status == ACTIVE ==>
      exists i: nat :: LastBacks(attestations, i, key, rows[key])
  }

  predicate RowRefers(recipients: map<RecipientKey, Recipient>, networks: seq<Network>, key: DestinationKey,
                      row: Destination)
  {
    && key.slot.recipient in recipients && key.slot.network < |networks|
    && NormalizeAddress(networks[key.slot.network].chain, row.addressRaw) == Some(key.address)
  }

  predicate ReferencesOk(t: Tables, networks: seq<Network>) {
    && (forall key :: key in t.destinations ==> RowRefers(t.recipients, networks, key, t.destinations[key]))
    && (forall key :: key in t.identifiers ==>
          t.identifiers[key].recipient in t.recipients && t.identifiers[key].recipient.partnerId == key.partnerId)
    && (forall i :: 0 <= i < |t.attestations| ==> t.attestations[i].destination in t.destinations)
  }

  predicate Distinct(a: Attestation, b: Attestation) {
    a.partnerId == b.partnerId ==> a.sequenceNumber != b.sequenceNumber && a.payloadHash != b.payloadHash
  }

  predicate LogOk(attestations: seq<Attestation>) {
    && (forall i, j :: 0 <= i < j < |attestations| ==> Distinct(attestations[i], attestations[j]))
    && (forall i :: 0 <= i < |attestations| ==> attestations[i].issuedAt <= attestations[i].effectiveFrom)
  }

  ghost predicate Consistent(t: Tables, networks: seq<Network>) {
    RowsOk(t.destinations) && Backed(t.destinations, t.attestations) && ReferencesOk(t, networks)
    && LogOk(t.attestations)
  }

  // ---- the steps ----

  /** The normal form of the stored address, taken on the corridor's chain, is the key of the row. */
  lemma StoredAddressIsNormal(input: AttestationInput)
    requires NormalizeFields(input).Success?
    ensures var f := NormalizeFields(input).value; NormalizeAddress(f.chain, Trim(input.address)) == Some(f.address)
  {
    AddressIsNormal(NormalizeChain(input.chain).value, input.address);
  }

  /** An ACTIVE row that keeps its terms keeps its backing while no new attestation is of its destination. */
  lemma BackedStays(rows: map<DestinationKey, Destination>, attestations: seq<Attestation>,
                    rows': map<DestinationKey, Destination>, attestations': seq<Attestation>)
    requires Backed(rows, attestations) && attestations <= attestations'
    requires forall key :: key in rows' && rows'[key].status == ACTIVE ==>
      (&& key in rows && rows[key].status == ACTIVE && BindingOf(rows[key]) == BindingOf(rows'[key])
       && forall j :: |attestations| <= j < |attestations'| ==> attestations'[j].destination != key)
      || exists i: nat :: LastBacks(attestations', i, key, rows'[key])
    ensures Backed(rows', attestations')
  {
    forall key | key in rows' && rows'[key].status == ACTIVE
      ensures exists i: nat :: LastBacks(attestations', i, key, rows'[key])
    {
      if i: nat :| LastBacks(attestations', i, key, rows'[key]) {
      } else {
        var i: nat :| LastBacks(attestations, i, key, rows[key]);
        assert LastBacks(attestations', i, key, rows'[key]);
      }
    }
  }

  /** `t'` is `t` with one attestation appended and applied. */
  predicate Appended(t: Tables, networks: seq<Network>, partnerId: nat, f: Fields, input: AttestationInput, t': Tables) {
    && |t'.attestations| == |t.attestations| + 1
    && var a := t'.attestations[|t.attestations|];
    && t'.attestations == t.attestations + [a]
    && a.partnerId == partnerId && a.destination.slot.recipient.partnerId == partnerId
    && a.status == VERIFIED && a.kind == input.kind && a.issuedAt == input.issuedAt
    && a.effectiveFrom == input.effectiveFrom && a.expiresAt == input.expiresAt
    && a.addressRaw == Trim(input.address) && a.destination.address == f.address
    && a.payloadHash == input.payloadHash && a.sequenceNumber == input.sequenceNumber
    && a.destination.slot.network < |networks| && networks[a.destination.slot.network].chain == f.chain
    && ApplyDestination(t.destinations, a.destination, input) == Success(t'.destinations)
    && !PayloadUsed(t.attestations, partnerId, input.payloadHash)
    && t'.recipients.Keys == t.recipients.Keys + {a.destination.slot.recipient}
    && a.identifier.partnerId == partnerId && a.identifier in t'.identifiers
    && t'.identifiers == t.identifiers[a.identifier := t'.identifiers[a.identifier]]
    && t'.identifiers[a.identifier].recipient == a.destination.slot.recipient
  }

  lemma MaterializeAppends(t: Tables, networks: seq<Network>, partnerId: nat, f: Fields, input: AttestationInput)
    requires Materialize(t, networks, partnerId, f, input).Success?
    ensures Appended(t, networks, partnerId, f, input, Materialize(t, networks, partnerId, f, input).value)
  {
    hide NormalizeAddress, Trim, NormalizeMemo, TrimmedName, FindCorridor, ApplyDestination;
  }

  lemma AppendAgrees(t: Tables, networks: seq<Network>, partnerId: nat, f: Fields, input: AttestationInput, t': Tables,
                     holders: map<Slot, Holder>)
    requires Appended(t, networks, partnerId, f, input, t')
    requires RowsOk(t.destinations) && Agrees(t.destinations, holders)
    ensures RowsOk(t'.destinations)
    ensures Agrees(t'.destinations, Apply(holders, ChangeOf(t'.attestations[|t.attestations|])))
  {
    var a := t'.attestations[|t.attestations|];
    var row := t'.destinations[a.destination];
    if a.kind == DESTINATION_REVOCATION {
      WithdrawAgrees(t.destinations, holders, a.destination, row);
    } else {
      AssignAgrees(t.destinations, holders, a.destination, a.effectiveFrom, row);
    }
  }

  lemma AppendKeepsBacking(t: Tables, networks: seq<Network>, partnerId: nat, f: Fields, input: AttestationInput,
                           t': Tables)
    requires Appended(t, networks, partnerId, f, input, t') && Backed(t.destinations, t.attestations)
    ensures Backed(t'.destinations, t'.attestations)
  {
    hide NormalizeAddress, Trim;
    var a := t'.attestations[|t.attestations|];
    if a.kind != DESTINATION_REVOCATION {
      assert LastBacks(t'.attestations, |t.attestations|, a.destination, t'.destinations[a.destination]);
    }
    BackedStays(t.destinations, t.attestations, t'.destinations, t'.attestations);
  }

  lemma AppendKeepsReferences(t: Tables, networks: seq<Network>, partnerId: nat, f: Fields, input: AttestationInput,
                              t': Tables)
    requires Appended(t, networks, partnerId, f, input, t') && ReferencesOk(t, networks)
    requires NormalizeAddress(f.chain, Trim(input.address)) == Some(f.address)
    ensures ReferencesOk(t', networks)
  {
    hide NormalizeAddress, Trim;
    forall key | key in t'.destinations ensures RowRefers(t'.recipients, networks, key, t'.destinations[key]) {
      if key in t.destinations {
        assert RowRefers(t.recipients, networks, key, t.destinations[key]);
      }
    }
    assert t.destinations.Keys <= t'.destinations.Keys;
  }

  lemma AppendKeepsLog(t: Tables, networks: seq<Network>, partnerId: nat, f: Fields, input: AttestationInput, t': Tables)
    requires Appended(t, networks, partnerId, f, input, t') && LogOk(t.attestations)
    requires FindSequence(t.attestations, partnerId, input.sequenceNumber, |t.attestations|) == None
    requires input.issuedAt <= input.effectiveFrom
    ensures LogOk(t'.attestations)
  {
    hide NormalizeAddress, Trim, FindSequence, ApplyDestination;
    var n := |t.attestations|;
    var a := t'.attestations[n];
    forall i | 0 <= i < n ensures Distinct(t'.attestations[i], a) {
      assert t'.attestations[i] == t.attestations[i];
    }
  }

  ghost predicate Good(t: Tables, networks: seq<Network>, holders: map<Slot, Holder>) {
    Consistent(t, networks) && Agrees(t.destinations, holders)
  }

  /** The holders after the changes of one call, of which there is at most one. */
  function ApplyAll(holders: map<Slot, Holder>, changes: seq<Change>): map<Slot, Holder> {
    if changes == [] then holders else Apply(holders, changes[0])
  }

  /** An accepted call either repeats a stored sequence number and changes nothing, or appends an attestation. */
  lemma IngestCases(t: Tables, networks: seq<Network>, actor: Actor, gate: Option<RegistryError>,
                    input: AttestationInput)
    requires Ingest(t, networks, actor, gate, input).Success?
    ensures var t' := Ingest(t, networks, actor, gate, input).value.tables;
      if FindSequence(t.attestations, actor.partnerId, input.sequenceNumber, |t.attestations|).Some? then t' == t
      else
        && NormalizeFields(input).Success?
        && Appended(t, networks, actor.partnerId, NormalizeFields(input).value, input, t')
        && NormalizeAddress(NormalizeFields(input).value.chain, Trim(input.address))
           == Some(NormalizeFields(input).value.address)
        && input.issuedAt <= input.effectiveFrom
  {
    StoredAddressIsNormal(input);
    hide NormalizeFields, NormalizeAddress, Trim, Appended;
    var f := NormalizeFields(input).value;
    if Materialize(t, networks, actor.partnerId, f, input).Success? {
      MaterializeAppends(t, networks, actor.partnerId, f, input);
    }
    hide Materialize;
  }

  lemma AppendKeeps(t: Tables, networks: seq<Network>, partnerId: nat, f: Fields, input: AttestationInput, t': Tables,
                    holders: map<Slot, Holder>)
    requires Good(t, networks, holders) && Appended(t, networks, partnerId, f, input, t')
    requires NormalizeAddress(f.chain, Trim(input.address)) == Some(f.address) && input.issuedAt <= input.effectiveFrom
    requires FindSequence(t.attestations, partnerId, input.sequenceNumber, |t.attestations|) == None
    ensures Good(t', networks, Apply(holders, ChangeOf(t'.attestations[|t.attestations|])))
  {
    hide NormalizeAddress, Trim, RowsOk, Agrees, Backed, ReferencesOk, LogOk, Apply, ApplyDestination, ChangeOf;
    AppendAgrees(t, networks, partnerId, f, input, t', holders);
    AppendKeepsBacking(t, networks, partnerId, f, input, t');
    AppendKeepsReferences(t, networks, partnerId, f, input, t');
    AppendKeepsLog(t, networks, partnerId, f, input, t');
  }

  lemma AttestStep(t: Tables, networks: seq<Network>, e: Event)
    requires e.Attest?
    ensures var r, t' := Ingest(t, networks, e.actor, e.gate, e.input), Step(t, networks, e);
      && t' == (if r.Success? then r.value.tables else t)
      && (t' == t ==> ChangesOf(t, e, t') == [])
      && (|t'.attestations| == |t.attestations| + 1 ==>
            ChangesOf(t, e, t') == [ChangeOf(t'.attestations[|t.attestations|])])
  {
    hide Ingest, ChangeOf;
  }

  lemma AppendedLength(t: Tables, networks: seq<Network>, partnerId: nat, f: Fields, input: AttestationInput, t': Tables)
    requires Appended(t, networks, partnerId, f, input, t')
    ensures |t'.attestations| == |t.attestations| + 1
  {
  }

  lemma ApplyOne(holders: map<Slot, Holder>, change: Change)
    ensures ApplyAll(holders, [change]) == Apply(holders, change)
  {
  }

  lemma ApplyNone(holders: map<Slot, Holder>)
    ensures ApplyAll(holders, []) == holders
  {
  }

  lemma AttestKeeps(t: Tables, networks: seq<Network>, e: Event, holders: map<Slot, Holder>)
    requires Good(t, networks, holders) && e.Attest?
    ensures Good(Step(t, networks, e), networks, ApplyAll(holders, ChangesOf(t, e, Step(t, networks, e))))
  {
    hide *;
    AttestStep(t, networks, e);
    ApplyNone(holders);
    if Ingest(t, networks, e.actor, e.gate, e.input).Success? {
      var t' := Ingest(t, networks, e.actor, e.gate, e.input).value.tables;
      IngestCases(t, networks, e.actor, e.gate, e.input);
      if FindSequence(t.attestations, e.actor.partnerId, e.input.sequenceNumber, |t.attestations|) == None {
        var f := NormalizeFields(e.input).value;
        AppendKeeps(t, networks, e.actor.partnerId, f, e.input, t', holders);
        AppendedLength(t, networks, e.actor.partnerId, f, e.input, t');
        ApplyOne(holders, ChangeOf(t'.attestations[|t.attestations|]));
      }
    }
  }

  /** What create does to the tables: one more PENDING row. */
  predicate Added(t: Tables, networks: seq<Network>, key: DestinationKey, clear: bool, t': Tables) {
    && key !in t.destinations && key in t'.destinations
    && t' == t.(destinations :=
         (if clear then ClearDefaults(t.destinations, key.slot) else t.destinations)[key := t'.destinations[key]])
    && t'.destinations[key].status == PENDING && RowOk(t'.destinations[key])
    && RowRefers(t.recipients, networks, key, t'.destinations[key])
  }

  lemma CreateAdds(t: Tables, networks: seq<Network>, partnerId: nat, input: DestinationInput, hint: nat, now: int)
    requires CreateDestination(t, networks, partnerId, input, hint, now).Success?
    ensures var r := CreateDestination(t, networks, partnerId, input, hint, now).value;
      Added(t, networks, r.key, input.isDefault == Some(true), r.tables)
  {
    hide Trim, NormalizeMemo, ClearDefaults, FindNetwork, NormalizeAddress, NormalizeChain, NormalizeAssetCode,
         NormalizeAssetSymbol;
    var network := FindAssetNetwork(networks, input.chain, input.asset, hint).value;
    AddressIsNormal(networks[network].chain, input.address);
    hide FindAssetNetwork;
  }

  lemma AddKeepsReferences(t: Tables, networks: seq<Network>, key: DestinationKey, clear: bool, t': Tables)
    requires ReferencesOk(t, networks) && Added(t, networks, key, clear, t')
    ensures ReferencesOk(t', networks)
  {
    hide NormalizeAddress, Trim;
    forall k | k in t'.destinations ensures RowRefers(t'.recipients, networks, k, t'.destinations[k]) {
      if k != key {
        assert RowRefers(t.recipients, networks, k, t.destinations[k]);
      }
    }
  }

  lemma AddKeepsBacking(t: Tables, networks: seq<Network>, key: DestinationKey, clear: bool, t': Tables)
    requires Backed(t.destinations, t.attestations) && Added(t, networks, key, clear, t')
    ensures Backed(t'.destinations, t'.attestations)
  {
    hide NormalizeAddress, Trim, RowRefers;
    forall k | k in t'.destinations && t'.destinations[k].status == ACTIVE
      ensures k in t.destinations && t.destinations[k].status == ACTIVE
      ensures BindingOf(t.destinations[k]) == BindingOf(t'.destinations[k])
    {
      assert k != key;
    }
    BackedStays(t.destinations, t.attestations, t'.destinations, t'.attestations);
  }

  lemma AddKeeps(t: Tables, networks: seq<Network>, key: DestinationKey, clear: bool, t': Tables,
                 holders: map<Slot, Holder>)
    requires Good(t, networks, holders) && Added(t, networks, key, clear, t')
    ensures Good(t', networks, holders)
  {
    hide Agrees, Backed, ReferencesOk, RowsOk, RowRefers, ClearDefaults;
    PendingAgrees(t.destinations, holders, key, t'.destinations[key], clear);
    AddKeepsReferences(t, networks, key, clear, t');
    AddKeepsBacking(t, networks, key, clear, t');
  }

  lemma WithdrawKeeps(t: Tables, networks: seq<Network>, key: DestinationKey, now: int, holders: map<Slot, Holder>)
    requires Good(t, networks, holders) && key in t.destinations
    ensures Good(t.(destinations := Withdraw(t.destinations, key, now)), networks, Apply(holders, Withdrawn(key)))
  {
    hide NormalizeAddress, Trim;
    var t' := t.(destinations := Withdraw(t.destinations, key, now));
    WithdrawAgrees(t.destinations, holders, key, t'.destinations[key]);
    forall k | k in t'.destinations ensures RowRefers(t'.recipients, networks, k, t'.destinations[k]) {
      assert RowRefers(t.recipients, networks, k, t.destinations[k]);
    }
    BackedStays(t.destinations, t.attestations, t'.destinations, t'.attestations);
  }

  /** Calls that only add or change recipients and identifiers of one partner. */
  lemma RecipientsKeep(t: Tables, networks: seq<Network>, t': Tables, holders: map<Slot, Holder>)
    requires Good(t, networks, holders)
    requires t'.destinations == t.destinations && t'.attestations == t.attestations
    requires t.recipients.Keys <= t'.recipients.Keys
    requires forall key :: key in t'.identifiers ==>
      t'.identifiers[key].recipient in t'.recipients && t'.identifiers[key].recipient.partnerId == key.partnerId
    ensures Good(t', networks, holders)
  {
    hide NormalizeAddress, Trim;
    forall k | k in t'.destinations ensures RowRefers(t'.recipients, networks, k, t'.destinations[k]) {
      assert RowRefers(t.recipients, networks, k, t.destinations[k]);
    }
  }

  lemma RecipientStepKeeps(t: Tables, networks: seq<Network>, e: Event, holders: map<Slot, Holder>)
    requires Good(t, networks, holders) && (e.AddRecipient? || e.Suspend?)
    ensures Good(Step(t, networks, e), networks, ApplyAll(holders, ChangesOf(t, e, Step(t, networks, e))))
  {
    hide NormalizeIdentifier, Trim, TrimmedName, RowsOk, Backed, LogOk, Agrees, RowRefers;
    RecipientsKeep(t, networks, Step(t, networks, e), holders);
  }

  lemma CreateKeeps(t: Tables, networks: seq<Network>, e: Event, holders: map<Slot, Holder>)
    requires Good(t, networks, holders) && e.Create?
    ensures Good(Step(t, networks, e), networks, ApplyAll(holders, ChangesOf(t, e, Step(t, networks, e))))
  {
    hide Good;
    if CreateDestination(t, networks, e.partnerId, e.request, e.hint, e.now).Success? {
      var r := CreateDestination(t, networks, e.partnerId, e.request, e.hint, e.now).value;
      CreateAdds(t, networks, e.partnerId, e.request, e.hint, e.now);
      hide CreateDestination, Added;
      AddKeeps(t, networks, r.key, e.request.isDefault == Some(true), r.tables, holders);
    }
  }

  lemma RevokeKeeps(t: Tables, networks: seq<Network>, e: Event, holders: map<Slot, Holder>)
    requires Good(t, networks, holders) && e.Revoke?
    ensures Good(Step(t, networks, e), networks, ApplyAll(holders, ChangesOf(t, e, Step(t, networks, e))))
  {
    hide Good, Apply;
    if RevokeDestination(t, e.partnerId, e.key, e.now).Success? {
      assert Step(t, networks, e).destinations[e.key] != t.destinations[e.key];
      WithdrawKeeps(t, networks, e.key, e.now, holders);
    }
  }

  lemma ReplaceKeeps(t: Tables, networks: seq<Network>, e: Event, holders: map<Slot, Holder>)
    requires Good(t, networks, holders) && e.Replace?
    ensures Good(Step(t, networks, e), networks, ApplyAll(holders, ChangesOf(t, e, Step(t, networks, e))))
  {
    hide Good, Apply, RowOk, RowRefers;
    if ReplaceDestination(t, networks, e.partnerId, e.key, e.replacement, e.hint, e.now).Success? {
      var previous, network := t.destinations[e.key], networks[e.key.slot.network];
      var request := DestinationInput(
        e.key.slot.recipient, Or(e.replacement.chain, network.chain), Or(e.replacement.asset, network.assetSymbol),
        e.replacement.address, e.replacement.memo, Some(Or(e.replacement.isDefault, previous.isDefault)),
        e.replacement.effectiveFrom, e.replacement.expiresAt);
      var r := CreateDestination(t, networks, e.partnerId, request, e.hint, e.now).value;
      CreateAdds(t, networks, e.partnerId, request, e.hint, e.now);
      hide CreateDestination;
      AddKeeps(t, networks, r.key, request.isDefault == Some(true), r.tables, holders);
      assert e.key in r.tables.destinations;
      assert r.key in Step(t, networks, e).destinations && r.key !in t.destinations;
      WithdrawKeeps(r.tables, networks, e.key, e.now, holders);
    }
  }

  lemma StepKeeps(t: Tables, networks: seq<Network>, e: Event, holders: map<Slot, Holder>)
    requires Good(t, networks, holders)
    ensures Good(Step(t, networks, e), networks, ApplyAll(holders, ChangesOf(t, e, Step(t, networks, e))))
  {
    hide Good, Call, Step, ChangesOf, ApplyAll;
    match e
    case Attest(_, _, _) => AttestKeeps(t, networks, e, holders);
    case Create(_, _, _, _) => CreateKeeps(t, networks, e, holders);
    case Revoke(_, _, _) => RevokeKeeps(t, networks, e, holders);
    case Replace(_, _, _, _, _) => ReplaceKeeps(t, networks, e, holders);
    case AddRecipient(_, _, _, _, _, _) => RecipientStepKeeps(t, networks, e, holders);
    case Suspend(_, _) => RecipientStepKeeps(t, networks, e, holders);
  }

  lemma ReplayStep(log: seq<Change>, changes: seq<Change>)
    requires |changes| <= 1
    ensures Replay(log + changes) == ApplyAll(Replay(log), changes)
  {
    if changes == [] {
      assert log + changes == log;
    } else {
      assert (log + changes)[..|log|] == log;
    }
  }

  lemma LogStep(networks: seq<Network>, events: seq<Event>, states: seq<Tables>, n: nat)
    requires IsRun(networks, events, states) && 0 < n <= |events|
    ensures states[n] == Step(states[n - 1], networks, events[n - 1])
    ensures Replay(Log(events, states, n))
            == ApplyAll(Replay(Log(events, states, n - 1)), ChangesOf(states[n - 1], events[n - 1], states[n]))
  {
    assert Follows(networks, events, states, n - 1);
    hide Step, Replay, Apply, ApplyAll;
    ReplayStep(Log(events, states, n - 1), ChangesOf(states[n - 1], events[n - 1], states[n]));
  }

  lemma {:induction false} RunKeeps(networks: seq<Network>, events: seq<Event>, states: seq<Tables>, n: nat)
    requires IsRun(networks, events, states) && n <= |events|
    ensures Good(states[n], networks, Replay(Log(events, states, n)))
  {
    if n != 0 {
      hide Good, Step, Replay, ApplyAll, ChangesOf, Follows, Log;
      RunKeeps(networks, events, states, n - 1);
      StepKeeps(states[n - 1], networks, events[n - 1], Replay(Log(events, states, n - 1)));
      LogStep(networks, events, states, n);
    }
  }

  lemma ReachableIsGood(networks: seq<Network>, t: Tables) returns (holders: map<Slot, Holder>)
    requires Reachable(networks, t)
    ensures Good(t, networks, holders)
  {
    var events, states, n: nat :| IsRun(networks, events, states) && n <= |events| && states[n] == t;
    RunKeeps(networks, events, states, n);
    holders := Replay(Log(events, states, n));
  }
}
