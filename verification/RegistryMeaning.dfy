/**
 What each call of the registry demands and does, in the columns of its tables and in the fields of its input. The
 sentences here use none of the predicates the services are specified with.
 */
module RegistryMeaning {
  import opened Wrappers
  import opened Text
  import opened Normalization
  import opened Registry
  import opened RegistryTheorems

  // ---- attestations ----

  /** Whoever signs, signs for itself, and nothing the checks at the gate refuse gets through. */
  lemma IngestIsGuarded(t: Tables, networks: seq<Network>, actor: Actor, gate: Option<RegistryError>,
                        input: AttestationInput)
    ensures var r := Ingest(t, networks, actor, gate, input);
      && (gate.Some? ==> r.Failure?)
      && (r.Success? ==> NormalizePartnerSlug(input.partnerSlug) == Some(actor.slug))
      && (NormalizeFields(input).Failure? ==> r == Failure(BadRequest))
      && (NormalizeFields(input).Success? && NormalizePartnerSlug(input.partnerSlug) != Some(actor.slug) ==>
            r == Failure(Forbidden))
      && (NormalizeFields(input).Success? && NormalizePartnerSlug(input.partnerSlug) == Some(actor.slug) && gate.Some? ==>
            r == Failure(gate.value))
  {
    hide NormalizePartnerSlug, NormalizeAddress, NormalizeChain, NormalizeIdentifier, NormalizeAssetCode,
         NormalizeAssetSymbol, NormalizeContractAddress, Admit, Trim;
  }

  lemma SlugMeans(input: AttestationInput)
    requires NormalizeFields(input).Success?
    ensures NormalizePartnerSlug(input.partnerSlug) == Some(NormalizeFields(input).value.partnerSlug)
  {
    FieldsMean(input);
    hide *;
  }

  /** The fields of an input, each in its normal form. */
  lemma FieldsMean(input: AttestationInput)
    ensures NormalizeFields(input).Success? <==>
      && NormalizeChain(input.chain).Some? && |Trim(input.identifier)| <= 128
      && NormalizePartnerSlug(input.partnerSlug).Some? && NormalizeIdentifier(input.identifier).Some?
      && NormalizeAssetCode(input.assetCode).Some? && NormalizeAssetSymbol(input.assetSymbol).Some?
      && NormalizeContractAddress(NormalizeChain(input.chain).value, input.contract).Some?
      && NormalizeAddress(NormalizeChain(input.chain).value, input.address).Some?
    ensures NormalizeFields(input).Success? ==> var f := NormalizeFields(input).value;
      && NormalizePartnerSlug(input.partnerSlug) == Some(f.partnerSlug)
      && NormalizeIdentifier(input.identifier) == Some(f.identifier)
      && NormalizeChain(input.chain) == Some(f.chain)
      && NormalizeAssetCode(input.assetCode) == Some(f.assetCode)
      && NormalizeAssetSymbol(input.assetSymbol) == Some(f.assetSymbol)
      && NormalizeContractAddress(f.chain, input.contract) == Some(f.contract)
      && NormalizeAddress(f.chain, input.address) == Some(f.address)
      && f.memo == (if input.memo.Some? then Trim(input.memo.value) else "")
  {
    hide NormalizePartnerSlug, NormalizeAddress, NormalizeChain, NormalizeIdentifier, NormalizeAssetCode,
         NormalizeAssetSymbol, NormalizeContractAddress, Trim;
  }

  /** The corridor is an active network of the attested chain and asset, with the attested contract, standard and, if
      given, decimals; it is refused only if the first such network has other decimals or there is none. */
  lemma CorridorMeans(networks: seq<Network>, f: Fields, standard: nat, decimals: Option<nat>)
    ensures var r := ResolveCorridor(networks, f, standard, decimals);
      && (r.Success? ==>
            && r.value < |networks|
            && var n := networks[r.value];
            && n.active && n.chainActive && n.assetActive
            && n.chain == f.chain && n.assetCode == f.assetCode && n.assetSymbol == f.assetSymbol
            && n.contract == f.contract && n.standard == standard
            && (decimals.Some? ==> n.decimals == decimals.value))
      && (r.Failure? ==> r == Failure(BadRequest))
      && (r.Failure? ==> forall n ::
            (&& n in networks && n.active && n.chainActive && n.assetActive
             && n.chain == f.chain && n.assetCode == f.assetCode && n.assetSymbol == f.assetSymbol
             && n.contract == f.contract && n.standard == standard) ==>
            decimals.Some? && exists m :: m in networks && m.decimals != decimals.value)
  {
    var r := ResolveCorridor(networks, f, standard, decimals);
    if r.Failure? && FindCorridor(networks, f, standard, |networks|).Some? {
      var i := FindCorridor(networks, f, standard, |networks|).value;
      assert networks[i] in networks;
    }
    hide FindCorridor;
  }

  /** What an attestation that is no revocation does to the destinations: its own row takes the slot, the row that held
      it is revoked from that time on, and every other row stays. */
  lemma AssignmentMeans(rows: map<DestinationKey, Destination>, key: DestinationKey, input: AttestationInput)
    requires input.kind != DESTINATION_REVOCATION
    ensures var r := ApplyDestination(rows, key, input);
      && r.Success?
      && r.value.Keys == rows.Keys + {key}
      && r.value[key] == Destination(Trim(input.address), ACTIVE, true, input.effectiveFrom, Some(input.issuedAt),
                                     input.expiresAt, None)
      && forall k :: k in rows && k != key ==>
           if k.slot == key.slot && rows[k].status == ACTIVE then
             && r.value[k].status == REVOKED && r.value[k].revokedAt == Some(input.effectiveFrom)
             && !r.value[k].isDefault && r.value[k].addressRaw == rows[k].addressRaw
             && r.value[k].effectiveFrom == rows[k].effectiveFrom && r.value[k].expiresAt == rows[k].expiresAt
             && r.value[k].lastAttestedAt == rows[k].lastAttestedAt
           else r.value[k] == rows[k]
  {
    hide Trim;
  }

  /** A revocation needs its row, and ends that row only. */
  lemma RevocationMeans(rows: map<DestinationKey, Destination>, key: DestinationKey, input: AttestationInput)
    requires input.kind == DESTINATION_REVOCATION
    ensures var r := ApplyDestination(rows, key, input);
      && (r.Success? <==> key in rows) && (r.Failure? ==> r == Failure(BadRequest))
      && (r.Success? ==>
            && r.value.Keys == rows.Keys
            && (forall k :: k in rows && k != key ==> r.value[k] == rows[k])
            && var row := r.value[key];
            && row.status == REVOKED && row.revokedAt == Some(input.effectiveFrom) && !row.isDefault
            && row.expiresAt == input.expiresAt && row.lastAttestedAt == Some(input.issuedAt)
            && row.addressRaw == rows[key].addressRaw && row.effectiveFrom == rows[key].effectiveFrom)
  {
  }

  /** The transaction: one attestation is logged, its recipient and its resolvable identifier are active afterwards,
      and its destination is applied. */
  lemma MaterializeMeans(t: Tables, networks: seq<Network>, partnerId: nat, f: Fields, input: AttestationInput,
                         network: nat, key: DestinationKey)
    requires Materialize(t, networks, partnerId, f, input).Success?
    requires ResolveCorridor(networks, f, input.standard, input.decimals) == Success(network)
    requires key == DestinationKey(Slot(RecipientKey(partnerId, Trim(input.externalId)), network), f.address, f.memo)
    ensures var t', identifier := Materialize(t, networks, partnerId, f, input).value,
                                  IdentifierKey(partnerId, input.identifierKind, f.identifier);
      && t'.attestations == t.attestations + [Attestation(
           partnerId, input.kind, identifier, key, Trim(input.address), input.payloadHash, input.sequenceNumber,
           input.issuedAt, input.effectiveFrom, input.expiresAt, VERIFIED)]
      && t'.recipients.Keys == t.recipients.Keys + {key.slot.recipient}
      && t'.recipients[key.slot.recipient].status == RECIPIENT_ACTIVE
      && t'.recipients[key.slot.recipient].displayName ==
           (if input.displayName.Some? && Trim(input.displayName.value) != "" then Some(Trim(input.displayName.value))
            else None)
      && (forall k :: k in t.recipients && k != key.slot.recipient ==> t'.recipients[k] == t.recipients[k])
      && t'.identifiers.Keys == t.identifiers.Keys + {identifier}
      && t'.identifiers[identifier] == Identifier(key.slot.recipient, Trim(input.identifier), IDENTIFIER_ACTIVE, RESOLVABLE)
      && (forall k :: k in t.identifiers && k != identifier ==> t'.identifiers[k] == t.identifiers[k])
      && ApplyDestination(t.destinations, key, input) == Success(t'.destinations)
  {
    hide Trim, ResolveCorridor, ApplyDestination, NormalizeMemo;
  }

  /** A new attestation is accepted exactly when it is not issued after it takes effect, a corridor and, for a
      revocation, the row are there, and neither its sequence number nor its payload was used before. */
  lemma AdmitMeans(t: Tables, networks: seq<Network>, partnerId: nat, f: Fields, input: AttestationInput)
    requires forall i :: 0 <= i < |t.attestations| ==>
      t.attestations[i].partnerId != partnerId || t.attestations[i].sequenceNumber != input.sequenceNumber
    ensures var r, corridor := Admit(t, networks, partnerId, f, input),
                               ResolveCorridor(networks, f, input.standard, input.decimals);
      && (r.Success? <==>
            && input.issuedAt <= input.effectiveFrom
            && corridor.Success?
            && (input.kind == DESTINATION_REVOCATION ==>
                  DestinationKey(Slot(RecipientKey(partnerId, Trim(input.externalId)), corridor.value), f.address, f.memo)
                  in t.destinations)
            && (forall i :: 0 <= i < |t.attestations| ==>
                  t.attestations[i].partnerId != partnerId || t.attestations[i].payloadHash != input.payloadHash))
      && (r == Failure(UniqueViolation) ==>
            exists i :: 0 <= i < |t.attestations| && t.attestations[i].partnerId == partnerId
                        && t.attestations[i].payloadHash == input.payloadHash)
      && (r.Failure? ==> r.error in {BadRequest, UniqueViolation})
      && (r == Failure(BadRequest) <==>
            || input.issuedAt > input.effectiveFrom
            || corridor.Failure?
            || (input.kind == DESTINATION_REVOCATION &&
                DestinationKey(Slot(RecipientKey(partnerId, Trim(input.externalId)), corridor.value), f.address, f.memo)
                !in t.destinations))
      && (r.Success? ==> r.value.id == |t.attestations|
                         && Materialize(t, networks, partnerId, f, input) == Success(r.value.tables))
  {
    assert FindSequence(t.attestations, partnerId, input.sequenceNumber, |t.attestations|) == None;
    hide Trim, ResolveCorridor, NormalizeMemo, RevokeOthers, TrimmedName, FindSequence;
  }

  // ---- who writes the log ----

  /** The change is what an authenticated call said: its checks passed, and the partner speaks of its own recipient. */
  predicate SaidBy(e: Event, change: Change) {
    && e.Attest? && e.gate == None && NormalizePartnerSlug(e.input.partnerSlug) == Some(e.actor.slug)
    && change.key.slot.recipient == RecipientKey(e.actor.partnerId, Trim(e.input.externalId))
    && NormalizeChain(e.input.chain).Some?
    && NormalizeAddress(NormalizeChain(e.input.chain).value, e.input.address) == Some(change.key.address)
    && (change.Assigned? ==>
          && e.input.kind != DESTINATION_REVOCATION
          && change.binding ==
             Binding(Trim(e.input.address), e.input.effectiveFrom, e.input.expiresAt, Some(e.input.issuedAt)))
  }

  /** A call that changes the attestation log is an attestation that passed the gate, under the partner's own slug. */
  lemma LogIsGuarded(t: Tables, networks: seq<Network>, e: Event)
    requires Step(t, networks, e).attestations != t.attestations
    ensures e.Attest? && e.gate == None && NormalizePartnerSlug(e.input.partnerSlug) == Some(e.actor.slug)
    ensures |Step(t, networks, e).attestations| == |t.attestations| + 1
    ensures t.attestations <= Step(t, networks, e).attestations
    ensures SaidBy(e, ChangeOf(Step(t, networks, e).attestations[|t.attestations|]))
  {
    hide NormalizePartnerSlug, NormalizeFields, NormalizeAddress, NormalizeChain, Trim, FindAssetNetwork, ClearDefaults,
         TrimmedName, Ingest, NormalizeIdentifier;
    match e
    case Attest(actor, gate, input) =>
      if Ingest(t, networks, actor, gate, input).Success? {
        IngestIsGuarded(t, networks, actor, gate, input);
        IngestSays(t, networks, actor, gate, input);
      }
    case Create(_, _, _, _) =>
    case Revoke(_, _, _) =>
    case Replace(_, _, _, _, _) =>
    case AddRecipient(_, _, _, _, _, _) =>
    case Suspend(_, _) =>
  }

  lemma AppendedSays(t: Tables, networks: seq<Network>, actor: Actor, f: Fields, input: AttestationInput, t': Tables)
    requires Appended(t, networks, actor.partnerId, f, input, t')
    requires t'.attestations[|t.attestations|].destination.slot.recipient
             == RecipientKey(actor.partnerId, Trim(input.externalId))
    requires NormalizePartnerSlug(input.partnerSlug) == Some(actor.slug)
    requires NormalizeChain(input.chain) == Some(f.chain) && NormalizeAddress(f.chain, input.address) == Some(f.address)
    ensures |t'.attestations| == |t.attestations| + 1 && t.attestations <= t'.attestations
    ensures SaidBy(Attest(actor, None, input), ChangeOf(t'.attestations[|t.attestations|]))
  {
    hide NormalizePartnerSlug, NormalizeAddress, NormalizeChain, Trim, ApplyDestination, PayloadUsed;
  }

  lemma IngestSays(t: Tables, networks: seq<Network>, actor: Actor, gate: Option<RegistryError>, input: AttestationInput)
    requires Ingest(t, networks, actor, gate, input).Success?
    ensures var t' := Ingest(t, networks, actor, gate, input).value.tables;
      t' != t ==>
        && |t'.attestations| == |t.attestations| + 1 && t.attestations <= t'.attestations
        && SaidBy(Attest(actor, gate, input), ChangeOf(t'.attestations[|t.attestations|]))
  {
    hide *;
    IngestIsGuarded(t, networks, actor, gate, input);
    FieldsMean(input);
    IngestCases(t, networks, actor, gate, input);
    if FindSequence(t.attestations, actor.partnerId, input.sequenceNumber, |t.attestations|) == None {
      IngestKey(t, networks, actor, gate, input);
      AppendedSays(t, networks, actor, NormalizeFields(input).value, input,
                   Ingest(t, networks, actor, gate, input).value.tables);
    }
  }

  /** The recipient of a new attestation is the one it names. */
  lemma IngestKey(t: Tables, networks: seq<Network>, actor: Actor, gate: Option<RegistryError>, input: AttestationInput)
    requires Ingest(t, networks, actor, gate, input).Success?
    requires FindSequence(t.attestations, actor.partnerId, input.sequenceNumber, |t.attestations|) == None
    ensures var t' := Ingest(t, networks, actor, gate, input).value.tables;
      |t'.attestations| > |t.attestations| && t'.attestations[|t.attestations|].destination.slot.recipient
        == RecipientKey(actor.partnerId, Trim(input.externalId))
  {
    hide NormalizeFields, Trim, ResolveCorridor, ApplyDestination, TrimmedName;
  }

  /**
   Every change in the log of a run was made by one of its calls, and every assignment by an attestation that passed the
   gate under the partner's own slug, and says what that attestation said.
   */
  lemma {:induction false} AssignmentsAreSigned(networks: seq<Network>, events: seq<Event>, states: seq<Tables>, n: nat,
                                                i: nat)
    requires IsRun(networks, events, states) && n <= |events|
    requires i < |Log(events, states, n)| && Log(events, states, n)[i].Assigned?
    ensures exists m :: 0 <= m < n && SaidBy(events[m], Log(events, states, n)[i])
  {
    var before := Log(events, states, n - 1);
    if i < |before| {
      AssignmentsAreSigned(networks, events, states, n - 1, i);
      var m :| 0 <= m < n - 1 && SaidBy(events[m], before[i]);
      assert SaidBy(events[m], Log(events, states, n)[i]);
    } else {
      assert Follows(networks, events, states, n - 1);
      OnlyAttestationsAssign(states[n - 1], networks, events[n - 1]);
      assert SaidBy(events[n - 1], Log(events, states, n)[i]);
    }
  }

  lemma OnlyAttestationsAssign(t: Tables, networks: seq<Network>, e: Event)
    ensures var changes := ChangesOf(t, e, Step(t, networks, e));
      forall i :: 0 <= i < |changes| && changes[i].Assigned? ==> SaidBy(e, changes[i])
  {
    hide SaidBy, Ingest;
    if e.Attest? {
      AttestStep(t, networks, e);
      if Ingest(t, networks, e.actor, e.gate, e.input).Success? {
        IngestSays(t, networks, e.actor, e.gate, e.input);
      }
    }
  }

  // ---- destinations ----

  /** The network of a create is active, on the given chain, with an asset of that code or symbol; none is found only
      if there is none. */
  lemma AssetNetworkMeans(networks: seq<Network>, chain: string, asset: string, hint: nat)
    ensures var r := FindAssetNetwork(networks, chain, asset, hint);
      && (r.Success? ==>
            && r.value < |networks| && networks[r.value].active && networks[r.value].chainActive
            && NormalizeChain(chain) == Some(networks[r.value].chain)
            && (NormalizeAssetCode(asset) == Some(networks[r.value].assetCode)
                || NormalizeAssetSymbol(asset) == Some(networks[r.value].assetSymbol)))
      && (r == Failure(NotFound) ==> forall n ::
            (n in networks && n.active && n.chainActive && NormalizeChain(chain) == Some(n.chain)) ==>
            NormalizeAssetCode(asset) != Some(n.assetCode) && NormalizeAssetSymbol(asset) != Some(n.assetSymbol))
      && (r.Failure? ==> r.error in {BadRequest, NotFound})
      && (r == Failure(BadRequest) <==>
            NormalizeChain(chain).None? || NormalizeAssetCode(asset).None? || NormalizeAssetSymbol(asset).None?)
  {
    hide NormalizeChain, NormalizeAssetCode, NormalizeAssetSymbol;
  }

  /** A create adds one row that is not in force, for a recipient of the partner's own, under a new key; with a default
      asked for, it is the only one of its slot. */
  lemma CreateMeans(t: Tables, networks: seq<Network>, partnerId: nat, input: DestinationInput, hint: nat, now: int)
    ensures var r, network := CreateDestination(t, networks, partnerId, input, hint, now),
                              FindAssetNetwork(networks, input.chain, input.asset, hint);
      var memo := if input.memo.Some? then Trim(input.memo.value) else "";
      var from := if input.effectiveFrom.Some? then input.effectiveFrom.value else now;
      && (r.Success? <==>
            && network.Success?
            && input.recipientId.partnerId == partnerId && input.recipientId in t.recipients
            && NormalizeAddress(networks[network.value].chain, input.address).Some?
            && (input.expiresAt.Some? ==> input.expiresAt.value > from)
            && DestinationKey(Slot(input.recipientId, network.value),
                              NormalizeAddress(networks[network.value].chain, input.address).value, memo)
               !in t.destinations)
      && (r.Failure? ==> r.error in {BadRequest, NotFound, Conflict})
      && (r == Failure(NotFound) <==>
            || network == Failure(NotFound)
            || (network.Success? && (input.recipientId.partnerId != partnerId || input.recipientId !in t.recipients)))
      && (r == Failure(Conflict) ==>
            && network.Success? && NormalizeAddress(networks[network.value].chain, input.address).Some?
            && DestinationKey(Slot(input.recipientId, network.value),
                              NormalizeAddress(networks[network.value].chain, input.address).value, memo)
               in t.destinations)
      && (r == Failure(BadRequest) ==>
            || network == Failure(BadRequest)
            || (network.Success? && NormalizeAddress(networks[network.value].chain, input.address).None?)
            || (input.expiresAt.Some? && input.expiresAt.value <= from))
      && (r.Success? ==>
            var key, t' := r.value.key, r.value.tables;
            && key == DestinationKey(Slot(input.recipientId, network.value),
                                     NormalizeAddress(networks[network.value].chain, input.address).value, memo)
            && t' == t.(destinations := t'.destinations) && t'.destinations.Keys == t.destinations.Keys + {key}
            && t'.destinations[key] == Destination(Trim(input.address), PENDING, input.isDefault == Some(true), from, None,
                                                   input.expiresAt, None)
            && forall k :: k in t.destinations ==>
                 t'.destinations[k] == if input.isDefault == Some(true) && k.slot == key.slot
                                       then t.destinations[k].(isDefault := false) else t.destinations[k])
  {
    AssetNetworkMeans(networks, input.chain, input.asset, hint);
    hide Trim, FindAssetNetwork, NormalizeAddress, NormalizeChain, NormalizeAssetCode, NormalizeAssetSymbol;
  }

  /** A withdrawal ends the partner's own row, once. */
  lemma RevokeMeans(t: Tables, partnerId: nat, key: DestinationKey, now: int)
    ensures var r := RevokeDestination(t, partnerId, key, now);
      && (r.Success? <==> key in t.destinations && key.slot.recipient.partnerId == partnerId
                          && t.destinations[key].status != REVOKED)
      && (r == Failure(Conflict) <==> key in t.destinations && key.slot.recipient.partnerId == partnerId
                                      && t.destinations[key].status == REVOKED)
      && (r.Failure? ==> r.error in {NotFound, Conflict})
      && (r.Success? ==> Ended(t, r.value, key, now))
  {
  }

  /** Row `key` is revoked, expired and no default as of now; nothing else differs. */
  predicate Ended(t: Tables, t': Tables, key: DestinationKey, now: int) {
    && key in t.destinations && t' == t.(destinations := t'.destinations)
    && t'.destinations.Keys == t.destinations.Keys
    && (forall k :: k in t.destinations && k != key ==> t'.destinations[k] == t.destinations[k])
    && var row := t'.destinations[key];
    && row.status == REVOKED && row.revokedAt == Some(now) && row.expiresAt == Some(now) && !row.isDefault
    && row.addressRaw == t.destinations[key].addressRaw && row.effectiveFrom == t.destinations[key].effectiveFrom
    && row.lastAttestedAt == t.destinations[key].lastAttestedAt
  }

  /** A replacement is a create for the recipient of the old row, on its network and with its default flag unless the
      request says otherwise, followed by the withdrawal of the old row. */
  lemma ReplaceMeans(t: Tables, networks: seq<Network>, partnerId: nat, key: DestinationKey, input: ReplaceInput,
                     hint: nat, now: int)
    ensures var r := ReplaceDestination(t, networks, partnerId, key, input, hint, now);
      && (r.Success? ==> key in t.destinations && key.slot.recipient.partnerId == partnerId
                         && key.slot.network < |networks|)
      && (key !in t.destinations || key.slot.recipient.partnerId != partnerId ==> r == Failure(NotFound))
      && (key in t.destinations && key.slot.recipient.partnerId == partnerId && key.slot.network < |networks| ==>
            var network := networks[key.slot.network];
            var created := CreateDestination(t, networks, partnerId, DestinationInput(
              key.slot.recipient, if input.chain.Some? then input.chain.value else network.chain,
              if input.asset.Some? then input.asset.value else network.assetSymbol, input.address, input.memo,
              Some(if input.isDefault.Some? then input.isDefault.value else t.destinations[key].isDefault),
              input.effectiveFrom, input.expiresAt), hint, now);
            && (created.Failure? ==> r == Failure(created.error)) && (created.Success? ==> r.Success?)
            && (r.Success? ==> r.value.key == created.value.key && r.value.key != key
                               && Ended(created.value.tables, r.value.tables, key, now)))
  {
    hide Trim, FindAssetNetwork, NormalizeAddress, NormalizeMemo;
  }

  // ---- recipients ----

  /** A new recipient is active under a free name, and its identifier free before. */
  lemma CreateRecipientMeans(t: Tables, partnerId: nat, externalId: string, primaryIdentifier: string,
                             displayName: Option<string>, kind: nat, visibility: Visibility)
    ensures var r := CreateRecipient(t, partnerId, externalId, primaryIdentifier, displayName, kind, visibility);
      var key, value := RecipientKey(partnerId, Trim(externalId)), NormalizeIdentifier(Trim(primaryIdentifier));
      && (r.Success? <==>
            && Trim(externalId) != "" && Trim(primaryIdentifier) != "" && value.Some? && key !in t.recipients
            && forall k :: k in t.identifiers ==> !(k.partnerId == partnerId && k.kind == kind && k.value == value.value))
      && (r.Failure? ==> r.error in {BadRequest, Conflict})
      && (r == Failure(BadRequest) ==> Trim(externalId) == "" || Trim(primaryIdentifier) == "" || value.None?)
      && (r == Failure(Conflict) ==>
            || key in t.recipients
            || exists k :: k in t.identifiers && k.partnerId == partnerId && k.kind == kind && Some(k.value) == value)
      && (r.Success? ==>
            var t' := r.value;
            && t' == t.(recipients := t'.recipients, identifiers := t'.identifiers)
            && t'.recipients == t.recipients[key := Recipient(
                 if displayName.Some? && Trim(displayName.value) != "" then Some(Trim(displayName.value)) else None,
                 RECIPIENT_ACTIVE)]
            && t'.identifiers == t.identifiers[IdentifierKey(partnerId, kind, value.value) :=
                 Identifier(key, Trim(primaryIdentifier), IDENTIFIER_ACTIVE, visibility)])
  {
    hide Trim, NormalizeIdentifier;
    var value := NormalizeIdentifier(Trim(primaryIdentifier));
    if value.Some? {
      assert forall k: IdentifierKey :: k.partnerId == partnerId && k.kind == kind && k.value == value.value ==>
        k == IdentifierKey(partnerId, kind, value.value);
    }
  }

  /** A recipient that is disabled was active before and is suspended afterwards, and nothing else differs. */
  lemma DisableMeans(t: Tables, partnerId: nat, key: RecipientKey)
    ensures var r := DisableRecipient(t, partnerId, key);
      && (r.Success? <==> key in t.recipients && key.partnerId == partnerId
                          && t.recipients[key].status == RECIPIENT_ACTIVE)
      && (r == Failure(NotFound) <==> key !in t.recipients || key.partnerId != partnerId)
      && (r.Failure? ==> r.error in {NotFound, Conflict})
      && (r.Success? ==>
            && r.value == t.(recipients := r.value.recipients) && r.value.recipients.Keys == t.recipients.Keys
            && (forall k :: k in t.recipients && k != key ==> r.value.recipients[k] == t.recipients[k])
            && r.value.recipients[key].status == RECIPIENT_SUSPENDED
            && r.value.recipients[key].displayName == t.recipients[key].displayName)
  {
  }
}
