/**
 The services that write the registry, step by step, each proved against its function in module Registry. The three
 services share one database, so their methods share one class; a failed transaction restores what it had written.
 */
module RegistryServices {
  import opened Wrappers
  import opened Text
  import opened Normalization
  import opened Registry
  import opened RegistryMeaning

  class RegistryDatabase {
    const networks: seq<Network>
    var recipients: map<RecipientKey, Recipient>
    var identifiers: map<IdentifierKey, Identifier>
    var destinations: map<DestinationKey, Destination>
    var attestations: seq<Attestation>

    constructor (networks: seq<Network>)
      ensures this.networks == networks && Rows() == EMPTY
    {
      this.networks := networks;
      recipients, identifiers, destinations, attestations := map[], map[], map[], [];
    }

    function Rows(): Tables
      reads this
    {
      Tables(recipients, identifiers, destinations, attestations)
    }

    // ---- recipients.service.ts ----

    method UpsertRecipient(key: RecipientKey, displayName: Option<string>)
      modifies this`recipients
      ensures recipients == old(recipients)[key := Recipient(TrimmedName(displayName), RECIPIENT_ACTIVE)]
    {
      if key in recipients {
        recipients := recipients[key := recipients[key].(displayName := TrimmedName(displayName),
                                                         status := RECIPIENT_ACTIVE)];
      } else {
        recipients := recipients[key := Recipient(TrimmedName(displayName), RECIPIENT_ACTIVE)];
      }
    }

    method UpsertIdentifier(key: IdentifierKey, recipient: RecipientKey, value: string)
      modifies this`identifiers
      ensures identifiers ==
              old(identifiers)[key := Identifier(recipient, Trim(value), IDENTIFIER_ACTIVE, RESOLVABLE)]
    {
      if key in identifiers {
        identifiers := identifiers[key := identifiers[key].(
          recipient := recipient, rawValue := Trim(value), status := IDENTIFIER_ACTIVE, visibility := RESOLVABLE)];
      } else {
        identifiers := identifiers[key := Identifier(recipient, Trim(value), IDENTIFIER_ACTIVE, RESOLVABLE)];
      }
    }

    method CreatePartnerRecipient(partnerId: nat, externalId: string, primaryIdentifier: string,
                                  displayName: Option<string>, kind: nat, visibility: Visibility)
      returns (r: Result<RecipientKey, RegistryError>)
      modifies this`recipients, this`identifiers
      ensures match CreateRecipient(old(Rows()), partnerId, externalId, primaryIdentifier, displayName, kind, visibility)
              case Success(t) => r == Success(RecipientKey(partnerId, Trim(externalId))) && Rows() == t
              case Failure(error) => r == Failure(error) && Rows() == old(Rows())
    {
      hide Trim, NormalizeIdentifier;
      var id, identifier := Trim(externalId), Trim(primaryIdentifier);
      if id == "" { return Failure(BadRequest); }
      if identifier == "" { return Failure(BadRequest); }
      var key := RecipientKey(partnerId, id);
      if key in recipients { return Failure(Conflict); }
      var normalized := NormalizeIdentifier(identifier);
      if normalized == None { return Failure(BadRequest); }
      var identifierKey := IdentifierKey(partnerId, kind, normalized.value);
      if identifierKey in identifiers { return Failure(Conflict); }
      recipients := recipients[key := Recipient(TrimmedName(displayName), RECIPIENT_ACTIVE)];
      identifiers := identifiers[identifierKey := Identifier(key, identifier, IDENTIFIER_ACTIVE, visibility)];
      r := Success(key);
    }

    method DisablePartnerRecipient(partnerId: nat, key: RecipientKey) returns (r: Result<RecipientKey, RegistryError>)
      modifies this`recipients
      ensures match DisableRecipient(old(Rows()), partnerId, key)
              case Success(t) => r == Success(key) && Rows() == t
              case Failure(error) => r == Failure(error) && Rows() == old(Rows())
    {
      if key.partnerId != partnerId || key !in recipients { return Failure(NotFound); }
      if recipients[key].status != RECIPIENT_ACTIVE { return Failure(Conflict); }
      recipients := recipients[key := recipients[key].(status := RECIPIENT_SUSPENDED)];
      r := Success(key);
    }

    // ---- attestations.service.ts ----

    method ResolveAttestationCorridor(f: Fields, standard: nat, decimals: Option<nat>)
      returns (r: Result<nat, RegistryError>)
      ensures r == ResolveCorridor(networks, f, standard, decimals)
    {
      var found: Option<nat> := None;
      for i := 0 to |networks|
        invariant found == FindCorridor(networks, f, standard, i)
      {
        if found == None && IsCorridor(networks[i], f, standard) {
          found := Some(i);
        }
      }
      if found == None { return Failure(BadRequest); }
      if decimals.Some? && networks[found.value].decimals != decimals.value { return Failure(BadRequest); }
      r := Success(found.value);
    }

    method ApplyDestinationAttestation(key: DestinationKey, input: AttestationInput)
      returns (r: Result<DestinationKey, RegistryError>)
      modifies this`destinations
      ensures match ApplyDestination(old(destinations), key, input)
              case Success(rows) => r == Success(key) && destinations == rows
              case Failure(error) => r == Failure(error) && destinations == old(destinations)
    {
      hide Trim;
      if input.kind == DESTINATION_REVOCATION {
        if key !in destinations { return Failure(BadRequest); }
        destinations := destinations[key := destinations[key].(
          status := REVOKED, isDefault := false, revokedAt := Some(input.effectiveFrom), expiresAt := input.expiresAt,
          lastAttestedAt := Some(input.issuedAt))];
        return Success(key);
      }
      destinations := RevokeOthers(destinations, key, input.effectiveFrom);
      if key in destinations {
        destinations := destinations[key := destinations[key].(
          addressRaw := Trim(input.address), status := ACTIVE, isDefault := true, effectiveFrom := input.effectiveFrom,
          lastAttestedAt := Some(input.issuedAt), expiresAt := input.expiresAt, revokedAt := None)];
      } else {
        destinations := destinations[key := Destination(
          Trim(input.address), ACTIVE, true, input.effectiveFrom, Some(input.issuedAt), input.expiresAt, None)];
      }
      r := Success(key);
    }

    /** The body of the ingest transaction. */
    method MaterializeAttestation(partnerId: nat, f: Fields, input: AttestationInput)
      returns (r: Result<nat, RegistryError>)
      modifies this
      ensures match Materialize(old(Rows()), networks, partnerId, f, input)
              case Success(t) => r == Success(|old(attestations)|) && Rows() == t
              case Failure(error) => r == Failure(error) && Rows() == old(Rows())
    {
      hide Trim, IsCorridor, FindCorridor, ApplyDestination, TrimmedName;
      var corridor := ResolveAttestationCorridor(f, input.standard, input.decimals);
      if corridor.Failure? { return Failure(corridor.error); }
      var savedRecipients, savedIdentifiers, savedDestinations := recipients, identifiers, destinations;
      var attestation := NewAttestation(partnerId, f, corridor.value, input);
      var recipient := attestation.destination.slot.recipient;
      UpsertRecipient(recipient, input.displayName);
      UpsertIdentifier(attestation.identifier, recipient, input.identifier);
      var destination := ApplyDestinationAttestation(attestation.destination, input);
      var duplicate := PayloadUsed(attestations, partnerId, input.payloadHash);
      if destination.Failure? || duplicate {
        recipients, identifiers, destinations := savedRecipients, savedIdentifiers, savedDestinations;
        return Failure(if destination.Failure? then destination.error else UniqueViolation);
      }
      r := Success(|attestations|);
      attestations := attestations + [attestation];
    }

    method CreateAttestation(actor: Actor, gate: Option<RegistryError>, input: AttestationInput)
      returns (r: Result<nat, RegistryError>)
      modifies this
      ensures gate.Some? ==> r.Failure? && Rows() == old(Rows())
      ensures r.Success? ==> NormalizePartnerSlug(input.partnerSlug) == Some(actor.slug)
      ensures match Ingest(old(Rows()), networks, actor, gate, input)
              case Success(ingested) => r == Success(ingested.id) && Rows() == ingested.tables
              case Failure(error) => r == Failure(error) && Rows() == old(Rows())
    {
      hide Materialize, NormalizeFields, NormalizePartnerSlug;
      var fields := NormalizeFields(input);
      if fields.Failure? { return Failure(fields.error); }
      SlugMeans(input);
      if fields.value.partnerSlug != actor.slug { return Failure(Forbidden); }
      if gate.Some? { return Failure(gate.value); }
      var existing: Option<nat> := None;
      for i := 0 to |attestations|
        invariant existing == FindSequence(attestations, actor.partnerId, input.sequenceNumber, i)
      {
        if attestations[i].partnerId == actor.partnerId && attestations[i].sequenceNumber == input.sequenceNumber {
          existing := Some(i);
        }
      }
      if existing.Some? {
        if attestations[existing.value].payloadHash != input.payloadHash { return Failure(Conflict); }
        return Success(existing.value);
      }
      if input.issuedAt > input.effectiveFrom { return Failure(BadRequest); }
      r := MaterializeAttestation(actor.partnerId, fields.value, input);
    }

    // ---- destinations.service.ts ----

    method CreatePartnerDestination(partnerId: nat, input: DestinationInput, hint: nat, now: int)
      returns (r: Result<DestinationKey, RegistryError>)
      modifies this`destinations
      ensures match CreateDestination(old(Rows()), networks, partnerId, input, hint, now)
              case Success(created) => r == Success(created.key) && Rows() == created.tables
              case Failure(error) => r == Failure(error) && Rows() == old(Rows())
    {
      hide Trim, FindAssetNetwork, NormalizeAddress, NormalizeMemo;
      var network := FindAssetNetwork(networks, input.chain, input.asset, hint);
      if network.Failure? { return Failure(network.error); }
      if input.recipientId.partnerId != partnerId || input.recipientId !in recipients { return Failure(NotFound); }
      var address := NormalizeAddress(networks[network.value].chain, input.address);
      if address == None { return Failure(BadRequest); }
      var effectiveFrom := Or(input.effectiveFrom, now);
      if input.expiresAt.Some? && input.expiresAt.value <= effectiveFrom { return Failure(BadRequest); }
      var key := DestinationKey(Slot(input.recipientId, network.value), address.value, NormalizeMemo(input.memo));
      if key in destinations { return Failure(Conflict); }
      if input.isDefault == Some(true) {
        destinations := ClearDefaults(destinations, key.slot);
      }
      destinations := destinations[key := Destination(
        Trim(input.address), PENDING, Or(input.isDefault, false), effectiveFrom, None, input.expiresAt, None)];
      r := Success(key);
    }

    method RevokePartnerDestination(partnerId: nat, key: DestinationKey, now: int)
      returns (r: Result<DestinationKey, RegistryError>)
      modifies this`destinations
      ensures match RevokeDestination(old(Rows()), partnerId, key, now)
              case Success(t) => r == Success(key) && Rows() == t
              case Failure(error) => r == Failure(error) && Rows() == old(Rows())
    {
      if key !in destinations || key.slot.recipient.partnerId != partnerId { return Failure(NotFound); }
      if destinations[key].status == REVOKED { return Failure(Conflict); }
      destinations := destinations[key := destinations[key].(
        status := REVOKED, revokedAt := Some(now), expiresAt := Some(now), isDefault := false)];
      r := Success(key);
    }

    method ReplacePartnerDestination(partnerId: nat, key: DestinationKey, input: ReplaceInput, hint: nat, now: int)
      returns (r: Result<DestinationKey, RegistryError>)
      modifies this`destinations
      ensures match ReplaceDestination(old(Rows()), networks, partnerId, key, input, hint, now)
              case Success(created) => r == Success(created.key) && Rows() == created.tables
              case Failure(error) => r == Failure(error) && Rows() == old(Rows())
    {
      if !Owns(Rows(), partnerId, key) || key.slot.network >= |networks| { return Failure(NotFound); }
      var existing, network := destinations[key], networks[key.slot.network];
      ghost var before := Rows();
      var request := DestinationInput(
        key.slot.recipient, Or(input.chain, network.chain), Or(input.asset, network.assetSymbol), input.address,
        input.memo, Some(Or(input.isDefault, existing.isDefault)), input.effectiveFrom, input.expiresAt);
      r := CreatePartnerDestination(partnerId, request, hint, now);
      if r.Success? {
        CreateKeepsRows(before, networks, partnerId, request, hint, now, key);
        hide CreateDestination;
        destinations := destinations[key := destinations[key].(
          status := REVOKED, revokedAt := Some(now), expiresAt := Some(now), isDefault := false)];
      }
    }
  }

  lemma CreateKeepsRows(t: Tables, networks: seq<Network>, partnerId: nat, input: DestinationInput, hint: nat, now: int,
                        key: DestinationKey)
    requires key in t.destinations && CreateDestination(t, networks, partnerId, input, hint, now).Success?
    ensures key in CreateDestination(t, networks, partnerId, input, hint, now).value.tables.destinations
  {
    hide Trim, FindAssetNetwork, NormalizeAddress, NormalizeMemo;
  }
}
