/**
 The recipient and destination registry: its tables and what each call of the attestation, destination and recipient
 services does to them (backend/src/attestations/attestations.service.ts,
 backend/src/destinations/destinations.service.ts, backend/src/recipients/recipients.service.ts). A table is a map
 from the columns of its unique index; rows are never deleted. Each call is one step.
 */
module Registry {
  import opened Wrappers
  import opened Text
  import opened Normalization

  // ---- rows ----

  /** An asset on a chain; `active` flags are those of the network, the chain and the asset. */
  datatype Network = Network(
    chain: string, chainActive: bool, assetCode: string, assetSymbol: string, assetActive: bool,
    contract: string, standard: nat, decimals: nat, active: bool)

  datatype RecipientStatus = RECIPIENT_ACTIVE | RECIPIENT_SUSPENDED | RECIPIENT_CLOSED

  datatype RecipientKey = RecipientKey(partnerId: nat, externalId: string)

  datatype Recipient = Recipient(displayName: Option<string>, status: RecipientStatus)

  datatype IdentifierStatus = IDENTIFIER_ACTIVE | IDENTIFIER_DISABLED | IDENTIFIER_REVOKED

  datatype Visibility = PRIVATE | SEARCHABLE | RESOLVABLE

  datatype IdentifierKey = IdentifierKey(partnerId: nat, kind: nat, value: string)

  datatype Identifier = Identifier(
    recipient: RecipientKey, rawValue: string, status: IdentifierStatus, visibility: Visibility)

  datatype DestinationStatus = PENDING | ACTIVE | REVOKED | EXPIRED

  /** A recipient on one asset network; at most one address is in force there. */
  datatype Slot = Slot(recipient: RecipientKey, network: nat)

  datatype DestinationKey = DestinationKey(slot: Slot, address: string, memo: string)

  datatype Destination = Destination(
    addressRaw: string, status: DestinationStatus, isDefault: bool, effectiveFrom: int,
    lastAttestedAt: Option<int>, expiresAt: Option<int>, revokedAt: Option<int>)

  datatype AttestationType =
    DESTINATION_ASSIGNMENT | DESTINATION_ROTATION | DESTINATION_REVOCATION | IDENTIFIER_BINDING

  datatype VerificationStatus = NOT_VERIFIED | VERIFIED

  datatype Attestation = Attestation(
    partnerId: nat, kind: AttestationType, identifier: IdentifierKey, destination: DestinationKey, addressRaw: string,
    payloadHash: nat, sequenceNumber: nat, issuedAt: int, effectiveFrom: int, expiresAt: Option<int>,
    status: VerificationStatus)

  datatype Tables = Tables(
    recipients: map<RecipientKey, Recipient>, identifiers: map<IdentifierKey, Identifier>,
    destinations: map<DestinationKey, Destination>, attestations: seq<Attestation>)

  const EMPTY := Tables(map[], map[], map[], [])

  datatype RegistryError = BadRequest | Forbidden | NotFound | Conflict | UniqueViolation | Rejected

  // ---- attestations ----

  datatype AttestationInput = AttestationInput(
    partnerSlug: string, kind: AttestationType, externalId: string, displayName: Option<string>, identifierKind: nat,
    identifier: string, chain: string, assetCode: string, assetSymbol: string, standard: nat, decimals: Option<nat>,
    contract: Option<string>, address: string, memo: Option<string>, payloadHash: nat, sequenceNumber: nat,
    issuedAt: int, effectiveFrom: int, expiresAt: Option<int>)

  datatype Fields = Fields(
    partnerSlug: string, identifier: string, chain: string, assetCode: string, assetSymbol: string, contract: string,
    address: string, memo: string)

  /** The authenticated partner. */
  datatype Actor = Actor(partnerId: nat, slug: string)

  function NormalizeFields(input: AttestationInput): Result<Fields, RegistryError> {
    if NormalizeChain(input.chain) == None || |Trim(input.identifier)| > 128 then Failure(BadRequest)
    else
      var chain := NormalizeChain(input.chain).value;
      match (NormalizePartnerSlug(input.partnerSlug), NormalizeIdentifier(input.identifier),
             NormalizeAssetCode(input.assetCode), NormalizeAssetSymbol(input.assetSymbol),
             NormalizeContractAddress(chain, input.contract), NormalizeAddress(chain, input.address))
      case (Some(slug), Some(identifier), Some(code), Some(symbol), Some(contract), Some(address)) =>
        Success(Fields(slug, identifier, chain, code, symbol, contract, address, NormalizeMemo(input.memo)))
      case _ => Failure(BadRequest)
  }

  predicate IsCorridor(network: Network, f: Fields, standard: nat) {
    && network.chain == f.chain && network.chainActive
    && network.assetCode == f.assetCode && network.assetSymbol == f.assetSymbol && network.assetActive
    && network.contract == f.contract && network.standard == standard && network.active
  }

  /** The first corridor among the first `n` networks. */
  function FindCorridor(networks: seq<Network>, f: Fields, standard: nat, n: nat): (r: Option<nat>)
    requires n <= |networks|
    ensures r.Some? ==> r.value < n && IsCorridor(networks[r.value], f, standard)
    ensures r.None? ==> forall i :: 0 <= i < n ==> !IsCorridor(networks[i], f, standard)
  {
    if n == 0 then None
    else if FindCorridor(networks, f, standard, n - 1).Some? then FindCorridor(networks, f, standard, n - 1)
    else if IsCorridor(networks[n - 1], f, standard) then Some(n - 1)
    else None
  }

  function ResolveCorridor(networks: seq<Network>, f: Fields, standard: nat, decimals: Option<nat>)
    : (r: Result<nat, RegistryError>)
    ensures r.Success? ==> r.value < |networks| && IsCorridor(networks[r.value], f, standard)
  {
    match FindCorridor(networks, f, standard, |networks|)
    case None => Failure(BadRequest)
    case Some(i) =>
      if decimals.Some? && networks[i].decimals != decimals.value then Failure(BadRequest) else Success(i)
  }

  function FindSequence(attestations: seq<Attestation>, partnerId: nat, sequenceNumber: nat, n: nat): (r: Option<nat>)
    requires n <= |attestations|
    ensures r.Some? ==> r.value < n && attestations[r.value].partnerId == partnerId
                        && attestations[r.value].sequenceNumber == sequenceNumber
    ensures r.None? ==> forall i :: 0 <= i < n ==>
      attestations[i].partnerId != partnerId || attestations[i].sequenceNumber != sequenceNumber
  {
    if n == 0 then None
    else if attestations[n - 1].partnerId == partnerId && attestations[n - 1].sequenceNumber == sequenceNumber
    then Some(n - 1)
    else FindSequence(attestations, partnerId, sequenceNumber, n - 1)
  }

  predicate PayloadUsed(attestations: seq<Attestation>, partnerId: nat, payloadHash: nat) {
    exists i :: 0 <= i < |attestations| && attestations[i].partnerId == partnerId
                && attestations[i].payloadHash == payloadHash
  }

  /** Every other ACTIVE row of the slot is revoked. */
  function RevokeOthers(rows: map<DestinationKey, Destination>, key: DestinationKey, effectiveFrom: int)
    : map<DestinationKey, Destination>
  {
    map k | k in rows ::
      if k.slot == key.slot && k != key && rows[k].status == ACTIVE
      then rows[k].(status := REVOKED, isDefault := false, revokedAt := Some(effectiveFrom))
      else rows[k]
  }

  function ApplyDestination(rows: map<DestinationKey, Destination>, key: DestinationKey, input: AttestationInput)
    : Result<map<DestinationKey, Destination>, RegistryError>
  {
    if input.kind == DESTINATION_REVOCATION then
      if key !in rows then Failure(BadRequest)
      else Success(rows[key := rows[key].(
        status := REVOKED, isDefault := false, revokedAt := Some(input.effectiveFrom), expiresAt := input.expiresAt,
        lastAttestedAt := Some(input.issuedAt))])
    else
      Success(RevokeOthers(rows, key, input.effectiveFrom)[key := Destination(
        Trim(input.address), ACTIVE, true, input.effectiveFrom, Some(input.issuedAt), input.expiresAt, None)])
  }

  function TrimmedName(displayName: Option<string>): Option<string> {
    if displayName == None || Trim(displayName.value) == "" then None else Some(Trim(displayName.value))
  }

  /** The row an accepted attestation appends to the log. */
  function NewAttestation(partnerId: nat, f: Fields, network: nat, input: AttestationInput): Attestation {
    Attestation(
      partnerId, input.kind, IdentifierKey(partnerId, input.identifierKind, f.identifier),
      DestinationKey(Slot(RecipientKey(partnerId, Trim(input.externalId)), network), f.address, f.memo),
      Trim(input.address), input.payloadHash, input.sequenceNumber, input.issuedAt, input.effectiveFrom,
      input.expiresAt, VERIFIED)
  }

  /** The transaction body: all four tables change, or none does. */
  function Materialize(t: Tables, networks: seq<Network>, partnerId: nat, f: Fields, input: AttestationInput)
    : Result<Tables, RegistryError>
  {
    match ResolveCorridor(networks, f, input.standard, input.decimals)
    case Failure(error) => Failure(error)
    case Success(network) =>
      var a := NewAttestation(partnerId, f, network, input);
      var recipient := a.destination.slot.recipient;
      match ApplyDestination(t.destinations, a.destination, input)
      case Failure(error) => Failure(error)
      case Success(destinations) =>
        if PayloadUsed(t.attestations, partnerId, input.payloadHash) then Failure(UniqueViolation)
        else Success(Tables(
          t.recipients[recipient := Recipient(TrimmedName(input.displayName), RECIPIENT_ACTIVE)],
          t.identifiers[a.identifier := Identifier(recipient, Trim(input.identifier), IDENTIFIER_ACTIVE, RESOLVABLE)],
          destinations, t.attestations + [a]))
  }

  datatype Ingested = Ingested(id: nat, tables: Tables)

  /** What becomes of a request that has been authenticated. */
  function Admit(t: Tables, networks: seq<Network>, partnerId: nat, f: Fields, input: AttestationInput)
    : Result<Ingested, RegistryError>
  {
    match FindSequence(t.attestations, partnerId, input.sequenceNumber, |t.attestations|)
    case Some(i) =>
      if t.attestations[i].payloadHash != input.payloadHash then Failure(Conflict) else Success(Ingested(i, t))
    case None =>
      if input.issuedAt > input.effectiveFrom then Failure(BadRequest)
      else
        match Materialize(t, networks, partnerId, f, input)
        case Failure(error) => Failure(error)
        case Success(t') => Success(Ingested(|t.attestations|, t'))
  }

  /** `gate` is what the signing-key, signature and replay checks say of the request; None is a pass. */
  function Ingest(t: Tables, networks: seq<Network>, actor: Actor, gate: Option<RegistryError>, input: AttestationInput)
    : Result<Ingested, RegistryError>
  {
    match NormalizeFields(input)
    case Failure(error) => Failure(error)
    case Success(f) =>
      if f.partnerSlug != actor.slug then Failure(Forbidden)
      else if gate.Some? then Failure(gate.value)
      else Admit(t, networks, actor.partnerId, f, input)
  }

  // ---- destinations ----

  datatype DestinationInput = DestinationInput(
    recipientId: RecipientKey, chain: string, asset: string, address: string, memo: Option<string>,
    isDefault: Option<bool>, effectiveFrom: Option<int>, expiresAt: Option<int>)

  predicate IsNetworkFor(network: Network, chain: string, assetCode: string, assetSymbol: string) {
    && network.chain == chain && network.chainActive && network.active
    && (network.assetCode == assetCode || network.assetSymbol == assetSymbol)
  }

  /** A matching network: the one at `hint` if that matches, else the first. Every answer of findFirst is such. */
  function FindNetwork(networks: seq<Network>, chain: string, assetCode: string, assetSymbol: string, hint: nat)
    : (r: Option<nat>)
    ensures r.Some? ==> r.value < |networks| && IsNetworkFor(networks[r.value], chain, assetCode, assetSymbol)
    ensures r.None? ==> forall i :: 0 <= i < |networks| ==> !IsNetworkFor(networks[i], chain, assetCode, assetSymbol)
  {
    if hint < |networks| && IsNetworkFor(networks[hint], chain, assetCode, assetSymbol) then Some(hint)
    else FirstNetwork(networks, chain, assetCode, assetSymbol, |networks|)
  }

  function FirstNetwork(networks: seq<Network>, chain: string, assetCode: string, assetSymbol: string, n: nat)
    : (r: Option<nat>)
    requires n <= |networks|
    ensures r.Some? ==> r.value < n && IsNetworkFor(networks[r.value], chain, assetCode, assetSymbol)
    ensures r.None? ==> forall i :: 0 <= i < n ==> !IsNetworkFor(networks[i], chain, assetCode, assetSymbol)
  {
    if n == 0 then None
    else if FirstNetwork(networks, chain, assetCode, assetSymbol, n - 1).Some?
    then FirstNetwork(networks, chain, assetCode, assetSymbol, n - 1)
    else if IsNetworkFor(networks[n - 1], chain, assetCode, assetSymbol) then Some(n - 1)
    else None
  }

  function FindAssetNetwork(networks: seq<Network>, chain: string, asset: string, hint: nat)
    : (r: Result<nat, RegistryError>)
    ensures r.Success? ==> r.value < |networks|
  {
    match (NormalizeChain(chain), NormalizeAssetCode(asset), NormalizeAssetSymbol(asset))
    case (Some(slug), Some(code), Some(symbol)) => (
      match FindNetwork(networks, slug, code, symbol, hint)
      case Some(i) => Success(i)
      case None => Failure(NotFound))
    case _ => Failure(BadRequest)
  }

  /** No row of the slot is the default any more. */
  function ClearDefaults(rows: map<DestinationKey, Destination>, slot: Slot): map<DestinationKey, Destination> {
    map k | k in rows :: if k.slot == slot then rows[k].(isDefault := false) else rows[k]
  }

  datatype Created = Created(key: DestinationKey, tables: Tables)

  function CreateDestination(t: Tables, networks: seq<Network>, partnerId: nat, input: DestinationInput, hint: nat,
                             now: int): Result<Created, RegistryError>
  {
    match FindAssetNetwork(networks, input.chain, input.asset, hint)
    case Failure(error) => Failure(error)
    case Success(network) =>
      var effectiveFrom := Or(input.effectiveFrom, now);
      if input.recipientId.partnerId != partnerId || input.recipientId !in t.recipients then Failure(NotFound)
      else
        match NormalizeAddress(networks[network].chain, input.address)
        case None => Failure(BadRequest)
        case Some(address) =>
          var key := DestinationKey(Slot(input.recipientId, network), address, NormalizeMemo(input.memo));
          if input.expiresAt.Some? && input.expiresAt.value <= effectiveFrom then Failure(BadRequest)
          else if key in t.destinations then Failure(Conflict)
          else
            var rows := if input.isDefault == Some(true) then ClearDefaults(t.destinations, key.slot) else t.destinations;
            var row := Destination(Trim(input.address), PENDING, Or(input.isDefault, false), effectiveFrom, None,
                                   input.expiresAt, None);
            Success(Created(key, t.(destinations := rows[key := row])))
  }

  function Withdraw(rows: map<DestinationKey, Destination>, key: DestinationKey, now: int)
    : map<DestinationKey, Destination>
    requires key in rows
  {
    rows[key := rows[key].(status := REVOKED, revokedAt := Some(now), expiresAt := Some(now), isDefault := false)]
  }

  predicate Owns(t: Tables, partnerId: nat, key: DestinationKey) {
    key in t.destinations && key.slot.recipient.partnerId == partnerId
  }

  function RevokeDestination(t: Tables, partnerId: nat, key: DestinationKey, now: int): Result<Tables, RegistryError> {
    if !Owns(t, partnerId, key) then Failure(NotFound)
    else if t.destinations[key].status == REVOKED then Failure(Conflict)
    else Success(t.(destinations := Withdraw(t.destinations, key, now)))
  }

  datatype ReplaceInput = ReplaceInput(
    chain: Option<string>, asset: Option<string>, address: string, memo: Option<string>, isDefault: Option<bool>,
    effectiveFrom: Option<int>, expiresAt: Option<int>)

  /** The new row first, by the code of create; then the old one is withdrawn whatever its status. */
  function ReplaceDestination(t: Tables, networks: seq<Network>, partnerId: nat, key: DestinationKey,
                              input: ReplaceInput, hint: nat, now: int): Result<Created, RegistryError>
  {
    if !Owns(t, partnerId, key) || key.slot.network >= |networks| then Failure(NotFound)
    else
      var previous, network := t.destinations[key], networks[key.slot.network];
      var request := DestinationInput(
        key.slot.recipient, Or(input.chain, network.chain), Or(input.asset, network.assetSymbol), input.address,
        input.memo, Some(Or(input.isDefault, previous.isDefault)), input.effectiveFrom, input.expiresAt);
      match CreateDestination(t, networks, partnerId, request, hint, now)
      case Failure(error) => Failure(error)
      case Success(created) =>
        Success(Created(created.key, created.tables.(destinations := Withdraw(created.tables.destinations, key, now))))
  }

  // ---- recipients ----

  predicate IdentifierUsed(t: Tables, partnerId: nat, kind: nat, value: string) {
    IdentifierKey(partnerId, kind, value) in t.identifiers
  }

  function CreateRecipient(t: Tables, partnerId: nat, externalId: string, primaryIdentifier: string,
                           displayName: Option<string>, kind: nat, visibility: Visibility)
    : Result<Tables, RegistryError>
  {
    var key := RecipientKey(partnerId, Trim(externalId));
    if Trim(externalId) == "" || Trim(primaryIdentifier) == "" then Failure(BadRequest)
    else if key in t.recipients then Failure(Conflict)
    else
      match NormalizeIdentifier(Trim(primaryIdentifier))
      case None => Failure(BadRequest)
      case Some(value) =>
        if IdentifierUsed(t, partnerId, kind, value) then Failure(Conflict)
        else Success(t.(
          recipients := t.recipients[key := Recipient(TrimmedName(displayName), RECIPIENT_ACTIVE)],
          identifiers := t.identifiers[IdentifierKey(partnerId, kind, value) :=
            Identifier(key, Trim(primaryIdentifier), IDENTIFIER_ACTIVE, visibility)]))
  }

  function DisableRecipient(t: Tables, partnerId: nat, key: RecipientKey): Result<Tables, RegistryError> {
    if key.partnerId != partnerId || key !in t.recipients then Failure(NotFound)
    else if t.recipients[key].status != RECIPIENT_ACTIVE then Failure(Conflict)
    else Success(t.(recipients := t.recipients[key := t.recipients[key].(status := RECIPIENT_SUSPENDED)]))
  }
}
