/**
 The read side (backend/src/resolution/resolution.service.ts): the forward lookup of resolve, the reverse lookup of
 confirmAddress, and verify on top of the forward one. What the database may answer where several answers are
 possible (findFirst without an order, the order of findMany) is a parameter, so results hold for every answer.
 */
module Lookups {
  import opened Wrappers
  import opened Text
  import opened Normalization
  import opened Registry

  /** A partner row; `rank` is the place of its display name in the collation the candidates are sorted by. */
  datatype PartnerRow = PartnerRow(slug: string, displayName: string, rank: int, active: bool, listed: bool)

  datatype Database = Database(tables: Tables, networks: seq<Network>, partners: seq<PartnerRow>, now: int)

  datatype Outcome = RESOLVED | NO_MATCH | MISMATCH | AMBIGUOUS | UNVERIFIED | ERROR

  datatype Risk = LOW | MEDIUM | HIGH | CRITICAL

  datatype Flag =
    | IDENTIFIER_MISMATCH | UNSUPPORTED_ASSET_NETWORK | ADDRESS_NOT_ATTESTED | MULTIPLE_ACTIVE_DESTINATIONS
    | ADDRESS_MISMATCH | ADDRESS_LOOKALIKE

  datatype Recommendation =
    | SafeToSend | RecipientNotFound | UnsupportedAssetNetwork | NoVerifiedDestination | ManualReviewRequired
    | AddressNotConfirmed | SelectPlatform | DoNotSend | InvalidRequest

  datatype Candidate = Candidate(id: nat, slug: string, displayName: string)

  datatype LookupResult = LookupResult(
    outcome: Outcome, risk: Risk, recommendation: Recommendation, flags: seq<Flag>, verified: bool,
    platform: Option<string>, address: Option<string>, destination: Option<DestinationKey>, attestation: Option<nat>,
    candidates: seq<Candidate>, requiresSelection: bool)

  function Refused(outcome: Outcome, risk: Risk, recommendation: Recommendation, flag: Flag, platform: Option<string>)
    : LookupResult
  {
    LookupResult(outcome, risk, recommendation, [flag], false, platform, None, None, None, [], false)
  }

  /** What the database answers: rows by key, and the position of the latest attestation. */
  datatype Answers = Answers(
    identifier: Option<IdentifierKey>, hint: nat, rows: seq<DestinationKey>, latest: Option<nat>)

  // ---- the queries ----

  predicate PartnerActive(db: Database, id: nat) {
    id < |db.partners| && db.partners[id].active
  }

  predicate Resolvable(db: Database, key: IdentifierKey, value: string) {
    && key in db.tables.identifiers && key.value == value
    && db.tables.identifiers[key].status == IDENTIFIER_ACTIVE
    && db.tables.identifiers[key].visibility == RESOLVABLE
    && var recipient := db.tables.identifiers[key].recipient;
    && recipient in db.tables.recipients && db.tables.recipients[recipient].status == RECIPIENT_ACTIVE
    && PartnerActive(db, recipient.partnerId)
  }

  predicate InForceAt(row: Destination, now: int) {
    row.status == ACTIVE && row.effectiveFrom <= now && (row.expiresAt.None? || row.expiresAt.value > now)
  }

  predicate ForwardRow(db: Database, slot: Slot, key: DestinationKey) {
    key in db.tables.destinations && key.slot == slot && InForceAt(db.tables.destinations[key], db.now)
  }

  /** `rows` is what findMany may return for a query that `key` is asked about: each matching row once. */
  predicate NoDuplicates<T(==)>(rows: seq<T>) {
    forall i, j :: 0 <= i < j < |rows| ==> rows[i] != rows[j]
  }

  predicate IsVerified(db: Database, i: nat, key: DestinationKey) {
    i < |db.tables.attestations| && db.tables.attestations[i].destination == key
    && db.tables.attestations[i].status == VERIFIED
  }

  /** The newest VERIFIED attestation of the destination, of whatever type. */
  predicate IsLatest(db: Database, key: DestinationKey, latest: Option<nat>) {
    && (latest.None? ==> forall i: nat :: i < |db.tables.attestations| ==> !IsVerified(db, i, key))
    && (latest.Some? ==>
          && IsVerified(db, latest.value, key)
          && forall i: nat :: i < |db.tables.attestations| && IsVerified(db, i, key) ==>
               db.tables.attestations[i].issuedAt <= db.tables.attestations[latest.value].issuedAt)
  }

  // ---- resolve ----

  datatype LookupInput = LookupInput(identifier: string, chain: string, assetCode: string, assetSymbol: string)

  function NormalizeLookupInput(identifier: string, chain: string, asset: string): Option<LookupInput> {
    match (NormalizeIdentifier(identifier), NormalizeChain(chain), NormalizeAssetCode(asset),
           NormalizeAssetSymbol(asset))
    case (Some(id), Some(slug), Some(code), Some(symbol)) => Some(LookupInput(id, slug, code, symbol))
    case _ => None
  }

  function NetworkOf(db: Database, input: LookupInput, hint: nat): (r: Option<nat>)
    ensures r.Some? ==> r.value < |db.networks| && db.networks[r.value].chain == input.chain
  {
    FindNetwork(db.networks, input.chain, input.assetCode, input.assetSymbol, hint)
  }

  function OwnerSlug(db: Database, recipient: RecipientKey): Option<string> {
    if recipient.partnerId < |db.partners| then Some(db.partners[recipient.partnerId].slug) else None
  }

  /** The answers lookupVerifiedDestination may get. */
  ghost predicate ForwardAnswers(db: Database, input: LookupInput, a: Answers) {
    && (a.identifier.None? ==> forall key :: !Resolvable(db, key, input.identifier))
    && (a.identifier.Some? ==>
          && Resolvable(db, a.identifier.value, input.identifier)
          && (NetworkOf(db, input, a.hint).Some? ==>
                && NoDuplicates(a.rows)
                && (forall key :: key in a.rows <==> ForwardRow(db, SlotOf(db, input, a), key))
                && (|a.rows| == 1 ==> IsLatest(db, a.rows[0], a.latest))))
  }

  function SlotOf(db: Database, input: LookupInput, a: Answers): Slot
    requires a.identifier.Some? && Resolvable(db, a.identifier.value, input.identifier)
    requires NetworkOf(db, input, a.hint).Some?
  {
    Slot(db.tables.identifiers[a.identifier.value].recipient, NetworkOf(db, input, a.hint).value)
  }

  function LookupVerifiedDestination(db: Database, input: LookupInput, a: Answers): LookupResult {
    if a.identifier.None? || !Resolvable(db, a.identifier.value, input.identifier)
    then Refused(NO_MATCH, HIGH, RecipientNotFound, IDENTIFIER_MISMATCH, None)
    else
      var platform := OwnerSlug(db, db.tables.identifiers[a.identifier.value].recipient);
      if NetworkOf(db, input, a.hint).None?
      then Refused(UNVERIFIED, HIGH, UnsupportedAssetNetwork, UNSUPPORTED_ASSET_NETWORK, platform)
      else if |a.rows| == 0 then Refused(UNVERIFIED, HIGH, NoVerifiedDestination, ADDRESS_NOT_ATTESTED, platform)
      else if |a.rows| > 1 || a.rows[0] !in db.tables.destinations
      then Refused(AMBIGUOUS, CRITICAL, ManualReviewRequired, MULTIPLE_ACTIVE_DESTINATIONS, platform)
      else
        var key := a.rows[0];
        LookupResult(RESOLVED, LOW, SafeToSend, [], true, platform, Some(db.tables.destinations[key].addressRaw),
                     Some(key), a.latest, [], false)
  }

  // ---- verify ----

  datatype VerifyResult = VerifyResult(lookup: LookupResult, matched: bool, verified: bool)

  /** The given address against the resolved one, both normalized. */
  function Compare(lookup: LookupResult, given: string, resolved: string): VerifyResult {
    if given == resolved then VerifyResult(lookup, true, lookup.verified)
    else
      var flags := lookup.flags + [ADDRESS_MISMATCH];
      VerifyResult(
        lookup.(outcome := MISMATCH, risk := HIGH, recommendation := DoNotSend,
                flags := if LooksLike(Trim(given), Trim(resolved)) then flags + [ADDRESS_LOOKALIKE] else flags),
        false, false)
  }

  /** The lookup, and the comparison if it returned an address; None is a BadRequest thrown by a normalizer. */
  function CompareLookup(chain: string, lookup: LookupResult, given: string): Option<VerifyResult> {
    if lookup.address.None? || lookup.address.value == "" then Some(VerifyResult(lookup, false, false))
    else
      match NormalizeAddress(chain, lookup.address.value)
      case None => None
      case Some(resolved) => Some(Compare(lookup, given, resolved))
  }

  function EvaluateVerifyLookup(db: Database, identifier: string, chain: string, asset: string, address: string,
                                a: Answers): Option<VerifyResult>
  {
    match NormalizeLookupInput(identifier, chain, asset)
    case None => None
    case Some(input) =>
      match NormalizeAddress(input.chain, address)
      case None => None
      case Some(given) => CompareLookup(input.chain, LookupVerifiedDestination(db, input, a), given)
  }

  /** A sensitive field after trimming, if it is neither empty nor too long. */
  function ReadSensitiveInput(value: string, maxLength: nat): Option<string> {
    if Trim(value) == "" || |Trim(value)| > maxLength then None else Some(Trim(value))
  }

  function Resolve(db: Database, identifier: string, chain: string, asset: string, a: Answers): Option<LookupResult> {
    match ReadSensitiveInput(identifier, 128)
    case None => None
    case Some(id) =>
      match NormalizeLookupInput(id, chain, asset)
      case None => None
      case Some(input) => Some(LookupVerifiedDestination(db, input, a))
  }

  function Verify(db: Database, identifier: string, chain: string, asset: string, address: string, a: Answers)
    : Option<VerifyResult>
  {
    match (ReadSensitiveInput(identifier, 128), ReadSensitiveInput(address, 200))
    case (Some(id), Some(submitted)) => EvaluateVerifyLookup(db, id, chain, asset, submitted, a)
    case _ => None
  }

  // ---- confirmAddress ----

  datatype ConfirmInput = ConfirmInput(
    platform: Option<string>, chain: string, assetCode: string, assetSymbol: string, address: string)

  function NormalizeConfirmInput(platform: Option<string>, chain: string, asset: string, address: string)
    : Option<ConfirmInput>
  {
    var name := if platform == None || Trim(platform.value) == "" then None
                else NormalizePartnerSlug(Trim(platform.value));
    match (NormalizeChain(chain), NormalizeAssetCode(asset), NormalizeAssetSymbol(asset))
    case (Some(slug), Some(code), Some(symbol)) => (
      match NormalizeAddress(slug, address)
      case Some(normalized) => Some(ConfirmInput(name, slug, code, symbol, normalized))
      case None => None)
    case _ => None
  }

  predicate ReverseRow(db: Database, network: nat, input: ConfirmInput, key: DestinationKey) {
    && key in db.tables.destinations && key.slot.network == network && key.address == input.address
    && InForceAt(db.tables.destinations[key], db.now)
    && key.slot.recipient.partnerId < |db.partners|
    && var partner := db.partners[key.slot.recipient.partnerId];
    if input.platform.Some? then partner.slug == input.platform.value else partner.listed
  }

  predicate OwnerActive(db: Database, key: DestinationKey) {
    && key.slot.recipient in db.tables.recipients
    && db.tables.recipients[key.slot.recipient].status == RECIPIENT_ACTIVE
    && PartnerActive(db, key.slot.recipient.partnerId)
  }

  /** The rows whose recipient and partner are active, in the order they came. */
  function ActiveRows(db: Database, rows: seq<DestinationKey>): (r: seq<DestinationKey>)
    ensures forall key :: key in r <==> key in rows && OwnerActive(db, key)
    ensures OwnersKnown(db.partners, r)
    ensures NoDuplicates(rows) ==> NoDuplicates(r)
  {
    if rows == [] then []
    else
      var before := ActiveRows(db, rows[..|rows| - 1]);
      if OwnerActive(db, rows[|rows| - 1]) then before + [rows[|rows| - 1]] else before
  }

  predicate Known(partners: seq<PartnerRow>, ids: seq<nat>) {
    forall i :: 0 <= i < |ids| ==> ids[i] < |partners|
  }

  predicate OwnersKnown(partners: seq<PartnerRow>, rows: seq<DestinationKey>) {
    forall i :: 0 <= i < |rows| ==> rows[i].slot.recipient.partnerId < |partners|
  }

  /** The partners of the rows, each once, in the order they first appear. */
  function PartnerIds(partners: seq<PartnerRow>, rows: seq<DestinationKey>): (r: seq<nat>)
    requires OwnersKnown(partners, rows)
    ensures NoDuplicates(r) && Known(partners, r)
    ensures forall id: nat :: id in r <==> exists i :: 0 <= i < |rows| && rows[i].slot.recipient.partnerId == id
  {
    if rows == [] then []
    else
      var before, id := PartnerIds(partners, rows[..|rows| - 1]), rows[|rows| - 1].slot.recipient.partnerId;
      if id in before then before else before + [id]
  }

  /** `id` placed behind every partner whose name does not sort after its own. */
  function Insert(partners: seq<PartnerRow>, sorted: seq<nat>, id: nat): (r: seq<nat>)
    requires id < |partners| && Known(partners, sorted)
    ensures Known(partners, r) && |r| == |sorted| + 1
    ensures forall x: nat :: x in r <==> x in sorted || x == id
  {
    if sorted == [] || partners[sorted[|sorted| - 1]].rank <= partners[id].rank then sorted + [id]
    else Insert(partners, sorted[..|sorted| - 1], id) + [sorted[|sorted| - 1]]
  }

  function SortByName(partners: seq<PartnerRow>, ids: seq<nat>): (r: seq<nat>)
    requires Known(partners, ids)
    ensures Known(partners, r) && |r| == |ids|
    ensures forall x: nat :: x in r <==> x in ids
  {
    if ids == [] then [] else Insert(partners, SortByName(partners, ids[..|ids| - 1]), ids[|ids| - 1])
  }

  function CandidateOf(db: Database, id: nat): Candidate
    requires id < |db.partners|
  {
    Candidate(id, db.partners[id].slug, db.partners[id].displayName)
  }

  function CandidatePlatforms(db: Database, rows: seq<DestinationKey>): (r: seq<Candidate>)
    requires OwnersKnown(db.partners, rows)
    ensures |r| == |PartnerIds(db.partners, rows)|
  {
    var ids := SortByName(db.partners, PartnerIds(db.partners, rows));
    seq(|ids|, i requires 0 <= i < |ids| => CandidateOf(db, ids[i]))
  }

  function ReverseNetwork(db: Database, input: ConfirmInput, hint: nat): (r: Option<nat>)
    ensures r.Some? ==> r.value < |db.networks| && db.networks[r.value].chain == input.chain
  {
    FindNetwork(db.networks, input.chain, input.assetCode, input.assetSymbol, hint)
  }

  /** The answers lookupRecipientConfirmation may get. */
  ghost predicate ReverseAnswers(db: Database, input: ConfirmInput, a: Answers) {
    ReverseNetwork(db, input, a.hint).Some? ==>
      && NoDuplicates(a.rows)
      && (forall key :: key in a.rows <==> ReverseRow(db, ReverseNetwork(db, input, a.hint).value, input, key))
      && (|ActiveRows(db, a.rows)| == 1 ==> IsLatest(db, ActiveRows(db, a.rows)[0], a.latest))
  }

  function LookupRecipientConfirmation(db: Database, input: ConfirmInput, a: Answers): LookupResult {
    if ReverseNetwork(db, input, a.hint).None?
    then Refused(UNVERIFIED, HIGH, UnsupportedAssetNetwork, UNSUPPORTED_ASSET_NETWORK, input.platform)
    else
      var rows := ActiveRows(db, a.rows);
      if |rows| == 0 then Refused(NO_MATCH, HIGH, AddressNotConfirmed, ADDRESS_NOT_ATTESTED, input.platform)
      else
        assert forall i :: 0 <= i < |rows| ==> OwnerActive(db, rows[i]);
        var candidates := CandidatePlatforms(db, rows);
        if |rows| > 1 then
          if input.platform.None? && |candidates| > 1 then
            Refused(AMBIGUOUS, HIGH, SelectPlatform, MULTIPLE_ACTIVE_DESTINATIONS, None)
              .(candidates := candidates, requiresSelection := true)
          else
            Refused(AMBIGUOUS, CRITICAL, ManualReviewRequired, MULTIPLE_ACTIVE_DESTINATIONS,
                    if input.platform.Some? then input.platform
                    else if |candidates| > 0 then Some(candidates[0].slug) else None)
              .(candidates := candidates)
        else
          LookupResult(RESOLVED, LOW, SafeToSend, [], true, OwnerSlug(db, rows[0].slot.recipient), None,
                       Some(rows[0]), a.latest, [], false)
  }

  function ConfirmAddress(db: Database, platform: Option<string>, chain: string, asset: string, address: string,
                          a: Answers): Option<LookupResult>
  {
    match ReadSensitiveInput(address, 200)
    case None => None
    case Some(submitted) =>
      match NormalizeConfirmInput(platform, chain, asset, submitted)
      case None => None
      case Some(input) => Some(LookupRecipientConfirmation(db, input, a))
  }
}
