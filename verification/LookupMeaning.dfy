/**
 What the lookups answer, in the columns of the rows they read. The sentences here use none of the predicates the
 lookups are specified with, but for what the database may answer.
 */
module LookupMeaning {
  import opened Wrappers
  import opened Text
  import opened Normalization
  import opened Registry
  import opened RegistryTheorems
  import opened RegistryMeaning
  import opened Lookups
  import opened LookupTheorems
  import opened LookupAgreement

  // ---- resolve ----

  /** The identifier is active, resolvable and of an active recipient of an active partner. */
  lemma IdentifierMeans(db: Database, key: IdentifierKey, value: string)
    ensures Resolvable(db, key, value) <==>
      && key in db.tables.identifiers && key.value == value
      && db.tables.identifiers[key].status == IDENTIFIER_ACTIVE
      && db.tables.identifiers[key].visibility == RESOLVABLE
      && db.tables.identifiers[key].recipient in db.tables.recipients
      && db.tables.recipients[db.tables.identifiers[key].recipient].status == RECIPIENT_ACTIVE
      && db.tables.identifiers[key].recipient.partnerId < |db.partners|
      && db.partners[db.tables.identifiers[key].recipient.partnerId].active
  {
  }

  lemma NetworkMeans(networks: seq<Network>, chain: string, assetCode: string, assetSymbol: string, hint: nat)
    ensures var r := FindNetwork(networks, chain, assetCode, assetSymbol, hint);
      && (r.Some? ==>
            && r.value < |networks| && networks[r.value].chain == chain
            && networks[r.value].chainActive && networks[r.value].active
            && (networks[r.value].assetCode == assetCode || networks[r.value].assetSymbol == assetSymbol))
      && (r.None? ==>
            forall n :: n in networks && n.chain == chain && n.chainActive && n.active ==>
              n.assetCode != assetCode && n.assetSymbol != assetSymbol)
  {
  }

  /**
   A RESOLVED answer is safe to send to and names an active, resolvable identifier of the value asked for, an active
   network, and the ACTIVE row of the identifier's recipient there, whose window is open now; it gives that row's
   address.
   */
  lemma ResolvedMeans(db: Database, input: LookupInput, a: Answers)
    requires ForwardAnswers(db, input, a) && LookupVerifiedDestination(db, input, a).outcome == RESOLVED
    ensures var r := LookupVerifiedDestination(db, input, a);
      && r.recommendation == SafeToSend && r.risk == LOW && r.flags == [] && r.verified
      && r.candidates == [] && !r.requiresSelection && r.attestation == a.latest
      && r.destination.Some? && r.destination.value in db.tables.destinations
      && var key, row := r.destination.value, db.tables.destinations[r.destination.value];
      && row.status == ACTIVE && row.effectiveFrom <= db.now
      && (row.expiresAt == None || db.now < row.expiresAt.value)
      && r.address == Some(row.addressRaw)
      && key.slot.network < |db.networks|
      && var network := db.networks[key.slot.network];
      && network.chain == input.chain && network.chainActive && network.active
      && (network.assetCode == input.assetCode || network.assetSymbol == input.assetSymbol)
      && key.slot.recipient in db.tables.recipients
      && db.tables.recipients[key.slot.recipient].status == RECIPIENT_ACTIVE
      && key.slot.recipient.partnerId < |db.partners| && db.partners[key.slot.recipient.partnerId].active
      && r.platform == Some(db.partners[key.slot.recipient.partnerId].slug)
      && exists id :: id in db.tables.identifiers && id.value == input.identifier
           && db.tables.identifiers[id].recipient == key.slot.recipient
           && db.tables.identifiers[id].status == IDENTIFIER_ACTIVE
           && db.tables.identifiers[id].visibility == RESOLVABLE
  {
    assert ForwardRow(db, SlotOf(db, input, a), a.rows[0]);
    NetworkMeans(db.networks, input.chain, input.assetCode, input.assetSymbol, a.hint);
    hide FindNetwork;
    assert a.identifier.value in db.tables.identifiers;
  }

  /**
   Any other answer verifies nothing and gives no address. It says that the recipient is unknown exactly when no active,
   resolvable identifier of an active recipient of an active partner has the value; that the asset is unsupported exactly
   when one has but no active network is of that chain and asset; and otherwise that no destination is verified exactly when no
   ACTIVE row of that recipient on that network has its window open now.
   */
  lemma UnresolvedMeans(db: Database, input: LookupInput, a: Answers)
    requires IsServed(db) && ForwardAnswers(db, input, a)
    ensures var r := LookupVerifiedDestination(db, input, a);
      && (r.outcome != RESOLVED ==>
            !r.verified && r.risk == HIGH && r.address == None && r.destination == None && r.attestation == None
            && r.candidates == [] && !r.requiresSelection)
      && (r.outcome == NO_MATCH <==>
            forall id :: id in db.tables.identifiers && id.value == input.identifier ==>
              var row := db.tables.identifiers[id];
              || row.status != IDENTIFIER_ACTIVE || row.visibility != RESOLVABLE
              || row.recipient !in db.tables.recipients
              || db.tables.recipients[row.recipient].status != RECIPIENT_ACTIVE
              || row.recipient.partnerId >= |db.partners| || !db.partners[row.recipient.partnerId].active)
      && (r.outcome == NO_MATCH <==> r.recommendation == RecipientNotFound)
      && (r.outcome == NO_MATCH ==> r.flags == [IDENTIFIER_MISMATCH] && r.platform == None)
      && (r.outcome != NO_MATCH ==>
            && a.identifier.Some? && a.identifier.value in db.tables.identifiers
            && db.tables.identifiers[a.identifier.value].recipient.partnerId < |db.partners|
            && r.platform == Some(db.partners[db.tables.identifiers[a.identifier.value].recipient.partnerId].slug))
      && (r.recommendation == UnsupportedAssetNetwork <==>
            && r.outcome != NO_MATCH
            && forall n :: n in db.networks && n.chain == input.chain && n.chainActive && n.active ==>
                 n.assetCode != input.assetCode && n.assetSymbol != input.assetSymbol)
      && (r.recommendation == UnsupportedAssetNetwork ==>
            r.outcome == UNVERIFIED && r.flags == [UNSUPPORTED_ASSET_NETWORK])
      && (r.recommendation == NoVerifiedDestination ==>
            r.outcome == UNVERIFIED && r.flags == [ADDRESS_NOT_ATTESTED]
            && a.identifier.Some? && NetworkOf(db, input, a.hint).Some?
            && forall key ::
                 (&& key in db.tables.destinations
                  && key.slot.recipient == db.tables.identifiers[a.identifier.value].recipient
                  && key.slot.network == NetworkOf(db, input, a.hint).value) ==>
                 var row := db.tables.destinations[key];
                 || row.status != ACTIVE || row.effectiveFrom > db.now
                 || (row.expiresAt.Some? && row.expiresAt.value <= db.now))
      && (r.outcome == RESOLVED <==> r.recommendation == SafeToSend)
      && r.recommendation in {SafeToSend, RecipientNotFound, UnsupportedAssetNetwork, NoVerifiedDestination}
  {
    ForwardIsUnambiguous(db, input, a);
    var r := LookupVerifiedDestination(db, input, a);
    forall id ensures Resolvable(db, id, input.identifier) <==>
      && id in db.tables.identifiers && id.value == input.identifier
      && db.tables.identifiers[id].status == IDENTIFIER_ACTIVE
      && db.tables.identifiers[id].visibility == RESOLVABLE
      && db.tables.identifiers[id].recipient in db.tables.recipients
      && db.tables.recipients[db.tables.identifiers[id].recipient].status == RECIPIENT_ACTIVE
      && db.tables.identifiers[id].recipient.partnerId < |db.partners|
      && db.partners[db.tables.identifiers[id].recipient.partnerId].active
    {
      IdentifierMeans(db, id, input.identifier);
    }
    NetworkMeans(db.networks, input.chain, input.assetCode, input.assetSymbol, a.hint);
    hide Resolvable, IsServed, FindNetwork;
    if r.recommendation == NoVerifiedDestination {
      forall key | key in db.tables.destinations && key.slot == SlotOf(db, input, a) ensures key !in a.rows {
        assert a.rows == [];
      }
    }
  }

  /** What is asked of the identifier, chain and asset before a lookup is made. */
  lemma ResolveMeans(db: Database, identifier: string, chain: string, asset: string, a: Answers)
    ensures Resolve(db, identifier, chain, asset, a).Some? <==>
      && Trim(identifier) != "" && |Trim(identifier)| <= 128
      && NormalizeIdentifier(Trim(identifier)).Some? && NormalizeChain(chain).Some?
      && NormalizeAssetCode(asset).Some? && NormalizeAssetSymbol(asset).Some?
    ensures Resolve(db, identifier, chain, asset, a).Some? ==>
      Resolve(db, identifier, chain, asset, a) == Some(LookupVerifiedDestination(
        db, LookupInput(NormalizeIdentifier(Trim(identifier)).value, NormalizeChain(chain).value,
                        NormalizeAssetCode(asset).value, NormalizeAssetSymbol(asset).value), a))
  {
    hide Trim, NormalizeIdentifier, NormalizeChain, NormalizeAssetCode, NormalizeAssetSymbol, LookupVerifiedDestination;
  }

  // ---- confirmAddress ----

  /**
   The row has the address on the network, is ACTIVE with its window open now, belongs to an active recipient of an
   active partner, and that partner is the platform asked for or, if none is, a listed one.
   */
  predicate Confirmable(db: Database, network: nat, input: ConfirmInput, key: DestinationKey) {
    && key in db.tables.destinations && key.slot.network == network && key.address == input.address
    && var row := db.tables.destinations[key];
    && row.status == ACTIVE && row.effectiveFrom <= db.now
    && (row.expiresAt == None || db.now < row.expiresAt.value)
    && key.slot.recipient in db.tables.recipients
    && db.tables.recipients[key.slot.recipient].status == RECIPIENT_ACTIVE
    && key.slot.recipient.partnerId < |db.partners| && db.partners[key.slot.recipient.partnerId].active
    && (match input.platform
        case Some(slug) => db.partners[key.slot.recipient.partnerId].slug == slug
        case None => db.partners[key.slot.recipient.partnerId].listed)
  }

  lemma ConfirmableMeans(db: Database, network: nat, input: ConfirmInput, key: DestinationKey)
    ensures ConfirmableRow(db, network, input, key) <==> Confirmable(db, network, input, key)
  {
  }

  /**
   confirmAddress on a known network: no match exactly when no row is confirmable; RESOLVED, safe to send and naming it,
   exactly when one row is and no other; otherwise ambiguous, and then a platform is asked for exactly if none was given
   and the rows are of more than one partner.
   */
  lemma ConfirmedMeans(db: Database, input: ConfirmInput, a: Answers, network: nat)
    requires ReverseAnswers(db, input, a) && ReverseNetwork(db, input, a.hint) == Some(network)
    ensures var r := LookupRecipientConfirmation(db, input, a);
      && r.outcome in {NO_MATCH, RESOLVED, AMBIGUOUS}
      && (r.outcome == NO_MATCH <==> forall key :: !Confirmable(db, network, input, key))
      && (r.outcome == NO_MATCH ==>
            r.risk == HIGH && r.recommendation == AddressNotConfirmed && r.flags == [ADDRESS_NOT_ATTESTED])
      && (r.outcome == RESOLVED <==> exists key :: Sole(db, network, input, key))
      && (r.outcome == RESOLVED ==>
            && r.destination.Some? && Sole(db, network, input, r.destination.value)
            && r.risk == LOW && r.recommendation == SafeToSend && r.flags == [] && r.attestation == a.latest
            && r.platform == Some(db.partners[r.destination.value.slot.recipient.partnerId].slug)
            && r.candidates == [])
      && (r.verified <==> r.outcome == RESOLVED) && (r.verified <==> r.recommendation == SafeToSend)
      && (r.outcome == AMBIGUOUS ==>
            && r.destination == None && r.address == None && r.flags == [MULTIPLE_ACTIVE_DESTINATIONS]
            && (if r.requiresSelection then r.risk == HIGH && r.recommendation == SelectPlatform
                else r.risk == CRITICAL && r.recommendation == ManualReviewRequired))
      && (r.outcome != RESOLVED && input.platform.Some? ==> r.platform == input.platform)
      && (r.requiresSelection ==> r.platform == None)
      && (r.outcome == AMBIGUOUS && !r.requiresSelection && input.platform.None? ==>
            forall key :: Confirmable(db, network, input, key) ==>
              r.platform == Some(db.partners[key.slot.recipient.partnerId].slug))
      && (r.requiresSelection <==> input.platform.None? && exists k, l ::
            Confirmable(db, network, input, k) && Confirmable(db, network, input, l)
            && k.slot.recipient.partnerId != l.slot.recipient.partnerId)
      && r.address == None
  {
    var r := LookupRecipientConfirmation(db, input, a);
    forall key ensures ConfirmableRow(db, network, input, key) <==> Confirmable(db, network, input, key) {
      ConfirmableMeans(db, network, input, key);
    }
    ListedRows(db, input, a, network);
    SoleRow(db, network, input, ActiveRows(db, a.rows));
    ReverseColumns(db, input, a);
    SelectionMeans(db, ActiveRows(db, a.rows));
    hide Confirmable, ConfirmableRow, ReverseAnswers, LookupRecipientConfirmation, ReverseNetwork, PartnerIds, ActiveRows;
    forall key ensures IsSole(db, network, input, key) <==> Sole(db, network, input, key) {
    }
  }

  ghost predicate Sole(db: Database, network: nat, input: ConfirmInput, key: DestinationKey) {
    Confirmable(db, network, input, key) && forall other :: Confirmable(db, network, input, other) ==> other == key
  }

  /** The answer by the number of rows, and of their partners. */
  lemma ReverseColumns(db: Database, input: ConfirmInput, a: Answers)
    requires ReverseNetwork(db, input, a.hint).Some?
    ensures var r, rows := LookupRecipientConfirmation(db, input, a), ActiveRows(db, a.rows);
      && r.address == None
      && (|rows| == 0 ==> r == Refused(NO_MATCH, HIGH, AddressNotConfirmed, ADDRESS_NOT_ATTESTED, input.platform))
      && (|rows| == 1 ==>
            && r.outcome == RESOLVED && r.risk == LOW && r.recommendation == SafeToSend && r.flags == [] && r.verified
            && r.destination == Some(rows[0]) && r.attestation == a.latest && r.candidates == [] && !r.requiresSelection
            && rows[0].slot.recipient.partnerId < |db.partners|
            && r.platform == Some(db.partners[rows[0].slot.recipient.partnerId].slug))
      && (|rows| > 1 ==>
            && r.outcome == AMBIGUOUS && !r.verified && r.destination == None && r.flags == [MULTIPLE_ACTIVE_DESTINATIONS]
            && (r.requiresSelection <==> input.platform.None? && |PartnerIds(db.partners, rows)| > 1)
            && (if r.requiresSelection then r.risk == HIGH && r.recommendation == SelectPlatform && r.platform == None
                else r.risk == CRITICAL && r.recommendation == ManualReviewRequired)
            && r.candidates == CandidatePlatforms(db, rows)
            && (input.platform.Some? ==> r.platform == input.platform)
            && (input.platform.None? && !r.requiresSelection ==>
                  r.platform == Some(db.partners[rows[0].slot.recipient.partnerId].slug)))
  {
    var rows := ActiveRows(db, a.rows);
    if |rows| > 1 {
      OnlyPartner(db, rows);
    }
    hide ReverseNetwork, OwnerActive, PartnerIds, CandidatePlatforms;
  }

  /** An ambiguous answer lists the partners of the confirmable rows, each once, by name. */
  lemma AmbiguousMeans(db: Database, input: ConfirmInput, a: Answers, network: nat, c: seq<Candidate>)
    requires ReverseAnswers(db, input, a) && ReverseNetwork(db, input, a.hint) == Some(network)
    requires LookupRecipientConfirmation(db, input, a).outcome == AMBIGUOUS
    requires c == LookupRecipientConfirmation(db, input, a).candidates
    ensures forall i :: 0 <= i < |c| ==>
      && c[i].id < |db.partners| && c[i].slug == db.partners[c[i].id].slug
      && c[i].displayName == db.partners[c[i].id].displayName
      && exists key :: Confirmable(db, network, input, key) && key.slot.recipient.partnerId == c[i].id
    ensures forall i, j :: 0 <= i < j < |c| ==>
      c[i].id != c[j].id && db.partners[c[i].id].rank <= db.partners[c[j].id].rank
    ensures forall key :: Confirmable(db, network, input, key) ==>
      exists i :: 0 <= i < |c| && c[i].id == key.slot.recipient.partnerId
  {
    hide *;
    var rows := ActiveRows(db, a.rows);
    assert |rows| > 1 by {
      AmbiguousRows(db, input, a);
    }
    ReverseColumns(db, input, a);
    CandidatesAreSorted(db, rows);
    ActiveAreConfirmable(db, input, a, network);
    forall i | 0 <= i < |c|
      ensures exists key :: Confirmable(db, network, input, key) && key.slot.recipient.partnerId == c[i].id
    {
      var key := OwnerOf(db, rows, c[i].id);
    }
    forall key | Confirmable(db, network, input, key)
      ensures exists i :: 0 <= i < |c| && c[i].id == key.slot.recipient.partnerId
    {
      OwnerIsOffered(db, rows, key);
    }
  }

  lemma AmbiguousRows(db: Database, input: ConfirmInput, a: Answers)
    requires LookupRecipientConfirmation(db, input, a).outcome == AMBIGUOUS
    ensures |ActiveRows(db, a.rows)| > 1
  {
    hide ReverseNetwork, ActiveRows, CandidatePlatforms;
  }

  lemma ActiveAreConfirmable(db: Database, input: ConfirmInput, a: Answers, network: nat)
    requires ReverseAnswers(db, input, a) && ReverseNetwork(db, input, a.hint) == Some(network)
    ensures forall key :: key in ActiveRows(db, a.rows) <==> Confirmable(db, network, input, key)
  {
    hide *;
    ListedRows(db, input, a, network);
    forall key ensures ConfirmableRow(db, network, input, key) <==> Confirmable(db, network, input, key) {
      ConfirmableMeans(db, network, input, key);
    }
  }

  /** A candidate has a row. */
  lemma OwnerOf(db: Database, rows: seq<DestinationKey>, id: nat) returns (key: DestinationKey)
    requires OwnersKnown(db.partners, rows)
    requires exists i :: 0 <= i < |CandidatePlatforms(db, rows)| && CandidatePlatforms(db, rows)[i].id == id
    ensures key in rows && key.slot.recipient.partnerId == id
  {
    hide CandidatePlatforms;
    OfferedIffOwner(db, rows, id);
    var k :| 0 <= k < |rows| && rows[k].slot.recipient.partnerId == id;
    key := rows[k];
  }

  /** A row has its candidate. */
  lemma OwnerIsOffered(db: Database, rows: seq<DestinationKey>, key: DestinationKey)
    requires OwnersKnown(db.partners, rows) && key in rows
    ensures exists i :: 0 <= i < |CandidatePlatforms(db, rows)|
                        && CandidatePlatforms(db, rows)[i].id == key.slot.recipient.partnerId
  {
    hide CandidatePlatforms;
    var k :| 0 <= k < |rows| && rows[k] == key;
    assert rows[k].slot.recipient.partnerId == key.slot.recipient.partnerId;
    OfferedIffOwner(db, rows, key.slot.recipient.partnerId);
  }

  /** Rows of one partner offer that partner. */
  lemma OnlyPartner(db: Database, rows: seq<DestinationKey>)
    requires OwnersKnown(db.partners, rows) && rows != []
    ensures CandidatePlatforms(db, rows) != []
    ensures |PartnerIds(db.partners, rows)| <= 1 ==>
      CandidatePlatforms(db, rows)[0].slug == db.partners[rows[0].slot.recipient.partnerId].slug
  {
    var ids := PartnerIds(db.partners, rows);
    assert rows[0].slot.recipient.partnerId in ids;
    var sorted := SortByName(db.partners, ids);
    hide PartnerIds, SortByName;
    assert sorted[0] in sorted;
    if |ids| == 1 {
      assert ids == [rows[0].slot.recipient.partnerId];
    }
  }

  /** There is more than one partner exactly if two rows differ in theirs. */
  lemma SelectionMeans(db: Database, rows: seq<DestinationKey>)
    requires OwnersKnown(db.partners, rows)
    ensures |PartnerIds(db.partners, rows)| > 1 <==>
      exists k, l :: k in rows && l in rows && k.slot.recipient.partnerId != l.slot.recipient.partnerId
    ensures |PartnerIds(db.partners, rows)| > 1 ==> |rows| > 1
  {
    var ids := PartnerIds(db.partners, rows);
    hide PartnerIds;
    if |ids| > 1 {
      assert ids[0] in ids && ids[1] in ids;
      var i :| 0 <= i < |rows| && rows[i].slot.recipient.partnerId == ids[0];
      var j :| 0 <= j < |rows| && rows[j].slot.recipient.partnerId == ids[1];
      assert rows[i] in rows && rows[j] in rows;
    }
    if k, l :| k in rows && l in rows && k.slot.recipient.partnerId != l.slot.recipient.partnerId {
      var i :| 0 <= i < |rows| && rows[i] == k;
      var j :| 0 <= j < |rows| && rows[j] == l;
      assert k.slot.recipient.partnerId in ids && l.slot.recipient.partnerId in ids;
    }
  }

  /** Without such a network nothing is confirmed. */
  lemma UnsupportedMeans(db: Database, input: ConfirmInput, a: Answers)
    ensures var r := LookupRecipientConfirmation(db, input, a);
      (forall n :: n in db.networks && n.chain == input.chain && n.chainActive && n.active ==>
         n.assetCode != input.assetCode && n.assetSymbol != input.assetSymbol) <==>
      r == Refused(UNVERIFIED, HIGH, UnsupportedAssetNetwork, UNSUPPORTED_ASSET_NETWORK, input.platform)
  {
    NetworkMeans(db.networks, input.chain, input.assetCode, input.assetSymbol, a.hint);
    hide FindNetwork, CandidatePlatforms, ActiveRows;
  }

  /** What is asked of the platform, chain, asset and address before. */
  lemma ConfirmMeans(db: Database, platform: Option<string>, chain: string, asset: string, address: string, a: Answers)
    ensures var r := ConfirmAddress(db, platform, chain, asset, address, a);
      && (r.Some? <==>
            && Trim(address) != "" && |Trim(address)| <= 200
            && NormalizeChain(chain).Some? && NormalizeAssetCode(asset).Some? && NormalizeAssetSymbol(asset).Some?
            && NormalizeAddress(NormalizeChain(chain).value, Trim(address)).Some?)
      && (r.Some? ==> r == Some(LookupRecipientConfirmation(db, ConfirmInput(
            if platform.Some? && Trim(platform.value) != "" then NormalizePartnerSlug(Trim(platform.value)) else None,
            NormalizeChain(chain).value, NormalizeAssetCode(asset).value, NormalizeAssetSymbol(asset).value,
            NormalizeAddress(NormalizeChain(chain).value, Trim(address)).value), a)))
  {
    hide Trim, NormalizePartnerSlug, NormalizeChain, NormalizeAssetCode, NormalizeAssetSymbol, NormalizeAddress,
         LookupRecipientConfirmation;
  }

  // ---- verify ----

  /** Different addresses of at least ten characters that agree in the first and in the last four. */
  predicate Alike(given: string, resolved: string) {
    && given != resolved && |given| >= 10 && |resolved| >= 10
    && given[0] == resolved[0] && given[1] == resolved[1] && given[2] == resolved[2] && given[3] == resolved[3]
    && given[|given| - 1] == resolved[|resolved| - 1] && given[|given| - 2] == resolved[|resolved| - 2]
    && given[|given| - 3] == resolved[|resolved| - 3] && given[|given| - 4] == resolved[|resolved| - 4]
  }

  lemma FourAgree(s: string, t: string)
    requires |s| == |t| == 4
    ensures s == t <==> s[0] == t[0] && s[1] == t[1] && s[2] == t[2] && s[3] == t[3]
  {
  }

  lemma LooksLikeMeans(given: string, resolved: string)
    ensures LooksLike(given, resolved) <==> Alike(given, resolved)
  {
    if |given| >= 10 && |resolved| >= 10 {
      FourAgree(given[..4], resolved[..4]);
      FourAgree(given[|given| - 4..], resolved[|resolved| - 4..]);
    }
  }

  /** The comparison of two different addresses, whatever the lookup said. */
  lemma MismatchMeans(lookup: LookupResult, given: string, resolved: string)
    requires given != resolved && Trim(given) == given && Trim(resolved) == resolved
    ensures var v := Compare(lookup, given, resolved);
      && !v.matched && !v.verified
      && v.lookup.outcome == MISMATCH && v.lookup.recommendation == DoNotSend && v.lookup.risk == HIGH
      && v.lookup.flags == lookup.flags + [ADDRESS_MISMATCH] + (if Alike(given, resolved) then [ADDRESS_LOOKALIKE] else [])
      && v.lookup.platform == lookup.platform && v.lookup.destination == lookup.destination
      && v.lookup.address == lookup.address
  {
    LooksLikeMeans(given, resolved);
    hide LooksLike, Trim, Alike;
  }

  /** A normal form is trimmed. */
  lemma NormalIsTrimmed(chain: string, address: string)
    requires NormalizeAddress(chain, address).Some?
    ensures Trim(NormalizeAddress(chain, address).value) == NormalizeAddress(chain, address).value
  {
    TrimmedLower(address);
    hide Trim, NormalizeChain;
  }

  /**
   verify is safe to send to exactly when it verifies. If the lookup gives an address and it is another, verify says
   mismatch, do not send, and flags it, and flags a look-alike exactly when the two agree in four characters at either
   end; if the lookup gives none, verify says what the lookup says.
   */
  lemma VerifyMeans(db: Database, input: LookupInput, address: string, a: Answers)
    requires IsServed(db) && ForwardAnswers(db, input, a) && NormalizeAddress(input.chain, address).Some?
    ensures var v := CompareLookup(input.chain, LookupVerifiedDestination(db, input, a),
                                   NormalizeAddress(input.chain, address).value);
      var lookup := LookupVerifiedDestination(db, input, a);
      var given := NormalizeAddress(input.chain, address).value;
      && v.Some?
      && (v.value.verified <==> v.value.lookup.recommendation == SafeToSend)
      && (v.value.verified <==> v.value.lookup.outcome == RESOLVED)
      && (v.value.verified ==> v.value.lookup == lookup && lookup.outcome == RESOLVED && lookup.address.Some?
                               && NormalizeAddress(input.chain, lookup.address.value) == Some(given))
      && (lookup.outcome != RESOLVED ==> v.value.lookup == lookup)
      && (lookup.outcome == RESOLVED ==> lookup.address.Some? && NormalizeAddress(input.chain, lookup.address.value).Some?)
      && (lookup.outcome == RESOLVED && !v.value.verified ==>
            var resolved := NormalizeAddress(input.chain, lookup.address.value).value;
            && given != resolved && v.value.lookup.outcome == MISMATCH && v.value.lookup.recommendation == DoNotSend
            && v.value.lookup.risk == HIGH
            && v.value.lookup.flags == [ADDRESS_MISMATCH] + (if Alike(given, resolved) then [ADDRESS_LOOKALIKE] else []))
  {
    var lookup := LookupVerifiedDestination(db, input, a);
    var given := NormalizeAddress(input.chain, address).value;
    hide *;
    UnresolvedMeans(db, input, a);
    NormalIsTrimmed(input.chain, address);
    if lookup.outcome == RESOLVED {
      ResolvedMeans(db, input, a);
      ResolvedAddress(db, input, a);
      NormalIsTrimmed(input.chain, lookup.address.value);
      CompareResolved(input.chain, lookup, given);
    } else {
      CompareUnresolved(input.chain, lookup, given);
    }
  }

  lemma ResolvedAddress(db: Database, input: LookupInput, a: Answers)
    requires IsServed(db) && ForwardAnswers(db, input, a) && LookupVerifiedDestination(db, input, a).outcome == RESOLVED
    ensures var r := LookupVerifiedDestination(db, input, a);
      r.address.Some? && r.address.value != "" && NormalizeAddress(input.chain, r.address.value).Some?
  {
    hide IsServed, ForwardAnswers, NetworkOf, NormalizeAddress, LookupVerifiedDestination;
    ResolvedRow(db, input, a);
    StoredAddress(db, a.rows[0]);
  }

  lemma CompareResolved(chain: string, lookup: LookupResult, given: string)
    requires lookup.address.Some? && lookup.address.value != "" && NormalizeAddress(chain, lookup.address.value).Some?
    requires lookup.outcome == RESOLVED && lookup.verified && lookup.flags == [] && lookup.recommendation == SafeToSend
    requires Trim(given) == given
    requires Trim(NormalizeAddress(chain, lookup.address.value).value) == NormalizeAddress(chain, lookup.address.value).value
    ensures var v, resolved := CompareLookup(chain, lookup, given), NormalizeAddress(chain, lookup.address.value).value;
      && v.Some? && (v.value.verified <==> given == resolved)
      && (if v.value.verified then v.value.lookup == lookup
          else v.value.lookup.outcome == MISMATCH && v.value.lookup.recommendation == DoNotSend
               && v.value.lookup.risk == HIGH
               && v.value.lookup.flags ==
                  [ADDRESS_MISMATCH] + (if Alike(given, resolved) then [ADDRESS_LOOKALIKE] else []))
  {
    var resolved := NormalizeAddress(chain, lookup.address.value).value;
    hide NormalizeAddress, Trim, Alike;
    if given != resolved {
      MismatchMeans(lookup, given, resolved);
      hide Compare;
      assert [] + [ADDRESS_MISMATCH] == [ADDRESS_MISMATCH];
    }
  }

  lemma CompareUnresolved(chain: string, lookup: LookupResult, given: string)
    requires lookup.address.None?
    ensures CompareLookup(chain, lookup, given) == Some(VerifyResult(lookup, false, false))
  {
  }

  // ---- a suspended recipient ----

  /** Once a recipient is disabled, neither lookup leads to it, and verify verifies nothing of it. */
  lemma DisabledIsUnreachable(t: Tables, db: Database, partnerId: nat, key: RecipientKey, input: LookupInput,
                              reverse: ConfirmInput, a: Answers)
    requires DisableRecipient(t, partnerId, key) == Success(db.tables)
    ensures ForwardAnswers(db, input, a) && LookupVerifiedDestination(db, input, a).destination.Some? ==>
      LookupVerifiedDestination(db, input, a).destination.value.slot.recipient != key
    ensures ReverseAnswers(db, reverse, a) && LookupRecipientConfirmation(db, reverse, a).destination.Some? ==>
      LookupRecipientConfirmation(db, reverse, a).destination.value.slot.recipient != key
  {
    DisableMeans(t, partnerId, key);
    hide DisableRecipient;
    if ForwardAnswers(db, input, a) && LookupVerifiedDestination(db, input, a).destination.Some? {
      ResolvedMeans(db, input, a);
    }
    hide ForwardAnswers, LookupVerifiedDestination;
    if ReverseAnswers(db, reverse, a) && ReverseNetwork(db, reverse, a.hint).Some? {
      ConfirmedMeans(db, reverse, a, ReverseNetwork(db, reverse, a.hint).value);
    }
    hide ReverseAnswers, CandidatePlatforms, ActiveRows;
  }
}
