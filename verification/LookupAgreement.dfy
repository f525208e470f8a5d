/** What one lookup answers, the others confirm; and the platform dialogue ends in two calls. */
module LookupAgreement {
  import opened Wrappers
  import opened Text
  import opened Normalization
  import opened Registry
  import opened RegistryTheorems
  import opened RegistryLog
  import opened Lookups
  import opened LookupTheorems

  // ---- normalized queries ----

  /** A stored slug is accepted by confirmAddress as it stands. */
  lemma SlugIsAccepted(partners: seq<PartnerRow>, id: nat)
    requires SlugsOk(partners) && id < |partners|
    ensures Trim(partners[id].slug) == partners[id].slug && partners[id].slug != ""
    ensures NormalizePartnerSlug(Trim(partners[id].slug)) == Some(partners[id].slug)
  {
    TrimmedLower(partners[id].slug);
    TrimOfTrimmed(partners[id].slug);
  }

  /** The query of confirmAddress with a stored slug. */
  lemma ConfirmInputOf(partners: seq<PartnerRow>, id: nat, chain: string, asset: string, address: string)
    requires SlugsOk(partners) && id < |partners|
    ensures NormalizeConfirmInput(Some(partners[id].slug), chain, asset, address) ==
      match NormalizeConfirmInput(None, chain, asset, address)
      case Some(input) => Some(input.(platform := Some(partners[id].slug)))
      case None => None
  {
    SlugIsAccepted(partners, id);
    hide Trim, NormalizePartnerSlug, NormalizeChain, NormalizeAssetCode, NormalizeAssetSymbol, NormalizeAddress, SlugsOk;
  }

  /** The lookup behind a call of resolve. */
  lemma ResolveCall(db: Database, identifier: string, chain: string, asset: string, a: Answers)
    requires Resolve(db, identifier, chain, asset, a).Some?
    ensures ReadSensitiveInput(identifier, 128) == Some(Trim(identifier))
    ensures NormalizeLookupInput(Trim(identifier), chain, asset).Some?
    ensures Resolve(db, identifier, chain, asset, a)
            == Some(LookupVerifiedDestination(db, NormalizeLookupInput(Trim(identifier), chain, asset).value, a))
  {
    hide NormalizeLookupInput, LookupVerifiedDestination, Trim;
  }

  /** The lookup behind a call of confirmAddress. */
  lemma ConfirmCall(db: Database, platform: Option<string>, chain: string, asset: string, address: string, a: Answers)
    ensures var input := NormalizeConfirmInput(platform, chain, asset, Trim(address));
      ConfirmAddress(db, platform, chain, asset, address, a) ==
      if ReadSensitiveInput(address, 200).None? || input.None? then None
      else Some(LookupRecipientConfirmation(db, input.value, a))
  {
    hide NormalizeConfirmInput, LookupRecipientConfirmation, Trim;
  }

  /** The same chain, asset and address, asked of either lookup. */
  lemma SameQuery(identifier: string, chain: string, asset: string, address: string)
    requires NormalizeLookupInput(identifier, chain, asset).Some?
    ensures var input := NormalizeLookupInput(identifier, chain, asset).value;
      NormalizeConfirmInput(None, chain, asset, address) ==
      match NormalizeAddress(input.chain, address)
      case Some(normalized) => Some(ConfirmInput(None, input.chain, input.assetCode, input.assetSymbol, normalized))
      case None => None
  {
    hide NormalizeChain, NormalizeAssetCode, NormalizeAssetSymbol, NormalizeIdentifier, NormalizeAddress;
  }

  lemma TrimmedIsNotEmpty(chain: string, address: string)
    requires NormalizeAddress(chain, address).Some?
    ensures Trim(address) != ""
  {
  }

  // ---- resolve, verify and confirmAddress ----

  /** A row in force whose owner is active is confirmed on its owner's platform. */
  lemma RowIsConfirmed(db: Database, input: ConfirmInput, key: DestinationKey, a: Answers)
    requires ReverseAnswers(db, input, a) && input.platform.Some? && OwnerActive(db, key)
    requires ReverseNetwork(db, input, a.hint).Some?
    requires ReverseRow(db, ReverseNetwork(db, input, a.hint).value, input, key)
    ensures var c := LookupRecipientConfirmation(db, input, a);
      && c.outcome in {RESOLVED, AMBIGUOUS} && !c.requiresSelection && c.platform == input.platform
      && (c.outcome == RESOLVED ==> c.destination == Some(key) && c.verified)
  {
    hide ReverseNetwork, InForceAt;
    var rows := ActiveRows(db, a.rows);
    assert key in rows;
    if |rows| == 1 {
      assert rows[0] == key;
    }
  }

  /** What the forward lookup resolves is a row the reverse lookup is asked about. */
  lemma ResolvedRow(db: Database, input: LookupInput, a: Answers)
    requires IsServed(db) && ForwardAnswers(db, input, a)
    requires LookupVerifiedDestination(db, input, a).outcome == RESOLVED
    ensures var r := LookupVerifiedDestination(db, input, a);
      && NetworkOf(db, input, a.hint).Some? && a.rows != [] && r.destination == Some(a.rows[0])
      && var key := a.rows[0];
      && key in db.tables.destinations && key.slot.network == NetworkOf(db, input, a.hint).value
      && OwnerActive(db, key) && InForceAt(db.tables.destinations[key], db.now)
      && r.address == Some(db.tables.destinations[key].addressRaw)
      && r.platform == Some(db.partners[key.slot.recipient.partnerId].slug)
      && NormalizeAddress(input.chain, db.tables.destinations[key].addressRaw) == Some(key.address)
  {
    assert ForwardRow(db, SlotOf(db, input, a), a.rows[0]);
    StoredAddress(db, a.rows[0]);
    hide Reachable, NormalizeAddress;
  }

  /** What the forward lookup resolves, verify verifies. */
  lemma VerifyAgrees(db: Database, input: LookupInput, a: Answers, r: LookupResult)
    requires IsServed(db) && ForwardAnswers(db, input, a)
    requires r == LookupVerifiedDestination(db, input, a) && r.outcome == RESOLVED
    ensures r.address.Some? && NormalizeAddress(input.chain, r.address.value).Some?
    ensures CompareLookup(input.chain, r, NormalizeAddress(input.chain, r.address.value).value)
            == Some(VerifyResult(r, true, true))
  {
    hide IsServed, ForwardAnswers, FindNetwork, NormalizeAddress, Compare;
    ResolvedRow(db, input, a);
    ForwardShape(db, input, a);
    StoredAddress(db, a.rows[0]);
    CompareShape(r, a.rows[0].address, a.rows[0].address);
  }

  /**
   What the forward lookup resolves, the reverse lookup of its address on its owner's platform finds; when that
   settles on one destination, it is the same.
   */
  lemma ConfirmAgrees(db: Database, input: LookupInput, a: Answers, r: LookupResult, given: string, confirm: Answers)
    requires IsServed(db) && ForwardAnswers(db, input, a) && confirm.hint == a.hint
    requires r == LookupVerifiedDestination(db, input, a) && r.outcome == RESOLVED
    requires r.address.Some? && NormalizeAddress(input.chain, r.address.value) == Some(given)
    requires ReverseAnswers(db, ConfirmInput(r.platform, input.chain, input.assetCode, input.assetSymbol, given), confirm)
    ensures var c := LookupRecipientConfirmation(
        db, ConfirmInput(r.platform, input.chain, input.assetCode, input.assetSymbol, given), confirm);
      && c.outcome in {RESOLVED, AMBIGUOUS} && !c.requiresSelection && c.platform == r.platform
      && (c.outcome == RESOLVED ==> c.destination == r.destination && c.verified)
  {
    hide IsServed, ForwardAnswers, FindNetwork, NormalizeAddress;
    ResolvedRow(db, input, a);
    var request := ConfirmInput(r.platform, input.chain, input.assetCode, input.assetSymbol, given);
    hide LookupVerifiedDestination, LookupRecipientConfirmation, InForceAt, ReverseAnswers;
    assert ReverseRow(db, a.rows[0].slot.network, request, a.rows[0]);
    RowIsConfirmed(db, request, a.rows[0], confirm);
  }

  /**
   If resolve returns address A, then verify accepts A exactly if it has at most 200 characters, and then finds it
   verified.
   */
  lemma ResolveThenVerify(db: Database, identifier: string, chain: string, asset: string, a: Answers, r: LookupResult)
    requires IsServed(db) && Resolve(db, identifier, chain, asset, a) == Some(r) && r.outcome == RESOLVED
    requires ForwardAnswers(db, NormalizeLookupInput(Trim(identifier), chain, asset).value, a)
    ensures r.address.Some?
    ensures Verify(db, identifier, chain, asset, r.address.value, a) ==
      if |Trim(r.address.value)| <= 200 then Some(VerifyResult(r, true, true)) else None
  {
    hide IsServed, ForwardAnswers, FindNetwork, LookupVerifiedDestination, NormalizeAddress, CompareLookup;
    ResolveCall(db, identifier, chain, asset, a);
    var input := NormalizeLookupInput(Trim(identifier), chain, asset).value;
    VerifyAgrees(db, input, a, r);
    AddressIsNormal(input.chain, r.address.value);
    TrimmedIsNotEmpty(input.chain, r.address.value);
    hide NormalizeLookupInput, Trim, Resolve;
  }

  /**
   If resolve returns address A on platform P, and A has at most 200 characters, then confirmAddress(A, P) finds a
   match, and when it settles on one destination, it is the one resolve chose.
   */
  lemma ResolveThenConfirm(db: Database, identifier: string, chain: string, asset: string, a: Answers, r: LookupResult,
                           confirm: Answers)
    requires IsServed(db) && SlugsOk(db.partners)
    requires Resolve(db, identifier, chain, asset, a) == Some(r) && r.outcome == RESOLVED
    requires ForwardAnswers(db, NormalizeLookupInput(Trim(identifier), chain, asset).value, a)
    requires r.address.Some? && |Trim(r.address.value)| <= 200 && confirm.hint == a.hint
    requires var input := NormalizeConfirmInput(r.platform, chain, asset, Trim(r.address.value));
      input.Some? ==> ReverseAnswers(db, input.value, confirm)
    ensures r.platform.Some?
    ensures var c := ConfirmAddress(db, r.platform, chain, asset, r.address.value, confirm);
      && c.Some? && c.value.outcome in {RESOLVED, AMBIGUOUS} && c.value.platform == r.platform
      && (c.value.outcome == RESOLVED ==> c.value.destination == r.destination && c.value.verified)
  {
    hide IsServed, ForwardAnswers, FindNetwork, NormalizeAddress;
    ResolveCall(db, identifier, chain, asset, a);
    var input := NormalizeLookupInput(Trim(identifier), chain, asset).value;
    ResolvedRow(db, input, a);
    VerifyAgrees(db, input, a, r);
    var address := r.address.value;
    var given := NormalizeAddress(input.chain, address).value;
    AddressIsNormal(input.chain, address);
    TrimmedIsNotEmpty(input.chain, address);
    assert ReadSensitiveInput(address, 200).Some?;
    ConfirmCall(db, r.platform, chain, asset, address, confirm);
    SameQuery(Trim(identifier), chain, asset, Trim(address));
    ConfirmInputOf(db.partners, a.rows[0].slot.recipient.partnerId, chain, asset, Trim(address));
    hide *;
    ConfirmAgrees(db, input, a, r, given, confirm);
  }

  /**
   confirmAddress finds no match exactly when no row with the address is in force there with an active owner, and
   confirms exactly when there is one and no second.
   */
  lemma ConfirmIsExact(db: Database, input: ConfirmInput, a: Answers, network: nat, c: LookupResult)
    requires ReverseAnswers(db, input, a) && ReverseNetwork(db, input, a.hint) == Some(network)
    requires c == LookupRecipientConfirmation(db, input, a)
    ensures c.outcome == NO_MATCH <==> forall key :: !ConfirmableRow(db, network, input, key)
    ensures c.verified <==> exists key :: IsSole(db, network, input, key)
    ensures c.verified <==> c.outcome == RESOLVED
    ensures c.verified ==> c.destination.Some? && ConfirmableRow(db, network, input, c.destination.value)
  {
    hide *;
    ReverseShape(db, input, a);
    ListedRows(db, input, a, network);
    SoleRow(db, network, input, ActiveRows(db, a.rows));
  }

  /** The rows left after the filter list the rows that can be confirmed. */
  lemma ListedRows(db: Database, input: ConfirmInput, a: Answers, network: nat)
    requires ReverseAnswers(db, input, a) && ReverseNetwork(db, input, a.hint) == Some(network)
    ensures NoDuplicates(ActiveRows(db, a.rows))
    ensures forall key :: key in ActiveRows(db, a.rows) <==> ConfirmableRow(db, network, input, key)
  {
    hide ReverseNetwork, ReverseRow, OwnerActive;
  }

  /** A listing of the matching rows: none, one and no second, or several. */
  lemma SoleRow(db: Database, network: nat, input: ConfirmInput, rows: seq<DestinationKey>)
    requires NoDuplicates(rows) && forall key :: key in rows <==> ConfirmableRow(db, network, input, key)
    ensures |rows| == 0 <==> forall key :: !ConfirmableRow(db, network, input, key)
    ensures |rows| == 1 ==> ConfirmableRow(db, network, input, rows[0])
    ensures |rows| == 1 <==> exists key :: IsSole(db, network, input, key)
  {
    hide ConfirmableRow;
    if |rows| >= 1 {
      assert rows[0] in rows;
    }
    if |rows| == 1 {
      assert IsSole(db, network, input, rows[0]);
    } else if |rows| >= 2 {
      assert rows[1] in rows && rows[0] != rows[1];
    }
  }

  /** The reverse lookup decides by the number of rows left. */
  lemma ReverseShape(db: Database, input: ConfirmInput, a: Answers)
    requires ReverseNetwork(db, input, a.hint).Some?
    ensures var c, rows := LookupRecipientConfirmation(db, input, a), ActiveRows(db, a.rows);
      && (|rows| == 0 ==> c.outcome == NO_MATCH && !c.verified)
      && (|rows| == 1 ==> c.outcome == RESOLVED && c.verified && c.destination == Some(rows[0]))
      && (|rows| > 1 ==> c.outcome == AMBIGUOUS && !c.verified)
  {
    hide ReverseNetwork, OwnerActive, CandidatePlatforms;
  }

  ghost predicate IsSole(db: Database, network: nat, input: ConfirmInput, key: DestinationKey) {
    ConfirmableRow(db, network, input, key)
    && forall other :: ConfirmableRow(db, network, input, other) ==> other == key
  }

  predicate ConfirmableRow(db: Database, network: nat, input: ConfirmInput, key: DestinationKey) {
    ReverseRow(db, network, input, key) && OwnerActive(db, key)
  }

  // ---- the platform dialogue ----

  predicate SortedByName(partners: seq<PartnerRow>, ids: seq<nat>)
    requires Known(partners, ids)
  {
    forall i, j :: 0 <= i < j < |ids| ==> partners[ids[i]].rank <= partners[ids[j]].rank
  }

  predicate RankedAtMost(partners: seq<PartnerRow>, ids: seq<nat>, bound: int)
    requires Known(partners, ids)
  {
    forall i :: 0 <= i < |ids| ==> partners[ids[i]].rank <= bound
  }

  lemma InsertIsBounded(partners: seq<PartnerRow>, sorted: seq<nat>, id: nat, bound: int)
    requires id < |partners| && Known(partners, sorted)
    requires RankedAtMost(partners, sorted, bound) && partners[id].rank <= bound
    ensures RankedAtMost(partners, Insert(partners, sorted, id), bound)
  {
    var r := Insert(partners, sorted, id);
    hide Insert;
    forall i | 0 <= i < |r| ensures partners[r[i]].rank <= bound {
      assert r[i] in r;
    }
  }

  lemma {:induction false} InsertSorts(partners: seq<PartnerRow>, sorted: seq<nat>, id: nat)
    requires id < |partners| && Known(partners, sorted) && SortedByName(partners, sorted)
    ensures SortedByName(partners, Insert(partners, sorted, id))
  {
    var n := |sorted|;
    if sorted != [] && partners[sorted[n - 1]].rank > partners[id].rank {
      InsertSorts(partners, sorted[..n - 1], id);
      InsertIsBounded(partners, sorted[..n - 1], id, partners[sorted[n - 1]].rank);
    }
  }

  lemma {:induction false} InsertKeepsDistinct(partners: seq<PartnerRow>, sorted: seq<nat>, id: nat)
    requires id < |partners| && Known(partners, sorted) && NoDuplicates(sorted) && id !in sorted
    ensures NoDuplicates(Insert(partners, sorted, id))
  {
    var n := |sorted|;
    if sorted != [] && partners[sorted[n - 1]].rank > partners[id].rank {
      InsertKeepsDistinct(partners, sorted[..n - 1], id);
      var r := Insert(partners, sorted[..n - 1], id);
      assert sorted[n - 1] !in sorted[..n - 1];
      assert sorted[n - 1] !in r;
    }
  }

  lemma {:induction false} SortSorts(partners: seq<PartnerRow>, ids: seq<nat>)
    requires Known(partners, ids)
    ensures SortedByName(partners, SortByName(partners, ids))
    ensures NoDuplicates(ids) ==> NoDuplicates(SortByName(partners, ids))
  {
    if ids != [] {
      var before := ids[..|ids| - 1];
      SortSorts(partners, before);
      InsertSorts(partners, SortByName(partners, before), ids[|ids| - 1]);
      if NoDuplicates(ids) {
        assert ids[|ids| - 1] !in before;
        InsertKeepsDistinct(partners, SortByName(partners, before), ids[|ids| - 1]);
      }
    }
  }

  /** The candidates are the sorted partners of the rows. */
  lemma CandidateIds(db: Database, rows: seq<DestinationKey>) returns (ids: seq<nat>)
    requires OwnersKnown(db.partners, rows)
    ensures Known(db.partners, ids) && NoDuplicates(ids) && SortedByName(db.partners, ids)
    ensures forall id: nat :: id in ids <==> id in PartnerIds(db.partners, rows)
    ensures |CandidatePlatforms(db, rows)| == |ids|
    ensures forall i :: 0 <= i < |ids| ==> CandidatePlatforms(db, rows)[i] == CandidateOf(db, ids[i])
  {
    SortSorts(db.partners, PartnerIds(db.partners, rows));
    ids := SortByName(db.partners, PartnerIds(db.partners, rows));
  }

  /** The candidates of the rows: their partners, each once, in the order of their names. */
  lemma CandidatesAreSorted(db: Database, rows: seq<DestinationKey>)
    requires OwnersKnown(db.partners, rows)
    ensures var c := CandidatePlatforms(db, rows);
      && (forall i :: 0 <= i < |c| ==>
            c[i].id < |db.partners| && c[i].slug == db.partners[c[i].id].slug
            && c[i].displayName == db.partners[c[i].id].displayName)
      && (forall i, j :: 0 <= i < j < |c| ==>
            c[i].id != c[j].id && db.partners[c[i].id].rank <= db.partners[c[j].id].rank)
  {
    var ids := CandidateIds(db, rows);
    hide CandidatePlatforms, PartnerIds;
  }

  /** A partner is offered exactly if one of the rows is its own. */
  lemma OfferedIffOwner(db: Database, rows: seq<DestinationKey>, id: nat)
    requires OwnersKnown(db.partners, rows)
    ensures (exists i :: 0 <= i < |CandidatePlatforms(db, rows)| && CandidatePlatforms(db, rows)[i].id == id) <==>
            (exists k :: 0 <= k < |rows| && rows[k].slot.recipient.partnerId == id)
  {
    var ids := CandidateIds(db, rows);
    var c := CandidatePlatforms(db, rows);
    hide CandidatePlatforms, SortedByName, NoDuplicates;
    if i :| 0 <= i < |c| && c[i].id == id {
      assert ids[i] in ids;
    }
    if id in ids {
      var i :| 0 <= i < |ids| && ids[i] == id;
      assert c[i].id == id;
    }
  }

  /** The second call, with the slug of an offered platform. */
  lemma SecondCall(db: Database, input: ConfirmInput, first: Answers, id: nat, second: Answers)
    requires ReverseAnswers(db, input, first) && LookupRecipientConfirmation(db, input, first).requiresSelection
    requires exists k :: 0 <= k < |ActiveRows(db, first.rows)|
                         && ActiveRows(db, first.rows)[k].slot.recipient.partnerId == id
    requires second.hint == first.hint && id < |db.partners|
    requires ReverseAnswers(db, input.(platform := Some(db.partners[id].slug)), second)
    ensures var c := LookupRecipientConfirmation(db, input.(platform := Some(db.partners[id].slug)), second);
      c.outcome in {RESOLVED, AMBIGUOUS} && !c.requiresSelection && c.platform == Some(db.partners[id].slug)
  {
    var rows, request := ActiveRows(db, first.rows), input.(platform := Some(db.partners[id].slug));
    AskedRows(db, input, first);
    assert ReverseNetwork(db, request, second.hint) == ReverseNetwork(db, input, first.hint);
    hide LookupRecipientConfirmation, CandidatePlatforms, InForceAt, ActiveRows, ReverseAnswers, ReverseNetwork;
    var k :| 0 <= k < |rows| && rows[k].slot.recipient.partnerId == id;
    assert rows[k] in rows;
    assert ReverseRow(db, ReverseNetwork(db, request, second.hint).value, request, rows[k]);
    RowIsConfirmed(db, request, rows[k], second);
  }

  /** The candidates offered are the listed partners of the matching rows, each once, in the order of their names, and at
      least two. */
  lemma OfferedCandidates(db: Database, input: ConfirmInput, a: Answers)
    requires ReverseAnswers(db, input, a) && LookupRecipientConfirmation(db, input, a).requiresSelection
    ensures var c := LookupRecipientConfirmation(db, input, a).candidates;
      && |c| >= 2
      && (forall i :: 0 <= i < |c| ==>
            && c[i].id < |db.partners| && db.partners[c[i].id].listed && c[i].slug == db.partners[c[i].id].slug
            && c[i].displayName == db.partners[c[i].id].displayName
            && exists k :: 0 <= k < |ActiveRows(db, a.rows)|
                           && ActiveRows(db, a.rows)[k].slot.recipient.partnerId == c[i].id)
      && (forall i, j :: 0 <= i < j < |c| ==>
            c[i].id != c[j].id && db.partners[c[i].id].rank <= db.partners[c[j].id].rank)
  {
    AskedRows(db, input, a);
    var rows := ActiveRows(db, a.rows);
    CandidatesAreSorted(db, rows);
    var c := CandidatePlatforms(db, rows);
    hide LookupRecipientConfirmation, CandidatePlatforms, InForceAt, ActiveRows, ReverseAnswers, ReverseNetwork;
    forall i | 0 <= i < |c|
      ensures db.partners[c[i].id].listed && exists k :: 0 <= k < |rows| && rows[k].slot.recipient.partnerId == c[i].id
    {
      OfferedIffOwner(db, rows, c[i].id);
      var k :| 0 <= k < |rows| && rows[k].slot.recipient.partnerId == c[i].id;
      assert rows[k] in rows;
    }
  }

  /**
   When confirmAddress asks for a platform it offers at least two, each once and in the order of their names; and a
   second call with any of them finds a match there and asks no more.
   */
  lemma PlatformDialogue(db: Database, platform: Option<string>, chain: string, asset: string, address: string,
                         first: Answers, asked: LookupResult, chosen: Candidate, second: Answers)
    requires SlugsOk(db.partners) && second.hint == first.hint
    requires ConfirmAddress(db, platform, chain, asset, address, first) == Some(asked)
    requires asked.requiresSelection && chosen in asked.candidates
    requires var input := NormalizeConfirmInput(platform, chain, asset, Trim(address));
      input.Some? ==> ReverseAnswers(db, input.value, first)
    requires var request := NormalizeConfirmInput(Some(chosen.slug), chain, asset, Trim(address));
      request.Some? ==> ReverseAnswers(db, request.value, second)
    ensures |asked.candidates| >= 2
    ensures forall i :: 0 <= i < |asked.candidates| ==>
      asked.candidates[i].id < |db.partners| && db.partners[asked.candidates[i].id].listed
    ensures forall i, j :: 0 <= i < j < |asked.candidates| ==>
      && asked.candidates[i].id != asked.candidates[j].id
      && db.partners[asked.candidates[i].id].rank <= db.partners[asked.candidates[j].id].rank
    ensures var answer := ConfirmAddress(db, Some(chosen.slug), chain, asset, address, second);
      && answer.Some? && answer.value.outcome in {RESOLVED, AMBIGUOUS} && !answer.value.requiresSelection
      && answer.value.platform == Some(chosen.slug)
  {
    hide *;
    ConfirmCall(db, platform, chain, asset, address, first);
    var input := NormalizeConfirmInput(platform, chain, asset, Trim(address)).value;
    ConfirmCall(db, Some(chosen.slug), chain, asset, address, second);
    AskedRows(db, input, first);
    NoPlatform(platform, chain, asset, Trim(address));
    OfferedCandidates(db, input, first);
    var i :| 0 <= i < |asked.candidates| && asked.candidates[i] == chosen;
    ConfirmInputOf(db.partners, chosen.id, chain, asset, Trim(address));
    SecondCall(db, input, first, chosen.id, second);
  }

  /** A query without a platform is the same whether the platform was left out or blank. */
  lemma NoPlatform(platform: Option<string>, chain: string, asset: string, address: string)
    requires NormalizeConfirmInput(platform, chain, asset, address).Some?
    requires NormalizeConfirmInput(platform, chain, asset, address).value.platform.None?
    ensures NormalizeConfirmInput(None, chain, asset, address) == NormalizeConfirmInput(platform, chain, asset, address)
  {
    hide NormalizeChain, NormalizeAssetCode, NormalizeAssetSymbol, NormalizePartnerSlug, NormalizeAddress, Trim;
  }

  /** When a platform is asked for, none was given, and the rows are of listed partners. */
  lemma AskedRows(db: Database, input: ConfirmInput, a: Answers)
    requires ReverseAnswers(db, input, a) && LookupRecipientConfirmation(db, input, a).requiresSelection
    ensures input.platform.None? && ReverseNetwork(db, input, a.hint).Some?
    ensures forall key :: key in ActiveRows(db, a.rows) ==>
      OwnerActive(db, key) && ReverseRow(db, ReverseNetwork(db, input, a.hint).value, input, key)
    ensures LookupRecipientConfirmation(db, input, a).candidates == CandidatePlatforms(db, ActiveRows(db, a.rows))
    ensures |LookupRecipientConfirmation(db, input, a).candidates| >= 2
  {
    hide InForceAt, FindNetwork;
  }
}
