/**
 What a batch demands and what its rows say, in the fields of its input and of its response. The sentences here use none
 of the predicates the batch is specified with.
 */
module BatchMeaning {
  import opened Wrappers
  import opened Text
  import opened Normalization
  import opened Registry
  import opened Lookups
  import opened LookupTheorems
  import opened LookupMeaning
  import opened BatchVerify
  import opened BatchTheorems

  /** A row without an identifier, or without an address, or by address without a platform has the whole batch refused. */
  lemma AcceptedMeans(b: Batch, maxRows: nat)
    ensures Accepted(b, maxRows) <==>
      && 0 < |b.rows| <= maxRows && NormalizeChain(b.chain).Some? && NormalizeAssetSymbol(b.asset).Some?
      && forall row :: row in b.rows ==>
           var byAddress := b.mode == ALL_BY_ADDRESS || (b.mode == MIXED && row.mode == Some(BY_ADDRESS));
           && row.address.Some? && Trim(row.address.value) != ""
           && (if byAddress then row.platform.Some? && Trim(row.platform.value) != ""
               else row.identifier.Some? && Trim(row.identifier.value) != "")
  {
    hide NormalizeChain, NormalizeAssetSymbol, Trim;
    if forall i :: 0 <= i < |b.rows| ==> RowMeetsRequirements(b.mode, b.rows[i]) {
      forall row | row in b.rows ensures RowMeetsRequirements(b.mode, row) {
      }
    } else {
      var i :| 0 <= i < |b.rows| && !RowMeetsRequirements(b.mode, b.rows[i]);
      assert b.rows[i] in b.rows;
    }
  }

  /** The number of rows of each kind, in what the response says of them. */
  lemma {:induction false} CountIsNumber(judged: seq<Judged>, category: Category)
    ensures Count(judged, category) == |set i | 0 <= i < |judged| && CategoryOf(judged[i]) == category|
  {
    hide CategoryOf;
    var n := |judged|;
    var all := set i | 0 <= i < n && CategoryOf(judged[i]) == category;
    if n == 0 {
      assert all == {};
    } else {
      var before := judged[..n - 1];
      CountIsNumber(before, category);
      var some := set i | 0 <= i < |before| && CategoryOf(before[i]) == category;
      if CategoryOf(judged[n - 1]) == category {
        assert all == some + {n - 1};
      } else {
        assert all == some;
      }
    }
  }

  /**
   A completed batch counts a row as verified if it is, as unsupported if it is not and its recommendation says so, and
   otherwise as blocked.
   */
  lemma CountsMean(b: Batch, readings: seq<Reading>)
    requires |readings| == |b.rows|
    requires forall i :: 0 <= i < |b.rows| ==> Genuine(b, b.rows[i], readings[i])
    ensures var r := ResponseOf(Processed(JudgeAll(b, readings), b.stopOnFirstHighRisk));
      && r.verifiedRows == |set i | 0 <= i < |r.rows| && r.rows[i].verified|
      && r.unsupportedRows ==
         |set i | 0 <= i < |r.rows| && !r.rows[i].verified && r.rows[i].recommendation == UnsupportedAssetNetwork|
      && r.blockedRows ==
         |set i | 0 <= i < |r.rows| && !r.rows[i].verified && r.rows[i].recommendation != UnsupportedAssetNetwork|
  {
    var all := JudgeAll(b, readings);
    ProcessedIsAPrefix(all, b.stopOnFirstHighRisk);
    AllDecided(b, readings);
    forall i | 0 <= i < |all| ensures Plain(all[i]) {
      SaidAndCounted(b, b.rows[i], readings[i]);
    }
    hide *;
    PlainCounts(Processed(all, b.stopOnFirstHighRisk));
  }

  /** What counts is what the response says, and a row is verified or risky. */
  predicate Plain(j: Judged) {
    j.response.recommendation == j.recommendation && Decided(j)
  }

  lemma PlainCounts(p: seq<Judged>)
    requires forall i :: 0 <= i < |p| ==> Plain(p[i])
    ensures var r := ResponseOf(p);
      && r.verifiedRows == |set i | 0 <= i < |r.rows| && r.rows[i].verified|
      && r.unsupportedRows ==
         |set i | 0 <= i < |r.rows| && !r.rows[i].verified && r.rows[i].recommendation == UnsupportedAssetNetwork|
      && r.blockedRows ==
         |set i | 0 <= i < |r.rows| && !r.rows[i].verified && r.rows[i].recommendation != UnsupportedAssetNetwork|
  {
    hide Count;
    CountIsNumber(p, Verified);
    CountIsNumber(p, Unsupported);
    CountIsNumber(p, Blocked);
    var rows := ResponseOf(p).rows;
    forall i | 0 <= i < |p|
      ensures rows[i] == p[i].response
      ensures CategoryOf(p[i]) == if rows[i].verified then Verified
                                  else if rows[i].recommendation == UnsupportedAssetNetwork then Unsupported else Blocked
    {
      assert Plain(p[i]);
    }
    hide CategoryOf, Plain, Decided, IsHigh;
    assert (set i | 0 <= i < |rows| && rows[i].verified) == set i | 0 <= i < |p| && CategoryOf(p[i]) == Verified;
    assert (set i | 0 <= i < |rows| && !rows[i].verified && rows[i].recommendation == UnsupportedAssetNetwork)
        == set i | 0 <= i < |p| && CategoryOf(p[i]) == Unsupported;
    assert (set i | 0 <= i < |rows| && !rows[i].verified && rows[i].recommendation != UnsupportedAssetNetwork)
        == set i | 0 <= i < |p| && CategoryOf(p[i]) == Blocked;
  }

  lemma SaidAndCounted(b: Batch, row: RowInput, reading: Reading)
    ensures Judge(b, row, reading).response.recommendation == Judge(b, row, reading).recommendation
    ensures Judge(b, row, reading).response.risk == Judge(b, row, reading).risk
    ensures Judge(b, row, reading).response.flags == Judge(b, row, reading).flags
  {
    hide EvaluateVerifyLookup, LookupRecipientConfirmation, NormalizeConfirmInput, Trim;
  }

  /** A row whose recording fails, or whose fields are missing or too long, is an invalid request: a mismatch of HIGH
      risk, matched and verified by nothing. */
  lemma RejectedMeans(b: Batch, row: RowInput, reading: Reading)
    ensures var j := Judge(b, row, reading);
      var byAddress := b.mode == ALL_BY_ADDRESS || (b.mode == MIXED && row.mode == Some(BY_ADDRESS));
      var address := if row.address.Some? then Trim(row.address.value) else "";
      var identifier := if row.identifier.Some? then Trim(row.identifier.value) else "";
      var platform := if row.platform.Some? then Trim(row.platform.value) else "";
      && j.response.mode == (if byAddress then BY_ADDRESS else BY_RECIPIENT)
      && j.response.address == address
      && (reading.fault || address == "" || |address| > 200
          || (if byAddress then platform == "" else identifier == "" || |identifier| > 160) ==>
            && j.response.recommendation == InvalidRequest && !j.response.matched && !j.response.verified
            && j.risk == HIGH && j.flags == [ADDRESS_MISMATCH] && j.outcome == ERROR
            && j.response.identifier == (if identifier == "" then None else Some(identifier)))
  {
    hide EvaluateVerifyLookup, LookupRecipientConfirmation, NormalizeConfirmInput, Trim;
    if row.address.Some? {
      TrimIsTrimmed(row.address.value);
    }
    if row.identifier.Some? {
      TrimIsTrimmed(row.identifier.value);
    }
  }

  /** The outcome recorded for a recipient row is RESOLVED exactly if the row is verified, and a mismatch exactly if it says
      not to send. */
  lemma RecordedOutcomeMeans(b: Batch, row: RowInput, reading: Reading)
    requires Genuine(b, row, reading) && !reading.fault
    requires ResolveRowMode(b.mode, row.mode) == BY_RECIPIENT && RecipientRow(b, row, reading).Some?
    ensures var j := Judge(b, row, reading);
      && (j.outcome == RESOLVED <==> j.response.verified) && (j.outcome == MISMATCH <==> j.recommendation == DoNotSend)
  {
    RecipientInput(b, row);
    var address, identifier := TrimOr(row.address), TrimOr(row.identifier);
    hide IsServed, NormalizeAddress, NormalizeLookupInput, ForwardAnswers, LookupVerifiedDestination, CompareLookup, Trim,
         TrimOr, Alike;
    var input := NormalizeLookupInput(identifier, b.chain, b.asset).value;
    VerifyMeans(reading.db, input, address, reading.answers);
    UnresolvedMeans(reading.db, input, reading.answers);
  }

  lemma RecipientInput(b: Batch, row: RowInput)
    ensures Trim(TrimOr(row.address)) == TrimOr(row.address) && Trim(TrimOr(row.identifier)) == TrimOr(row.identifier)
  {
    TrimOrIsTrimmed(row.address);
    TrimOrIsTrimmed(row.identifier);
  }

  /** An address row says what confirmAddress says of the address on the platform it names; a row that is refused says so
      where the call fails. */
  lemma AddressRowAgreesWithConfirm(b: Batch, row: RowInput, reading: Reading)
    requires b.mode == ALL_BY_ADDRESS || (b.mode == MIXED && row.mode == Some(BY_ADDRESS))
    requires row.address.Some? && row.platform.Some? && Trim(row.platform.value) != "" && !reading.fault
    ensures var j := Judge(b, row, reading);
      match ConfirmAddress(reading.db, row.platform, b.chain, b.asset, row.address.value, reading.answers)
      case Some(r) =>
        && j.response.mode == BY_ADDRESS && j.response.matched == r.verified && j.response.verified == r.verified
        && j.response.risk == r.risk && j.response.flags == r.flags && j.response.recommendation == r.recommendation
        && j.response.platform == r.platform && j.response.address == Trim(row.address.value)
        && j.response.identifier == None && j.outcome == r.outcome
      case None =>
        && j.response.recommendation == InvalidRequest && !j.response.matched && !j.response.verified
        && j.response.risk == HIGH && j.outcome == ERROR
  {
    hide LookupRecipientConfirmation, NormalizeConfirmInput, Trim;
    TrimIsTrimmed(row.address.value);
    TrimIsTrimmed(row.platform.value);
    ConfirmPlatform(row.platform.value, b.chain, b.asset, Trim(row.address.value));
  }

  /** A platform is trimmed before it is looked at. */
  lemma ConfirmPlatform(platform: string, chain: string, asset: string, address: string)
    ensures NormalizeConfirmInput(Some(Trim(platform)), chain, asset, address)
            == NormalizeConfirmInput(Some(platform), chain, asset, address)
  {
    TrimIsTrimmed(platform);
    hide Trim, NormalizePartnerSlug, NormalizeChain, NormalizeAssetCode, NormalizeAssetSymbol, NormalizeAddress;
  }

  /** A verified address row is of a destination in force with that address at the partner with the slug it names. */
  lemma VerifiedAddressRow(b: Batch, row: RowInput, reading: Reading, input: ConfirmInput)
    requires b.mode == ALL_BY_ADDRESS || (b.mode == MIXED && row.mode == Some(BY_ADDRESS))
    requires row.address.Some? && row.platform.Some? && Judge(b, row, reading).response.verified
    requires NormalizeConfirmInput(row.platform, b.chain, b.asset, Trim(row.address.value)) == Some(input)
    requires ReverseAnswers(reading.db, input, reading.answers)
    ensures ReverseNetwork(reading.db, input, reading.answers.hint).Some?
    ensures exists key ::
      && Confirmable(reading.db, ReverseNetwork(reading.db, input, reading.answers.hint).value, input, key)
      && NormalizePartnerSlug(Trim(row.platform.value))
         == Some(reading.db.partners[key.slot.recipient.partnerId].slug)
      && Some(key.address) == NormalizeAddress(input.chain, Trim(row.address.value))
  {
    var db, a := reading.db, reading.answers;
    var platform := row.platform.value;
    AddressRowCall(b, row, reading);
    AddressRowAgreesWithConfirm(b, row, reading);
    ConfirmInputFields(platform, b.chain, b.asset, Trim(row.address.value));
    ConfirmIsLookup(db, row.platform, b.chain, b.asset, row.address.value, a);
    UnsupportedMeans(db, input, a);
    hide *;
    if ReverseNetwork(db, input, a.hint).None? {
      UnsupportedRefuses(db, input, a);
    } else {
      ConfirmedMeans(db, input, a, ReverseNetwork(db, input, a.hint).value);
      SoleIsConfirmable(db, ReverseNetwork(db, input, a.hint).value, input);
    }
  }

  lemma UnsupportedRefuses(db: Database, input: ConfirmInput, a: Answers)
    requires ReverseNetwork(db, input, a.hint).None?
    ensures !LookupRecipientConfirmation(db, input, a).verified
  {
  }

  lemma SoleIsConfirmable(db: Database, network: nat, input: ConfirmInput)
    requires exists key :: Sole(db, network, input, key)
    ensures exists key :: Confirmable(db, network, input, key)
                          && (input.platform.Some? ==> Some(db.partners[key.slot.recipient.partnerId].slug) == input.platform)
                          && key.address == input.address
  {
    var key :| Sole(db, network, input, key);
    assert Confirmable(db, network, input, key);
  }

  /** A verified row had its platform, and nothing failed. */
  lemma AddressRowCall(b: Batch, row: RowInput, reading: Reading)
    requires b.mode == ALL_BY_ADDRESS || (b.mode == MIXED && row.mode == Some(BY_ADDRESS))
    requires row.address.Some? && row.platform.Some? && Judge(b, row, reading).response.verified
    ensures Trim(row.platform.value) != "" && !reading.fault
  {
    hide LookupRecipientConfirmation, NormalizeConfirmInput, Trim;
  }

  lemma ConfirmInputFields(platform: string, chain: string, asset: string, address: string)
    requires Trim(platform) != "" && NormalizeConfirmInput(Some(platform), chain, asset, address).Some?
    ensures var input := NormalizeConfirmInput(Some(platform), chain, asset, address).value;
      && NormalizePartnerSlug(Trim(platform)) == input.platform && input.platform.Some?
      && NormalizeAddress(input.chain, address) == Some(input.address)
  {
    TrimIsTrimmed(platform);
    hide Trim, NormalizeChain, NormalizeAssetCode, NormalizeAssetSymbol, NormalizeAddress;
  }

  lemma ConfirmIsLookup(db: Database, platform: Option<string>, chain: string, asset: string, address: string, a: Answers)
    ensures ConfirmAddress(db, platform, chain, asset, address, a).Some? ==>
      NormalizeConfirmInput(platform, chain, asset, Trim(address)).Some? &&
      ConfirmAddress(db, platform, chain, asset, address, a) ==
        Some(LookupRecipientConfirmation(db, NormalizeConfirmInput(platform, chain, asset, Trim(address)).value, a))
  {
    hide Trim, NormalizeConfirmInput, LookupRecipientConfirmation;
  }

  /** Each processed row is stored under its run, at its place, with its own outcome, risk and flags. */
  lemma StoredRowsMean(judged: seq<Judged>, run: nat, i: nat)
    requires i < |judged|
    ensures |RecordsOf(judged, run)| == |judged|
    ensures var row := RecordsOf(judged, run)[i];
      row.run == run && row.rowIndex == i && row.outcome == judged[i].outcome && row.risk == judged[i].risk
      && row.flags == judged[i].flags
  {
  }
}
