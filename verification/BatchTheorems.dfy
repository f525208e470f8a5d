/** What a batch response means. */
module BatchTheorems {
  import opened Wrappers
  import opened Text
  import opened Normalization
  import opened Registry
  import opened RegistryTheorems
  import opened RegistryRuns
  import opened Lookups
  import opened LookupTheorems
  import opened BatchVerify

  /** The processed rows are a prefix; without the flag all of them; with it, up to and including the first risky one. */
  lemma {:induction false} ProcessedIsAPrefix(judged: seq<Judged>, stop: bool)
    ensures var p := Processed(judged, stop);
      && |p| <= |judged| && p == judged[..|p|]
      && (!stop ==> p == judged)
      && (stop ==> forall i :: 0 <= i < |p| - 1 ==> !IsHigh(p[i]))
      && (|p| < |judged| ==> p != [] && IsHigh(p[|p| - 1]))
  {
    if judged != [] {
      ProcessedIsAPrefix(judged[1..], stop);
    }
  }

  /** Every processed row is in exactly one category. */
  lemma {:induction false} CountsAddUp(judged: seq<Judged>)
    ensures Count(judged, Verified) + Count(judged, Warning) + Count(judged, Blocked) + Count(judged, Unsupported)
            == |judged|
  {
    if judged != [] {
      CountsAddUp(judged[..|judged| - 1]);
    }
  }

  lemma {:induction false} CountZero(judged: seq<Judged>, category: Category)
    requires forall i :: 0 <= i < |judged| ==> CategoryOf(judged[i]) != category
    ensures Count(judged, category) == 0
  {
    if judged != [] {
      CountZero(judged[..|judged| - 1], category);
    }
  }

  /** The reading is of a reachable registry, with answers a recipient row's queries can get there. */
  ghost predicate Genuine(b: Batch, row: RowInput, reading: Reading) {
    && IsServed(reading.db)
    && (NormalizeLookupInput(TrimOr(row.identifier), b.chain, b.asset).Some? &&
        ResolveRowMode(b.mode, row.mode) == BY_RECIPIENT ==>
          ForwardAnswers(reading.db, NormalizeLookupInput(TrimOr(row.identifier), b.chain, b.asset).value,
                         reading.answers))
  }

  lemma TrimOrIsTrimmed(value: Option<string>)
    ensures Trim(TrimOr(value)) == TrimOr(value)
  {
    if value.Some? {
      TrimIsTrimmed(value.value);
    }
  }

  lemma RecipientRowIsDecided(b: Batch, row: RowInput, reading: Reading)
    requires Genuine(b, row, reading) && ResolveRowMode(b.mode, row.mode) == BY_RECIPIENT
    requires RecipientRow(b, row, reading).Some?
    ensures var j := RecipientRow(b, row, reading).value;
      if j.response.verified then j.risk == LOW && j.response.matched else j.risk == HIGH
  {
    TrimOrIsTrimmed(row.address);
    TrimOrIsTrimmed(row.identifier);
    var address, identifier := TrimOr(row.address), TrimOr(row.identifier);
    hide IsServed, NormalizeAddress, NormalizeLookupInput, ForwardAnswers, LookupVerifiedDestination, CompareLookup, Trim,
         TrimOr;
    var input := NormalizeLookupInput(identifier, b.chain, b.asset).value;
    var given := NormalizeAddress(input.chain, address).value;
    hide NetworkOf;
    VerifyIsExact(reading.db, input, given, reading.answers);
  }

  lemma ReverseIsDecided(db: Database, input: ConfirmInput, a: Answers)
    ensures var r := LookupRecipientConfirmation(db, input, a);
      if r.verified then r.risk == LOW else r.risk == HIGH || r.risk == CRITICAL
  {
    hide ActiveRows, CandidatePlatforms, FindNetwork;
  }

  lemma AddressRowIsDecided(b: Batch, row: RowInput, reading: Reading)
    requires AddressRow(b, row, reading).Some?
    ensures var j := AddressRow(b, row, reading).value;
      if j.response.verified then j.risk == LOW else j.risk == HIGH || j.risk == CRITICAL
  {
    hide Trim, NormalizeConfirmInput, LookupRecipientConfirmation;
    var input := NormalizeConfirmInput(Some(TrimOr(row.platform)), b.chain, b.asset,
                                       ReadSensitiveInput(TrimOr(row.address), 200).value).value;
    ReverseIsDecided(reading.db, input, reading.answers);
  }

  /** A row is verified without risk, or it is HIGH or CRITICAL: there is nothing between. */
  predicate Decided(j: Judged) {
    j.response.verified <==> !IsHigh(j)
  }

  lemma RowIsDecided(b: Batch, row: RowInput, reading: Reading)
    requires Genuine(b, row, reading)
    ensures Decided(Judge(b, row, reading))
  {
    hide Genuine, RecipientRow, AddressRow, TrimOr, Trim;
    if ResolveRowMode(b.mode, row.mode) == BY_RECIPIENT {
      if RecipientRow(b, row, reading).Some? {
        RecipientRowIsDecided(b, row, reading);
      }
    } else if AddressRow(b, row, reading).Some? {
      AddressRowIsDecided(b, row, reading);
    }
  }

  /** The counts and the order of a response over decided rows. */
  lemma ResponseShape(all: seq<Judged>, stop: bool)
    requires forall i :: 0 <= i < |all| ==> Decided(all[i])
    ensures var p := Processed(all, stop);
      var r := ResponseOf(p);
      && r.totalRows == |p| <= |all| && p == all[..|p|]
      && (forall i :: 0 <= i < |p| ==> r.rows[i] == all[i].response)
      && r.verifiedRows + r.warningRows + r.blockedRows + r.unsupportedRows == r.totalRows
      && r.warningRows == 0
      && (!stop ==> r.totalRows == |all|)
      && (stop ==> (forall i :: 0 <= i < |p| - 1 ==> r.rows[i].verified))
      && (r.totalRows < |all| ==> r.totalRows > 0 && IsHigh(p[|p| - 1]) && !r.rows[|p| - 1].verified)
  {
    var p := Processed(all, stop);
    ProcessedIsAPrefix(all, stop);
    CountsAddUp(p);
    hide Processed;
    forall i | 0 <= i < |p| ensures CategoryOf(p[i]) != Warning && (IsHigh(p[i]) <==> !p[i].response.verified) {
      assert Decided(all[i]);
    }
    hide Decided, IsHigh, CategoryOf, Count;
    CountZero(p, Warning);
  }

  /**
   For a batch read from reachable registries: the rows returned are a prefix of the evaluations, in order; every one
   is counted once; none is a warning; and if the batch is to stop at the first risky row, all rows but the last are
   verified, and a batch cut short ends in a risky one.
   */
  lemma BatchRefinement(b: Batch, readings: seq<Reading>)
    requires |readings| == |b.rows|
    requires forall i :: 0 <= i < |b.rows| ==> Genuine(b, b.rows[i], readings[i])
    ensures var p := Processed(JudgeAll(b, readings), b.stopOnFirstHighRisk);
      var r := ResponseOf(p);
      && r.totalRows == |p| <= |b.rows|
      && (forall i :: 0 <= i < r.totalRows ==> r.rows[i] == Judge(b, b.rows[i], readings[i]).response)
      && r.verifiedRows + r.warningRows + r.blockedRows + r.unsupportedRows == r.totalRows
      && r.warningRows == 0
      && (!b.stopOnFirstHighRisk ==> r.totalRows == |b.rows|)
      && (b.stopOnFirstHighRisk ==> forall i :: 0 <= i < r.totalRows - 1 ==> r.rows[i].verified)
      && (r.totalRows < |b.rows| ==> r.totalRows > 0 && IsHigh(p[r.totalRows - 1]) && !r.rows[r.totalRows - 1].verified)
  {
    hide *;
    AllDecided(b, readings);
    ResponseShape(JudgeAll(b, readings), b.stopOnFirstHighRisk);
  }

  lemma AllDecided(b: Batch, readings: seq<Reading>)
    requires |readings| == |b.rows|
    requires forall i :: 0 <= i < |b.rows| ==> Genuine(b, b.rows[i], readings[i])
    ensures forall i :: 0 <= i < |b.rows| ==>
      JudgeAll(b, readings)[i] == Judge(b, b.rows[i], readings[i]) && Decided(JudgeAll(b, readings)[i])
  {
    hide Judge, Genuine, Decided;
    forall i | 0 <= i < |b.rows| ensures Decided(Judge(b, b.rows[i], readings[i])) {
      RowIsDecided(b, b.rows[i], readings[i]);
    }
  }

  /** A recipient row says what a single verify call on the same inputs would say; a row that is refused says so where
      the call fails. */
  predicate AgreesWithVerify(b: Batch, row: RowInput, reading: Reading)
    requires row.identifier.Some? && row.address.Some?
  {
    var j := Judge(b, row, reading).response;
    match Verify(reading.db, row.identifier.value, b.chain, b.asset, row.address.value, reading.answers)
    case Some(v) =>
      && j.matched == v.matched && j.verified == v.verified && j.risk == v.lookup.risk
      && j.flags == v.lookup.flags && j.recommendation == v.lookup.recommendation
      && j.platform == v.lookup.platform
    case None => j == Failed(BY_RECIPIENT, row).response
  }

  /** Nothing but the length of its identifier can be held against the row. */
  predicate Evaluable(b: Batch, row: RowInput) {
    && TrimOr(row.address) != "" && |TrimOr(row.address)| <= 200
    && (match NormalizeLookupInput(TrimOr(row.identifier), b.chain, b.asset)
        case Some(input) => NormalizeAddress(input.chain, TrimOr(row.address)).Some?
        case None => false)
  }

  lemma ShortRowAgrees(b: Batch, row: RowInput, reading: Reading)
    requires ResolveRowMode(b.mode, row.mode) == BY_RECIPIENT && row.identifier.Some? && row.address.Some?
    requires !(128 < |TrimOr(row.identifier)| <= 160) && !reading.fault
    ensures AgreesWithVerify(b, row, reading)
  {
    TrimIsTrimmed(row.identifier.value);
    TrimIsTrimmed(row.address.value);
    hide EvaluateVerifyLookup, Trim;
  }

  /** What the lookup and the comparison recommend is never what a refused row says. */
  lemma NeverInvalid(chain: string, db: Database, input: LookupInput, a: Answers, given: string)
    ensures var v := CompareLookup(chain, LookupVerifiedDestination(db, input, a), given);
      v.Some? ==> v.value.lookup.recommendation != InvalidRequest
  {
    hide NormalizeAddress, Resolvable, FindNetwork, LooksLike, Trim;
  }

  lemma RowIsEvaluation(b: Batch, row: RowInput, reading: Reading)
    requires row.identifier.Some? && row.address.Some? && |TrimOr(row.identifier)| <= 160
    ensures var address, identifier := TrimOr(row.address), TrimOr(row.identifier);
      var v := EvaluateVerifyLookup(reading.db, identifier, b.chain, b.asset, address, reading.answers);
      && (RecipientRow(b, row, reading).Some? <==> identifier != "" && address != "" && |address| <= 200 && v.Some?)
      && (RecipientRow(b, row, reading).Some? ==>
            RecipientRow(b, row, reading).value.response.recommendation == v.value.lookup.recommendation)
  {
    TrimIsTrimmed(row.identifier.value);
    TrimIsTrimmed(row.address.value);
    hide EvaluateVerifyLookup, Trim;
  }

  /** In a reachable registry an evaluation fails only for the inputs. */
  lemma EvaluationSucceeds(db: Database, identifier: string, chain: string, asset: string, address: string, a: Answers)
    requires IsServed(db)
    requires NormalizeLookupInput(identifier, chain, asset).Some? ==>
      ForwardAnswers(db, NormalizeLookupInput(identifier, chain, asset).value, a)
    ensures var v := EvaluateVerifyLookup(db, identifier, chain, asset, address, a);
      && (v.Some? <==> NormalizeLookupInput(identifier, chain, asset).Some?
                       && NormalizeAddress(NormalizeLookupInput(identifier, chain, asset).value.chain, address).Some?)
      && (v.Some? ==> v.value.lookup.recommendation != InvalidRequest)
  {
    var lookup := NormalizeLookupInput(identifier, chain, asset);
    hide IsServed, NormalizeAddress, NormalizeLookupInput, ForwardAnswers, LookupVerifiedDestination, CompareLookup,
         NetworkOf;
    if lookup.Some? && NormalizeAddress(lookup.value.chain, address).Some? {
      var given := NormalizeAddress(lookup.value.chain, address).value;
      VerifyIsExact(db, lookup.value, given, a);
      NeverInvalid(lookup.value.chain, db, lookup.value, a, given);
    }
  }

  lemma TrimsToSomething(identifier: string, chain: string, asset: string)
    requires NormalizeLookupInput(identifier, chain, asset).Some?
    ensures identifier != ""
  {
  }

  lemma LongRowIsEvaluated(b: Batch, row: RowInput, reading: Reading)
    requires Genuine(b, row, reading) && ResolveRowMode(b.mode, row.mode) == BY_RECIPIENT && row.identifier.Some?
    requires row.address.Some? && |TrimOr(row.identifier)| <= 160
    ensures RecipientRow(b, row, reading).Some? <==> Evaluable(b, row)
    ensures RecipientRow(b, row, reading).Some? ==>
      RecipientRow(b, row, reading).value.response.recommendation != InvalidRequest
  {
    hide IsServed, NormalizeAddress, NormalizeLookupInput, ForwardAnswers, EvaluateVerifyLookup, Trim, TrimOr, RecipientRow;
    RowIsEvaluation(b, row, reading);
    EvaluationSucceeds(reading.db, TrimOr(row.identifier), b.chain, b.asset, TrimOr(row.address), reading.answers);
    if NormalizeLookupInput(TrimOr(row.identifier), b.chain, b.asset).Some? {
      TrimsToSomething(TrimOr(row.identifier), b.chain, b.asset);
    }
  }

  /** The two agree exactly unless the identifier is longer than verify takes and short enough for a batch row, and
      nothing else is wrong with the row. */
  lemma RowAgreesWithVerify(b: Batch, row: RowInput, reading: Reading)
    requires Genuine(b, row, reading) && ResolveRowMode(b.mode, row.mode) == BY_RECIPIENT
    requires row.identifier.Some? && row.address.Some? && !reading.fault
    ensures AgreesWithVerify(b, row, reading) <==> !(128 < |TrimOr(row.identifier)| <= 160 && Evaluable(b, row))
  {
    hide Genuine, Evaluable, RecipientRow, EvaluateVerifyLookup;
    if 128 < |TrimOr(row.identifier)| <= 160 {
      LongRowIsEvaluated(b, row, reading);
      assert Verify(reading.db, row.identifier.value, b.chain, b.asset, row.address.value, reading.answers) == None;
    } else {
      ShortRowAgrees(b, row, reading);
    }
  }

  lemma LettersAreNormal(s: string)
    requires s != "" && forall i :: 0 <= i < |s| ==> s[i] == 'i'
    ensures Trim(s) == s && NormalizeLookupInput(s, "c", "a") == Some(LookupInput(s, "c", "a", "A"))
  {
    TrimOfTrimmed(s);
    assert Lower(s) == s;
    LetterIsNormal("c");
    LetterIsNormal("a");
    assert Upper("a") == "A";
    hide Trim, Lower, Upper, NormalizeChain, NormalizeAssetCode;
  }

  /** An identifier of 129 letters, which nobody is known by. */
  lemma LongRowDisagrees(mode: BatchMode) returns (b: Batch, row: RowInput, reading: Reading)
    requires mode != ALL_BY_ADDRESS
    ensures b.mode == mode && ResolveRowMode(b.mode, row.mode) == BY_RECIPIENT && Genuine(b, row, reading)
    ensures row.identifier.Some? && row.address.Some? && !reading.fault && !AgreesWithVerify(b, row, reading)
  {
    hide Trim, NormalizeLookupInput, NormalizeAddress, AgreesWithVerify, Reachable;
    var long := seq(129, _ => 'i');
    LettersAreNormal(long);
    LetterIsNormal("x");
    AddressOnOtherChain("x");
    EmptyIsReachable([CORRIDOR]);
    b := Batch("c", "a", mode, false, []);
    row := RowInput(None, Some(long), None, Some("x"));
    reading := Reading(Database(EMPTY, [CORRIDOR], [], 0), Answers(None, 0, [], None), false);
    RowAgreesWithVerify(b, row, reading);
  }
}
