/** Which attestation a resolved destination is reported with. */
module ReportedAttestation {
  import opened Wrappers
  import opened Registry
  import opened RegistryTheorems
  import opened RegistryLog
  import opened RegistryRuns
  import opened Lookups
  import opened LookupTheorems

  /** Whatever the query for the newest attestation answers carries the terms of the row. */
  ghost predicate ReportsTerms(db: Database, key: DestinationKey)
    requires key in db.tables.destinations
  {
    forall i: nat :: IsLatest(db, key, Some(i)) ==> Backs(db.tables.attestations[i], key, db.tables.destinations[key])
  }

  /** No verified attestation of the destination with other terms was issued when the row's was, or later. */
  ghost predicate NoneIssuedSince(db: Database, key: DestinationKey)
    requires key in db.tables.destinations && db.tables.destinations[key].lastAttestedAt.Some?
  {
    forall j: nat :: IsVerified(db, j, key)
                     && db.tables.attestations[j].issuedAt >= db.tables.destinations[key].lastAttestedAt.value ==>
      Backs(db.tables.attestations[j], key, db.tables.destinations[key])
  }

  /** Each attestation of the destination is issued after those ingested before it. */
  ghost predicate IssuedInOrder(db: Database, key: DestinationKey) {
    forall i: nat, j: nat :: IsVerified(db, i, key) && IsVerified(db, j, key) && i < j ==>
      db.tables.attestations[i].issuedAt < db.tables.attestations[j].issuedAt
  }

  /** Among the first `n`, the newest attestation of the destination. */
  lemma {:induction false} NewestAmong(db: Database, key: DestinationKey, n: nat) returns (newest: Option<nat>)
    requires n <= |db.tables.attestations|
    ensures newest.None? ==> forall i: nat :: i < n ==> !IsVerified(db, i, key)
    ensures newest.Some? ==>
      && newest.value < n && IsVerified(db, newest.value, key)
      && forall i: nat :: i < n && IsVerified(db, i, key) ==>
           db.tables.attestations[i].issuedAt <= db.tables.attestations[newest.value].issuedAt
  {
    newest := None;
    if n != 0 {
      newest := NewestAmong(db, key, n - 1);
      if IsVerified(db, n - 1, key) && (newest.None? || db.tables.attestations[newest.value].issuedAt
                                                          < db.tables.attestations[n - 1].issuedAt) {
        newest := Some(n - 1);
      }
    }
  }

  /** The query has an answer. */
  lemma NewestExists(db: Database, key: DestinationKey) returns (newest: Option<nat>)
    ensures IsLatest(db, key, newest)
  {
    newest := NewestAmong(db, key, |db.tables.attestations|);
  }

  /**
   In every reachable registry, a destination in force is reported with the terms it was attested with, whatever the
   query answers, exactly when no attestation of it with other terms was issued at that time or later.
   */
  lemma ReportsTermsIff(db: Database, key: DestinationKey)
    requires IsServed(db) && key in db.tables.destinations && db.tables.destinations[key].status == ACTIVE
    ensures db.tables.destinations[key].lastAttestedAt.Some?
    ensures ReportsTerms(db, key) <==> NoneIssuedSince(db, key)
  {
    ActiveRowsAreBacked(db.networks, db.tables, key);
    hide IsServed, Reachable;
    var row, attestations := db.tables.destinations[key], db.tables.attestations;
    var last: nat :| LastBacks(attestations, last, key, row);
    assert IsVerified(db, last, key);
    if j: nat :| IsVerified(db, j, key) && attestations[j].issuedAt >= row.lastAttestedAt.value
                 && !Backs(attestations[j], key, row) {
      var newest := NewestExists(db, key);
      if attestations[newest.value].issuedAt == attestations[j].issuedAt {
        assert IsLatest(db, key, Some(j));
      }
      assert !ReportsTerms(db, key);
    }
  }

  /** A partner that issues its attestations of a destination in the order it submits them is safe. */
  lemma InOrderReportsTerms(db: Database, key: DestinationKey)
    requires IsServed(db) && key in db.tables.destinations && db.tables.destinations[key].status == ACTIVE
    requires IssuedInOrder(db, key)
    ensures ReportsTerms(db, key)
  {
    ActiveRowsAreBacked(db.networks, db.tables, key);
    hide IsServed, Reachable;
    var row, attestations := db.tables.destinations[key], db.tables.attestations;
    var last: nat :| LastBacks(attestations, last, key, row);
    assert IsVerified(db, last, key);
    forall i: nat | IsLatest(db, key, Some(i)) ensures i == last {
      assert IsVerified(db, i, key);
    }
  }

  /** The answer reports an attestation with the terms of the destination it names. */
  predicate TermsReported(db: Database, r: LookupResult) {
    && r.destination.Some? && r.destination.value in db.tables.destinations
    && r.attestation.Some? && r.attestation.value < |db.tables.attestations|
    && Backs(db.tables.attestations[r.attestation.value], r.destination.value,
             db.tables.destinations[r.destination.value])
  }

  /**
   So a RESOLVED forward answer reports the terms of its destination whichever newest attestation the query picks,
   exactly when no attestation of it with other terms was issued at that time or later.
   */
  lemma ResolvedReportsTerms(db: Database, input: LookupInput, a: Answers, key: DestinationKey)
    requires IsServed(db) && ForwardAnswers(db, input, a)
    requires LookupVerifiedDestination(db, input, a).outcome == RESOLVED
    requires LookupVerifiedDestination(db, input, a).destination == Some(key)
    ensures key in db.tables.destinations && db.tables.destinations[key].lastAttestedAt.Some?
    ensures NoneIssuedSince(db, key) <==>
            forall n :: ForwardAnswers(db, input, a.(latest := n)) ==>
              TermsReported(db, LookupVerifiedDestination(db, input, a.(latest := n)))
  {
    assert a.rows[0] in a.rows && a.rows[0] == key && |a.rows| == 1;
    assert ForwardRow(db, SlotOf(db, input, a), key);
    ReportsTermsIff(db, key);
    hide IsServed, NoneIssuedSince, NetworkOf, Backs;
    forall n
      ensures ForwardAnswers(db, input, a.(latest := n)) <==> IsLatest(db, key, n)
      ensures LookupVerifiedDestination(db, input, a.(latest := n)).destination == Some(key)
      ensures LookupVerifiedDestination(db, input, a.(latest := n)).attestation == n
    {
    }
    hide ForwardAnswers, LookupVerifiedDestination, ForwardRow;
    forall n | IsLatest(db, key, n) ensures n.Some? {
      LatestExists(db, key, n);
    }
  }

  /** And so does a RESOLVED reverse answer. */
  lemma ConfirmedReportsTerms(db: Database, input: ConfirmInput, a: Answers, key: DestinationKey)
    requires IsServed(db) && ReverseAnswers(db, input, a)
    requires LookupRecipientConfirmation(db, input, a).outcome == RESOLVED
    requires LookupRecipientConfirmation(db, input, a).destination == Some(key)
    ensures key in db.tables.destinations && db.tables.destinations[key].lastAttestedAt.Some?
    ensures NoneIssuedSince(db, key) <==>
            forall n :: ReverseAnswers(db, input, a.(latest := n)) ==>
              TermsReported(db, LookupRecipientConfirmation(db, input, a.(latest := n)))
  {
    assert ActiveRows(db, a.rows)[0] == key && |ActiveRows(db, a.rows)| == 1;
    assert key in a.rows && ReverseRow(db, ReverseNetwork(db, input, a.hint).value, input, key);
    ReportsTermsIff(db, key);
    hide IsServed, NoneIssuedSince, ReverseNetwork, Backs, ActiveRows;
    forall n
      ensures ReverseAnswers(db, input, a.(latest := n)) <==> IsLatest(db, key, n)
      ensures LookupRecipientConfirmation(db, input, a.(latest := n)).destination == Some(key)
      ensures LookupRecipientConfirmation(db, input, a.(latest := n)).attestation == n
    {
    }
    hide ReverseAnswers, LookupRecipientConfirmation, ReverseRow;
    forall n | IsLatest(db, key, n) ensures n.Some? {
      LatestExists(db, key, n);
    }
  }

  /** An assignment, a later revocation, and a rotation issued between the two but submitted last. */
  function Rotated(): Tables {
    var t1 := AfterSample(EMPTY, 0, "x", DESTINATION_ASSIGNMENT, 0, 10);
    var t2 := AfterSample(t1, 0, "x", DESTINATION_REVOCATION, 1, 100);
    AfterSample(t2, 0, "x", DESTINATION_ROTATION, 2, 50)
  }

  lemma SampleIsAppended(t: Tables, kind: AttestationType, n: nat, issuedAt: int)
    requires kind == DESTINATION_REVOCATION ==> SampleKey(0, "x") in t.destinations
    ensures var t' := AfterSample(t, 0, "x", kind, n, issuedAt);
      t'.attestations == t.attestations + [SampleRow(0, "x", kind, n, issuedAt)] && SampleKey(0, "x") in t'.destinations
  {
  }

  lemma RotatedIsReachable()
    ensures Reachable([CORRIDOR], Rotated())
  {
    hide Reachable, AfterSample;
    SampleIsAppended(EMPTY, DESTINATION_ASSIGNMENT, 0, 10);
    var t1 := AfterSample(EMPTY, 0, "x", DESTINATION_ASSIGNMENT, 0, 10);
    SampleIsAppended(t1, DESTINATION_REVOCATION, 1, 100);
    var t2 := AfterSample(t1, 0, "x", DESTINATION_REVOCATION, 1, 100);
    EmptyIsReachable([CORRIDOR]);
    ReachableSample(EMPTY, 0, "p", "x", DESTINATION_ASSIGNMENT, 0, 10);
    ReachableSample(t1, 0, "p", "x", DESTINATION_REVOCATION, 1, 100);
    ReachableSample(t2, 0, "p", "x", DESTINATION_ROTATION, 2, 50);
  }

  lemma RotatedRows()
    ensures var t := Rotated();
      && t.attestations == [SampleRow(0, "x", DESTINATION_ASSIGNMENT, 0, 10),
                            SampleRow(0, "x", DESTINATION_REVOCATION, 1, 100),
                            SampleRow(0, "x", DESTINATION_ROTATION, 2, 50)]
      && SampleKey(0, "x") in t.destinations
      && t.destinations[SampleKey(0, "x")] == Destination("x", ACTIVE, true, 50, Some(50), None, None)
  {
    hide RevokeOthers;
  }

  /** A destination in force, reported with a revocation. */
  lemma ReportedRevocation(partners: seq<PartnerRow>, now: int) returns (db: Database, key: DestinationKey)
    requires now >= 50
    ensures IsServed(db) && db.partners == partners && db.now == now
    ensures key in db.tables.destinations && InForceAt(db.tables.destinations[key], now)
    ensures IsLatest(db, key, Some(1)) && db.tables.attestations[1].kind == DESTINATION_REVOCATION
  {
    RotatedIsReachable();
    RotatedRows();
    hide Reachable, Rotated;
    db := Database(Rotated(), [CORRIDOR], partners, now);
    key := SampleKey(0, "x");
  }
}
