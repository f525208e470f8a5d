/** The lookups are exact, agree with one another, and are backed by attestations, in every reachable registry. */
module LookupTheorems {
  import opened Wrappers
  import opened Text
  import opened Normalization
  import opened Registry
  import opened RegistryTheorems
  import opened RegistryLog
  import opened Lookups

  /** The registry tables are those of some run. */
  ghost predicate IsServed(db: Database) {
    Reachable(db.networks, db.tables)
  }

  /** Slugs are unique and stored in normal form, as createPartner writes them. */
  predicate SlugsOk(partners: seq<PartnerRow>) {
    && (forall i, j :: 0 <= i < j < |partners| ==> partners[i].slug != partners[j].slug)
    && (forall i :: 0 <= i < |partners| ==> NormalizePartnerSlug(partners[i].slug) == Some(partners[i].slug))
  }

  // ---- the forward lookup ----

  lemma RowsInForceCoincide(db: Database, slot: Slot, key: DestinationKey, other: DestinationKey)
    requires IsServed(db) && ForwardRow(db, slot, key) && ForwardRow(db, slot, other)
    ensures key == other
  {
    DestinationRows(db.networks, db.tables);
  }

  /** No two rows can be in force for one recipient on one network. */
  lemma OneRowInForce(db: Database, slot: Slot, rows: seq<DestinationKey>)
    requires IsServed(db) && NoDuplicates(rows)
    requires forall key :: key in rows ==> ForwardRow(db, slot, key)
    ensures |rows| <= 1
  {
    hide Reachable, ForwardRow;
    if |rows| > 1 {
      RowsInForceCoincide(db, slot, rows[0], rows[1]);
    }
  }

  /** The forward lookup never finds more than one destination: its AMBIGUOUS branch is unreachable. */
  lemma ForwardIsUnambiguous(db: Database, input: LookupInput, a: Answers)
    requires IsServed(db) && ForwardAnswers(db, input, a)
    ensures LookupVerifiedDestination(db, input, a).outcome in {RESOLVED, NO_MATCH, UNVERIFIED}
  {
    if a.identifier.Some? && NetworkOf(db, input, a.hint).Some? {
      OneRowInForce(db, SlotOf(db, input, a), a.rows);
      if |a.rows| == 1 {
        assert ForwardRow(db, SlotOf(db, input, a), a.rows[0]);
      }
    }
    hide Reachable, IsServed;
  }

  /** A row in force is found, and is what the lookup returns. */
  lemma ForwardIsExact(db: Database, input: LookupInput, a: Answers)
    requires IsServed(db) && ForwardAnswers(db, input, a)
    requires a.identifier.Some? && NetworkOf(db, input, a.hint).Some?
    ensures var r := LookupVerifiedDestination(db, input, a);
      && (r.outcome == RESOLVED <==> exists key :: ForwardRow(db, SlotOf(db, input, a), key))
      && (r.verified <==> r.outcome == RESOLVED)
      && (r.verified <==> r.risk == LOW)
      && (forall key :: ForwardRow(db, SlotOf(db, input, a), key) ==>
            r.destination == Some(key) && r.address == Some(db.tables.destinations[key].addressRaw))
      && (r.outcome == RESOLVED ==>
            && r.recommendation == SafeToSend && r.destination.Some? && r.destination.value in db.tables.destinations
            && var row := db.tables.destinations[r.destination.value];
            && r.destination.value.slot == SlotOf(db, input, a) && row.status == ACTIVE
            && row.effectiveFrom <= db.now && (row.expiresAt == None || db.now < row.expiresAt.value))
      && (forall key :: key in db.tables.destinations && key.slot == SlotOf(db, input, a) ==>
            var row := db.tables.destinations[key];
            row.status == ACTIVE && row.effectiveFrom <= db.now && (row.expiresAt == None || db.now < row.expiresAt.value)
            ==> r.destination == Some(key))
  {
    ForwardIsUnambiguous(db, input, a);
    OneRowInForce(db, SlotOf(db, input, a), a.rows);
    hide Reachable, IsServed, NetworkOf;
    var slot := SlotOf(db, input, a);
    if |a.rows| == 1 {
      assert a.rows[0] in a.rows && ForwardRow(db, slot, a.rows[0]);
      forall key | ForwardRow(db, slot, key) ensures key == a.rows[0] {
        assert key in a.rows;
      }
    } else {
      assert forall key :: ForwardRow(db, slot, key) ==> key in a.rows;
    }
  }

  /** The newest attestation of a destination in force exists, and one of its attestations carries the row's terms. */
  lemma LatestExists(db: Database, key: DestinationKey, latest: Option<nat>)
    requires IsServed(db) && IsLatest(db, key, latest)
    requires key in db.tables.destinations && db.tables.destinations[key].status == ACTIVE
    ensures latest.Some? && IsVerified(db, latest.value, key)
    ensures exists i :: 0 <= i < |db.tables.attestations|
                        && Backs(db.tables.attestations[i], key, db.tables.destinations[key])
  {
    ActiveRowsAreBacked(db.networks, db.tables, key);
    hide Reachable;
    var i: nat :| LastBacks(db.tables.attestations, i, key, db.tables.destinations[key]);
    assert IsVerified(db, i, key);
  }

  /**
   A RESOLVED answer in either direction names an attestation of the destination it names, and the destination's
   address, window and issue time are those of a verified attestation, no revocation, by the same partner.
   */
  lemma BackedResolution(db: Database, input: LookupInput, reverse: ConfirmInput, a: Answers)
    requires IsServed(db)
    ensures ForwardAnswers(db, input, a) ==> ResultIsBacked(db, LookupVerifiedDestination(db, input, a))
    ensures ReverseAnswers(db, reverse, a) ==> ResultIsBacked(db, LookupRecipientConfirmation(db, reverse, a))
  {
    hide IsServed, NormalizeAddress, FindNetwork, ActiveRows, Backs;
    if ForwardAnswers(db, input, a) && LookupVerifiedDestination(db, input, a).outcome == RESOLVED {
      assert ForwardRow(db, SlotOf(db, input, a), a.rows[0]);
      LatestExists(db, a.rows[0], a.latest);
    }
    if ReverseAnswers(db, reverse, a) && LookupRecipientConfirmation(db, reverse, a).outcome == RESOLVED {
      var key := ActiveRows(db, a.rows)[0];
      assert key in a.rows;
      LatestExists(db, key, a.latest);
    }
  }

  ghost predicate ResultIsBacked(db: Database, r: LookupResult) {
    r.outcome == RESOLVED ==>
      && r.destination.Some? && r.destination.value in db.tables.destinations
      && r.attestation.Some? && IsVerified(db, r.attestation.value, r.destination.value)
      && (r.address.Some? ==> r.address.value == db.tables.destinations[r.destination.value].addressRaw)
      && exists i :: 0 <= i < |db.tables.attestations|
           && Backs(db.tables.attestations[i], r.destination.value, db.tables.destinations[r.destination.value])
  }

  // ---- verify ----

  /** The stored raw address of a row in force normalizes to its key on the chain the lookup used. */
  lemma StoredAddress(db: Database, key: DestinationKey)
    requires IsServed(db) && key in db.tables.destinations
    ensures key.slot.network < |db.networks|
    ensures NormalizeAddress(db.networks[key.slot.network].chain, db.tables.destinations[key].addressRaw)
            == Some(key.address)
    ensures db.tables.destinations[key].addressRaw != ""
  {
    DestinationRows(db.networks, db.tables);
  }

  /** The address is in force for the recipient on the network. */
  ghost predicate InForceThere(db: Database, slot: Slot, address: string) {
    exists key :: ForwardRow(db, slot, key) && key.address == address
  }

  /** What the lookup resolves to, and whether the given address is it. */
  lemma ResolvedIsInForce(db: Database, input: LookupInput, given: string, a: Answers)
    requires IsServed(db) && ForwardAnswers(db, input, a)
    requires a.identifier.Some? && NetworkOf(db, input, a.hint).Some?
    ensures var r := LookupVerifiedDestination(db, input, a);
      if r.outcome == RESOLVED then
        && r.address.Some? && r.address.value != ""
        && NormalizeAddress(input.chain, r.address.value).Some?
        && (InForceThere(db, SlotOf(db, input, a), given) <==>
            NormalizeAddress(input.chain, r.address.value).value == given)
      else !InForceThere(db, SlotOf(db, input, a), given)
  {
    ForwardIsExact(db, input, a);
    hide Reachable, IsServed, NormalizeAddress, LookupVerifiedDestination, NetworkOf, ForwardRow, ForwardAnswers, Resolvable;
    if key :| ForwardRow(db, SlotOf(db, input, a), key) {
      ForwardRowStored(db, SlotOf(db, input, a), key);
    }
  }

  /** verify on top of a lookup. */
  lemma CompareLookupShape(chain: string, r: LookupResult, given: string)
    requires if r.outcome == RESOLVED then r.verified && r.address.Some? else !r.verified && r.address.None?
    ensures var v := CompareLookup(chain, r, given);
      && (r.outcome != RESOLVED ==> v == Some(VerifyResult(r, false, false)))
      && (r.outcome == RESOLVED && r.address.value != "" && NormalizeAddress(chain, r.address.value).Some? ==>
            && v.Some? && v.value.matched == v.value.verified
            && (v.value.verified <==> given == NormalizeAddress(chain, r.address.value).value)
            && (if v.value.verified then v.value.lookup == r
                else Mismatched(v.value.lookup)))
  {
    hide NormalizeAddress, Compare;
    if r.outcome == RESOLVED && r.address.value != "" && NormalizeAddress(chain, r.address.value).Some? {
      CompareShape(r, given, NormalizeAddress(chain, r.address.value).value);
    }
  }

  lemma CompareShape(lookup: LookupResult, given: string, resolved: string)
    requires lookup.verified
    ensures var v := Compare(lookup, given, resolved);
      && v.matched == v.verified && (v.verified <==> given == resolved)
      && (if v.verified then v.lookup == lookup else Mismatched(v.lookup))
  {
    hide LooksLike, Trim;
  }

  predicate Mismatched(r: LookupResult) {
    r.risk == HIGH && ADDRESS_MISMATCH in r.flags && r.outcome == MISMATCH && r.recommendation == DoNotSend
  }

  /**
   verify says verified exactly when the address it is given is, normalized, the one in force for the recipient on the
   network, and whatever it does not verify is HIGH risk.
   */
  lemma VerifyIsExact(db: Database, input: LookupInput, given: string, a: Answers)
    requires IsServed(db) && ForwardAnswers(db, input, a)
    ensures var v := CompareLookup(input.chain, LookupVerifiedDestination(db, input, a), given);
      && v.Some?
      && (v.value.verified <==>
            && a.identifier.Some? && NetworkOf(db, input, a.hint).Some?
            && InForceThere(db, SlotOf(db, input, a), given))
      && (v.value.verified <==> v.value.matched)
      && (if v.value.verified then v.value.lookup.risk == LOW && v.value.lookup.flags == []
          else v.value.lookup.risk == HIGH && v.value.lookup.flags != [])
      && (v.value.verified <==> v.value.lookup.recommendation == SafeToSend)
      && (!v.value.verified && LookupVerifiedDestination(db, input, a).outcome == RESOLVED ==>
            && v.value.lookup.outcome == MISMATCH && v.value.lookup.recommendation == DoNotSend
            && ADDRESS_MISMATCH in v.value.lookup.flags)
  {
    hide IsServed, NormalizeAddress, Resolvable, FindNetwork, LookupVerifiedDestination, ForwardAnswers, ForwardRow,
         CompareLookup;
    ForwardIsUnambiguous(db, input, a);
    ForwardShape(db, input, a);
    CompareLookupShape(input.chain, LookupVerifiedDestination(db, input, a), given);
    if a.identifier.Some? && NetworkOf(db, input, a.hint).Some? {
      ResolvedIsInForce(db, input, given, a);
    }
    hide IsServed;
  }

  lemma ForwardRowStored(db: Database, slot: Slot, key: DestinationKey)
    requires IsServed(db) && ForwardRow(db, slot, key) && slot.network < |db.networks|
    ensures NormalizeAddress(db.networks[slot.network].chain, db.tables.destinations[key].addressRaw)
            == Some(key.address)
    ensures db.tables.destinations[key].addressRaw != ""
  {
    StoredAddress(db, key);
  }

  /** The forms a forward result can have. */
  lemma ForwardShape(db: Database, input: LookupInput, a: Answers)
    ensures var r := LookupVerifiedDestination(db, input, a);
      if r.outcome == RESOLVED then
        r.verified && r.risk == LOW && r.flags == [] && r.address.Some? && r.recommendation == SafeToSend
        && a.identifier.Some? && NetworkOf(db, input, a.hint).Some?
      else
        !r.verified && r.flags != [] && r.address == None && r.recommendation != SafeToSend
        && (r.outcome != AMBIGUOUS ==> r.risk == HIGH)
  {
  }
}
