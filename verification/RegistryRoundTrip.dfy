/** What a partner attests is what a reader then resolves. */
module RegistryRoundTrip {
  import opened Wrappers
  import opened Text
  import opened Normalization
  import opened Registry
  import opened RegistryTheorems
  import opened RegistryRuns
  import opened Lookups
  import opened LookupTheorems
  import opened ReportedAttestation
  import opened LookupMeaning

  /** The rows a new attestation writes beside itself. */
  predicate Wrote(t': Tables, a: Attestation) {
    && a.destination.slot.recipient in t'.recipients
    && t'.recipients[a.destination.slot.recipient].status == RECIPIENT_ACTIVE
    && a.identifier in t'.identifiers && t'.identifiers[a.identifier].recipient == a.destination.slot.recipient
    && t'.identifiers[a.identifier].status == IDENTIFIER_ACTIVE
    && t'.identifiers[a.identifier].visibility == RESOLVABLE
    && a.destination in t'.destinations
    && (if a.kind == DESTINATION_REVOCATION then t'.destinations[a.destination].status == REVOKED
        else t'.destinations[a.destination] ==
               Destination(a.addressRaw, ACTIVE, true, a.effectiveFrom, Some(a.issuedAt), a.expiresAt, None))
  }

  lemma MaterializeWrites(t: Tables, networks: seq<Network>, partnerId: nat, f: Fields, input: AttestationInput)
    requires Materialize(t, networks, partnerId, f, input).Success?
    ensures var t' := Materialize(t, networks, partnerId, f, input).value;
      && |t'.attestations| == |t.attestations| + 1
      && var a := t'.attestations[|t.attestations|];
      && Wrote(t', a) && a == NewAttestation(partnerId, f, a.destination.slot.network, input)
  {
    hide NormalizeAddress, Trim, NormalizeMemo, TrimmedName, IsCorridor, FindCorridor;
  }

  /** The attestation was new: the call appended it to the log. */
  predicate Appends(t: Tables, networks: seq<Network>, partnerId: nat, f: Fields, input: AttestationInput, t': Tables) {
    Admit(t, networks, partnerId, f, input) == Success(Ingested(|t.attestations|, t'))
  }

  lemma AppendsWrites(t: Tables, networks: seq<Network>, partnerId: nat, f: Fields, input: AttestationInput, t': Tables,
                      a: Attestation)
    requires Appends(t, networks, partnerId, f, input, t') && t'.attestations == t.attestations + [a]
    ensures Wrote(t', a) && a == NewAttestation(partnerId, f, a.destination.slot.network, input)
  {
    hide Materialize, NewAttestation, Wrote;
    if Materialize(t, networks, partnerId, f, input).Success? {
      MaterializeWrites(t, networks, partnerId, f, input);
    }
  }

  /** The corridor of a new attestation is a network its own lookup matches. */
  lemma CorridorMatches(t: Tables, networks: seq<Network>, partnerId: nat, f: Fields, input: AttestationInput, t': Tables,
                        a: Attestation)
    requires Appends(t, networks, partnerId, f, input, t') && t'.attestations == t.attestations + [a]
    ensures a.destination.slot.network < |networks|
    ensures IsNetworkFor(networks[a.destination.slot.network], f.chain, f.assetCode, f.assetSymbol)
  {
    hide NormalizeAddress, Trim, NormalizeMemo, TrimmedName, FindCorridor, ApplyDestination, PayloadUsed;
    assert Materialize(t, networks, partnerId, f, input) == Success(t');
    assert a == t'.attestations[|t.attestations|];
    assert a.destination.slot.network == ResolveCorridor(networks, f, input.standard, input.decimals).value;
  }

  // ---- every answer of the lookup ----

  /** Whoever is found under the identifier is this recipient, and the corridor is the only network found. */
  predicate Unrivalled(db: Database, q: LookupInput, slot: Slot) {
    && (forall key :: key in db.tables.identifiers && Resolvable(db, key, q.identifier) ==>
          db.tables.identifiers[key].recipient == slot.recipient)
    && (forall i :: 0 <= i < |db.networks| && IsNetworkFor(db.networks[i], q.chain, q.assetCode, q.assetSymbol) ==>
          i == slot.network)
  }

  /** The lookup answers with the destination, whatever rows its queries find. */
  ghost predicate AlwaysFinds(db: Database, q: LookupInput, key: DestinationKey) {
    forall a :: ForwardAnswers(db, q, a) ==>
      LookupVerifiedDestination(db, q, a).outcome == RESOLVED
      && LookupVerifiedDestination(db, q, a).destination == Some(key)
  }

  /** For every identifier and network that may be found there is a complete answer. */
  lemma AnswersExist(db: Database, q: LookupInput, identifier: IdentifierKey, hint: nat) returns (a: Answers)
    requires IsServed(db) && Resolvable(db, identifier, q.identifier) && NetworkOf(db, q, hint).Some?
    ensures ForwardAnswers(db, q, a) && a.identifier == Some(identifier) && a.hint == hint
  {
    hide IsServed, NetworkOf;
    var slot := Slot(db.tables.identifiers[identifier].recipient, NetworkOf(db, q, hint).value);
    if key :| ForwardRow(db, slot, key) {
      var newest := NewestExists(db, key);
      a := Answers(Some(identifier), hint, [key], newest);
      forall other ensures other in a.rows <==> ForwardRow(db, slot, other) {
        if ForwardRow(db, slot, other) {
          RowsInForceCoincide(db, slot, key, other);
        }
      }
    } else {
      a := Answers(Some(identifier), hint, [], None);
    }
  }

  /** What the forward lookup returns is in force in the slot it looked at. */
  lemma ReturnedIsInForce(db: Database, input: LookupInput, a: Answers)
    requires ForwardAnswers(db, input, a) && a.identifier.Some? && NetworkOf(db, input, a.hint).Some?
    ensures var r := LookupVerifiedDestination(db, input, a);
      r.destination.Some? ==> ForwardRow(db, SlotOf(db, input, a), r.destination.value)
  {
    hide NetworkOf;
    if a.rows != [] {
      assert a.rows[0] in a.rows;
    }
  }

  lemma ReturnedIsOfItsSlot(db: Database, q: LookupInput, a: Answers, key: DestinationKey)
    requires ForwardAnswers(db, q, a) && LookupVerifiedDestination(db, q, a).destination == Some(key)
    ensures a.identifier.Some? && Resolvable(db, a.identifier.value, q.identifier)
    ensures NetworkOf(db, q, a.hint) == Some(key.slot.network)
    ensures db.tables.identifiers[a.identifier.value].recipient == key.slot.recipient
    ensures ForwardRow(db, key.slot, key)
  {
    hide NetworkOf;
    ReturnedIsInForce(db, q, a);
  }

  /** A rival recipient or network is one the lookup may find instead. */
  lemma RivalIsFound(db: Database, q: LookupInput, key: DestinationKey, mine: IdentifierKey) returns (a: Answers)
    requires IsServed(db) && Resolvable(db, mine, q.identifier) && !Unrivalled(db, q, key.slot)
    requires key.slot.network < |db.networks|
    requires IsNetworkFor(db.networks[key.slot.network], q.chain, q.assetCode, q.assetSymbol)
    ensures ForwardAnswers(db, q, a) && LookupVerifiedDestination(db, q, a).destination != Some(key)
  {
    hide IsServed, Resolvable, ForwardAnswers, LookupVerifiedDestination;
    if other :| other in db.tables.identifiers && Resolvable(db, other, q.identifier)
                && db.tables.identifiers[other].recipient != key.slot.recipient {
      a := AnswersExist(db, q, other, key.slot.network);
    } else {
      var i :| 0 <= i < |db.networks| && IsNetworkFor(db.networks[i], q.chain, q.assetCode, q.assetSymbol)
               && i != key.slot.network;
      a := AnswersExist(db, q, mine, i);
    }
    hide IsNetworkFor, FirstNetwork;
    if LookupVerifiedDestination(db, q, a).destination == Some(key) {
      ReturnedIsOfItsSlot(db, q, a, key);
    }
  }

  /** An unrivalled destination in force is what every answer gives. */
  lemma UnrivalledIsFound(db: Database, q: LookupInput, key: DestinationKey, mine: IdentifierKey, a: Answers)
    requires IsServed(db) && Resolvable(db, mine, q.identifier) && Unrivalled(db, q, key.slot)
    requires key.slot.network < |db.networks|
    requires IsNetworkFor(db.networks[key.slot.network], q.chain, q.assetCode, q.assetSymbol)
    requires ForwardRow(db, key.slot, key) && ForwardAnswers(db, q, a)
    ensures LookupVerifiedDestination(db, q, a).outcome == RESOLVED
    ensures LookupVerifiedDestination(db, q, a).destination == Some(key)
  {
    hide IsServed, IsNetworkFor, InForceAt, LookupVerifiedDestination, FirstNetwork;
    assert a.identifier.Some?;
    assert NetworkOf(db, q, a.hint) == Some(key.slot.network);
    assert SlotOf(db, q, a) == key.slot;
    hide ForwardAnswers, NetworkOf, Resolvable, Unrivalled;
    ForwardIsExact(db, q, a);
  }

  /**
   A destination in force is what the lookup of its identifier on its network answers, whatever its queries find,
   exactly when no other recipient can be found under the identifier and no other network under chain and asset.
   */
  lemma FoundIffUnrivalled(db: Database, q: LookupInput, key: DestinationKey, mine: IdentifierKey)
    requires IsServed(db) && Resolvable(db, mine, q.identifier)
    requires key.slot.network < |db.networks|
    requires IsNetworkFor(db.networks[key.slot.network], q.chain, q.assetCode, q.assetSymbol)
    requires ForwardRow(db, key.slot, key)
    ensures AlwaysFinds(db, q, key) <==> Unrivalled(db, q, key.slot)
  {
    hide IsServed, Resolvable, IsNetworkFor, ForwardRow, ForwardAnswers, LookupVerifiedDestination, Unrivalled;
    if Unrivalled(db, q, key.slot) {
      forall a | ForwardAnswers(db, q, a)
        ensures LookupVerifiedDestination(db, q, a).outcome == RESOLVED
        ensures LookupVerifiedDestination(db, q, a).destination == Some(key)
      {
        UnrivalledIsFound(db, q, key, mine, a);
      }
    } else {
      var a := RivalIsFound(db, q, key, mine);
      assert !AlwaysFinds(db, q, key);
    }
  }

  /** The query has an answer, whoever is known by the identifier. */
  lemma SomeAnswer(db: Database, q: LookupInput, network: nat) returns (a: Answers)
    requires IsServed(db) && network < |db.networks|
    requires IsNetworkFor(db.networks[network], q.chain, q.assetCode, q.assetSymbol)
    ensures ForwardAnswers(db, q, a)
  {
    hide IsServed, Resolvable, IsNetworkFor, FirstNetwork;
    if id :| Resolvable(db, id, q.identifier) {
      assert id in db.tables.identifiers by {
        IdentifierMeans(db, id, q.identifier);
      }
      a := AnswersExist(db, q, id, network);
    } else {
      a := Answers(None, network, [], None);
    }
  }

  /** A destination that is not in force, or whose partner is not active, is not what every answer gives. */
  lemma NotAlwaysFound(db: Database, q: LookupInput, key: DestinationKey)
    requires IsServed(db) && key.slot.network < |db.networks|
    requires IsNetworkFor(db.networks[key.slot.network], q.chain, q.assetCode, q.assetSymbol)
    requires key in db.tables.destinations
    requires var row := db.tables.destinations[key];
      || key.slot.recipient.partnerId >= |db.partners| || !db.partners[key.slot.recipient.partnerId].active
      || row.effectiveFrom > db.now || (row.expiresAt.Some? && row.expiresAt.value <= db.now)
    ensures !AlwaysFinds(db, q, key)
  {
    var a := SomeAnswer(db, q, key.slot.network);
    hide IsServed, IsNetworkFor, ForwardAnswers, LookupVerifiedDestination;
    if LookupVerifiedDestination(db, q, a).outcome == RESOLVED {
      ResolvedMeans(db, q, a);
    }
  }

  /**
   Right after an attestation that is no revocation has been ingested, every lookup of its identifier on its corridor
   resolves to the destination it attests exactly when its window is open, its partner is active and nobody rivals it;
   right after a revocation, none resolves to that destination.
   */
  lemma IngestThenResolve(t: Tables, db: Database, partnerId: nat, f: Fields, input: AttestationInput, a: Attestation)
    requires IsServed(db)
    requires Appends(t, db.networks, partnerId, f, input, db.tables) && db.tables.attestations == t.attestations + [a]
    ensures a.destination.slot.recipient == RecipientKey(partnerId, Trim(input.externalId))
    ensures a.destination.address == f.address && a.destination.memo == f.memo
    ensures a.destination in db.tables.destinations
    ensures var q := LookupInput(f.identifier, f.chain, f.assetCode, f.assetSymbol);
      if input.kind == DESTINATION_REVOCATION then
        forall answers :: ForwardAnswers(db, q, answers) ==>
          LookupVerifiedDestination(db, q, answers).destination != Some(a.destination)
      else
        && db.tables.destinations[a.destination].addressRaw == Trim(input.address)
        && (AlwaysFinds(db, q, a.destination) <==>
              && input.effectiveFrom <= db.now && (input.expiresAt == None || db.now < input.expiresAt.value)
              && partnerId < |db.partners| && db.partners[partnerId].active
              && Unrivalled(db, q, a.destination.slot))
  {
    hide IsServed, Trim, Appends, FindNetwork, IsNetworkFor;
    AppendsWrites(t, db.networks, partnerId, f, input, db.tables, a);
    CorridorMatches(t, db.networks, partnerId, f, input, db.tables, a);
    var q := LookupInput(f.identifier, f.chain, f.assetCode, f.assetSymbol);
    if input.kind == DESTINATION_REVOCATION {
      forall answers | ForwardAnswers(db, q, answers)
        ensures LookupVerifiedDestination(db, q, answers).destination != Some(a.destination)
      {
        if LookupVerifiedDestination(db, q, answers).destination == Some(a.destination) {
          ReturnedIsOfItsSlot(db, q, answers, a.destination);
        }
      }
    } else if input.effectiveFrom <= db.now && (input.expiresAt.None? || input.expiresAt.value > db.now)
              && PartnerActive(db, partnerId) {
      assert ForwardRow(db, a.destination.slot, a.destination);
      assert Resolvable(db, a.identifier, q.identifier);
      hide AlwaysFinds, Unrivalled, ForwardRow, Resolvable;
      FoundIffUnrivalled(db, q, a.destination, a.identifier);
    } else {
      hide AlwaysFinds, Unrivalled;
      NotAlwaysFound(db, q, a.destination);
    }
  }

  // ---- one identifier, two partners ----

  function Shared(): Tables {
    AfterSample(AfterSample(EMPTY, 1, "y", DESTINATION_ASSIGNMENT, 0, 10), 0, "x", DESTINATION_ASSIGNMENT, 1, 10)
  }

  lemma SharedIsReachable()
    ensures Reachable([CORRIDOR], Shared())
  {
    var t1 := AfterSample(EMPTY, 1, "y", DESTINATION_ASSIGNMENT, 0, 10);
    assert t1.attestations == [SampleRow(1, "y", DESTINATION_ASSIGNMENT, 0, 10)];
    hide Reachable, AfterSample;
    EmptyIsReachable([CORRIDOR]);
    ReachableSample(EMPTY, 1, "q", "y", DESTINATION_ASSIGNMENT, 0, 10);
    ReachableSample(t1, 0, "p", "x", DESTINATION_ASSIGNMENT, 1, 10);
  }

  /** The rows of the two partners. */
  lemma SharedRows(partnerId: nat, address: string)
    requires (partnerId == 0 && address == "x") || (partnerId == 1 && address == "y")
    ensures var t := Shared();
      && RecipientKey(partnerId, "r") in t.recipients && t.recipients[RecipientKey(partnerId, "r")].status == RECIPIENT_ACTIVE
      && IdentifierKey(partnerId, 0, "i") in t.identifiers
      && t.identifiers[IdentifierKey(partnerId, 0, "i")]
         == Identifier(RecipientKey(partnerId, "r"), "i", IDENTIFIER_ACTIVE, RESOLVABLE)
      && SampleKey(partnerId, address) in t.destinations
      && t.destinations[SampleKey(partnerId, address)].status == ACTIVE
      && t.destinations[SampleKey(partnerId, address)].effectiveFrom == 10
      && t.destinations[SampleKey(partnerId, address)].expiresAt == None
  {
  }

  /** Two partners bind one identifier; the second's attestation has just been ingested, and a lookup resolves to the
      first's address. */
  lemma ResolvesElsewhere(partners: seq<PartnerRow>, now: int) returns (db: Database, a: Answers)
    requires |partners| == 2 && partners[0].active && partners[1].active && now >= 10
    ensures IsServed(db) && db.partners == partners && db.now == now
    ensures ForwardRow(db, Slot(RecipientKey(0, "r"), 0), SampleKey(0, "x"))
    ensures Resolvable(db, IdentifierKey(0, 0, "i"), "i")
    ensures ForwardAnswers(db, LookupInput("i", "c", "a", "A"), a)
    ensures LookupVerifiedDestination(db, LookupInput("i", "c", "a", "A"), a).destination == Some(SampleKey(1, "y"))
  {
    SharedIsReachable();
    SharedRows(0, "x");
    SharedRows(1, "y");
    hide Reachable, Shared;
    db := Database(Shared(), [CORRIDOR], partners, now);
    var q := LookupInput("i", "c", "a", "A");
    assert IsNetworkFor(CORRIDOR, "c", "a", "A");
    assert NetworkOf(db, q, 0) == Some(0);
    assert Resolvable(db, IdentifierKey(1, 0, "i"), "i");
    assert Resolvable(db, IdentifierKey(0, 0, "i"), "i");
    assert ForwardRow(db, Slot(RecipientKey(1, "r"), 0), SampleKey(1, "y"));
    assert ForwardRow(db, Slot(RecipientKey(0, "r"), 0), SampleKey(0, "x"));
    hide Resolvable, ForwardRow, IsServed, FindNetwork;
    a := AnswersExist(db, q, IdentifierKey(1, 0, "i"), 0);
    hide ForwardAnswers, LookupVerifiedDestination;
    ForwardIsExact(db, q, a);
  }
}
