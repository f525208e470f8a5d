/** Small concrete runs of the registry: two partners, one corridor, one identifier, two addresses. */
module RegistryRuns {
  import opened Wrappers
  import opened Text
  import opened Normalization
  import opened Registry
  import opened RegistryTheorems

  const CORRIDOR := Network("c", true, "a", "A", true, "", 0, 0, true)

  /** Attestation number `n` of the partner, issued and effective at `issuedAt`. */
  function Sample(slug: string, address: string, kind: AttestationType, n: nat, issuedAt: int): AttestationInput {
    AttestationInput(slug, kind, "r", None, 0, "i", "c", "a", "A", 0, None, None, address, None, n, n, issuedAt,
                     issuedAt, None)
  }

  lemma SymbolIsNormal()
    ensures NormalizeAssetSymbol("A") == Some("A")
  {
    TrimOfTrimmed("A");
    assert Upper("A") == "A";
  }

  lemma AddressOnOtherChain(address: string)
    requires |address| == 1 && 'a' <= address[0] <= 'z'
    ensures NormalizeAddress("c", address) == Some(address)
  {
    LetterIsNormal(address);
    LetterIsNormal("c");
    hide Trim, FamilyOfSlug, NormalizeChain, RequireTrimmed;
  }

  /** The fields of an input without contract and memo, from the normal forms of its parts. */
  lemma FieldsOfParts(input: AttestationInput, f: Fields)
    requires NormalizeChain(input.chain) == Some(f.chain) && |Trim(input.identifier)| <= 128
    requires NormalizePartnerSlug(input.partnerSlug) == Some(f.partnerSlug)
    requires NormalizeIdentifier(input.identifier) == Some(f.identifier)
    requires NormalizeAssetCode(input.assetCode) == Some(f.assetCode)
    requires NormalizeAssetSymbol(input.assetSymbol) == Some(f.assetSymbol)
    requires NormalizeAddress(f.chain, input.address) == Some(f.address)
    requires input.contract == None && f.contract == "" && input.memo == None && f.memo == ""
    ensures NormalizeFields(input) == Success(f)
  {
    hide Trim, NormalizeChain, NormalizePartnerSlug, NormalizeIdentifier, NormalizeAssetCode, NormalizeAssetSymbol,
         NormalizeAddress;
  }

  lemma SampleIsNormal(slug: string, address: string, kind: AttestationType, n: nat, issuedAt: int)
    requires slug in {"p", "q"} && address in {"x", "y"}
    ensures NormalizeFields(Sample(slug, address, kind, n, issuedAt))
            == Success(Fields(slug, "i", "c", "a", "A", "", address, ""))
    ensures Trim(address) == address && Trim("r") == "r" && Trim("i") == "i"
  {
    hide Trim, FamilyOfSlug, NormalizeChain, NormalizeIdentifier, NormalizePartnerSlug, NormalizeAssetCode,
         NormalizeAssetSymbol, RequireTrimmed, NormalizeAddress, NormalizeFields, Lower;
    LetterIsNormal(slug);
    LetterIsNormal(address);
    LetterIsNormal("r");
    LetterIsNormal("i");
    LetterIsNormal("c");
    LetterIsNormal("a");
    SymbolIsNormal();
    AddressOnOtherChain(address);
    FieldsOfParts(Sample(slug, address, kind, n, issuedAt), Fields(slug, "i", "c", "a", "A", "", address, ""));
  }

  function SampleKey(partnerId: nat, address: string): DestinationKey {
    DestinationKey(Slot(RecipientKey(partnerId, "r"), 0), address, "")
  }

  function SampleRow(partnerId: nat, address: string, kind: AttestationType, n: nat, issuedAt: int): Attestation {
    Attestation(partnerId, kind, IdentifierKey(partnerId, 0, "i"), SampleKey(partnerId, address), address, n, n,
                issuedAt, issuedAt, None, VERIFIED)
  }

  /** The tables after a sample has been ingested. */
  function AfterSample(t: Tables, partnerId: nat, address: string, kind: AttestationType, n: nat, issuedAt: int): Tables
    requires kind == DESTINATION_REVOCATION ==> SampleKey(partnerId, address) in t.destinations
  {
    var key := SampleKey(partnerId, address);
    Tables(
      t.recipients[RecipientKey(partnerId, "r") := Recipient(None, RECIPIENT_ACTIVE)],
      t.identifiers[IdentifierKey(partnerId, 0, "i") :=
        Identifier(RecipientKey(partnerId, "r"), "i", IDENTIFIER_ACTIVE, RESOLVABLE)],
      if kind == DESTINATION_REVOCATION then
        t.destinations[key := t.destinations[key].(
          status := REVOKED, isDefault := false, revokedAt := Some(issuedAt), expiresAt := None,
          lastAttestedAt := Some(issuedAt))]
      else
        RevokeOthers(t.destinations, key, issuedAt)[key :=
          Destination(address, ACTIVE, true, issuedAt, Some(issuedAt), None, None)],
      t.attestations + [SampleRow(partnerId, address, kind, n, issuedAt)])
  }

  lemma CorridorIsFound(f: Fields)
    requires f.chain == "c" && f.assetCode == "a" && f.assetSymbol == "A" && f.contract == ""
    ensures ResolveCorridor([CORRIDOR], f, 0, None) == Success(0)
  {
    assert IsCorridor(CORRIDOR, f, 0);
    assert FindCorridor([CORRIDOR], f, 0, 0) == None;
  }

  lemma SampleMaterializes(t: Tables, partnerId: nat, slug: string, address: string, kind: AttestationType, n: nat,
                           issuedAt: int)
    requires slug in {"p", "q"} && address in {"x", "y"}
    requires forall i :: 0 <= i < |t.attestations| ==> t.attestations[i].payloadHash != n
    requires kind == DESTINATION_REVOCATION ==> SampleKey(partnerId, address) in t.destinations
    ensures Materialize(t, [CORRIDOR], partnerId, Fields(slug, "i", "c", "a", "A", "", address, ""),
                        Sample(slug, address, kind, n, issuedAt))
            == Success(AfterSample(t, partnerId, address, kind, n, issuedAt))
  {
    var f := Fields(slug, "i", "c", "a", "A", "", address, "");
    SampleIsNormal(slug, address, kind, n, issuedAt);
    CorridorIsFound(f);
    hide NormalizeFields, NormalizeAddress, Trim, ResolveCorridor, RevokeOthers;
    assert NewAttestation(partnerId, f, 0, Sample(slug, address, kind, n, issuedAt))
        == SampleRow(partnerId, address, kind, n, issuedAt);
  }

  lemma SampleStep(t: Tables, partnerId: nat, slug: string, address: string, kind: AttestationType, n: nat,
                   issuedAt: int)
    requires slug in {"p", "q"} && address in {"x", "y"}
    requires forall i :: 0 <= i < |t.attestations| ==>
      t.attestations[i].sequenceNumber != n && t.attestations[i].payloadHash != n
    requires kind == DESTINATION_REVOCATION ==> SampleKey(partnerId, address) in t.destinations
    ensures Step(t, [CORRIDOR], Attest(Actor(partnerId, slug), None, Sample(slug, address, kind, n, issuedAt)))
            == AfterSample(t, partnerId, address, kind, n, issuedAt)
  {
    SampleIsNormal(slug, address, kind, n, issuedAt);
    SampleMaterializes(t, partnerId, slug, address, kind, n, issuedAt);
    assert FindSequence(t.attestations, partnerId, n, |t.attestations|) == None;
    hide NormalizeFields, NormalizeAddress, Trim, Materialize, FindSequence, AfterSample;
  }

  /** Appending a call to a run. */
  lemma RunExtends(networks: seq<Network>, events: seq<Event>, states: seq<Tables>, e: Event)
    requires IsRun(networks, events, states)
    ensures IsRun(networks, events + [e], states + [Step(states[|events|], networks, e)])
  {
    var events', states' := events + [e], states + [Step(states[|events|], networks, e)];
    forall i | 0 <= i < |events'| ensures Follows(networks, events', states', i) {
      if i < |events| {
        assert Follows(networks, events, states, i);
      }
    }
  }

  lemma PrefixIsRun(networks: seq<Network>, events: seq<Event>, states: seq<Tables>, n: nat)
    requires IsRun(networks, events, states) && n <= |events|
    ensures IsRun(networks, events[..n], states[..n + 1])
  {
    var events', states' := events[..n], states[..n + 1];
    forall i | 0 <= i < |events'| ensures Follows(networks, events', states', i) {
      assert Follows(networks, events, states, i);
    }
  }

  lemma EndIsReachable(networks: seq<Network>, events: seq<Event>, states: seq<Tables>)
    requires IsRun(networks, events, states)
    ensures Reachable(networks, states[|events|])
  {
  }

  lemma ReachableStep(networks: seq<Network>, t: Tables, e: Event)
    requires Reachable(networks, t)
    ensures Reachable(networks, Step(t, networks, e))
  {
    var events, states, n: nat :| IsRun(networks, events, states) && n <= |events| && states[n] == t;
    hide Reachable, Step;
    PrefixIsRun(networks, events, states, n);
    RunExtends(networks, events[..n], states[..n + 1], e);
    EndIsReachable(networks, events[..n] + [e], states[..n + 1] + [Step(states[..n + 1][n], networks, e)]);
  }

  lemma EmptyIsReachable(networks: seq<Network>)
    ensures Reachable(networks, EMPTY)
  {
    assert IsRun(networks, [], [EMPTY]);
    assert [EMPTY][0] == EMPTY;
  }

  /** One more sample ingested. */
  lemma ReachableSample(t: Tables, partnerId: nat, slug: string, address: string, kind: AttestationType, n: nat,
                        issuedAt: int)
    requires Reachable([CORRIDOR], t) && slug in {"p", "q"} && address in {"x", "y"}
    requires forall i :: 0 <= i < |t.attestations| ==>
      t.attestations[i].sequenceNumber != n && t.attestations[i].payloadHash != n
    requires kind == DESTINATION_REVOCATION ==> SampleKey(partnerId, address) in t.destinations
    ensures Reachable([CORRIDOR], AfterSample(t, partnerId, address, kind, n, issuedAt))
  {
    hide Reachable, Step, AfterSample;
    SampleStep(t, partnerId, slug, address, kind, n, issuedAt);
    ReachableStep([CORRIDOR], t, Attest(Actor(partnerId, slug), None, Sample(slug, address, kind, n, issuedAt)));
  }
}
