/**
 How identifiers, slugs, chains and addresses are brought to the form they are stored and compared in
 (backend/src/common/normalization/normalization.service.ts). `None` is the service's BadRequest; case mapping is
 modelled on ASCII.
 */
module Normalization {
  import opened Wrappers
  import opened Text

  datatype ChainFamily = EVM | TRON | SOLANA | OTHER

  function LowerChar(ch: char): char {
    if 'A' <= ch <= 'Z' then ((ch as int) + 32) as char else ch
  }

  function UpperChar(ch: char): char {
    if 'a' <= ch <= 'z' then ((ch as int) - 32) as char else ch
  }

  function Lower(s: string): (t: string)
    ensures |t| == |s|
  {
    seq(|s|, i requires 0 <= i < |s| => LowerChar(s[i]))
  }

  function Upper(s: string): (t: string)
    ensures |t| == |s|
  {
    seq(|s|, i requires 0 <= i < |s| => UpperChar(s[i]))
  }

  function RequireTrimmed(value: string): (r: Option<string>)
    ensures r.Some? ==> r.value != ""
  {
    if Trim(value) == "" then None else Some(Trim(value))
  }

  function MapLower(r: Option<string>): Option<string> {
    match r case Some(s) => Some(Lower(s)) case None => None
  }

  function NormalizePartnerSlug(value: string): Option<string> {
    MapLower(RequireTrimmed(value))
  }

  function NormalizeIdentifier(value: string): Option<string> {
    MapLower(RequireTrimmed(value))
  }

  function NormalizeAssetCode(value: string): Option<string> {
    MapLower(RequireTrimmed(value))
  }

  function NormalizeAssetSymbol(value: string): Option<string> {
    match RequireTrimmed(value) case Some(s) => Some(Upper(s)) case None => None
  }

  function NormalizeMemo(value: Option<string>): string {
    match value case Some(s) => Trim(s) case None => ""
  }

  function ResolveAlias(chain: string): string {
    if chain == "base mainnet" || chain == "base-mainnet" then "base"
    else if chain == "bnb smart chain" || chain == "binance smart chain" || chain == "binance-smart-chain"
            || chain == "bsc" || chain == "bep20" then "bnb-smart-chain"
    else chain
  }

  function NormalizeChain(value: string): Option<string> {
    match MapLower(RequireTrimmed(value)) case Some(s) => Some(ResolveAlias(s)) case None => None
  }

  function FamilyOfSlug(slug: string): ChainFamily {
    if slug in ["ethereum", "base", "arbitrum", "optimism", "polygon", "bnb-smart-chain"] then EVM
    else if slug == "tron" then TRON
    else if slug == "solana" then SOLANA
    else OTHER
  }

  function DetectChainFamily(chain: string): Option<ChainFamily> {
    match NormalizeChain(chain) case Some(slug) => Some(FamilyOfSlug(slug)) case None => None
  }

  predicate IsHex(ch: char) {
    '0' <= ch <= '9' || 'a' <= ch <= 'f' || 'A' <= ch <= 'F'
  }

  predicate IsBase58(ch: char) {
    '1' <= ch <= '9' || 'A' <= ch <= 'H' || 'J' <= ch <= 'N' || 'P' <= ch <= 'Z' || 'a' <= ch <= 'k' || 'm' <= ch <= 'z'
  }

  predicate IsEvmAddress(s: string) {
    |s| == 42 && s[0] == '0' && s[1] == 'x' && forall i :: 2 <= i < 42 ==> IsHex(s[i])
  }

  predicate IsTronAddress(s: string) {
    |s| == 34 && s[0] == 'T' && forall i :: 1 <= i < 34 ==> IsBase58(s[i])
  }

  predicate IsSolanaAddress(s: string) {
    32 <= |s| <= 44 && forall i :: 0 <= i < |s| ==> IsBase58(s[i])
  }

  function NormalizeAddress(chain: string, address: string): Option<string> {
    if RequireTrimmed(address) == None || DetectChainFamily(chain) == None then None
    else
      var trimmed := Trim(address);
      match DetectChainFamily(chain).value
      case EVM => if IsEvmAddress(trimmed) then Some(Lower(trimmed)) else None
      case TRON => if IsTronAddress(trimmed) then Some(trimmed) else None
      case SOLANA => if IsSolanaAddress(trimmed) then Some(trimmed) else None
      case OTHER => Some(trimmed)
  }

  function NormalizeContractAddress(chain: string, contract: Option<string>): Option<string> {
    if contract == None || contract == Some("") then Some("") else NormalizeAddress(chain, contract.value)
  }

  // ---- normal forms are normal ----

  predicate IsTrimmed(s: string) {
    s == "" || (!IsSpace(s[0]) && !IsSpace(s[|s| - 1]))
  }

  lemma TrimmedLower(value: string)
    ensures IsTrimmed(Trim(value)) && IsTrimmed(Lower(Trim(value)))
    ensures Trim(Trim(value)) == Trim(value) && Trim(Lower(Trim(value))) == Lower(Trim(value))
    ensures Lower(Lower(Trim(value))) == Lower(Trim(value))
  {
    TrimIsTrimmed(value);
  }

  /** Normalizing a slug, an identifier or an asset code a second time changes nothing. */
  lemma SlugIsNormal(value: string)
    requires NormalizePartnerSlug(value).Some?
    ensures NormalizePartnerSlug(NormalizePartnerSlug(value).value) == NormalizePartnerSlug(value)
  {
    TrimmedLower(value);
  }

  /** A chain slug is its own normal form, whichever alias it came from. */
  lemma ChainIsNormal(value: string)
    requires NormalizeChain(value).Some?
    ensures NormalizeChain(NormalizeChain(value).value) == NormalizeChain(value)
  {
    TrimmedLower(value);
    var lowered := Lower(Trim(value));
    var slug := ResolveAlias(lowered);
    if slug != lowered {
      ConstantsAreNormal();
    }
  }

  lemma TrimOfTrimmed(s: string)
    requires IsTrimmed(s)
    ensures Trim(s) == s
  {
    assert TrimStart(s) == s;
  }

  lemma ConstantsAreNormal()
    ensures NormalizeChain("base") == Some("base") && NormalizeChain("bnb-smart-chain") == Some("bnb-smart-chain")
  {
    TrimOfTrimmed("base");
    TrimOfTrimmed("bnb-smart-chain");
    hide Trim, TrimStart, TrimEnd;
    assert Lower("base") == "base";
    assert Lower("bnb-smart-chain") == "bnb-smart-chain";
  }

  /** A single lower-case letter is its own normal form everywhere. */
  lemma LetterIsNormal(s: string)
    requires |s| == 1 && 'a' <= s[0] <= 'z'
    ensures Trim(s) == s && Lower(s) == s && RequireTrimmed(s) == Some(s)
    ensures NormalizeIdentifier(s) == Some(s) && NormalizePartnerSlug(s) == Some(s) && NormalizeAssetCode(s) == Some(s)
    ensures NormalizeChain(s) == Some(s) && FamilyOfSlug(s) == OTHER
  {
    TrimOfTrimmed(s);
    hide Trim;
    assert Lower(s) == s;
    LetterIsNoAlias(s);
    hide ResolveAlias, FamilyOfSlug;
  }

  lemma LetterIsNoAlias(s: string)
    requires |s| == 1
    ensures ResolveAlias(s) == s && FamilyOfSlug(s) == OTHER
  {
    var families := ["ethereum", "base", "arbitrum", "optimism", "polygon", "bnb-smart-chain"];
    assert forall i :: 0 <= i < |families| ==> |families[i]| > 1;
  }

  /** A normalized address is accepted again, on any alias of its chain, and is its own normal form. */
  lemma AddressIsNormal(chain: string, address: string)
    requires NormalizeAddress(chain, address).Some?
    ensures NormalizeAddress(chain, address).value != ""
    ensures NormalizeAddress(chain, NormalizeAddress(chain, address).value) == NormalizeAddress(chain, address)
    ensures NormalizeAddress(NormalizeChain(chain).value, address) == NormalizeAddress(chain, address)
    ensures NormalizeAddress(chain, Trim(address)) == NormalizeAddress(chain, address)
  {
    TrimmedLower(address);
    ChainIsNormal(chain);
  }

  // ---- look-alike addresses ----

  /** Long, different, but equal in the four characters at either end. */
  predicate LooksLike(candidate: string, reference: string) {
    && |candidate| >= 10 && |reference| >= 10 && candidate != reference
    && candidate[..4] == reference[..4]
    && candidate[|candidate| - 4..] == reference[|reference| - 4..]
  }

  method CountSharedPrefixLength(left: string, right: string) returns (count: nat)
    ensures count <= |left| && count <= |right| && left[..count] == right[..count]
    ensures count < |left| && count < |right| ==> left[count] != right[count]
  {
    count := 0;
    while count < |left| && count < |right| && left[count] == right[count]
      invariant count <= |left| && count <= |right| && left[..count] == right[..count]
    {
      count := count + 1;
    }
  }

  method CountSharedSuffixLength(left: string, right: string) returns (count: nat)
    ensures count <= |left| && count <= |right| && left[|left| - count..] == right[|right| - count..]
    ensures count < |left| && count < |right| ==> left[|left| - 1 - count] != right[|right| - 1 - count]
  {
    count := 0;
    while count < |left| && count < |right| && left[|left| - 1 - count] == right[|right| - 1 - count]
      invariant count <= |left| && count <= |right| && left[|left| - count..] == right[|right| - count..]
    {
      count := count + 1;
    }
  }

  lemma PrefixDecides(left: string, right: string, count: nat, k: nat)
    requires count <= |left| && count <= |right| && left[..count] == right[..count]
    requires count < |left| && count < |right| ==> left[count] != right[count]
    requires k <= |left| && k <= |right|
    ensures count >= k <==> left[..k] == right[..k]
  {
    if count >= k {
      assert left[..k] == left[..count][..k];
      assert right[..k] == right[..count][..k];
    } else {
      assert left[..k][count] != right[..k][count];
    }
  }

  lemma SuffixDecides(left: string, right: string, count: nat, k: nat)
    requires count <= |left| && count <= |right| && left[|left| - count..] == right[|right| - count..]
    requires count < |left| && count < |right| ==> left[|left| - 1 - count] != right[|right| - 1 - count]
    requires k <= |left| && k <= |right|
    ensures count >= k <==> left[|left| - k..] == right[|right| - k..]
  {
    if count >= k {
      assert left[|left| - k..] == left[|left| - count..][count - k..];
      assert right[|right| - k..] == right[|right| - count..][count - k..];
    } else {
      assert left[|left| - k..][k - 1 - count] != right[|right| - k..][k - 1 - count];
    }
  }

  /** The two counting loops decide exactly whether both ends agree. */
  method AddressLooksLikeReference(candidateAddress: string, referenceAddress: string) returns (r: bool)
    ensures r <==> LooksLike(Trim(candidateAddress), Trim(referenceAddress))
  {
    hide Trim, TrimStart, TrimEnd;
    var candidate, reference := Trim(candidateAddress), Trim(referenceAddress);
    if |candidate| < 10 || |reference| < 10 || candidate == reference {
      return false;
    }
    var prefix := CountSharedPrefixLength(candidate, reference);
    var suffix := CountSharedSuffixLength(candidate, reference);
    PrefixDecides(candidate, reference, prefix, 4);
    SuffixDecides(candidate, reference, suffix, 4);
    r := prefix >= 4 && suffix >= 4;
  }
}
