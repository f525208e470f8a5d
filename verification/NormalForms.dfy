/** What a normal form is, in the characters of its input. */
module NormalForms {
  import opened Wrappers
  import opened Text
  import opened Normalization

  // ---- trimming ----

  predicate AllSpace(s: string) {
    forall i :: 0 <= i < |s| ==> IsSpace(s[i])
  }

  lemma {:induction false} TrimStartMeans(s: string) returns (before: string)
    ensures s == before + TrimStart(s) && AllSpace(before)
  {
    if s != [] && IsSpace(s[0]) {
      var rest := TrimStartMeans(s[1..]);
      before := [s[0]] + rest;
    } else {
      before := [];
    }
  }

  lemma {:induction false} TrimEndMeans(s: string) returns (after: string)
    ensures s == TrimEnd(s) + after && AllSpace(after)
  {
    if s != [] && IsSpace(s[|s| - 1]) {
      var rest := TrimEndMeans(s[..|s| - 1]);
      after := rest + [s[|s| - 1]];
      assert s == s[..|s| - 1] + [s[|s| - 1]];
    } else {
      after := [];
    }
  }

  /** Trimming cuts off space at either end, all of it and nothing else. */
  lemma TrimMeans(s: string) returns (before: string, after: string)
    ensures s == before + Trim(s) + after && AllSpace(before) && AllSpace(after)
    ensures Trim(s) != "" ==> !IsSpace(Trim(s)[0]) && !IsSpace(Trim(s)[|Trim(s)| - 1])
  {
    before := TrimStartMeans(s);
    after := TrimEndMeans(TrimStart(s));
    TrimIsTrimmed(s);
  }

  /** Blanks and line breaks are space; what identifiers and addresses are made of is not. */
  lemma SpaceMeans(ch: char)
    ensures ch in " \t\n\r" ==> IsSpace(ch)
    ensures '!' <= ch <= '~' ==> !IsSpace(ch)
  {
  }

  // ---- letters ----

  predicate SameLetter(c: char, d: char) {
    || c == d
    || ('A' <= c <= 'Z' && d as int == c as int + 32)
    || ('A' <= d <= 'Z' && c as int == d as int + 32)
  }

  /** The two are the same word, whatever the case of its letters and the space around it. */
  predicate SameWord(v: string, w: string) {
    && |Trim(v)| == |Trim(w)|
    && forall i :: 0 <= i < |Trim(v)| ==> SameLetter(Trim(v)[i], Trim(w)[i])
  }

  lemma LowerMeans(s: string, t: string)
    ensures Lower(s) == Lower(t) <==> |s| == |t| && forall i :: 0 <= i < |s| ==> SameLetter(s[i], t[i])
  {
    if Lower(s) == Lower(t) {
      forall i | 0 <= i < |s| ensures SameLetter(s[i], t[i]) {
        assert Lower(s)[i] == Lower(t)[i];
      }
    }
  }

  lemma UpperMeans(s: string, t: string)
    ensures Upper(s) == Upper(t) <==> |s| == |t| && forall i :: 0 <= i < |s| ==> SameLetter(s[i], t[i])
  {
    if Upper(s) == Upper(t) {
      forall i | 0 <= i < |s| ensures SameLetter(s[i], t[i]) {
        assert Upper(s)[i] == Upper(t)[i];
      }
    }
  }

  predicate NoCapital(s: string) {
    forall i :: 0 <= i < |s| ==> !('A' <= s[i] <= 'Z')
  }

  predicate NoSmall(s: string) {
    forall i :: 0 <= i < |s| ==> !('a' <= s[i] <= 'z')
  }

  /** Identifiers, slugs, asset codes and symbols are refused exactly if they are blank, and have one normal form exactly if
      they are the same word; it is that word without capitals, or for a symbol in capitals. */
  lemma WordsMean(v: string, w: string)
    ensures NormalizeIdentifier(v).Some? <==> Trim(v) != ""
    ensures NormalizeIdentifier(v).Some? ==>
      (NormalizeIdentifier(v) == NormalizeIdentifier(w) <==> SameWord(v, w))
      && NoCapital(NormalizeIdentifier(v).value) && SameWord(NormalizeIdentifier(v).value, v)
    ensures NormalizePartnerSlug(v) == NormalizeIdentifier(v) && NormalizeAssetCode(v) == NormalizeIdentifier(v)
    ensures NormalizeAssetSymbol(v).Some? <==> Trim(v) != ""
    ensures NormalizeAssetSymbol(v).Some? ==>
      (NormalizeAssetSymbol(v) == NormalizeAssetSymbol(w) <==> SameWord(v, w))
      && NoSmall(NormalizeAssetSymbol(v).value) && SameWord(NormalizeAssetSymbol(v).value, v)
  {
    LowerMeans(Trim(v), Trim(w));
    UpperMeans(Trim(v), Trim(w));
    TrimmedLower(v);
    UpperIsTrimmed(v);
    hide Trim, Lower, Upper;
    assert NoCapital(Lower(Trim(v))) && NoSmall(Upper(Trim(v))) by {
      CaseOf(Trim(v));
    }
    LowerMeans(Trim(v), Lower(Trim(v)));
    LetterKept(Trim(v));
  }

  lemma CaseOf(s: string)
    ensures NoCapital(Lower(s)) && NoSmall(Upper(s))
  {
  }

  lemma LetterKept(s: string)
    ensures forall i :: 0 <= i < |s| ==> SameLetter(Lower(s)[i], s[i]) && SameLetter(Upper(s)[i], s[i])
  {
  }

  lemma UpperIsTrimmed(v: string)
    ensures Trim(Upper(Trim(v))) == Upper(Trim(v))
  {
    TrimIsTrimmed(v);
    TrimOfTrimmed(Upper(Trim(v)));
  }

  // ---- chains ----

  /** A chain goes by its lower-case word, but for the other names of Base and of the BNB chain. */
  lemma ChainMeans(value: string)
    ensures NormalizeChain(value).Some? <==> Trim(value) != ""
    ensures NormalizeChain(value).Some? ==>
      var word := Lower(Trim(value));
      NormalizeChain(value) == Some(
        if word in ["base mainnet", "base-mainnet"] then "base"
        else if word in ["bnb smart chain", "binance smart chain", "binance-smart-chain", "bsc", "bep20"]
        then "bnb-smart-chain"
        else word)
  {
    hide Trim, Lower;
  }

  // ---- addresses ----

  predicate IsHexDigit(ch: char) {
    ch in "0123456789abcdefABCDEF"
  }

  /** A digit or letter that is not easily taken for another. */
  predicate IsBase58Digit(ch: char) {
    ('0' <= ch <= '9' || 'a' <= ch <= 'z' || 'A' <= ch <= 'Z') && ch != '0' && ch != 'O' && ch != 'I' && ch != 'l'
  }

  lemma DigitsMean(ch: char)
    ensures IsHex(ch) <==> IsHexDigit(ch)
    ensures IsBase58(ch) <==> IsBase58Digit(ch)
  {
    var hex := "0123456789abcdefABCDEF";
    assert forall i :: 0 <= i < |hex| ==> IsHex(hex[i]);
  }

  lemma FamilyMeans(slug: string)
    ensures FamilyOfSlug(slug) ==
      if slug in {"ethereum", "base", "arbitrum", "optimism", "polygon", "bnb-smart-chain"} then EVM
      else if slug == "tron" then TRON else if slug == "solana" then SOLANA else OTHER
  {
  }

  /**
   On an EVM chain an address is 0x and forty hexadecimal digits, and its case is dropped; on Tron it is a T and 33 digits
   of base 58, on Solana 32 to 44 of them, on any other chain anything but blank, and its case is kept.
   */
  lemma AddressMeans(chain: string, address: string, slug: string)
    requires NormalizeChain(chain) == Some(slug)
    ensures var x := Trim(address);
      NormalizeAddress(chain, address) ==
        if slug in {"ethereum", "base", "arbitrum", "optimism", "polygon", "bnb-smart-chain"} then
          if |x| == 42 && x[0] == '0' && x[1] == 'x' && (forall i :: 2 <= i < 42 ==> IsHexDigit(x[i]))
          then Some(Lower(x)) else None
        else if slug == "tron" then
          if |x| == 34 && x[0] == 'T' && (forall i :: 1 <= i < 34 ==> IsBase58Digit(x[i])) then Some(x) else None
        else if slug == "solana" then
          if 32 <= |x| <= 44 && (forall i :: 0 <= i < |x| ==> IsBase58Digit(x[i])) then Some(x) else None
        else if x != "" then Some(x) else None
  {
    var x := Trim(address);
    forall i | 0 <= i < |x|
      ensures IsHex(x[i]) <==> IsHexDigit(x[i])
      ensures IsBase58(x[i]) <==> IsBase58Digit(x[i])
    {
      DigitsMean(x[i]);
    }
    FamilyMeans(slug);
    hide Trim, NormalizeChain, IsHex, IsBase58, Lower, FamilyOfSlug, IsHexDigit, IsBase58Digit;
  }

  /** A contract may be missing or empty, and is otherwise an address of the chain; a memo is trimmed, and may be missing. */
  lemma OptionalFieldsMean(chain: string, contract: Option<string>, memo: Option<string>)
    ensures contract.None? || contract.value == "" ==> NormalizeContractAddress(chain, contract) == Some("")
    ensures contract.Some? && contract.value != "" ==>
      NormalizeContractAddress(chain, contract) == NormalizeAddress(chain, contract.value)
    ensures NormalizeMemo(memo) == if memo.Some? then Trim(memo.value) else ""
  {
    hide NormalizeAddress, Trim;
  }
}
