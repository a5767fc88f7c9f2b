/**
 * The website's token helpers: the HEMI token on both chains, the pair of
 * tokens a transfer shows, the price lookup, and the amount parsing that
 * truncates excess decimals before handing the text to `parseUnits`.
 */
module TokenUtils {
  import opened Wrappers
  import opened Strings
  import opened Viem
  import opened ChainHelpers
  import opened BridgeTypes

  /** The optional `extensions` record of a token-list entry. */
  datatype Extensions = Extensions(priceSymbol: Option<string>, l1LogoURI: Option<string>)

  /** A token-list entry. */
  datatype Token = Token(
    address: string,
    chainId: int,
    decimals: nat,
    extensions: Option<Extensions>,
    logoURI: string,
    name: string,
    symbol: string)

  const HemiLogo: string := "https://hemilabs.github.io/token-list/l1Logos/hemi.svg"

  /** `hemiToken`: HEMI on the Hemi network. */
  const HemiToken: Token := Token(
    "0x99e3dE3817F6081B2568208337ef83295b7f591D", HemiId, 18,
    Some(Extensions(None, Some(HemiLogo))), HemiLogo, "Hemi", "HEMI")

  /** `hemiTokenBsc`: the same entry with the BSC address and chain. */
  const HemiTokenBsc: Token := HemiToken.(address := "0x5fFD0EAdc186AF9512542d0d5e5eAFC65d5aFc5B", chainId := BscId)

  /** The two entries differ only in address and chain, and both are the bridge's HEMI token on their chain. */
  lemma HemiTokensAgree()
    ensures HemiTokenBsc.decimals == HemiToken.decimals == 18
    ensures HemiTokenBsc.symbol == HemiToken.symbol && HemiTokenBsc.name == HemiToken.name
    ensures HemiTokenBsc.extensions == HemiToken.extensions && HemiTokenBsc.logoURI == HemiToken.logoURI
    ensures HemiTokenBsc.address != HemiToken.address
    ensures HemiToken.address == HemiTokenAddresses[HemiToken.chainId]
    ensures HemiTokenBsc.address == HemiTokenAddresses[HemiTokenBsc.chainId]
  {
  }

  /**
   * `getToken`: the source chain's token first, then the destination's.
   * Only Hemi puts the Hemi token first; every other chain id gets the BSC
   * token first.
   */
  function GetToken(sourceChainId: int): (r: seq<Token>)
    ensures |r| == 2 && {r[0], r[1]} == {HemiToken, HemiTokenBsc}
    ensures r[0] == HemiToken <==> sourceChainId == HemiId
  {
    if sourceChainId == HemiId then [HemiToken, HemiTokenBsc] else [HemiTokenBsc, HemiToken]
  }

  /** On either mainnet the pair is (token on the source chain, token on its bridge target). */
  lemma GetTokenFollowsBridgeDirection(sourceChainId: int)
    requires IsMainnet(sourceChainId)
    ensures GetToken(sourceChainId)[0].chainId == sourceChainId
    ensures Ok(GetToken(sourceChainId)[1].chainId) == GetTargetChainId(sourceChainId)
    ensures GetToken(sourceChainId)[0].address == HemiTokenAddresses[sourceChainId]
  {
  }

  /** The symbol a price is looked up under: `priceSymbol` when present, else `symbol`. */
  function PriceSymbol(token: Token): string {
    if token.extensions.Some? && token.extensions.value.priceSymbol.Some? then token.extensions.value.priceSymbol.value
    else token.symbol
  }

  /** `getTokenPrice`: the upper-cased price symbol's entry, or "0" when there are no prices or no entry. */
  function GetTokenPrice(token: Token, prices: Option<map<string, string>>): (r: string)
    ensures var key := ToUpperCase(PriceSymbol(token));
            && (prices.Some? && key in prices.value ==> r == prices.value[key])
            && (prices.None? || key !in prices.value ==> r == "0")
  {
    var key := ToUpperCase(PriceSymbol(token));
    if prices.Some? && key in prices.value then prices.value[key] else "0"
  }

  /** The lookup ignores the case of the symbol: an upper-cased symbol finds the same price. */
  lemma PriceIgnoresSymbolCase(token: Token, prices: Option<map<string, string>>)
    ensures GetTokenPrice(token.(symbol := ToUpperCase(token.symbol)), prices) == GetTokenPrice(token, prices)
    ensures token.extensions.Some? && token.extensions.value.priceSymbol.Some? ==>
              var upper := Some(token.extensions.value.(priceSymbol := Some(ToUpperCase(PriceSymbol(token)))));
              GetTokenPrice(token.(extensions := upper), prices) == GetTokenPrice(token, prices)
  {
    ToUpperCaseIdempotent(PriceSymbol(token));
  }

  /** `fraction?.slice(0, decimals)` on a present fraction. */
  function Truncate(fraction: string, decimals: nat): (r: string)
    ensures r <= fraction && |r| <= decimals
    ensures |fraction| >= decimals ==> |r| == decimals
    ensures |fraction| <= decimals ==> r == fraction
  {
    if |fraction| <= decimals then fraction else fraction[..decimals]
  }

  /**
   * The text `parseTokenUnits` passes to `parseUnits`: the whole part, and
   * when the text after the first "." truncated to `decimals` characters is
   * not empty, a "." and that truncated fraction. Text after a second "." is
   * dropped.
   *
   * It only ever cuts the amount short: the result keeps the whole part and
   * is a prefix of the amount, and an amount that is already within the
   * token's precision (no ".", or one "." followed by 1 to `decimals`
   * characters) is passed on unchanged.
   */
  function NormalizeAmount(amount: string, decimals: nat): (r: string)
    ensures Split(amount, '.')[0] <= r && r <= amount
    ensures '.' !in amount ==> r == amount
    ensures var parts := Split(amount, '.');
            |parts| == 2 && 0 < |parts[1]| <= decimals ==> r == amount
  {
    SplitShape(amount, '.');
    var parts := Split(amount, '.');
    var whole := parts[0];
    if |parts| >= 2 && Truncate(parts[1], decimals) != "" then
      var kept := Truncate(parts[1], decimals);
      assert whole + "." + kept <= whole + "." + parts[1] by {
        assert (whole + "." + parts[1])[..|whole| + 1 + |kept|] == whole + "." + kept;
      }
      whole + "." + kept
    else whole
  }

  /**
   * `parseTokenUnits`: the normalised text parsed at the token's decimals;
   * an amount already within the token's precision is parsed as typed.
   */
  function ParseTokenUnits(amount: string, token: Token, viem: Helpers): (r: Result<int, Error>)
    ensures var parts := Split(amount, '.');
            ('.' !in amount || (|parts| == 2 && 0 < |parts[1]| <= token.decimals)) ==>
              r == viem.parseUnits(amount, token.decimals)
  {
    viem.parseUnits(NormalizeAmount(amount, token.decimals), token.decimals)
  }

  /**
   * The normalised text keeps the whole part, has at most one ".", and never
   * carries more fraction digits than the token has decimals; those digits
   * are the leading digits of the amount's fraction.
   */
  lemma NormalizedFractionFits(amount: string, decimals: nat)
    ensures var r := NormalizeAmount(amount, decimals);
            var parts := Split(r, '.');
            && parts[0] == Split(amount, '.')[0]
            && |parts| <= 2
            && (|parts| == 2 ==> 0 < |parts[1]| <= decimals && parts[1] <= Split(amount, '.')[1])
  {
    var parts := Split(amount, '.');
    var r := NormalizeAmount(amount, decimals);
    if |parts| >= 2 && Truncate(parts[1], decimals) != "" {
      var f := Truncate(parts[1], decimals);
      assert '.' !in f by {
        assert forall i :: 0 <= i < |f| ==> f[i] == parts[1][i];
      }
      SplitAtFirstSeparator(parts[0], '.', f);
      SplitWithoutSeparator(f, '.');
    } else {
      SplitWithoutSeparator(parts[0], '.');
    }
  }

  /**
   * Digits past the token's decimals, and anything after a second ".", never
   * change what is parsed: the amount reads as its whole part and the first
   * `decimals` fraction digits.
   */
  lemma ExcessDigitsIgnored(whole: string, fraction: string, rest: string, decimals: nat)
    requires '.' !in whole && '.' !in fraction && |fraction| >= decimals
    ensures NormalizeAmount(whole + "." + fraction + rest, decimals)
            == NormalizeAmount(whole + "." + fraction[..decimals], decimals)
  {
    var kept := fraction[..decimals];
    assert '.' !in kept by {
      assert forall i :: 0 <= i < |kept| ==> kept[i] == fraction[i];
    }
    assert whole + "." + fraction + rest == whole + ['.'] + (fraction + rest);
    SplitAtFirstSeparator(whole, '.', fraction + rest);
    SplitHeadExtends(fraction, '.', rest);
    var head := Split(fraction + rest, '.')[0];
    assert head[..decimals] == kept;
    assert whole + "." + kept == whole + ['.'] + kept;
    SplitAtFirstSeparator(whole, '.', kept);
    SplitWithoutSeparator(kept, '.');
  }

  /**
   * A fraction within the token's precision is kept whole: "1.5" stays
   * "1.5" at 18 decimals.
   */
  lemma FractionWithinPrecisionKept(whole: string, fraction: string, decimals: nat)
    requires '.' !in whole && '.' !in fraction && 0 < |fraction| <= decimals
    ensures NormalizeAmount(whole + "." + fraction, decimals) == whole + "." + fraction
  {
    assert whole + "." + fraction == whole + ['.'] + fraction;
    SplitAtFirstSeparator(whole, '.', fraction);
    SplitWithoutSeparator(fraction, '.');
  }

  /**
   * Whatever follows a second "." is dropped, however long the first
   * fraction is: "1.5.7" reads as "1.5".
   */
  lemma SecondSegmentIgnored(whole: string, fraction: string, rest: string, decimals: nat)
    requires '.' !in whole && '.' !in fraction
    ensures NormalizeAmount(whole + "." + fraction + "." + rest, decimals)
            == NormalizeAmount(whole + "." + fraction, decimals)
  {
    assert whole + "." + fraction + "." + rest == whole + ['.'] + (fraction + ['.'] + rest);
    SplitAtFirstSeparator(whole, '.', fraction + ['.'] + rest);
    SplitAtFirstSeparator(fraction, '.', rest);
    assert whole + "." + fraction == whole + ['.'] + fraction;
    SplitAtFirstSeparator(whole, '.', fraction);
    SplitWithoutSeparator(fraction, '.');
  }

  /**
   * So the parsed value is that of the whole part and the first `decimals`
   * fraction digits, both when digits run past the token's decimals and
   * when a second "." follows the fraction.
   */
  lemma ExcessDigitsDoNotChangeUnits(whole: string, fraction: string, rest: string, token: Token, viem: Helpers)
    requires '.' !in whole && '.' !in fraction
    requires |fraction| >= token.decimals || (|rest| > 0 && rest[0] == '.')
    ensures ParseTokenUnits(whole + "." + fraction + rest, token, viem)
            == ParseTokenUnits(whole + "." + Truncate(fraction, token.decimals), token, viem)
  {
    if |fraction| >= token.decimals {
      ExcessDigitsIgnored(whole, fraction, rest, token.decimals);
      assert Truncate(fraction, token.decimals) == fraction[..token.decimals];
    } else {
      assert whole + "." + fraction + rest == whole + "." + fraction + "." + rest[1..];
      SecondSegmentIgnored(whole, fraction, rest[1..], token.decimals);
    }
  }

  /** Without a fraction, with an empty one ("5."), or with no decimals, only the whole part is parsed. */
  lemma WholePartAlone(whole: string, fraction: string, decimals: nat)
    requires '.' !in whole && '.' !in fraction
    ensures NormalizeAmount(whole, decimals) == whole
    ensures NormalizeAmount(whole + ".", decimals) == whole
    ensures NormalizeAmount(whole + "." + fraction, 0) == whole
  {
    SplitWithoutSeparator(whole, '.');
    assert whole + "." == whole + ['.'] + [];
    SplitAtFirstSeparator(whole, '.', []);
    assert whole + "." + fraction == whole + ['.'] + fraction;
    SplitAtFirstSeparator(whole, '.', fraction);
  }
}
