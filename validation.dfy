/**
 * Parameter validation of a bridge run: pure checks returning a tagged
 * result, applied in a fixed order where the first failure wins.
 */
module Validation {
  import opened Wrappers
  import opened Strings
  import opened Viem
  import opened ChainHelpers
  import opened BridgeTypes

  datatype ValidationResult = Valid | Invalid(reason: string)

  /** An argument typed `unknown`: a string or any other JavaScript value. */
  datatype JsValue = JsString(text: string) | JsOther

  /** viem's `zeroAddress`. */
  const ZeroAddress: string := "0x" + Repeat('0', 40)

  predicate IsHexDigit(c: char) {
    IsDigit(c) || 'a' <= c <= 'f' || 'A' <= c <= 'F'
  }

  /** The pattern `^0x[a-fA-F0-9]{40}$`. */
  predicate HasAddressShape(s: string) {
    |s| == 42 && s[0] == '0' && s[1] == 'x' && forall i :: 2 <= i < 42 ==> IsHexDigit(s[i])
  }

  predicate HasUpperCaseHex(s: string) {
    exists i :: 0 <= i < |s| && 'A' <= s[i] <= 'F'
  }

  /**
   * viem's `isAddress` in strict mode: the address pattern and, for a
   * string that is not all lower case, a valid EIP-55 checksum.
   */
  predicate IsAddress(s: string, viem: Helpers) {
    HasAddressShape(s) && (!HasUpperCaseHex(s) || viem.isChecksumAddress(s))
  }

  /** `validateAddress`: a well-formed address that is not the zero address. */
  function ValidateAddress(address: JsValue, viem: Helpers): (r: ValidationResult)
    ensures r == Valid <==> address.JsString? && IsAddress(address.text, viem) && address.text != ZeroAddress
    ensures !(address.JsString? && IsAddress(address.text, viem)) ==> r == Invalid("Invalid address format")
    ensures address.JsString? && address.text == ZeroAddress ==> r == Invalid("Address cannot be zero address")
  {
    if !address.JsString? || !IsAddress(address.text, viem) then Invalid("Invalid address format")
    else if address.text == ZeroAddress then Invalid("Address cannot be zero address")
    else Valid
  }

  /** `validateAmount`: the amount must be positive. */
  function ValidateAmount(amount: int): (r: ValidationResult)
    ensures r == Valid <==> amount > 0
    ensures r != Valid ==> r == Invalid("Amount must be greater than zero")
  {
    if amount <= 0 then Invalid("Amount must be greater than zero") else Valid
  }

  /** `validateChainId`: only the two mainnets are supported; testnets are rejected. */
  function ValidateChainId(chainId: Option<int>): (r: ValidationResult)
    ensures r == Valid <==> chainId.Some? && IsMainnet(chainId.value)
    ensures chainId.None? ==> r == Invalid("Chain ID is required")
    ensures chainId.Some? && !IsMainnet(chainId.value) ==>
              r == Invalid("Chain ID " + IntToString(chainId.value) + " is not supported.")
  {
    if chainId.None? then Invalid("Chain ID is required")
    else if chainId.value !in [HemiId, BscId] then
      Invalid("Chain ID " + IntToString(chainId.value) + " is not supported.")
    else Valid
  }

  /** `getHemiTokenAddress`: throws exactly for chains without a HEMI token. */
  function GetHemiTokenAddress(chainId: int): (r: Result<string, Error>)
    ensures r.Ok? <==> IsMainnet(chainId)
    ensures r.Ok? ==> r.value == HemiTokenAddresses[chainId]
    ensures r.Err? ==> r.error == Error("HEMI token not available for chain " + IntToString(chainId))
  {
    if chainId in HemiTokenAddresses && HemiTokenAddresses[chainId] != "" then Ok(HemiTokenAddresses[chainId])
    else Err(Error("HEMI token not available for chain " + IntToString(chainId)))
  }

  function Prefixed(prefix: string, r: ValidationResult): ValidationResult {
    if r.Invalid? then Invalid(prefix + r.reason) else r
  }

  /** `validateBridgeParams`: amount, chain, from address, to address, in that order. */
  function ValidateBridgeParams(params: BridgeParams, viem: Helpers): (r: ValidationResult)
    ensures params.amount <= 0 ==> r == Invalid("Amount must be greater than zero")
    ensures r == Valid <==>
              && params.amount > 0
              && params.walletChainId.Some? && IsMainnet(params.walletChainId.value)
              && ValidateAddress(JsString(params.fromAddress), viem) == Valid
              && ValidateAddress(JsString(params.toAddress), viem) == Valid
    ensures params.amount > 0 && ValidateChainId(params.walletChainId) == Valid
            && ValidateAddress(JsString(params.fromAddress), viem).Invalid? ==>
              r == Invalid("From address: " + ValidateAddress(JsString(params.fromAddress), viem).reason)
  {
    var amountValidation := ValidateAmount(params.amount);
    if amountValidation.Invalid? then amountValidation
    else
      var sourceChainIdValidation := ValidateChainId(params.walletChainId);
      if sourceChainIdValidation.Invalid? then sourceChainIdValidation
      else
        var fromAddressValidation := ValidateAddress(JsString(params.fromAddress), viem);
        if fromAddressValidation.Invalid? then Invalid("From address: " + fromAddressValidation.reason)
        else
          var toAddressValidation := ValidateAddress(JsString(params.toAddress), viem);
          if toAddressValidation.Invalid? then Invalid("To address: " + toAddressValidation.reason)
          else Valid
  }

  /** Reference semantics of a rule list: the first failing rule's result, else valid. */
  function FirstFailure(rules: seq<ValidationResult>): (r: ValidationResult)
    ensures r == Valid <==> forall i :: 0 <= i < |rules| ==> rules[i] == Valid
    ensures r != Valid ==> exists i :: 0 <= i < |rules| && rules[i] == r && forall j :: 0 <= j < i ==> rules[j] == Valid
  {
    if rules == [] then Valid
    else if rules[0].Invalid? then rules[0]
    else FirstFailure(rules[1..])
  }

  /**
   * The validator is the first-failure-wins combination of its four rules,
   * the address rules reporting with their "From address: " / "To address: " prefixes.
   */
  lemma ValidationIsFirstFailure(params: BridgeParams, viem: Helpers)
    ensures ValidateBridgeParams(params, viem) == FirstFailure([
              ValidateAmount(params.amount),
              ValidateChainId(params.walletChainId),
              Prefixed("From address: ", ValidateAddress(JsString(params.fromAddress), viem)),
              Prefixed("To address: ", ValidateAddress(JsString(params.toAddress), viem))])
  {
    var rules := [
      ValidateAmount(params.amount),
      ValidateChainId(params.walletChainId),
      Prefixed("From address: ", ValidateAddress(JsString(params.fromAddress), viem)),
      Prefixed("To address: ", ValidateAddress(JsString(params.toAddress), viem))];
    var tail1, tail2, tail3 := rules[1..], rules[2..], rules[3..];
    assert tail1[1..] == tail2 && tail2[1..] == tail3 && tail3[1..] == [];
    assert FirstFailure(tail3) == rules[3];
    assert FirstFailure(tail2) == if rules[2].Invalid? then rules[2] else rules[3];
    assert FirstFailure(tail1) == if rules[1].Invalid? then rules[1] else FirstFailure(tail2);
  }

  /**
   * Valid parameters name a chain on which every lookup of the run succeeds:
   * the token address, the target chain and the target's endpoint id; and the
   * recipient has the 42-character address shape.
   */
  lemma ValidParamsResolve(params: BridgeParams, viem: Helpers)
    requires ValidateBridgeParams(params, viem) == Valid
    ensures params.walletChainId.Some?
    ensures GetHemiTokenAddress(params.walletChainId.value).Ok?
    ensures GetTargetChainId(params.walletChainId.value).Ok?
    ensures GetLayerZeroEndpointId(GetTargetChainId(params.walletChainId.value).value).Ok?
    ensures HasAddressShape(params.toAddress) && HasAddressShape(params.fromAddress)
  {
  }
}
