/**
 * The OFT adapter's send descriptor and the read-only fee quote
 * (`quoteSend`). The descriptor is built the same way in the fee quote, in
 * the bridge run and in `encodeBridgeSend`; it is defined once here.
 */
module PublicAdapter {
  import opened Wrappers
  import opened Strings
  import opened ChainHelpers
  import opened BridgeTypes
  import opened Validation

  /** The adapter's `SendParam` struct. */
  datatype SendParam = SendParam(
    amountLD: int,
    composeMsg: string,
    dstEid: int,
    extraOptions: string,
    minAmountLD: int,
    oftCmd: string,
    to: string)

  /** The adapter's `MessagingFee` struct. */
  datatype MessagingFee = MessagingFee(nativeFee: nat, lzTokenFee: nat)

  /** A `readContract` call of the adapter's `quoteSend(sendParam, payInLzToken)`. */
  datatype QuoteRead = QuoteRead(adapter: string, sendParam: SendParam, payInLzToken: bool)

  /**
   * `0x${address.slice(2).padStart(64, "0")}`: the address body left-padded
   * with '0' to 64 hex digits (32 bytes) behind a "0x" prefix.
   */
  function ToBytes32(address: string): (r: string)
    ensures |r| >= 2 && r[..2] == "0x"
    ensures var body := Slice(address, 2);
            |body| <= 64 ==>
              && |r| == 66
              && r[66 - |body|..] == body
              && forall i :: 2 <= i < 66 - |body| ==> r[i] == '0'
  {
    "0x" + PadStart(Slice(address, 2), 64, '0')
  }

  /**
   * For a well-formed 20-byte address the 32-byte form is twelve zero bytes
   * followed by the address's own twenty bytes.
   */
  lemma Bytes32OfAddress(address: string)
    requires HasAddressShape(address)
    ensures |ToBytes32(address)| == 66
    ensures forall i :: 2 <= i < 26 ==> ToBytes32(address)[i] == '0'
    ensures ToBytes32(address)[26..] == address[2..]
    ensures ToBytes32(address)[..2] == address[..2]
  {
    assert |Slice(address, 2)| == 40;
  }

  /** The descriptor: no slippage tolerance, no compose message, options or command. */
  function BuildSendParam(amount: int, dstEid: int, toAddress: string): (p: SendParam)
    ensures p.minAmountLD == p.amountLD == amount
    ensures p.composeMsg == p.extraOptions == p.oftCmd == "0x"
    ensures p.dstEid == dstEid && p.to == ToBytes32(toAddress)
  {
    SendParam(
      amountLD := amount,
      composeMsg := "0x",
      dstEid := dstEid,
      extraOptions := "0x",
      minAmountLD := amount,
      oftCmd := "0x",
      to := ToBytes32(toAddress))
  }

  /**
   * `quoteSend`: the single chain interaction it makes, a read of the
   * adapter with `payInLzToken = false`, or the error it throws first. The
   * adapter address comes from `adapterFor`, the contracts table, which is
   * not part of this model. The promise resolves to the adapter's answer.
   */
  function QuoteSend(params: FeeEstimationParams, adapterFor: int -> Result<string, Error>): (r: Result<QuoteRead, Error>)
    ensures adapterFor(params.chainId).Err? ==> r == Err(adapterFor(params.chainId).error)
    ensures r.Ok? <==> adapterFor(params.chainId).Ok? && IsMainnet(params.chainId)
    ensures r.Ok? ==>
              && r.value.adapter == adapterFor(params.chainId).value
              && !r.value.payInLzToken
              && r.value.sendParam.minAmountLD == r.value.sendParam.amountLD == params.amount
              && Ok(r.value.sendParam.dstEid) == GetLayerZeroEndpointId(GetTargetChainId(params.chainId).value)
              && r.value.sendParam.to == ToBytes32(params.toAddress)
              && r.value.sendParam == BuildSendParam(params.amount, r.value.sendParam.dstEid, params.toAddress)
    ensures adapterFor(params.chainId).Ok? && IsTestnet(params.chainId) ==>
              r == Err(Error("Unsupported destination chainId " + IntToString(GetTargetChainId(params.chainId).value)))
  {
    var adapter :- adapterFor(params.chainId);
    var destinationChainId :- GetTargetChainId(params.chainId);
    var dstEid :- GetLayerZeroEndpointId(destinationChainId);
    Ok(QuoteRead(adapter, BuildSendParam(params.amount, dstEid, params.toAddress), false))
  }
}
