/**
 * The two static chain tables of the bridge: which chain a source chain
 * bridges to, and the LayerZero endpoint id of a destination chain. A lookup
 * of a missing key throws; the throw is an `Err` carrying the library's message.
 */
module ChainHelpers {
  import opened Wrappers
  import opened Strings

  /** Chain ids of the four networks, as the viem chain definitions give them. */
  const BscId: int := 56
  const BscTestnetId: int := 97
  const HemiId: int := 43111
  const HemiSepoliaId: int := 743111

  predicate IsMainnet(chainId: int) {
    chainId == BscId || chainId == HemiId
  }

  predicate IsTestnet(chainId: int) {
    chainId == BscTestnetId || chainId == HemiSepoliaId
  }

  /** `endpointIdsMap`: only the two mainnets have an endpoint id. */
  const EndpointIds: map<int, int> := map[BscId := 30102, HemiId := 30329]

  /** `chainMaps`: the source-to-target pairing. */
  const ChainPairs: map<int, int> :=
    map[BscId := HemiId, BscTestnetId := HemiSepoliaId, HemiId := BscId, HemiSepoliaId := BscTestnetId]

  /** `getLayerZeroEndpointId`: bsc -> 30102, hemi -> 30329, every other chain throws. */
  function GetLayerZeroEndpointId(destinationChainId: int): (r: Result<int, Error>)
    ensures r.Ok? <==> IsMainnet(destinationChainId)
    ensures destinationChainId == BscId ==> r == Ok(30102)
    ensures destinationChainId == HemiId ==> r == Ok(30329)
    ensures r.Err? ==> r.error.message == "Unsupported destination chainId " + IntToString(destinationChainId)
  {
    if destinationChainId in EndpointIds then Ok(EndpointIds[destinationChainId])
    else Err(Error("Unsupported destination chainId " + IntToString(destinationChainId)))
  }

  /**
   * `getTargetChainId`: defined on exactly the four networks; the pairing is
   * an involution without fixed points that never crosses from mainnet to testnet.
   */
  function GetTargetChainId(sourceChainId: int): (r: Result<int, Error>)
    ensures r.Ok? <==> IsMainnet(sourceChainId) || IsTestnet(sourceChainId)
    ensures r.Ok? ==> r.value in ChainPairs && ChainPairs[r.value] == sourceChainId
    ensures r.Ok? ==> r.value != sourceChainId
    ensures r.Ok? ==> (IsMainnet(r.value) <==> IsMainnet(sourceChainId))
    ensures r.Err? ==> r.error.message == "Unsupported source chain ID: " + IntToString(sourceChainId)
  {
    if sourceChainId in ChainPairs then Ok(ChainPairs[sourceChainId])
    else Err(Error("Unsupported source chain ID: " + IntToString(sourceChainId)))
  }

  /** Applying the pairing twice gives back every supported chain. */
  lemma TargetChainIdIsInvolution(sourceChainId: int)
    requires IsMainnet(sourceChainId) || IsTestnet(sourceChainId)
    ensures GetTargetChainId(sourceChainId).Ok?
    ensures GetTargetChainId(GetTargetChainId(sourceChainId).value) == Ok(sourceChainId)
  {
  }

  /**
   * The endpoint of a chain's target resolves exactly for the mainnets: a
   * testnet source has a target, but looking up that target's endpoint throws.
   */
  lemma DestinationEndpointResolves(sourceChainId: int)
    ensures GetTargetChainId(sourceChainId).Ok?
            && GetLayerZeroEndpointId(GetTargetChainId(sourceChainId).value).Ok?
            <==> IsMainnet(sourceChainId)
    ensures IsTestnet(sourceChainId) ==>
              GetTargetChainId(sourceChainId).Ok?
              && GetLayerZeroEndpointId(GetTargetChainId(sourceChainId).value).Err?
  {
  }
}
