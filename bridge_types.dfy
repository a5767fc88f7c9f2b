/**
 * The bridge's shared types: the closed event alphabet of a bridge run, the
 * parameters of a run and of a fee estimate, and the HEMI token address table.
 */
module BridgeTypes {
  import opened Wrappers
  import opened ChainHelpers

  /** A transaction hash as viem returns it (a `0x`-prefixed, hence non-empty, string). */
  type Hash = h: string | |h| > 0 witness "0x"

  datatype ReceiptStatus = Success | Reverted

  datatype TransactionReceipt = TransactionReceipt(transactionHash: Hash, status: ReceiptStatus)

  /** The kind of argument list an event carries. */
  datatype PayloadKind = NoPayload | ReasonPayload | ErrorPayload | ReceiptPayload | HashPayload

  /** `BridgeEvents`: the fifteen events of a bridge run, each with its payload. */
  datatype BridgeEvent =
    | BridgeFailed(error: Error)
    | BridgeFailedValidation(reason: string)
    | BridgeSettled
    | BridgeTransactionReverted(receipt: TransactionReceipt)
    | BridgeTransactionSucceeded(receipt: TransactionReceipt)
    | PreApprove
    | PreBridge
    | TokenApprovalFailed(error: Error)
    | TokenApprovalReverted(receipt: TransactionReceipt)
    | TokenApprovalSucceeded(receipt: TransactionReceipt)
    | UnexpectedError(error: Error)
    | UserRejectedBridge(error: Error)
    | UserRejectedTokenApproval(error: Error)
    | UserSignedBridge(hash: Hash)
    | UserSignedTokenApproval(hash: Hash)
  {
    function Kind(): PayloadKind {
      match this
      case BridgeSettled | PreApprove | PreBridge => NoPayload
      case BridgeFailedValidation(_) => ReasonPayload
      case BridgeFailed(_) | TokenApprovalFailed(_) | UnexpectedError(_)
        | UserRejectedBridge(_) | UserRejectedTokenApproval(_) => ErrorPayload
      case BridgeTransactionReverted(_) | BridgeTransactionSucceeded(_)
        | TokenApprovalReverted(_) | TokenApprovalSucceeded(_) => ReceiptPayload
      case UserSignedBridge(_) | UserSignedTokenApproval(_) => HashPayload
    }

    /** The event's name on the emitter: a key of the table, with the payload kind the table gives it. */
    function Name(): (name: string)
      ensures name in EventPayloads && EventPayloads[name] == Kind()
    {
      match this
      case BridgeFailed(_) => "bridge-failed"
      case BridgeFailedValidation(_) => "bridge-failed-validation"
      case BridgeSettled => "bridge-settled"
      case BridgeTransactionReverted(_) => "bridge-transaction-reverted"
      case BridgeTransactionSucceeded(_) => "bridge-transaction-succeeded"
      case PreApprove => "pre-approve"
      case PreBridge => "pre-bridge"
      case TokenApprovalFailed(_) => "token-approval-failed"
      case TokenApprovalReverted(_) => "token-approval-reverted"
      case TokenApprovalSucceeded(_) => "token-approval-succeeded"
      case UnexpectedError(_) => "unexpected-error"
      case UserRejectedBridge(_) => "user-rejected-bridge"
      case UserRejectedTokenApproval(_) => "user-rejected-token-approval"
      case UserSignedBridge(_) => "user-signed-bridge"
      case UserSignedTokenApproval(_) => "user-signed-token-approval"
    }
  }

  /** The `BridgeEvents` type as a table from event name to payload kind. */
  const EventPayloads: map<string, PayloadKind> := map[
    "bridge-failed" := ErrorPayload,
    "bridge-failed-validation" := ReasonPayload,
    "bridge-settled" := NoPayload,
    "bridge-transaction-reverted" := ReceiptPayload,
    "bridge-transaction-succeeded" := ReceiptPayload,
    "pre-approve" := NoPayload,
    "pre-bridge" := NoPayload,
    "token-approval-failed" := ErrorPayload,
    "token-approval-reverted" := ReceiptPayload,
    "token-approval-succeeded" := ReceiptPayload,
    "unexpected-error" := ErrorPayload,
    "user-rejected-bridge" := ErrorPayload,
    "user-rejected-token-approval" := ErrorPayload,
    "user-signed-bridge" := HashPayload,
    "user-signed-token-approval" := HashPayload]

  /**
   * The alphabet has fifteen names, and two events with the same name are
   * the same kind of event, with the same payload kind: the fifteen events
   * have fifteen distinct names.
   */
  lemma NameIdentifiesEvent(a: BridgeEvent, b: BridgeEvent)
    requires a.Name() == b.Name()
    ensures |EventPayloads| == 15
    ensures a.Kind() == b.Kind()
    ensures (a.PreBridge? <==> b.PreBridge?) && (a.BridgeSettled? <==> b.BridgeSettled?)
    ensures (a.PreApprove? <==> b.PreApprove?)
    ensures (a.BridgeFailed? <==> b.BridgeFailed?) && (a.BridgeFailedValidation? <==> b.BridgeFailedValidation?)
    ensures (a.BridgeTransactionReverted? <==> b.BridgeTransactionReverted?)
    ensures (a.BridgeTransactionSucceeded? <==> b.BridgeTransactionSucceeded?)
    ensures (a.TokenApprovalFailed? <==> b.TokenApprovalFailed?)
    ensures (a.TokenApprovalReverted? <==> b.TokenApprovalReverted?)
    ensures (a.TokenApprovalSucceeded? <==> b.TokenApprovalSucceeded?)
    ensures (a.UnexpectedError? <==> b.UnexpectedError?)
    ensures (a.UserRejectedBridge? <==> b.UserRejectedBridge?)
    ensures (a.UserRejectedTokenApproval? <==> b.UserRejectedTokenApproval?)
    ensures (a.UserSignedBridge? <==> b.UserSignedBridge?)
    ensures (a.UserSignedTokenApproval? <==> b.UserSignedTokenApproval?)
  {
    EventTableSize();
  }

  /** The table names fifteen events, no name twice. */
  lemma EventTableSize()
    ensures |EventPayloads| == 15
  {
    var names := [
      "bridge-failed", "bridge-failed-validation", "bridge-settled", "bridge-transaction-reverted",
      "bridge-transaction-succeeded", "pre-approve", "pre-bridge", "token-approval-failed",
      "token-approval-reverted", "token-approval-succeeded", "unexpected-error", "user-rejected-bridge",
      "user-rejected-token-approval", "user-signed-bridge", "user-signed-token-approval"];
    DistinctNamesCount(names);
    assert EventPayloads.Keys == set n | n in names;
  }

  /** A list of names without repeats names as many names as it is long. */
  lemma {:induction false} DistinctNamesCount(names: seq<string>)
    requires forall i, j :: 0 <= i < j < |names| ==> names[i] != names[j]
    ensures |set n | n in names| == |names|
  {
    if names != [] {
      DistinctNamesCount(names[1..]);
      assert (set n | n in names) == {names[0]} + (set n | n in names[1..]);
    }
  }

  /** `BridgeParams`; `walletChainId` is `walletClient.chain?.id`. */
  datatype BridgeParams = BridgeParams(
    amount: int,
    fromAddress: string,
    toAddress: string,
    walletChainId: Option<int>)

  /** `FeeEstimationParams`. */
  datatype FeeEstimationParams = FeeEstimationParams(amount: int, chainId: int, toAddress: string)

  /** `HEMI_TOKEN_ADDRESSES`: the HEMI token contract on each mainnet. */
  const HemiTokenAddresses: map<int, string> := map[
    HemiId := "0x99e3dE3817F6081B2568208337ef83295b7f591D",
    BscId := "0x5fFD0EAdc186AF9512542d0d5e5eAFC65d5aFc5B"]
}
