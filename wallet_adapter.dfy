/**
 * The wallet side of the bridge: the balance check, the bridge run that
 * validates, approves, quotes, simulates, sends and reports every milestone
 * on an event emitter, and the calldata arguments of `encodeBridgeSend`.
 *
 * Every chain interaction is scripted: a `Script` says how each call the run
 * can make settles, and the run records the calls it actually made.
 */
module WalletAdapter {
  import opened Wrappers
  import opened Viem
  import opened ChainHelpers
  import opened BridgeTypes
  import opened Validation
  import opened PublicAdapter

  datatype BalanceVerdict = CanBridge | CannotBridge(reason: string)

  /** How a wallet submission (`approveErc20Token`, `writeContract`) settles. */
  datatype Submission = Signed(hash: Hash) | Rejected(error: Error)

  /** How `waitForTransactionReceipt` settles. */
  datatype ReceiptWait = Mined(receipt: TransactionReceipt) | WaitFailed(error: Error)

  /** The answers of the chain and of the wallet to every call a run can make. */
  datatype Script = Script(
    /** `getHemiOftAdapterAddress` (the contracts table is not part of this model). */
    adapterFor: int -> Result<string, Error>,
    /** `publicClient.chain.nativeCurrency.symbol`. */
    nativeSymbol: string,
    /** `getErc20TokenBalance` in the balance check. */
    tokenBalance: Result<nat, Error>,
    /** `getBalance` in the balance check. */
    gasBalance: Result<nat, Error>,
    /** `getErc20TokenAllowance`. */
    allowance: Result<nat, Error>,
    /** `approveErc20Token`. */
    approval: Submission,
    /** `waitForTransactionReceipt` of the approval. */
    approvalReceipt: ReceiptWait,
    /** `readContract` of the adapter's `quoteSend`. */
    quote: Result<MessagingFee, Error>,
    /** `getBalance` joined with the quote. */
    feeBalance: Result<nat, Error>,
    /** `simulateContract` of `send`: `None` when it succeeds. */
    simulation: Option<Error>,
    /** `writeContract` of the simulated request. */
    send: Submission,
    /** `waitForTransactionReceipt` of the bridge transaction. */
    sendReceipt: ReceiptWait)

  /** The adapter's `send(sendParam, fee, refundAddress)` paying `value` in native currency. */
  datatype SendCall = SendCall(adapter: string, sendParam: SendParam, fee: MessagingFee, refundAddress: string, value: nat)

  /** The chain and wallet calls a run makes, in order. */
  datatype ChainCall =
    | ReadTokenBalance(token: string, account: string)
    | ReadNativeBalance(account: string)
    | ReadAllowance(token: string, owner: string, spender: string)
    | ApproveToken(token: string, spender: string, amount: int)
    | AwaitReceipt(hash: Hash)
    | ReadQuote(read: QuoteRead)
    | SimulateSend(call: SendCall)
    | WriteSend(call: SendCall)

  /** The failure message of the native-fee check, verbatim (its last word is cut short in the library). */
  const NativeFeeShortfall: string := "Insufficient native token balance to pay Layer Zero fe"

  /** What `walletClient.chain!.id` throws when the wallet has no chain. */
  const NoChainError: Error := Error("Cannot read properties of undefined (reading 'id')")

  const BalanceReadFailed: string := "Failed to check balance: "

  const TokenShortfall: string := "Insufficient HEMI token balance. Required: "

  /**
   * `checkUserBalance`: never throws. It can bridge exactly when the token
   * balance covers the amount and the native balance is non-zero; a failed
   * read becomes a verdict carrying the read's message. It only reads.
   */
  function CheckUserBalance(amount: int, tokenAddress: string, userAddress: string, s: Script, viem: Helpers)
    : (r: (BalanceVerdict, seq<ChainCall>))
    ensures r.0 == CanBridge <==>
              s.tokenBalance.Ok? && s.tokenBalance.value >= amount && s.gasBalance.Ok? && s.gasBalance.value != 0
    ensures s.tokenBalance.Err? ==> r.0 == CannotBridge(BalanceReadFailed + s.tokenBalance.error.message)
    ensures s.tokenBalance.Ok? && s.tokenBalance.value < amount ==>
              r.0.CannotBridge? && TokenShortfall <= r.0.reason
    ensures s.tokenBalance.Ok? && s.tokenBalance.value >= amount && s.gasBalance.Err? ==>
              r.0 == CannotBridge(BalanceReadFailed + s.gasBalance.error.message)
    ensures s.tokenBalance.Ok? && s.tokenBalance.value >= amount && s.gasBalance == Ok(0) ==>
              r.0 == CannotBridge("Insufficient " + s.nativeSymbol + " balance for gas fees")
    ensures 1 <= |r.1| <= 2 && r.1[0] == ReadTokenBalance(tokenAddress, userAddress)
    ensures forall i :: 1 <= i < |r.1| ==> r.1[i] == ReadNativeBalance(userAddress)
  {
    var tokenRead := [ReadTokenBalance(tokenAddress, userAddress)];
    match s.tokenBalance
    case Err(e) => (CannotBridge(BalanceReadFailed + e.message), tokenRead)
    case Ok(balance) =>
      if balance < amount then
        (CannotBridge(TokenShortfall + viem.formatUnits(amount, 18) + ", Available: " + viem.formatUnits(balance, 18)),
         tokenRead)
      else
        var calls := tokenRead + [ReadNativeBalance(userAddress)];
        match s.gasBalance
        case Err(e) => (CannotBridge(BalanceReadFailed + e.message), calls)
        case Ok(nativeBalance) =>
          if nativeBalance == 0 then (CannotBridge("Insufficient " + s.nativeSymbol + " balance for gas fees"), calls)
          else (CanBridge, calls)
  }

  /** A step of the run that either lets the run go on or ends it (with a throw or not). */
  datatype Stage =
    | Proceed(events: seq<BridgeEvent>, calls: seq<ChainCall>, adapter: string)
    | Halt(events: seq<BridgeEvent>, calls: seq<ChainCall>, thrown: Option<Error>)

  /** What the guarded block of the run emitted and called, and what it threw. */
  datatype Attempt = Attempt(events: seq<BridgeEvent>, calls: seq<ChainCall>, thrown: Option<Error>)

  /** A whole run: the events in emission order and the calls in issue order. */
  datatype Run = Run(events: seq<BridgeEvent>, calls: seq<ChainCall>)

  /** From the adapter lookup through the approval: either an adapter to send with, or the end of the run. */
  function Preflight(params: BridgeParams, sourceChainId: int, s: Script, viem: Helpers): (r: Stage)
    ensures r.Halt? && r.thrown.None? ==> |r.events| >= 1
  {
    match s.adapterFor(sourceChainId)
    case Err(e) => Halt([], [], Some(e))
    case Ok(adapter) =>
      match GetHemiTokenAddress(sourceChainId)
      case Err(e) => Halt([], [], Some(e))
      case Ok(token) =>
        var (verdict, balanceCalls) := CheckUserBalance(params.amount, token, params.fromAddress, s, viem);
        if verdict.CannotBridge? then Halt([BridgeFailedValidation(verdict.reason)], balanceCalls, None)
        else
          var calls := balanceCalls + [ReadAllowance(token, params.fromAddress, adapter)];
          match s.allowance
          case Err(e) => Halt([], calls, Some(e))
          case Ok(allowance) =>
            if allowance >= params.amount then Proceed([], calls, adapter)
            else
              var calls := calls + [ApproveToken(token, adapter, params.amount)];
              match s.approval
              case Rejected(e) => Halt([PreApprove, UserRejectedTokenApproval(e)], calls, None)
              case Signed(hash) =>
                var calls := calls + [AwaitReceipt(hash)];
                match s.approvalReceipt
                case WaitFailed(e) =>
                  Halt([PreApprove, UserSignedTokenApproval(hash), TokenApprovalFailed(e)], calls, None)
                case Mined(receipt) =>
                  if receipt.status == Success then
                    Proceed([PreApprove, UserSignedTokenApproval(hash), TokenApprovalSucceeded(receipt)], calls, adapter)
                  else
                    Halt([PreApprove, UserSignedTokenApproval(hash), TokenApprovalReverted(receipt)], calls, None)
  }

  /** From the destination lookup through the bridge receipt. */
  function SendStage(params: BridgeParams, sourceChainId: int, adapter: string, s: Script): (r: Attempt)
    ensures r.thrown.None? ==> |r.events| >= 1
    ensures forall c :: c in r.calls ==>
              c.ReadQuote? || c.ReadNativeBalance? || c.SimulateSend? || c.WriteSend? || c.AwaitReceipt?
  {
    match GetTargetChainId(sourceChainId)
    case Err(e) => Attempt([], [], Some(e))
    case Ok(destinationChainId) =>
      match GetLayerZeroEndpointId(destinationChainId)
      case Err(e) => Attempt([], [], Some(e))
      case Ok(dstEid) =>
        var sendParam := BuildSendParam(params.amount, dstEid, params.toAddress);
        var calls := [ReadQuote(QuoteRead(adapter, sendParam, false)), ReadNativeBalance(params.fromAddress)];
        match s.quote
        case Err(e) => Attempt([], calls, Some(e))
        case Ok(fee) =>
          match s.feeBalance
          case Err(e) => Attempt([], calls, Some(e))
          case Ok(nativeBalance) =>
            if nativeBalance < fee.nativeFee then Attempt([BridgeFailedValidation(NativeFeeShortfall)], calls, None)
            else
              var call := SendCall(adapter, sendParam, fee, params.fromAddress, fee.nativeFee);
              var calls := calls + [SimulateSend(call)];
              match s.simulation
              case Some(e) => Attempt([], calls, Some(e))
              case None =>
                var calls := calls + [WriteSend(call)];
                match s.send
                case Rejected(e) => Attempt([UserRejectedBridge(e)], calls, None)
                case Signed(hash) =>
                  var calls := calls + [AwaitReceipt(hash)];
                  match s.sendReceipt
                  case WaitFailed(e) => Attempt([UserSignedBridge(hash), BridgeFailed(e)], calls, None)
                  case Mined(receipt) =>
                    var outcome :=
                      if receipt.status == Success then BridgeTransactionSucceeded(receipt)
                      else BridgeTransactionReverted(receipt);
                    Attempt([UserSignedBridge(hash), outcome], calls, None)
  }

  /** The `try` block of the run. */
  function TryBlock(params: BridgeParams, s: Script, viem: Helpers): (r: Attempt)
    ensures |r.events| >= 1 && r.events[0] == PreBridge
    ensures r.thrown.None? ==> |r.events| >= 2
  {
    match params.walletChainId
    case None => Attempt([PreBridge], [], Some(NoChainError))
    case Some(sourceChainId) =>
      match Preflight(params, sourceChainId, s, viem)
      case Halt(events, calls, thrown) => Attempt([PreBridge] + events, calls, thrown)
      case Proceed(events, calls, adapter) =>
        var send := SendStage(params, sourceChainId, adapter, s);
        Attempt([PreBridge] + events + send.events, calls + send.calls, send.thrown)
  }

  /**
   * `runBridgeHemiToken`, as a function of its parameters and the script.
   * A validation failure is reported alone, before the guarded block, so no
   * `bridge-settled` follows it and no chain call is made. Otherwise the run
   * starts with `pre-bridge` and ends with `bridge-settled`, preceded by
   * `unexpected-error` when the guarded block threw.
   */
  function BridgeRun(params: BridgeParams, s: Script, viem: Helpers): (r: Run)
    ensures ValidateBridgeParams(params, viem).Invalid? ==>
              r == Run([BridgeFailedValidation(ValidateBridgeParams(params, viem).reason)], [])
    ensures ValidateBridgeParams(params, viem) == Valid ==>
              |r.events| >= 3 && r.events[0] == PreBridge && r.events[|r.events| - 1] == BridgeSettled
  {
    match ValidateBridgeParams(params, viem)
    case Invalid(reason) => Run([BridgeFailedValidation(reason)], [])
    case Valid =>
      Finally(TryBlock(params, s, viem))
  }

  /**
   * The `catch` and `finally` blocks of the run: what the guarded block
   * threw is reported as `unexpected-error`, then `bridge-settled` is
   * emitted whatever happened.
   */
  function Finally(attempt: Attempt): (r: Run)
    ensures r.calls == attempt.calls
    ensures |r.events| == |attempt.events| + (if attempt.thrown.Some? then 2 else 1)
    ensures r.events[..|attempt.events|] == attempt.events && r.events[|r.events| - 1] == BridgeSettled
    ensures attempt.thrown.Some? ==> r.events[|r.events| - 2] == UnexpectedError(attempt.thrown.value)
  {
    var caught := if attempt.thrown.Some? then [UnexpectedError(attempt.thrown.value)] else [];
    Run(attempt.events + caught + [BridgeSettled], attempt.calls)
  }

  /** The `EventEmitter` of a run: the events emitted on it so far. */
  class Emitter {
    var events: seq<BridgeEvent>

    constructor ()
      ensures events == []
    {
      events := [];
    }

    method Emit(e: BridgeEvent)
      modifies this
      ensures events == old(events) + [e]
    {
      events := events + [e];
    }
  }

  /**
   * Lines from the adapter lookup through the approval of the guarded block,
   * with their early returns; the result says how the block goes on.
   */
  method PreflightSteps(params: BridgeParams, sourceChainId: int, s: Script, viem: Helpers, emitter: Emitter)
    returns (stage: Stage)
    modifies emitter
    ensures stage == Preflight(params, sourceChainId, s, viem)
    ensures emitter.events == old(emitter.events) + stage.events
  {
    var adapterLookup := s.adapterFor(sourceChainId);
    if adapterLookup.Err? {
      return Halt([], [], Some(adapterLookup.error));
    }
    var oftAdapterAddress := adapterLookup.value;

    var tokenLookup := GetHemiTokenAddress(sourceChainId);
    if tokenLookup.Err? {
      return Halt([], [], Some(tokenLookup.error));
    }
    var tokenAddress := tokenLookup.value;

    var balanceCheck := CheckUserBalance(params.amount, tokenAddress, params.fromAddress, s, viem);
    var calls := balanceCheck.1;
    if balanceCheck.0.CannotBridge? {
      emitter.Emit(BridgeFailedValidation(balanceCheck.0.reason));
      return Halt([BridgeFailedValidation(balanceCheck.0.reason)], calls, None);
    }

    calls := calls + [ReadAllowance(tokenAddress, params.fromAddress, oftAdapterAddress)];
    if s.allowance.Err? {
      return Halt([], calls, Some(s.allowance.error));
    }
    var allowance := s.allowance.value;
    if allowance >= params.amount {
      return Proceed([], calls, oftAdapterAddress);
    }

    emitter.Emit(PreApprove);
    calls := calls + [ApproveToken(tokenAddress, oftAdapterAddress, params.amount)];
    if s.approval.Rejected? {
      emitter.Emit(UserRejectedTokenApproval(s.approval.error));
      return Halt([PreApprove, UserRejectedTokenApproval(s.approval.error)], calls, None);
    }
    var approveHash := s.approval.hash;
    emitter.Emit(UserSignedTokenApproval(approveHash));

    calls := calls + [AwaitReceipt(approveHash)];
    if s.approvalReceipt.WaitFailed? {
      emitter.Emit(TokenApprovalFailed(s.approvalReceipt.error));
      return Halt([PreApprove, UserSignedTokenApproval(approveHash), TokenApprovalFailed(s.approvalReceipt.error)],
                  calls, None);
    }
    var approveReceipt := s.approvalReceipt.receipt;
    if approveReceipt.status == Success {
      emitter.Emit(TokenApprovalSucceeded(approveReceipt));
      return Proceed([PreApprove, UserSignedTokenApproval(approveHash), TokenApprovalSucceeded(approveReceipt)],
                     calls, oftAdapterAddress);
    }
    emitter.Emit(TokenApprovalReverted(approveReceipt));
    return Halt([PreApprove, UserSignedTokenApproval(approveHash), TokenApprovalReverted(approveReceipt)], calls, None);
  }

  /**
   * Lines from the destination lookup through the bridge receipt of the
   * guarded block, with their early returns.
   */
  method SendSteps(params: BridgeParams, sourceChainId: int, oftAdapterAddress: string, s: Script, emitter: Emitter)
    returns (attempt: Attempt)
    modifies emitter
    ensures attempt == SendStage(params, sourceChainId, oftAdapterAddress, s)
    ensures emitter.events == old(emitter.events) + attempt.events
  {
    var targetLookup := GetTargetChainId(sourceChainId);
    if targetLookup.Err? {
      return Attempt([], [], Some(targetLookup.error));
    }
    var endpointLookup := GetLayerZeroEndpointId(targetLookup.value);
    if endpointLookup.Err? {
      return Attempt([], [], Some(endpointLookup.error));
    }
    var sendParam := BuildSendParam(params.amount, endpointLookup.value, params.toAddress);

    var calls := [ReadQuote(QuoteRead(oftAdapterAddress, sendParam, false)), ReadNativeBalance(params.fromAddress)];
    if s.quote.Err? {
      return Attempt([], calls, Some(s.quote.error));
    }
    var messagingFee := s.quote.value;
    if s.feeBalance.Err? {
      return Attempt([], calls, Some(s.feeBalance.error));
    }
    var nativeTokenBalance := s.feeBalance.value;

    if nativeTokenBalance < messagingFee.nativeFee {
      emitter.Emit(BridgeFailedValidation(NativeFeeShortfall));
      return Attempt([BridgeFailedValidation(NativeFeeShortfall)], calls, None);
    }

    var request := SendCall(oftAdapterAddress, sendParam, messagingFee, params.fromAddress, messagingFee.nativeFee);
    calls := calls + [SimulateSend(request)];
    if s.simulation.Some? {
      return Attempt([], calls, s.simulation);
    }

    calls := calls + [WriteSend(request)];
    if s.send.Rejected? {
      emitter.Emit(UserRejectedBridge(s.send.error));
      return Attempt([UserRejectedBridge(s.send.error)], calls, None);
    }
    var hash := s.send.hash;
    emitter.Emit(UserSignedBridge(hash));

    calls := calls + [AwaitReceipt(hash)];
    if s.sendReceipt.WaitFailed? {
      emitter.Emit(BridgeFailed(s.sendReceipt.error));
      return Attempt([UserSignedBridge(hash), BridgeFailed(s.sendReceipt.error)], calls, None);
    }
    var receipt := s.sendReceipt.receipt;
    var outcome := if receipt.status == Success then BridgeTransactionSucceeded(receipt)
                   else BridgeTransactionReverted(receipt);
    emitter.Emit(outcome);
    return Attempt([UserSignedBridge(hash), outcome], calls, None);
  }

  /** The guarded (`try`) block of `runBridgeHemiToken`; `thrown` is what escapes it. */
  method TryBridge(params: BridgeParams, s: Script, viem: Helpers, emitter: Emitter)
    returns (thrown: Option<Error>, calls: seq<ChainCall>)
    modifies emitter
    ensures emitter.events == old(emitter.events) + TryBlock(params, s, viem).events
    ensures calls == TryBlock(params, s, viem).calls && thrown == TryBlock(params, s, viem).thrown
  {
    ghost var before := emitter.events;
    emitter.Emit(PreBridge);
    if params.walletChainId.None? {
      return Some(NoChainError), [];
    }
    var sourceChainId := params.walletChainId.value;
    var stage := PreflightSteps(params, sourceChainId, s, viem, emitter);
    if stage.Halt? {
      assert TryBlock(params, s, viem) == Attempt([PreBridge] + stage.events, stage.calls, stage.thrown);
      Regroup(before, [PreBridge], stage.events, []);
      assert stage.events + [] == stage.events;
      return stage.thrown, stage.calls;
    }
    var attempt := SendSteps(params, sourceChainId, stage.adapter, s, emitter);
    assert TryBlock(params, s, viem)
        == Attempt([PreBridge] + stage.events + attempt.events, stage.calls + attempt.calls, attempt.thrown);
    Regroup(before, [PreBridge], stage.events, attempt.events);
    return attempt.thrown, stage.calls + attempt.calls;
  }

  /**
   * `runBridgeHemiToken(params)(emitter)`: emits on `emitter` exactly the
   * events of `BridgeRun` and makes exactly its chain calls.
   */
  method RunBridgeHemiToken(params: BridgeParams, s: Script, viem: Helpers, emitter: Emitter)
    returns (calls: seq<ChainCall>)
    modifies emitter
    ensures emitter.events == old(emitter.events) + BridgeRun(params, s, viem).events
    ensures calls == BridgeRun(params, s, viem).calls
  {
    var validation := ValidateBridgeParams(params, viem);
    if validation.Invalid? {
      emitter.Emit(BridgeFailedValidation(validation.reason));
      return [];
    }
    ghost var before := emitter.events;
    ghost var attempt := TryBlock(params, s, viem);
    assert BridgeRun(params, s, viem) == Finally(attempt);
    var thrown;
    thrown, calls := TryBridge(params, s, viem, emitter);
    ghost var caught := if thrown.Some? then [UnexpectedError(thrown.value)] else [];
    if thrown.Some? {
      emitter.Emit(UnexpectedError(thrown.value));
    } else {
      assert emitter.events == before + attempt.events + caught;
    }
    emitter.Emit(BridgeSettled);
    Regroup(before, attempt.events, caught, [BridgeSettled]);
  }

  /** Regrouping a log that grew by three pieces. */
  lemma Regroup(before: seq<BridgeEvent>, a: seq<BridgeEvent>, b: seq<BridgeEvent>, c: seq<BridgeEvent>)
    ensures before + a + b + c == before + (a + b + c)
  {
  }

  /** The arguments `encodeBridgeSend` ABI-encodes into `send` calldata. */
  datatype SendArguments = SendArguments(sendParam: SendParam, fee: MessagingFee, refundAddress: string)

  /**
   * `encodeBridgeSend`: the destination chain is given directly, so it
   * throws exactly for a destination other than the two mainnets.
   */
  function EncodeBridgeSend(amount: int, destinationChainId: int, messagingFee: MessagingFee,
                            refundAddress: string, toAddress: string): (r: Result<SendArguments, Error>)
    ensures r.Ok? <==> IsMainnet(destinationChainId)
    ensures r.Ok? ==>
              && Ok(r.value.sendParam.dstEid) == GetLayerZeroEndpointId(destinationChainId)
              && r.value.sendParam.minAmountLD == r.value.sendParam.amountLD == amount
              && r.value.sendParam.to == ToBytes32(toAddress)
              && r.value.sendParam == BuildSendParam(amount, r.value.sendParam.dstEid, toAddress)
              && r.value.fee == messagingFee && r.value.refundAddress == refundAddress
  {
    var dstEid :- GetLayerZeroEndpointId(destinationChainId);
    Ok(SendArguments(BuildSendParam(amount, dstEid, toAddress), messagingFee, refundAddress))
  }
}
