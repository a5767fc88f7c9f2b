/**
 * What every bridge run emits and calls, over all scripts: the event trace
 * follows the grammar, the approval branch, the native-fee check, and the
 * agreement of the sent descriptor with the fee quote and with
 * `encodeBridgeSend`.
 */
module BridgeTrace {
  import opened Wrappers
  import opened Viem
  import opened ChainHelpers
  import opened BridgeTypes
  import opened Validation
  import opened PublicAdapter
  import opened WalletAdapter
  import opened TraceGrammar

  // Facts about the preflight half of the guarded block.

  /** The events a preflight may end with: nothing or a granted approval when it proceeds, an ending when it halts. */
  predicate StageShape(stage: Stage) {
    && (stage.Proceed? ==> stage.events == [] || ApprovalGranted(stage.events))
    && (stage.Halt? && stage.thrown.Some? ==> stage.events == [])
    && (stage.Halt? && stage.thrown.None? ==>
          ApprovalRefused(stage.events)
          || (|stage.events| == 1 && stage.events[0].BridgeFailedValidation?))
  }

  lemma PreflightShape(params: BridgeParams, sourceChainId: int, s: Script, viem: Helpers)
    ensures StageShape(Preflight(params, sourceChainId, s, viem))
  {
  }

  /** The preflight only reads balances and the allowance, approves and waits; it never quotes nor sends. */
  lemma PreflightCalls(params: BridgeParams, sourceChainId: int, s: Script, viem: Helpers)
    ensures var calls := Preflight(params, sourceChainId, s, viem).calls;
            forall i :: 0 <= i < |calls| ==> !calls[i].ReadQuote? && !calls[i].SimulateSend? && !calls[i].WriteSend?
  {
  }

  /** With an allowance that covers the amount the preflight neither approves nor emits approval events. */
  lemma PreflightSkipsApproval(params: BridgeParams, sourceChainId: int, s: Script, viem: Helpers)
    requires s.allowance.Ok? && s.allowance.value >= params.amount
    ensures var stage := Preflight(params, sourceChainId, s, viem);
            && (forall i :: 0 <= i < |stage.events| ==> !IsApprovalEvent(stage.events[i]))
            && (forall i :: 0 <= i < |stage.calls| ==> !stage.calls[i].ApproveToken?)
  {
  }

  /**
   * The preflight lets the run go on only on a mainnet, with the adapter the
   * lookup gave, and only when no approval was needed or the approval was
   * mined with status success.
   */
  lemma PreflightProceeds(params: BridgeParams, sourceChainId: int, s: Script, viem: Helpers)
    ensures var stage := Preflight(params, sourceChainId, s, viem);
            stage.Proceed? ==>
              && IsMainnet(sourceChainId)
              && s.adapterFor(sourceChainId) == Ok(stage.adapter)
              && (|| (s.allowance.Ok? && s.allowance.value >= params.amount)
                  || (s.approval.Signed? && s.approvalReceipt.Mined? && s.approvalReceipt.receipt.status == Success))
  {
  }

  /** What the preflight throws is the error of the adapter lookup, of the token lookup or of the allowance read. */
  lemma PreflightThrows(params: BridgeParams, sourceChainId: int, s: Script, viem: Helpers)
    ensures var stage := Preflight(params, sourceChainId, s, viem);
            stage.Halt? && stage.thrown.Some? ==>
              || s.adapterFor(sourceChainId) == Err(stage.thrown.value)
              || GetHemiTokenAddress(sourceChainId) == Err(stage.thrown.value)
              || s.allowance == Err(stage.thrown.value)
  {
  }

  // Facts about the sending half of the guarded block.

  /** The events a sending half may end with: one outcome, or nothing when it throws. */
  predicate SendShape(attempt: Attempt) {
    && (attempt.thrown.Some? ==> attempt.events == [])
    && (attempt.thrown.None? ==> SendOutcome(attempt.events))
  }

  lemma SendStageShape(params: BridgeParams, sourceChainId: int, adapter: string, s: Script)
    ensures SendShape(SendStage(params, sourceChainId, adapter, s))
  {
  }

  /** On a mainnet the sending half throws only the error of a chain interaction. */
  lemma SendStageThrows(params: BridgeParams, sourceChainId: int, adapter: string, s: Script)
    requires IsMainnet(sourceChainId)
    ensures var attempt := SendStage(params, sourceChainId, adapter, s);
            attempt.thrown.Some? ==>
              s.quote == Err(attempt.thrown.value) || s.feeBalance == Err(attempt.thrown.value)
              || s.simulation == attempt.thrown
  {
  }

  /**
   * On a mainnet the sending half first reads the quote `quoteSend` reads
   * and the native balance; it reads no other quote.
   */
  lemma SendStageQuotes(params: BridgeParams, sourceChainId: int, adapter: string, s: Script)
    requires IsMainnet(sourceChainId) && s.adapterFor(sourceChainId) == Ok(adapter)
    ensures var calls := SendStage(params, sourceChainId, adapter, s).calls;
            && |calls| >= 2
            && Ok(calls[0].read) == QuoteSend(FeeEstimationParams(params.amount, sourceChainId, params.toAddress), s.adapterFor)
            && calls[0].ReadQuote? && calls[1] == ReadNativeBalance(params.fromAddress)
            && forall i :: 1 <= i < |calls| ==> !calls[i].ReadQuote?
  {
  }

  /** Everything the sending half needs before it writes the send: the lookups, the quote, the balance and the simulation. */
  predicate ReadyToSend(sourceChainId: int, s: Script) {
    && GetTargetChainId(sourceChainId).Ok?
    && GetLayerZeroEndpointId(GetTargetChainId(sourceChainId).value).Ok?
    && s.quote.Ok? && s.feeBalance.Ok? && s.feeBalance.value >= s.quote.value.nativeFee
    && s.simulation.None?
  }

  /**
   * The calls of the sending half: when it is ready to send, the quote, the
   * native balance, the simulation and the write of one send paying the
   * quoted native fee, then at most the receipt wait; otherwise at most
   * three calls and no write.
   */
  lemma SendStageCallSequence(params: BridgeParams, sourceChainId: int, adapter: string, s: Script)
    ensures var calls := SendStage(params, sourceChainId, adapter, s).calls;
            ReadyToSend(sourceChainId, s) ==>
              var dstEid := GetLayerZeroEndpointId(GetTargetChainId(sourceChainId).value).value;
              var sendParam := BuildSendParam(params.amount, dstEid, params.toAddress);
              var call := SendCall(adapter, sendParam, s.quote.value, params.fromAddress, s.quote.value.nativeFee);
              && 4 <= |calls| <= 5
              && calls[..4] == [ReadQuote(QuoteRead(adapter, sendParam, false)), ReadNativeBalance(params.fromAddress),
                                SimulateSend(call), WriteSend(call)]
              && (|calls| == 5 ==> calls[4].AwaitReceipt?)
    ensures var calls := SendStage(params, sourceChainId, adapter, s).calls;
            !ReadyToSend(sourceChainId, s) ==> |calls| <= 3 && (|calls| == 3 ==> calls[2].SimulateSend?)
  {
  }

  /**
   * The sending half writes at most one send, as its fourth call, right
   * after simulating that same send, paying the quoted native fee from a
   * balance that covers it, with the descriptor of the quote.
   */
  lemma SendStageWrites(params: BridgeParams, sourceChainId: int, adapter: string, s: Script)
    ensures var calls := SendStage(params, sourceChainId, adapter, s).calls;
            forall i :: 0 <= i < |calls| && calls[i].WriteSend? ==>
              var call := calls[i].call;
              && i == 3 && calls[2] == SimulateSend(call) && calls[0] == ReadQuote(QuoteRead(adapter, call.sendParam, false))
              && s.quote == Ok(call.fee) && call.value == call.fee.nativeFee
              && s.feeBalance.Ok? && s.feeBalance.value >= call.fee.nativeFee
              && call.refundAddress == params.fromAddress && call.adapter == adapter
              && GetTargetChainId(sourceChainId).Ok?
              && Ok(call.sendParam.dstEid) == GetLayerZeroEndpointId(GetTargetChainId(sourceChainId).value)
              && call.sendParam == BuildSendParam(params.amount, call.sendParam.dstEid, params.toAddress)
  {
    var calls := SendStage(params, sourceChainId, adapter, s).calls;
    SendStageCallSequence(params, sourceChainId, adapter, s);
    forall i | 0 <= i < |calls| && calls[i].WriteSend?
      ensures ReadyToSend(sourceChainId, s) && i == 3
    {
      if !ReadyToSend(sourceChainId, s) {
        assert false;
      }
      assert calls[i] == calls[..4][i] || i == 4;
    }
  }

  /** A native balance below the quoted fee ends the sending half with the shortfall report, before any simulation. */
  lemma SendStageShortfall(params: BridgeParams, sourceChainId: int, adapter: string, s: Script)
    requires s.quote.Ok? && s.feeBalance.Ok? && s.feeBalance.value < s.quote.value.nativeFee
    ensures var attempt := SendStage(params, sourceChainId, adapter, s);
            |attempt.calls| > 0 ==>
              && attempt == Attempt([BridgeFailedValidation(NativeFeeShortfall)], attempt.calls, None)
              && |attempt.calls| == 2
  {
  }

  // The guarded block.

  /** What the guarded block emits after `pre-bridge` when nothing escapes it. */
  predicate GuardedBody(b: seq<BridgeEvent>) {
    || ApprovalRefused(b)
    || SendOutcome(b)
    || (|b| >= 3 && ApprovalGranted(b[..3]) && SendOutcome(b[3..]))
  }

  /** The guarded block's events: `pre-bridge`, then a body, or the start of one when it threw. */
  predicate GuardedShape(a: Attempt) {
    && |a.events| >= 1 && a.events[0] == PreBridge
    && (a.thrown.None? ==> GuardedBody(a.events[1..]))
    && (a.thrown.Some? ==> a.events[1..] == [] || ApprovalGranted(a.events[1..]))
  }

  /** The guarded block itself never emits `unexpected-error`. */
  lemma GuardedReportsNoThrow(a: Attempt)
    requires GuardedShape(a)
    ensures forall i :: 0 <= i < |a.events| ==> !a.events[i].UnexpectedError?
  {
    var b := a.events[1..];
    assert forall i :: 0 < i < |a.events| ==> a.events[i] == b[i - 1];
    if |b| >= 3 && ApprovalGranted(b[..3]) {
      assert forall i :: 0 <= i < |b| ==> b[i] == if i < 3 then b[..3][i] else b[3..][i - 3];
    }
  }

  /** A halting preflight makes a guarded block of the right shape. */
  lemma HaltedShape(stage: Stage)
    requires stage.Halt? && StageShape(stage)
    ensures GuardedShape(Attempt([PreBridge] + stage.events, stage.calls, stage.thrown))
  {
    var events := [PreBridge] + stage.events;
    assert events[1..] == stage.events;
  }

  /** A preflight that proceeds, then a sending half, make a guarded block of the right shape. */
  lemma ProceededShape(stage: Stage, send: Attempt)
    requires stage.Proceed? && StageShape(stage) && SendShape(send)
    ensures GuardedShape(Attempt([PreBridge] + stage.events + send.events, stage.calls + send.calls, send.thrown))
  {
    var events := [PreBridge] + stage.events + send.events;
    var body := stage.events + send.events;
    assert events[1..] == body;
    if stage.events != [] {
      assert body[..3] == stage.events && body[3..] == send.events;
    } else {
      assert body == send.events;
    }
  }

  lemma TryBlockShape(params: BridgeParams, s: Script, viem: Helpers)
    ensures GuardedShape(TryBlock(params, s, viem))
  {
    if params.walletChainId.Some? {
      var source := params.walletChainId.value;
      var stage := Preflight(params, source, s, viem);
      PreflightShape(params, source, s, viem);
      if stage.Halt? {
        HaltedShape(stage);
      } else {
        SendStageShape(params, source, stage.adapter, s);
        ProceededShape(stage, SendStage(params, source, stage.adapter, s));
      }
    } else {
      assert TryBlock(params, s, viem).events == [PreBridge];
    }
  }

  /** Whatever the guarded block did, the `catch` and `finally` blocks make a well-formed trace of it. */
  lemma FinallyIsWellFormed(a: Attempt)
    requires GuardedShape(a)
    ensures WellFormedRun(Finally(a).events)
  {
    var t := Finally(a).events;
    var body := a.events[1..];
    var caught := if a.thrown.Some? then [UnexpectedError(a.thrown.value)] else [];
    assert t == a.events + caught + [BridgeSettled];
    assert t[1..|t| - 1] == body + caught;
    if a.thrown.Some? {
      if body == [] {
        assert body + caught == caught;
      } else {
        assert (body + caught)[..3] == body && (body + caught)[3..] == caught;
      }
    } else {
      assert body + caught == body;
    }
  }

  /** The only `unexpected-error` of a run is the one the `catch` block reports for what the guarded block threw. */
  lemma FinallyReportsThrow(a: Attempt, i: nat)
    requires GuardedShape(a)
    requires i < |Finally(a).events| && Finally(a).events[i].UnexpectedError?
    ensures a.thrown == Some(Finally(a).events[i].error)
  {
    var caught := if a.thrown.Some? then [UnexpectedError(a.thrown.value)] else [];
    var t := Finally(a).events;
    assert t == a.events + caught + [BridgeSettled];
    GuardedReportsNoThrow(a);
    if i < |a.events| {
      assert false;
    }
  }

  /** After validation the guarded block throws only the error of a chain interaction or of the adapter lookup. */
  lemma TryBlockThrows(params: BridgeParams, s: Script, viem: Helpers)
    requires ValidateBridgeParams(params, viem) == Valid
    ensures var a := TryBlock(params, s, viem);
            a.thrown.Some? ==>
              || s.adapterFor(params.walletChainId.value) == Err(a.thrown.value)
              || s.allowance == Err(a.thrown.value) || s.quote == Err(a.thrown.value)
              || s.feeBalance == Err(a.thrown.value) || s.simulation == a.thrown
  {
    ValidParamsResolve(params, viem);
    var source := params.walletChainId.value;
    var stage := Preflight(params, source, s, viem);
    PreflightThrows(params, source, s, viem);
    if stage.Proceed? {
      PreflightProceeds(params, source, s, viem);
      SendStageThrows(params, source, stage.adapter, s);
    }
  }

  // Whole runs.

  /** Every run, for every script, has a well-formed event trace. */
  lemma BridgeRunIsWellFormed(params: BridgeParams, s: Script, viem: Helpers)
    ensures WellFormedRun(BridgeRun(params, s, viem).events)
  {
    if ValidateBridgeParams(params, viem) == Valid {
      TryBlockShape(params, s, viem);
      FinallyIsWellFormed(TryBlock(params, s, viem));
    }
  }

  /**
   * `bridge-settled` is emitted exactly once, last, on every run that passes
   * validation, right after the run's single terminal event; a run that
   * fails validation emits its one terminal event and no `bridge-settled`.
   */
  lemma SettledOnceAfterOneTerminal(params: BridgeParams, s: Script, viem: Helpers)
    ensures var t := BridgeRun(params, s, viem).events;
            && |Terminals(t)| == 1
            && (ValidateBridgeParams(params, viem) == Valid ==>
                  && t[0] == PreBridge && t[|t| - 1] == BridgeSettled && IsTerminal(t[|t| - 2])
                  && forall i :: 0 < i < |t| - 1 ==> !t[i].PreBridge? && !t[i].BridgeSettled?)
            && (ValidateBridgeParams(params, viem).Invalid? ==> |t| == 1 && !t[0].BridgeSettled?)
  {
    BridgeRunIsWellFormed(params, s, viem);
    WellFormedRunHasOneTerminal(BridgeRun(params, s, viem).events);
  }

  /**
   * Approval events of a run follow `pre-bridge` immediately and in order;
   * a refused, failed or reverted approval is the whole body of the run.
   */
  lemma ApprovalEventsInOrder(params: BridgeParams, s: Script, viem: Helpers, k: nat)
    requires k < |BridgeRun(params, s, viem).events| && IsApprovalEvent(BridgeRun(params, s, viem).events[k])
    ensures var t := BridgeRun(params, s, viem).events;
            |t| >= 4 && t[1] == PreApprove && (ApprovalRefused(t[1..|t| - 1]) || ApprovalGranted(t[1..4]))
  {
    BridgeRunIsWellFormed(params, s, viem);
    ApprovalEventsFollowPreBridge(BridgeRun(params, s, viem).events, k);
  }

  /** An `unexpected-error` of a run carries the error of a chain interaction or of the adapter lookup. */
  lemma UnexpectedErrorsComeFromOutside(params: BridgeParams, s: Script, viem: Helpers, i: nat)
    requires i < |BridgeRun(params, s, viem).events| && BridgeRun(params, s, viem).events[i].UnexpectedError?
    ensures var e := BridgeRun(params, s, viem).events[i].error;
            && params.walletChainId.Some?
            && (|| s.adapterFor(params.walletChainId.value) == Err(e)
                || s.allowance == Err(e) || s.quote == Err(e) || s.feeBalance == Err(e)
                || s.simulation == Some(e))
  {
    assert ValidateBridgeParams(params, viem) == Valid;
    TryBlockShape(params, s, viem);
    FinallyReportsThrow(TryBlock(params, s, viem), i);
    TryBlockThrows(params, s, viem);
  }

  /** Under valid parameters a run is its guarded block followed by the `catch` and `finally` blocks. */
  lemma RunIsFinallyOfTry(params: BridgeParams, s: Script, viem: Helpers)
    requires ValidateBridgeParams(params, viem) == Valid
    ensures BridgeRun(params, s, viem) == Finally(TryBlock(params, s, viem))
  {
  }

  /** No call reads the allowance or approves. */
  predicate LeavesAllowanceAlone(calls: seq<ChainCall>) {
    forall c :: c in calls ==> !c.ApproveToken? && !c.ReadAllowance?
  }

  /** The sending half never reads the allowance nor approves. */
  lemma SendStageCalls(params: BridgeParams, sourceChainId: int, adapter: string, s: Script)
    ensures LeavesAllowanceAlone(SendStage(params, sourceChainId, adapter, s).calls)
  {
  }

  /** With an allowance that covers the amount the guarded block neither approves nor emits approval events. */
  lemma TryBlockSkipsApproval(params: BridgeParams, s: Script, viem: Helpers)
    requires s.allowance.Ok? && s.allowance.value >= params.amount
    ensures var a := TryBlock(params, s, viem);
            && (forall i :: 0 <= i < |a.events| ==> !IsApprovalEvent(a.events[i]))
            && (forall i :: 0 <= i < |a.calls| ==> !a.calls[i].ApproveToken?)
  {
    if params.walletChainId.Some? {
      var source := params.walletChainId.value;
      var stage := Preflight(params, source, s, viem);
      PreflightSkipsApproval(params, source, s, viem);
      if stage.Proceed? {
        var send := SendStage(params, source, stage.adapter, s);
        SendStageShape(params, source, stage.adapter, s);
        SendStageCalls(params, source, stage.adapter, s);
        if send.thrown.None? {
          OutcomeHasNoApproval(send.events);
        }
      }
    }
  }

  /** The `catch` and `finally` blocks add no approval event and no call. */
  lemma FinallyAddsNoApproval(a: Attempt)
    requires forall i :: 0 <= i < |a.events| ==> !IsApprovalEvent(a.events[i])
    ensures forall i :: 0 <= i < |Finally(a).events| ==> !IsApprovalEvent(Finally(a).events[i])
  {
    var caught := if a.thrown.Some? then [UnexpectedError(a.thrown.value)] else [];
    assert Finally(a).events == a.events + caught + [BridgeSettled];
  }

  /** When the allowance already covers the amount there is no approval: no approval event, no approve call. */
  lemma NoApprovalWhenAllowanceCovers(params: BridgeParams, s: Script, viem: Helpers)
    requires s.allowance.Ok? && s.allowance.value >= params.amount
    ensures var r := BridgeRun(params, s, viem);
            && (forall i :: 0 <= i < |r.events| ==> !IsApprovalEvent(r.events[i]))
            && (forall i :: 0 <= i < |r.calls| ==> !r.calls[i].ApproveToken?)
  {
    if ValidateBridgeParams(params, viem) == Valid {
      RunIsFinallyOfTry(params, s, viem);
      TryBlockSkipsApproval(params, s, viem);
      FinallyAddsNoApproval(TryBlock(params, s, viem));
    }
  }

  /**
   * The guarded block quotes, simulates or sends only after a preflight
   * that proceeds on a mainnet with the adapter the lookup gave, so only
   * after no approval was needed or the approval was mined with status
   * success; those calls belong to the sending half.
   */
  lemma TryBlockReachesSend(params: BridgeParams, s: Script, viem: Helpers, k: nat)
    requires k < |TryBlock(params, s, viem).calls|
    requires TryBlock(params, s, viem).calls[k].ReadQuote? || TryBlock(params, s, viem).calls[k].SimulateSend?
             || TryBlock(params, s, viem).calls[k].WriteSend?
    ensures params.walletChainId.Some?
    ensures var source := params.walletChainId.value;
            var stage := Preflight(params, source, s, viem);
            && stage.Proceed? && IsMainnet(source) && s.adapterFor(source) == Ok(stage.adapter)
            && TryBlock(params, s, viem).calls == stage.calls + SendStage(params, source, stage.adapter, s).calls
            && k >= |stage.calls|
    ensures || (s.allowance.Ok? && s.allowance.value >= params.amount)
            || (s.approval.Signed? && s.approvalReceipt.Mined? && s.approvalReceipt.receipt.status == Success)
  {
    var source := params.walletChainId.value;
    var stage := Preflight(params, source, s, viem);
    PreflightCalls(params, source, s, viem);
    PreflightProceeds(params, source, s, viem);
  }

  /** The run asks for the fee quote only after no approval was needed or the approval was mined with status success. */
  lemma QuoteOnlyAfterGrantedApproval(params: BridgeParams, s: Script, viem: Helpers, k: nat)
    requires k < |BridgeRun(params, s, viem).calls| && BridgeRun(params, s, viem).calls[k].ReadQuote?
    ensures || (s.allowance.Ok? && s.allowance.value >= params.amount)
            || (s.approval.Signed? && s.approvalReceipt.Mined? && s.approvalReceipt.receipt.status == Success)
  {
    assert ValidateBridgeParams(params, viem) == Valid;
    RunIsFinallyOfTry(params, s, viem);
    TryBlockReachesSend(params, s, viem, k);
  }

  /**
   * Once the guarded block has the fee quote, a native balance below the
   * quoted native fee ends it with the shortfall report, nothing thrown,
   * and no simulation nor send.
   */
  lemma TryBlockShortfall(params: BridgeParams, s: Script, viem: Helpers, k: nat)
    requires k < |TryBlock(params, s, viem).calls| && TryBlock(params, s, viem).calls[k].ReadQuote?
    requires s.quote.Ok? && s.feeBalance.Ok? && s.feeBalance.value < s.quote.value.nativeFee
    ensures var a := TryBlock(params, s, viem);
            && a.thrown.None? && |a.events| >= 2
            && a.events[|a.events| - 1] == BridgeFailedValidation(NativeFeeShortfall)
            && forall i :: 0 <= i < |a.calls| ==> !a.calls[i].SimulateSend? && !a.calls[i].WriteSend?
  {
    TryBlockReachesSend(params, s, viem, k);
    var source := params.walletChainId.value;
    var stage := Preflight(params, source, s, viem);
    PreflightCalls(params, source, s, viem);
    SendStageShortfall(params, source, stage.adapter, s);
    SendStageQuotes(params, source, stage.adapter, s);
  }

  /**
   * A run that ends with the shortfall report right before `bridge-settled`
   * and never simulates nor writes the send.
   */
  predicate EndsWithShortfall(r: Run) {
    && |r.events| >= 3
    && r.events[|r.events| - 2] == BridgeFailedValidation(NativeFeeShortfall)
    && r.events[|r.events| - 1] == BridgeSettled
    && forall i :: 0 <= i < |r.calls| ==> !r.calls[i].SimulateSend? && !r.calls[i].WriteSend?
  }

  /**
   * Once the run has the fee quote, a native balance below the quoted
   * native fee ends it with the shortfall report right before
   * `bridge-settled`; it never simulates nor writes the send.
   */
  lemma NativeFeeShortfallStopsSend(params: BridgeParams, s: Script, viem: Helpers, k: nat)
    requires k < |BridgeRun(params, s, viem).calls| && BridgeRun(params, s, viem).calls[k].ReadQuote?
    requires s.quote.Ok? && s.feeBalance.Ok? && s.feeBalance.value < s.quote.value.nativeFee
    ensures EndsWithShortfall(BridgeRun(params, s, viem))
  {
    var a := TryBlock(params, s, viem);
    var r := BridgeRun(params, s, viem);
    assert r == Finally(a) by {
      assert ValidateBridgeParams(params, viem) == Valid;
      RunIsFinallyOfTry(params, s, viem);
    }
    TryBlockShortfall(params, s, viem, k);
    ShortfallSettles(a, r);
  }

  /** Closing a quiet guarded block that ended with the shortfall report and made no simulation nor send. */
  lemma ShortfallSettles(a: Attempt, r: Run)
    requires r == Finally(a) && a.thrown.None? && |a.events| >= 2
    requires a.events[|a.events| - 1] == BridgeFailedValidation(NativeFeeShortfall)
    requires forall i :: 0 <= i < |a.calls| ==> !a.calls[i].SimulateSend? && !a.calls[i].WriteSend?
    ensures EndsWithShortfall(r)
  {
    assert r.events == a.events + [BridgeSettled];
  }

  /** In the guarded block, the same facts about a written send as in `SendUsesQuotedFee`. */
  lemma TryBlockUsesQuotedFee(params: BridgeParams, s: Script, viem: Helpers, k: nat)
    requires k < |TryBlock(params, s, viem).calls| && TryBlock(params, s, viem).calls[k].WriteSend?
    ensures var calls := TryBlock(params, s, viem).calls;
            var call := calls[k].call;
            && k >= 3 && calls[k - 1] == SimulateSend(call)
            && calls[k - 3] == ReadQuote(QuoteRead(call.adapter, call.sendParam, false))
            && s.quote == Ok(call.fee) && call.value == call.fee.nativeFee
            && s.feeBalance.Ok? && s.feeBalance.value >= call.fee.nativeFee
            && call.refundAddress == params.fromAddress
            && params.walletChainId.Some? && s.adapterFor(params.walletChainId.value) == Ok(call.adapter)
            && GetTargetChainId(params.walletChainId.value).Ok?
            && Ok(call.sendParam.dstEid) == GetLayerZeroEndpointId(GetTargetChainId(params.walletChainId.value).value)
            && call.sendParam == BuildSendParam(params.amount, call.sendParam.dstEid, params.toAddress)
  {
    TryBlockReachesSend(params, s, viem, k);
    var source := params.walletChainId.value;
    var stage := Preflight(params, source, s, viem);
    var sendCalls := SendStage(params, source, stage.adapter, s).calls;
    SendStageWrites(params, source, stage.adapter, s);
    var j := k - |stage.calls|;
    assert sendCalls[j] == TryBlock(params, s, viem).calls[k];
    assert sendCalls[j - 1] == TryBlock(params, s, viem).calls[k - 1];
    assert sendCalls[j - 3] == TryBlock(params, s, viem).calls[k - 3];
  }

  /**
   * The send a run writes is the one it simulated just before, for the
   * descriptor it quoted: it pays the quoted native fee from a balance that
   * covers it, refunds to the sender, and targets the endpoint of the
   * destination chain with `minAmountLD == amountLD == amount`.
   */
  lemma SendUsesQuotedFee(params: BridgeParams, s: Script, viem: Helpers, k: nat)
    requires k < |BridgeRun(params, s, viem).calls| && BridgeRun(params, s, viem).calls[k].WriteSend?
    ensures var calls := BridgeRun(params, s, viem).calls;
            var call := calls[k].call;
            && k >= 3 && calls[k - 1] == SimulateSend(call)
            && calls[k - 3] == ReadQuote(QuoteRead(call.adapter, call.sendParam, false))
            && s.quote == Ok(call.fee) && call.value == call.fee.nativeFee
            && s.feeBalance.Ok? && s.feeBalance.value >= call.fee.nativeFee
            && call.refundAddress == params.fromAddress
            && params.walletChainId.Some? && s.adapterFor(params.walletChainId.value) == Ok(call.adapter)
            && GetTargetChainId(params.walletChainId.value).Ok?
            && Ok(call.sendParam.dstEid) == GetLayerZeroEndpointId(GetTargetChainId(params.walletChainId.value).value)
            && call.sendParam == BuildSendParam(params.amount, call.sendParam.dstEid, params.toAddress)
  {
    assert ValidateBridgeParams(params, viem) == Valid;
    RunIsFinallyOfTry(params, s, viem);
    TryBlockUsesQuotedFee(params, s, viem, k);
  }

  /** The fee quote a run reads is the read `quoteSend` makes for the same amount, chain and recipient. */
  lemma RunQuoteIsQuoteSend(params: BridgeParams, s: Script, viem: Helpers, k: nat)
    requires k < |BridgeRun(params, s, viem).calls| && BridgeRun(params, s, viem).calls[k].ReadQuote?
    ensures params.walletChainId.Some?
    ensures QuoteSend(FeeEstimationParams(params.amount, params.walletChainId.value, params.toAddress), s.adapterFor)
            == Ok(BridgeRun(params, s, viem).calls[k].read)
  {
    assert ValidateBridgeParams(params, viem) == Valid;
    RunIsFinallyOfTry(params, s, viem);
    TryBlockReachesSend(params, s, viem, k);
    var source := params.walletChainId.value;
    var stage := Preflight(params, source, s, viem);
    SendStageQuotes(params, source, stage.adapter, s);
    var sendCalls := SendStage(params, source, stage.adapter, s).calls;
    assert sendCalls[k - |stage.calls|] == BridgeRun(params, s, viem).calls[k];
  }

  /** The send a run writes has exactly the arguments `encodeBridgeSend` encodes for the destination chain. */
  lemma RunSendIsEncodedSend(params: BridgeParams, s: Script, viem: Helpers, k: nat)
    requires k < |BridgeRun(params, s, viem).calls| && BridgeRun(params, s, viem).calls[k].WriteSend?
    ensures params.walletChainId.Some?
    ensures var call := BridgeRun(params, s, viem).calls[k].call;
            EncodeBridgeSend(params.amount, GetTargetChainId(params.walletChainId.value).value,
                             call.fee, params.fromAddress, params.toAddress)
            == Ok(SendArguments(call.sendParam, call.fee, call.refundAddress))
  {
    SendUsesQuotedFee(params, s, viem, k);
  }

  // Scenarios.

  /** A zero amount is reported alone, with no chain call and no `bridge-settled`. */
  lemma ZeroAmountScenario(params: BridgeParams, s: Script, viem: Helpers)
    requires params.amount == 0
    ensures BridgeRun(params, s, viem) == Run([BridgeFailedValidation("Amount must be greater than zero")], [])
  {
  }

  /**
   * A mainnet run with an adapter, balances that suffice, an allowance
   * below the amount and an approval that is signed and mined with status
   * success.
   */
  predicate FundedAndApproved(params: BridgeParams, sourceChainId: int, s: Script) {
    && IsMainnet(sourceChainId) && s.adapterFor(sourceChainId).Ok?
    && s.tokenBalance.Ok? && s.tokenBalance.value >= params.amount
    && s.gasBalance.Ok? && s.gasBalance.value > 0
    && s.allowance.Ok? && s.allowance.value < params.amount
    && s.approval.Signed? && s.approvalReceipt.Mined? && s.approvalReceipt.receipt.status == Success
  }

  /** The preflight of a run that is funded and whose approval is granted. */
  lemma GrantedPreflight(params: BridgeParams, sourceChainId: int, s: Script, viem: Helpers)
    requires FundedAndApproved(params, sourceChainId, s)
    ensures var stage := Preflight(params, sourceChainId, s, viem);
            && stage.Proceed?
            && stage.events == [PreApprove, UserSignedTokenApproval(s.approval.hash),
                                TokenApprovalSucceeded(s.approvalReceipt.receipt)]
  {
  }

  /** The sending half of a run that is ready to send and whose send is signed and mined with status success. */
  lemma SucceedingSend(params: BridgeParams, sourceChainId: int, adapter: string, s: Script)
    requires ReadyToSend(sourceChainId, s)
    requires s.send.Signed? && s.sendReceipt.Mined? && s.sendReceipt.receipt.status == Success
    ensures var send := SendStage(params, sourceChainId, adapter, s);
            && send.thrown.None?
            && send.events == [UserSignedBridge(s.send.hash), BridgeTransactionSucceeded(s.sendReceipt.receipt)]
  {
  }

  /** The sending half on a mainnet when the native balance is below the quoted fee. */
  lemma ShortSend(params: BridgeParams, sourceChainId: int, adapter: string, s: Script)
    requires IsMainnet(sourceChainId)
    requires s.quote.Ok? && s.feeBalance.Ok? && s.feeBalance.value < s.quote.value.nativeFee
    ensures var send := SendStage(params, sourceChainId, adapter, s);
            send.thrown.None? && send.events == [BridgeFailedValidation(NativeFeeShortfall)]
  {
  }

  /** When nothing was thrown, the run's events are the guarded block's events and `bridge-settled`. */
  lemma QuietRun(params: BridgeParams, s: Script, viem: Helpers)
    requires ValidateBridgeParams(params, viem) == Valid
    requires TryBlock(params, s, viem).thrown.None?
    ensures BridgeRun(params, s, viem).events == TryBlock(params, s, viem).events + [BridgeSettled]
  {
    RunIsFinallyOfTry(params, s, viem);
  }

  /** The guarded block of a funded run whose approval is granted and whose preflight proceeds. */
  lemma GrantedTryBlock(params: BridgeParams, s: Script, viem: Helpers)
    requires params.walletChainId.Some? && FundedAndApproved(params, params.walletChainId.value, s)
    ensures var source := params.walletChainId.value;
            var stage := Preflight(params, source, s, viem);
            var send := SendStage(params, source, stage.adapter, s);
            && TryBlock(params, s, viem).events
               == [PreBridge] + [PreApprove, UserSignedTokenApproval(s.approval.hash),
                   TokenApprovalSucceeded(s.approvalReceipt.receipt)] + send.events
            && TryBlock(params, s, viem).thrown == send.thrown
  {
    var source := params.walletChainId.value;
    GrantedPreflight(params, source, s, viem);
  }

  /** Closing a quiet guarded block whose approval was granted and whose send reported two events. */
  lemma SettledAfterFive(t: seq<BridgeEvent>, u: seq<BridgeEvent>, a: BridgeEvent, b: BridgeEvent, c: BridgeEvent,
                         d: BridgeEvent, e: BridgeEvent)
    requires t == u + [BridgeSettled] && u == [PreBridge] + [a, b, c] + [d, e]
    ensures t == [PreBridge, a, b, c, d, e, BridgeSettled]
  {
  }

  /** Closing a quiet guarded block whose approval was granted and whose send reported one event. */
  lemma SettledAfterFour(t: seq<BridgeEvent>, u: seq<BridgeEvent>, a: BridgeEvent, b: BridgeEvent, c: BridgeEvent,
                         d: BridgeEvent)
    requires t == u + [BridgeSettled] && u == [PreBridge] + [a, b, c] + [d]
    ensures t == [PreBridge, a, b, c, d, BridgeSettled]
  {
  }

  /**
   * The happy path with an approval: the exact event sequence of a run
   * whose approval and send are both signed and mined with status success.
   */
  lemma ApproveAndSendScenario(params: BridgeParams, s: Script, viem: Helpers)
    requires ValidateBridgeParams(params, viem) == Valid
    requires FundedAndApproved(params, params.walletChainId.value, s)
    requires ReadyToSend(params.walletChainId.value, s)
    requires s.send.Signed? && s.sendReceipt.Mined? && s.sendReceipt.receipt.status == Success
    ensures BridgeRun(params, s, viem).events == [
              PreBridge, PreApprove, UserSignedTokenApproval(s.approval.hash),
              TokenApprovalSucceeded(s.approvalReceipt.receipt),
              UserSignedBridge(s.send.hash), BridgeTransactionSucceeded(s.sendReceipt.receipt), BridgeSettled]
  {
    var source := params.walletChainId.value;
    GrantedTryBlock(params, s, viem);
    var send := SendStage(params, source, Preflight(params, source, s, viem).adapter, s);
    SucceedingSend(params, source, Preflight(params, source, s, viem).adapter, s);
    QuietRun(params, s, viem);
    SettledAfterFive(BridgeRun(params, s, viem).events, TryBlock(params, s, viem).events,
                     PreApprove, UserSignedTokenApproval(s.approval.hash), TokenApprovalSucceeded(s.approvalReceipt.receipt),
                     UserSignedBridge(s.send.hash), BridgeTransactionSucceeded(s.sendReceipt.receipt));
  }

  /**
   * A successful approval followed by a native balance below the quoted
   * fee: the run ends with the shortfall report and never writes the send.
   */
  lemma FeeShortfallAfterApprovalScenario(params: BridgeParams, s: Script, viem: Helpers)
    requires ValidateBridgeParams(params, viem) == Valid
    requires FundedAndApproved(params, params.walletChainId.value, s)
    requires s.quote.Ok? && s.feeBalance.Ok? && s.feeBalance.value < s.quote.value.nativeFee
    ensures BridgeRun(params, s, viem).events == [
              PreBridge, PreApprove, UserSignedTokenApproval(s.approval.hash),
              TokenApprovalSucceeded(s.approvalReceipt.receipt),
              BridgeFailedValidation(NativeFeeShortfall), BridgeSettled]
  {
    var source := params.walletChainId.value;
    GrantedTryBlock(params, s, viem);
    var send := SendStage(params, source, Preflight(params, source, s, viem).adapter, s);
    ShortSend(params, source, Preflight(params, source, s, viem).adapter, s);
    QuietRun(params, s, viem);
    SettledAfterFour(BridgeRun(params, s, viem).events, TryBlock(params, s, viem).events,
                     PreApprove, UserSignedTokenApproval(s.approval.hash), TokenApprovalSucceeded(s.approvalReceipt.receipt),
                     BridgeFailedValidation(NativeFeeShortfall));
  }
}
