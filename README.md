# bsc-hemi-bridge in Dafny

A model of the non-UI core of the bsc-hemi-bridge repository. That core moves the HEMI token between the Hemi network and BNB Smart Chain through a LayerZero OFT adapter. The model covers these parts:

- **The bridge run** (`runBridgeHemiToken`) and its balance check (`checkUserBalance`).
  - The run validates its parameters, checks the balances and reads the allowance.
  - When needed it approves the adapter, then waits for the approval receipt.
  - It quotes the LayerZero fee and checks that the native balance covers it.
  - It then simulates the send, writes it and waits for the bridge receipt.
  - Every milestone is reported on an event emitter.
- **The parameter validator** (`validateBridgeParams` and its rules).
- **The chain tables.**
  - `getTargetChainId` pairs bsc with hemi and bscTestnet with hemiSepolia.
  - `getLayerZeroEndpointId` knows only the two mainnets.
- **The send descriptor.** The adapter's `SendParam` is built by the fee quote (`quoteSend`), by the run and by `encodeBridgeSend`.
- **The event alphabet**, `BridgeParams` and the HEMI token address table.
- **The website's form reducer** (`useBridgeState`).
- **The website's token helpers**: `getToken`, `getTokenPrice`, and the decimal truncation in `parseTokenUnits`.

Modules:

- `Wrappers`, `Strings`: Option/Result and the JavaScript string operations the code uses.
- `Viem`: viem's pure helpers, passed in as function parameters.
- `ChainHelpers`, `BridgeTypes`, `Validation`, `PublicAdapter`: the pure parts.
- `WalletAdapter`: the run.
  - The function `BridgeRun` gives the run's event trace and chain calls for a scripted chain.
  - The imperative `RunBridgeHemiToken` emits on an `Emitter` object, with its early returns and its `try`/`catch`/`finally`. It is proved to emit exactly the events of `BridgeRun` and make exactly its calls.
- `TraceGrammar`: the grammar a run's trace follows.
- `BridgeTrace`: the properties of every run, for every script.
- `BridgeState`: the website's form reducer.
- `TokenUtils`: the website's token helpers.

Every chain or wallet interaction is an input. A `Script` datatype says how each call settles: a value, an error, a rejected signature, a failed wait, or a receipt with its status. The run also returns the list of calls it made, so statements such as "never writes the send" are about that list.

Where the code and its prose description differ, the model follows the code:

- A validation failure is reported before the `try` block. No `bridge-settled` follows it.
- The fee quote and the native-fee check run whether or not an approval was needed.
- The native-fee failure message is kept verbatim, including its cut-short last word ("Layer Zero fe").

## Model

| member | source | states |
|---|---|---|
| ChainHelpers.GetLayerZeroEndpointId | packages/bsc-hemi-bridge/utils/chainHelpers.ts:6-18 | resolves exactly for the two mainnets, bsc to 30102 and hemi to 30329; every other chain, testnets included, throws "Unsupported destination chainId …" |
| ChainHelpers.GetTargetChainId | packages/bsc-hemi-bridge/utils/chainHelpers.ts:20-32 | defined on exactly the four networks; the target maps back to the source, differs from it, and stays on the same side (mainnet or testnet); unknown ids throw "Unsupported source chain ID: …" |
| ChainHelpers.TargetChainIdIsInvolution | packages/bsc-hemi-bridge/utils/chainHelpers.ts:21-26 | applying the pairing twice gives back every supported chain |
| ChainHelpers.DestinationEndpointResolves | packages/bsc-hemi-bridge/utils/chainHelpers.ts:9-26 | the endpoint of a chain's target resolves if and only if the chain is a mainnet; for a testnet the target resolves but its endpoint lookup throws |
| BridgeTypes.BridgeEvent.Name | packages/bsc-hemi-bridge/types/bridge.ts:8-24 | every event's name is one of the fifteen keys of the event table, and the table gives it that event's payload kind |
| BridgeTypes.NameIdentifiesEvent | packages/bsc-hemi-bridge/types/bridge.ts:8-24 | two events with the same name are the same one of the fifteen events (for every event, one is that event if and only if the other is) and carry the same payload kind, so the fifteen events have fifteen distinct names |
| BridgeTypes.EventTableSize | packages/bsc-hemi-bridge/types/bridge.ts:8-24 | the event table has exactly fifteen entries |
| Validation.ValidateAddress | packages/bsc-hemi-bridge/utils/validation.ts:11-21 | valid if and only if the value is a string that viem accepts as an address and is not the zero address; a non-string or malformed value gets "Invalid address format", and the zero address gets "Address cannot be zero address" |
| Validation.ValidateAmount | packages/bsc-hemi-bridge/utils/validation.ts:24-30 | valid if and only if the amount is positive; otherwise "Amount must be greater than zero" |
| Validation.ValidateChainId | packages/bsc-hemi-bridge/utils/validation.ts:33-49 | valid if and only if a chain id is present and is hemi or bsc; a missing id gets "Chain ID is required" and any other id, testnets included, gets "Chain ID X is not supported." |
| Validation.GetHemiTokenAddress | packages/bsc-hemi-bridge/utils/validation.ts:52-58 | succeeds exactly on the two mainnets, with the token table's address; elsewhere it throws "HEMI token not available for chain …" |
| Validation.ValidateBridgeParams | packages/bsc-hemi-bridge/utils/validation.ts:61-93 | valid if and only if all four rules pass; a non-positive amount is reported before anything else; a from-address failure carries the "From address: " prefix |
| Validation.FirstFailure | packages/bsc-hemi-bridge/utils/validation.ts:61-93 | reference semantics of an ordered rule list: valid if and only if every rule is valid, and otherwise the failure of a rule that every earlier rule passed, that is, the first failing rule's result unchanged |
| Validation.ValidationIsFirstFailure | packages/bsc-hemi-bridge/utils/validation.ts:61-93 | the validator is first-failure-wins over amount, chain, from address and to address, in that order, with the address failures prefixed "From address: " and "To address: " |
| Validation.ValidParamsResolve | packages/bsc-hemi-bridge/utils/validation.ts:39-58 | valid parameters name a chain on which the token lookup, the target lookup and the target's endpoint lookup all succeed, and both addresses have the 42-character shape |
| PublicAdapter.ToBytes32 | packages/bsc-hemi-bridge/actions/public/hemiOFTAdapter.ts:35 | the result starts with "0x"; for a body of at most 64 characters it is 66 characters long, ends with the body and is '0' in between |
| PublicAdapter.Bytes32OfAddress | packages/bsc-hemi-bridge/actions/public/hemiOFTAdapter.ts:35 | for a well-formed address the 32-byte form is "0x", 24 zero digits, then the address's own 40 hex digits |
| PublicAdapter.BuildSendParam | packages/bsc-hemi-bridge/actions/public/hemiOFTAdapter.ts:28-36 | minAmountLD equals amountLD equals the amount (no slippage tolerance); compose message, options and command are empty "0x"; `to` is the padded recipient |
| PublicAdapter.QuoteSend | packages/bsc-hemi-bridge/actions/public/hemiOFTAdapter.ts:14-45 | the only interaction is one read with payInLzToken false, made if and only if the adapter lookup succeeds and the chain is a mainnet; dstEid is the endpoint of the chain's target and the descriptor read with is the shared send descriptor (no slippage, empty "0x" fields, padded recipient); an adapter lookup error is thrown as is, and a testnet chain throws the endpoint lookup's error |
| WalletAdapter.CheckUserBalance | packages/bsc-hemi-bridge/actions/wallet/hemiOFTAdapter.ts:39-85 | never throws; can bridge if and only if the token balance covers the amount and the native balance is non-zero; a failed read becomes "Failed to check balance: " plus the read's message; a token shortfall reports "Insufficient HEMI token balance. Required: …"; a zero native balance reports "Insufficient <native symbol> balance for gas fees"; it reads the token balance once and then at most the native balance once |
| WalletAdapter.Preflight | packages/bsc-hemi-bridge/actions/wallet/hemiOFTAdapter.ts:103-174 | a preflight that stops the run without throwing has reported at least one event |
| WalletAdapter.SendStage | packages/bsc-hemi-bridge/actions/wallet/hemiOFTAdapter.ts:176-249 | a sending half that does not throw reports at least one event; it only quotes, reads the native balance, simulates, writes and waits |
| WalletAdapter.TryBlock | packages/bsc-hemi-bridge/actions/wallet/hemiOFTAdapter.ts:100-249 | the guarded block starts with `pre-bridge` and, when nothing escapes it, reports something after it |
| WalletAdapter.BridgeRun | packages/bsc-hemi-bridge/actions/wallet/hemiOFTAdapter.ts:88-255 | a validation failure is the whole trace, with no chain call; otherwise the trace starts with `pre-bridge`, ends with `bridge-settled` and holds at least three events |
| WalletAdapter.Finally | packages/bsc-hemi-bridge/actions/wallet/hemiOFTAdapter.ts:250-254 | keeps the guarded block's events and calls, adds `unexpected-error` with the thrown error exactly when something was thrown, then always `bridge-settled` |
| WalletAdapter.Emitter.Emit | packages/bsc-hemi-bridge/actions/wallet/hemiOFTAdapter.ts:94 | appends the event to the emitter's log |
| WalletAdapter.PreflightSteps | packages/bsc-hemi-bridge/actions/wallet/hemiOFTAdapter.ts:111-174 | the imperative steps with their early returns emit exactly the preflight's events and end in its stage |
| WalletAdapter.SendSteps | packages/bsc-hemi-bridge/actions/wallet/hemiOFTAdapter.ts:176-249 | the imperative steps emit exactly the sending half's events and make its calls |
| WalletAdapter.TryBridge | packages/bsc-hemi-bridge/actions/wallet/hemiOFTAdapter.ts:100-249 | the imperative guarded block emits exactly the events of `TryBlock`, makes its calls and lets escape what it throws |
| WalletAdapter.RunBridgeHemiToken | packages/bsc-hemi-bridge/actions/wallet/hemiOFTAdapter.ts:88-255 | the imperative run appends to the emitter exactly the trace of `BridgeRun` and makes exactly its calls |
| WalletAdapter.EncodeBridgeSend | packages/bsc-hemi-bridge/actions/wallet/hemiOFTAdapter.ts:272-302 | succeeds if and only if the destination is a mainnet; its arguments are that destination's endpoint, minAmountLD equal to amountLD equal to the amount, the padded recipient, the fixed "0x" extraOptions, composeMsg and oftCmd, and the given fee and refund address |
| TraceGrammar.WellFormedRunHasOneTerminal | packages/bsc-hemi-bridge/actions/wallet/hemiOFTAdapter.ts:124-249 | a trace of the run grammar holds exactly one terminal event, the one right before `bridge-settled`, and no `pre-bridge` or `bridge-settled` in between |
| TraceGrammar.ApprovalEventsFollowPreBridge | packages/bsc-hemi-bridge/actions/wallet/hemiOFTAdapter.ts:135-173 | in a trace of the run grammar, approval events sit right after `pre-bridge` in the order `pre-approve`, signed or rejected, then the receipt's fate |
| BridgeTrace.PreflightCalls | packages/bsc-hemi-bridge/actions/wallet/hemiOFTAdapter.ts:111-174 | the preflight never quotes, simulates or writes |
| BridgeTrace.PreflightProceeds | packages/bsc-hemi-bridge/actions/wallet/hemiOFTAdapter.ts:111-174 | the preflight lets the run go on only on a mainnet, with the looked-up adapter, and only when no approval was needed or the approval was mined with status success |
| BridgeTrace.PreflightThrows | packages/bsc-hemi-bridge/actions/wallet/hemiOFTAdapter.ts:111-132 | what the preflight throws is the error of the adapter lookup, of the token lookup or of the allowance read |
| BridgeTrace.SendStageQuotes | packages/bsc-hemi-bridge/actions/wallet/hemiOFTAdapter.ts:176-202 | on a mainnet the sending half first reads exactly the quote `quoteSend` reads, then the native balance |
| BridgeTrace.SendStageWrites | packages/bsc-hemi-bridge/actions/wallet/hemiOFTAdapter.ts:204-227 | at most one send is written, as the fourth call, right after simulating that same send; it pays the quoted native fee from a balance that covers it |
| BridgeTrace.SendStageShortfall | packages/bsc-hemi-bridge/actions/wallet/hemiOFTAdapter.ts:204-210 | a native balance below the quoted fee ends the sending half with the shortfall report and no simulation |
| BridgeTrace.FinallyIsWellFormed | packages/bsc-hemi-bridge/actions/wallet/hemiOFTAdapter.ts:250-254 | whatever the guarded block did, the `catch` and `finally` blocks turn it into a trace of the run grammar |
| BridgeTrace.BridgeRunIsWellFormed | packages/bsc-hemi-bridge/actions/wallet/hemiOFTAdapter.ts:88-255 | every run, for every script, has a trace of the run grammar |
| BridgeTrace.SettledOnceAfterOneTerminal | packages/bsc-hemi-bridge/actions/wallet/hemiOFTAdapter.ts:92-101 | after validation passes, `pre-bridge` is first, `bridge-settled` occurs exactly once, last, right after the single terminal event; a validation failure is one terminal event with no `bridge-settled` |
| BridgeTrace.ApprovalEventsInOrder | packages/bsc-hemi-bridge/actions/wallet/hemiOFTAdapter.ts:135-173 | a run's approval events follow `pre-bridge` immediately and in order; a refused, failed or reverted approval is the whole body of the run |
| BridgeTrace.UnexpectedErrorsComeFromOutside | packages/bsc-hemi-bridge/actions/wallet/hemiOFTAdapter.ts:250-251 | an `unexpected-error` carries the error of the adapter lookup, the allowance read, the fee quote, the native balance read or the simulation |
| BridgeTrace.NoApprovalWhenAllowanceCovers | packages/bsc-hemi-bridge/actions/wallet/hemiOFTAdapter.ts:134-174 | when the allowance covers the amount, the run has no approval event and makes no approve call |
| BridgeTrace.QuoteOnlyAfterGrantedApproval | packages/bsc-hemi-bridge/actions/wallet/hemiOFTAdapter.ts:171-191 | the run asks for the fee quote only after no approval was needed or the approval was mined with status success |
| BridgeTrace.NativeFeeShortfallStopsSend | packages/bsc-hemi-bridge/actions/wallet/hemiOFTAdapter.ts:204-210 | once quoted, a native balance below the fee ends the run with the shortfall report right before `bridge-settled`, and the run never simulates or writes the send |
| BridgeTrace.SendUsesQuotedFee | packages/bsc-hemi-bridge/actions/wallet/hemiOFTAdapter.ts:180-227 | the written send is the one simulated just before, for the quoted descriptor; it pays the quoted fee from a covering balance, refunds to the sender and targets the destination's endpoint with minAmountLD equal to amountLD |
| BridgeTrace.RunQuoteIsQuoteSend | packages/bsc-hemi-bridge/actions/wallet/hemiOFTAdapter.ts:176-197 | the quote the run reads is the read `quoteSend` makes for the same amount, chain and recipient |
| BridgeTrace.RunSendIsEncodedSend | packages/bsc-hemi-bridge/actions/wallet/hemiOFTAdapter.ts:213-220 | the written send has exactly the arguments `encodeBridgeSend` encodes for the destination chain |
| BridgeTrace.ZeroAmountScenario | packages/bsc-hemi-bridge/utils/validation.ts:24-30 | a zero amount gives the lone report "Amount must be greater than zero", with no call and no `bridge-settled` |
| BridgeTrace.ApproveAndSendScenario | packages/bsc-hemi-bridge/actions/wallet/hemiOFTAdapter.ts:100-254 | the exact seven-event trace of a run whose approval and send both succeed |
| BridgeTrace.FeeShortfallAfterApprovalScenario | packages/bsc-hemi-bridge/actions/wallet/hemiOFTAdapter.ts:134-210 | after a granted approval, a fee shortfall gives the exact six-event trace ending with the shortfall report and `bridge-settled` |
| BridgeState.Reduce | website/src/hooks/useBridgeState.ts:31-60 | reset sets the input to "0" and keeps the network; toggle succeeds if and only if the network is known to the pairing, keeps the input and moves to the paired network on the same side; an update returns the state unchanged when sanitising rejects the text, and otherwise sets only the input |
| BridgeState.ToggleTwiceRestores | website/src/hooks/useBridgeState.ts:39-43 | toggling twice gives back the state |
| BridgeState.ResetIsIdempotent | website/src/hooks/useBridgeState.ts:34-38 | resetting twice is resetting once |
| BridgeState.NetworkFollowsToggleParity | website/src/hooks/useBridgeState.ts:31-60 | from a mainnet no action sequence throws, and the network is the start after an even number of toggles and its pair after an odd number |
| BridgeState.ReachableStatesAreMainnets | website/src/hooks/useBridgeState.ts:62-66 | from the initial state ("0" on hemi) every action sequence keeps the network on hemi or bsc |
| TokenUtils.HemiTokensAgree | website/src/utils/token.ts:33-49 | the two token records differ only in address and chain; both have 18 decimals and each address is the token table's entry for its chain |
| TokenUtils.GetToken | website/src/utils/token.ts:51-56 | returns the two HEMI records, with the Hemi record first if and only if the source is hemi |
| TokenUtils.GetTokenFollowsBridgeDirection | website/src/utils/token.ts:51-56 | on a mainnet the pair is the token on the source chain, then the token on its bridge target |
| TokenUtils.GetTokenPrice | website/src/utils/token.ts:6-15 | the entry of the upper-cased price symbol (priceSymbol, else symbol), or "0" when there are no prices or no entry |
| TokenUtils.PriceIgnoresSymbolCase | website/src/utils/token.ts:10-13 | upper-casing the symbol beforehand does not change the price found |
| TokenUtils.Truncate | website/src/utils/token.ts:26 | the kept fraction is a prefix of the fraction, at most `decimals` long: exactly `decimals` long when the fraction is long enough, and the whole fraction when it is not |
| TokenUtils.NormalizeAmount | website/src/utils/token.ts:24-29 | the text handed to parseUnits keeps the whole part and is a prefix of the amount; an amount with no ".", or with one "." and 1 to `decimals` fraction characters, is passed on unchanged |
| TokenUtils.ParseTokenUnits | website/src/utils/token.ts:24-31 | an amount already within the token's precision is parsed exactly as typed |
| TokenUtils.FractionWithinPrecisionKept | website/src/utils/token.ts:25-29 | a non-empty fraction of at most `decimals` digits is kept whole ("1.5" stays "1.5" at 18 decimals) |
| TokenUtils.SecondSegmentIgnored | website/src/utils/token.ts:25 | whatever follows a second "." is dropped, for a fraction of any length ("1.5.7" reads as "1.5") |
| TokenUtils.NormalizedFractionFits | website/src/utils/token.ts:24-31 | the text handed to parseUnits keeps the whole part, has at most one ".", and its fraction is non-empty, at most `decimals` long and a prefix of the amount's fraction |
| TokenUtils.ExcessDigitsIgnored | website/src/utils/token.ts:24-31 | when the fraction has at least `decimals` digits, the digits past them and anything after them (a second "." included) never change the normalised text: it is the whole part and the first `decimals` digits |
| TokenUtils.ExcessDigitsDoNotChangeUnits | website/src/utils/token.ts:24-31 | the parsed value is that of the whole part and the fraction truncated to `decimals` digits, both when digits run past the decimals and when a second "." follows a fraction of any length |
| TokenUtils.WholePartAlone | website/src/utils/token.ts:25-29 | an absent fraction, an empty one ("5.") or zero decimals parse the whole part alone |
| Strings.PadStart | packages/bsc-hemi-bridge/actions/public/hemiOFTAdapter.ts:35 | pads on the left with the fill character up to the width, keeping the text at the end; longer text is unchanged |
| Strings.Slice | packages/bsc-hemi-bridge/actions/public/hemiOFTAdapter.ts:35 | `slice(start)`: the text from `start` on, and empty when `start` is past the end |
| Strings.IntToStringRoundTrip | packages/bsc-hemi-bridge/utils/validation.ts:44 | a rendered integer is a minus sign exactly when it is negative, followed by digits that read back as its magnitude |
| Strings.IntToStringInjective | packages/bsc-hemi-bridge/utils/chainHelpers.ts:15 | two chain ids with the same rendering in a message are the same id |
| Strings.Split | website/src/utils/token.ts:25 | the parts contain no separator and joined with it give back the text |
| Strings.ToUpperCase | website/src/utils/token.ts:10-12 | same length, each character upper-cased; upper-casing twice is upper-casing once |

## Left out

- The website's UI components, the react-query hooks and the build configuration: rendering, caching and timers only.
- `bridgeHemi`'s deferral of the run to a microtask: the model runs the run directly on the emitter. Listeners are assumed not to throw.
- The `Promise.all` join of the fee quote and the native balance read runs the two reads in sequence. When both fail, the model reports the quote's error.
- viem and viem-erc20 actions are scripted results in `Script`: balance and allowance reads, `readContract`, `simulateContract`, `writeContract`, `waitForTransactionReceipt` and `approveErc20Token`. `createPublicClient` and `http` have no counterpart.
- `encodeFunctionData`: ABI encoding is not modelled. `EncodeBridgeSend` returns the arguments that would be encoded.
- The contracts table behind `getHemiOftAdapterAddress` is not part of this model. It is a parameter that may throw.
- `isAddress` is modelled as the address pattern plus an EIP-55 checksum oracle, passed as a parameter. `formatUnits` and `parseUnits` are parameters too.
- `sanitizeAmount` is not part of this model. It is a parameter of the reducer. The case of a success without a value (`value!` undefined) is not modelled.
- PublicAdapter.QuoteSend: returns the read it makes rather than the adapter's fee answer, which the chain supplies.
- Strings.ToUpperCase: upper-cases ASCII letters only, with no Unicode case mapping.
- Strings.IntToString: writes plain decimal digits. JavaScript's exponent form for very large numbers is not modelled.
- Chain ids are unbounded integers. JavaScript number precision is not modelled.
- `packages/bsc-hemi-bridge/utils/tokens.ts` is not part of this model. The HEMI token addresses are the website's token records.
- The `compilationError` default branch of the reducer is unreachable with three actions and has no counterpart.
