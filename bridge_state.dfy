/**
 * The website's bridge form state: the amount typed in the "from" field and
 * the network the tokens leave from, driven by a three-action reducer.
 */
module BridgeState {
  import opened Wrappers
  import opened ChainHelpers

  /** `TunnelState`. */
  datatype TunnelState = TunnelState(fromInput: string, fromNetworkId: int)

  /**
   * The result of the website's `sanitizeAmount`, whose code is not part of
   * this model: an error message when the text is rejected, and the cleaned
   * amount otherwise.
   */
  datatype Sanitized = Sanitized(error: Option<string>, value: string)

  /** The three actions the reducer accepts. */
  datatype Action = ResetStateAfterOperation | ToggleNetwork | UpdateFromInput(payload: string)

  /** The state `useBridgeState` starts from: amount "0" on Hemi. */
  const InitialState: TunnelState := TunnelState("0", HemiId)

  /** JavaScript truthiness of an optional error message. */
  predicate Rejects(s: Sanitized) {
    s.error.Some? && s.error.value != ""
  }

  /**
   * `reducer`. Toggling a network the chain pairing does not know throws
   * from `getTargetChainId`; that throw is the `Err` result.
   */
  function Reduce(state: TunnelState, action: Action, sanitize: string -> Sanitized): (r: Result<TunnelState, Error>)
    ensures action.ResetStateAfterOperation? ==>
              r.Ok? && r.value.fromInput == "0" && r.value.fromNetworkId == state.fromNetworkId
    ensures action.ToggleNetwork? ==>
              && (r.Ok? <==> IsMainnet(state.fromNetworkId) || IsTestnet(state.fromNetworkId))
              && (r.Ok? ==> && r.value.fromInput == state.fromInput
                            && r.value.fromNetworkId != state.fromNetworkId
                            && r.value.fromNetworkId in ChainPairs
                            && ChainPairs[r.value.fromNetworkId] == state.fromNetworkId
                            && (IsMainnet(r.value.fromNetworkId) <==> IsMainnet(state.fromNetworkId)))
    ensures action.UpdateFromInput? && Rejects(sanitize(action.payload)) ==> r == Ok(state)
    ensures action.UpdateFromInput? && !Rejects(sanitize(action.payload)) ==>
              r.Ok? && r.value.fromInput == sanitize(action.payload).value
              && r.value.fromNetworkId == state.fromNetworkId
  {
    match action
    case ResetStateAfterOperation => Ok(state.(fromInput := "0"))
    case ToggleNetwork =>
      var target :- GetTargetChainId(state.fromNetworkId);
      Ok(state.(fromNetworkId := target))
    case UpdateFromInput(payload) =>
      var sanitized := sanitize(payload);
      if Rejects(sanitized) then Ok(state) else Ok(state.(fromInput := sanitized.value))
  }

  /** Dispatching the actions one after the other; a throw ends the sequence. */
  function ReduceAll(state: TunnelState, actions: seq<Action>, sanitize: string -> Sanitized): Result<TunnelState, Error>
    decreases |actions|
  {
    if actions == [] then Ok(state)
    else
      var next :- Reduce(state, actions[0], sanitize);
      ReduceAll(next, actions[1..], sanitize)
  }

  /** Toggling twice gives back the state, for every network the pairing knows. */
  lemma ToggleTwiceRestores(state: TunnelState, sanitize: string -> Sanitized)
    requires IsMainnet(state.fromNetworkId) || IsTestnet(state.fromNetworkId)
    ensures Reduce(state, ToggleNetwork, sanitize).Ok?
    ensures Reduce(Reduce(state, ToggleNetwork, sanitize).value, ToggleNetwork, sanitize) == Ok(state)
  {
    TargetChainIdIsInvolution(state.fromNetworkId);
  }

  /** Resetting twice is resetting once. */
  lemma ResetIsIdempotent(state: TunnelState, sanitize: string -> Sanitized)
    ensures Reduce(Reduce(state, ResetStateAfterOperation, sanitize).value, ResetStateAfterOperation, sanitize)
            == Reduce(state, ResetStateAfterOperation, sanitize)
  {
  }

  /** The number of `toggleNetwork` actions in a sequence. */
  function Toggles(actions: seq<Action>): (n: nat)
    ensures n <= |actions|
    ensures n == 0 <==> forall i :: 0 <= i < |actions| ==> !actions[i].ToggleNetwork?
    ensures n == |actions| <==> forall i :: 0 <= i < |actions| ==> actions[i].ToggleNetwork?
  {
    if actions == [] then 0 else (if actions[0].ToggleNetwork? then 1 else 0) + Toggles(actions[1..])
  }

  /**
   * From a mainnet, no sequence of actions throws, and the network is the
   * starting one after an even number of toggles and its pair after an odd
   * number, whatever the amounts typed.
   */
  lemma {:induction false} NetworkFollowsToggleParity(state: TunnelState, actions: seq<Action>,
                                                      sanitize: string -> Sanitized)
    requires IsMainnet(state.fromNetworkId)
    ensures ReduceAll(state, actions, sanitize).Ok?
    ensures ReduceAll(state, actions, sanitize).value.fromNetworkId
            == if Toggles(actions) % 2 == 0 then state.fromNetworkId else GetTargetChainId(state.fromNetworkId).value
    decreases |actions|
  {
    if actions != [] {
      var next := Reduce(state, actions[0], sanitize).value;
      NetworkFollowsToggleParity(next, actions[1..], sanitize);
      if actions[0].ToggleNetwork? {
        TargetChainIdIsInvolution(state.fromNetworkId);
      }
    }
  }

  /** From the initial state the form never throws and always sits on Hemi or BSC. */
  lemma ReachableStatesAreMainnets(actions: seq<Action>, sanitize: string -> Sanitized)
    ensures ReduceAll(InitialState, actions, sanitize).Ok?
    ensures var network := ReduceAll(InitialState, actions, sanitize).value.fromNetworkId;
            network == HemiId || network == BscId
  {
    NetworkFollowsToggleParity(InitialState, actions, sanitize);
  }
}
