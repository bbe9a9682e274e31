/** The fee state of every network (sendFormReducer.ts): an initial entry
    per network without an account type, replaced by BLOCKCHAIN.UPDATE_FEE. */
module SendFormReducer {
  import opened Wrappers
  import opened SendFormTypes

  /** A network of the wallet's configuration: its symbol and, for the
      non-default account types, that type. */
  datatype Network = Network(symbol: string, accountType: Option<string>)

  /** The fee state: fee information per network symbol. */
  type FeeState = map<string, FeeInfo>

  const DefaultFeeInfo: FeeInfo := FeeInfo(0, 10, 1, 100, [FeeLevel("normal", "1", 0, None, None)])

  /** The initial state the reduce over the first n networks builds. */
  function InitialState(networks: seq<Network>, n: nat): (r: FeeState)
    requires n <= |networks|
  {
    if n == 0 then map[]
    else
      var state := InitialState(networks, n - 1);
      var network := networks[n - 1];
      if Truthy(network.accountType) then state else state[network.symbol := DefaultFeeInfo]
  }

  /** An entry exists exactly for the symbols of networks without an
      account type, and every entry is the default fee information. */
  lemma {:induction false} InitialStateEntries(networks: seq<Network>, n: nat)
    requires n <= |networks|
    ensures forall s :: s in InitialState(networks, n) <==>
      exists i :: 0 <= i < n && networks[i].symbol == s && !Truthy(networks[i].accountType)
    ensures forall s :: s in InitialState(networks, n) ==> InitialState(networks, n)[s] == DefaultFeeInfo
  {
    if n > 0 {
      InitialStateEntries(networks, n - 1);
      var state := InitialState(networks, n - 1);
      forall s | s in InitialState(networks, n)
        ensures exists i :: 0 <= i < n && networks[i].symbol == s && !Truthy(networks[i].accountType)
      {
        if s !in state {
          assert networks[n - 1].symbol == s && !Truthy(networks[n - 1].accountType);
        }
      }
    }
  }

  /** initialState: the reduce over the configured networks. */
  method BuildInitialState(networks: seq<Network>) returns (state: FeeState)
    ensures state == InitialState(networks, |networks|)
    ensures forall s :: s in state <==>
      exists i :: 0 <= i < |networks| && networks[i].symbol == s && !Truthy(networks[i].accountType)
    ensures forall s :: s in state ==> state[s] == DefaultFeeInfo
  {
    state := map[];
    var i := 0;
    while i < |networks|
      invariant 0 <= i <= |networks|
      invariant state == InitialState(networks, i)
    {
      var network := networks[i];
      if !Truthy(network.accountType) {
        state := state[network.symbol := DefaultFeeInfo];
      }
      i := i + 1;
    }
    InitialStateEntries(networks, |networks|);
  }

  datatype FeeAction = UpdateFee(payload: FeeState) | OtherAction

  /** The reducer: UPDATE_FEE merges its payload over the state, any other
      action leaves the state as it is. */
  function Reduce(state: FeeState, action: FeeAction): (r: FeeState)
    ensures action.UpdateFee? ==> r.Keys == state.Keys + action.payload.Keys
    ensures action.UpdateFee? ==> forall s :: s in action.payload ==> r[s] == action.payload[s]
    ensures action.UpdateFee? ==> forall s :: s in state && s !in action.payload ==> r[s] == state[s]
    ensures action.OtherAction? ==> r == state
  {
    match action
    case UpdateFee(payload) => state + payload
    case OtherAction => state
  }

  /** Before the first action the state is the initial state. */
  function ReduceFromStart(state: Option<FeeState>, networks: seq<Network>, action: FeeAction): (r: FeeState)
    ensures state.None? ==> r == Reduce(InitialState(networks, |networks|), action)
    ensures state.Some? ==> r == Reduce(state.value, action)
  {
    Reduce(state.GetOr(InitialState(networks, |networks|)), action)
  }

  /** Applying the same update twice is applying it once. */
  lemma UpdateFeeIdempotent(state: FeeState, payload: FeeState)
    ensures Reduce(Reduce(state, UpdateFee(payload)), UpdateFee(payload)) == Reduce(state, UpdateFee(payload))
  {
  }

  /** Two updates in a row merge as one update with the later payload
      winning. */
  lemma UpdateFeeCompose(state: FeeState, p: FeeState, q: FeeState)
    ensures Reduce(Reduce(state, UpdateFee(p)), UpdateFee(q)) == Reduce(state, UpdateFee(p + q))
  {
  }
}
