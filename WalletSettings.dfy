/** Wallet settings actions (walletSettingsActions.ts): the local currency,
    discreet mode, and which coins are enabled. The thunks' dispatches are
    returned as the list of actions they dispatch. */
module WalletSettings {
  import opened Text

  datatype SettingsAction =
    | ChangeNetworks(payload: seq<string>)
    | SetLocalCurrency(localCurrency: string)
    | SetHideBalance(toggled: bool)
    | SetFlag(key: string, value: bool)

  /** setLocalCurrency: the currency is stored lower-cased. */
  function SetLocalCurrencyAction(localCurrency: string): (r: SettingsAction)
    ensures r.SetLocalCurrency? && |r.localCurrency| == |localCurrency|
    ensures NoUpper(r.localCurrency) && ToLower(r.localCurrency) == r.localCurrency
    ensures forall i :: 0 <= i < |localCurrency| && !('A' <= localCurrency[i] <= 'Z') ==> r.localCurrency[i] == localCurrency[i]
  {
    LowerIdempotent(localCurrency);
    SetLocalCurrency(ToLower(localCurrency))
  }

  /** Currencies that differ only in case are stored the same. */
  lemma SetLocalCurrencyIgnoresCase(a: string, b: string)
    requires ToLower(a) == ToLower(b)
    ensures SetLocalCurrencyAction(a) == SetLocalCurrencyAction(b)
  {
  }

  /** setDiscreetMode: always dispatches the toggle; marks discreet mode as
      completed only when that flag is not set yet. */
  function SetDiscreetMode(toggled: bool, discreetModeCompleted: bool): (r: seq<SettingsAction>)
    ensures |r| >= 1 && r[0] == SetHideBalance(toggled)
    ensures SetFlag("discreetModeCompleted", true) in r <==> !discreetModeCompleted
    ensures |r| == if discreetModeCompleted then 1 else 2
  {
    [SetHideBalance(toggled)] + if !discreetModeCompleted then [SetFlag("discreetModeCompleted", true)] else []
  }

  /** Array.prototype.filter(coin => coin !== symbol). */
  function Filter(networks: seq<string>, symbol: string): (r: seq<string>)
    ensures |r| <= |networks|
    ensures forall c :: c in r <==> c in networks && c != symbol
  {
    if networks == [] then []
    else Filter(networks[..|networks| - 1], symbol)
         + (if networks[|networks| - 1] != symbol then [networks[|networks| - 1]] else [])
  }

  /** Filtering distributes over concatenation, so the kept coins stay in
      their order. */
  lemma {:induction false} FilterConcat(a: seq<string>, b: seq<string>, symbol: string)
    ensures Filter(a + b, symbol) == Filter(a, symbol) + Filter(b, symbol)
  {
    if b == [] {
      assert a + b == a;
    } else {
      assert (a + b)[..|a + b| - 1] == a + b[..|b| - 1];
      FilterConcat(a, b[..|b| - 1], symbol);
    }
  }

  /** A list without the symbol passes the filter unchanged. */
  lemma {:induction false} FilterAbsent(networks: seq<string>, symbol: string)
    requires symbol !in networks
    ensures Filter(networks, symbol) == networks
  {
    if networks != [] {
      FilterAbsent(networks[..|networks| - 1], symbol);
      assert networks == networks[..|networks| - 1] + [networks[|networks| - 1]];
    }
  }

  /** changeCoinVisibility: the list it dispatches as the CHANGE_NETWORKS
      payload. Hiding filters the symbol out; showing appends it unless
      `find` returns it (an empty symbol is never found, as "" is falsy). */
  function CoinVisibility(enabledNetworks: seq<string>, symbol: string, shouldBeVisible: bool): (r: seq<string>)
    ensures !shouldBeVisible ==> r == Filter(enabledNetworks, symbol)
    ensures shouldBeVisible && symbol != "" && symbol in enabledNetworks ==> r == enabledNetworks
    ensures shouldBeVisible && (symbol == "" || symbol !in enabledNetworks) ==> r == enabledNetworks + [symbol]
  {
    var isAlreadyHidden := symbol in enabledNetworks && symbol != "";
    if !shouldBeVisible then Filter(enabledNetworks, symbol)
    else if !isAlreadyHidden then enabledNetworks + [symbol]
    else enabledNetworks
  }

  /** After showing, the symbol is enabled; after hiding, it is not; every
      other coin keeps its state either way. */
  lemma VisibilityMembership(enabledNetworks: seq<string>, symbol: string, shouldBeVisible: bool)
    ensures var r := CoinVisibility(enabledNetworks, symbol, shouldBeVisible);
      && (symbol in r <==> shouldBeVisible)
      && (forall c :: c != symbol ==> (c in r <==> c in enabledNetworks))
  {
  }

  /** Hiding a coin that is not enabled, or showing one that is, changes
      nothing. */
  lemma VisibilityIdle(enabledNetworks: seq<string>, symbol: string)
    ensures symbol !in enabledNetworks ==> CoinVisibility(enabledNetworks, symbol, false) == enabledNetworks
    ensures symbol != "" && symbol in enabledNetworks ==> CoinVisibility(enabledNetworks, symbol, true) == enabledNetworks
  {
    if symbol !in enabledNetworks {
      FilterAbsent(enabledNetworks, symbol);
    }
  }

  /** Showing and then hiding a coin that was not enabled restores the list. */
  lemma ShowThenHide(enabledNetworks: seq<string>, symbol: string)
    requires symbol !in enabledNetworks
    ensures CoinVisibility(CoinVisibility(enabledNetworks, symbol, true), symbol, false) == enabledNetworks
  {
    FilterConcat(enabledNetworks, [symbol], symbol);
    FilterAbsent(enabledNetworks, symbol);
    assert Filter([symbol], symbol) == [] by {
      assert [symbol][..0] == [];
    }
  }
}
