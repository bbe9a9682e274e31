/** The per-network compose step of the send form (sendFormActions.ts):
    Ripple and Ethereum transactions are classified locally as nonfinal,
    final or an error; for Bitcoin only the outputs handed to trezor-connect
    are modelled; a scanned QR code fills the address and amount fields. */
module SendFormActions {
  import opened Wrappers
  import opened Text
  import opened BigDecimal
  import opened Conversions
  import opened SendFormTypes
  import opened SendFormUtils

  /** The parts of the selected account the compose step reads: whether it
      has `addresses` and `utxo` (Bitcoin) is all that matters of those two. */
  datatype Account = Account(symbol: string, availableBalance: string, hasAddresses: bool, hasUtxo: bool)

  // Ripple

  /** composeRippleTransaction: nonfinal without an address, otherwise an
      error when amount plus fee exceeds the balance, else final. */
  function ComposeRippleTransaction(account: Account, address: string, amount: string, selectedFee: FeeLevel, lib: Library): (r: ComposeResult)
    ensures var amountInSatoshi := lib.networkAmountToSatoshi(amount, account.symbol);
      var fee := selectedFee.feePerUnit;
      var total := Plus(Parse(amountInSatoshi), Parse(fee));
      && (r.NonFinal? <==> address == "")
      && (r.Error? <==> address != "" && IsGreaterThan(total, Parse(account.availableBalance)))
      && (r.Error? ==> r.error == "NOT-ENOUGH-FUNDS")
      && (!r.Error? ==> Parse(r.info.totalSpent) == total && r.info.fee == fee)
      && (!r.Error? ==> r.info.max == lib.formatNetworkAmount(CalculateMax(account.availableBalance, fee), account.symbol))
  {
    var amountInSatoshi := lib.networkAmountToSatoshi(amount, account.symbol);
    var feeInSatoshi := selectedFee.feePerUnit;
    var totalSpentBig := Parse(CalculateTotal(amountInSatoshi, feeInSatoshi));
    var max := Parse(CalculateMax(account.availableBalance, feeInSatoshi));
    RippleMaxNotNegative(account.availableBalance, feeInSatoshi);
    ParseFormat(totalSpentBig);
    var payloadData := TxInfo(
      Format(totalSpentBig),
      feeInSatoshi,
      None,
      None,
      if IsLessThan(max, Zero) then "0" else lib.formatNetworkAmount(Format(max), account.symbol));
    if address == "" then NonFinal(payloadData)
    else if IsGreaterThan(totalSpentBig, Parse(account.availableBalance)) then Error("NOT-ENOUGH-FUNDS")
    else Final(payloadData)
  }

  /** calculateMax already clamps at zero, so the maximum read back is never
      negative and spells as calculateMax's own result. */
  lemma RippleMaxNotNegative(availableBalance: string, fee: string)
    ensures !IsLessThan(Parse(CalculateMax(availableBalance, fee)), Zero)
    ensures Format(Parse(CalculateMax(availableBalance, fee))) == CalculateMax(availableBalance, fee)
  {
    var d := Minus(Parse(availableBalance), Parse(fee));
    if IsLessThan(d, Zero) {
      ParseNatToString(0);
      FormatNat(0);
      assert NatToString(0) == "0";
    } else {
      ParseFormat(d);
    }
  }

  /** On well-formed numbers: a Ripple request with an address fails exactly
      when amount plus fee exceeds the balance, and its maximum is
      max(balance - fee, 0). */
  lemma RippleFunds(account: Account, address: string, amount: string, selectedFee: FeeLevel, lib: Library)
    requires address != ""
    requires Parse(lib.networkAmountToSatoshi(amount, account.symbol)).Num?
    requires Parse(selectedFee.feePerUnit).Num? && Parse(account.availableBalance).Num?
    ensures var r := ComposeRippleTransaction(account, address, amount, selectedFee, lib);
      var a := Value(Parse(lib.networkAmountToSatoshi(amount, account.symbol)));
      var f := Value(Parse(selectedFee.feePerUnit));
      var b := Value(Parse(account.availableBalance));
      && (r.Error? <==> a + f > b)
      && (r.Final? <==> a + f <= b)
      && (r.Final? ==> Value(Parse(r.info.totalSpent)) == a + f)
  {
  }

  /** Without an address, a Ripple request is nonfinal whatever the funds. */
  lemma RippleNoAddressIsNonFinal(account: Account, amount: string, selectedFee: FeeLevel, lib: Library)
    ensures var r := ComposeRippleTransaction(account, "", amount, selectedFee, lib);
      r.NonFinal? && r.info.fee == selectedFee.feePerUnit
      && Parse(r.info.totalSpent) == Plus(Parse(lib.networkAmountToSatoshi(amount, account.symbol)), Parse(selectedFee.feePerUnit))
  {
  }

  // Ethereum

  /** The Ethereum fee: the gas price in gwei converted to wei, a price
      that does not read as a number counting as "0", times the gas limit
      or "0" when it is absent or empty. */
  function EthFee(selectedFee: FeeLevel, lib: Library): (fee: string)
    ensures Parse(fee).Num?
    ensures var price := if Parse(selectedFee.feePerUnit).Num? then selectedFee.feePerUnit else "0";
      var limit := if Truthy(selectedFee.feeLimit) then selectedFee.feeLimit.value else "0";
      var p := Times(Parse(lib.toWei(price, "gwei")), Parse(limit));
      (p.Num? ==> Parse(fee) == p) && (p.NaN? ==> fee == "0")
  {
    var isFeeValid := Parse(selectedFee.feePerUnit).Num?;
    CalculateEthFeeIsNumber(
      Some(lib.toWei(if isFeeValid then selectedFee.feePerUnit else "0", "gwei")),
      Some(if Truthy(selectedFee.feeLimit) then selectedFee.feeLimit.value else "0"));
    CalculateEthFee(
      Some(lib.toWei(if isFeeValid then selectedFee.feePerUnit else "0", "gwei")),
      Some(if Truthy(selectedFee.feeLimit) then selectedFee.feeLimit.value else "0"))
  }

  /** A gas price that does not read as a number is priced as "0". */
  lemma EthFeeInvalidPriceIsZero(selectedFee: FeeLevel, lib: Library)
    requires Parse(selectedFee.feePerUnit).NaN?
    ensures EthFee(selectedFee, lib) == EthFee(selectedFee.(feePerUnit := "0"), lib)
  {
    ParseNatToString(0);
    assert NatToString(0) == "0";
  }

  /** The largest amount: the token balance for a token, otherwise the
      clamped balance minus fee. */
  function EthMax(account: Account, fee: string, token: Option<Token>): (max: Big)
    ensures token.Some? ==> max == Parse(token.value.balance)
    ensures token.None? ==> max == Parse(CalculateMax(account.availableBalance, fee))
  {
    if token.Some? then Parse(token.value.balance) else Parse(CalculateMax(account.availableBalance, fee))
  }

  /** The total an Ethereum request spends from the account's own balance:
      the fee, plus the amount unless a token is sent. */
  function EthTotal(account: Account, amount: string, selectedFee: FeeLevel, token: Option<Token>, setMax: bool, lib: Library): (total: Big)
    ensures var fee := EthFee(selectedFee, lib);
      var amountInSatoshi := if setMax then Format(EthMax(account, fee, token)) else lib.networkAmountToSatoshi(amount, account.symbol);
      total == Plus(Parse(if token.Some? then "0" else amountInSatoshi), Parse(fee))
  {
    var fee := EthFee(selectedFee, lib);
    var max := EthMax(account, fee, token);
    var amountInSatoshi := if setMax then Format(max) else lib.networkAmountToSatoshi(amount, account.symbol);
    Parse(CalculateTotal(if token.Some? then "0" else amountInSatoshi, fee))
  }

  /** composeEthereumTransaction: the funds are checked first, so an
      over-budget request is an error even without an address; otherwise
      nonfinal without an address and final with one. */
  function ComposeEthereumTransaction(account: Account, address: string, amount: string, selectedFee: FeeLevel,
                                      token: Option<Token>, setMax: bool, lib: Library): (r: ComposeResult)
    ensures var over := IsGreaterThan(EthTotal(account, amount, selectedFee, token, setMax, lib), Parse(account.availableBalance));
      && (r.Error? <==> over)
      && (r.NonFinal? <==> !over && address == "")
      && (r.Final? <==> !over && address != "")
    ensures r.Error? ==> r.error == if token.Some? then "NOT-ENOUGH-CURRENCY-FEE" else "NOT-ENOUGH-FUNDS"
    ensures !r.Error? ==>
      && Parse(r.info.totalSpent) == EthTotal(account, amount, selectedFee, token, setMax, lib)
      && r.info.fee == EthFee(selectedFee, lib)
      && r.info.feePerUnit == Some(selectedFee.feePerUnit)
    ensures !r.Error? ==>
      var max := EthMax(account, EthFee(selectedFee, lib), token);
      r.info.max == if IsLessThan(max, Zero) then "0"
                    else if token.Some? then Format(max) else lib.formatNetworkAmount(Format(max), account.symbol)
  {
    var feeInSatoshi := EthFee(selectedFee, lib);
    var max := EthMax(account, feeInSatoshi, token);
    var totalSpentBig := EthTotal(account, amount, selectedFee, token, setMax, lib);
    var formattedMax :=
      if token.None? then (if IsLessThan(max, Zero) then "0" else lib.formatNetworkAmount(Format(max), account.symbol))
      else if IsLessThan(max, Zero) then "0" else Format(max);
    ParseFormat(totalSpentBig);
    var payloadData := TxInfo(Format(totalSpentBig), feeInSatoshi, Some(selectedFee.feePerUnit), None, formattedMax);
    if IsGreaterThan(totalSpentBig, Parse(account.availableBalance)) then
      Error(if token.Some? then "NOT-ENOUGH-CURRENCY-FEE" else "NOT-ENOUGH-FUNDS")
    else if address == "" then NonFinal(payloadData)
    else Final(payloadData)
  }

  /** With a token the amount counts as zero: the request spends only the
      fee, and fails exactly when the fee exceeds the balance. */
  lemma EthTokenSpendsOnlyFee(account: Account, address: string, amount: string, selectedFee: FeeLevel,
                              token: Token, setMax: bool, lib: Library)
    ensures var r := ComposeEthereumTransaction(account, address, amount, selectedFee, Some(token), setMax, lib);
      var fee := Parse(EthFee(selectedFee, lib));
      && (r.Error? <==> IsGreaterThan(fee, Parse(account.availableBalance)))
      && (r.Error? ==> r.error == "NOT-ENOUGH-CURRENCY-FEE")
      && (!r.Error? ==> Parse(r.info.totalSpent) == fee)
  {
    TokenTotalIsFee(account, amount, selectedFee, token, setMax, lib);
  }

  lemma TokenTotalIsFee(account: Account, amount: string, selectedFee: FeeLevel, token: Token, setMax: bool, lib: Library)
    ensures EthTotal(account, amount, selectedFee, Some(token), setMax, lib) == Parse(EthFee(selectedFee, lib))
  {
    var fee := Parse(EthFee(selectedFee, lib));
    ParseNatToString(0);
    assert NatToString(0) == "0";
    PlusZero(fee);
  }

  /** Sending the maximum of the account's own coin, when the fee fits the
      balance: the amount is balance minus fee, the total spent is the whole
      balance, and the request is not an error. */
  lemma EthSetMaxSpendsBalance(account: Account, address: string, amount: string, selectedFee: FeeLevel, lib: Library)
    requires IsLessThanOrEqualTo(Parse(EthFee(selectedFee, lib)), Parse(account.availableBalance))
    ensures var r := ComposeEthereumTransaction(account, address, amount, selectedFee, None, true, lib);
      && !r.Error?
      && EthMax(account, EthFee(selectedFee, lib), None) == Minus(Parse(account.availableBalance), Parse(EthFee(selectedFee, lib)))
      && Parse(r.info.totalSpent) == Parse(account.availableBalance)
  {
    SetMaxTotal(account, amount, selectedFee, lib);
  }

  /** The arithmetic of the set-max case: the clamped maximum is balance
      minus fee, and adding the fee back gives the balance. */
  lemma SetMaxTotal(account: Account, amount: string, selectedFee: FeeLevel, lib: Library)
    requires IsLessThanOrEqualTo(Parse(EthFee(selectedFee, lib)), Parse(account.availableBalance))
    ensures EthMax(account, EthFee(selectedFee, lib), None) == Minus(Parse(account.availableBalance), Parse(EthFee(selectedFee, lib)))
    ensures EthTotal(account, amount, selectedFee, None, true, lib) == Parse(account.availableBalance)
  {
    SetMaxArithmetic(account.availableBalance, EthFee(selectedFee, lib));
  }

  lemma SetMaxArithmetic(availableBalance: string, fee: string)
    requires IsLessThanOrEqualTo(Parse(fee), Parse(availableBalance))
    ensures Parse(CalculateMax(availableBalance, fee)) == Minus(Parse(availableBalance), Parse(fee))
    ensures Plus(Parse(Format(Parse(CalculateMax(availableBalance, fee)))), Parse(fee)) == Parse(availableBalance)
  {
    var b, f := Parse(availableBalance), Parse(fee);
    var d := Minus(b, f);
    assert Value(f) <= Value(b);
    assert Value(d) == Value(b) - Value(f) >= 0.0;
    assert Value(Zero) == 0.0 by { assert Pow10(0) == 1; }
    assert !IsLessThan(d, Zero);
    var r := CalculateMax(availableBalance, fee);
    assert Parse(r) == d;
    ParseFormat(d);
    assert Parse(Format(Parse(r))) == d;
    MinusPlus(b, f);
  }

  /** The address plays no part in the funds check. */
  lemma EthFundsCheckIgnoresAddress(account: Account, address: string, amount: string, selectedFee: FeeLevel,
                                    token: Option<Token>, setMax: bool, lib: Library)
    ensures ComposeEthereumTransaction(account, address, amount, selectedFee, token, setMax, lib).Error?
        == ComposeEthereumTransaction(account, "", amount, selectedFee, token, setMax, lib).Error?
  {
  }

  // Bitcoin: the outputs handed to trezor-connect

  function AmountField(outputId: int): string { "amount-" + IntToString(outputId) }

  function AddressField(outputId: int): string { "address-" + IntToString(outputId) }

  /** The request output for one form output, its address and amount read
      from the form: send-max or `{address, amount}` with an address,
      send-max-noaddress or noaddress without one. The source names the
      fields after the output's `id`; here that id is `outputId`. */
  function BitcoinRequestOutput(output: Output, getValues: string -> string, symbol: string, setMax: bool, lib: Library): (r: ComposeOutput)
    ensures var address := getValues(AddressField(output.outputId));
      && (r.kind == SendMax || r.kind == Payment <==> address != "")
      && (setMax ==> r.kind == SendMax || r.kind == SendMaxNoAddress)
      && (!setMax ==> r.kind == Payment || r.kind == NoAddress)
      && (address != "" ==> r.address == Some(address))
      && (!setMax ==> r.amount == Some(lib.networkAmountToSatoshi(getValues(AmountField(output.outputId)), symbol)))
      && (setMax ==> r.amount.None?)
  {
    var amount := lib.networkAmountToSatoshi(getValues(AmountField(output.outputId)), symbol);
    var address := getValues(AddressField(output.outputId));
    if address != "" then
      if setMax then ComposeOutput(SendMax, Some(address), None, None)
      else ComposeOutput(Payment, Some(address), Some(amount), None)
    else if setMax then ComposeOutput(SendMaxNoAddress, None, None, None)
    else ComposeOutput(NoAddress, None, Some(amount), None)
  }

  /** The output mapping of composeBitcoinTransaction: nothing without the
      account's addresses and utxo, otherwise one request output per form
      output, in order. */
  function BitcoinRequestOutputs(account: Account, outputs: seq<Output>, getValues: string -> string, setMax: bool, lib: Library)
    : (r: Option<seq<ComposeOutput>>)
    ensures r.None? <==> !account.hasAddresses || !account.hasUtxo
    ensures r.Some? ==> |r.value| == |outputs|
    ensures r.Some? ==> forall i :: 0 <= i < |outputs| ==>
      r.value[i] == BitcoinRequestOutput(outputs[i], getValues, account.symbol, setMax, lib)
  {
    if !account.hasAddresses || !account.hasUtxo then None
    else Some(seq(|outputs|, i requires 0 <= i < |outputs| => BitcoinRequestOutput(outputs[i], getValues, account.symbol, setMax, lib)))
  }

  // QR code scan

  /** What a payment URI yields: an optional address and amount. */
  datatype ParsedUri = ParsedUri(address: Option<string>, amount: Option<string>)

  /** onQrScan: the form fields it sets, in order: the address (or "" when
      the URI has none), then the amount when the URI has a non-empty one. */
  function OnQrScan(parsedUri: ParsedUri, outputId: int): (writes: seq<(string, string)>)
    ensures 1 <= |writes| <= 2
    ensures writes[0] == (AddressField(outputId), parsedUri.address.GetOr(""))
    ensures |writes| == 2 <==> Truthy(parsedUri.amount)
    ensures |writes| == 2 ==> writes[1] == (AmountField(outputId), parsedUri.amount.value)
  {
    var address := parsedUri.address.GetOr("");
    var first := [(AddressField(outputId), address)];
    if Truthy(parsedUri.amount) then first + [(AmountField(outputId), parsedUri.amount.value)] else first
  }

  /** The form's field values after a sequence of setValue calls. */
  function ApplyWrites(fields: map<string, string>, writes: seq<(string, string)>): (r: map<string, string>)
    ensures forall k :: k in fields ==> k in r
    ensures forall k :: k in r ==> k in fields || exists i :: 0 <= i < |writes| && writes[i].0 == k
    decreases |writes|
  {
    if writes == [] then fields else ApplyWrites(fields[writes[0].0 := writes[0].1], writes[1..])
  }

  lemma FieldsDiffer(outputId: int)
    ensures AddressField(outputId) != AmountField(outputId)
  {
    assert AddressField(outputId)[1] == 'd';
    assert AmountField(outputId)[1] == 'm';
  }

  /** After a scan the address field holds the URI's address (or ""), the
      amount field holds the URI's amount when it has one and is otherwise
      left alone, and no other field changes. */
  lemma OnQrScanApplied(fields: map<string, string>, parsedUri: ParsedUri, outputId: int)
    ensures var after := ApplyWrites(fields, OnQrScan(parsedUri, outputId));
      && AddressField(outputId) in after
      && after[AddressField(outputId)] == parsedUri.address.GetOr("")
      && (Truthy(parsedUri.amount) ==> AmountField(outputId) in after && after[AmountField(outputId)] == parsedUri.amount.value)
      && (!Truthy(parsedUri.amount) ==> after == fields[AddressField(outputId) := parsedUri.address.GetOr("")])
      && (forall k :: k in fields && k != AddressField(outputId) && k != AmountField(outputId) ==> after[k] == fields[k])
  {
    var writes := OnQrScan(parsedUri, outputId);
    var address := parsedUri.address.GetOr("");
    FieldsDiffer(outputId);
    var f1 := fields[AddressField(outputId) := address];
    assert ApplyWrites(fields, writes) == ApplyWrites(f1, writes[1..]);
    if Truthy(parsedUri.amount) {
      var f2 := f1[AmountField(outputId) := parsedUri.amount.value];
      assert writes[1..][1..] == [];
      assert ApplyWrites(f1, writes[1..]) == ApplyWrites(f2, []);
    } else {
      assert writes[1..] == [];
    }
  }
}
