/** The send form's helpers in sendFormUtils.ts: amount and fee arithmetic,
    hex normalisation, the Ethereum transaction builder, fee levels and
    select options, and the validators that walk the form's errors and
    outputs. */
module SendFormUtils {
  import opened Wrappers
  import opened Text
  import opened BigDecimal
  import opened Conversions
  import opened SendFormTypes

  // Amount and fee arithmetic

  /** calculateTotal: the exact sum of amount and fee, spelled out; "NaN"
      when either does not read as a number. */
  function CalculateTotal(amount: string, fee: string): (r: string)
    ensures Parse(r) == Plus(Parse(amount), Parse(fee))
  {
    var total := Plus(Parse(amount), Parse(fee));
    ParseFormat(total);
    Format(total)
  }

  /** calculateMax: balance minus fee, or "0" when that is negative. */
  function CalculateMax(availableBalance: string, fee: string): (r: string)
    ensures var d := Minus(Parse(availableBalance), Parse(fee));
      (IsLessThan(d, Zero) ==> r == "0") && (!IsLessThan(d, Zero) ==> Parse(r) == d)
  {
    var max := Minus(Parse(availableBalance), Parse(fee));
    if IsLessThan(max, Zero) then "0"
    else
      ParseFormat(max);
      Format(max)
  }

  /** calculateEthFee: gas price times gas limit, or "0" when either is
      missing or empty or the product is not a number. */
  function CalculateEthFee(gasPrice: Option<string>, gasLimit: Option<string>): (r: string)
    ensures !Truthy(gasPrice) || !Truthy(gasLimit) ==> r == "0"
    ensures Truthy(gasPrice) && Truthy(gasLimit) ==>
      var p := Times(Parse(gasPrice.value), Parse(gasLimit.value));
      (p.NaN? ==> r == "0") && (p.Num? ==> Parse(r) == p)
  {
    if !Truthy(gasPrice) || !Truthy(gasLimit) then "0"
    else
      var p := Times(Parse(gasPrice.value), Parse(gasLimit.value));
      if p.NaN? then "0"
      else
        ParseFormat(p);
        Format(p)
  }

  /** On two numbers, the total denotes their exact sum. */
  lemma CalculateTotalExact(amount: string, fee: string)
    requires Parse(amount).Num? && Parse(fee).Num?
    ensures Parse(CalculateTotal(amount, fee)).Num?
    ensures Value(Parse(CalculateTotal(amount, fee))) == Value(Parse(amount)) + Value(Parse(fee))
  {
  }

  /** When either operand is not a number the total is "NaN". */
  lemma CalculateTotalNaN(amount: string, fee: string)
    requires Parse(amount).NaN? || Parse(fee).NaN?
    ensures CalculateTotal(amount, fee) == "NaN"
  {
  }

  /** The maximum is never negative, and on two numbers it is
      max(balance - fee, 0). */
  lemma CalculateMaxClamped(availableBalance: string, fee: string)
    requires Parse(availableBalance).Num? && Parse(fee).Num?
    ensures var r := Parse(CalculateMax(availableBalance, fee));
      var d := Value(Parse(availableBalance)) - Value(Parse(fee));
      r.Num? && Value(r) == if d < 0.0 then 0.0 else d
  {
    var a, f := Parse(availableBalance), Parse(fee);
    var max := Minus(a, f);
    var d := Value(a) - Value(f);
    assert Value(max) == d;
    ParseZeroString();
    assert IsLessThan(max, Zero) <==> d < 0.0;
    var r := CalculateMax(availableBalance, fee);
    if IsLessThan(max, Zero) {
      assert r == "0";
      assert Value(Parse(r)) == 0.0;
    } else {
      assert Parse(r) == max;
      assert Value(Parse(r)) == d && d >= 0.0;
    }
  }

  /** The Ethereum fee always reads as a number. */
  lemma CalculateEthFeeIsNumber(gasPrice: Option<string>, gasLimit: Option<string>)
    ensures Parse(CalculateEthFee(gasPrice, gasLimit)).Num?
  {
    ParseNatToString(0);
    assert NatToString(0) == "0";
  }

  lemma CalculateTotalExample()
    ensures CalculateTotal("1", "2") == "3"
  {
    ParseNatToString(1);
    ParseNatToString(2);
    FormatNat(3);
    assert NatToString(1) == "1" && NatToString(2) == "2" && NatToString(3) == "3";
  }

  lemma CalculateMaxExample()
    ensures CalculateMax("2", "1") == "1"
  {
    ParseNatToString(1);
    ParseNatToString(2);
    FormatNat(1);
    assert NatToString(1) == "1" && NatToString(2) == "2";
  }

  /** getFee: the fee of a composed transaction in the network's display
      unit; Ethereum reads the gas price (in gwei) and shows it in ether,
      the other networks format the fee amount. */
  function GetFee(feePerUnit: string, fee: string, networkType: NetworkType, symbol: string, lib: Library): (r: string)
    ensures networkType == Ethereum ==> r == lib.fromWei(lib.toWei(feePerUnit, "gwei"), "ether")
    ensures networkType != Ethereum ==> r == lib.formatNetworkAmount(fee, symbol)
  {
    if networkType == Ethereum then lib.fromWei(lib.toWei(feePerUnit, "gwei"), "ether")
    else lib.formatNetworkAmount(fee, symbol)
  }

  /** getFee reads one field of the transaction info: on Ethereum only the
      gas price, on the other networks only the fee amount. */
  lemma GetFeeReadsOneField(feePerUnit: string, feePerUnit': string, fee: string, fee': string,
                            networkType: NetworkType, symbol: string, symbol': string, lib: Library)
    ensures networkType == Ethereum ==>
      GetFee(feePerUnit, fee, networkType, symbol, lib) == GetFee(feePerUnit, fee', networkType, symbol', lib)
    ensures networkType != Ethereum ==>
      GetFee(feePerUnit, fee, networkType, symbol, lib) == GetFee(feePerUnit', fee, networkType, symbol, lib)
  {
  }

  // Hex helpers (Ethereum)

  /** padLeftEven: one '0' in front of an odd-length string. */
  function PadLeftEven(hex: string): (r: string)
    ensures |r| % 2 == 0 && |hex| <= |r| <= |hex| + 1
    ensures r[|r| - |hex|..] == hex
    ensures forall i :: 0 <= i < |r| - |hex| ==> r[i] == '0'
  {
    if |hex| % 2 != 0 then "0" + hex else hex
  }

  /** What sanitizeHex keeps of its input: the input without a leading
      "0x" or "0X". */
  function HexBody(hex: string): (body: string)
    ensures HasHexPrefix(hex) ==> body == hex[2..]
    ensures !HasHexPrefix(hex) ==> body == hex
  {
    var lowered := ToLower(hex);
    if |lowered| >= 2 && lowered[..2] == "0x" then hex[2..] else hex
  }

  /** sanitizeHex: "" when nothing is left of the input after its 0x prefix,
      otherwise "0x" and the rest padded to an even number of digits. */
  function SanitizeHex(hex: string): (r: string)
    ensures r == "" <==> HexBody(hex) == ""
    ensures r != "" ==> |r| > 2 && r[..2] == "0x" && |r| % 2 == 0
    ensures r != "" ==> |HexBody(hex)| + 2 <= |r| <= |HexBody(hex)| + 3 && r[|r| - |HexBody(hex)|..] == HexBody(hex)
    ensures r != "" ==> forall i :: 2 <= i < |r| - |HexBody(hex)| ==> r[i] == '0'
  {
    var body := HexBody(hex);
    if body == "" then "" else
      var p := PadLeftEven(body);
      var r := "0x" + p;
      assert |r| == |p| + 2;
      assert p[|p| - |body|..] == body;
      assert r[..2] == "0x" && r[2..] == p;
      assert r[|r| - |body|..] == p[|p| - |body|..];
      assert forall i :: 2 <= i < |r| ==> r[i] == p[i - 2];
      r
  }

  /** Sanitizing twice is sanitizing once. */
  lemma SanitizeHexIdempotent(hex: string)
    ensures SanitizeHex(SanitizeHex(hex)) == SanitizeHex(hex)
  {
    var r := SanitizeHex(hex);
    if r != "" {
      assert HasHexPrefix(r);
      assert HexBody(r) == r[2..] == PadLeftEven(HexBody(hex));
    }
  }

  // Ethereum transaction

  /** The form's view of an Ethereum transaction (EthTransactionData). */
  datatype EthTransactionData = EthTransactionData(
    to: string,
    amount: string,
    chainId: int,
    nonce: string,
    gasLimit: string,
    gasPrice: string,
    data: Option<string>,
    token: Option<Token>)

  /** The transaction handed to trezor-connect. */
  datatype EthereumTransaction = EthereumTransaction(
    to: string,
    value: string,
    chainId: int,
    nonce: string,
    gasLimit: string,
    gasPrice: string,
    data: Option<string>)

  /** One 32-byte ABI argument: padLeft to 64 digits, then the first two
      characters dropped. */
  function AbiWord(hex: string): (w: string)
    ensures HasHexPrefix(hex) && |hex| - 2 <= 64 ==> |w| == 64
  {
    PadLeft(hex, 64)[2..]
  }

  /** Call data of `transfer(recipient, amount)`. */
  function Erc20TransferData(recipient: string, amountHex: string): string
  {
    "0x" + ERC20_TRANSFER + AbiWord(recipient) + AbiWord(amountHex)
  }

  /** prepareEthereumTransaction. A token transfer sends nothing to the
      token contract and carries the ERC-20 call as its data; a plain
      transfer carries the sanitized data only when some was given. */
  method PrepareEthereumTransaction(txInfo: EthTransactionData, lib: Library) returns (result: EthereumTransaction)
    ensures result.chainId == txInfo.chainId && result.nonce == lib.toHex(txInfo.nonce)
    ensures result.gasLimit == lib.toHex(txInfo.gasLimit)
    ensures result.gasPrice == lib.toHex(lib.toWei(txInfo.gasPrice, "gwei"))
    ensures txInfo.token.None? ==>
      result.to == txInfo.to && result.value == lib.toHex(lib.toWei(txInfo.amount, "ether"))
      && result.data == if Truthy(txInfo.data) then Some(SanitizeHex(txInfo.data.value)) else None
    ensures txInfo.token.Some? ==>
      result.to == txInfo.token.value.address && result.value == "0x00"
      && result.data == Some(Erc20TransferData(txInfo.to,
           lib.toHex(lib.amountToSatoshi(txInfo.amount, txInfo.token.value.decimals))))
  {
    result := EthereumTransaction(
      txInfo.to,
      lib.toHex(lib.toWei(txInfo.amount, "ether")),
      txInfo.chainId,
      lib.toHex(txInfo.nonce),
      lib.toHex(txInfo.gasLimit),
      lib.toHex(lib.toWei(txInfo.gasPrice, "gwei")),
      None);
    if txInfo.token.None? && Truthy(txInfo.data) {
      result := result.(data := Some(SanitizeHex(txInfo.data.value)));
    }
    if txInfo.token.Some? {
      var token := txInfo.token.value;
      var erc20recipient := AbiWord(txInfo.to);
      var tokenAmount := lib.amountToSatoshi(txInfo.amount, token.decimals);
      var erc20amount := AbiWord(lib.toHex(tokenAmount));
      result := result.(data := Some("0x" + ERC20_TRANSFER + erc20recipient + erc20amount));
      result := result.(to := token.address);
      result := result.(value := "0x00");
    }
  }

  /** The ABI layout of the transfer call (section "Formal Specification of
      the Encoding" of the Solidity contract ABI): "0x", the 8-digit
      selector, then recipient and amount each left-padded with zeros to 64
      digits, when both are 0x-prefixed and fit in 32 bytes. */
  lemma Erc20TransferLayout(recipient: string, amountHex: string)
    requires HasHexPrefix(recipient) && |recipient| - 2 <= 64
    requires HasHexPrefix(amountHex) && |amountHex| - 2 <= 64
    ensures var d := Erc20TransferData(recipient, amountHex);
      |d| == 138 && d[..2] == "0x" && d[2..10] == ERC20_TRANSFER
      && d[10..74] == Zeros(64 - (|recipient| - 2)) + recipient[2..]
      && d[74..] == Zeros(64 - (|amountHex| - 2)) + amountHex[2..]
  {
    PadLeftBody(recipient, 64);
    PadLeftBody(amountHex, 64);
    var d := Erc20TransferData(recipient, amountHex);
    var w1, w2 := AbiWord(recipient), AbiWord(amountHex);
    assert d == "0x" + ERC20_TRANSFER + w1 + w2;
    assert d[10..74] == w1;
    assert d[74..] == w2;
  }

  /** A recipient without the 0x prefix loses two of its padding zeros: its
      word is only 62 digits long. */
  lemma UnprefixedRecipientWordIsShort(recipient: string)
    requires !HasHexPrefix(recipient) && |recipient| <= 64
    ensures |AbiWord(recipient)| == 62
  {
  }

  // Fee levels

  /** The level getFeeLevels appends to the network's levels. */
  const CustomLevel: FeeLevel := FeeLevel("custom", "0", -1, None, None)

  /** An Ethereum level as the form shows it: the price in gwei, and with a
      token the ERC-20 gas limit and the fee per transaction it implies. */
  function EthLevel(level: FeeLevel, token: bool, lib: Library): (r: FeeLevel)
    ensures r.name == level.name && r.blocks == level.blocks
    ensures r.feePerUnit == lib.fromWei(level.feePerUnit, "gwei")
    ensures token ==> r.feeLimit == Some(lib.erc20GasLimit)
    ensures token ==> r.feePerTx.Some?
    ensures token ==> Parse(r.feePerTx.value) == Times(Parse(lib.erc20GasLimit), Parse(level.feePerUnit))
    ensures !token ==> r.feeLimit == level.feeLimit && r.feePerTx == level.feePerTx
  {
    var perTx := Times(Parse(lib.erc20GasLimit), Parse(level.feePerUnit));
    ParseFormat(perTx);
    level.(
      feePerUnit := lib.fromWei(level.feePerUnit, "gwei"),
      feeLimit := if token then Some(lib.erc20GasLimit) else level.feeLimit,
      feePerTx := if token then Some(Format(perTx)) else level.feePerTx)
  }

  /** getFeeLevels: the network's levels followed by `custom`; on Ethereum
      each of them converted by EthLevel. */
  method GetFeeLevels(networkType: NetworkType, feeInfo: FeeInfo, token: bool, lib: Library)
    returns (levels: seq<FeeLevel>)
    ensures |levels| == |feeInfo.levels| + 1
    ensures forall i :: 0 <= i < |feeInfo.levels| ==> levels[i].name == feeInfo.levels[i].name
    ensures levels[|feeInfo.levels|].name == "custom"
    ensures networkType != Ethereum ==> levels == feeInfo.levels + [CustomLevel]
    ensures networkType == Ethereum ==> forall i :: 0 <= i < |levels| ==>
      levels[i] == EthLevel((feeInfo.levels + [CustomLevel])[i], token, lib)
  {
    var initialLevels := feeInfo.levels + [CustomLevel];
    if networkType != Ethereum {
      return initialLevels;
    }
    var convertedEthLevels: seq<FeeLevel> := [];
    var i := 0;
    while i < |initialLevels|
      invariant 0 <= i <= |initialLevels|
      invariant |convertedEthLevels| == i
      invariant forall k :: 0 <= k < i ==> convertedEthLevels[k] == EthLevel(initialLevels[k], token, lib)
    {
      convertedEthLevels := convertedEthLevels + [EthLevel(initialLevels[i], token, lib)];
      i := i + 1;
    }
    levels := convertedEthLevels;
  }

  // Small helpers

  datatype InputState = ErrorState | SuccessState

  /** getInputState: `error` when the field has an error, `success` when it
      has none and holds a non-empty value, nothing otherwise. */
  function GetInputState(error: Option<FieldError>, value: Option<string>): (r: Option<InputState>)
    ensures r == Some(ErrorState) <==> error.Some?
    ensures r == Some(SuccessState) <==> error.None? && Truthy(value)
    ensures r.None? <==> error.None? && !Truthy(value)
  {
    if error.Some? then Some(ErrorState)
    else if Truthy(value) then Some(SuccessState)
    else None
  }

  datatype FiatTicker = FiatTicker(rates: Option<map<string, real>>)
  datatype CoinFiatRates = CoinFiatRates(current: Option<FiatTicker>)

  /** getFiatRate: the current rate of `currency`, if the rates hold one. */
  function GetFiatRate(fiatRates: Option<CoinFiatRates>, currency: string): (r: Option<real>)
    ensures r.Some? <==>
      (fiatRates.Some? && fiatRates.value.current.Some? && fiatRates.value.current.value.rates.Some?
       && currency in fiatRates.value.current.value.rates.value)
    ensures r.Some? ==> r.value == fiatRates.value.current.value.rates.value[currency]
  {
    if fiatRates.None? || fiatRates.value.current.None? || fiatRates.value.current.value.rates.None? then None
    else
      var rates := fiatRates.value.current.value.rates.value;
      if currency in rates then Some(rates[currency]) else None
  }

  /** buildCurrencyOption: the currency as value and, upper-cased, as label. */
  function BuildCurrencyOption(currency: string): (r: CurrencyOption)
    ensures r.value == currency && |r.caption| == |currency|
    ensures NoLower(r.caption) && ToLower(r.caption) == ToLower(currency)
  {
    var caption := ToUpper(currency);
    UpperLowerAgree(currency);
    CurrencyOption(currency, caption)
  }

  datatype FeeOption = FeeOption(caption: string, value: string)

  /** buildFeeOptions: one select option per level, labelled and valued by
      the level's label. */
  method BuildFeeOptions(levels: seq<FeeLevel>) returns (result: seq<FeeOption>)
    ensures |result| == |levels|
    ensures forall i :: 0 <= i < |levels| ==>
      result[i].caption == levels[i].name && result[i].value == levels[i].name
  {
    result := [];
    var i := 0;
    while i < |levels|
      invariant 0 <= i <= |levels| && |result| == i
      invariant forall k :: 0 <= k < i ==> result[k] == FeeOption(levels[k].name, levels[k].name)
    {
      var name := levels[i].name;
      result := result + [FeeOption(name, name)];
      i := i + 1;
    }
  }

  /** getFeeUnits: the unit a fee rate is entered in. */
  function GetFeeUnits(networkType: NetworkType): (u: string)
    ensures networkType == Ethereum ==> u == "GWEI"
    ensures networkType == Ripple ==> u == "Drops"
    ensures networkType == Bitcoin ==> u == "sat/B"
  {
    if networkType == Ethereum then "GWEI"
    else if networkType == Ripple then "Drops"
    else "sat/B"
  }

  /** Different networks show different fee units. */
  lemma FeeUnitsDistinct(a: NetworkType, b: NetworkType)
    requires a != b
    ensures GetFeeUnits(a) != GetFeeUnits(b)
  {
  }

  datatype TokenOption = TokenOption(value: Option<string>, caption: string)

  /** The account fields buildTokenOptions reads. */
  datatype TokenAccount = TokenAccount(symbol: string, tokens: Option<seq<Token>>)

  function TokenName(token: Token): string
  {
    if Truthy(token.symbol) then token.symbol.value else "N/A"
  }

  /** buildTokenOptions: the account's own currency first (no value), then
      one option per token, valued by its address and labelled by its
      upper-cased symbol or "N/A". */
  method BuildTokenOptions(account: TokenAccount) returns (result: seq<TokenOption>)
    ensures var tokens := account.tokens.GetOr([]);
      |result| == 1 + |tokens|
      && result[0] == TokenOption(None, ToUpper(account.symbol))
      && forall i :: 0 <= i < |tokens| ==>
           result[i + 1] == TokenOption(Some(tokens[i].address), ToUpper(TokenName(tokens[i])))
  {
    result := [TokenOption(None, ToUpper(account.symbol))];
    if account.tokens.Some? {
      var tokens := account.tokens.value;
      var i := 0;
      while i < |tokens|
        invariant 0 <= i <= |tokens| && |result| == 1 + i
        invariant result[0] == TokenOption(None, ToUpper(account.symbol))
        invariant forall k :: 0 <= k < i ==>
          result[k + 1] == TokenOption(Some(tokens[k].address), ToUpper(TokenName(tokens[k])))
      {
        var tokenName := TokenName(tokens[i]);
        result := result + [TokenOption(Some(tokens[i].address), ToUpper(tokenName))];
        i := i + 1;
      }
    }
  }

  /** The first token with the given address. */
  function FirstWithAddress(tokens: seq<Token>, address: string): (r: Option<nat>)
    ensures r.Some? ==> r.value < |tokens| && tokens[r.value].address == address
    ensures r.Some? ==> forall j :: 0 <= j < r.value ==> tokens[j].address != address
    ensures r.None? ==> forall j :: 0 <= j < |tokens| ==> tokens[j].address != address
  {
    if tokens == [] then None
    else if tokens[0].address == address then Some(0)
    else
      var rest := FirstWithAddress(tokens[1..], address);
      if rest.Some? then Some(rest.value + 1) else None
  }

  /** findToken: the first token of the list with the given address;
      nothing when the address is empty or there are no tokens. */
  function FindToken(tokens: Option<seq<Token>>, address: Option<string>): (r: Option<Token>)
    ensures r.Some? ==> Truthy(address) && tokens.Some? && r.value.address == address.value
    ensures r.Some? ==>
      exists i :: 0 <= i < |tokens.value| && tokens.value[i] == r.value
        && (forall j :: 0 <= j < i ==> tokens.value[j].address != address.value)
    ensures r.None? <==>
      (!Truthy(address) || tokens.None? || forall t :: t in tokens.value ==> t.address != address.value)
  {
    if !Truthy(address) || tokens.None? then None
    else
      var i := FirstWithAddress(tokens.value, address.value);
      if i.Some? then Some(tokens.value[i.value]) else None
  }

  // Compose errors

  /** A JSON-like value, as react-hook-form's error tree. Object fields are
      kept in key order. */
  datatype Json =
    | Null
    | Bool(b: bool)
    | Number(n: real)
    | Str(s: string)
    | Arr(items: seq<Json>)
    | Obj(fields: seq<(string, Json)>)

  /** JavaScript truthiness (a NaN number is not modelled). */
  predicate JsonTruthy(j: Json)
  {
    match j
    case Null => false
    case Bool(b) => b
    case Number(n) => n != 0.0
    case Str(s) => s != ""
    case _ => true
  }

  /** The first field of an object with the given key. */
  function Field(fields: seq<(string, Json)>, key: string): (r: Option<Json>)
    ensures r.None? <==> forall i :: 0 <= i < |fields| ==> fields[i].0 != key
    ensures r.Some? ==> exists i :: 0 <= i < |fields| && fields[i] == (key, r.value)
                                  && forall j :: 0 <= j < i ==> fields[j].0 != key
  {
    if fields == [] then None
    else if fields[0].0 == key then Some(fields[0].1)
    else Field(fields[1..], key)
  }

  /** A non-array object whose own `type` property is 'compose'. */
  predicate IsComposeError(j: Json)
  {
    j.Obj? && Field(j.fields, "type") == Some(Str("compose"))
  }

  /** Object.keys with their values: an object's fields, or an array's
      indexes spelled in decimal. */
  function Entries(j: Json): (r: seq<(string, Json)>)
    ensures j.Obj? ==> r == j.fields
    ensures j.Arr? ==> |r| == |j.items| && forall i :: 0 <= i < |r| ==> r[i] == (NatToString(i), j.items[i])
    ensures !j.Obj? && !j.Arr? ==> r == []
  {
    match j
    case Obj(fields) => fields
    case Arr(items) => seq(|items|, i requires 0 <= i < |items| => (NatToString(i), items[i]))
    case _ => []
  }

  /** The path reported for a compose error under `key`. */
  function ErrorPath(prefix: string, key: string): string
  {
    if prefix != "" then prefix + "." + key else key
  }

  /** The element prefix findComposeErrors uses for every array. */
  function OutputsPrefix(index: nat): string
  {
    "outputs[" + NatToString(index) + "]"
  }

  /** findComposeErrors, as a specification: the paths of the compose errors
      of an error tree, in key order. */
  function ComposeErrors(errors: Json, prefix: string): (r: seq<string>)
    ensures !errors.Obj? && !errors.Arr? ==> r == []
    decreases errors, 1, 0
  {
    if errors.Obj? || errors.Arr? then EntriesErrors(errors, |Entries(errors)|, prefix) else []
  }

  /** The paths contributed by the first n entries of `owner`. */
  function EntriesErrors(owner: Json, n: nat, prefix: string): seq<string>
    requires n <= |Entries(owner)|
    decreases owner, 0, n
  {
    if n == 0 then []
    else
      var val := match owner
        case Obj(fields) => fields[n - 1].1
        case Arr(items) => items[n - 1]
        case _ => Null;
      assert val == Entries(owner)[n - 1].1;
      EntriesErrors(owner, n - 1, prefix) + ValueErrors(Entries(owner)[n - 1].0, val, prefix)
  }

  /** One more entry adds what its value contributes. */
  lemma EntriesErrorsStep(owner: Json, i: nat, prefix: string)
    requires i < |Entries(owner)|
    ensures EntriesErrors(owner, i + 1, prefix)
      == EntriesErrors(owner, i, prefix) + ValueErrors(Entries(owner)[i].0, Entries(owner)[i].1, prefix)
  {
  }

  /** The paths contributed by the value under `key`: an array is walked
      element by element, a compose error is reported, anything else is
      skipped. */
  function ValueErrors(key: string, val: Json, prefix: string): seq<string>
    decreases val, 2, 0
  {
    if !JsonTruthy(val) then []
    else if val.Arr? then ItemsErrors(val, |val.items|)
    else if IsComposeError(val) then [ErrorPath(prefix, key)]
    else []
  }

  /** The paths found in the first m elements of an array value, each
      walked with prefix outputs[index]. */
  function ItemsErrors(arr: Json, m: nat): seq<string>
    requires arr.Arr? && m <= |arr.items|
    decreases arr, 0, m
  {
    if m == 0 then [] else ItemsErrors(arr, m - 1) + ComposeErrors(arr.items[m - 1], OutputsPrefix(m - 1))
  }

  /** findComposeErrors: collects the paths by walking the keys in order,
      pushing one path per compose error and recursing into array values. */
  method FindComposeErrors(errors: Json, prefix: string) returns (composeErrors: seq<string>)
    ensures composeErrors == ComposeErrors(errors, prefix)
    decreases errors, 1
  {
    composeErrors := [];
    if !errors.Obj? && !errors.Arr? {
      return;
    }
    var entries := Entries(errors);
    var i := 0;
    while i < |entries|
      invariant 0 <= i <= |entries|
      invariant composeErrors == EntriesErrors(errors, i, prefix)
    {
      var key := entries[i].0;
      var val := if errors.Obj? then errors.fields[i].1 else errors.items[i];
      assert val == entries[i].1;
      EntriesErrorsStep(errors, i, prefix);
      if JsonTruthy(val) {
        if val.Arr? {
          var found := FindItemsErrors(val);
          composeErrors := composeErrors + found;
        } else if IsComposeError(val) {
          composeErrors := composeErrors + [ErrorPath(prefix, key)];
        }
      }
      i := i + 1;
    }
  }

  /** The inner forEach of findComposeErrors: each element of an array
      value is searched with the prefix outputs[index]. */
  method FindItemsErrors(arr: Json) returns (found: seq<string>)
    requires arr.Arr?
    ensures found == ItemsErrors(arr, |arr.items|)
    decreases arr, 0
  {
    found := [];
    var index := 0;
    while index < |arr.items|
      invariant 0 <= index <= |arr.items|
      invariant found == ItemsErrors(arr, index)
    {
      var more := FindComposeErrors(arr.items[index], OutputsPrefix(index));
      found := found + more;
      index := index + 1;
    }
  }

  lemma {:induction false} EntriesErrorsPrefix(f1: seq<(string, Json)>, f2: seq<(string, Json)>, n: nat, prefix: string)
    requires n <= |f1|
    ensures EntriesErrors(Obj(f1 + f2), n, prefix) == EntriesErrors(Obj(f1), n, prefix)
  {
    if n > 0 {
      EntriesErrorsPrefix(f1, f2, n - 1, prefix);
      assert (f1 + f2)[n - 1] == f1[n - 1];
    }
  }

  lemma {:induction false} EntriesErrorsSuffix(f1: seq<(string, Json)>, f2: seq<(string, Json)>, n: nat, prefix: string)
    requires n <= |f2|
    ensures EntriesErrors(Obj(f1 + f2), |f1| + n, prefix)
      == EntriesErrors(Obj(f1), |f1|, prefix) + EntriesErrors(Obj(f2), n, prefix)
  {
    if n == 0 {
      EntriesErrorsPrefix(f1, f2, |f1|, prefix);
    } else {
      EntriesErrorsSuffix(f1, f2, n - 1, prefix);
      var whole, k, entry := Obj(f1 + f2), |f1| + n, f2[n - 1];
      assert (f1 + f2)[k - 1] == entry;
      var here := ValueErrors(entry.0, entry.1, prefix);
      assert EntriesErrors(whole, k, prefix) == EntriesErrors(whole, k - 1, prefix) + here;
      assert EntriesErrors(Obj(f2), n, prefix) == EntriesErrors(Obj(f2), n - 1, prefix) + here;
    }
  }

  /** The paths of an object are those of its first fields followed by
      those of the rest: the output follows key order. */
  lemma ComposeErrorsConcat(f1: seq<(string, Json)>, f2: seq<(string, Json)>, prefix: string)
    ensures ComposeErrors(Obj(f1 + f2), prefix) == ComposeErrors(Obj(f1), prefix) + ComposeErrors(Obj(f2), prefix)
  {
    EntriesErrorsSuffix(f1, f2, |f2|, prefix);
  }

  /** The compose-error paths of a field list with no array values, read
      left to right. */
  function FlatComposePaths(fields: seq<(string, Json)>, prefix: string): seq<string>
  {
    if fields == [] then []
    else
      var head := if IsComposeError(fields[0].1) then [ErrorPath(prefix, fields[0].0)] else [];
      head + FlatComposePaths(fields[1..], prefix)
  }

  lemma SingleFieldErrors(key: string, val: Json, prefix: string)
    ensures ComposeErrors(Obj([(key, val)]), prefix) == ValueErrors(key, val, prefix)
  {
    var owner := Obj([(key, val)]);
    assert Entries(owner) == [(key, val)];
    assert EntriesErrors(owner, 1, prefix) == EntriesErrors(owner, 0, prefix) + ValueErrors(key, val, prefix);
  }

  /** Without array values, exactly the compose errors are reported, each
      under its own key, in key order. */
  lemma {:induction false} ComposeErrorsFlat(fields: seq<(string, Json)>, prefix: string)
    requires forall i :: 0 <= i < |fields| ==> !fields[i].1.Arr?
    ensures ComposeErrors(Obj(fields), prefix) == FlatComposePaths(fields, prefix)
  {
    if fields != [] {
      ComposeErrorsFlat(fields[1..], prefix);
      assert fields == [fields[0]] + fields[1..];
      ComposeErrorsConcat([fields[0]], fields[1..], prefix);
      SingleFieldErrors(fields[0].0, fields[0].1, prefix);
    }
  }

  /** An array value's elements are reported under outputs[index] whatever
      the key and prefix above them. */
  lemma HardCodedOutputsPrefix(key: string, field: string, prefix: string)
    ensures ComposeErrors(Obj([(key, Arr([Obj([(field, ComposeType)])]))]), prefix) == ["outputs[0]." + field]
  {
    var compose := ComposeType;
    var element := Obj([(field, compose)]);
    var arr := Arr([element]);
    assert IsComposeError(compose);
    SingleFieldErrors(field, compose, OutputsPrefix(0));
    assert NatToString(0) == "0";
    assert OutputsPrefix(0) == "outputs[0]";
    assert ErrorPath(OutputsPrefix(0), field) == "outputs[0]" + "." + field == "outputs[0]." + field;
    assert ComposeErrors(element, OutputsPrefix(0)) == ["outputs[0]." + field];
    assert ItemsErrors(arr, 1) == ItemsErrors(arr, 0) + ComposeErrors(element, OutputsPrefix(0));
    SingleFieldErrors(key, arr, prefix);
  }

  /** The cases of the unit test of findComposeErrors. */
  lemma ComposeErrorsExamples()
    ensures ComposeErrors(Obj([]), "") == []
    ensures ComposeErrors(Null, "") == [] && ComposeErrors(Bool(true), "") == []
    ensures ComposeErrors(Number(1.0), "") == [] && ComposeErrors(Str("A"), "") == []
    ensures ComposeErrors(Obj([("someField", ValidateType)]), "") == []
    ensures ComposeErrors(Obj([("someField", ComposeType)]), "") == ["someField"]
  {
    assert IsComposeError(ComposeType) && !IsComposeError(ValidateType);
    ComposeErrorsFlat([("someField", ValidateType)], "");
    ComposeErrorsFlat([("someField", ComposeType)], "");
  }

  const ComposeType: Json := Obj([("type", Str("compose"))])
  const ValidateType: Json := Obj([("type", Str("validate"))])

  lemma OutputsArrayExample()
    ensures ItemsErrors(TestOutputs, 2) == ["outputs[0].amount", "outputs[1].address"]
  {
    assert IsComposeError(ComposeType) && !IsComposeError(ValidateType);
    var o0 := Obj([("amount", ComposeType), ("address", ValidateType)]);
    var o1 := Obj([("amount", ValidateType), ("address", ComposeType)]);
    var outputs := Arr([o0, o1]);
    ComposeErrorsFlat(o0.fields, OutputsPrefix(0));
    ComposeErrorsFlat(o1.fields, OutputsPrefix(1));
    assert NatToString(0) == "0" && NatToString(1) == "1";
    assert OutputsPrefix(0) == "outputs[0]" && OutputsPrefix(1) == "outputs[1]";
    assert ErrorPath("outputs[0]", "amount") == "outputs[0].amount";
    assert ErrorPath("outputs[1]", "address") == "outputs[1].address";
    assert FlatComposePaths(o0.fields[1..], OutputsPrefix(0)) == [];
    assert FlatComposePaths(o0.fields, OutputsPrefix(0)) == ["outputs[0].amount"];
    assert FlatComposePaths(o1.fields[1..], OutputsPrefix(1)) == ["outputs[1].address"];
    assert FlatComposePaths(o1.fields, OutputsPrefix(1)) == ["outputs[1].address"];
    assert ItemsErrors(outputs, 1) == ItemsErrors(outputs, 0) + ComposeErrors(o0, OutputsPrefix(0));
    assert ItemsErrors(outputs, 2) == ItemsErrors(outputs, 1) + ComposeErrors(o1, OutputsPrefix(1));
  }

  lemma InvalidArrayExample()
    ensures ItemsErrors(TestInvalidArray, 5) == []
  {
    assert ComposeErrors(Obj([]), OutputsPrefix(4)) == [];
  }

  lemma {:induction false} NoComposeErrorsFlat(fields: seq<(string, Json)>, prefix: string)
    requires forall i :: 0 <= i < |fields| ==> !IsComposeError(fields[i].1)
    ensures FlatComposePaths(fields, prefix) == []
  {
    if fields != [] {
      NoComposeErrorsFlat(fields[1..], prefix);
    }
  }

  /** The error tree of the nested unit-test case, in three parts. */
  const TestOutputs: Json := Arr([Obj([("amount", ComposeType), ("address", ValidateType)]),
                                  Obj([("amount", ValidateType), ("address", ComposeType)])])
  const TestInvalidArray: Json := Arr([Null, Bool(true), Number(1.0), Str("A"), Obj([])])
  const TestPlainFields: seq<(string, Json)> := [
    ("topLevelField", ComposeType), ("invalidFieldNull", Null), ("invalidFieldBool", Bool(true)),
    ("invalidFieldNumber", Number(1.0)), ("invalidFieldString", Str("A")), ("invalidFieldEmpty", Obj([]))]
  const TestErrorTree: Json := Obj([("someField", ValidateType), ("outputs", TestOutputs)]
    + TestPlainFields + [("invalidArray", TestInvalidArray)])

  lemma PlainFieldsExample()
    ensures ComposeErrors(Obj(TestPlainFields), "") == ["topLevelField"]
  {
    var flat := TestPlainFields;
    assert IsComposeError(ComposeType);
    ComposeErrorsFlat(flat, "");
    assert !IsComposeError(Obj([]));
    NoComposeErrorsFlat(flat[1..], "");
  }

  lemma LeadingFieldsExample()
    ensures ComposeErrors(Obj([("someField", ValidateType), ("outputs", TestOutputs)]), "")
      == ["outputs[0].amount", "outputs[1].address"]
  {
    assert !IsComposeError(ValidateType);
    OutputsArrayExample();
    SingleFieldErrors("outputs", TestOutputs, "");
    SingleFieldErrors("someField", ValidateType, "");
    ComposeErrorsConcat([("someField", ValidateType)], [("outputs", TestOutputs)], "");
    assert [("someField", ValidateType)] + [("outputs", TestOutputs)]
      == [("someField", ValidateType), ("outputs", TestOutputs)];
  }

  lemma TrailingFieldExample()
    ensures ComposeErrors(Obj([("invalidArray", TestInvalidArray)]), "") == []
  {
    InvalidArrayExample();
    SingleFieldErrors("invalidArray", TestInvalidArray, "");
  }

  /** The nested case of the unit test: compose errors under the outputs
      array are reported with their element index, in key order. */
  lemma ComposeErrorsNestedExample()
    ensures ComposeErrors(TestErrorTree, "") == ["outputs[0].amount", "outputs[1].address", "topLevelField"]
  {
    var head := [("someField", ValidateType), ("outputs", TestOutputs)];
    var last := [("invalidArray", TestInvalidArray)];
    LeadingFieldsExample();
    PlainFieldsExample();
    TrailingFieldExample();
    var leading := ["outputs[0].amount", "outputs[1].address"];
    ComposeErrorsConcat(head, TestPlainFields, "");
    assert ComposeErrors(Obj(head + TestPlainFields), "") == leading + ["topLevelField"];
    ComposeErrorsConcat(head + TestPlainFields, last, "");
    assert ComposeErrors(Obj(head + TestPlainFields + last), "") == leading + ["topLevelField"] + [];
    assert TestErrorTree == Obj(head + TestPlainFields + last);
  }


  // Valid outputs

  /** The filter condition of findValidOutputs: a payment with a string
      amount that is non-empty or set-max, or an OP_RETURN with data. */
  predicate IsValidOutput(output: Option<Output>, index: int, setMaxOutputId: Option<int>)
  {
    output.Some? &&
    var o := output.value;
    (o.outputType == Some("payment") && o.amount.Some? && (setMaxOutputId == Some(index) || o.amount.value != ""))
    || (o.outputType == Some("opreturn") && o.dataHex.Some? && o.dataHex.value != "")
  }

  /** The valid ones among the first n outputs, in order. */
  function ValidOutputs(outputs: seq<Option<Output>>, n: nat, setMaxOutputId: Option<int>): seq<Output>
    requires n <= |outputs|
  {
    if n == 0 then []
    else
      var kept := if IsValidOutput(outputs[n - 1], n - 1, setMaxOutputId) then [outputs[n - 1].value] else [];
      ValidOutputs(outputs, n - 1, setMaxOutputId) + kept
  }

  /** findValidOutputs: nothing when the outputs are not a list, otherwise
      the valid outputs in their order. */
  function FindValidOutputs(outputs: Option<seq<Option<Output>>>, setMaxOutputId: Option<int>): (r: seq<Output>)
    ensures outputs.None? ==> r == []
    ensures outputs.Some? ==> |r| <= |outputs.value|
  {
    if outputs.None? then [] else
    ValidOutputsLength(outputs.value, |outputs.value|, setMaxOutputId);
    ValidOutputs(outputs.value, |outputs.value|, setMaxOutputId)
  }

  lemma {:induction false} ValidOutputsLength(outputs: seq<Option<Output>>, n: nat, setMaxOutputId: Option<int>)
    requires n <= |outputs|
    ensures |ValidOutputs(outputs, n, setMaxOutputId)| <= n
  {
    if n > 0 { ValidOutputsLength(outputs, n - 1, setMaxOutputId); }
  }

  /** The valid outputs are exactly the outputs at the indexes that pass the
      filter, kept in increasing index order. */
  lemma {:induction false} ValidOutputsAreSubsequence(outputs: seq<Option<Output>>, n: nat, setMaxOutputId: Option<int>)
    returns (kept: seq<nat>)
    requires n <= |outputs|
    ensures |kept| == |ValidOutputs(outputs, n, setMaxOutputId)|
    ensures forall j :: 0 <= j < |kept| ==>
      kept[j] < n && outputs[kept[j]] == Some(ValidOutputs(outputs, n, setMaxOutputId)[j])
    ensures forall j, k :: 0 <= j < k < |kept| ==> kept[j] < kept[k]
    ensures forall i :: 0 <= i < n ==> (i in kept <==> IsValidOutput(outputs[i], i, setMaxOutputId))
  {
    if n == 0 {
      kept := [];
    } else {
      var before := ValidOutputsAreSubsequence(outputs, n - 1, setMaxOutputId);
      var prefix := ValidOutputs(outputs, n - 1, setMaxOutputId);
      if IsValidOutput(outputs[n - 1], n - 1, setMaxOutputId) {
        kept := before + [n - 1];
        assert ValidOutputs(outputs, n, setMaxOutputId) == prefix + [outputs[n - 1].value];
        assert forall j :: 0 <= j < |before| ==> kept[j] == before[j];
        assert kept[|before|] == n - 1;
        assert forall i :: 0 <= i < n - 1 ==> (i in kept <==> i in before);
      } else {
        kept := before;
        assert ValidOutputs(outputs, n, setMaxOutputId) == prefix;
        assert n - 1 !in kept;
      }
    }
  }

  /** The unit test's outputs carry no `type`, so none of them is kept. */
  lemma {:induction false} UntypedOutputsAreDropped(outputs: seq<Option<Output>>, n: nat, setMaxOutputId: Option<int>)
    requires n <= |outputs|
    requires forall i :: 0 <= i < n ==> outputs[i].None? || outputs[i].value.outputType.None?
    ensures ValidOutputs(outputs, n, setMaxOutputId) == []
  {
    if n > 0 { UntypedOutputsAreDropped(outputs, n - 1, setMaxOutputId); }
  }

  // Bitcoin compose outputs

  /** The items one form output contributes: its OP_RETURN data, then, for
      the set-max output, send-max (with its address) or
      send-max-noaddress, and for any other output with an amount, external
      (with its address) or noaddress, the amount in satoshi. */
  function OutputItems(output: Output, isMaxActive: bool, lib: Library): seq<ComposeOutput>
  {
    var opReturn :=
      if output.outputType == Some("opreturn") && Truthy(output.dataHex)
      then [ComposeOutput(OpReturn, None, None, output.dataHex)] else [];
    var address := output.address;
    var payment :=
      if isMaxActive then
        if address != "" then [ComposeOutput(SendMax, Some(address), None, None)]
        else [ComposeOutput(SendMaxNoAddress, None, None, None)]
      else if Truthy(output.amount) then
        var amount := lib.networkAmountToSatoshi(output.amount.value, "btc");
        if address != "" then [ComposeOutput(External, Some(address), Some(amount), None)]
        else [ComposeOutput(NoAddress, None, Some(amount), None)]
      else [];
    opReturn + payment
  }

  /** The items of the first n outputs, in output order. */
  function ComposeItems(outputs: seq<Output>, n: nat, setMaxOutputId: Option<int>, lib: Library): seq<ComposeOutput>
    requires n <= |outputs|
  {
    if n == 0 then []
    else ComposeItems(outputs, n - 1, setMaxOutputId, lib) + OutputItems(outputs[n - 1], setMaxOutputId == Some(n - 1), lib)
  }

  /** An output with an address but no amount. */
  predicate IsIncomplete(output: Output)
  {
    output.address != "" && !Truthy(output.amount)
  }

  predicate IsFinalKind(kind: OutputKind) { kind == SendMax || kind == External }

  /** The first send-max or external item. */
  function FirstFinal(items: seq<ComposeOutput>): (r: Option<nat>)
    ensures r.Some? ==> r.value < |items| && IsFinalKind(items[r.value].kind)
    ensures r.Some? ==> forall j :: 0 <= j < r.value ==> !IsFinalKind(items[j].kind)
    ensures r.None? ==> forall j :: 0 <= j < |items| ==> !IsFinalKind(items[j].kind)
  {
    if items == [] then None
    else if IsFinalKind(items[0].kind) then Some(0)
    else
      var rest := FirstFinal(items[1..]);
      if rest.Some? then Some(rest.value + 1) else None
  }

  /** external becomes noaddress, send-max becomes send-max-noaddress; the
      item keeps its other fields. */
  function Demoted(item: ComposeOutput): ComposeOutput
  {
    item.(kind := if item.kind == External then NoAddress else SendMaxNoAddress)
  }

  /** The corner case of getBitcoinComposeOutputs: the first final item
      demoted, so that the transaction is not composed as final. */
  function FirstFinalDemoted(items: seq<ComposeOutput>): seq<ComposeOutput>
  {
    var first := FirstFinal(items);
    if first.Some? then items[first.value := Demoted(items[first.value])] else items
  }

  /** getBitcoinComposeOutputs: pushes the items of every output in turn,
      then, when some output has an address but no amount, rewrites the
      type of the first final item in place. */
  method GetBitcoinComposeOutputs(outputs: Option<seq<Output>>, setMaxOutputId: Option<int>, lib: Library)
    returns (result: seq<ComposeOutput>)
    ensures outputs.None? ==> result == []
    ensures outputs.Some? ==>
      var items := ComposeItems(outputs.value, |outputs.value|, setMaxOutputId, lib);
      result == if exists i :: 0 <= i < |outputs.value| && IsIncomplete(outputs.value[i])
                then FirstFinalDemoted(items) else items
  {
    result := [];
    if outputs.None? {
      return;
    }
    var outs := outputs.value;
    var index := 0;
    while index < |outs|
      invariant 0 <= index <= |outs|
      invariant result == ComposeItems(outs, index, setMaxOutputId, lib)
    {
      var output := outs[index];
      var before := result;
      if output.outputType == Some("opreturn") && Truthy(output.dataHex) {
        result := result + [ComposeOutput(OpReturn, None, None, output.dataHex)];
      }
      var address := output.address;
      var isMaxActive := setMaxOutputId == Some(index);
      if isMaxActive {
        if address != "" {
          result := result + [ComposeOutput(SendMax, Some(address), None, None)];
        } else {
          result := result + [ComposeOutput(SendMaxNoAddress, None, None, None)];
        }
      } else if Truthy(output.amount) {
        var amount := lib.networkAmountToSatoshi(output.amount.value, "btc");
        if address != "" {
          result := result + [ComposeOutput(External, Some(address), Some(amount), None)];
        } else {
          result := result + [ComposeOutput(NoAddress, None, Some(amount), None)];
        }
      }
      assert result == before + OutputItems(output, isMaxActive, lib);
      index := index + 1;
    }

    var hasIncompleteOutput := false;
    var k := 0;
    while k < |outs| && !hasIncompleteOutput
      invariant 0 <= k <= |outs|
      invariant hasIncompleteOutput ==> exists i :: 0 <= i < |outs| && IsIncomplete(outs[i])
      invariant !hasIncompleteOutput ==> forall i :: 0 <= i < k ==> !IsIncomplete(outs[i])
    {
      hasIncompleteOutput := IsIncomplete(outs[k]);
      k := k + 1;
    }

    if hasIncompleteOutput {
      var f := 0;
      while f < |result| && !IsFinalKind(result[f].kind)
        invariant 0 <= f <= |result|
        invariant forall j :: 0 <= j < f ==> !IsFinalKind(result[j].kind)
      {
        f := f + 1;
      }
      assert FirstFinal(result) == if f < |result| then Some(f) else None;
      if f < |result| {
        var finalOutput := result[f];
        result := result[f := finalOutput.(kind := if finalOutput.kind == External then NoAddress else SendMaxNoAddress)];
      }
    }
  }

  function CountKinds(items: seq<ComposeOutput>, kinds: set<OutputKind>): nat
  {
    if items == [] then 0
    else CountKinds(items[..|items| - 1], kinds) + (if items[|items| - 1].kind in kinds then 1 else 0)
  }

  lemma {:induction false} CountKindsAppend(a: seq<ComposeOutput>, b: seq<ComposeOutput>, kinds: set<OutputKind>)
    ensures CountKinds(a + b, kinds) == CountKinds(a, kinds) + CountKinds(b, kinds)
  {
    if b == [] {
      assert a + b == a;
    } else {
      assert (a + b)[..|a + b| - 1] == a + b[..|b| - 1];
      CountKindsAppend(a, b[..|b| - 1], kinds);
    }
  }

  /** Exactly one send-max item comes out when the set-max id designates one
      of the outputs, and none otherwise. */
  lemma {:induction false} SendMaxItemCount(outputs: seq<Output>, n: nat, setMaxOutputId: Option<int>, lib: Library)
    requires n <= |outputs|
    ensures CountKinds(ComposeItems(outputs, n, setMaxOutputId, lib), {SendMax, SendMaxNoAddress})
         == if setMaxOutputId.Some? && 0 <= setMaxOutputId.value < n then 1 else 0
  {
    if n > 0 {
      var kinds := {SendMax, SendMaxNoAddress};
      var isMax := setMaxOutputId == Some(n - 1);
      var prefix := ComposeItems(outputs, n - 1, setMaxOutputId, lib);
      var items := OutputItems(outputs[n - 1], isMax, lib);
      SendMaxItemCount(outputs, n - 1, setMaxOutputId, lib);
      CountKindsAppend(prefix, items, kinds);
      OutputSendMaxCount(outputs[n - 1], isMax, lib);
      var before := if setMaxOutputId.Some? && 0 <= setMaxOutputId.value < n - 1 then 1 else 0;
      var here := if isMax then 1 else 0;
      assert CountKinds(prefix, kinds) == before;
      assert CountKinds(items, kinds) == here;
      assert ComposeItems(outputs, n, setMaxOutputId, lib) == prefix + items;
      assert (if setMaxOutputId.Some? && 0 <= setMaxOutputId.value < n then 1 else 0) == before + here;
    }
  }

  /** One output yields a send-max item exactly when it is the set-max one. */
  lemma OutputSendMaxCount(output: Output, isMaxActive: bool, lib: Library)
    ensures CountKinds(OutputItems(output, isMaxActive, lib), {SendMax, SendMaxNoAddress}) == if isMaxActive then 1 else 0
  {
    var kinds := {SendMax, SendMaxNoAddress};
    var items := OutputItems(output, isMaxActive, lib);
    var opReturn :=
      if output.outputType == Some("opreturn") && Truthy(output.dataHex)
      then [ComposeOutput(OpReturn, None, None, output.dataHex)] else [];
    var address := output.address;
    var payment :=
      if isMaxActive then
        if address != "" then [ComposeOutput(SendMax, Some(address), None, None)]
        else [ComposeOutput(SendMaxNoAddress, None, None, None)]
      else if Truthy(output.amount) then
        var amount := lib.networkAmountToSatoshi(output.amount.value, "btc");
        if address != "" then [ComposeOutput(External, Some(address), Some(amount), None)]
        else [ComposeOutput(NoAddress, None, Some(amount), None)]
      else [];
    assert items == opReturn + payment;
    CountKindsAppend(opReturn, payment, kinds);
    SingleCount(opReturn, kinds);
    SingleCount(payment, kinds);
    assert |payment| == 1 && payment[0].kind in kinds <==> isMaxActive;
  }

  lemma SingleCount(items: seq<ComposeOutput>, kinds: set<OutputKind>)
    requires |items| <= 1
    ensures CountKinds(items, kinds) == if |items| == 1 && items[0].kind in kinds then 1 else 0
  {
    if |items| == 1 { assert items[..0] == []; }
  }

  /** An output that is not the set-max output and has no amount contributes
      at most its OP_RETURN item. */
  lemma OutputWithoutAmountItems(output: Output, lib: Library)
    requires !Truthy(output.amount)
    ensures forall item :: item in OutputItems(output, false, lib) ==> item.kind == OpReturn
    ensures |OutputItems(output, false, lib)| <= 1
  {
  }

  /** The items of a concatenation are the items of each part, the set-max id
      taken relative to the second part. */
  lemma {:induction false} ComposeItemsConcat(a: seq<Output>, b: seq<Output>, m: nat, setMaxOutputId: Option<int>, lib: Library)
    requires m <= |b|
    ensures ComposeItems(a + b, |a| + m, setMaxOutputId, lib)
         == ComposeItems(a, |a|, setMaxOutputId, lib)
          + ComposeItems(b, m, if setMaxOutputId.Some? then Some(setMaxOutputId.value - |a|) else None, lib)
  {
    var shifted := if setMaxOutputId.Some? then Some(setMaxOutputId.value - |a|) else None;
    if m == 0 {
      ComposeItemsPrefix(a, b, |a|, setMaxOutputId, lib);
    } else {
      ComposeItemsConcat(a, b, m - 1, setMaxOutputId, lib);
      assert (a + b)[|a| + m - 1] == b[m - 1];
      assert (setMaxOutputId == Some(|a| + m - 1)) == (shifted == Some(m - 1));
    }
  }

  lemma {:induction false} ComposeItemsPrefix(a: seq<Output>, b: seq<Output>, n: nat, setMaxOutputId: Option<int>, lib: Library)
    requires n <= |a|
    ensures ComposeItems(a + b, n, setMaxOutputId, lib) == ComposeItems(a, n, setMaxOutputId, lib)
  {
    if n > 0 {
      ComposeItemsPrefix(a, b, n - 1, setMaxOutputId, lib);
      assert (a + b)[n - 1] == a[n - 1];
    }
  }

  /** Demotion rewrites the first final item's type and nothing else: same
      length, same addresses, amounts and data, one final item fewer. */
  lemma FirstFinalDemotedShape(items: seq<ComposeOutput>)
    ensures |FirstFinalDemoted(items)| == |items|
    ensures forall j :: 0 <= j < |items| ==>
      FirstFinalDemoted(items)[j].address == items[j].address
      && FirstFinalDemoted(items)[j].amount == items[j].amount
      && FirstFinalDemoted(items)[j].dataHex == items[j].dataHex
    ensures forall j :: 0 <= j < |items| && FirstFinal(items) != Some(j) ==> FirstFinalDemoted(items)[j] == items[j]
    ensures FirstFinal(items).Some? ==>
      var f := FirstFinal(items).value;
      FirstFinalDemoted(items)[f].kind == (if items[f].kind == External then NoAddress else SendMaxNoAddress)
    ensures CountKinds(FirstFinalDemoted(items), {SendMax, External})
         == if FirstFinal(items).Some? then CountKinds(items, {SendMax, External}) - 1 else CountKinds(items, {SendMax, External})
  {
    var first := FirstFinal(items);
    if first.Some? {
      var f := first.value;
      var d := FirstFinalDemoted(items);
      var kinds := {SendMax, External};
      assert items == items[..f] + [items[f]] + items[f + 1..];
      assert d == items[..f] + [Demoted(items[f])] + items[f + 1..];
      CountKindsAppend(items[..f] + [items[f]], items[f + 1..], kinds);
      CountKindsAppend(items[..f], [items[f]], kinds);
      CountKindsAppend(items[..f] + [Demoted(items[f])], items[f + 1..], kinds);
      CountKindsAppend(items[..f], [Demoted(items[f])], kinds);
      assert [items[f]][..0] == [];
      assert [Demoted(items[f])][..0] == [];
    }
  }
}
