/** The records the send form passes around: form outputs and form state,
    fee levels, tokens, and the tagged result of composing a transaction. */
module SendFormTypes {
  import opened Wrappers

  datatype NetworkType = Bitcoin | Ethereum | Ripple

  /** JavaScript truthiness of an optional string: present and not empty. */
  predicate Truthy(s: Option<string>) { s.Some? && s.value != "" }

  /** A currency select option, `{ value, label }` (`label` is spelled
      `caption` here, as `label` is a Dafny keyword). */
  datatype CurrencyOption = CurrencyOption(value: string, caption: string)

  /** One output row of the form. `outputType`, `amount` and `dataHex` may be
      absent (undefined). */
  datatype Output = Output(
    outputId: int,
    outputType: Option<string>,
    address: string,
    amount: Option<string>,
    fiat: string,
    currency: CurrencyOption,
    dataHex: Option<string>)

  /** The values held by the form. An absent `setMaxOutputId`,
      `selectedFee` or `feePerUnit` is `None`. */
  datatype FormState = FormState(
    txType: string,
    setMaxOutputId: Option<int>,
    selectedFee: Option<string>,
    feePerUnit: Option<string>,
    feeLimit: string,
    bitcoinLockTime: string,
    ethereumGasPrice: string,
    ethereumGasLimit: string,
    ethereumData: string,
    rippleDestinationTag: string,
    outputs: seq<Output>)

  /** A fee level as trezor-connect and the fee reducer describe it; its
      `label` ('normal', 'custom', ...) is spelled `name` here. */
  datatype FeeLevel = FeeLevel(
    name: string,
    feePerUnit: string,
    blocks: int,
    feeLimit: Option<string>,
    feePerTx: Option<string>)

  /** The fee state of one network. */
  datatype FeeInfo = FeeInfo(blockHeight: int, blockTime: int, minFee: int, maxFee: int, levels: seq<FeeLevel>)

  /** The payload of a composed transaction that is not an error. */
  datatype TxInfo = TxInfo(
    totalSpent: string,
    fee: string,
    feePerUnit: Option<string>,
    feePerByte: Option<string>,
    max: string)

  /** A composed transaction: `nonfinal` (complete but for the address),
      `final` (ready to sign) or `error` with its code. */
  datatype ComposeResult = NonFinal(info: TxInfo) | Final(info: TxInfo) | Error(error: string)

  /** An ERC-20 token of an account. */
  datatype Token = Token(address: string, symbol: Option<string>, decimals: int, balance: string)

  /** A react-hook-form field error: its `type` and `message`. */
  datatype FieldError = FieldError(errorType: string, message: string)

  /** The `type` of an output handed to trezor-connect's composeTransaction;
      `Payment` is an output given only by address and amount. */
  datatype OutputKind = OpReturn | SendMax | SendMaxNoAddress | External | NoAddress | Payment

  /** An output handed to trezor-connect, with the fields it carries. */
  datatype ComposeOutput = ComposeOutput(
    kind: OutputKind,
    address: Option<string>,
    amount: Option<string>,
    dataHex: Option<string>)
}
