# Send form of Trezor Suite, modelled in Dafny

This project models the send-form core of Trezor Suite's wallet and proves properties of the model. The core covers:

- the amount and fee arithmetic on decimal strings (`calculateTotal`, `calculateMax`, `calculateEthFee`);
- hex normalisation and the ERC-20 `transfer` call data built for Ethereum tokens;
- the validators: compose-error paths in an error tree, valid outputs, and the locktime rule;
- the shaping of Bitcoin outputs for composing, including the demotion of the first final output;
- the per-network compose classification for Ripple and Ethereum into `nonfinal`, `final` or `error`;
- the form-state operations of the `useSendForm` hook: defaults, add and remove output, fee-level change, fee fallback after composing, set-max handling, sign and compose guards;
- the wallet-settings actions, the fee reducer and the add-account button rule.

Modules:

- `Text`: digit strings, `Pow10`, ASCII case mapping.
- `BigDecimal`: the bignumber.js subset the form uses. A value is `NaN` or a canonical decimal `m / 10^e`.
  - `Parse` reads the plain decimal syntax.
  - `Format` spells `toFixed()`.
  - `Plus`, `Minus` and `Times` are exact.
  - The comparisons are `IsLessThan`, `IsGreaterThan`, `IsLessThanOrEqualTo` and `IsInteger`.
  - Canonical values are equal exactly when they denote the same number (`CanonicalUnique`), so results are stated as equalities of values.
- `Conversions`: the unit conversions the form imports (`networkAmountToSatoshi`, `formatNetworkAmount`, `amountToSatoshi`, `toHex`, `toWei`, `fromWei`, `ERC20_GAS_LIMIT`).
  - Their code is not part of this model. They are carried as arrow fields of a `Library` value that every operation takes as a parameter.
  - `padLeft` is written out after web3-utils' `leftPad`.
  - `ERC20_TRANSFER` is the EIP-20 `transfer(address,uint256)` selector `a9059cbb`.
- `SendFormTypes`: the records the form works on (outputs, form values, fee levels, compose results).
- `SendFormUtils`: `sendFormUtils.ts`.
  - The loops that push into a local array are methods proved against specification functions: `FindComposeErrors`, `BuildFeeOptions`, `BuildTokenOptions`, `GetFeeLevels` and `GetBitcoinComposeOutputs`.
  - `PrepareEthereumTransaction`, which assigns fields step by step, is a method too.
- `SendFormActions`: `sendFormActions.ts`, with the Ripple and Ethereum classification, the output mapping of `composeBitcoinTransaction`, and `onQrScan` as the list of field writes it makes.
- `UseSendForm`: `useSendForm.ts`.
  - The class `SendForm` holds the form values, the error map, `composedLevels` (an ordered list of fee label and result), `composeField`, the context state, and a log of the effects the hook dispatches (save draft, compose, sign, remove draft).
  - The effect's fee resolution and set-max handling are functions that the class methods apply.
- `Locktime`: the `bitcoinLockTime` rule and the two change handlers. The handlers return the requests they make; `Apply` carries those requests out on an options state.
- `WalletSettings`: `setLocalCurrency`, `setDiscreetMode` (the actions dispatched) and `changeCoinVisibility` (the new list).
- `SendFormReducer`: the initial fee state from the network list and the `UPDATE_FEE` merge.
- `AddAccountButton`: the tooltip and disabled decision.

Three behaviours of the code are easy to misread; the model follows the code:

- The `catch` blocks of `calculateTotal` and `calculateMax`, which return `"0"`, never run on malformed input: bignumber.js does not throw there, so both return `"NaN"`.
- `composeEthereumTransaction` never checks the token amount against the token balance. With a token, only the fee is checked against the account balance.
- The `findValidOutputs` unit cases in `sendFormUtils.test.ts:93-103` give outputs without a `type`. The code keeps only `payment` and `opreturn` outputs, so it returns `[]` for them; `UntypedOutputsAreDropped` states this.

## Model

| member | source | states |
|---|---|---|
| BigDecimal.Parse | packages/suite/src/utils/wallet/sendFormUtils.ts:19 | `new BigNumber(s)` on the plain decimal syntax yields a canonical value; any other string is NaN |
| BigDecimal.Format | packages/suite/src/utils/wallet/sendFormUtils.ts:34 | `toFixed()` spells NaN as "NaN" and a number in plain digits; reading the spelling gives the value back in canonical form |
| BigDecimal.ParseFormat | packages/suite/src/utils/wallet/sendFormUtils.ts:34 | reading the spelling of a canonical value gives that value (round trip) |
| BigDecimal.FormatParseFormat | packages/suite/src/utils/wallet/sendFormUtils.ts:34 | spelling what was read from a spelling gives the same spelling |
| BigDecimal.CanonicalUnique | packages/suite/src/utils/wallet/sendFormUtils.ts:19 | two canonical values that denote the same number are the same value |
| BigDecimal.Plus | packages/suite/src/utils/wallet/sendFormUtils.ts:23 | `plus` is NaN exactly when an operand is NaN, and otherwise denotes the exact sum |
| BigDecimal.Minus | packages/suite/src/utils/wallet/sendFormUtils.ts:32 | `minus` is NaN exactly when an operand is NaN, and otherwise denotes the exact difference |
| BigDecimal.Times | packages/suite/src/utils/wallet/sendFormUtils.ts:71 | `times` is NaN exactly when an operand is NaN, and otherwise denotes the exact product |
| BigDecimal.IsLessThan | packages/suite/src/utils/wallet/sendFormUtils.ts:33 | `isLessThan` holds exactly when both operands are numbers and the first is smaller |
| BigDecimal.IsGreaterThan | packages/suite/src/actions/wallet/sendFormActions.ts:34 | `isGreaterThan` holds exactly when both operands are numbers and the first is larger |
| BigDecimal.IsLessThanOrEqualTo | packages/suite/src/views/wallet/send/components/Options/components/BitcoinOptions/components/Locktime/index.tsx:97 | `lte` holds exactly when both operands are numbers and the first is not larger |
| BigDecimal.IsInteger | packages/suite/src/views/wallet/send/components/Options/components/BitcoinOptions/components/Locktime/index.tsx:100 | `isInteger` holds exactly when the value is a number with no fractional part |
| BigDecimal.PlusZero | packages/suite/src/actions/wallet/sendFormActions.ts:72 | adding a value to a zero amount gives that value |
| BigDecimal.MinusPlus | packages/suite/src/actions/wallet/sendFormActions.ts:61-73 | `(a - b) + b` is `a` |
| SendFormUtils.CalculateTotal | packages/suite/src/utils/wallet/sendFormUtils.ts:17-27 | what the result reads as is amount plus fee, NaN included |
| SendFormUtils.CalculateTotalExact | packages/suite/src/utils/wallet/sendFormUtils.ts:17-27 | on well-formed decimals the total is a number equal to amount + fee |
| SendFormUtils.CalculateTotalNaN | packages/suite/src/utils/wallet/sendFormUtils.ts:17-27 | a malformed amount or fee gives "NaN", not "0" |
| SendFormUtils.CalculateTotalExample | packages/suite/src/utils/wallet/__tests__/sendFormUtils.test.ts:40-42 | `calculateTotal('1', '2')` is "3" |
| SendFormUtils.CalculateMax | packages/suite/src/utils/wallet/sendFormUtils.ts:29-38 | "0" when balance - fee is negative; otherwise the result reads as balance - fee |
| SendFormUtils.CalculateMaxClamped | packages/suite/src/utils/wallet/sendFormUtils.ts:29-38 | on well-formed decimals the result denotes max(balance - fee, 0) |
| SendFormUtils.CalculateMaxExample | packages/suite/src/utils/wallet/__tests__/sendFormUtils.test.ts:44-46 | `calculateMax('2', '1')` is "1" |
| SendFormUtils.CalculateEthFee | packages/suite/src/utils/wallet/sendFormUtils.ts:66-77 | "0" when the gas price or limit is missing or empty or the product is NaN; otherwise the result reads as price × limit |
| SendFormUtils.CalculateEthFeeIsNumber | packages/suite/src/utils/wallet/sendFormUtils.ts:66-77 | the fee always reads as a number |
| SendFormUtils.GetFee | packages/suite/src/utils/wallet/sendFormUtils.ts:40-51 | on Ethereum the gas price converted from gwei to ether, elsewhere the fee amount formatted for the symbol; its partner `GetFeeReadsOneField` proves each branch reads only its own field |
| SendFormUtils.GetFeeReadsOneField | packages/suite/src/utils/wallet/sendFormUtils.ts:40-51 | on Ethereum the fee shown does not depend on the fee amount or the symbol, only on the gas price; on other networks it does not depend on the gas price |
| SendFormUtils.PadLeftEven | packages/suite/src/utils/wallet/sendFormUtils.ts:55 | even length, the input as a suffix, at most one '0' added in front |
| SendFormUtils.HexBody | packages/suite/src/utils/wallet/sendFormUtils.ts:58 | strips a leading "0x" or "0X" and keeps anything else |
| SendFormUtils.SanitizeHex | packages/suite/src/utils/wallet/sendFormUtils.ts:57-61 | "" exactly when the body is empty; otherwise "0x" + the body padded to even length with a single '0' |
| SendFormUtils.SanitizeHexIdempotent | packages/suite/src/utils/wallet/sendFormUtils.ts:57-61 | sanitizing twice equals sanitizing once |
| SendFormUtils.AbiWord | packages/suite/src/utils/wallet/sendFormUtils.ts:96 | a 0x-prefixed value of at most 64 hex digits pads to a 64-digit word |
| SendFormUtils.PrepareEthereumTransaction | packages/suite/src/utils/wallet/sendFormUtils.ts:79-110 | chain id, nonce, gas limit and gas price converted; without a token: `to`, `value`, and `data` only when given (sanitized); with a token: `to` = token address, `value` = "0x00", `data` = the transfer call |
| SendFormUtils.Erc20TransferLayout | packages/suite/src/utils/wallet/sendFormUtils.ts:93-102 | the call data is "0x", the `a9059cbb` selector, then the recipient and the amount, each a left-zero-padded 32-byte word (138 characters) |
| SendFormUtils.UnprefixedRecipientWordIsShort | packages/suite/src/utils/wallet/sendFormUtils.ts:96 | a recipient without "0x" loses two digits to `substring(2)`, so its word has 62 characters |
| Conversions.PadLeft | packages/suite/src/utils/wallet/sendFormUtils.ts:96-100 | keeps the 0x prefix; the body is left-padded to `chars` or kept when longer |
| Conversions.PadLeftBody | packages/suite/src/utils/wallet/sendFormUtils.ts:96-100 | after the prefix come the padding zeros, then the input's digits |
| SendFormUtils.EthLevel | packages/suite/src/utils/wallet/sendFormUtils.ts:150-158 | label and blocks are kept, feePerUnit is in gwei; with a token the limit is ERC20_GAS_LIMIT and feePerTx reads as limit × feePerUnit; without one both are kept |
| SendFormUtils.GetFeeLevels | packages/suite/src/utils/wallet/sendFormUtils.ts:137-163 | the levels followed by `custom` (feePerUnit "0", blocks -1); for Ethereum each of these converted |
| SendFormUtils.GetInputState | packages/suite/src/utils/wallet/sendFormUtils.ts:165-173 | error exactly when there is an error; success exactly when there is none and the value is non-empty; otherwise nothing |
| SendFormUtils.GetFiatRate | packages/suite/src/utils/wallet/sendFormUtils.ts:175-178 | a rate exactly when rates exist and hold the currency, and then that rate |
| SendFormUtils.BuildCurrencyOption | packages/suite/src/utils/wallet/sendFormUtils.ts:180-182 | the value is the currency; the label is it with ASCII letters upper-cased (no ASCII lower-case letter, the same lower-case form) |
| SendFormUtils.BuildFeeOptions | packages/suite/src/utils/wallet/sendFormUtils.ts:184-197 | one option per level, in order, with the level's label as both caption and value |
| SendFormUtils.GetFeeUnits | packages/suite/src/utils/wallet/sendFormUtils.ts:199-203 | GWEI for Ethereum, Drops for Ripple, sat/B otherwise |
| SendFormUtils.FeeUnitsDistinct | packages/suite/src/utils/wallet/sendFormUtils.ts:199-203 | different networks get different units |
| SendFormUtils.BuildTokenOptions | packages/suite/src/utils/wallet/sendFormUtils.ts:301-325 | the account's upper-cased symbol first, then one option per token in order: its address, and its symbol or "N/A" with ASCII letters upper-cased |
| SendFormUtils.FirstWithAddress | packages/suite/src/utils/wallet/sendFormUtils.ts:329 | the index of the first token with the address, or none exactly when no token has it |
| SendFormUtils.FindToken | packages/suite/src/utils/wallet/sendFormUtils.ts:327-330 | nothing for a missing or empty address or missing tokens; otherwise the first token with that address, and none only when no token has it |
| SendFormUtils.Field | packages/suite/src/utils/wallet/sendFormUtils.ts:219-220 | nothing is found exactly when no entry has the key; a found field is the first entry under that key |
| SendFormUtils.Entries | packages/suite/src/utils/wallet/sendFormUtils.ts:209 | an object's fields in key order; an array's elements under their indexes; nothing otherwise |
| SendFormUtils.ComposeErrors | packages/suite/src/utils/wallet/sendFormUtils.ts:206-228 | no paths for anything other than an object or an array |
| SendFormUtils.FindComposeErrors | packages/suite/src/utils/wallet/sendFormUtils.ts:206-228 | the loop over the keys, recursing into array values, collects exactly the paths the specification function `ComposeErrors` gives |
| SendFormUtils.FindItemsErrors | packages/suite/src/utils/wallet/sendFormUtils.ts:214-216 | the inner loop over an array value collects exactly `ItemsErrors`: each element's paths under `outputs[index]`, in index order |
| SendFormUtils.EntriesErrorsPrefix | packages/suite/src/utils/wallet/sendFormUtils.ts:209-226 | fields appended after the first n do not change the paths of the first n |
| SendFormUtils.EntriesErrorsSuffix | packages/suite/src/utils/wallet/sendFormUtils.ts:209-226 | the paths of later fields come after those of earlier fields |
| SendFormUtils.ComposeErrorsConcat | packages/suite/src/utils/wallet/sendFormUtils.ts:209-226 | the paths of an object are those of its first fields followed by those of the rest (key order) |
| SendFormUtils.SingleFieldErrors | packages/suite/src/utils/wallet/sendFormUtils.ts:210-225 | a one-field object reports what its value contributes |
| SendFormUtils.ComposeErrorsFlat | packages/suite/src/utils/wallet/sendFormUtils.ts:217-224 | without array values, exactly the compose-typed values are reported, each under its key, in key order |
| SendFormUtils.NoComposeErrorsFlat | packages/suite/src/utils/wallet/sendFormUtils.ts:217-224 | without compose-typed values nothing is reported |
| SendFormUtils.HardCodedOutputsPrefix | packages/suite/src/utils/wallet/sendFormUtils.ts:212-216 | array elements are reported under `outputs[i]`, whatever the key and prefix above them |
| SendFormUtils.ComposeErrorsExamples | packages/suite/src/utils/wallet/__tests__/sendFormUtils.test.ts:48-60 | `{}`, null, true, 1, "A" and a validate-typed field give []; a compose-typed field gives its key |
| SendFormUtils.OutputsArrayExample | packages/suite/src/utils/wallet/__tests__/sendFormUtils.test.ts:64-67 | the two-output array gives `outputs[0].amount` and `outputs[1].address` |
| SendFormUtils.InvalidArrayExample | packages/suite/src/utils/wallet/__tests__/sendFormUtils.test.ts:74 | `[null, true, 1, 'A', {}]` gives no path |
| SendFormUtils.PlainFieldsExample | packages/suite/src/utils/wallet/__tests__/sendFormUtils.test.ts:68-73 | among the plain fields only `topLevelField` is reported |
| SendFormUtils.LeadingFieldsExample | packages/suite/src/utils/wallet/__tests__/sendFormUtils.test.ts:63-67 | `someField` then `outputs` give the two output paths |
| SendFormUtils.TrailingFieldExample | packages/suite/src/utils/wallet/__tests__/sendFormUtils.test.ts:74 | the `invalidArray` field gives no path |
| SendFormUtils.ComposeErrorsNestedExample | packages/suite/src/utils/wallet/__tests__/sendFormUtils.test.ts:61-76 | the whole nested tree gives `['outputs[0].amount', 'outputs[1].address', 'topLevelField']` |
| SendFormUtils.FindValidOutputs | packages/suite/src/utils/wallet/sendFormUtils.ts:230-242 | [] when there is no outputs array; never more outputs than given |
| SendFormUtils.ValidOutputsLength | packages/suite/src/utils/wallet/sendFormUtils.ts:232-241 | the filter keeps at most n of the first n outputs |
| SendFormUtils.ValidOutputsAreSubsequence | packages/suite/src/utils/wallet/sendFormUtils.ts:232-241 | the result is the outputs at increasing indexes, and index i is kept exactly when output i is a payment with a string amount that is non-empty or at setMaxOutputId, or an opreturn with non-empty dataHex |
| SendFormUtils.UntypedOutputsAreDropped | packages/suite/src/utils/wallet/sendFormUtils.ts:235-240 | outputs that are null or have no type are all dropped |
| SendFormUtils.FirstFinal | packages/suite/src/utils/wallet/sendFormUtils.ts:291 | the index of the first send-max or external item, or none exactly when there is no such item |
| SendFormUtils.GetBitcoinComposeOutputs | packages/suite/src/utils/wallet/sendFormUtils.ts:246-299 | [] without outputs; otherwise the items of every output in output order, with the first final item demoted exactly when some output has an address but no amount |
| SendFormUtils.CountKindsAppend | packages/suite/src/utils/wallet/sendFormUtils.ts:250-284 | counts of item kinds add up over concatenation |
| SendFormUtils.SendMaxItemCount | packages/suite/src/utils/wallet/sendFormUtils.ts:259-268 | exactly one send-max or send-max-noaddress item when setMaxOutputId designates an output, none otherwise |
| SendFormUtils.OutputSendMaxCount | packages/suite/src/utils/wallet/sendFormUtils.ts:251-283 | one output yields one send-max item exactly when it is the max output |
| SendFormUtils.SingleCount | packages/suite/src/utils/wallet/sendFormUtils.ts:250-284 | an item list of at most one item counts that item's kind |
| SendFormUtils.OutputWithoutAmountItems | packages/suite/src/utils/wallet/sendFormUtils.ts:251-283 | an output without amount and not set-max yields only its opreturn item, if any |
| SendFormUtils.ComposeItemsConcat | packages/suite/src/utils/wallet/sendFormUtils.ts:250 | items follow output order: the outputs of a + b give a's items followed by b's (setMaxOutputId shifted) |
| SendFormUtils.ComposeItemsPrefix | packages/suite/src/utils/wallet/sendFormUtils.ts:250 | outputs appended later do not change the items of earlier ones |
| SendFormUtils.FirstFinalDemotedShape | packages/suite/src/utils/wallet/sendFormUtils.ts:286-296 | same length, addresses, amounts and data; only the first final item changes, external to noaddress and send-max to send-max-noaddress, so one final item fewer |
| SendFormActions.ComposeRippleTransaction | packages/suite/src/actions/wallet/sendFormActions.ts:10-45 | nonfinal exactly without an address; NOT-ENOUGH-FUNDS exactly with an address and amount + fee over the balance; totalSpent reads as amount + fee, fee is feePerUnit, max is the formatted calculateMax |
| SendFormActions.RippleMaxNotNegative | packages/suite/src/actions/wallet/sendFormActions.ts:20-24 | the max is never below zero and reads back to the same spelling, so the "0" branch at line 24 never applies |
| SendFormActions.RippleFunds | packages/suite/src/actions/wallet/sendFormActions.ts:34-44 | with an address and well-formed numbers: error exactly when a + f > b, final exactly when a + f <= b, totalSpent = a + f |
| SendFormActions.RippleNoAddressIsNonFinal | packages/suite/src/actions/wallet/sendFormActions.ts:16-32 | without an address the result is nonfinal whatever the funds, with totalSpent = amount + fee and fee = feePerUnit |
| SendFormActions.EthFee | packages/suite/src/actions/wallet/sendFormActions.ts:55-60 | the fee reads as a number: toWei(feePerUnit or "0" when NaN, gwei) × (feeLimit or "0"), or "0" when that is NaN |
| SendFormActions.EthFeeInvalidPriceIsZero | packages/suite/src/actions/wallet/sendFormActions.ts:55-58 | a non-numeric feePerUnit gives the fee of feePerUnit "0" |
| SendFormActions.EthMax | packages/suite/src/actions/wallet/sendFormActions.ts:61-63 | the token balance with a token, otherwise what calculateMax(balance, fee) reads as |
| SendFormActions.EthTotal | packages/suite/src/actions/wallet/sendFormActions.ts:67-73 | fee plus the amount (the max in set-max), the amount counting as 0 with a token |
| SendFormActions.ComposeEthereumTransaction | packages/suite/src/actions/wallet/sendFormActions.ts:47-106 | error exactly when the total exceeds the balance, checked before the address; then nonfinal exactly without an address and final with one; the error codes; totalSpent, fee, feePerUnit and the formatted max |
| SendFormActions.EthTokenSpendsOnlyFee | packages/suite/src/actions/wallet/sendFormActions.ts:61-92 | with a token: error exactly when the fee exceeds the balance, code NOT-ENOUGH-CURRENCY-FEE, totalSpent reads as the fee |
| SendFormActions.TokenTotalIsFee | packages/suite/src/actions/wallet/sendFormActions.ts:71-73 | with a token the total is the fee |
| SendFormActions.EthSetMaxSpendsBalance | packages/suite/src/actions/wallet/sendFormActions.ts:61-90 | set-max without a token and fee <= balance: not an error, the amount is balance - fee and totalSpent reads as the balance |
| SendFormActions.SetMaxTotal | packages/suite/src/actions/wallet/sendFormActions.ts:61-73 | in set-max the max is balance - fee and the total is the balance |
| SendFormActions.SetMaxArithmetic | packages/suite/src/utils/wallet/sendFormUtils.ts:29-38 | when fee <= balance, calculateMax reads as balance - fee, and adding back the fee to its spelling gives the balance |
| SendFormActions.EthFundsCheckIgnoresAddress | packages/suite/src/actions/wallet/sendFormActions.ts:90-93 | whether the result is an error does not depend on the address |
| SendFormActions.BitcoinRequestOutput | packages/suite/src/actions/wallet/sendFormActions.ts:117-148 | with an address send-max or {address, amount}; without one send-max-noaddress or noaddress; the amount in satoshi unless set-max |
| SendFormActions.BitcoinRequestOutputs | packages/suite/src/actions/wallet/sendFormActions.ts:115-148 | nothing exactly when the account lacks addresses or utxo; otherwise one request output per form output, in order |
| SendFormActions.OnQrScan | packages/suite/src/actions/wallet/sendFormActions.ts:174-184 | writes the address (or "") to `address-id`, then the amount to `amount-id` exactly when it is non-empty |
| SendFormActions.ApplyWrites | packages/suite/src/actions/wallet/sendFormActions.ts:180-182 | setValue keeps every field and adds only fields written |
| SendFormActions.FieldsDiffer | packages/suite/src/actions/wallet/sendFormActions.ts:180-182 | the address and amount field names of an output differ |
| SendFormActions.OnQrScanApplied | packages/suite/src/actions/wallet/sendFormActions.ts:174-184 | after the scan the address field holds the address, the amount field the amount when given (else untouched), every other field unchanged |
| UseSendForm.DefaultOutput | packages/suite/src/hooks/wallet/useSendForm.ts:43-51 | outputId 0, empty address, amount and fiat, the given currency, no type or data |
| UseSendForm.GetDefaultValues | packages/suite/src/hooks/wallet/useSendForm.ts:54-59 | exactly one default output with the currency; every other field as in DEFAULT_VALUES |
| UseSendForm.Splice | packages/suite/src/hooks/wallet/useSendForm.ts:380 | `splice(index, 1)` removes exactly element index and keeps the order of the rest; an index past the end changes nothing |
| UseSendForm.ShiftSetMax | packages/suite/src/hooks/wallet/useSendForm.ts:371-378 | cleared when equal to the index, decremented when greater, kept otherwise |
| UseSendForm.OutputRemoved | packages/suite/src/hooks/wallet/useSendForm.ts:367-385 | only setMaxOutputId and the outputs change |
| UseSendForm.RemoveOutputKeepsSetMax | packages/suite/src/hooks/wallet/useSendForm.ts:367-385 | an in-range set-max index stays in range and designates the same output |
| UseSendForm.FeeLevelChanged | packages/suite/src/hooks/wallet/useSendForm.ts:345-358 | selectedFee becomes the new level; feePerUnit and feeLimit "1" are seeded only for custom with feePerUnit unset; nothing else changes |
| UseSendForm.DefaultsNeverSeedCustomFee | packages/suite/src/hooks/wallet/useSendForm.ts:36-37 | on the defaults, feePerUnit "" counts as set, so switching to custom seeds nothing |
| UseSendForm.Lookup | packages/suite/src/hooks/wallet/useSendForm.ts:288 | `composedLevels[key]` is found exactly when some entry has the key, and is that entry's result |
| UseSendForm.FirstNonError | packages/suite/src/hooks/wallet/useSendForm.ts:291-293 | the first level whose result is not an error, or none exactly when every result is an error |
| UseSendForm.FeeResolution | packages/suite/src/hooks/wallet/useSendForm.ts:284-304 | throws exactly when no fee is selected and there is no `normal` level; a selected fee is looked up as is; a non-error `normal` is used as is; only selectedFee and feePerUnit can change |
| UseSendForm.FeeFallback | packages/suite/src/hooks/wallet/useSendForm.ts:289-303 | with no selected fee and an error for `normal`: the first non-error level is chosen, selectedFee set to it and feePerByte copied for custom; otherwise error FOO |
| UseSendForm.SelectedFeeStays | packages/suite/src/hooks/wallet/useSendForm.ts:288-289 | a selected fee is never replaced by the fallback |
| UseSendForm.SetMaxApplied | packages/suite/src/hooks/wallet/useSendForm.ts:306-324 | an error or missing result sets the compose error TR_AMOUNT_IS_NOT_ENOUGH on composeField when it is set; otherwise the set-max output's amount becomes the formatted max and the errors stay |
| UseSendForm.SignTarget | packages/suite/src/hooks/wallet/useSendForm.ts:389-392 | the transaction to sign exists exactly when the selected (or `normal`) level exists and is final |
| UseSendForm.SendForm.constructor | packages/suite/src/hooks/wallet/useSendForm.ts:110-117 | the state is the props, the values the defaults, and nothing is composed or logged |
| UseSendForm.SendForm.AddOutput | packages/suite/src/hooks/wallet/useSendForm.ts:360-365 | appends one default output with the local currency; the existing outputs and everything else stay |
| UseSendForm.SendForm.RemoveOutput | packages/suite/src/hooks/wallet/useSendForm.ts:367-385 | the values become `OutputRemoved` and the field errors are cleared, as `reset` does; the set-max range invariant is kept |
| UseSendForm.SendForm.ChangeFeeLevel | packages/suite/src/hooks/wallet/useSendForm.ts:345-358 | the values become `FeeLevelChanged` |
| UseSendForm.SendForm.OnComposedLevels | packages/suite/src/hooks/wallet/useSendForm.ts:284-324 | nothing without composedLevels or when the lookup throws; otherwise the fee resolution, then the set-max handling |
| UseSendForm.SendForm.ResetContext | packages/suite/src/hooks/wallet/useSendForm.ts:191-195 | clears composedLevels, removes the draft, restores the props |
| UseSendForm.SendForm.Sign | packages/suite/src/hooks/wallet/useSendForm.ts:387-399 | signs only a final target; a successful signing then resets the context |
| UseSendForm.SendForm.ComposeInner | packages/suite/src/hooks/wallet/useSendForm.ts:213-234 | does nothing while there are errors; otherwise saves the draft, then composes with the fee info |
| UseSendForm.SendForm.ComposeOnChange | packages/suite/src/hooks/wallet/useSendForm.ts:211-253 | records the field, clears composedLevels and sets them to the response only when composing ran; loading ends |
| Locktime.CheckLockTime | packages/suite/src/views/wallet/send/components/Options/components/BitcoinOptions/components/Locktime/index.tsx:92-107 | each message exactly for its case: NaN is not a number; <= 0 is too low; a positive fraction is not an integer; an integer above 4294967294 is too big |
| Locktime.ValidateLockTime | packages/suite/src/views/wallet/send/components/Options/components/BitcoinOptions/components/Locktime/index.tsx:90-108 | LOCKTIME_IS_NOT_SET exactly for the empty value; otherwise the validate callback on the value read as a number |
| Locktime.CanonicalInteger | packages/suite/src/views/wallet/send/components/Options/components/BitcoinOptions/components/Locktime/index.tsx:100 | a canonical number is an integer exactly when it has no fraction digits |
| Locktime.CheckAcceptsRange | packages/suite/src/views/wallet/send/components/Options/components/BitcoinOptions/components/Locktime/index.tsx:92-107 | a number passes exactly when it is an integer from 1 to 4294967294 |
| Locktime.AcceptedRange | packages/suite/src/views/wallet/send/components/Options/components/BitcoinOptions/components/Locktime/index.tsx:90-108 | a value is accepted exactly when it is non-empty and reads as an integer from 1 to 4294967294 |
| Locktime.NegativeFractionIsTooLow | packages/suite/src/views/wallet/send/components/Options/components/BitcoinOptions/components/Locktime/index.tsx:97-102 | "-0.5" is reported as too low, not as a non-integer |
| Locktime.OnLockTimeChange | packages/suite/src/views/wallet/send/components/Options/components/BitcoinOptions/components/Locktime/index.tsx:109-115 | without an error, toggles each of bitcoinRBF and broadcast exactly when enabled; always composes last, with the error flag |
| Locktime.OnRbfSwitch | packages/suite/src/views/wallet/send/components/Options/components/BitcoinOptions/components/Locktime/index.tsx:142-148 | clears a non-empty locktime, toggles bitcoinRBF, composes without error |
| Locktime.ApplyConcat | packages/suite/src/views/wallet/send/components/Options/components/BitcoinOptions/components/Locktime/index.tsx:109-148 | carrying out requests in two batches is carrying them out at once |
| Locktime.LockTimeTurnsOffRbf | packages/suite/src/views/wallet/send/components/Options/components/BitcoinOptions/components/Locktime/index.tsx:109-115 | after an error-free edit neither bitcoinRBF nor broadcast is enabled, other options and the locktime are kept, one compose is made |
| Locktime.RbfSwitchClearsLockTime | packages/suite/src/views/wallet/send/components/Options/components/BitcoinOptions/components/Locktime/index.tsx:142-148 | after the switch the locktime is empty, bitcoinRBF is flipped, other options are kept, one compose is made |
| WalletSettings.SetLocalCurrencyAction | packages/suite/src/actions/settings/walletSettingsActions.ts:18-21 | SET_LOCAL_CURRENCY with the currency's ASCII letters lower-cased, other characters kept |
| WalletSettings.SetLocalCurrencyIgnoresCase | packages/suite/src/actions/settings/walletSettingsActions.ts:18-21 | currencies that differ only in ASCII letter case give the same action |
| WalletSettings.SetDiscreetMode | packages/suite/src/actions/settings/walletSettingsActions.ts:23-31 | SET_HIDE_BALANCE with toggled first; the discreetModeCompleted flag exactly when it is not already set; one action when the flag is set, two otherwise |
| WalletSettings.Filter | packages/suite/src/actions/settings/walletSettingsActions.ts:40 | removes every occurrence of the symbol and nothing else |
| WalletSettings.FilterConcat | packages/suite/src/actions/settings/walletSettingsActions.ts:40 | filtering keeps the order of the rest |
| WalletSettings.FilterAbsent | packages/suite/src/actions/settings/walletSettingsActions.ts:40 | filtering out an absent symbol changes nothing |
| WalletSettings.CoinVisibility | packages/suite/src/actions/settings/walletSettingsActions.ts:33-49 | hiding filters; showing keeps the list when the symbol is present, else appends it |
| WalletSettings.VisibilityMembership | packages/suite/src/actions/settings/walletSettingsActions.ts:37-48 | after showing the symbol is in the list, after hiding it is not; other symbols are unaffected |
| WalletSettings.VisibilityIdle | packages/suite/src/actions/settings/walletSettingsActions.ts:38-43 | hiding an absent symbol or showing a present one leaves the list as it was |
| WalletSettings.ShowThenHide | packages/suite/src/actions/settings/walletSettingsActions.ts:39-43 | showing an absent symbol and hiding it again gives back the list |
| SendFormReducer.InitialStateEntries | packages/suite/src/reducers/wallet/sendFormReducer.ts:18-28 | one entry per network without accountType, each the default fee info |
| SendFormReducer.BuildInitialState | packages/suite/src/reducers/wallet/sendFormReducer.ts:18-28 | the loop over the networks builds exactly `InitialState`: the networks without accountType, each mapped to the default fee info |
| SendFormReducer.Reduce | packages/suite/src/reducers/wallet/sendFormReducer.ts:30-40 | UPDATE_FEE merges: payload keys win, other keys are kept; any other action changes nothing |
| SendFormReducer.ReduceFromStart | packages/suite/src/reducers/wallet/sendFormReducer.ts:30 | a missing state starts from the initial state; a given state is reduced as it is |
| SendFormReducer.UpdateFeeIdempotent | packages/suite/src/reducers/wallet/sendFormReducer.ts:33-37 | the same UPDATE_FEE twice is the same as once |
| SendFormReducer.UpdateFeeCompose | packages/suite/src/reducers/wallet/sendFormReducer.ts:33-37 | two updates in a row are one update with the merged payload |
| AddAccountButton.AddAccountButtonState | packages/suite/src/components/suite/modals/AddAccount/components/AddAccountButton.tsx:14-61 | nothing exactly without accounts; from the last account: index >= 10 gives the limit tooltip, otherwise more than one account or a first, empty, normal account gives the previous-empty tooltip; disabled exactly when there is a tooltip |
| AddAccountButton.OnlyLastAccountMatters | packages/suite/src/components/suite/modals/AddAccount/components/AddAccountButton.tsx:16-28 | lists with the same last account and the same "more than one" answer give the same button |
| AddAccountButton.SingleUsedAccountEnabled | packages/suite/src/components/suite/modals/AddAccount/components/AddAccountButton.tsx:18-28 | a single used account below index 10 gets an enabled button, no tooltip |

## Left out

- BigDecimal.Parse: only the plain decimal syntax `-?(digits(.digits?)?|.digits)` is read. Exponents, a leading '+', whitespace, hex or binary prefixes and "Infinity" are read as NaN, where bignumber.js accepts several of them.
- BigDecimal.Format: `toString()` is modelled as `toFixed()`. bignumber.js switches to exponential notation for values of 1e21 and more, and below 1e-7; that spelling is not modelled.
- A NaN number in the error tree is not modelled. `JsonTruthy` treats a number as truthy unless it is zero. An object's `type` is its first field of that name; keys are assumed unique.
- JavaScript orders integer-like object keys before other keys. `Object.keys` is modelled as the fields in the order they are given, and `composedLevels` keys are assumed unique.
- `composeDebounced`, the timeout and deferred interleaving, and `composeDraft`: these are concurrency. `ComposeOnChange` models only the sequential outcome. It takes the response as a parameter, and when composing did not run it leaves `composedLevels` cleared; a result ignored as outdated is not modelled.
- `TrezorConnect.composeTransaction`, `signTransaction`, `getDraft`, `saveDraft` and `removeDraft` are external calls. The hook's calls to them are logged as effects, and the response to composing is a parameter.
- `serializeEthereumTx` depends on ethereumjs-tx, whose code is not part of this model.
- Draft loading (the `useEffect` that resets the form from a stored draft) and `updateContext` beyond the loading flag are React state plumbing.
- `calculateFiat` and `toFiatCurrency` use library rounding and an external rate service.
- The unit conversions of the accountUtils and web3-utils libraries are `Library` parameters with no properties of their own. Contracts that depend on them state results in terms of the conversion.
- UseSendForm.Splice: a negative `splice` index counts from the end in JavaScript; the model's index is a `nat`.
- SendFormUtils.GetBitcoinComposeOutputs: an outputs array holding null throws in the source (`output.type` on null). The model's outputs are never null.
- SendFormUtils.FindValidOutputs: a non-object `values` (null, true, 1, "A") is modelled as having no outputs array.
- `changeNetworks`, `addBlockbookUrl` and `removeBlockbookUrl` only wrap their argument in an action.
- The Amount view (`Outputs/components/Amount/index.tsx`) is stale UI that imports functions sendFormUtils does not export.
- UseSendForm.SetMaxApplied: `setValue` on `outputs[k].amount` with k out of range is treated as a no-op. react-hook-form would instead create the path.
- Locktime.LockTimeTurnsOffRbf and Locktime.RbfSwitchClearsLockTime: the handlers read the options and the locktime through `getDefaultValue('options', [])` and `getDefaultValue(inputName) || ''`. `getDefaultValue` is not defined in the files modelled. It is read as returning the field's current value; both lemmas hold only under that reading.
- Locktime.Toggled: `toggleOption` is not defined in the files modelled. It is modelled as removing an enabled option and appending a disabled one.
- SendFormUtils.BuildCurrencyOption: `toUpperCase` maps all of Unicode and can change the length ('ß' becomes "SS"). The model upper-cases ASCII letters only and keeps every other character.
- SendFormUtils.BuildTokenOptions: the symbols are upper-cased on ASCII letters only, as for BuildCurrencyOption.
- WalletSettings.SetLocalCurrencyAction: `toLowerCase` maps all of Unicode ('É' becomes 'é', 'İ' becomes two characters). The model lower-cases ASCII letters only, so its length-preserving contract holds for the model and not for every non-ASCII currency.
- WalletSettings.SetLocalCurrencyIgnoresCase: covers only differences in ASCII letter case.
- UseSendForm.SetMaxApplied: after setting the amount, the source calls `calculateFiat`, which with fiat rates writes `outputs[k].fiat`; that write is not modelled. `setValue` also passes `shouldValidate`, which re-validates the amount and can change the field errors; the model keeps the errors as they were.
- Rendering, field registration, analytics and console logging have no statable logic.
