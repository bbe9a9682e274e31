/** The unit conversions and constants the send form takes from its account
    utilities and from web3-utils. Their code is not part of this model, so
    the conversions are carried as fields of a `Library` value that every
    operation receives; properties that depend on them say which facts they
    need. `PadLeft` is spelled out, after web3-utils' leftPad. */
module Conversions {
  import opened Text

  datatype Library = Library(
    /** accountUtils.networkAmountToSatoshi(amount, symbol) */
    networkAmountToSatoshi: (string, string) -> string,
    /** accountUtils.formatNetworkAmount(amount, symbol) */
    formatNetworkAmount: (string, string) -> string,
    /** accountUtils.amountToSatoshi(amount, decimals) */
    amountToSatoshi: (string, int) -> string,
    /** web3-utils toHex */
    toHex: string -> string,
    /** web3-utils toWei(value, unit) */
    toWei: (string, string) -> string,
    /** web3-utils fromWei(value, unit) */
    fromWei: (string, string) -> string,
    /** the ERC20_GAS_LIMIT constant of the send form */
    erc20GasLimit: string)

  /** The 4-byte selector of the EIP-20 `transfer(address,uint256)` call. */
  const ERC20_TRANSFER: string := "a9059cbb"

  predicate HasHexPrefix(s: string)
  {
    |s| >= 2 && s[0] == '0' && LowerChar(s[1]) == 'x'
  }

  /** web3-utils padLeft(s, chars): keeps (lower-case) "0x" when s had one,
      then left-pads what follows it with '0' up to `chars` characters; a
      longer body is kept whole. */
  function PadLeft(s: string, chars: nat): (r: string)
    ensures HasHexPrefix(s) ==> |r| >= 2 && r[..2] == "0x" && |r| - 2 == if |s| - 2 < chars then chars else |s| - 2
    ensures !HasHexPrefix(s) ==> |r| == if |s| < chars then chars else |s|
  {
    var body := if HasHexPrefix(s) then s[2..] else s;
    var padded := if |body| < chars then Zeros(chars - |body|) + body else body;
    if HasHexPrefix(s) then "0x" + padded else padded
  }

  /** The body of PadLeft: zeros first, the input's digits last. */
  lemma PadLeftBody(s: string, chars: nat)
    requires HasHexPrefix(s) && |s| - 2 <= chars
    ensures PadLeft(s, chars)[2..] == Zeros(chars - (|s| - 2)) + s[2..]
  {
    var r := PadLeft(s, chars);
    assert r == "0x" + (Zeros(chars - (|s| - 2)) + s[2..]);
  }
}
