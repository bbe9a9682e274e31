/** The add-account button of the add-account modal (AddAccountButton.tsx):
    whether it is shown, which tooltip explains why it is disabled, and
    whether it is disabled. */
module AddAccountButton {
  import opened Wrappers

  /** The fields of an account the decision reads. */
  datatype AccountInfo = AccountInfo(index: int, empty: bool, accountType: string)

  /** The first normal account, still empty. */
  predicate FirstAndEmpty(account: AccountInfo)
  {
    account.index == 0 && account.empty && account.accountType == "normal"
  }

  datatype Tooltip = PreviousEmpty | LimitExceeded

  datatype ButtonState = ButtonState(tooltip: Option<Tooltip>, disabled: bool)

  /** The decision: nothing without accounts; otherwise, for the last
      account, "previous empty" when there is more than one account or it
      is the first normal account and empty, overridden by "limit
      exceeded" from index 10 on; disabled exactly when a tooltip is shown. */
  function AddAccountButtonState(accounts: seq<AccountInfo>): (r: Option<ButtonState>)
    ensures r.None? <==> accounts == []
    ensures r.Some? ==> (r.value.disabled <==> r.value.tooltip.Some?)
    ensures r.Some? ==>
      var account := accounts[|accounts| - 1];
      && (account.index >= 10 ==> r.value.tooltip == Some(LimitExceeded))
      && (account.index < 10 && (|accounts| > 1 || FirstAndEmpty(account)) ==> r.value.tooltip == Some(PreviousEmpty))
      && (account.index < 10 && |accounts| == 1 && !FirstAndEmpty(account) ==> r.value.tooltip.None?)
  {
    if |accounts| == 0 then None
    else
      var account := accounts[|accounts| - 1];
      var t0: Option<Tooltip> := None;
      var t1 := if |accounts| > 1 then Some(PreviousEmpty) else t0;
      var t2 := if FirstAndEmpty(account) then Some(PreviousEmpty) else t1;
      var tooltip := if account.index >= 10 then Some(LimitExceeded) else t2;
      Some(ButtonState(tooltip, tooltip.Some?))
  }

  /** The decision reads only the last account and whether there are
      others before it. */
  lemma OnlyLastAccountMatters(a: seq<AccountInfo>, b: seq<AccountInfo>)
    requires |a| > 0 && |b| > 0
    requires a[|a| - 1] == b[|b| - 1] && (|a| > 1 <==> |b| > 1)
    ensures AddAccountButtonState(a) == AddAccountButtonState(b)
  {
  }

  /** Below index 10 a single non-empty account leaves the button enabled. */
  lemma SingleUsedAccountEnabled(account: AccountInfo)
    requires account.index < 10 && !account.empty
    ensures AddAccountButtonState([account]) == Some(ButtonState(None, false))
  {
  }
}
