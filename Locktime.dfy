/** The locktime input of the Bitcoin options (Locktime/index.tsx): the
    `bitcoinLockTime` rule (required, then a chain of numeric checks) and
    the two change handlers that keep locktime and replace-by-fee apart. */
module Locktime {
  import opened Wrappers
  import opened Text
  import opened BigDecimal

  /** The largest locktime accepted: twice the largest 32-bit signed unix
      timestamp (2147483647 * 2). */
  const MaxLockTime: nat := 4294967294

  datatype LockTimeError = NotSet | NotNumber | TooLow | NotInteger | TooBig

  function Message(e: LockTimeError): string
  {
    match e
    case NotSet => "LOCKTIME_IS_NOT_SET"
    case NotNumber => "LOCKTIME_IS_NOT_NUMBER"
    case TooLow => "LOCKTIME_IS_TOO_LOW"
    case NotInteger => "LOCKTIME_IS_NOT_INTEGER"
    case TooBig => "LOCKTIME_IS_TOO_BIG"
  }

  /** The `validate` callback: the first numeric check the value fails,
      in the order not a number, at most 0, not an integer, above the
      maximum; none when it passes. */
  function CheckLockTime(amountBig: Big): (r: Option<LockTimeError>)
    ensures r == Some(NotNumber) <==> amountBig.NaN?
    ensures r == Some(TooLow) <==> amountBig.Num? && Value(amountBig) <= 0.0
    ensures r == Some(NotInteger) <==> amountBig.Num? && Value(amountBig) > 0.0 && !IsWhole(Value(amountBig))
    ensures r == Some(TooBig) <==>
      amountBig.Num? && IsWhole(Value(amountBig)) && Value(amountBig) > MaxLockTime as real
    ensures r != Some(NotSet)
  {
    assert Value(Zero) == 0.0;
    assert Value(Num(MaxLockTime, 0)) == MaxLockTime as real by { assert Pow10(0) == 1; }
    if amountBig.NaN? then Some(NotNumber)
    else if IsLessThanOrEqualTo(amountBig, Zero) then Some(TooLow)
    else if !IsInteger(amountBig) then Some(NotInteger)
    else if IsGreaterThan(amountBig, Num(MaxLockTime, 0)) then Some(TooBig)
    else None
  }

  /** The `bitcoinLockTime` rule: `required` first, then `validate` on the
      value read as a number. */
  function ValidateLockTime(value: string): (r: Option<LockTimeError>)
    ensures r == Some(NotSet) <==> value == ""
    ensures value != "" ==> r == CheckLockTime(Parse(value))
  {
    if value == "" then Some(NotSet) else CheckLockTime(Parse(value))
  }

  /** A canonical number is an integer exactly when it has no fraction digits. */
  lemma CanonicalInteger(b: Big)
    requires b.Num? && Canonical(b)
    ensures IsInteger(b) <==> b.e == 0
  {
    NormalizeCanonical(b);
  }

  /** A canonical number passes the numeric checks exactly when it is an
      integer from 1 to MaxLockTime. */
  lemma CheckAcceptsRange(b: Big)
    requires Canonical(b)
    ensures CheckLockTime(b).None? <==> b.Num? && b.e == 0 && 1 <= b.m <= MaxLockTime
  {
    if b.Num? {
      CanonicalInteger(b);
      ValueSign(b);
      assert Value(Zero) == 0.0 by { assert Pow10(0) == 1; }
      assert IsLessThanOrEqualTo(b, Zero) <==> b.m <= 0;
      if b.e == 0 {
        ValueOfInteger(b);
        ValueOfInteger(Num(MaxLockTime, 0));
        assert IsGreaterThan(b, Num(MaxLockTime, 0)) <==> b.m > MaxLockTime;
      }
    }
  }

  /** A locktime is accepted exactly when it reads as an integer from 1 to
      MaxLockTime. */
  lemma AcceptedRange(value: string)
    ensures ValidateLockTime(value).None? <==>
      var b := Parse(value);
      value != "" && b.Num? && b.e == 0 && 1 <= b.m <= MaxLockTime
  {
    CheckAcceptsRange(Parse(value));
  }

  lemma ValueSign(b: Big)
    requires b.Num?
    ensures Value(b) <= 0.0 <==> b.m <= 0
  {
    var p := Pow10(b.e) as real;
    QuotientOrder(0.0, b.m as real, p);
    assert 0.0 / p == 0.0;
  }

  lemma ValueOfInteger(b: Big)
    requires b.Num? && b.e == 0
    ensures Value(b) == b.m as real
  {
    assert Pow10(0) == 1;
  }

  /** The checks run in order: a negative fraction is reported as too low,
      not as a non-integer. */
  lemma NegativeFractionIsTooLow()
    ensures ValidateLockTime("-0.5") == Some(TooLow)
  {
    var body := "0.5";
    assert "-0.5"[1..] == body;
    assert IndexOf(body, '.') == 1 by {
      assert body[0] != '.' && body[1] == '.';
      assert IndexOf(body[1..], '.') == 0;
    }
    assert body[..1] == "0" && body[2..] == "5";
    assert DigitsValue("0" + "5") == 5 by {
      assert "0" + "5" == "05";
      assert "05"[..1] == "0";
      assert DigitsValue("0") == 0 by { assert "0"[..0] == ""; }
    }
    assert ParseUnsigned(body) == Digits(5, 1);
    var b := Parse("-0.5");
    assert b == Num(-5, 1);
    assert Value(b) < 0.0;
  }

  // Change handlers

  /** What a handler asks the form to do. */
  datatype Request =
    | ToggleOption(option: string)
    | SetValue(field: string, value: string)
    | Compose(field: string, hasError: bool)

  /** The locktime input's onChange: with no error on the field it first
      turns off replace-by-fee and broadcast where they are on, then it
      composes. */
  function OnLockTimeChange(hasError: bool, options: seq<string>): (r: seq<Request>)
    ensures |r| >= 1 && r[|r| - 1] == Compose("bitcoinLockTime", hasError)
    ensures hasError ==> r == [Compose("bitcoinLockTime", hasError)]
    ensures (ToggleOption("bitcoinRBF") in r <==> !hasError && "bitcoinRBF" in options)
    ensures (ToggleOption("broadcast") in r <==> !hasError && "broadcast" in options)
    ensures forall q :: q in r ==> q.ToggleOption? || q == Compose("bitcoinLockTime", hasError)
  {
    var toggles :=
      if !hasError then
        (if "bitcoinRBF" in options then [ToggleOption("bitcoinRBF")] else [])
        + (if "broadcast" in options then [ToggleOption("broadcast")] else [])
      else [];
    toggles + [Compose("bitcoinLockTime", hasError)]
  }

  /** The replace-by-fee switch's onChange: clears a non-empty locktime,
      toggles replace-by-fee and composes as if without error. */
  function OnRbfSwitch(inputValue: string): (r: seq<Request>)
    ensures |inputValue| > 0 ==> r == [SetValue("bitcoinLockTime", ""), ToggleOption("bitcoinRBF"), Compose("bitcoinLockTime", false)]
    ensures |inputValue| == 0 ==> r == [ToggleOption("bitcoinRBF"), Compose("bitcoinLockTime", false)]
  {
    (if |inputValue| > 0 then [SetValue("bitcoinLockTime", "")] else [])
    + [ToggleOption("bitcoinRBF"), Compose("bitcoinLockTime", false)]
  }

  /** The part of the form the handlers touch: the enabled options, the
      locktime, and the compose requests made. */
  datatype OptionsState = OptionsState(options: seq<string>, lockTime: string, composed: seq<(string, bool)>)

  /** toggleOption as the form provides it: an enabled option is removed,
      a disabled one appended. */
  function Toggled(options: seq<string>, option: string): (r: seq<string>)
    ensures option in options ==> option !in r && (forall o :: o in r <==> o in options && o != option)
    ensures option !in options ==> r == options + [option]
  {
    if option in options then Without(options, option) else options + [option]
  }

  function Without(options: seq<string>, option: string): (r: seq<string>)
    ensures forall o :: o in r <==> o in options && o != option
    decreases |options|
  {
    if options == [] then []
    else (if options[0] == option then [] else [options[0]]) + Without(options[1..], option)
  }

  /** One request carried out. */
  function Step(state: OptionsState, request: Request): OptionsState
  {
    match request
    case ToggleOption(option) => state.(options := Toggled(state.options, option))
    case SetValue(field, value) => if field == "bitcoinLockTime" then state.(lockTime := value) else state
    case Compose(field, hasError) => state.(composed := state.composed + [(field, hasError)])
  }

  /** The requests carried out in order. */
  function Apply(state: OptionsState, requests: seq<Request>): OptionsState
    decreases |requests|
  {
    if requests == [] then state else Apply(Step(state, requests[0]), requests[1..])
  }

  lemma {:induction false} ApplyConcat(state: OptionsState, a: seq<Request>, b: seq<Request>)
    ensures Apply(state, a + b) == Apply(Apply(state, a), b)
    decreases |a|
  {
    if a == [] {
      assert a + b == b;
    } else {
      assert (a + b)[0] == a[0];
      assert (a + b)[1..] == a[1..] + b;
      ApplyConcat(Step(state, a[0]), a[1..], b);
    }
  }

  /** Editing the locktime without an error leaves neither replace-by-fee
      nor broadcast on, keeps every other option, and composes once. */
  lemma LockTimeTurnsOffRbf(state: OptionsState)
    ensures var after := Apply(state, OnLockTimeChange(false, state.options));
      && "bitcoinRBF" !in after.options && "broadcast" !in after.options
      && (forall o :: o != "bitcoinRBF" && o != "broadcast" ==> (o in after.options <==> o in state.options))
      && after.lockTime == state.lockTime
      && after.composed == state.composed + [("bitcoinLockTime", false)]
  {
    var rbf := if "bitcoinRBF" in state.options then [ToggleOption("bitcoinRBF")] else [];
    var broadcast := if "broadcast" in state.options then [ToggleOption("broadcast")] else [];
    var compose := [Compose("bitcoinLockTime", false)];
    assert OnLockTimeChange(false, state.options) == rbf + broadcast + compose;
    ApplyConcat(state, rbf + broadcast, compose);
    ApplyConcat(state, rbf, broadcast);
    var s1 := Apply(state, rbf);
    assert "bitcoinRBF" !in s1.options;
    assert forall o :: o != "bitcoinRBF" ==> (o in s1.options <==> o in state.options);
    var s2 := Apply(s1, broadcast);
    assert "broadcast" !in s2.options;
    assert forall o :: o != "broadcast" ==> (o in s2.options <==> o in s1.options);
  }

  /** Flipping the replace-by-fee switch clears the locktime, flips
      replace-by-fee, keeps every other option and composes without error. */
  lemma RbfSwitchClearsLockTime(state: OptionsState)
    ensures var after := Apply(state, OnRbfSwitch(state.lockTime));
      && after.lockTime == ""
      && ("bitcoinRBF" in after.options <==> "bitcoinRBF" !in state.options)
      && (forall o :: o != "bitcoinRBF" ==> (o in after.options <==> o in state.options))
      && after.composed == state.composed + [("bitcoinLockTime", false)]
  {
    var clear := if |state.lockTime| > 0 then [SetValue("bitcoinLockTime", "")] else [];
    var rest := [ToggleOption("bitcoinRBF"), Compose("bitcoinLockTime", false)];
    assert OnRbfSwitch(state.lockTime) == clear + rest;
    ApplyConcat(state, clear, rest);
    var s1 := Apply(state, clear);
    assert s1.lockTime == "" && s1.options == state.options && s1.composed == state.composed by {
      if |state.lockTime| > 0 {
        assert clear[1..] == [];
      }
    }
    assert rest[1..][1..] == [];
    assert Apply(s1, rest) == Apply(Step(s1, rest[0]), rest[1..]);
  }
}
