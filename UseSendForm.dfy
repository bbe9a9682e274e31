/** The form state of the send form (useSendForm.ts): default values, adding
    and removing outputs, changing the fee level, reading the composed fee
    levels back into the form, and the compose and sign steps, with the
    calls it makes to the outside world (drafts, compose, sign) recorded as
    effects. */
module UseSendForm {
  import opened Wrappers
  import opened Conversions
  import opened SendFormTypes

  const DefaultCurrency: CurrencyOption := CurrencyOption("usd", "USD")

  /** The first output of DEFAULT_VALUES, with the given currency. */
  function DefaultOutput(currency: CurrencyOption): (o: Output)
    ensures o.outputId == 0 && o.address == "" && o.amount == Some("") && o.fiat == ""
    ensures o.currency == currency && o.outputType.None? && o.dataHex.None?
  {
    Output(0, None, "", Some(""), "", currency, None)
  }

  /** DEFAULT_VALUES: a regular transaction, nothing selected, every text
      field empty, one output. */
  const DefaultValues: FormState := FormState(
    "regular", None, None, Some(""), "", "", "", "", "", "", [DefaultOutput(DefaultCurrency)])

  /** getDefaultValues: DEFAULT_VALUES with its one output in the given
      currency. */
  function GetDefaultValues(currency: CurrencyOption): (r: FormState)
    ensures |r.outputs| == 1 && r.outputs[0] == DefaultOutput(currency)
    ensures r.(outputs := DefaultValues.outputs) == DefaultValues
  {
    DefaultValues.(outputs := [DefaultOutput(currency)])
  }

  /** The set-max id is unset or designates one of the outputs. */
  predicate SetMaxInRange(values: FormState)
  {
    values.setMaxOutputId.None? || 0 <= values.setMaxOutputId.value < |values.outputs|
  }

  // removeOutput

  /** Array.prototype.splice(index, 1) for an index from 0 up: removes the
      element at index, or nothing when there is none. */
  function Splice<T>(s: seq<T>, index: nat): (r: seq<T>)
    ensures index < |s| ==> |r| == |s| - 1
    ensures index >= |s| ==> r == s
    ensures forall j :: 0 <= j < index && j < |r| ==> r[j] == s[j]
    ensures forall j :: index <= j < |r| ==> r[j] == s[j + 1]
  {
    if index < |s| then s[..index] + s[index + 1..] else s
  }

  /** The set-max id after removing the output at index: cleared when it was
      that output, one less when it came after it, else unchanged. */
  function ShiftSetMax(setMaxOutputId: Option<int>, index: nat): (r: Option<int>)
    ensures setMaxOutputId == Some(index) ==> r.None?
    ensures setMaxOutputId.Some? && setMaxOutputId.value > index ==> r == Some(setMaxOutputId.value - 1)
    ensures setMaxOutputId.None? || setMaxOutputId.value < index ==> r == setMaxOutputId
  {
    if setMaxOutputId == Some(index) then None
    else if setMaxOutputId.Some? && setMaxOutputId.value > index then Some(setMaxOutputId.value - 1)
    else setMaxOutputId
  }

  function OutputRemoved(values: FormState, index: nat): (r: FormState)
    ensures r == values.(setMaxOutputId := r.setMaxOutputId, outputs := r.outputs)
  {
    values.(setMaxOutputId := ShiftSetMax(values.setMaxOutputId, index), outputs := Splice(values.outputs, index))
  }

  /** Removing an output other than the set-max one leaves the set-max id on
      the same output, and removing any output keeps the id in range. */
  lemma RemoveOutputKeepsSetMax(values: FormState, index: nat)
    requires index < |values.outputs|
    ensures var r := OutputRemoved(values, index);
      && SetMaxInRange(values) ==> SetMaxInRange(r)
    ensures var r := OutputRemoved(values, index);
      var k := values.setMaxOutputId;
      k.Some? && k.value != index && 0 <= k.value < |values.outputs| ==>
        r.setMaxOutputId.Some? && r.outputs[r.setMaxOutputId.value] == values.outputs[k.value]
  {
  }

  // changeFeeLevel

  /** changeFeeLevel: selects the new level; on a change to custom while
      feePerUnit is unset (an empty string counts as set) it first seeds
      feePerUnit from the current level and feeLimit with "1". */
  function FeeLevelChanged(values: FormState, currentLevel: FeeLevel, newLevel: string): (r: FormState)
    ensures r.selectedFee == Some(newLevel)
    ensures newLevel == "custom" && values.feePerUnit.None? ==>
      r == values.(selectedFee := Some(newLevel), feePerUnit := Some(currentLevel.feePerUnit), feeLimit := "1")
    ensures !(newLevel == "custom" && values.feePerUnit.None?) ==> r == values.(selectedFee := Some(newLevel))
  {
    var seeded :=
      if newLevel == "custom" && !(Truthy(values.feePerUnit) || values.feePerUnit == Some("")) then
        values.(feePerUnit := Some(currentLevel.feePerUnit), feeLimit := "1")
      else values;
    seeded.(selectedFee := Some(newLevel))
  }

  /** The form starts with feePerUnit "", so a first change to custom from
      the default values never seeds the custom fee. */
  lemma DefaultsNeverSeedCustomFee(currency: CurrencyOption, currentLevel: FeeLevel)
    ensures var v := GetDefaultValues(currency);
      FeeLevelChanged(v, currentLevel, "custom").feePerUnit == Some("")
      && FeeLevelChanged(v, currentLevel, "custom").feeLimit == ""
  {
  }

  // Fee resolution after compose

  /** composedLevels[key]: the result stored under key, if any. */
  function Lookup(levels: seq<(string, ComposeResult)>, key: string): (r: Option<ComposeResult>)
    ensures r.None? <==> forall i :: 0 <= i < |levels| ==> levels[i].0 != key
    ensures r.Some? ==> exists i :: 0 <= i < |levels| && levels[i] == (key, r.value)
  {
    if levels == [] then None
    else if levels[0].0 == key then Some(levels[0].1)
    else
      var rest := Lookup(levels[1..], key);
      assert rest.Some? ==> exists i :: 0 <= i < |levels[1..]| && levels[1..][i] == (key, rest.value);
      rest
  }

  /** The first level whose result is not an error (Object.keys order). */
  function FirstNonError(levels: seq<(string, ComposeResult)>): (r: Option<nat>)
    ensures r.Some? ==> r.value < |levels| && !levels[r.value].1.Error?
    ensures r.Some? ==> forall j :: 0 <= j < r.value ==> levels[j].1.Error?
    ensures r.None? ==> forall j :: 0 <= j < |levels| ==> levels[j].1.Error?
  {
    if levels == [] then None
    else if !levels[0].1.Error? then Some(0)
    else
      var rest := FirstNonError(levels[1..]);
      if rest.Some? then Some(rest.value + 1) else None
  }

  /** The outcome of reading the composed levels: the effect throws (no
      'normal' level to read while no fee is selected), or it has picked a
      composed result, possibly none, and the values it set. */
  datatype Resolution = Thrown | Resolved(composed: Option<ComposeResult>, values: FormState)

  function SelectedKey(values: FormState): string
  {
    if Truthy(values.selectedFee) then values.selectedFee.value else "normal"
  }

  /** The fee resolution of the composedLevels effect: the level of the
      selected fee (or 'normal'); when no fee is selected and that level is
      an error, the nearest level that is not, which becomes the selected
      fee (a custom one also copies its fee per byte into feePerUnit), or a
      synthetic 'FOO' error when there is none. */
  function FeeResolution(levels: seq<(string, ComposeResult)>, values: FormState): (r: Resolution)
    ensures r.Thrown? <==> !Truthy(values.selectedFee) && Lookup(levels, "normal").None?
    ensures Truthy(values.selectedFee) ==> r == Resolved(Lookup(levels, values.selectedFee.value), values)
    ensures !Truthy(values.selectedFee) && Lookup(levels, "normal").Some? && !Lookup(levels, "normal").value.Error? ==>
      r == Resolved(Lookup(levels, "normal"), values)
    ensures r.Resolved? ==> r.composed.Some? || Truthy(values.selectedFee)
    ensures r.Resolved? ==> r.values.(selectedFee := values.selectedFee, feePerUnit := values.feePerUnit) == values
  {
    var composed := Lookup(levels, SelectedKey(values));
    if !Truthy(values.selectedFee) then
      if composed.None? then Thrown
      else if composed.value.Error? then
        var nearest := FirstNonError(levels);
        if nearest.Some? && levels[nearest.value].0 != "" then
          var key := levels[nearest.value].0;
          var picked := levels[nearest.value].1;
          var selected := values.(selectedFee := Some(key));
          Resolved(Some(picked), if key == "custom" then selected.(feePerUnit := picked.info.feePerByte) else selected)
        else
          Resolved(Some(Error("FOO")), values)
      else Resolved(composed, values)
    else Resolved(composed, values)
  }

  /** Without a selected fee and with an erroneous 'normal' level, the
      fallback picks the first level that is not an error and selects it;
      only when every level is an error (or the first one that is not has
      an empty key) does the result become the 'FOO' error. */
  lemma FeeFallback(levels: seq<(string, ComposeResult)>, values: FormState)
    requires !Truthy(values.selectedFee)
    requires Lookup(levels, "normal").Some? && Lookup(levels, "normal").value.Error?
    ensures var r := FeeResolution(levels, values);
      var n := FirstNonError(levels);
      && r.Resolved?
      && (n.Some? && levels[n.value].0 != "" ==>
           && r.composed == Some(levels[n.value].1)
           && r.values.selectedFee == Some(levels[n.value].0)
           && (forall j :: 0 <= j < n.value ==> levels[j].1.Error?)
           && r.values.feePerUnit == (if levels[n.value].0 == "custom" then levels[n.value].1.info.feePerByte else values.feePerUnit))
      && (n.None? || levels[n.value].0 == "" ==> r == Resolved(Some(Error("FOO")), values))
  {
  }

  /** A selected fee is never replaced, whatever the composed levels say. */
  lemma SelectedFeeStays(levels: seq<(string, ComposeResult)>, values: FormState)
    requires Truthy(values.selectedFee)
    ensures FeeResolution(levels, values).Resolved?
    ensures FeeResolution(levels, values).values.selectedFee == values.selectedFee
  {
  }

  /** The set-max handling of the composedLevels effect: without a usable
      result, a 'compose' error on the field that started the compose (if
      any); otherwise the set-max output's amount becomes the formatted
      maximum. */
  function SetMaxApplied(values: FormState, errors: map<string, FieldError>, composed: Option<ComposeResult>,
                         composeField: Option<string>, symbol: string, lib: Library)
    : (r: (FormState, map<string, FieldError>))
    ensures values.setMaxOutputId.None? ==> r == (values, errors)
    ensures values.setMaxOutputId.Some? && (composed.None? || composed.value.Error?) ==>
      && r.0 == values
      && r.1 == if Truthy(composeField) then errors[composeField.value := FieldError("compose", "TR_AMOUNT_IS_NOT_ENOUGH")] else errors
    ensures values.setMaxOutputId.Some? && composed.Some? && !composed.value.Error? ==>
      var k := values.setMaxOutputId.value;
      && r.1 == errors
      && |r.0.outputs| == |values.outputs|
      && (0 <= k < |values.outputs| ==> r.0.outputs[k].amount == Some(lib.formatNetworkAmount(composed.value.info.max, symbol)))
      && (forall j :: 0 <= j < |values.outputs| && j != k ==> r.0.outputs[j] == values.outputs[j])
      && (0 <= k < |values.outputs| ==> r.0.outputs[k] == values.outputs[k].(amount := r.0.outputs[k].amount))
      && r.0 == values.(outputs := r.0.outputs)
  {
    if values.setMaxOutputId.None? then (values, errors)
    else if composed.None? || composed.value.Error? then
      if Truthy(composeField) then
        (values, errors[composeField.value := FieldError("compose", "TR_AMOUNT_IS_NOT_ENOUGH")])
      else (values, errors)
    else
      var k := values.setMaxOutputId.value;
      var amount := lib.formatNetworkAmount(composed.value.info.max, symbol);
      if 0 <= k < |values.outputs| then
        (values.(outputs := values.outputs[k := values.outputs[k].(amount := Some(amount))]), errors)
      else (values, errors)
  }

  // sign

  /** The transaction sign would hand to signTransaction: the composed level
      of the selected fee (or 'normal'), only when it exists and is final. */
  function SignTarget(composedLevels: Option<seq<(string, ComposeResult)>>, values: FormState): (r: Option<ComposeResult>)
    ensures r.Some? <==> composedLevels.Some? && Lookup(composedLevels.value, SelectedKey(values)).Some?
                         && Lookup(composedLevels.value, SelectedKey(values)).value.Final?
    ensures r.Some? ==> r.value.Final? && r == Lookup(composedLevels.value, SelectedKey(values))
  {
    if composedLevels.None? then None
    else
      var composedTx := Lookup(composedLevels.value, SelectedKey(values));
      if composedTx.Some? && composedTx.value.Final? then composedTx else None
  }

  /** The context values of the form besides the form fields. */
  datatype ContextState = ContextState(feeInfo: FeeInfo, localCurrencyOption: CurrencyOption, symbol: string, isLoading: bool)

  /** The calls the form makes to the rest of the wallet, in order. */
  datatype Effect =
    | SaveDraft(values: FormState)
    | ComposeTransaction(values: FormState, feeInfo: FeeInfo)
    | SignTransaction(tx: ComposeResult)
    | RemoveDraft

  /** One mounted send form. */
  class SendForm {
    var values: FormState
    var errors: map<string, FieldError>
    var composedLevels: Option<seq<(string, ComposeResult)>>
    var composeField: Option<string>
    var state: ContextState
    var effects: seq<Effect>
    const props: ContextState
    const lib: Library

    /** A form loaded without a draft: the default values in the local
        currency, nothing composed. */
    constructor(props: ContextState, lib: Library)
      ensures this.props == props && this.lib == lib && state == props
      ensures values == GetDefaultValues(props.localCurrencyOption)
      ensures errors == map[] && composedLevels.None? && composeField.None? && effects == []
    {
      this.props := props;
      this.lib := lib;
      state := props;
      values := GetDefaultValues(props.localCurrencyOption);
      errors := map[];
      composedLevels := None;
      composeField := None;
      effects := [];
    }

    /** addOutput: appends one default output in the local currency. */
    method AddOutput()
      modifies this
      ensures values == old(values).(outputs := old(values.outputs) + [DefaultOutput(state.localCurrencyOption)])
      ensures SetMaxInRange(old(values)) ==> SetMaxInRange(values)
      ensures unchanged(this`errors, this`composedLevels, this`composeField, this`state, this`effects)
    {
      values := values.(outputs := values.outputs + [DefaultOutput(state.localCurrencyOption)]);
    }

    /** removeOutput: adjusts the set-max id, splices the output out, then
        resets the form to those values, which clears the field errors. */
    method RemoveOutput(index: nat)
      modifies this
      ensures values == OutputRemoved(old(values), index)
      ensures index < |old(values.outputs)| && SetMaxInRange(old(values)) ==> SetMaxInRange(values)
      ensures errors == map[]
      ensures unchanged(this`composedLevels, this`composeField, this`state, this`effects)
    {
      var v := values;
      var setMaxOutputId := v.setMaxOutputId;
      if setMaxOutputId == Some(index) {
        v := v.(setMaxOutputId := None);
      }
      if setMaxOutputId.Some? && setMaxOutputId.value > index {
        v := v.(setMaxOutputId := Some(setMaxOutputId.value - 1));
      }
      var outputs := v.outputs;
      if index < |outputs| {
        outputs := outputs[..index] + outputs[index + 1..];
      }
      v := v.(outputs := outputs);
      values := v;
      errors := map[];
      if index < |old(values.outputs)| {
        RemoveOutputKeepsSetMax(old(values), index);
      }
    }

    /** changeFeeLevel. */
    method ChangeFeeLevel(currentLevel: FeeLevel, newLevel: string)
      modifies this
      ensures values == FeeLevelChanged(old(values), currentLevel, newLevel)
      ensures unchanged(this`errors, this`composedLevels, this`composeField, this`state, this`effects)
    {
      var v := values;
      if newLevel == "custom" && !(Truthy(v.feePerUnit) || v.feePerUnit == Some("")) {
        v := v.(feePerUnit := Some(currentLevel.feePerUnit));
        v := v.(feeLimit := "1");
      }
      v := v.(selectedFee := Some(newLevel));
      values := v;
    }

    /** The composedLevels effect: fee resolution, then the set-max
        handling; nothing happens when nothing is composed or the fee
        resolution throws. */
    method OnComposedLevels()
      modifies this
      ensures composedLevels.None? || FeeResolution(composedLevels.value, old(values)).Thrown? ==>
        values == old(values) && errors == old(errors)
      ensures composedLevels.Some? && FeeResolution(composedLevels.value, old(values)).Resolved? ==>
        var res := FeeResolution(composedLevels.value, old(values));
        (values, errors) == SetMaxApplied(res.values, old(errors), res.composed, composeField, state.symbol, lib)
      ensures unchanged(this`composedLevels, this`composeField, this`state, this`effects)
    {
      if composedLevels.None? {
        return;
      }
      var res := FeeResolution(composedLevels.value, values);
      if res.Thrown? {
        return;
      }
      var applied := SetMaxApplied(res.values, errors, res.composed, composeField, state.symbol, lib);
      values := applied.0;
      errors := applied.1;
    }

    /** resetContext: forgets the composed levels, removes the draft and
        restores the initial context. */
    method ResetContext()
      modifies this
      ensures composedLevels.None? && state == props
      ensures effects == old(effects) + [RemoveDraft]
      ensures unchanged(this`values, this`errors, this`composeField)
    {
      composedLevels := None;
      effects := effects + [RemoveDraft];
      state := props;
    }

    /** sign: hands the final composed level to signTransaction, whose
        outcome is `signed`; a successful signing resets the context. */
    method Sign(signed: bool)
      modifies this
      ensures var tx := SignTarget(old(composedLevels), old(values));
        && (tx.None? ==> effects == old(effects) && composedLevels == old(composedLevels) && state == old(state))
        && (tx.Some? && !signed ==> effects == old(effects) + [SignTransaction(tx.value)] && composedLevels == old(composedLevels) && state == old(state))
        && (tx.Some? && signed ==> effects == old(effects) + [SignTransaction(tx.value), RemoveDraft] && composedLevels.None? && state == props)
      ensures unchanged(this`values, this`errors, this`composeField)
    {
      var composedTx := SignTarget(composedLevels, values);
      if composedTx.Some? {
        effects := effects + [SignTransaction(composedTx.value)];
        if signed {
          ResetContext();
        }
      }
    }

    /** composeInner: nothing while the form has errors; otherwise saves
        the draft, then asks for the transaction to be composed. */
    method ComposeInner() returns (called: bool)
      modifies this
      ensures called <==> |old(errors)| == 0
      ensures called ==> effects == old(effects) + [SaveDraft(values), ComposeTransaction(values, state.feeInfo)]
      ensures !called ==> effects == old(effects)
      ensures unchanged(this`values, this`errors, this`composedLevels, this`composeField, this`state)
    {
      if |errors| > 0 {
        return false;
      }
      effects := effects + [SaveDraft(values)];
      effects := effects + [ComposeTransaction(values, state.feeInfo)];
      return true;
    }

    /** composeOnChange for the field that changed, `response` being what
        the compose call answers: remembers the field, forgets the composed
        levels, composes unless the form has errors, and stores a response
        that came back. */
    method ComposeOnChange(field: string, response: Option<seq<(string, ComposeResult)>>)
      modifies this
      ensures composeField == Some(field)
      ensures |old(errors)| > 0 ==> effects == old(effects) && composedLevels.None?
      ensures |old(errors)| == 0 ==>
        effects == old(effects) + [SaveDraft(values), ComposeTransaction(values, old(state).feeInfo)]
        && composedLevels == response
      ensures state == old(state).(isLoading := false)
      ensures unchanged(this`values, this`errors)
    {
      composeField := Some(field);
      composedLevels := None;
      state := state.(isLoading := true);
      var called := ComposeInner();
      if called && response.Some? {
        composedLevels := response;
      }
      state := state.(isLoading := false);
    }
  }
}
