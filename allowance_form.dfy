/**
 * The allowance form: shows the current token allowance (a property given by
 * the parent, `None` while not loaded), offers an input and an Approve button
 * while the allowance is exactly 0, and a Clear button while it is set and
 * not 0.
 */
module AllowanceForm {
  import opened Js
  import opened NumberInput

  /** The allowance the approve input starts with. */
  const InitialNewAllowance := 150

  /** What the "Current MTH allowance" field shows. */
  datatype AllowanceText = Amount(tokens: int) | Ellipsis

  /** The current-allowance field: the number once it is known and not
      negative, "..." otherwise. */
  function AllowanceDisplay(currentAllowance: Option<int>): (text: AllowanceText)
    ensures text.Amount? <==> currentAllowance.Some? && currentAllowance.value >= 0
    ensures text.Amount? ==> text.tokens == currentAllowance.value
    ensures currentAllowance.None? ==> text == Ellipsis
  {
    if NullAsZero(currentAllowance) > 0 || currentAllowance == Some(0)
    then Amount(currentAllowance.value)
    else Ellipsis
  }

  /** Whether the new-allowance input and the Approve button are rendered
      (`currentAllowance !== 0` renders neither). */
  function ApproveControlsShown(currentAllowance: Option<int>): (shown: bool)
    ensures shown <==> currentAllowance.Some? && currentAllowance.value == 0
  {
    !(currentAllowance != Some(0))
  }

  /** Whether the Clear button is rendered (`!currentAllowance` hides it). */
  function ClearButtonShown(currentAllowance: Option<int>): (shown: bool)
    ensures shown <==> currentAllowance.Some? && currentAllowance.value != 0
  {
    IsTruthy(currentAllowance)
  }

  /** Approving and clearing are never offered together; once the allowance
      is known exactly one of them is. */
  lemma ApproveOrClearExclusive(currentAllowance: Option<int>)
    ensures !(ApproveControlsShown(currentAllowance) && ClearButtonShown(currentAllowance))
    ensures currentAllowance.Some? ==>
      ApproveControlsShown(currentAllowance) || ClearButtonShown(currentAllowance)
    ensures currentAllowance.None? ==>
      !ApproveControlsShown(currentAllowance) && !ClearButtonShown(currentAllowance)
  {
  }

  class AllowanceForm {
    var newAllowance: Option<int>

    /** What the constructor sets up and the change handler keeps. */
    predicate Valid()
      reads this
    {
      newAllowance.None? || newAllowance.value > 0
    }

    constructor ()
      ensures Valid() && newAllowance == Some(InitialNewAllowance)
      ensures !ApproveButtonDisabled()
    {
      newAllowance := Some(InitialNewAllowance);
    }

    /** `onNewAllowanceChange`: `value` is the text of the approve input. */
    method OnNewAllowanceChange(value: string)
      modifies this
      ensures newAllowance == PositiveOrNull(ParseInt(value))
      ensures Valid()
    {
      var parsed := ParseInt(value);
      if !IsTruthy(parsed) || parsed.value < 0 {
        parsed := None;
      }
      newAllowance := parsed;
    }

    /** Whether the Approve button is disabled (`!newAllowance`). */
    function ApproveButtonDisabled(): (disabled: bool)
      reads this
      ensures disabled <==> newAllowance.None? || newAllowance.value == 0
    {
      !IsTruthy(newAllowance)
    }

    /** `onApprove`: the stored amount is passed on as it is; when the button
        could be clicked it is a positive number. */
    method OnApprove() returns (amount: Option<int>)
      ensures amount == newAllowance
      ensures Valid() && !ApproveButtonDisabled() ==> amount.Some? && amount.value > 0
    {
      amount := newAllowance;
    }
  }
}
