/**
 * The create-dispute form: a stake, a deal id and three texts, each set by
 * its own change handler, a validity test that enables the submit button,
 * and the payload handed to the parent on submit. The current allowance is a
 * property given by the parent; `None` is `null` (not loaded yet).
 */
module ClaimCreateForm {
  import opened Js
  import opened NumberInput

  /** The smallest number of tokens a dispute can stake. */
  const MinStake := 150

  /** What `onSubmit` hands to the parent (the SDK's create-claim payload). */
  datatype CreateClaimPayload = CreateClaimPayload(
    dealId: Option<int>,
    reason: Option<string>,
    requesterId: Option<string>,
    respondentId: Option<string>,
    tokens: int)

  /**
   * The stake kept after the stake input changed to text that `parseInt`
   * reads as `parsed`: never below the minimum, and not above the allowance
   * when the allowance is above the minimum.
   */
  function StakeAfterChange(parsed: Option<int>, currentAllowance: Option<int>): (stake: int)
    ensures stake >= MinStake
    ensures parsed.None? || parsed.value < MinStake ==> stake == MinStake
    ensures NullAsZero(currentAllowance) > MinStake ==> stake <= currentAllowance.value
    ensures (NullAsZero(currentAllowance) <= MinStake && parsed.Some? && parsed.value >= MinStake)
            ==> stake == parsed.value
    ensures (parsed.Some? && MinStake <= parsed.value <= NullAsZero(currentAllowance))
            ==> stake == parsed.value
    ensures (parsed.Some? && parsed.value > NullAsZero(currentAllowance) > MinStake)
            ==> stake == currentAllowance.value
  {
    var atLeastMin := if !IsTruthy(parsed) || parsed.value < MinStake then MinStake else parsed.value;
    if atLeastMin > NullAsZero(currentAllowance) && NullAsZero(currentAllowance) > MinStake
    then NullAsZero(currentAllowance)
    else atLeastMin
  }

  /** Entering the stake that the form already shows keeps it: the clamp is
      idempotent. */
  lemma StakeClampIdempotent(parsed: Option<int>, currentAllowance: Option<int>)
    ensures var stake := StakeAfterChange(parsed, currentAllowance);
            StakeAfterChange(Some(stake), currentAllowance) == stake
  {
  }

  /** Typing the decimal text of the stored stake back into the input keeps
      the stake. */
  lemma RetypedStakeKept(stake: nat, currentAllowance: Option<int>)
    requires stake >= MinStake
    requires NullAsZero(currentAllowance) > MinStake ==> stake <= currentAllowance.value
    ensures StakeAfterChange(ParseInt(ToDecimalString(stake)), currentAllowance) == stake
  {
    ParseIntOfDecimalString(stake);
  }

  /** With an allowance above the minimum, whatever is typed leaves a stake
      that passes the form's stake test. */
  lemma StakeWithinBoundsAfterChange(parsed: Option<int>, currentAllowance: Option<int>)
    requires NullAsZero(currentAllowance) > MinStake
    ensures MinStake <= StakeAfterChange(parsed, currentAllowance) <= NullAsZero(currentAllowance)
  {
  }

  class ClaimCreateForm {
    var stake: int
    var dealId: Option<int>
    var reason: Option<string>
    var requesterId: Option<string>
    var respondentId: Option<string>

    /** What the constructor sets up and every change handler keeps. */
    predicate Valid()
      reads this
    {
      stake >= MinStake && (dealId.None? || dealId.value > 0)
    }

    constructor ()
      ensures Valid()
      ensures stake == MinStake && dealId == None
      ensures reason == None && requesterId == None && respondentId == None
      ensures forall a :: !IsFormValid(a)
    {
      stake := MinStake;
      dealId := None;
      reason := None;
      requesterId := None;
      respondentId := None;
    }

    /** `onStakeChange`: `value` is the text of the stake input. */
    method OnStakeChange(value: string, currentAllowance: Option<int>)
      modifies this
      ensures stake == StakeAfterChange(ParseInt(value), currentAllowance)
      ensures dealId == old(dealId) && reason == old(reason)
      ensures requesterId == old(requesterId) && respondentId == old(respondentId)
      ensures old(Valid()) ==> Valid()
    {
      var parsed := ParseInt(value);
      var newStake: int;
      if !IsTruthy(parsed) || parsed.value < MinStake {
        newStake := MinStake;
      } else {
        newStake := parsed.value;
      }
      if newStake > NullAsZero(currentAllowance) && NullAsZero(currentAllowance) > MinStake {
        newStake := currentAllowance.value;
      }
      stake := newStake;
    }

    /** `onDealIdChange`: `value` is the text of the deal-id input. */
    method OnDealIdChange(value: string)
      modifies this
      ensures dealId == PositiveOrNull(ParseInt(value))
      ensures stake == old(stake) && reason == old(reason)
      ensures requesterId == old(requesterId) && respondentId == old(respondentId)
      ensures old(Valid()) ==> Valid()
    {
      var newDealId := ParseInt(value);
      if !IsTruthy(newDealId) || newDealId.value < 0 {
        newDealId := None;
      }
      dealId := newDealId;
    }

    /** `onReasonChange`: the text is stored as entered. */
    method OnReasonChange(value: string)
      modifies this
      ensures reason == Some(value)
      ensures stake == old(stake) && dealId == old(dealId)
      ensures requesterId == old(requesterId) && respondentId == old(respondentId)
    {
      reason := Some(value);
    }

    /** `onRequesterIdChange`: the text is stored as entered. */
    method OnRequesterIdChange(value: string)
      modifies this
      ensures requesterId == Some(value)
      ensures stake == old(stake) && dealId == old(dealId)
      ensures reason == old(reason) && respondentId == old(respondentId)
    {
      requesterId := Some(value);
    }

    /** `onRespondentIdChange`: the text is stored as entered. */
    method OnRespondentIdChange(value: string)
      modifies this
      ensures respondentId == Some(value)
      ensures stake == old(stake) && dealId == old(dealId)
      ensures reason == old(reason) && requesterId == old(requesterId)
    {
      respondentId := Some(value);
    }

    /**
     * `isFormValid`, which enables the submit button: the stake lies between
     * the minimum and the allowance (a `null` allowance compares as 0), a
     * deal id of 0 or more is there, and each text holds a character that
     * is not white space.
     */
    function IsFormValid(currentAllowance: Option<int>): (valid: bool)
      reads this
      ensures valid <==>
        MinStake <= stake <= NullAsZero(currentAllowance)
        && dealId.Some? && dealId.value >= 0
        && reason.Some? && HasNonWhiteSpace(reason.value)
        && requesterId.Some? && HasNonWhiteSpace(requesterId.value)
        && respondentId.Some? && HasNonWhiteSpace(respondentId.value)
    {
      if stake == 0 || !(stake >= MinStake) || stake > NullAsZero(currentAllowance) then false
      else if (!IsTruthy(dealId) && dealId != Some(0)) || !(NullAsZero(dealId) >= 0) then false
      else if IsBlank(reason) then false
      else if IsBlank(requesterId) then false
      else if IsBlank(respondentId) then false
      else true
    }

    /** `onSubmit`: the payload carries the stored fields as they are, the
        stake as its number of tokens. */
    method OnSubmit() returns (payload: CreateClaimPayload)
      ensures payload.dealId == dealId && payload.reason == reason
      ensures payload.requesterId == requesterId && payload.respondentId == respondentId
      ensures payload.tokens == stake
    {
      payload := CreateClaimPayload(dealId, reason, requesterId, respondentId, stake);
    }
  }

  /** Until an allowance is loaded, nothing can be submitted. */
  lemma NoSubmitWithoutAllowance(f: ClaimCreateForm)
    ensures !f.IsFormValid(None)
  {
  }
}
