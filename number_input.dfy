/**
 * The rule both the deal-id input and the new-allowance input apply to what
 * `parseInt` makes of the entered text.
 */
module NumberInput {
  import opened Js

  /** `if (!n || n < 0) { n = null; }`: zero, negative numbers and `NaN`
      become `null`; a positive number is kept as it is. */
  function PositiveOrNull(parsed: Option<int>): (r: Option<int>)
    ensures r.None? || r.value > 0
    ensures r.Some? <==> parsed.Some? && parsed.value > 0
    ensures r.Some? ==> r == parsed
  {
    if !IsTruthy(parsed) || parsed.value < 0 then None else parsed
  }

  /** Normalising a normalised value changes nothing. */
  lemma PositiveOrNullIdempotent(parsed: Option<int>)
    ensures PositiveOrNull(PositiveOrNull(parsed)) == PositiveOrNull(parsed)
  {
  }
}
