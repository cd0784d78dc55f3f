/**
 * The resolve form: one resolution text, a validity test that enables the
 * submit button, and the text handed to the parent on submit.
 */
module ClaimResolveForm {
  import opened Js

  class ClaimResolveForm {
    var resolution: Option<string>

    constructor ()
      ensures resolution == None
      ensures !IsFormValid()
    {
      resolution := None;
    }

    /** `onResolutionChange`: the text is stored as entered, not trimmed. */
    method OnResolutionChange(value: string)
      modifies this
      ensures resolution == Some(value)
      ensures IsFormValid() <==> HasNonWhiteSpace(value)
    {
      resolution := Some(value);
    }

    /** `isFormValid`: a resolution holding a character that is not white
        space. */
    function IsFormValid(): (valid: bool)
      reads this
      ensures valid <==> resolution.Some? && HasNonWhiteSpace(resolution.value)
    {
      !IsBlank(resolution)
    }

    /** `onSubmit`: the stored resolution is passed on as it is. */
    method OnSubmit() returns (submitted: Option<string>)
      ensures submitted == resolution
      ensures IsFormValid() ==> submitted.Some? && HasNonWhiteSpace(submitted.value)
    {
      submitted := resolution;
    }
  }
}
