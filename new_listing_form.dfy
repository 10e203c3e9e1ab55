/**
 * NewListingForm: a controlled form over four string inputs that POSTs its data and clears
 * itself once any JSON comes back.
 */
module NewListingForm {
  import opened Catalog
  import opened Http

  class NewListingForm {
    var formData: ListingData

    /** The four inputs start blank. */
    constructor ()
      ensures formData == EMPTY_LISTING
    {
      formData := ListingData("", "", "", "");
    }

    /** `handleChange`: the input named `name` takes `value`; the other three keep theirs. */
    method HandleChange(name: ListingField, value: string)
      modifies this
      ensures formData == WithListingField(old(formData), name, value)
    {
      formData := WithListingField(formData, name, value);
    }

    /**
     * Every input carries the HTML `required` attribute, so the browser fires the form's
     * submit event only when none of the four is blank.
     */
    predicate Complete()
      reads this
    {
      formData.storeId != "" && formData.videoGameId != "" && formData.price != "" && formData.stock != ""
    }

    /**
     * `handleSubmit`: POST the current data as it stands; on any parsed response, whatever
     * its status, the form resets; a rejected fetch or unparseable body leaves it as typed.
     */
    method HandleSubmit<T>(outcome: Outcome<T>) returns (req: Request)
      requires Complete()
      modifies this
      ensures req == PostListing(old(formData))
      ensures formData == if outcome.Parsed().Some? then EMPTY_LISTING else old(formData)
    {
      req := PostListing(formData);
      if outcome.Parsed().Some? {
        formData := ListingData("", "", "", "");
      }
    }
  }
}
