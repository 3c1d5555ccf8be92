/** The modal that collects a deal amount for a lead being qualified. It
    validates the amount, then awaits the page's submit callback and closes
    only after that callback has resolved; a failure keeps it open with the
    failure's message. */
module CreateDealModal {
  import opened Domain
  import opened Store
  import opened Leads

  const InvalidAmountError := "Please enter a valid amount greater than 0"
  const DefaultFailureText := "Failed to create deal"

  /** `parseFloat(amount)` yields a number (`Some`) or NaN (`None`); only a
      number greater than zero is accepted. */
  predicate ValidAmount(parsed: Option<real>)
  {
    parsed.Some? && parsed.value > 0.0
  }

  /** `err instanceof Error ? err.message : 'Failed to create deal'`. */
  function FailureText(f: Failure): (text: string)
    ensures f.ErrorObject? ==> text == f.message
    ensures f.NonError? ==> text == DefaultFailureText
  {
    match f
    case ErrorObject(m) => m
    case NonError => DefaultFailureText
  }

  class DealModal {
    var loading: bool
    var error: string

    constructor()
      ensures !loading && error == ""
    {
      loading, error := false, "";
    }

    /** `handleSubmit`: reject an invalid amount without calling back; otherwise
        clear the error, set `loading`, call the page's `handleCreateDeal` with
        the amount unchanged, and call its `handleCloseDealModal` only when
        that resolved. On a failure the error shows its text and `loading`
        returns to false. `submitted` says whether the callback ran. */
    method Submit(page: LeadsPage, parsed: Option<real>, dealId: Id,
                  insertFault: Option<Failure>, updateFault: Option<Failure>)
      returns (submitted: bool, thrown: Option<Failure>)
      requires page.db.Valid() && dealId !in page.db.deals
      modifies this, page, page.db
      ensures page.db.Valid()
      ensures !ValidAmount(parsed) ==>
        !submitted && thrown.None? && error == InvalidAmountError && loading == old(loading) &&
        unchanged(page) && unchanged(page.db)
      ensures ValidAmount(parsed) ==> submitted
      // the deal the callback inserts carries the amount exactly as entered
      ensures ValidAmount(parsed) && old(page.qualifyingLead).Some? && page.companyId.Some? && insertFault.None? ==>
        dealId in page.db.deals && page.db.deals[dealId].amount == parsed.value &&
        page.db.deals[dealId].leadId == old(page.qualifyingLead).value.id
      // resolved: the modal closes through the page
      ensures ValidAmount(parsed) && thrown.None? ==>
        loading && error == "" && !page.showDealModal && page.qualifyingLead.None?
      // failed: the modal stays open with the failure's text
      ensures ValidAmount(parsed) && thrown.Some? ==>
        !loading && error == FailureText(thrown.value) &&
        page.showDealModal == old(page.showDealModal) && page.qualifyingLead == old(page.qualifyingLead)
      ensures thrown.Some? ==> thrown == insertFault || thrown == updateFault
    {
      if !ValidAmount(parsed) {
        error := InvalidAmountError;
        return false, None;
      }
      loading := true;
      error := "";
      submitted := true;
      thrown := page.HandleCreateDeal(parsed.value, dealId, insertFault, updateFault);
      if thrown.None? {
        page.HandleCloseDealModal();
      } else {
        error := FailureText(thrown.value);
        loading := false;
      }
    }
  }
}
