/** The admin leads page. Its form edits one lead at a time; moving a lead
    into `qualified` is the one guarded transition: it is refused while any
    deal references the lead, and otherwise it is deferred until a deal amount
    is confirmed in the deal modal, after which the deal is inserted first and
    the lead updated second. */
module Leads {
  import opened Domain
  import opened Lists
  import opened Store
  import Company

  /** The form's fields, as strings the way the inputs hold them. */
  datatype LeadForm = LeadForm(
    name: string,
    email: string,
    phone: string,
    companyName: string,
    referrerId: Id,
    status: LeadStatus,
    notes: string)

  const EmptyForm := LeadForm("", "", "", "", "", New, "")

  const DuplicateDealAlert := "A deal already exists for this lead. Cannot create duplicate deals."
  const CheckFailedAlert := "Failed to check for existing deals. Please try again."
  const StatusFailedAlert := "Failed to update lead status. Please try again."

  /** `value || ''`. */
  function OrBlank(s: Option<string>): string
  {
    if s.Some? then s.value else ""
  }

  /** The form as the edit button fills it from a lead. */
  function FormOf(l: Lead): (f: LeadForm)
    ensures f.status == l.status && f.referrerId == l.referrerId && f.name == l.name && f.email == l.email
    ensures f.phone == OrBlank(l.phone) && f.companyName == OrBlank(l.companyName) && f.notes == OrBlank(l.notes)
  {
    LeadForm(l.name, l.email, OrBlank(l.phone), OrBlank(l.companyName), l.referrerId, l.status, OrBlank(l.notes))
  }

  /** `leadData`: the columns a form save writes, with empty optional fields
      stored as null. */
  function FormRow(id: Id, companyId: Id, f: LeadForm, status: LeadStatus): (row: Lead)
    ensures row.id == id && row.companyId == companyId && row.status == status
    ensures row.referrerId == f.referrerId && row.name == f.name && row.email == f.email
    ensures row.phone.None? <==> f.phone == ""
    ensures row.companyName.None? <==> f.companyName == ""
    ensures row.notes.None? <==> f.notes == ""
    ensures row.phone.Some? ==> row.phone.value == f.phone
    ensures row.companyName.Some? ==> row.companyName.value == f.companyName
    ensures row.notes.Some? ==> row.notes.value == f.notes
  {
    Lead(id, companyId, f.referrerId, f.name, f.email,
         NullIfEmpty(f.phone), NullIfEmpty(f.companyName), status, NullIfEmpty(f.notes))
  }

  /** Opening a lead in the form and saving it unchanged writes the lead back
      as it was, as long as no optional column holds an empty string (which
      the form cannot tell from null). */
  lemma EditSaveRoundTrip(l: Lead)
    requires l.phone != Some("") && l.companyName != Some("") && l.notes != Some("")
    ensures FormRow(l.id, l.companyId, FormOf(l), l.status) == l
  {
  }

  /** `leads.find(l => l.id === id)`. */
  function FindLead(ls: seq<Lead>, id: Id): (r: Option<Lead>)
    ensures r.None? <==> forall i :: 0 <= i < |ls| ==> ls[i].id != id
    ensures r.Some? ==> r.value in ls && r.value.id == id
  {
    FindFirst(ls, (l: Lead) => l.id == id)
  }

  /** The guard of the qualify check in a form save: an existing lead is being
      edited, its status was not already `qualified`, and the form now says
      `qualified`. */
  predicate EntersQualified(editingId: Option<Id>, originalStatus: Option<LeadStatus>, formStatus: LeadStatus)
    ensures EntersQualified(editingId, originalStatus, formStatus) ==> editingId.Some? && formStatus == Qualified
    ensures originalStatus == Some(Qualified) ==> !EntersQualified(editingId, originalStatus, formStatus)
  {
    editingId.Some? && originalStatus != Some(Qualified) && formStatus == Qualified
  }

  /** The page's own state, apart from the last alert shown. */
  datatype LeadsUi = LeadsUi(
    showForm: bool,
    editingId: Option<Id>,
    originalStatus: Option<LeadStatus>,
    formData: LeadForm,
    showDealModal: bool,
    qualifyingLead: Option<Lead>,
    pendingFormData: Option<LeadForm>)

  /** The form closed and back at its defaults. */
  function FormReset(u: LeadsUi): LeadsUi
  {
    u.(showForm := false, editingId := None, originalStatus := None, formData := EmptyForm)
  }

  class LeadsPage {
    const db: Db
    const companyId: Option<Id>
    const canManage: bool
    /** The leads as last loaded. */
    const leads: seq<Lead>
    var showForm: bool
    var editingId: Option<Id>
    var originalStatus: Option<LeadStatus>
    var formData: LeadForm
    var showDealModal: bool
    var qualifyingLead: Option<Lead>
    var pendingFormData: Option<LeadForm>
    /** The last message put up with `alert`. */
    var alertShown: Option<string>

    ghost function Ui(): LeadsUi
      reads this
    {
      LeadsUi(showForm, editingId, originalStatus, formData, showDealModal, qualifyingLead, pendingFormData)
    }

    /** The deal modal is open for a lead that no deal references yet. */
    ghost predicate QualifyPending()
      reads this, db
    {
      showDealModal && qualifyingLead.Some? && db.DealsForLead(qualifyingLead.value.id) == {}
    }

    constructor(db: Db, companyId: Option<Id>, role: Option<Role>, leads: seq<Lead>)
      ensures this.db == db && this.companyId == companyId && this.leads == leads
      ensures canManage == Company.HasPermission(role, Admin)
      ensures Ui() == LeadsUi(false, None, None, EmptyForm, false, None, None) && alertShown.None?
    {
      this.db := db;
      this.companyId := companyId;
      this.canManage := Company.HasPermission(role, Admin);
      this.leads := leads;
      showForm, editingId, originalStatus, formData := false, None, None, EmptyForm;
      showDealModal, qualifyingLead, pendingFormData := false, None, None;
      alertShown := None;
    }

    /** The form's inputs, the status dropdown among them. */
    method SetFormData(f: LeadForm)
      modifies this
      ensures Ui() == old(Ui()).(formData := f) && alertShown == old(alertShown)
    {
      formData := f;
    }

    /** `handleEdit`: open the form on a lead and remember its status. */
    method HandleEdit(lead: Lead)
      modifies this
      ensures Ui() == old(Ui()).(showForm := true, editingId := Some(lead.id),
                                 originalStatus := Some(lead.status), formData := FormOf(lead))
      ensures alertShown == old(alertShown)
    {
      editingId := Some(lead.id);
      originalStatus := Some(lead.status);
      formData := FormOf(lead);
      showForm := true;
    }

    /** `handleCancel`: close the form, drop any stashed form, reset to defaults. */
    method HandleCancel()
      modifies this
      ensures Ui() == FormReset(old(Ui())).(pendingFormData := None) && alertShown == old(alertShown)
    {
      showForm := false;
      editingId := None;
      originalStatus := None;
      pendingFormData := None;
      formData := EmptyForm;
    }

    /** `handleSubmit`: the form save. */
    method HandleSubmit(checkFault: Option<Failure>, updateFault: Option<Failure>)
      requires db.Valid()
      modifies this, db
      ensures db.Valid()
      // without a company or the admin role nothing happens
      ensures companyId.None? || !canManage ==> unchanged(this) && unchanged(db)
      // moving into qualified: the check failed
      ensures companyId.Some? && canManage && old(EntersQualified(editingId, originalStatus, formData.status)) &&
              checkFault.Some? ==>
        unchanged(db) && Ui() == old(Ui()) && alertShown == Some(CheckFailedAlert)
      // moving into qualified: a deal already references the lead
      ensures companyId.Some? && canManage && old(EntersQualified(editingId, originalStatus, formData.status)) &&
              checkFault.None? && old(db.DealsForLead(editingId.value)) != {} ==>
        unchanged(db) && Ui() == old(Ui()) && alertShown == Some(DuplicateDealAlert)
      // moving into qualified: nothing is written; the form is stashed and the deal modal opens
      ensures companyId.Some? && canManage && old(EntersQualified(editingId, originalStatus, formData.status)) &&
              checkFault.None? && old(db.DealsForLead(editingId.value)) == {} &&
              old(FindLead(leads, editingId.value)).Some? ==>
        unchanged(db) && alertShown == old(alertShown) &&
        Ui() == old(Ui()).(pendingFormData := Some(old(formData)), showDealModal := true,
                           qualifyingLead := old(FindLead(leads, editingId.value))) &&
        QualifyPending()
      // any other save: the edited lead gets every column of the form (none without a lead being
      // edited), and on success the form resets
      ensures companyId.Some? && canManage &&
              (old(EntersQualified(editingId, originalStatus, formData.status)) ==>
                 checkFault.None? && old(db.DealsForLead(editingId.value)) == {} &&
                 old(FindLead(leads, editingId.value)).None?) ==>
        db.deals == old(db.deals) && db.ledger == old(db.ledger) && db.payouts == old(db.payouts) &&
        alertShown == old(alertShown) &&
        (old(editingId).None? ==> db.leads == old(db.leads) && Ui() == FormReset(old(Ui()))) &&
        (old(editingId).Some? ==>
          var row := FormRow(old(editingId).value, companyId.value, old(formData), old(formData).status);
          (updateFault.None? ==>
            db.leads == (if row.id in old(db.leads) then old(db.leads)[row.id := row] else old(db.leads)) &&
            Ui() == FormReset(old(Ui()))) &&
          (updateFault.Some? ==> db.leads == old(db.leads) && Ui() == old(Ui())))
    {
      if companyId.None? || !canManage {
        return;
      }
      if EntersQualified(editingId, originalStatus, formData.status) {
        if checkFault.Some? {
          alertShown := Some(CheckFailedAlert);
          return;
        }
        if db.DealsForLead(editingId.value) != {} {
          alertShown := Some(DuplicateDealAlert);
          return;
        }
        var currentLead := FindLead(leads, editingId.value);
        if currentLead.Some? {
          pendingFormData := Some(formData);
          qualifyingLead := currentLead;
          showDealModal := true;
          return;
        }
      }
      SaveForm(updateFault);
    }

    /** The write path of `handleSubmit`: the edited lead gets every column of
        the form, and the form resets once that succeeded; with no lead being
        edited nothing is written and the form resets. */
    method SaveForm(updateFault: Option<Failure>)
      requires db.Valid() && companyId.Some?
      modifies this, db
      ensures db.Valid() && alertShown == old(alertShown)
      ensures db.deals == old(db.deals) && db.ledger == old(db.ledger) && db.payouts == old(db.payouts)
      ensures old(editingId).None? ==> db.leads == old(db.leads) && Ui() == FormReset(old(Ui()))
      ensures old(editingId).Some? && updateFault.None? ==>
        var row := FormRow(old(editingId).value, companyId.value, old(formData), old(formData).status);
        db.leads == (if row.id in old(db.leads) then old(db.leads)[row.id := row] else old(db.leads)) &&
        Ui() == FormReset(old(Ui()))
      ensures old(editingId).Some? && updateFault.Some? ==> db.leads == old(db.leads) && Ui() == old(Ui())
    {
      if editingId.Some? {
        var ok := db.UpdateLead(FormRow(editingId.value, companyId.value, formData, formData.status), updateFault);
        if !ok {
          return;
        }
      }
      showForm := false;
      editingId := None;
      originalStatus := None;
      formData := EmptyForm;
    }

    /** `handleStatusChange`: the status dropdown in the table. Choosing
        `qualified` runs the duplicate-deal check and opens the deal modal;
        any other status is written straight to the lead, and nothing else. */
    method HandleStatusChange(lead: Lead, newStatus: LeadStatus, fault: Option<Failure>)
      requires db.Valid()
      modifies this, db
      ensures db.Valid()
      ensures companyId.None? || !canManage ==> unchanged(this) && unchanged(db)
      ensures companyId.Some? && canManage && newStatus == Qualified ==>
        unchanged(db) &&
        (fault.Some? ==> Ui() == old(Ui()) && alertShown == Some(CheckFailedAlert)) &&
        (fault.None? && old(db.DealsForLead(lead.id)) != {} ==>
          Ui() == old(Ui()) && alertShown == Some(DuplicateDealAlert)) &&
        (fault.None? && old(db.DealsForLead(lead.id)) == {} ==>
          Ui() == old(Ui()).(qualifyingLead := Some(lead), showDealModal := true) &&
          alertShown == old(alertShown) && QualifyPending())
      ensures companyId.Some? && canManage && newStatus != Qualified ==>
        db.deals == old(db.deals) && db.ledger == old(db.ledger) && db.payouts == old(db.payouts) &&
        Ui() == old(Ui()) &&
        db.leads == (if fault.None? && lead.id in old(db.leads)
                     then old(db.leads)[lead.id := old(db.leads)[lead.id].(status := newStatus)]
                     else old(db.leads)) &&
        alertShown == (if fault.Some? then Some(StatusFailedAlert) else old(alertShown))
    {
      if companyId.None? || !canManage {
        return;
      }
      if newStatus == Qualified {
        if fault.Some? {
          alertShown := Some(CheckFailedAlert);
          return;
        }
        if db.DealsForLead(lead.id) != {} {
          alertShown := Some(DuplicateDealAlert);
          return;
        }
        qualifyingLead := Some(lead);
        showDealModal := true;
      } else {
        var ok := db.UpdateLeadStatus(lead.id, newStatus, fault);
        if !ok {
          alertShown := Some(StatusFailedAlert);
        }
      }
    }

    /** `handleCreateDeal`, the modal's submit callback: insert the deal, then
        qualify the lead (writing the stashed form if there is one), then close
        the modal. A failed call ends the handler with that failure, which is
        `thrown`; steps already taken stay. */
    method HandleCreateDeal(amount: real, dealId: Id, insertFault: Option<Failure>, updateFault: Option<Failure>)
      returns (thrown: Option<Failure>)
      requires db.Valid() && dealId !in db.deals
      modifies this, db
      ensures db.Valid() && alertShown == old(alertShown)
      ensures db.ledger == old(db.ledger) && db.payouts == old(db.payouts)
      ensures old(qualifyingLead).None? || companyId.None? ==> thrown.None? && unchanged(this) && unchanged(db)
      ensures old(qualifyingLead).Some? && companyId.Some? ==>
        var lead := old(qualifyingLead).value;
        var deal := Deal(dealId, companyId.value, lead.id, lead.referrerId, amount, DealStatus.Pending, None);
        // the deal insert fails: nothing is written
        (insertFault.Some? ==>
          thrown == insertFault && db.leads == old(db.leads) && db.deals == old(db.deals) && Ui() == old(Ui())) &&
        // the deal is inserted before the lead is touched
        (insertFault.None? ==>
          db.deals == old(db.deals)[dealId := deal] &&
          (updateFault.Some? ==>
            thrown == updateFault && db.leads == old(db.leads) && Ui() == old(Ui())) &&
          (updateFault.None? ==>
            thrown.None? && !showDealModal && qualifyingLead.None? &&
            (old(pendingFormData).Some? ==>
              var row := FormRow(lead.id, companyId.value, old(pendingFormData).value, Qualified);
              db.leads == (if lead.id in old(db.leads) then old(db.leads)[lead.id := row] else old(db.leads)) &&
              Ui() == FormReset(old(Ui())).(pendingFormData := None, showDealModal := false, qualifyingLead := None)) &&
            (old(pendingFormData).None? ==>
              db.leads == (if lead.id in old(db.leads)
                           then old(db.leads)[lead.id := old(db.leads)[lead.id].(status := Qualified)]
                           else old(db.leads)) &&
              Ui() == old(Ui()).(showDealModal := false, qualifyingLead := None))))
      // the one-deal-per-lead invariant survives when the modal was opened by a passing check
      ensures old(OneDealPerLead(db.deals)) && old(QualifyPending()) ==> OneDealPerLead(db.deals)
      // a failed lead update after a successful insert leaves the modal open on the same lead,
      // which a deal now references: confirming again would insert a second deal for it
      ensures old(qualifyingLead).Some? && companyId.Some? && insertFault.None? && updateFault.Some? ==>
        qualifyingLead == old(qualifyingLead) && showDealModal == old(showDealModal) &&
        dealId in db.DealsForLead(old(qualifyingLead).value.id)
      // nothing re-checks for a deal here: confirming for a lead that a deal already references,
      // as that retry does, leaves the lead with two deals
      ensures old(qualifyingLead).Some? && companyId.Some? && insertFault.None? &&
              old(db.DealsForLead(qualifyingLead.value.id)) != {} ==>
        !OneDealPerLead(db.deals)
    {
      if qualifyingLead.None? || companyId.None? {
        return None;
      }
      var lead := qualifyingLead.value;
      var deal := Deal(dealId, companyId.value, lead.id, lead.referrerId, amount, DealStatus.Pending, None);
      if OneDealPerLead(db.deals) && QualifyPending() {
        InsertKeepsOneDealPerLead(db.deals, deal);
      }
      if db.DealsForLead(lead.id) != {} {
        InsertForDealtLeadBreaksOneDealPerLead(db.deals, deal);
      }
      var ok := db.InsertDeal(deal, insertFault);
      if !ok {
        return insertFault;
      }
      thrown := QualifyLead(lead, updateFault);
    }

    /** The second half of `handleCreateDeal`, once the deal is inserted:
        write the stashed form with status `qualified` (and reset the form),
        or only the status when nothing is stashed; then close the modal. */
    method QualifyLead(lead: Lead, updateFault: Option<Failure>) returns (thrown: Option<Failure>)
      requires db.Valid() && companyId.Some?
      modifies this, db
      ensures db.Valid() && alertShown == old(alertShown)
      ensures db.deals == old(db.deals) && db.ledger == old(db.ledger) && db.payouts == old(db.payouts)
      ensures updateFault.Some? ==> thrown == updateFault && db.leads == old(db.leads) && Ui() == old(Ui())
      ensures updateFault.None? ==> thrown.None? && !showDealModal && qualifyingLead.None?
      ensures updateFault.None? && old(pendingFormData).Some? ==>
        var row := FormRow(lead.id, companyId.value, old(pendingFormData).value, Qualified);
        db.leads == (if lead.id in old(db.leads) then old(db.leads)[lead.id := row] else old(db.leads)) &&
        Ui() == FormReset(old(Ui())).(pendingFormData := None, showDealModal := false, qualifyingLead := None)
      ensures updateFault.None? && old(pendingFormData).None? ==>
        db.leads == (if lead.id in old(db.leads)
                     then old(db.leads)[lead.id := old(db.leads)[lead.id].(status := Qualified)]
                     else old(db.leads)) &&
        Ui() == old(Ui()).(showDealModal := false, qualifyingLead := None)
    {
      var ok;
      if pendingFormData.Some? {
        ok := db.UpdateLead(FormRow(lead.id, companyId.value, pendingFormData.value, Qualified), updateFault);
        if !ok {
          return updateFault;
        }
        showForm := false;
        editingId := None;
        originalStatus := None;
        pendingFormData := None;
        formData := EmptyForm;
      } else {
        ok := db.UpdateLeadStatus(lead.id, Qualified, updateFault);
        if !ok {
          return updateFault;
        }
      }
      showDealModal := false;
      qualifyingLead := None;
      return None;
    }

    /** `handleCloseDealModal`: persist nothing; a stashed form comes back with
        the lead's original status, and the modal closes. */
    method HandleCloseDealModal()
      modifies this
      ensures alertShown == old(alertShown)
      ensures old(pendingFormData).Some? && old(originalStatus).Some? ==>
        Ui() == old(Ui()).(formData := old(pendingFormData).value.(status := old(originalStatus).value),
                           pendingFormData := None, showDealModal := false, qualifyingLead := None)
      ensures old(pendingFormData).None? || old(originalStatus).None? ==>
        Ui() == old(Ui()).(showDealModal := false, qualifyingLead := None)
    {
      if pendingFormData.Some? && originalStatus.Some? {
        formData := pendingFormData.value.(status := originalStatus.value);
        pendingFormData := None;
      }
      showDealModal := false;
      qualifyingLead := None;
    }
  }
}
