/** The admin deals page. Saving the form writes one deal (an update of the
    edited deal or an insert); a save whose status is `won` then tries to
    create the deal's commission: a check-then-insert on the ledger at the
    referrer's rate. */
module Deals {
  import opened Domain
  import opened Lists
  import opened Store

  /** A lead as the page loads it: only the qualified and converted leads of
      the company, with the columns the form needs. */
  datatype LeadChoice = LeadChoice(id: Id, name: string, referrerId: Id)

  /** The form's fields; the amount is the text of its input. */
  datatype DealForm = DealForm(leadId: Id, amount: string, status: DealStatus)

  const EmptyForm := DealForm("", "", DealStatus.Pending)

  /** `leads.find(l => l.id === id)`. */
  function FindLeadChoice(ls: seq<LeadChoice>, id: Id): (r: Option<LeadChoice>)
    ensures r.None? <==> forall i :: 0 <= i < |ls| ==> ls[i].id != id
    ensures r.Some? ==> r.value in ls && r.value.id == id
  {
    FindFirst(ls, (l: LeadChoice) => l.id == id)
  }

  /** `referrers.find(r => r.id === id)`. */
  function FindReferrer(rs: seq<ReferrerRate>, id: Id): (r: Option<ReferrerRate>)
    ensures r.None? <==> forall i :: 0 <= i < |rs| ==> rs[i].id != id
    ensures r.Some? ==> r.value in rs && r.value.id == id
  {
    FindFirst(rs, (r: ReferrerRate) => r.id == id)
  }

  /** `dealData`: the columns a save writes. The referrer is the selected
      lead's, and the closing time is set exactly when the deal is won. */
  function DealRow(id: Id, companyId: Id, f: DealForm, lead: LeadChoice, amount: real, now: Timestamp): (d: Deal)
    ensures d.id == id && d.companyId == companyId && d.leadId == f.leadId && d.status == f.status
    ensures d.referrerId == lead.referrerId && d.amount == amount
    ensures d.closedAt.Some? <==> f.status == Won
    ensures d.closedAt.Some? ==> d.closedAt.value == now
  {
    Deal(id, companyId, f.leadId, lead.referrerId, amount, f.status,
         if f.status == Won then Some(now) else None)
  }

  /** `dealAmount * (commission_rate / 100)`: the rate is a percentage. */
  function CommissionAmount(dealAmount: real, ratePercent: real): (c: real)
    ensures ratePercent == 0.0 ==> c == 0.0
    ensures ratePercent == 100.0 ==> c == dealAmount
    ensures 0.0 <= dealAmount && 0.0 <= ratePercent <= 100.0 ==> 0.0 <= c <= dealAmount
  {
    dealAmount * (ratePercent / 100.0)
  }

  /** The existing-entry check: `maybeSingle` yields a row only when the query
      succeeds and exactly one ledger entry references the deal. A failed
      query, or several matching entries, read as no entry. */
  predicate EntryFound(ledger: map<Id, CommissionEntry>, dealId: Id, lookupOk: bool)
    ensures EntryFound(ledger, dealId, lookupOk) ==> lookupOk && EntriesFor(ledger, dealId) != {}
    ensures |EntriesFor(ledger, dealId)| > 1 ==> !EntryFound(ledger, dealId, lookupOk)
  {
    lookupOk && |EntriesFor(ledger, dealId)| == 1
  }

  /** The ledger after `createCommission`: nothing without a company or when
      the referrer is not among the loaded ones, nothing when an entry is
      found, nothing when the insert fails, and otherwise one new pending
      entry at the referrer's rate. */
  function LedgerAfterCommission(ledger: map<Id, CommissionEntry>, referrers: seq<ReferrerRate>,
                                 companyId: Option<Id>, dealId: Id, referrerId: Id, dealAmount: real,
                                 entryId: Id, lookupOk: bool, insertOk: bool): (r: map<Id, CommissionEntry>)
    // the ledger only ever gains the one entry under `entryId`, pending and for this deal
    ensures r.Keys == ledger.Keys || r.Keys == ledger.Keys + {entryId}
    ensures forall k :: k in ledger && k != entryId ==> k in r && r[k] == ledger[k]
    ensures r != ledger ==> entryId in r && r[entryId].dealId == dealId && r[entryId].referrerId == referrerId &&
                            r[entryId].status == CommissionStatus.Pending
    ensures !insertOk ==> r == ledger
  {
    var referrer := FindReferrer(referrers, referrerId);
    if companyId.None? || referrer.None? || EntryFound(ledger, dealId, lookupOk) || !insertOk then ledger
    else ledger[entryId := CommissionEntry(entryId, companyId.value, referrerId, dealId,
                                           CommissionAmount(dealAmount, referrer.value.commissionRate),
                                           CommissionStatus.Pending)]
  }

  /** Adding an entry under a fresh id adds exactly that id to its deal's entries. */
  lemma EntriesAfterInsert(ledger: map<Id, CommissionEntry>, e: CommissionEntry, dealId: Id)
    requires e.id !in ledger
    ensures e.dealId == dealId ==> EntriesFor(ledger[e.id := e], dealId) == EntriesFor(ledger, dealId) + {e.id}
    ensures e.dealId != dealId ==> EntriesFor(ledger[e.id := e], dealId) == EntriesFor(ledger, dealId)
    ensures e.dealId == dealId ==> |EntriesFor(ledger[e.id := e], dealId)| == |EntriesFor(ledger, dealId)| + 1
  {
    assert e.id !in EntriesFor(ledger, dealId);
  }

  /** Under the one-entry-per-deal invariant a deal has at most one entry. */
  lemma {:induction false} AtMostOneEntry(ledger: map<Id, CommissionEntry>, dealId: Id)
    requires OneEntryPerDeal(ledger)
    ensures |EntriesFor(ledger, dealId)| <= 1
  {
    var s := EntriesFor(ledger, dealId);
    if s != {} {
      var x :| x in s;
      forall y | y in s ensures y == x {
        assert ledger[y].dealId == ledger[x].dealId;
      }
      assert s == {x};
    }
  }

  /** The commission is created exactly when there is a company, the referrer
      is known, no entry is found and the insert succeeds; the new entry is
      pending, for the given deal and referrer, at `amount * rate / 100`, and
      no other entry changes. */
  lemma CommissionCreatedExactly(ledger: map<Id, CommissionEntry>, referrers: seq<ReferrerRate>,
                                 companyId: Option<Id>, dealId: Id, referrerId: Id, dealAmount: real,
                                 entryId: Id, lookupOk: bool, insertOk: bool)
    requires entryId !in ledger
    ensures var r := LedgerAfterCommission(ledger, referrers, companyId, dealId, referrerId, dealAmount,
                                           entryId, lookupOk, insertOk);
      var referrer := FindReferrer(referrers, referrerId);
      (r != ledger <==>
        companyId.Some? && referrer.Some? && !EntryFound(ledger, dealId, lookupOk) && insertOk) &&
      (r != ledger ==>
        r.Keys == ledger.Keys + {entryId} &&
        (forall k :: k in ledger ==> r[k] == ledger[k]) &&
        r[entryId] == CommissionEntry(entryId, companyId.value, referrerId, dealId,
                                      dealAmount * (referrer.value.commissionRate / 100.0),
                                      CommissionStatus.Pending))
  {
  }

  /** An unknown referrer creates no entry. */
  lemma UnknownReferrerCreatesNothing(ledger: map<Id, CommissionEntry>, referrers: seq<ReferrerRate>,
                                      companyId: Option<Id>, dealId: Id, referrerId: Id, dealAmount: real,
                                      entryId: Id, lookupOk: bool, insertOk: bool)
    requires forall i :: 0 <= i < |referrers| ==> referrers[i].id != referrerId
    ensures LedgerAfterCommission(ledger, referrers, companyId, dealId, referrerId, dealAmount,
                                  entryId, lookupOk, insertOk) == ledger
  {
  }

  /** With a working existing-entry check, commission creation keeps at most
      one ledger entry per deal. */
  lemma {:induction false} CommissionKeepsOneEntryPerDeal(ledger: map<Id, CommissionEntry>, referrers: seq<ReferrerRate>,
                                      companyId: Option<Id>, dealId: Id, referrerId: Id, dealAmount: real,
                                      entryId: Id, insertOk: bool)
    requires OneEntryPerDeal(ledger) && entryId !in ledger
    ensures OneEntryPerDeal(LedgerAfterCommission(ledger, referrers, companyId, dealId, referrerId, dealAmount,
                                                  entryId, true, insertOk))
  {
    var r := LedgerAfterCommission(ledger, referrers, companyId, dealId, referrerId, dealAmount, entryId, true, insertOk);
    if r != ledger {
      AtMostOneEntry(ledger, dealId);
      assert EntriesFor(ledger, dealId) == {};
      forall a, b | a in r && b in r && r[a].dealId == r[b].dealId ensures a == b {
        if a != entryId && b != entryId {
          assert ledger[a].dealId == ledger[b].dealId;
        } else if a != entryId {
          assert a !in EntriesFor(ledger, dealId);
        }
      }
    }
  }

  /** A deal that already has its entry keeps it: re-saving a won deal with a
      new amount leaves the ledger, and so the entry's amount, as it was. */
  lemma {:induction false} ResaveKeepsCommission(ledger: map<Id, CommissionEntry>, referrers: seq<ReferrerRate>,
                                                 companyId: Option<Id>, dealId: Id, referrerId: Id, dealAmount: real,
                                                 entryId: Id, insertOk: bool, k: Id)
    requires OneEntryPerDeal(ledger) && k in ledger && ledger[k].dealId == dealId
    ensures LedgerAfterCommission(ledger, referrers, companyId, dealId, referrerId, dealAmount,
                                  entryId, true, insertOk) == ledger
  {
    AtMostOneEntry(ledger, dealId);
    assert k in EntriesFor(ledger, dealId);
  }

  /** Creating the commission twice with working checks is the same as once:
      after a first call whose writes succeeded, a second call, under any new
      id and any insert outcome, changes nothing, and the deal has at most one entry. */
  lemma {:induction false} CommissionIsIdempotent(ledger: map<Id, CommissionEntry>, referrers: seq<ReferrerRate>,
                                                  companyId: Option<Id>, dealId: Id, referrerId: Id,
                                                  amount1: real, amount2: real, entry1: Id, entry2: Id, insertOk2: bool)
    requires OneEntryPerDeal(ledger) && entry1 !in ledger
    ensures var once := LedgerAfterCommission(ledger, referrers, companyId, dealId, referrerId, amount1, entry1, true, true);
      LedgerAfterCommission(once, referrers, companyId, dealId, referrerId, amount2, entry2, true, insertOk2) == once &&
      |EntriesFor(once, dealId)| <= 1
  {
    var once := LedgerAfterCommission(ledger, referrers, companyId, dealId, referrerId, amount1, entry1, true, true);
    CommissionKeepsOneEntryPerDeal(ledger, referrers, companyId, dealId, referrerId, amount1, entry1, true);
    AtMostOneEntry(once, dealId);
    if once != ledger {
      EntriesAfterInsert(ledger, once[entry1], dealId);
      assert once == ledger[entry1 := once[entry1]];
      assert EntryFound(once, dealId, true);
    } else if companyId.Some? && FindReferrer(referrers, referrerId).Some? {
      assert EntryFound(ledger, dealId, true);
    }
  }

  /** The existing-entry check ignores its own failure: when it fails for a deal
      that has its entry, a successful insert gives the deal a second entry. */
  lemma {:induction false} FailedCheckDuplicatesCommission(ledger: map<Id, CommissionEntry>, referrers: seq<ReferrerRate>,
                                                           companyId: Id, dealId: Id, referrerId: Id, dealAmount: real,
                                                           entryId: Id)
    requires entryId !in ledger && |EntriesFor(ledger, dealId)| == 1
    requires exists i :: 0 <= i < |referrers| && referrers[i].id == referrerId
    ensures var r := LedgerAfterCommission(ledger, referrers, Some(companyId), dealId, referrerId, dealAmount,
                                           entryId, false, true);
      |EntriesFor(r, dealId)| == 2 && !OneEntryPerDeal(r)
  {
    var r := LedgerAfterCommission(ledger, referrers, Some(companyId), dealId, referrerId, dealAmount, entryId, false, true);
    EntriesAfterInsert(ledger, r[entryId], dealId);
    assert r == ledger[entryId := r[entryId]];
    var k :| k in EntriesFor(ledger, dealId);
    assert k != entryId && r[k].dealId == r[entryId].dealId;
  }

  /** A save never checks for a deal the lead already has: saving a new deal
      for a loaded lead that has one gives that lead two deals. */
  lemma NewDealDuplicatesLeadDeal(deals: map<Id, Deal>, newId: Id, companyId: Id, f: DealForm,
                                  lead: LeadChoice, amount: real, now: Timestamp)
    requires newId !in deals && |DealsFor(deals, f.leadId)| == 1
    ensures var r := deals[newId := DealRow(newId, companyId, f, lead, amount, now)];
      |DealsFor(r, f.leadId)| == 2 && !OneDealPerLead(r)
  {
    InsertForDealtLeadBreaksOneDealPerLead(deals, DealRow(newId, companyId, f, lead, amount, now));
  }

  /** The page's own state. */
  datatype DealsUi = DealsUi(showForm: bool, editingId: Option<Id>, formData: DealForm)

  class DealsPage {
    const db: Db
    const companyId: Option<Id>
    const canManage: bool
    /** The qualified and converted leads and the referrers as last loaded. */
    const leads: seq<LeadChoice>
    const referrers: seq<ReferrerRate>
    var showForm: bool
    var editingId: Option<Id>
    var formData: DealForm

    ghost function Ui(): DealsUi
      reads this
    {
      DealsUi(showForm, editingId, formData)
    }

    constructor(db: Db, companyId: Option<Id>, canManage: bool, leads: seq<LeadChoice>, referrers: seq<ReferrerRate>)
      ensures this.db == db && this.companyId == companyId && this.canManage == canManage
      ensures this.leads == leads && this.referrers == referrers
      ensures Ui() == DealsUi(false, None, EmptyForm)
    {
      this.db := db;
      this.companyId := companyId;
      this.canManage := canManage;
      this.leads := leads;
      this.referrers := referrers;
      showForm, editingId, formData := false, None, EmptyForm;
    }

    method SetFormData(f: DealForm)
      modifies this
      ensures Ui() == old(Ui()).(formData := f)
    {
      formData := f;
    }

    /** `handleEdit`: open the form on a deal; `amountText` is the amount as
        `toString` renders it. */
    method HandleEdit(deal: Deal, amountText: string)
      modifies this
      ensures Ui() == DealsUi(true, Some(deal.id), DealForm(deal.leadId, amountText, deal.status))
    {
      editingId := Some(deal.id);
      formData := DealForm(deal.leadId, amountText, deal.status);
      showForm := true;
    }

    /** `handleCancel`: close the form and reset it. */
    method HandleCancel()
      modifies this
      ensures Ui() == DealsUi(false, None, EmptyForm)
    {
      showForm := false;
      editingId := None;
      formData := EmptyForm;
    }

    /** `createCommission`, with the outcome of the existing-entry query and of
        the insert as inputs and `entryId` the id the backend assigns. */
    method CreateCommission(dealId: Id, referrerId: Id, dealAmount: real, entryId: Id,
                            lookupFault: Option<Failure>, insertFault: Option<Failure>)
      requires db.Valid() && entryId !in db.ledger
      modifies db
      ensures db.Valid()
      ensures db.ledger == LedgerAfterCommission(old(db.ledger), referrers, companyId, dealId, referrerId, dealAmount,
                                                 entryId, lookupFault.None?, insertFault.None?)
      ensures db.leads == old(db.leads) && db.deals == old(db.deals) && db.payouts == old(db.payouts)
    {
      if companyId.None? {
        return;
      }
      var referrer := FindReferrer(referrers, referrerId);
      if referrer.None? {
        return;
      }
      var commissionAmount := CommissionAmount(dealAmount, referrer.value.commissionRate);
      var existing := lookupFault.None? && |db.EntriesForDeal(dealId)| == 1;
      if existing {
        return;
      }
      var _ := db.InsertEntry(CommissionEntry(entryId, companyId.value, referrerId, dealId, commissionAmount,
                                              CommissionStatus.Pending), insertFault);
    }

    /** `handleSubmit`: `amount` is `parseFloat` of the form's amount, `now` the
        clock, `newId` the id the backend gives an inserted deal and `entryId`
        the one it gives a commission entry. The deal write comes first; only
        once it succeeded, and only for a won deal, is the commission created;
        only then does the form reset. */
    method HandleSubmit(amount: real, now: Timestamp, newId: Id, entryId: Id, writeFault: Option<Failure>,
                        lookupFault: Option<Failure>, insertFault: Option<Failure>)
      requires db.Valid() && newId !in db.deals && entryId !in db.ledger
      modifies this, db
      ensures db.Valid()
      ensures db.leads == old(db.leads) && db.payouts == old(db.payouts)
      // no company, no admin role, or a lead that is not a loaded qualified or converted lead: nothing
      ensures companyId.None? || !canManage || FindLeadChoice(leads, old(formData).leadId).None? ==>
        unchanged(this) && unchanged(db)
      ensures companyId.Some? && canManage && FindLeadChoice(leads, old(formData).leadId).Some? ==>
        var lead := FindLeadChoice(leads, old(formData).leadId).value;
        var dealId := if old(editingId).Some? then old(editingId).value else newId;
        var row := DealRow(dealId, companyId.value, old(formData), lead, amount, now);
        // the deal write: an update of the edited deal, or an insert
        db.deals == (if writeFault.Some? || (old(editingId).Some? && dealId !in old(db.deals)) then old(db.deals)
                     else old(db.deals)[dealId := row]) &&
        // a failed write stops the save
        (writeFault.Some? ==> db.ledger == old(db.ledger) && Ui() == old(Ui())) &&
        // otherwise a won deal gets its commission, and the form resets
        (writeFault.None? ==>
          db.ledger == (if old(formData).status == Won
                        then LedgerAfterCommission(old(db.ledger), referrers, companyId, dealId, lead.referrerId,
                                                   amount, entryId, lookupFault.None?, insertFault.None?)
                        else old(db.ledger)) &&
          Ui() == DealsUi(false, None, EmptyForm))
    {
      if companyId.None? || !canManage {
        return;
      }
      var lead := FindLeadChoice(leads, formData.leadId);
      if lead.None? {
        return;
      }
      if editingId.Some? {
        var row := DealRow(editingId.value, companyId.value, formData, lead.value, amount, now);
        var ok := db.UpdateDeal(row, writeFault);
        if !ok {
          return;
        }
        if formData.status == Won {
          CreateCommission(editingId.value, lead.value.referrerId, amount, entryId, lookupFault, insertFault);
        }
      } else {
        var row := DealRow(newId, companyId.value, formData, lead.value, amount, now);
        var ok := db.InsertDeal(row, writeFault);
        if !ok {
          return;
        }
        if formData.status == Won {
          CreateCommission(newId, lead.value.referrerId, amount, entryId, lookupFault, insertFault);
        }
      }
      showForm := false;
      editingId := None;
      formData := EmptyForm;
    }
  }
}
