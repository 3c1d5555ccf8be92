/** The admin commissions page: the ledger filtered by status, its totals per
    status, and the status advance, where marking an entry paid converts the
    lead behind a won deal. */
module Commissions {
  import opened Domain
  import opened Lists
  import opened Store

  /** The status selector: `all`, or one status. */
  datatype CommissionFilter = AllStatuses | OnlyStatus(status: CommissionStatus)

  /** `filteredCommissions`: the whole list for `all`, otherwise exactly the
      entries with the selected status. */
  function FilterCommissions(cs: seq<CommissionEntry>, f: CommissionFilter): (r: seq<CommissionEntry>)
    ensures f.AllStatuses? ==> r == cs
    ensures f.OnlyStatus? ==>
      |r| <= |cs| &&
      (forall i :: 0 <= i < |r| ==> r[i] in cs && r[i].status == f.status) &&
      (forall i :: 0 <= i < |cs| && cs[i].status == f.status ==> cs[i] in r) &&
      (forall i :: 0 <= i < |cs| ==> multiset(r)[cs[i]] == if cs[i].status == f.status then multiset(cs)[cs[i]] else 0)
  {
    if f.AllStatuses? then cs else Filter(cs, (c: CommissionEntry) => c.status == f.status)
  }

  /** Selecting every status one by one covers the list: an entry is kept by
      exactly the filter of its own status. */
  lemma FilterSelectsOwnStatus(cs: seq<CommissionEntry>, i: nat)
    requires i < |cs|
    ensures cs[i] in FilterCommissions(cs, OnlyStatus(cs[i].status))
    ensures forall s :: s != cs[i].status ==> cs[i] !in FilterCommissions(cs, OnlyStatus(s))
  {
  }

  function Amount(c: CommissionEntry): real
  {
    c.amount
  }

  predicate IsPending(c: CommissionEntry) { c.status == CommissionStatus.Pending }
  predicate IsApproved(c: CommissionEntry) { c.status == Approved }
  predicate IsPaid(c: CommissionEntry) { c.status == Paid }

  datatype CommissionStats = CommissionStats(total: real, pending: real, approved: real, paid: real)

  /** `stats`: the sum of all amounts and the sums per status. Since every
      entry has one of the three statuses, the total is their sum. */
  function Stats(cs: seq<CommissionEntry>): (s: CommissionStats)
    ensures s.total == s.pending + s.approved + s.paid
    ensures cs == [] ==> s == CommissionStats(0.0, 0.0, 0.0, 0.0)
  {
    SumSplitsThreeWays(cs, Amount, IsPending, IsApproved, IsPaid);
    CommissionStats(Sum(cs, Amount), Sum(Filter(cs, IsPending), Amount),
                    Sum(Filter(cs, IsApproved), Amount), Sum(Filter(cs, IsPaid), Amount))
  }

  /** The position of a status in the entry's life: pending, approved, paid. */
  function Stage(s: CommissionStatus): nat
  {
    match s
    case Pending => 0
    case Approved => 1
    case Paid => 2
  }

  /** The one action the table offers an admin for an entry: approve a
      pending entry, mark an approved one paid, nothing for a paid one. */
  function NextStatus(s: CommissionStatus): (next: Option<CommissionStatus>)
    ensures next.None? <==> s == Paid
    ensures next.Some? ==> Stage(next.value) == Stage(s) + 1
  {
    match s
    case Pending => Some(Approved)
    case Approved => Some(Paid)
    case Paid => None
  }

  /** No offered action leads back to pending, and no action skips approval. */
  lemma ActionsOnlyAdvance(s: CommissionStatus)
    ensures NextStatus(s) != Some(CommissionStatus.Pending)
    ensures NextStatus(s) == Some(Paid) ==> s == Approved
  {
  }

  /** Whether a paid entry converts its lead: the deal lookup succeeded, a deal
      with the entry's id exists, and it is won. */
  predicate ConvertsLead(deals: map<Id, Deal>, dealId: Id, dealLookupOk: bool)
    ensures ConvertsLead(deals, dealId, dealLookupOk) ==> dealLookupOk && dealId in deals
    ensures dealId in deals && deals[dealId].status != Won ==> !ConvertsLead(deals, dealId, dealLookupOk)
  {
    dealLookupOk && dealId in deals && deals[dealId].status == Won
  }

  class CommissionsPage {
    const db: Db
    const canManage: bool
    /** The ledger entries as last loaded. */
    const commissions: seq<CommissionEntry>
    var selected: CommissionFilter

    constructor(db: Db, canManage: bool, commissions: seq<CommissionEntry>)
      ensures this.db == db && this.canManage == canManage && this.commissions == commissions
      ensures selected == AllStatuses
    {
      this.db := db;
      this.canManage := canManage;
      this.commissions := commissions;
      selected := AllStatuses;
    }

    /** The rows the table shows. */
    function Shown(): (r: seq<CommissionEntry>)
      reads this
      ensures selected.AllStatuses? ==> r == commissions
      ensures forall i :: 0 <= i < |r| ==> r[i] in commissions
      ensures selected.OnlyStatus? ==>
        (forall i :: 0 <= i < |r| ==> r[i].status == selected.status) &&
        (forall i :: 0 <= i < |commissions| && commissions[i].status == selected.status ==> commissions[i] in r) &&
        (forall i :: 0 <= i < |commissions| ==>
           multiset(r)[commissions[i]] == if commissions[i].status == selected.status then multiset(commissions)[commissions[i]] else 0)
    {
      FilterCommissions(commissions, selected)
    }

    method Select(f: CommissionFilter)
      modifies this
      ensures selected == f
      ensures Shown() == FilterCommissions(commissions, f)
    {
      selected := f;
    }

    /** `updateStatus`: write the entry's status first; only for `paid`, then
        look the entry's deal up and, when it is won, mark its lead converted.
        A failed call stops the handler there. */
    method UpdateStatus(commissionId: Id, newStatus: CommissionStatus, commissionFault: Option<Failure>,
                        dealFault: Option<Failure>, leadFault: Option<Failure>)
      requires db.Valid()
      modifies db
      ensures db.Valid()
      ensures db.deals == old(db.deals) && db.payouts == old(db.payouts)
      // no admin role, or an entry that is not among the loaded ones: nothing is written
      ensures !canManage || (forall i :: 0 <= i < |commissions| ==> commissions[i].id != commissionId) ==>
        unchanged(db)
      ensures canManage && (exists i :: 0 <= i < |commissions| && commissions[i].id == commissionId) ==>
        var c := FindFirst(commissions, (c: CommissionEntry) => c.id == commissionId).value;
        // the status write
        db.ledger == (if commissionFault.None? && commissionId in old(db.ledger)
                      then old(db.ledger)[commissionId := old(db.ledger)[commissionId].(status := newStatus)]
                      else old(db.ledger)) &&
        // the lead is converted exactly when the entry is paid and its deal is won
        var converts := commissionFault.None? && newStatus == Paid &&
                        ConvertsLead(old(db.deals), c.dealId, dealFault.None?) && leadFault.None?;
        (converts ==>
          var leadId := old(db.deals)[c.dealId].leadId;
          db.leads == (if leadId in old(db.leads)
                       then old(db.leads)[leadId := old(db.leads)[leadId].(status := Converted)]
                       else old(db.leads))) &&
        (!converts ==> db.leads == old(db.leads))
      // approving, or a failed status write, never touches a lead
      ensures newStatus != Paid || commissionFault.Some? ==> db.leads == old(db.leads)
    {
      if !canManage {
        return;
      }
      var commission := FindFirst(commissions, (c: CommissionEntry) => c.id == commissionId);
      if commission.None? {
        return;
      }
      var ok := db.UpdateEntryStatus(commissionId, newStatus, commissionFault);
      if !ok {
        return;
      }
      if newStatus == Paid {
        if dealFault.Some? {
          return;
        }
        var dealId := commission.value.dealId;
        if dealId in db.deals && db.deals[dealId].status == Won {
          ok := db.UpdateLeadStatus(db.deals[dealId].leadId, Converted, leadFault);
        }
      }
    }
  }
}
