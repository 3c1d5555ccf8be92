/** The hosted backend as an in-memory store: one map from id to row per
    table. Each write is one backend call that may fail (`fault`); a failed
    call changes nothing, and an update whose id matches no row succeeds and
    changes nothing. Every write changes one table and leaves the others alone. */
module Store {
  import opened Domain

  class Db {
    var leads: map<Id, Lead>
    var deals: map<Id, Deal>
    var ledger: map<Id, CommissionEntry>
    var payouts: map<Id, Payout>

    /** Every row is stored under its own id. */
    ghost predicate Valid()
      reads this
    {
      && (forall k :: k in leads ==> leads[k].id == k)
      && (forall k :: k in deals ==> deals[k].id == k)
      && (forall k :: k in ledger ==> ledger[k].id == k)
      && (forall k :: k in payouts ==> payouts[k].id == k)
    }

    constructor()
      ensures Valid()
      ensures leads == map[] && deals == map[] && ledger == map[] && payouts == map[]
    {
      leads, deals, ledger, payouts := map[], map[], map[], map[];
    }

    /** `from('deals').select('id').eq('lead_id', leadId)`. */
    function DealsForLead(leadId: Id): set<Id>
      reads this
    {
      DealsFor(deals, leadId)
    }

    /** `from('commission_ledger').select('id').eq('deal_id', dealId)`. */
    function EntriesForDeal(dealId: Id): set<Id>
      reads this
    {
      EntriesFor(ledger, dealId)
    }

    /** `from('leads').select('id').eq('email', email).eq('company_id', companyId)`. */
    function LeadsWithEmail(email: string, companyId: Id): set<Id>
      reads this
    {
      MatchingLeads(leads, email, companyId)
    }

    method InsertLead(row: Lead, fault: Option<Failure>) returns (ok: bool)
      requires Valid() && row.id !in leads
      modifies this
      ensures Valid() && ok == fault.None?
      ensures leads == if ok then old(leads)[row.id := row] else old(leads)
      ensures deals == old(deals) && ledger == old(ledger) && payouts == old(payouts)
    {
      ok := fault.None?;
      if ok { leads := leads[row.id := row]; }
    }

    /** An update that writes every column of a lead. */
    method UpdateLead(row: Lead, fault: Option<Failure>) returns (ok: bool)
      requires Valid()
      modifies this
      ensures Valid() && ok == fault.None?
      ensures leads == if ok && row.id in old(leads) then old(leads)[row.id := row] else old(leads)
      ensures deals == old(deals) && ledger == old(ledger) && payouts == old(payouts)
    {
      ok := fault.None?;
      if ok && row.id in leads { leads := leads[row.id := row]; }
    }

    /** `update({ status })` on one lead. */
    method UpdateLeadStatus(id: Id, status: LeadStatus, fault: Option<Failure>) returns (ok: bool)
      requires Valid()
      modifies this
      ensures Valid() && ok == fault.None?
      ensures leads == if ok && id in old(leads) then old(leads)[id := old(leads)[id].(status := status)] else old(leads)
      ensures deals == old(deals) && ledger == old(ledger) && payouts == old(payouts)
    {
      ok := fault.None?;
      if ok && id in leads { leads := leads[id := leads[id].(status := status)]; }
    }

    method InsertDeal(row: Deal, fault: Option<Failure>) returns (ok: bool)
      requires Valid() && row.id !in deals
      modifies this
      ensures Valid() && ok == fault.None?
      ensures deals == if ok then old(deals)[row.id := row] else old(deals)
      ensures leads == old(leads) && ledger == old(ledger) && payouts == old(payouts)
    {
      ok := fault.None?;
      if ok { deals := deals[row.id := row]; }
    }

    /** An update that writes every column of a deal. */
    method UpdateDeal(row: Deal, fault: Option<Failure>) returns (ok: bool)
      requires Valid()
      modifies this
      ensures Valid() && ok == fault.None?
      ensures deals == if ok && row.id in old(deals) then old(deals)[row.id := row] else old(deals)
      ensures leads == old(leads) && ledger == old(ledger) && payouts == old(payouts)
    {
      ok := fault.None?;
      if ok && row.id in deals { deals := deals[row.id := row]; }
    }

    method InsertEntry(row: CommissionEntry, fault: Option<Failure>) returns (ok: bool)
      requires Valid() && row.id !in ledger
      modifies this
      ensures Valid() && ok == fault.None?
      ensures ledger == if ok then old(ledger)[row.id := row] else old(ledger)
      ensures leads == old(leads) && deals == old(deals) && payouts == old(payouts)
    {
      ok := fault.None?;
      if ok { ledger := ledger[row.id := row]; }
    }

    /** `update({ status })` on one ledger entry. */
    method UpdateEntryStatus(id: Id, status: CommissionStatus, fault: Option<Failure>) returns (ok: bool)
      requires Valid()
      modifies this
      ensures Valid() && ok == fault.None?
      ensures ledger == if ok && id in old(ledger) then old(ledger)[id := old(ledger)[id].(status := status)] else old(ledger)
      ensures leads == old(leads) && deals == old(deals) && payouts == old(payouts)
    {
      ok := fault.None?;
      if ok && id in ledger { ledger := ledger[id := ledger[id].(status := status)]; }
    }

    method InsertPayout(row: Payout, fault: Option<Failure>) returns (ok: bool)
      requires Valid() && row.id !in payouts
      modifies this
      ensures Valid() && ok == fault.None?
      ensures payouts == if ok then old(payouts)[row.id := row] else old(payouts)
      ensures leads == old(leads) && deals == old(deals) && ledger == old(ledger)
    {
      ok := fault.None?;
      if ok { payouts := payouts[row.id := row]; }
    }

    /** `update({ status })`, or `update({ status, paid_at })` when a payment
        time is given, on one payout. */
    method UpdatePayout(id: Id, status: PayoutStatus, paidAt: Option<Timestamp>, fault: Option<Failure>) returns (ok: bool)
      requires Valid()
      modifies this
      ensures Valid() && ok == fault.None?
      ensures payouts ==
        if ok && id in old(payouts) then
          old(payouts)[id := if paidAt.Some? then old(payouts)[id].(status := status, paidAt := paidAt)
                             else old(payouts)[id].(status := status)]
        else old(payouts)
      ensures leads == old(leads) && deals == old(deals) && ledger == old(ledger)
    {
      ok := fault.None?;
      if ok && id in payouts {
        var p := payouts[id];
        payouts := payouts[id := if paidAt.Some? then p.(status := status, paidAt := paidAt) else p.(status := status)];
      }
    }
  }

  /** The ids of a table's rows that pass a filter: what a `select('id')`
      with an `eq` filter returns (ignoring row order). */
  function KeysWhere<T>(table: map<Id, T>, p: T -> bool): (ids: set<Id>)
    ensures forall k :: k in ids <==> k in table && p(table[k])
  {
    set k | k in table && p(table[k])
  }

  function DealsFor(deals: map<Id, Deal>, leadId: Id): (ids: set<Id>)
    ensures forall k :: k in ids <==> k in deals && deals[k].leadId == leadId
  {
    KeysWhere(deals, (d: Deal) => d.leadId == leadId)
  }

  function EntriesFor(ledger: map<Id, CommissionEntry>, dealId: Id): (ids: set<Id>)
    ensures forall k :: k in ids <==> k in ledger && ledger[k].dealId == dealId
  {
    KeysWhere(ledger, (e: CommissionEntry) => e.dealId == dealId)
  }

  function MatchingLeads(leads: map<Id, Lead>, email: string, companyId: Id): (ids: set<Id>)
    ensures forall k :: k in ids <==> k in leads && leads[k].email == email && leads[k].companyId == companyId
  {
    set k | k in leads && leads[k].email == email && leads[k].companyId == companyId
  }

  /** At most one deal references any lead. */
  ghost predicate OneDealPerLead(deals: map<Id, Deal>)
  {
    forall a, b :: a in deals && b in deals && deals[a].leadId == deals[b].leadId ==> a == b
  }

  /** At most one ledger entry references any deal. */
  ghost predicate OneEntryPerDeal(ledger: map<Id, CommissionEntry>)
  {
    forall a, b :: a in ledger && b in ledger && ledger[a].dealId == ledger[b].dealId ==> a == b
  }

  /** Inserting a deal for a lead no deal references keeps at most one deal per lead. */
  lemma InsertKeepsOneDealPerLead(deals: map<Id, Deal>, d: Deal)
    requires OneDealPerLead(deals) && DealsFor(deals, d.leadId) == {} && d.id !in deals
    ensures OneDealPerLead(deals[d.id := d])
  {
  }

  /** Inserting a deal for a lead that a deal already references breaks the
      one-deal-per-lead invariant: the lead then has one more deal. */
  lemma InsertForDealtLeadBreaksOneDealPerLead(deals: map<Id, Deal>, d: Deal)
    requires DealsFor(deals, d.leadId) != {} && d.id !in deals
    ensures DealsFor(deals[d.id := d], d.leadId) == DealsFor(deals, d.leadId) + {d.id}
    ensures !OneDealPerLead(deals[d.id := d])
  {
    var k :| k in DealsFor(deals, d.leadId);
    assert k != d.id && deals[d.id := d][k].leadId == deals[d.id := d][d.id].leadId;
  }
}
