/** The admin dashboard's figures: counts of the company's referrers, leads
    and deals, the revenue from won deals and the commission still pending.
    Each query's rows are used as returned, and missing rows count as none. */
module Dashboard {
  import opened Domain
  import opened Lists
  import Commissions

  datatype Stats = Stats(
    totalReferrers: nat,
    activeReferrers: nat,
    totalLeads: nat,
    newLeads: nat,
    totalDeals: nat,
    wonDeals: nat,
    totalRevenue: real,
    pendingCommissions: real)

  function IsWon(d: Deal): bool { d.status == Won }
  function DealAmount(d: Deal): real { d.amount }

  /** `loadStats`: every figure from the four queries' rows, with missing rows
      as an empty list. An active-referrer, new-lead or won-deal count never
      exceeds its total; without a won deal there is no revenue, and without
      any rows every figure is zero. */
  function LoadStats(referrers: Option<seq<ReferrerStatus>>, leads: Option<seq<LeadStatus>>,
                     deals: Option<seq<Deal>>, commissions: Option<seq<CommissionEntry>>): (s: Stats)
    ensures s.activeReferrers <= s.totalReferrers && s.newLeads <= s.totalLeads && s.wonDeals <= s.totalDeals
    ensures s.totalReferrers == |OrEmpty(referrers)| && s.totalLeads == |OrEmpty(leads)| &&
            s.totalDeals == |OrEmpty(deals)|
    ensures s.wonDeals == 0 ==> s.totalRevenue == 0.0
    ensures (forall i :: 0 <= i < |OrEmpty(commissions)| ==> OrEmpty(commissions)[i].status != CommissionStatus.Pending)
            ==> s.pendingCommissions == 0.0
    ensures referrers.None? && leads.None? && deals.None? && commissions.None? ==>
      s == Stats(0, 0, 0, 0, 0, 0, 0.0, 0.0)
  {
    var rs := OrEmpty(referrers);
    var ls := OrEmpty(leads);
    var ds := OrEmpty(deals);
    var cs := OrEmpty(commissions);
    var won := Filter(ds, IsWon);
    var pendingEntries := Filter(cs, Commissions.IsPending);
    SumOfEmptyFilter(cs, Commissions.IsPending, Commissions.Amount);
    Stats(|rs|, CountWhere(rs, (s: ReferrerStatus) => s == Active),
          |ls|, CountWhere(ls, (s: LeadStatus) => s == New),
          |ds|, |won|,
          Sum(won, DealAmount), Sum(pendingEntries, Commissions.Amount))
  }

  /** With no negative amounts the revenue and the pending commission are not negative. */
  lemma StatsNotNegative(referrers: Option<seq<ReferrerStatus>>, leads: Option<seq<LeadStatus>>,
                         deals: Option<seq<Deal>>, commissions: Option<seq<CommissionEntry>>)
    requires forall i :: 0 <= i < |OrEmpty(deals)| ==> OrEmpty(deals)[i].amount >= 0.0
    requires forall i :: 0 <= i < |OrEmpty(commissions)| ==> OrEmpty(commissions)[i].amount >= 0.0
    ensures LoadStats(referrers, leads, deals, commissions).totalRevenue >= 0.0
    ensures LoadStats(referrers, leads, deals, commissions).pendingCommissions >= 0.0
  {
    SumNonNegative(Filter(OrEmpty(deals), IsWon), DealAmount);
    SumNonNegative(Filter(OrEmpty(commissions), Commissions.IsPending), Commissions.Amount);
  }
}
