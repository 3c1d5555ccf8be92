/** The referrer's dashboard: counts of the referrer's leads and deals and the
    sums of the referrer's commissions. Missing rows count as none. */
module ReferrerDashboard {
  import opened Domain
  import opened Lists
  import Commissions

  datatype Stats = Stats(
    totalLeads: nat,
    newLeads: nat,
    totalDeals: nat,
    wonDeals: nat,
    totalCommissions: real,
    pendingCommissions: real,
    paidCommissions: real)

  /** `loadStats`: the new-lead and won-deal counts never exceed their totals;
      the commission total is the pending and paid sums plus what is
      approved; without any rows every figure is zero. */
  function LoadStats(leads: Option<seq<LeadStatus>>, deals: Option<seq<DealStatus>>,
                     commissions: Option<seq<CommissionEntry>>): (s: Stats)
    ensures s.newLeads <= s.totalLeads && s.wonDeals <= s.totalDeals
    ensures s.totalLeads == |OrEmpty(leads)| && s.totalDeals == |OrEmpty(deals)|
    ensures s.totalCommissions == s.pendingCommissions + s.paidCommissions +
                                  Commissions.Stats(OrEmpty(commissions)).approved
    ensures leads.None? && deals.None? && commissions.None? ==> s == Stats(0, 0, 0, 0, 0.0, 0.0, 0.0)
  {
    var ls := OrEmpty(leads);
    var ds := OrEmpty(deals);
    var stats := Commissions.Stats(OrEmpty(commissions));
    Stats(|ls|, CountWhere(ls, (s: LeadStatus) => s == New),
          |ds|, CountWhere(ds, (s: DealStatus) => s == Won),
          stats.total, stats.pending, stats.paid)
  }
}
