/** The referrer's own commissions page: the referrer's ledger entries and
    their summary. */
module ReferrerCommissions {
  import opened Domain
  import opened Lists
  import Commissions

  datatype Summary = Summary(totalEarned: real, pendingAmount: real, paidAmount: real, approvedAmount: real)

  /** The summary `loadCommissions` computes: everything earned, and the sums
      per status. As every entry is pending, approved or paid, what was earned
      is exactly the three sums together; with no negative amount none of them
      exceeds it. */
  function SummaryOf(cs: seq<CommissionEntry>): (s: Summary)
    ensures s.totalEarned == s.pendingAmount + s.approvedAmount + s.paidAmount
    ensures cs == [] ==> s == Summary(0.0, 0.0, 0.0, 0.0)
    ensures (forall i :: 0 <= i < |cs| ==> cs[i].amount >= 0.0) ==>
      0.0 <= s.pendingAmount <= s.totalEarned && 0.0 <= s.approvedAmount <= s.totalEarned &&
      0.0 <= s.paidAmount <= s.totalEarned
  {
    var stats := Commissions.Stats(cs);
    NonNegativeSums(cs);
    Summary(stats.total, stats.pending, stats.paid, stats.approved)
  }

  /** Every per-status sum is a sum of non-negative amounts when they all are. */
  lemma NonNegativeSums(cs: seq<CommissionEntry>)
    ensures (forall i :: 0 <= i < |cs| ==> cs[i].amount >= 0.0) ==>
      var stats := Commissions.Stats(cs);
      stats.pending >= 0.0 && stats.approved >= 0.0 && stats.paid >= 0.0
  {
    if forall i :: 0 <= i < |cs| ==> cs[i].amount >= 0.0 {
      SumNonNegative(Filter(cs, Commissions.IsPending), Commissions.Amount);
      SumNonNegative(Filter(cs, Commissions.IsApproved), Commissions.Amount);
      SumNonNegative(Filter(cs, Commissions.IsPaid), Commissions.Amount);
    }
  }

  class ReferrerCommissionsPage {
    /** The signed-in referrer, once resolved. */
    const referrerId: Option<Id>
    var commissions: seq<CommissionEntry>
    var summary: Summary
    var loading: bool

    constructor(referrerId: Option<Id>)
      ensures this.referrerId == referrerId
      ensures commissions == [] && summary == Summary(0.0, 0.0, 0.0, 0.0) && loading
    {
      this.referrerId := referrerId;
      commissions := [];
      summary := Summary(0.0, 0.0, 0.0, 0.0);
      loading := true;
    }

    /** `loadCommissions`: without a referrer it does nothing; otherwise a
        failed query keeps the list and summary, rows (missing rows as none)
        replace both, and `loading` ends false either way. */
    method LoadCommissions(fetch: Fetched<CommissionEntry>)
      modifies this
      ensures referrerId.None? ==> unchanged(this)
      ensures referrerId.Some? ==> !loading
      ensures referrerId.Some? && fetch.FetchFailed? ==>
        commissions == old(commissions) && summary == old(summary)
      ensures referrerId.Some? && fetch.Rows? ==>
        commissions == OrEmpty(fetch.data) && summary == SummaryOf(commissions)
    {
      if referrerId.None? {
        return;
      }
      if fetch.Rows? {
        var commissionData := OrEmpty(fetch.data);
        commissions := commissionData;
        summary := SummaryOf(commissionData);
      }
      loading := false;
    }
  }
}
