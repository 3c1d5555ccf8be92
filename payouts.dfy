/** The admin payouts page: recording a payout to a referrer, advancing its
    status, the actions offered per status, and the page's totals. */
module Payouts {
  import opened Domain
  import opened Lists
  import opened Store

  /** The form's fields, as the inputs hold them. */
  datatype PayoutForm = PayoutForm(referrerId: Id, amount: string, paymentMethod: string, notes: string)

  const EmptyForm := PayoutForm("", "", "", "")

  /** The row a submit inserts: always pending, empty optional fields stored as
      null, and no transaction id or payment time yet. */
  function NewPayout(id: Id, companyId: Id, f: PayoutForm, amount: real): (p: Payout)
    ensures p.id == id && p.companyId == companyId && p.referrerId == f.referrerId && p.amount == amount
    ensures p.status == PayoutStatus.Pending
    ensures p.paymentMethod.None? <==> f.paymentMethod == ""
    ensures p.paymentMethod.Some? ==> p.paymentMethod.value == f.paymentMethod
    ensures p.notes.None? <==> f.notes == ""
    ensures p.notes.Some? ==> p.notes.value == f.notes
    ensures p.transactionId.None? && p.paidAt.None?
  {
    Payout(id, companyId, f.referrerId, amount, PayoutStatus.Pending,
           NullIfEmpty(f.paymentMethod), None, NullIfEmpty(f.notes), None)
  }

  /** The payment time a status update writes: the clock's time for
      `completed`, and nothing for any other status. */
  function PaidAtFor(status: PayoutStatus, now: Timestamp): (t: Option<Timestamp>)
    ensures t.Some? <==> status == Completed
    ensures t.Some? ==> t.value == now
  {
    if status == Completed then Some(now) else None
  }

  /** The status buttons the table shows for a payout: process or complete a
      pending one, complete a processing one, nothing otherwise. */
  function Actions(s: PayoutStatus): (next: set<PayoutStatus>)
    ensures s == PayoutStatus.Pending ==> next == {Processing, Completed}
    ensures s == Processing ==> next == {Completed}
    ensures s == Completed || s == Failed ==> next == {}
  {
    match s
    case Pending => {Processing, Completed}
    case Processing => {Completed}
    case Completed => {}
    case Failed => {}
  }

  /** The position of a status in a payout's life. */
  function Stage(s: PayoutStatus): nat
  {
    match s
    case Pending => 0
    case Processing => 1
    case Completed => 2
    case Failed => 2
  }

  /** No button marks a payout failed or returns it to pending, and every
      button moves the payout forward. */
  lemma ActionsOnlyAdvance(s: PayoutStatus, t: PayoutStatus)
    requires t in Actions(s)
    ensures t != Failed && t != PayoutStatus.Pending
    ensures Stage(t) > Stage(s)
  {
  }

  function Amount(p: Payout): real
  {
    p.amount
  }

  function IsPending(p: Payout): bool
  {
    p.status == PayoutStatus.Pending
  }

  function IsCompleted(p: Payout): bool
  {
    p.status == Completed
  }

  /** A payout that is neither pending nor completed. */
  function IsOpenOrFailed(p: Payout): bool
  {
    p.status == Processing || p.status == Failed
  }

  datatype PayoutStats = PayoutStats(total: real, pending: real, completed: real)

  /** `stats`: the sum of all amounts and the sums over the pending and the
      completed payouts. The total is those two plus what is processing or failed. */
  function Stats(ps: seq<Payout>): (s: PayoutStats)
    ensures s.total == s.pending + s.completed + Sum(Filter(ps, IsOpenOrFailed), Amount)
    ensures ps == [] ==> s == PayoutStats(0.0, 0.0, 0.0)
  {
    SumSplitsThreeWays(ps, Amount, IsPending, IsCompleted, IsOpenOrFailed);
    PayoutStats(Sum(ps, Amount), Sum(Filter(ps, IsPending), Amount), Sum(Filter(ps, IsCompleted), Amount))
  }

  /** With no negative amounts, the pending and completed sums never exceed the total. */
  lemma StatsBounded(ps: seq<Payout>)
    requires forall i :: 0 <= i < |ps| ==> ps[i].amount >= 0.0
    ensures 0.0 <= Stats(ps).pending && 0.0 <= Stats(ps).completed
    ensures Stats(ps).pending + Stats(ps).completed <= Stats(ps).total
  {
    var rest := Filter(ps, IsOpenOrFailed);
    SumNonNegative(rest, Amount);
    SumNonNegative(Filter(ps, IsPending), Amount);
    SumNonNegative(Filter(ps, IsCompleted), Amount);
  }

  /** The page's own state. */
  datatype PayoutsUi = PayoutsUi(showForm: bool, formData: PayoutForm)

  class PayoutsPage {
    const db: Db
    const companyId: Option<Id>
    const canManage: bool
    var showForm: bool
    var formData: PayoutForm

    ghost function Ui(): PayoutsUi
      reads this
    {
      PayoutsUi(showForm, formData)
    }

    constructor(db: Db, companyId: Option<Id>, canManage: bool)
      ensures this.db == db && this.companyId == companyId && this.canManage == canManage
      ensures Ui() == PayoutsUi(false, EmptyForm)
    {
      this.db := db;
      this.companyId := companyId;
      this.canManage := canManage;
      showForm, formData := false, EmptyForm;
    }

    method SetFormData(f: PayoutForm)
      modifies this
      ensures Ui() == old(Ui()).(formData := f)
    {
      formData := f;
    }

    /** `handleCancel`: close the form and reset it. */
    method HandleCancel()
      modifies this
      ensures Ui() == PayoutsUi(false, EmptyForm)
    {
      showForm := false;
      formData := EmptyForm;
    }

    /** `handleSubmit`: insert the new payout; `amount` is `parseFloat` of the
        form's amount and `newId` the id the backend assigns. The form closes
        and resets only after a successful insert. */
    method HandleSubmit(amount: real, newId: Id, fault: Option<Failure>)
      requires db.Valid() && newId !in db.payouts
      modifies this, db
      ensures db.Valid()
      ensures db.leads == old(db.leads) && db.deals == old(db.deals) && db.ledger == old(db.ledger)
      ensures companyId.None? || !canManage ==> unchanged(this) && unchanged(db)
      ensures companyId.Some? && canManage ==>
        (fault.None? ==>
          db.payouts == old(db.payouts)[newId := NewPayout(newId, companyId.value, old(formData), amount)] &&
          Ui() == PayoutsUi(false, EmptyForm)) &&
        (fault.Some? ==> db.payouts == old(db.payouts) && Ui() == old(Ui()))
    {
      if companyId.None? || !canManage {
        return;
      }
      var ok := db.InsertPayout(NewPayout(newId, companyId.value, formData, amount), fault);
      if ok {
        showForm := false;
        formData := EmptyForm;
      }
    }

    /** `updatePayoutStatus`: write the status, and the payment time `now`
        only when the status is `completed`. */
    method UpdatePayoutStatus(payoutId: Id, status: PayoutStatus, now: Timestamp, fault: Option<Failure>)
      requires db.Valid()
      modifies db
      ensures db.Valid()
      ensures db.leads == old(db.leads) && db.deals == old(db.deals) && db.ledger == old(db.ledger)
      ensures !canManage || fault.Some? || payoutId !in old(db.payouts) ==> db.payouts == old(db.payouts)
      ensures canManage && fault.None? && payoutId in old(db.payouts) ==>
        db.payouts == old(db.payouts)[payoutId := old(db.payouts)[payoutId].(status := status,
                                        paidAt := if status == Completed then Some(now)
                                                  else old(db.payouts)[payoutId].paidAt)]
    {
      if !canManage {
        return;
      }
      var _ := db.UpdatePayout(payoutId, status, PaidAtFor(status, now), fault);
    }
  }
}
