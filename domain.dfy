/** The records of the referral-management backend: leads, deals, commission
    ledger entries and payouts, with their status enumerations, and the small
    value types the pages share. Every record belongs to a company; ids and
    timestamps are opaque strings assigned by the backend or the clock. */
module Domain {

  datatype Option<+T> = None | Some(value: T)

  type Id = string
  type Timestamp = string

  /** What a failed backend call reports. `ErrorObject` is a thrown value that
      is an `Error` instance (it has a message); `NonError` is anything else. */
  datatype Failure = ErrorObject(message: string) | NonError

  datatype LeadStatus = New | Contacted | Qualified | Converted | Lost
  datatype DealStatus = Pending | Won | Lost
  datatype CommissionStatus = Pending | Approved | Paid
  datatype PayoutStatus = Pending | Processing | Completed | Failed
  datatype ReferrerStatus = Active | Inactive | Pending
  datatype Role = Owner | Admin | Member

  datatype Lead = Lead(
    id: Id,
    companyId: Id,
    referrerId: Id,
    name: string,
    email: string,
    phone: Option<string>,
    companyName: Option<string>,
    status: LeadStatus,
    notes: Option<string>)

  datatype Deal = Deal(
    id: Id,
    companyId: Id,
    leadId: Id,
    referrerId: Id,
    amount: real,
    status: DealStatus,
    closedAt: Option<Timestamp>)

  datatype CommissionEntry = CommissionEntry(
    id: Id,
    companyId: Id,
    referrerId: Id,
    dealId: Id,
    amount: real,
    status: CommissionStatus)

  datatype Payout = Payout(
    id: Id,
    companyId: Id,
    referrerId: Id,
    amount: real,
    status: PayoutStatus,
    paymentMethod: Option<string>,
    transactionId: Option<string>,
    notes: Option<string>,
    paidAt: Option<Timestamp>)

  /** A referrer as the deal page loads it: id, name and commission rate. */
  datatype ReferrerRate = ReferrerRate(id: Id, name: string, commissionRate: real)

  /** The result of a backend query: an error, or rows that may be missing. */
  datatype Fetched<T> = FetchFailed | Rows(data: Option<seq<T>>)

  /** `data || []`: missing rows read as none. */
  function OrEmpty<T>(data: Option<seq<T>>): (xs: seq<T>)
    ensures data.None? ==> xs == []
    ensures data.Some? ==> xs == data.value
  {
    if data.Some? then data.value else []
  }

  /** JavaScript's `s || null` on a form string: the empty string becomes null. */
  function NullIfEmpty(s: string): (r: Option<string>)
    ensures r.None? <==> s == ""
    ensures r.Some? ==> r.value == s
  {
    if s == "" then None else Some(s)
  }
}
