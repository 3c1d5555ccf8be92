/** How a lead's status is shown to the referrer who brought it in: the five
    admin statuses collapse onto four referrer-facing ones. */
module StatusMapping {
  import opened Domain
  import Text

  datatype ReferrerLeadStatus = New | Pending | Closed | Lost

  /** The lower-case name the referrer-facing status has in the data. */
  function Name(s: ReferrerLeadStatus): (r: string)
    ensures |r| > 0 && Text.IsLowerAscii(r[0])
  {
    match s
    case New => "new"
    case Pending => "pending"
    case Closed => "closed"
    case Lost => "lost"
  }

  /** `mapStatusForReferrer`. */
  function MapStatusForReferrer(admin: LeadStatus): (r: ReferrerLeadStatus)
    ensures r == ReferrerLeadStatus.New <==> admin == LeadStatus.New
    ensures r == ReferrerLeadStatus.Lost <==> admin == LeadStatus.Lost
    ensures r == ReferrerLeadStatus.Pending <==> admin == Contacted || admin == Qualified
    ensures r == ReferrerLeadStatus.Closed <==> admin == Converted
  {
    match admin
    case New => ReferrerLeadStatus.New
    case Contacted => ReferrerLeadStatus.Pending
    case Qualified => ReferrerLeadStatus.Pending
    case Converted => Closed
    case Lost => ReferrerLeadStatus.Lost
  }

  /** `getReferrerStatusLabel`: the mapped status's name with its first letter
      upper-cased and the rest unchanged. */
  function ReferrerStatusLabel(admin: LeadStatus): (shown: string)
    ensures var name := Name(MapStatusForReferrer(admin));
      |shown| == |name| && shown[0] == Text.UpperChar(name[0]) && shown[1..] == name[1..]
    ensures admin == LeadStatus.New ==> shown == "New"
    ensures admin == Contacted || admin == Qualified ==> shown == "Pending"
    ensures admin == Converted ==> shown == "Closed"
    ensures admin == LeadStatus.Lost ==> shown == "Lost"
  {
    Text.Capitalize(Name(MapStatusForReferrer(admin)))
  }

  /** Every referrer-facing status is the image of some admin status, so the
      mapping is onto; its image is exactly the four referrer statuses. */
  lemma MappingIsOnto(r: ReferrerLeadStatus)
    ensures exists admin :: MapStatusForReferrer(admin) == r
  {
    match r
    case New => assert MapStatusForReferrer(LeadStatus.New) == r;
    case Pending => assert MapStatusForReferrer(Contacted) == r;
    case Closed => assert MapStatusForReferrer(Converted) == r;
    case Lost => assert MapStatusForReferrer(LeadStatus.Lost) == r;
  }

  /** The mapping forgets exactly one distinction: contacted versus qualified. */
  lemma MappingMergesOnlyContactedAndQualified(a: LeadStatus, b: LeadStatus)
    requires a != b && MapStatusForReferrer(a) == MapStatusForReferrer(b)
    ensures {a, b} == {Contacted, Qualified}
  {
  }
}
