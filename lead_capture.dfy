/** The public lead-capture page a referral link opens. The link's `ref` code
    is resolved to a referrer and company; a submit then checks for a lead
    with the same e-mail in that company and otherwise inserts the new lead,
    normalised. */
module LeadCapture {
  import opened Domain
  import opened Text
  import opened Store

  const MissingCodeError := "Invalid or missing referral code"
  const InvalidCodeError := "Invalid referral code. Please contact your referrer for a valid link."
  const LookupThrewError := "Unable to validate referral code. Please try again later."
  const DefaultCompanyName := "AI Automation Group"
  const NoReferrerError := "Invalid referral information. Please try again."
  const DuplicateEmailError := "This email has already been submitted. We will contact you soon!"
  const InsertFailedError := "Unable to submit your information. Please try again."

  /** The resolved referral: whom the lead is credited to, and in which company. */
  datatype ReferrerInfo = ReferrerInfo(name: string, companyName: string, referrerId: Id, companyId: Id)

  /** The outcome of looking the code up: the query reported an error (or
      several referrers share the code), no referrer has it, one does (with
      its company's name, if the join found one), or the call itself threw. */
  datatype ReferrerLookup =
    | QueryFailed
    | NoMatch
    | Match(id: Id, name: string, companyId: Id, companyName: Option<string>)
    | Threw

  /** `companies?.name || 'AI Automation Group'`. */
  function CompanyNameOrDefault(n: Option<string>): (r: string)
    ensures n.Some? && n.value != "" ==> r == n.value
    ensures n.None? || n.value == "" ==> r == DefaultCompanyName
  {
    if n.Some? && n.value != "" then n.value else DefaultCompanyName
  }

  /** `email.toLowerCase().trim()`: how the page stores an e-mail. The result
      has no upper-case letter and no surrounding whitespace. */
  function Normalize(email: string): (r: string)
    ensures |r| <= |email|
    ensures forall i :: 0 <= i < |r| ==> !IsUpperAscii(r[i])
    ensures r == [] || (!IsJsWhitespace(r[0]) && !IsJsWhitespace(r[|r| - 1]))
  {
    TrimKeepsLowerCase(ToLower(email));
    Trim(ToLower(email))
  }

  /** The row a submit inserts: e-mail normalised, name and phone trimmed, the
      company name trimmed or null when that leaves nothing, status `new`,
      credited to the resolved referrer in its company. */
  function CapturedLead(id: Id, info: ReferrerInfo, name: string, email: string, phone: string,
                        companyName: string): (l: Lead)
    ensures l.id == id && l.referrerId == info.referrerId && l.companyId == info.companyId
    ensures l.email == Normalize(email) && l.name == Trim(name) && l.phone == Some(Trim(phone))
    ensures l.companyName.None? <==> Trim(companyName) == ""
    ensures l.companyName.Some? ==> l.companyName.value == Trim(companyName)
    ensures l.status == New && l.notes.None?
  {
    Lead(id, info.companyId, info.referrerId, Trim(name), Normalize(email), Some(Trim(phone)),
         NullIfEmpty(Trim(companyName)), New, None)
  }

  /** The duplicate check: `maybeSingle` over the company's leads whose stored
      e-mail equals the lower-cased (not trimmed) input. It finds a lead only
      when the query succeeds and exactly one lead matches. */
  predicate DuplicateFound(leads: map<Id, Lead>, email: string, companyId: Id, lookupOk: bool)
    ensures DuplicateFound(leads, email, companyId, lookupOk) ==>
      lookupOk && exists k :: k in leads && leads[k].email == ToLower(email) && leads[k].companyId == companyId
    ensures MatchingLeads(leads, ToLower(email), companyId) == {} ==> !DuplicateFound(leads, email, companyId, lookupOk)
  {
    lookupOk && |MatchingLeads(leads, ToLower(email), companyId)| == 1
  }

  /** Normalising twice is normalising once. */
  lemma NormalizeIsIdempotent(email: string)
    ensures Normalize(Normalize(email)) == Normalize(email)
  {
    var n := Normalize(email);
    ToLowerOfLower(n);
    assert ToLower(n) == n;
    TrimOfTrimmed(n);
    assert Trim(n) == n;
  }

  /** An e-mail in normal form is already lower-case. */
  lemma NormalFormIsLower(e: string)
    requires Normalize(e) == e
    ensures ToLower(e) == e
  {
    assert |Trim(ToLower(e))| == |ToLower(e)|;
  }

  /** White space before and after an e-mail in normal form survives
      lower-casing and disappears in normalisation. */
  lemma {:induction false} PaddedNormalizes(w: string, e: string, v: string)
    requires Normalize(e) == e
    requires forall i :: 0 <= i < |w| ==> IsJsWhitespace(w[i])
    requires forall i :: 0 <= i < |v| ==> IsJsWhitespace(v[i])
    ensures ToLower(w + e + v) == w + e + v
    ensures Normalize(w + e + v) == e
  {
    NormalFormIsLower(e);
    var x := w + e + v;
    forall i | 0 <= i < |x| ensures !IsUpperAscii(x[i]) {
      if i < |w| {
        assert x[i] == w[i];
      } else if i < |w| + |e| {
        assert x[i] == e[i - |w|] == ToLower(e)[i - |w|];
      } else {
        assert x[i] == v[i - |w| - |e|];
      }
    }
    ToLowerOfLower(x);
    assert x == w + (e + v);
    TrimStartSkipsWhitespace(w, e + v);
    if |e| > 0 {
      assert (e + v)[0] == e[0];
      assert TrimStart(e + v) == e + v;
      TrimEndSkipsWhitespace(e, v);
      assert TrimEnd(e) == e;
    } else {
      assert e + v == v;
      assert TrimStart(v) == [];
    }
  }

  /** A stored e-mail in normal form neither starts nor ends with white
      space, so no such e-mail equals a key that does. */
  lemma PaddedKeyMatchesNothing(leads: map<Id, Lead>, key: string, companyId: Id)
    requires |key| > 0 && (IsJsWhitespace(key[0]) || IsJsWhitespace(key[|key| - 1]))
    requires forall k :: k in leads ==> Normalize(leads[k].email) == leads[k].email
    ensures MatchingLeads(leads, key, companyId) == {}
  {
    forall k | k in leads ensures leads[k].email != key {
      assert Normalize(leads[k].email) == leads[k].email;
    }
  }

  /** Inserting a lead under a fresh id adds exactly that id to the leads with its e-mail. */
  lemma InsertAddsMatch(leads: map<Id, Lead>, l: Lead)
    requires l.id !in leads
    ensures MatchingLeads(leads[l.id := l], l.email, l.companyId) == MatchingLeads(leads, l.email, l.companyId) + {l.id}
  {
  }

  /** The duplicate key is lower-cased but not trimmed, while the stored e-mail
      is trimmed: when every stored e-mail is in normal form, the input `e`
      with any white space `w` before it and `v` after it (not both empty)
      matches no stored lead, yet the lead it inserts is stored with e-mail
      `e`, beside any lead that already has it. */
  lemma {:induction false} PaddedEmailBypassesDuplicateCheck(leads: map<Id, Lead>, w: string, e: string, v: string,
                                                             info: ReferrerInfo, newId: Id, name: string,
                                                             phone: string, companyName: string)
    requires Normalize(e) == e && newId !in leads && |w| + |v| > 0
    requires forall i :: 0 <= i < |w| ==> IsJsWhitespace(w[i])
    requires forall i :: 0 <= i < |v| ==> IsJsWhitespace(v[i])
    requires forall k :: k in leads ==> Normalize(leads[k].email) == leads[k].email
    ensures MatchingLeads(leads, ToLower(w + e + v), info.companyId) == {}
    ensures var l := CapturedLead(newId, info, name, w + e + v, phone, companyName);
      l.email == e &&
      MatchingLeads(leads[newId := l], e, info.companyId) == MatchingLeads(leads, e, info.companyId) + {newId}
  {
    PaddedNormalizes(w, e, v);
    var key := w + e + v;
    if |w| > 0 {
      assert key[0] == w[0];
    } else {
      assert key[|key| - 1] == v[|v| - 1];
    }
    PaddedKeyMatchesNothing(leads, key, info.companyId);
    InsertAddsMatch(leads, CapturedLead(newId, info, name, key, phone, companyName));
  }

  class LeadCapturePage {
    const db: Db
    var name: string
    var email: string
    var phone: string
    var companyName: string
    var error: string
    var success: bool
    var loading: bool
    var referralCode: Option<string>
    var referrerInfo: Option<ReferrerInfo>
    var loadingReferrer: bool

    constructor(db: Db)
      ensures this.db == db
      ensures name == "" && email == "" && phone == "" && companyName == "" && error == ""
      ensures !success && !loading && referralCode.None? && referrerInfo.None? && loadingReferrer
    {
      this.db := db;
      name, email, phone, companyName, error := "", "", "", "", "";
      success, loading := false, false;
      referralCode, referrerInfo := None, None;
      loadingReferrer := true;
    }

    /** The form's inputs. */
    method SetFields(name: string, email: string, phone: string, companyName: string)
      modifies this
      ensures this.name == name && this.email == email && this.phone == phone && this.companyName == companyName
      ensures error == old(error) && success == old(success) && loading == old(loading)
      ensures referralCode == old(referralCode) && referrerInfo == old(referrerInfo)
      ensures loadingReferrer == old(loadingReferrer)
    {
      this.name, this.email, this.phone, this.companyName := name, email, phone, companyName;
    }

    /** `loadReferrerInfo`: the lookup's outcome decides between the resolved
        referral and one of two error messages; the loading flag ends false. */
    method LoadReferrerInfo(lookup: ReferrerLookup)
      modifies this
      ensures !loadingReferrer
      ensures name == old(name) && email == old(email) && phone == old(phone) && companyName == old(companyName)
      ensures success == old(success) && loading == old(loading) && referralCode == old(referralCode)
      ensures lookup.Match? ==>
        referrerInfo == Some(ReferrerInfo(lookup.name, CompanyNameOrDefault(lookup.companyName),
                                          lookup.id, lookup.companyId)) &&
        error == old(error)
      ensures lookup.QueryFailed? || lookup.NoMatch? ==> referrerInfo == old(referrerInfo) && error == InvalidCodeError
      ensures lookup.Threw? ==> referrerInfo == old(referrerInfo) && error == LookupThrewError
    {
      loadingReferrer := false;
      match lookup
      case Match(id, n, companyId, cn) =>
        referrerInfo := Some(ReferrerInfo(n, CompanyNameOrDefault(cn), id, companyId));
      case QueryFailed =>
        error := InvalidCodeError;
      case NoMatch =>
        error := InvalidCodeError;
      case Threw =>
        error := LookupThrewError;
    }

    /** The mount effect: a missing or empty `ref` code is an error and no
        lookup happens; otherwise the code is kept and looked up. */
    method Mount(refCode: Option<string>, lookup: ReferrerLookup) returns (lookedUp: bool)
      modifies this
      ensures lookedUp <==> refCode.Some? && refCode.value != ""
      ensures !loadingReferrer
      ensures name == old(name) && email == old(email) && phone == old(phone) && companyName == old(companyName)
      ensures success == old(success) && loading == old(loading)
      ensures !lookedUp ==>
        error == MissingCodeError && referralCode == old(referralCode) && referrerInfo == old(referrerInfo)
      ensures lookedUp ==> referralCode == refCode
      ensures lookedUp && lookup.Match? ==>
        referrerInfo == Some(ReferrerInfo(lookup.name, CompanyNameOrDefault(lookup.companyName),
                                          lookup.id, lookup.companyId)) &&
        error == old(error)
      ensures lookedUp && (lookup.QueryFailed? || lookup.NoMatch?) ==>
        referrerInfo == old(referrerInfo) && error == InvalidCodeError
      ensures lookedUp && lookup.Threw? ==> referrerInfo == old(referrerInfo) && error == LookupThrewError
    {
      if refCode.Some? && refCode.value != "" {
        referralCode := refCode;
        LoadReferrerInfo(lookup);
        return true;
      }
      error := MissingCodeError;
      loadingReferrer := false;
      return false;
    }

    /** `handleSubmit`: `lookupFault` is the outcome of the duplicate query,
        `insertFault` that of the insert, and `newId` the id the backend
        assigns. The form's fields are never cleared. */
    method HandleSubmit(lookupFault: Option<Failure>, insertFault: Option<Failure>, newId: Id)
      requires db.Valid() && newId !in db.leads
      modifies this, db
      ensures db.Valid()
      ensures db.deals == old(db.deals) && db.ledger == old(db.ledger) && db.payouts == old(db.payouts)
      ensures name == old(name) && email == old(email) && phone == old(phone) && companyName == old(companyName)
      ensures referralCode == old(referralCode) && referrerInfo == old(referrerInfo)
      ensures loadingReferrer == old(loadingReferrer)
      // without a resolved referral nothing is read or written
      ensures old(referrerInfo).None? ==>
        unchanged(db) && error == NoReferrerError && loading == old(loading) && success == old(success)
      ensures old(referrerInfo).Some? ==> !loading
      // a lead with the same lower-cased e-mail: nothing is inserted
      ensures old(referrerInfo).Some? &&
              DuplicateFound(old(db.leads), old(email), old(referrerInfo).value.companyId, lookupFault.None?) ==>
        db.leads == old(db.leads) && error == DuplicateEmailError && success == old(success)
      ensures old(referrerInfo).Some? &&
              !DuplicateFound(old(db.leads), old(email), old(referrerInfo).value.companyId, lookupFault.None?) &&
              insertFault.Some? ==>
        db.leads == old(db.leads) && error == InsertFailedError && success == old(success)
      // success only after the insert
      ensures old(referrerInfo).Some? &&
              !DuplicateFound(old(db.leads), old(email), old(referrerInfo).value.companyId, lookupFault.None?) &&
              insertFault.None? ==>
        db.leads == old(db.leads)[newId := CapturedLead(newId, old(referrerInfo).value, old(name), old(email),
                                                        old(phone), old(companyName))] &&
        success && error == ""
    {
      error := "";
      if referrerInfo.None? {
        error := NoReferrerError;
        return;
      }
      loading := true;
      SubmitLead(referrerInfo.value, lookupFault, insertFault, newId);
    }

    /** The part of `handleSubmit` after the referral check: the duplicate
        query, then the insert; `loading` ends false on every path. */
    method SubmitLead(info: ReferrerInfo, lookupFault: Option<Failure>, insertFault: Option<Failure>, newId: Id)
      requires db.Valid() && newId !in db.leads
      modifies this`error, this`success, this`loading, db
      ensures db.Valid() && !loading
      ensures db.deals == old(db.deals) && db.ledger == old(db.ledger) && db.payouts == old(db.payouts)
      ensures DuplicateFound(old(db.leads), email, info.companyId, lookupFault.None?) ==>
        db.leads == old(db.leads) && error == DuplicateEmailError && success == old(success)
      ensures !DuplicateFound(old(db.leads), email, info.companyId, lookupFault.None?) && insertFault.Some? ==>
        db.leads == old(db.leads) && error == InsertFailedError && success == old(success)
      ensures !DuplicateFound(old(db.leads), email, info.companyId, lookupFault.None?) && insertFault.None? ==>
        db.leads == old(db.leads)[newId := CapturedLead(newId, info, name, email, phone, companyName)] &&
        success && error == old(error)
    {
      var existing := DuplicateFound(db.leads, email, info.companyId, lookupFault.None?);
      if existing {
        error := DuplicateEmailError;
        loading := false;
        return;
      }
      var row := CapturedLead(newId, info, name, email, phone, companyName);
      var ok := db.InsertLead(row, insertFault);
      if !ok {
        error := InsertFailedError;
        loading := false;
        return;
      }
      success := true;
      loading := false;
    }
  }
}
