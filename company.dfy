/** The company context every admin page consults: the user's memberships and
    companies, the selected company, the user's role in it, and the role-rank
    permission check. The persisted choice of company (browser local storage
    under `currentCompanyId`) is a field of the context. */
module Company {
  import opened Domain
  import opened Lists

  datatype CompanyRow = CompanyRow(id: Id, name: string, ownerId: Id)
  datatype Membership = Membership(id: Id, userId: Id, companyId: Id, role: Role)

  /** The role hierarchy: owner 3, admin 2, member 1. */
  function Rank(r: Role): nat
  {
    match r
    case Owner => 3
    case Admin => 2
    case Member => 1
  }

  /** `hasPermission`: no role grants nothing; otherwise the current role must
      rank at least as high as the required one. */
  function HasPermission(current: Option<Role>, required: Role): (ok: bool)
    ensures current.None? ==> !ok
    ensures current == Some(Owner) ==> ok
    ensures current == Some(Admin) ==> (ok <==> required != Owner)
    ensures current == Some(Member) ==> (ok <==> required == Member)
  {
    current.Some? && Rank(current.value) >= Rank(required)
  }

  /** Permission is monotone in the role: a role that ranks higher passes
      every check a lower one passes. */
  lemma PermissionIsMonotone(higher: Role, lower: Role, required: Role)
    requires Rank(higher) >= Rank(lower)
    ensures HasPermission(Some(lower), required) ==> HasPermission(Some(higher), required)
  {
  }

  /** `memberships.find(m => m.company_id === companyId)?.role || null`. */
  function RoleFor(ms: seq<Membership>, companyId: Id): (r: Option<Role>)
    ensures r.None? <==> forall i :: 0 <= i < |ms| ==> ms[i].companyId != companyId
    ensures r.Some? ==> exists i :: 0 <= i < |ms| && ms[i].companyId == companyId && ms[i].role == r.value &&
                                    forall j :: 0 <= j < i ==> ms[j].companyId != companyId
  {
    var m := FindFirst(ms, (m: Membership) => m.companyId == companyId);
    if m.Some? then Some(m.value.role) else None
  }

  /** `companies.find(c => c.id === id)`. */
  function FindCompany(cs: seq<CompanyRow>, id: Id): (r: Option<CompanyRow>)
    ensures r.None? <==> forall i :: 0 <= i < |cs| ==> cs[i].id != id
    ensures r.Some? ==> r.value in cs && r.value.id == id
  {
    FindFirst(cs, (c: CompanyRow) => c.id == id)
  }

  /** The company `loadCompanies` selects: the stored one when it is among the
      loaded companies, otherwise the first company, and none when there are none. */
  function SelectCompany(cs: seq<CompanyRow>, stored: Option<Id>): (r: Option<CompanyRow>)
    ensures r.None? <==> |cs| == 0
    ensures r.Some? ==> r.value in cs
    ensures stored.Some? && stored.value != "" && (exists i :: 0 <= i < |cs| && cs[i].id == stored.value)
      ==> r.Some? && r.value.id == stored.value
    ensures |cs| > 0 && (stored.None? || forall i :: 0 <= i < |cs| ==> cs[i].id != stored.value)
      ==> r == Some(cs[0])
  {
    var first := if |cs| > 0 then Some(cs[0]) else None;
    if stored.Some? && stored.value != "" then
      var found := FindCompany(cs, stored.value);
      if found.Some? then found else first
    else first
  }

  class CompanyContext {
    var companies: seq<CompanyRow>
    var memberships: seq<Membership>
    var currentCompany: Option<CompanyRow>
    var currentRole: Option<Role>
    var loading: bool
    /** The browser's persisted `currentCompanyId`. */
    var storedCompanyId: Option<Id>

    constructor(stored: Option<Id>)
      ensures companies == [] && memberships == [] && currentCompany.None? && currentRole.None?
      ensures loading && storedCompanyId == stored
    {
      companies, memberships := [], [];
      currentCompany, currentRole := None, None;
      loading := true;
      storedCompanyId := stored;
    }

    /** The effect that runs when the signed-in user changes: with no user the
        context is cleared, otherwise the companies are loaded. */
    method OnUserChanged(user: Option<Id>, membershipFetch: Fetched<Membership>, companyFetch: Fetched<CompanyRow>)
      modifies this
      ensures user.None? ==>
        companies == [] && memberships == [] && currentCompany.None? && currentRole.None? &&
        !loading && storedCompanyId == old(storedCompanyId)
      ensures !loading
      // with a user, the user's companies are loaded as `loadCompanies` does
      ensures user.Some? && membershipFetch.FetchFailed? ==>
        companies == old(companies) && memberships == old(memberships) &&
        currentCompany == old(currentCompany) && currentRole == old(currentRole) &&
        storedCompanyId == old(storedCompanyId)
      ensures user.Some? && membershipFetch.Rows? ==> memberships == OrEmpty(membershipFetch.data)
      ensures user.Some? && membershipFetch.Rows? && (|memberships| == 0 || companyFetch.FetchFailed?) ==>
        companies == old(companies) && currentCompany == old(currentCompany) &&
        currentRole == old(currentRole) && storedCompanyId == old(storedCompanyId)
      ensures user.Some? && membershipFetch.Rows? && |memberships| > 0 && companyFetch.Rows? ==>
        var selected := SelectCompany(OrEmpty(companyFetch.data), old(storedCompanyId));
        companies == OrEmpty(companyFetch.data) &&
        (selected.Some? ==>
          currentCompany == selected && currentRole == RoleFor(memberships, selected.value.id) &&
          storedCompanyId == Some(selected.value.id)) &&
        (selected.None? ==>
          currentCompany == old(currentCompany) && currentRole == old(currentRole) &&
          storedCompanyId == old(storedCompanyId))
    {
      if user.None? {
        companies, memberships := [], [];
        currentCompany, currentRole := None, None;
        loading := false;
        return;
      }
      LoadCompanies(membershipFetch, companyFetch);
    }

    /** `loadCompanies`: memberships first, then the companies they name; the
        selected company and the role held in it are set together, and the
        choice is persisted. A failed query stops the load; `loading` ends false. */
    method LoadCompanies(membershipFetch: Fetched<Membership>, companyFetch: Fetched<CompanyRow>)
      modifies this
      ensures !loading
      ensures membershipFetch.FetchFailed? ==>
        companies == old(companies) && memberships == old(memberships) &&
        currentCompany == old(currentCompany) && currentRole == old(currentRole) &&
        storedCompanyId == old(storedCompanyId)
      ensures membershipFetch.Rows? ==> memberships == OrEmpty(membershipFetch.data)
      ensures membershipFetch.Rows? && (|memberships| == 0 || companyFetch.FetchFailed?) ==>
        companies == old(companies) && currentCompany == old(currentCompany) &&
        currentRole == old(currentRole) && storedCompanyId == old(storedCompanyId)
      ensures membershipFetch.Rows? && |memberships| > 0 && companyFetch.Rows? ==>
        var selected := SelectCompany(OrEmpty(companyFetch.data), old(storedCompanyId));
        companies == OrEmpty(companyFetch.data) &&
        (selected.Some? ==>
          currentCompany == selected && currentRole == RoleFor(memberships, selected.value.id) &&
          storedCompanyId == Some(selected.value.id)) &&
        (selected.None? ==>
          currentCompany == old(currentCompany) && currentRole == old(currentRole) &&
          storedCompanyId == old(storedCompanyId))
    {
      if membershipFetch.FetchFailed? {
        loading := false;
        return;
      }
      var membershipData := OrEmpty(membershipFetch.data);
      memberships := membershipData;
      if |membershipData| > 0 {
        if companyFetch.FetchFailed? {
          loading := false;
          return;
        }
        var companyData := OrEmpty(companyFetch.data);
        companies := companyData;
        var selected := SelectCompany(companyData, storedCompanyId);
        if selected.Some? {
          currentCompany := selected;
          currentRole := RoleFor(membershipData, selected.value.id);
          storedCompanyId := Some(selected.value.id);
        }
      }
      loading := false;
    }

    /** `switchCompany`: an id that is not among the loaded companies changes
        nothing; otherwise that company becomes current, with the role of its
        membership (none if there is none), and the choice is persisted. */
    method SwitchCompany(companyId: Id)
      modifies this
      ensures companies == old(companies) && memberships == old(memberships) && loading == old(loading)
      ensures FindCompany(companies, companyId).None? ==>
        currentCompany == old(currentCompany) && currentRole == old(currentRole) &&
        storedCompanyId == old(storedCompanyId)
      ensures FindCompany(companies, companyId).Some? ==>
        currentCompany == FindCompany(companies, companyId) && currentCompany.value.id == companyId &&
        currentRole == RoleFor(memberships, companyId) && storedCompanyId == Some(companyId)
    {
      var company := FindCompany(companies, companyId);
      if company.Some? {
        currentCompany := company;
        currentRole := RoleFor(memberships, companyId);
        storedCompanyId := Some(companyId);
      }
    }

    /** `hasPermission` against the current role. */
    function Can(required: Role): (ok: bool)
      reads this
      ensures ok ==> currentRole.Some?
    {
      HasPermission(currentRole, required)
    }
  }
}
