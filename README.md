# RevShare referral workflow, modelled in Dafny

RevShare is a referral-revenue web application. A company's admins manage
referrers, the leads those referrers bring in, the deals those leads turn
into, the commission ledger that records what each referrer has earned, and
the payouts that settle it. Referrers see their own leads, commissions and
totals. A public capture page, opened from a referrer's link, records new leads.

This project models the application's core workflow and the small rules
around it:

- the lead → deal → commission saga;
- the commission and payout status advances;
- the public lead capture;
- the role check and company selection;
- the sign-up password checks;
- the dashboard figures.

The backend (Supabase tables) is the class `Store.Db`:

- It holds one map from id to record for each of leads, deals, the commission ledger and payouts.
- Every write takes an optional failure, the error the backend would return.
- An update whose id matches no row succeeds and changes nothing.
- An insert takes the id the backend assigns.

Each page's React state is a class whose fields the handlers update. A ghost
`Ui()` snapshot of those fields lets each handler state that nothing else
changed. The lists the leads, deals and commissions pages load are
constant fields, since none of their modelled handlers reloads them; the
referrer commissions page's list is a variable that its load sets. Inputs the pages take from outside the store are parameters:

- the clock;
- the result of `parseFloat`;
- the outcome of a query on a table outside the store;
- the outcome of the sign-up call.

Modules:

- `Domain`: records and status enumerations.
- `Lists`: JavaScript `find`/`filter`/`reduce`, with lemmas.
- `Text`: `trim` with ECMAScript's white-space set, ASCII `toLowerCase`, and capitalisation.
- `Store`: the backend.
- `StatusMapping`: `src/lib/statusMapping.ts`.
- `Company`: `src/hooks/useCompany.ts`.
- `Leads`, `CreateDealModal`, `Deals`, `Commissions`, `Payouts`, `LeadCapture`, `Signup`, `Dashboard`, `ReferrerCommissions`, `ReferrerDashboard`: one per page or component.

Invariants the model proves:

- At most one deal per lead (`Store.OneDealPerLead`). Confirming the deal modal preserves it when the modal was opened by a passing duplicate-deal check. It has two exceptions, both modelled as the code is written:
  - After the deal insert succeeds and the lead update fails, the modal stays open on the same lead. Confirming again inserts a second deal, because nothing re-checks (`Leads.LeadsPage.HandleCreateDeal`).
  - The deals page saves a new deal for any loaded qualified or converted lead without checking for an existing deal. A lead that already has one then has two (`Deals.NewDealDuplicatesLeadDeal`).
- At most one ledger entry per deal (`Store.OneEntryPerDeal`). Commission creation preserves it whenever its existing-entry query succeeds.
- Two more ways around the guards are stated as lemmas, modelled as the code is written:
  - a failed existing-entry query duplicates a commission;
  - an e-mail with white space before or after it passes the duplicate-lead check.

## Model

| member | source | states |
|---|---|---|
| StatusMapping.MapStatusForReferrer | src/lib/statusMapping.ts:4-18 | new↔new and lost↔lost; exactly contacted and qualified map to pending; exactly converted maps to closed |
| StatusMapping.ReferrerStatusLabel | src/lib/statusMapping.ts:20-23 | the label is the mapped name with its first letter upper-cased and the rest unchanged ("New", "Pending", "Closed", "Lost") |
| StatusMapping.MappingIsOnto | src/lib/statusMapping.ts:2-18 | every referrer-facing status is the image of some admin status |
| StatusMapping.MappingMergesOnlyContactedAndQualified | src/lib/statusMapping.ts:4-18 | two different admin statuses with the same image are exactly contacted and qualified |
| Text.Capitalize | src/lib/statusMapping.ts:22 | the first character is upper-cased and the rest is kept |
| Company.HasPermission | src/hooks/useCompany.ts:114-119 | no role grants nothing; owner passes every check, admin every check but owner, member only member |
| Company.PermissionIsMonotone | src/hooks/useCompany.ts:117-118 | a higher-ranked role passes every check a lower-ranked one passes |
| Company.RoleFor | src/hooks/useCompany.ts:76-77 | none iff no membership is for the company; otherwise the role of the first membership for it |
| Company.SelectCompany | src/hooks/useCompany.ts:66-72 | the stored id when it is among the companies, else the first company; none iff there are no companies |
| Company.CompanyContext.OnUserChanged | src/hooks/useCompany.ts:30-41 | with no user, companies, memberships, current company and role are cleared; with a user, the load follows `LoadCompanies`: a failed memberships query keeps the state, memberships are the rows (missing as none), and with memberships and company rows the companies, the selected company, its role and the stored id are set; loading ends false |
| Company.CompanyContext.LoadCompanies | src/hooks/useCompany.ts:43-86 | a failed query stops the load; otherwise memberships then companies are set; the selected company, its membership's role and the stored id are set together; loading ends false |
| Company.CompanyContext.SwitchCompany | src/hooks/useCompany.ts:88-96 | an unknown id changes nothing; otherwise that company, its membership role (or none) and the stored id |
| Company.CompanyContext.Can | src/hooks/useCompany.ts:114-115 | permission implies a current role |
| Leads.FormOf | src/pages/Leads.tsx:171-184 | the edit form carries the lead's status, referrer, name and e-mail, and its phone, company name and notes with null shown as an empty field |
| Leads.FormRow | src/pages/Leads.tsx:117-126 | the written row carries every form field; empty phone, company name and notes become null, and a non-null one is the field's text |
| Leads.EditSaveRoundTrip | src/pages/Leads.tsx:117-184 | opening a lead in the form and saving it unchanged writes the lead back as it was, unless an optional column holds an empty string |
| Leads.EntersQualified | src/pages/Leads.tsx:88 | the duplicate-deal check can only run for an edited lead whose form status is qualified, and never for a lead that was qualified already |
| Leads.FindLead | src/pages/Leads.tsx:102 | none iff no loaded lead has the id; otherwise a loaded lead with that id |
| Leads.LeadsPage.HandleSubmit | src/pages/Leads.tsx:84-153 | the duplicate-deal check runs exactly when an edited lead moves into qualified from another status (or none); it refuses a lead that a deal references, and a failed check writes nothing; a passing check writes nothing, stashes the form and opens the deal modal; any other save writes the form to the edited lead (nothing without one) and resets the form only on success |
| Leads.LeadsPage.SaveForm | src/pages/Leads.tsx:116-148 | the edited lead gets every column of the form and the form resets; a failed update changes neither; with no lead being edited nothing is written and the form resets |
| Leads.LeadsPage.HandleEdit | src/pages/Leads.tsx:171-184 | the form opens on the lead, remembers its id and original status |
| Leads.LeadsPage.HandleCancel | src/pages/Leads.tsx:186-200 | the form closes and resets, and the stashed form is dropped |
| Leads.LeadsPage.HandleStatusChange | src/pages/Leads.tsx:206-243 | qualified: the duplicate-deal check, refusing or opening the deal modal, no write; any other status: only that lead's status is written, and no deal |
| Leads.LeadsPage.HandleCreateDeal | src/pages/Leads.tsx:245-305 | inserts exactly the pending deal for the lead's referrer with no closing time before touching the lead; a failed insert writes nothing; the lead becomes qualified; one deal per lead is preserved when a passing check opened the modal; a failed lead update leaves the modal open on a lead that now has a deal, and confirming for such a lead breaks one deal per lead |
| Leads.LeadsPage.QualifyLead | src/pages/Leads.tsx:261-304 | the stashed form is written with status qualified and the form resets, or only the status is written; then the modal closes; a failure changes neither |
| Leads.LeadsPage.HandleCloseDealModal | src/pages/Leads.tsx:307-314 | persists nothing; a stashed form comes back with the original status; the modal closes |
| Store.InsertKeepsOneDealPerLead | src/pages/Leads.tsx:245-259 | inserting a deal for a lead that no deal references keeps one deal per lead |
| Store.InsertForDealtLeadBreaksOneDealPerLead | src/pages/Leads.tsx:245-259 | inserting a deal for a lead that a deal references adds it to the lead's deals and breaks one deal per lead |
| CreateDealModal.FailureText | src/components/CreateDealModal.tsx:41 | an error shows its message, anything else "Failed to create deal" |
| CreateDealModal.DealModal.Submit | src/components/CreateDealModal.tsx:25-44 | an amount that is NaN or ≤ 0 sets the error and calls nothing; otherwise the error is cleared, the amount is inserted unchanged, the modal closes only after the callback resolves, and a failure shows its text and ends loading |
| Deals.FindLeadChoice | src/pages/Deals.tsx:91-92 | none iff the lead is not among the loaded qualified and converted leads |
| Deals.FindReferrer | src/pages/Deals.tsx:144-145 | none iff no loaded referrer has the id |
| Deals.DealRow | src/pages/Deals.tsx:94-101 | the referrer is the selected lead's; the closing time is set exactly when the deal is won, to the clock's time |
| Deals.CommissionAmount | src/pages/Deals.tsx:147 | the rate is a percentage: 0 % gives 0, 100 % the deal amount, and rates between stay between |
| Deals.CommissionCreatedExactly | src/pages/Deals.tsx:141-166 | an entry is created iff there is a company, the referrer is known, no entry is found and the insert succeeds; it is pending, for the deal and referrer, at amount × rate / 100, and no other entry changes |
| Deals.UnknownReferrerCreatesNothing | src/pages/Deals.tsx:144-145 | an unknown referrer leaves the ledger as it was |
| Deals.AtMostOneEntry | src/pages/Deals.tsx:149-155 | under one entry per deal a deal has at most one entry |
| Deals.EntriesAfterInsert | src/pages/Deals.tsx:157-165 | an insert adds exactly the new id to its deal's entries |
| Deals.CommissionKeepsOneEntryPerDeal | src/pages/Deals.tsx:149-165 | with a working existing-entry query, commission creation keeps one entry per deal |
| Deals.ResaveKeepsCommission | src/pages/Deals.tsx:149-155 | re-saving a won deal that has its entry leaves the ledger, and so the entry's amount, unchanged |
| Deals.CommissionIsIdempotent | src/pages/Deals.tsx:141-166 | a second creation after a successful first changes nothing, and the deal has at most one entry |
| Deals.FailedCheckDuplicatesCommission | src/pages/Deals.tsx:149-155 | the existing-entry query's error is ignored: when it fails for a deal that has its entry, the deal ends with two entries |
| Deals.NewDealDuplicatesLeadDeal | src/pages/Deals.tsx:115-120 | the save has no duplicate-deal check: a new deal for a lead with one deal leaves it with two, breaking one deal per lead |
| Deals.EntryFound | src/pages/Deals.tsx:149-155 | `maybeSingle` finds the deal's entry only when the query succeeds and the deal has an entry; with two or more entries it finds none |
| Deals.LedgerAfterCommission | src/pages/Deals.tsx:141-166 | the ledger gains at most the one pending entry for the deal and referrer under the new id; every other entry is kept; a failed insert keeps the ledger |
| Deals.DealsPage.CreateCommission | src/pages/Deals.tsx:141-166 | the ledger becomes `LedgerAfterCommission` of the old ledger; no other table changes |
| Deals.DealsPage.HandleSubmit | src/pages/Deals.tsx:86-139 | an unknown lead or no admin role saves nothing; the deal is updated or inserted first; only after that succeeds, and only for a won deal, is the commission created; the form resets only on success |
| Deals.DealsPage.HandleEdit | src/pages/Deals.tsx:184-192 | the form opens on the deal with its lead, amount text and status |
| Deals.DealsPage.HandleCancel | src/pages/Deals.tsx:194-202 | the form closes and resets |
| Commissions.FilterCommissions | src/pages/Commissions.tsx:123-125 | `all` gives the whole list; a status gives exactly the entries with that status, each as often as in the list |
| Commissions.FilterSelectsOwnStatus | src/pages/Commissions.tsx:123-125 | an entry is kept by its own status's filter and by no other |
| Commissions.Stats | src/pages/Commissions.tsx:127-132 | the total is the pending, approved and paid sums together; no entries give zeros |
| Commissions.NextStatus | src/pages/Commissions.tsx:266-281 | pending offers approved, approved offers paid, paid offers nothing; each step advances one stage |
| Commissions.ActionsOnlyAdvance | src/pages/Commissions.tsx:266-281 | no action returns to pending, and paid is offered only from approved |
| Commissions.CommissionsPage.Shown | src/pages/Commissions.tsx:123-125 | the rows shown are loaded entries: all of them for `all`, and for a status exactly the entries with it, each as often as loaded |
| Commissions.CommissionsPage.Select | src/pages/Commissions.tsx:192-195 | choosing a filter sets it, and the rows shown become the loaded entries under that filter |
| Commissions.ConvertsLead | src/pages/Commissions.tsx:90-106 | a lead is converted only when the deal lookup succeeds and finds the deal, and never for a deal that is not won |
| Commissions.CommissionsPage.UpdateStatus | src/pages/Commissions.tsx:76-113 | no admin role or an unloaded id writes nothing; the status is written first; the lead is converted iff the entry is paid, the deal lookup succeeds and the deal is won; approving or a failed status write never touches a lead |
| Payouts.NewPayout | src/pages/Payouts.tsx:80-87 | a new payout is pending with no payment time; an empty payment method or notes becomes null |
| Payouts.PaidAtFor | src/pages/Payouts.tsx:108-111 | a payment time, the clock's, exactly for completed |
| Payouts.Actions | src/pages/Payouts.tsx:341-364 | pending offers processing and completed, processing offers completed, completed and failed offer nothing |
| Payouts.ActionsOnlyAdvance | src/pages/Payouts.tsx:341-364 | no button marks a payout failed or pending, and each moves it forward |
| Payouts.Stats | src/pages/Payouts.tsx:163-167 | the total is the pending and completed sums plus the processing and failed amounts |
| Payouts.StatsBounded | src/pages/Payouts.tsx:163-167 | with no negative amounts the pending and completed sums are non-negative and together at most the total |
| Payouts.PayoutsPage.HandleSubmit | src/pages/Payouts.tsx:73-102 | no company or admin role writes nothing; the payout is inserted, and the form closes and resets only on success |
| Payouts.PayoutsPage.UpdatePayoutStatus | src/pages/Payouts.tsx:104-123 | no admin role writes nothing; the status is written, and the payment time only for completed |
| Payouts.PayoutsPage.HandleCancel | src/pages/Payouts.tsx:125-133 | the form closes and resets |
| LeadCapture.CompanyNameOrDefault | src/pages/LeadCapture.tsx:51 | the company's name, or "AI Automation Group" when it has none |
| LeadCapture.Normalize | src/pages/LeadCapture.tsx:94 | a stored e-mail has no upper-case letter and no surrounding white space |
| LeadCapture.DuplicateFound | src/pages/LeadCapture.tsx:75-86 | a stored lead counts as a duplicate only when the query succeeds and some lead of the company has the lower-cased input as its e-mail; with none matching it never does |
| LeadCapture.NormalizeIsIdempotent | src/pages/LeadCapture.tsx:94 | normalising twice is normalising once |
| LeadCapture.CapturedLead | src/pages/LeadCapture.tsx:88-98 | the inserted lead: normalised e-mail, trimmed name and phone, company name trimmed or null, status new, the referral's referrer and company |
| LeadCapture.PaddedNormalizes | src/pages/LeadCapture.tsx:78-94 | white space before and after a normal-form e-mail survives lower-casing and is removed by normalisation |
| LeadCapture.PaddedEmailBypassesDuplicateCheck | src/pages/LeadCapture.tsx:75-98 | the key is lower-cased but not trimmed: an e-mail with white space before or after it matches no stored lead, yet is stored as a second lead with the same e-mail |
| LeadCapture.LeadCapturePage.LoadReferrerInfo | src/pages/LeadCapture.tsx:35-61 | a match sets the referral info (company name defaulted); an error or no match, and a thrown call, set their messages; the lookup ends |
| LeadCapture.LeadCapturePage.Mount | src/pages/LeadCapture.tsx:22-33 | the referrer is looked up iff the link has a non-empty `ref` code, and then the code is kept; a match sets the referrer info and keeps the error, a failed or empty query sets the invalid-code message and a thrown lookup its own message; otherwise the missing-code error is set and no referrer info is set; the form fields are kept and the referrer loading ends |
| LeadCapture.LeadCapturePage.HandleSubmit | src/pages/LeadCapture.tsx:63-114 | without referral info nothing is read or written; a lead with the same lower-cased e-mail in the company stops the insert; success only after a successful insert; loading ends false |
| LeadCapture.LeadCapturePage.SubmitLead | src/pages/LeadCapture.tsx:72-108 | a duplicate inserts nothing; a failed insert sets its error; otherwise exactly the captured lead is inserted and success is set |
| Text.TrimOfTrimmed | src/pages/LeadCapture.tsx:93-96 | a string that neither starts nor ends with white space is its own trim |
| Text.ToLowerOfLower | src/pages/LeadCapture.tsx:78 | a string with no upper-case letter is its own lower-case form |
| Signup.PasswordError | src/pages/Signup.tsx:56-64 | no error iff the passwords match and have at least 6 characters; a mismatch is reported as a mismatch |
| Signup.MismatchReportedFirst | src/pages/Signup.tsx:56-64 | a short mismatched password is never reported as too short |
| Signup.SignupPage.HandleSubmit | src/pages/Signup.tsx:51-119 | a failed check does not call sign-up; a sign-up error shows its message and leaves success false; with a referral a failed link still ends in success with linking off; without one sign-up success sets success |
| Dashboard.LoadStats | src/pages/Dashboard.tsx:64-86 | active, new and won counts never exceed their totals; the totals are the list lengths; no won deal means no revenue; no pending entry means no pending commission; missing rows give zeros |
| Dashboard.StatsNotNegative | src/pages/Dashboard.tsx:69-75 | with no negative amounts the revenue and pending commission are non-negative |
| ReferrerCommissions.SummaryOf | src/pages/ReferrerCommissions.tsx:64-80 | everything earned is the pending, approved and paid sums together; with no negative amounts each lies between zero and the total |
| ReferrerCommissions.ReferrerCommissionsPage.LoadCommissions | src/pages/ReferrerCommissions.tsx:49-86 | no referrer does nothing; the rows (missing as none) set the list and summary; a failure keeps them; loading ends false either way |
| ReferrerDashboard.LoadStats | src/pages/ReferrerDashboard.tsx:54-74 | new and won counts never exceed their totals; the commission total is the pending and paid sums plus the approved; missing rows give zeros |
| Lists.Filter | src/pages/Commissions.tsx:125 | the result holds only elements satisfying the predicate, every such element, each as often as in the input |
| Lists.FilterConcat | src/pages/Commissions.tsx:125 | filtering keeps order: the filter of a concatenation is the concatenation of the filters |
| Lists.SumSplitsThreeWays | src/pages/Commissions.tsx:127-132 | a sum splits over three filters that partition the list |
| Lists.SumNonNegative | src/pages/ReferrerCommissions.tsx:64-73 | a sum of non-negative terms is non-negative |

## Left out

- Loading the pages' lists (`loadData`, the parallel loads and their ordering) is not modelled. The lists a page works on are fields or constructor inputs, and the lead-deal-commission reads in the handlers are queries on the store.
- The delete handlers of the leads and deals pages, with their `confirm` prompt, are plain deletes and are not modelled.
- `alert` is the field `alertShown` on the leads page. `console` logging and all rendering are not modelled.
- Concurrency is not modelled. Every handler runs from start to end alone, so stale React closures and the read-then-write races between two tabs are out of scope.
- Amounts are `real`. IEEE floating point, `Number(...)` conversion and `toString`/`toLocaleString` formatting are not modelled.
- `parseFloat` of the deal and payout forms is an input `real`. In the deal modal it is `Option<real>`, with none standing for NaN.
- Deals.DealsPage.HandleSubmit: takes the parsed amount as given, so it does not capture a NaN amount from the form reaching the backend.
- Text.ToLower: maps only ASCII letters, not JavaScript's full Unicode case mapping. String lengths count Dafny characters, not UTF-16 code units.
- Signup.SignupPage.HandleSubmit: the referrer link is one boolean outcome. It covers the 1.5 s wait, the session check and the update of the referrer row; the sign-up call is likewise its outcome.
- The sign-up page's own referral-code lookup and its e-mail field are not modelled.
- LeadCapture.LeadCapturePage.HandleSubmit: does not model the generic catch ("An unexpected error occurred"), because a thrown call is not among the store's outcomes. A failed duplicate query reads as no duplicate, as `maybeSingle` does.
- The browser's `localStorage` is the field `storedCompanyId`. The URL is the `refCode` input of `Mount`.
- Not modelled, because they contain no logic beyond CRUD, display or randomness:
  - `createCompany` and `refreshCompanies`;
  - the company-creation form on the dashboard;
  - the referrers page and the add-referrer modal (random referral codes);
  - layouts and routing;
  - the QR modal;
  - the referrer hook and the referrer leads page.
- Dashboard.LoadStats, ReferrerDashboard.LoadStats: take whole records and statuses rather than the selected columns, and the `count` option is not used.
