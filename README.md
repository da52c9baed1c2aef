# SPINMR Lead — a Dafny model of the lead-generation CRM core

SPINMR Lead is a small CRM for an HR-services firm. Its backend is a FastAPI service (`backend/server.py`). It keeps per-user
**leads** (companies with a pipeline status), **contacts** attached to leads, and **email templates**, and it seeds
thirteen example leads. It also offers three language-model actions: company research, contact discovery and email
drafting. The React frontend adds:

- a session provider (`lib/auth.js`);
- an axios client with a bearer-token request interceptor and a 401 response interceptor (`lib/api.js`);
- route guards (`App.js`), the status/industry/size tables (`lib/utils.js`), the application shell (`Layout.jsx`);
- the Leads, Contacts, Templates, LeadDetail, Discover and Register pages.

The model follows the source's own shape, file by file.

- **Backend** (`store.dfy`, `records.dfy`, `stats.dfy`, `seed.dfy`)
  - `Backend.Store` is a class whose four collections stand for the Mongo collections.
  - Every handler that writes is a method. Its ensures give the new state in terms of the old one, and it keeps the
    `Valid()` invariant: ids are unique in every collection, and so are account emails.
  - Every read is a function: lookup, listing with the `updated_at` descending sort and the result caps, stats, and
    the checks before the model is called.
  - Record construction and partial update are pure functions in `Records`. The seed's "insert each missing example"
    loop is a loop proved against the `Seed.Pending` function.
- **Frontend** (`api.dfy`, `auth.dfy`, `routes.dfy`, `layout.dfy`, `*_page.dfy`, `discover.dfy`, `register.dfy`)
  - The browser's `localStorage` and `window.location` are the fields of `Api.Browser`.
  - Every page is a class holding its React state. Every handler is a method.
  - An awaited request is a `Reply` parameter: the response, or the error as axios rejects it. The handler returns the
    requests it sent (`Api.Call`), the toasts it raised and, where it navigates, the target path.
  - Every reply passes through `Api.Settle`, the 401 interceptor.
  - The AI actions, whose requests take long enough that a second one is commonly started before the first returns,
    are split into a `Begin…` and a `Complete…` method: research and email on the lead page, research and contact
    discovery on Discover. The field frames (`modifies this`x`) then prove that one action touches only its own result
    and spinner. Every other handler is one atomic method.

Integers are unbounded. Timestamps are naturals taken from a `now` parameter; the source's ISO-8601 strings sort in the
same order. Fresh `uuid4` ids are parameters required to be unused.

One consequence of the lead page's code is proved rather than corrected. The page's edit copy (`editData`) is set only
when the lead is loaded and when an edit is cancelled. Neither a status change nor an AI research refreshes it. A later
Edit→Save therefore sends the old status back, and also the old `ai_insights` when the lead had some. The lemmas are
`LeadDetail.StaleEditRevertsStatus` and `LeadDetail.StaleEditRevertsInsights`; the model keeps the code's behaviour.

## Model

| member | source | states |
|---|---|---|
| Records.NewLead | backend/server.py:63-70 | a lead is created exactly when `company_name` is given (422 otherwise); status defaults to "new"; `ai_insights` is never taken from the create body; both timestamps are the creation time |
| Records.PatchLead | backend/server.py:264-277 | only the non-null fields of the update overwrite the stored lead; id, owner and creation time are kept; `updated_at` becomes now |
| Records.EmptyPatchOnlyTouches | backend/server.py:266-272 | an update with no fields changes nothing but `updated_at` |
| Records.NullCannotClear | backend/server.py:266 | a null in the update never clears a stored field |
| Records.PatchIdempotent | backend/server.py:264-277 | applying the same update twice equals applying it once, up to the timestamp |
| Records.StatusOnly | frontend/src/pages/LeadDetail.jsx:73 | the `{status}` body sets the status and no other field |
| Records.StatusPatchChangesOnlyStatus | frontend/src/pages/LeadDetail.jsx:71-79 | a status-only update changes the status and `updated_at` and nothing else |
| Records.InsightsOnly | frontend/src/pages/LeadDetail.jsx:118 | the `{ai_insights}` body sets only the insights |
| Records.CreateThenUpdatePersistsInsights | frontend/src/pages/Discover.jsx:80-85 | a created lead has no insights; the follow-up update stores them |
| Records.NewContact | backend/server.py:97-104 | a contact is created exactly when `lead_id` and `name` are both given |
| Records.PatchContact | backend/server.py:340-351 | non-null fields overwrite, and the lead a contact belongs to is never changed by an update |
| Records.NewTemplate | backend/server.py:126-130 | a template needs `name`, `subject` and `body`; the category defaults to "outreach" |
| Records.PatchTemplate | backend/server.py:383-394 | non-null fields overwrite; id, owner and creation time are kept |
| Backend.FindOwnedLead | backend/server.py:257-262 | found exactly when some lead has that id and belongs to the caller; otherwise 404 "Lead not found" |
| Backend.OtherUsersLeadIsNotFound | backend/server.py:259-261 | another user's lead is reported as not found |
| Backend.SortFacts | backend/server.py:254 | the listing sort yields leads ordered by `updated_at`, newest first, and is a permutation of its input |
| Backend.InsertSorted | backend/server.py:254 | inserting into a newest-first sequence keeps it newest-first |
| Backend.InsertMembers | backend/server.py:254 | insertion adds exactly the inserted lead to the multiset |
| Backend.HeadIsNewest | backend/server.py:254 | the first lead of a newest-first listing is at least as recent as every other |
| Backend.ListLeads | backend/server.py:249-255 | the caller's leads of the requested status, newest first: exactly min(n, 1000) of the n matching leads, a sub-multiset of them (all of them when n ≤ 1000), and no matching lead left out is newer than one kept |
| Backend.ListContacts | backend/server.py:332-338 | exactly the first min(n, 1000) of the n contacts that are the caller's and of the requested lead (all when no lead is named), in stored order |
| Backend.ListTemplates | backend/server.py:378-381 | exactly the first min(n, 100) of the caller's n templates, in stored order |
| Backend.CascadeContacts | backend/server.py:284 | the contacts kept are exactly those of other leads |
| Backend.CascadeKeepsOrder | backend/server.py:284 | the cascade keeps the order of the contacts that remain and keeps every one of them |
| Backend.LeadStatsFor | backend/server.py:287-304 | the total is the caller's lead count; each of the six named counts (new, contacted, qualified, proposal, won, lost) is the number of the caller's leads with that status; the total is at least their sum |
| Backend.AskModel | backend/server.py:405-438 | no key gives 500 "LLM API key not configured"; a model failure gives 500 with the action's prefix; success passes the text through |
| Backend.Store.constructor | backend/server.py:21-23 | an empty store satisfies the invariant |
| Backend.Store.Authenticate | backend/server.py:172-183 | a request with a token is accepted only when it is a valid token of an existing account; every refusal of a presented token is 401 |
| Backend.Store.Login | backend/server.py:209-219 | with account emails unique, a token and the account's profile are issued if and only if an account has that email and password; otherwise 401 "Invalid credentials" |
| Backend.Store.Register | backend/server.py:187-207 | a taken email gives 400 and changes nothing; otherwise exactly one account is appended; ids and emails stay unique |
| Backend.Store.CreateLead | backend/server.py:227-247 | the result is `NewLead` of the body; on success only that lead is appended |
| Backend.Store.GetLead | backend/server.py:257-262 | the caller's lead with that id, or 404 |
| Backend.Store.UpdateLead | backend/server.py:264-277 | a lead that is missing or belongs to another user gives 404 and no change; otherwise exactly that lead is patched and returned as re-read |
| Backend.Store.DeleteLead | backend/server.py:279-285 | 404 and no change when missing; otherwise that lead is removed together with every contact of it, and nothing else changes |
| Backend.Store.SeedExampleLeads | backend/server.py:541-574 | appends exactly the examples the caller does not yet have (by company name), counts them, reports 13 examples and the "Created <n> example leads" message, keeps ids unique |
| Backend.Store.InsertMissing | backend/server.py:547-572 | the seeding loop appends `Seed.Pending` of the examples and counts it |
| Backend.Store.CreateContact | backend/server.py:308-330 | 422 when a required field is missing; 404 when the lead is not the caller's; otherwise exactly the new contact is appended |
| Backend.Store.UpdateContact | backend/server.py:340-351 | 404 and no change when missing; otherwise only that contact is patched |
| Backend.Store.DeleteContact | backend/server.py:353-358 | 404 and no change when missing; otherwise only that contact is removed |
| Backend.Store.CreateTemplate | backend/server.py:362-376 | the result is `NewTemplate` of the body; on success only that template is appended |
| Backend.Store.UpdateTemplate | backend/server.py:383-394 | 404 and no change when missing; otherwise only that template is patched |
| Backend.Store.DeleteTemplate | backend/server.py:396-401 | 404 and no change when missing; otherwise only that template is removed |
| Backend.Store.GenerateEmail | backend/server.py:470-511 | the key is checked first (500), then the lead must be the caller's (404); with both, the result is the model's text or the prefixed 500 of `AskModel` |
| Stats.StatusesOf | backend/server.py:289-292 | the statuses grouped are the leads' statuses, in order |
| Stats.TallyFacts | backend/server.py:289-293 | the grouping has one group per status, a count per status equal to its occurrences, and counts that sum to the number of leads |
| Stats.SummarizeCounts | backend/server.py:295-304 | the total is the number of leads and each named field is the count of its status |
| Stats.TotalSplits | backend/server.py:295-304 | the total is the six named counts plus the leads with any other status |
| Stats.TotalVersusNamed | backend/server.py:295-304 | the total exceeds the named counts exactly when some lead has an unlisted status |
| Stats.UnknownPositive | backend/server.py:295-304 | leads with an unlisted status exist exactly when one of the statuses lies outside the six |
| Seed.ExampleLeadsShape | backend/server.py:525-539 | there are 13 examples with pairwise distinct company names |
| Seed.SeedLead | backend/server.py:556-570 | a seeded lead carries the example's fields, status "new", no score or insights, and equal timestamps |
| Seed.Pending | backend/server.py:547-572 | the leads seeding would add belong to the caller and name companies the caller lacks |
| Seed.PendingFromExamples | backend/server.py:547-571 | every pending lead is the seeded form of one of the examples |
| Seed.PendingExactlyMissing | backend/server.py:549-554 | an example is seeded if and only if the caller has no lead with its company name |
| Seed.SeedCoversAll | backend/server.py:541-574 | after seeding the caller has every example company |
| Seed.NothingPendingWhenAllPresent | backend/server.py:549-554 | nothing is seeded when the caller already has every example company |
| Seed.SeedIdempotent | backend/server.py:541-574 | seeding a second time adds nothing |
| Seed.PendingAvoidsLaterNames | backend/server.py:549-554 | with distinct example names, an example already seeded in this run is found by the duplicate check |
| Seed.PendingAvoidsLaterIds | backend/server.py:556 | with distinct fresh ids, no lead seeded earlier in the run reuses a later id |
| Seed.PendingStep | backend/server.py:547-572 | one loop step extends the pending set by at most the current example |
| Seed.NatToDecimal | backend/server.py:574 | the decimal numeral is non-empty, all digits, "0" exactly for zero, and has no leading zero |
| Seed.NatToDecimalRoundTrip | backend/server.py:574 | reading the numeral of the created count gives the count |
| Seed.SeedMessage | backend/server.py:574 | the message is "Created ", a digit string without leading zeros that reads back as the created count, and " example leads" |
| Api.Browser.ClearSession | frontend/src/lib/api.js:27-28 | token and saved user are removed; the location is kept |
| Api.InterceptRequest | frontend/src/lib/api.js:14-20 | the `Authorization: Bearer <token>` header is set exactly when a non-empty token is stored; otherwise the headers are unchanged |
| Api.InterceptFailure | frontend/src/lib/api.js:23-33 | a 401 clears the session and moves to /login; any other failure changes nothing; the error is always re-rejected unchanged |
| Api.Settle | frontend/src/lib/api.js:23-33 | a reply reaches the caller unchanged, after the 401 handling |
| Api.RequestOf | frontend/src/lib/api.js:36-74 | the case table maps every call the modelled pages make to its method, URL and query; the ensures state that item calls address `/<collection>/<id>` (lead item calls with no query), and give the whole request of the lead and contact lists and of the email draft, whose filters become query parameters |
| Api.LeadItemCallsTargetTheLead | frontend/src/lib/api.js:46-48 | get, update and delete of a lead address the same URL, which names that lead |
| Api.ItemPath | frontend/src/lib/api.js:46 | an item URL is the collection root followed by the id |
| Api.ItemPathRoundTrip | frontend/src/lib/api.js:46-48 | the id is recovered from its item URL, and distinct ids give distinct URLs |
| Api.LeadListParams | frontend/src/lib/api.js:45 | `status` is a query parameter exactly when a status is given, and the only one |
| Api.ContactListParams | frontend/src/lib/api.js:55 | `lead_id` is a query parameter exactly when a lead is given, and the only one |
| Api.GenerateEmailUrl | frontend/src/lib/api.js:72-73 | the URL starts with `?lead_id=<id>` and is longer exactly when a non-empty template id is appended |
| Api.GenerateEmailUrlRoundTrip | frontend/src/lib/api.js:72-73 | for a lead id without `&`, the lead id and the truthy template id are recovered from the URL |
| Api.DetailOr | frontend/src/pages/Register.jsx:31 | the server's non-empty `detail` is shown, otherwise the fallback text |
| Api.DetailOrMessage | frontend/src/pages/Discover.jsx:41 | the server's non-empty `detail` is shown, otherwise the error's own message |
| Auth.AuthProvider.constructor | frontend/src/lib/auth.js:7-8 | no user, loading |
| Auth.AuthProvider.Initialise | frontend/src/lib/auth.js:10-29 | with a stored token and user, the stored user is shown while it is revalidated; otherwise loading ends with no user |
| Auth.AuthProvider.FinishRevalidation | frontend/src/lib/auth.js:17-25 | a confirmed user replaces the shown and stored user; any failure logs out; loading ends either way |
| Auth.AuthProvider.Logout | frontend/src/lib/auth.js:49-53 | token, stored user and user are all cleared |
| Auth.AuthProvider.StartSession | frontend/src/lib/auth.js:33-36 | the token and user are stored and the user is set |
| Auth.AuthProvider.Login | frontend/src/lib/auth.js:31-38 | on success the session holds the returned token and user; on failure the user is unchanged and the error is passed on |
| Auth.AuthProvider.Register | frontend/src/lib/auth.js:40-47 | the same for a new account |
| Routes.ProtectedRoute | frontend/src/App.js:15-32 | a spinner exactly while loading; then /login exactly without a user, and the page inside the shell exactly with one |
| Routes.PublicRoute | frontend/src/App.js:34-50 | a spinner exactly while loading; then /dashboard exactly with a user, and the bare page exactly without one |
| Routes.Show | frontend/src/App.js:52-74 | an unmatched path redirects to /dashboard |
| Routes.NoRedirectWhileLoading | frontend/src/App.js:18-24 | no guarded page redirects while the session is loading |
| Routes.RootRedirects | frontend/src/App.js:68 | "/" always redirects to /dashboard |
| Routes.LeadDetailRoute | frontend/src/App.js:63 | `/leads/<id>` shows the detail page of that id, inside the shell, to a signed-in user |
| Routes.GuardsAreComplementary | frontend/src/App.js:15-50 | once loaded, a protected page renders exactly when a public one redirects, and the reverse |
| LeadStatus.FindStatus | frontend/src/lib/utils.js:18 | an entry is found exactly for the six known status values |
| LeadStatus.StatusColor | frontend/src/lib/utils.js:17-20 | a known status gets its table colour, any other gets `bg-gray-500` |
| LeadStatus.StatusLabel | frontend/src/lib/utils.js:22-25 | a known status gets its caption, any other is shown as itself |
| LeadStatus.StatusesDistinctAndOrdered | frontend/src/lib/utils.js:8-15 | six distinct statuses, in pipeline order |
| LeadStatus.KnownStatusLookups | frontend/src/lib/utils.js:8-25 | every table entry's value looks up its own caption and colour |
| LeadStatus.UnknownStatusFallbacks | frontend/src/lib/utils.js:17-25 | for every spelling of a known status, the lookup matches only the lower-case one; any other spelling shows itself as the label and the fallback colour |
| LeadStatus.KnownStatusesAreLowerCase | frontend/src/lib/utils.js:9-14 | every status value of the table is already lower-case |
| LeadStatus.StatusTableValues | frontend/src/lib/utils.js:8-15 | the table's values are the backend's status names |
| LeadStatus.OptionListsShape | frontend/src/lib/utils.js:27-49 | 13 distinct industries ending in "Other", and 5 distinct company sizes |
| Text.BlankIffAllWhitespace | frontend/src/pages/Leads.jsx:50 | `!s.trim()` holds exactly when every character is whitespace |
| Text.IncludesIgnoringCase | frontend/src/pages/Leads.jsx:76-79 | defined as `toLowerCase().includes(query.toLowerCase())` |
| Text.SelfMatchesIgnoringCase | frontend/src/pages/Leads.jsx:77 | every string matches itself |
| Text.EmptyQueryMatches | frontend/src/pages/Leads.jsx:77 | the empty query matches everything |
| Text.IndexOfChar | frontend/src/lib/api.js:73 | the first position of a character, or the length when it is absent |
| Layout.DashboardExactOnly | frontend/src/components/Layout.jsx:53-54 | the dashboard item is highlighted only on exactly /dashboard |
| Layout.MobileImpliesDesktop | frontend/src/components/Layout.jsx:53-54 | a mobile highlight implies the desktop one |
| Layout.LeadDetailHighlightsLeads | frontend/src/components/Layout.jsx:53-54 | on `/leads/<id>` the desktop menu highlights only Leads and the mobile menu highlights nothing |
| Layout.OwnPathHighlightsOnlyItself | frontend/src/components/Layout.jsx:17-23 | each item's own path highlights that item and no other, in both menus |
| Layout.AvatarInitial | frontend/src/components/Layout.jsx:79 | the upper-cased first letter of the name, or "U" |
| Layout.Shell.ToggleMenu | frontend/src/components/Layout.jsx:112 | the mobile menu flips |
| Layout.Shell.ChooseMobileLink | frontend/src/components/Layout.jsx:129 | a mobile link closes the menu and goes to its path |
| Layout.Shell.HandleLogout | frontend/src/components/Layout.jsx:31-34 | the session is cleared and the page goes to /login |
| LeadsPage.FormBody | frontend/src/pages/Leads.jsx:24-30 | the add form sends all five inputs, with no status or insights |
| LeadsPage.StatusParam | frontend/src/pages/Leads.jsx:39 | "all" sends no status filter, any other choice sends itself |
| LeadsPage.InitialFilter | frontend/src/pages/Leads.jsx:22 | a non-empty `status` query parameter selects the filter, otherwise "all" |
| LeadsPage.FilterLeads | frontend/src/pages/Leads.jsx:76-79 | exactly the leads whose name or industry contains the query, ignoring case |
| LeadsPage.FilterLeadsKeepsOrder | frontend/src/pages/Leads.jsx:76 | the search keeps the listing order |
| LeadsPage.EmptySearchKeepsAll | frontend/src/pages/Leads.jsx:76-79 | an empty search shows every lead |
| LeadsPage.SearchFindsOwnName | frontend/src/pages/Leads.jsx:77 | searching a lead's own name finds it |
| LeadsPage.LeadsView.constructor | frontend/src/pages/Leads.jsx:18-30 | the filter starts from the URL's status parameter |
| LeadsPage.LeadsView.FetchLeads | frontend/src/pages/Leads.jsx:36-47 | the listing with the filter's status is requested; success replaces the leads, failure keeps them and toasts; loading ends |
| LeadsPage.LeadsView.HandleAddLead | frontend/src/pages/Leads.jsx:49-63 | a blank name is refused with no request and no state change; a failed create keeps the list, form, dialog and spinner; success closes the dialog, empties the form and re-fetches, which ends loading |
| LeadsPage.LeadsView.HandleDeleteLead | frontend/src/pages/Leads.jsx:65-74 | nothing without confirmation; a failed delete keeps the list and spinner; after a successful delete the list is re-fetched, which ends loading |
| LeadsPage.LeadsView.HandleStatusFilterChange | frontend/src/pages/Leads.jsx:81-89 | the filter and the URL's `status` parameter follow the choice; an unchanged filter changes no list or spinner; a changed filter re-fetches, which ends loading; a failed re-fetch keeps the list and raises "Failed to load leads" |
| ContactsPage.IndexById | frontend/src/pages/Contacts.jsx:28-31 | the map's keys are exactly the fetched leads' ids, each mapped to a lead with that id |
| ContactsPage.IndexFindsEveryLead | frontend/src/pages/Contacts.jsx:28-31 | with unique ids, every fetched lead is found under its own id |
| ContactsPage.LeadLink | frontend/src/pages/Contacts.jsx:28-31 | a contact links to its lead's page and name exactly when the lead was fetched |
| ContactsPage.FilterContacts | frontend/src/pages/Contacts.jsx:52-56 | exactly the contacts whose name, title or email contains the query, ignoring case |
| ContactsPage.EmptySearchKeepsAllContacts | frontend/src/pages/Contacts.jsx:52-56 | an empty search shows every contact |
| ContactsPage.FilterContactsKeepsOrder | frontend/src/pages/Contacts.jsx:52 | the search keeps the order |
| ContactsPage.WithoutContact | frontend/src/pages/Contacts.jsx:45 | exactly the contacts with another id remain |
| ContactsPage.WithoutContactKeepsOthers | frontend/src/pages/Contacts.jsx:45 | the removal keeps order, and removing an absent id changes nothing |
| ContactsPage.ContactsView.BuildLeadsMap | frontend/src/pages/Contacts.jsx:28-31 | the `forEach` loop builds `IndexById` of the fetched leads |
| ContactsPage.ContactsView.FetchData | frontend/src/pages/Contacts.jsx:21-39 | both lists are requested; only when both arrive are contacts and the lead map replaced; loading ends |
| ContactsPage.ContactsView.HandleDelete | frontend/src/pages/Contacts.jsx:41-50 | nothing without confirmation; a successful delete removes exactly that contact locally |
| TemplatesPage.CategoryLabel | frontend/src/pages/Templates.jsx:102-105 | a known category gets its caption, any other is shown as itself |
| TemplatesPage.CategoryLabels | frontend/src/pages/Templates.jsx:14-19 | the four captions, and the fallback for every other value |
| TemplatesPage.FormBody | frontend/src/pages/Templates.jsx:26-31 | the form sends all four fields |
| TemplatesPage.FormOf | frontend/src/pages/Templates.jsx:80-89 | editing copies a template's four fields into the form |
| TemplatesPage.EditedFormRestoresTemplate | frontend/src/pages/Templates.jsx:80-89 | saving an untouched edit form leaves the template unchanged |
| TemplatesPage.CopyText | frontend/src/pages/Templates.jsx:91-95 | the copied text starts with "Subject: " and holds subject, blank line and body |
| TemplatesPage.CopyTextRoundTrip | frontend/src/pages/Templates.jsx:92 | a one-line subject and the body are recovered from the copied text |
| TemplatesPage.WithoutTemplate | frontend/src/pages/Templates.jsx:73 | exactly the templates with another id remain |
| TemplatesPage.WithoutTemplateKeepsOthers | frontend/src/pages/Templates.jsx:73 | the removal keeps order |
| TemplatesPage.SaveCall | frontend/src/pages/Templates.jsx:53-60 | an update of the edited template exactly when editing, otherwise a create |
| TemplatesPage.TemplatesView.constructor | frontend/src/pages/Templates.jsx:22-31 | no templates, loading, an empty form with category "outreach" |
| TemplatesPage.TemplatesView.FetchTemplates | frontend/src/pages/Templates.jsx:37-46 | success replaces the templates, failure keeps them and toasts; loading ends |
| TemplatesPage.TemplatesView.ResetForm | frontend/src/pages/Templates.jsx:97-100 | not editing, and an empty form |
| TemplatesPage.TemplatesView.HandleEdit | frontend/src/pages/Templates.jsx:80-89 | the template is being edited, its fields fill the form, the dialog opens |
| TemplatesPage.TemplatesView.HandleSave | frontend/src/pages/Templates.jsx:48-67 | an incomplete form is refused with no request, the dialog left open and nothing else changed; otherwise the save outcome |
| TemplatesPage.TemplatesView.SaveForm | frontend/src/pages/Templates.jsx:52-66 | create or update; success closes the dialog, resets the form and re-fetches, which ends loading; failure keeps the list, form, edited template, open dialog and spinner |
| TemplatesPage.TemplatesView.HandleDelete | frontend/src/pages/Templates.jsx:69-78 | nothing without confirmation; a successful delete removes exactly that template locally |
| LeadDetail.ContactBody | frontend/src/pages/LeadDetail.jsx:87 | the contact form's fields plus this lead's id |
| LeadDetail.EditBody | frontend/src/pages/LeadDetail.jsx:62 | every field of the edit copy is sent |
| LeadDetail.SaveStoresEdits | frontend/src/pages/LeadDetail.jsx:60-69 | a saved edit stores the edit copy's name, status and every non-null field, and keeps id and owner |
| LeadDetail.StaleEditRevertsStatus | frontend/src/pages/LeadDetail.jsx:40-79 | after a status change, saving the edit copy taken at load restores the old status |
| LeadDetail.StaleEditRevertsInsights | frontend/src/pages/LeadDetail.jsx:40-126 | after research is saved, saving the edit copy of a lead loaded with insights restores the old insights |
| LeadDetail.LeadDetailView.constructor | frontend/src/pages/LeadDetail.jsx:24-34 | no lead yet, loading, an empty contact form, no AI output |
| LeadDetail.LeadDetailView.FetchData | frontend/src/pages/LeadDetail.jsx:40-58 | lead and contacts are requested together; both arriving fills lead, edit copy, contacts and any insights; otherwise a toast and /leads; loading ends |
| LeadDetail.LeadDetailView.StartEditing | frontend/src/pages/LeadDetail.jsx:209 | edit mode on |
| LeadDetail.LeadDetailView.CancelEditing | frontend/src/pages/LeadDetail.jsx:201 | edit mode off, the edit copy restored from the lead |
| LeadDetail.LeadDetailView.ChangeEditData | frontend/src/pages/LeadDetail.jsx:221-280 | the edit inputs change only the edit copy's five editable fields |
| LeadDetail.LeadDetailView.HandleSave | frontend/src/pages/LeadDetail.jsx:60-69 | the edit copy is sent; only success adopts it and leaves edit mode |
| LeadDetail.LeadDetailView.HandleStatusChange | frontend/src/pages/LeadDetail.jsx:71-79 | only the status is sent; the shown status changes only on success |
| LeadDetail.LeadDetailView.HandleAddContact | frontend/src/pages/LeadDetail.jsx:81-96 | a blank name is refused with no request; success closes the dialog, empties the form and re-loads the contacts; a failed re-load is reported as a failed add |
| LeadDetail.LeadDetailView.HandleDeleteContact | frontend/src/pages/LeadDetail.jsx:98-107 | nothing without confirmation; a successful delete removes exactly that contact locally |
| LeadDetail.LeadDetailView.BeginResearch | frontend/src/pages/LeadDetail.jsx:109-116 | the spinner starts and the lead's name, industry and notes are sent |
| LeadDetail.LeadDetailView.CompleteResearch | frontend/src/pages/LeadDetail.jsx:117-126 | the research is shown and saved as the lead's insights; a failure of either step is reported with the server's detail; the spinner stops |
| LeadDetail.LeadDetailView.BeginEmail | frontend/src/pages/LeadDetail.jsx:128-130 | the email is requested without a template |
| LeadDetail.LeadDetailView.CompleteEmail | frontend/src/pages/LeadDetail.jsx:131-139 | only the email slot and its spinner change |
| Discover.IndustryParam | frontend/src/pages/Discover.jsx:35 | no industry is sent for the empty choice or "any" |
| Discover.ContextParam | frontend/src/pages/Discover.jsx:36 | an empty input is not sent |
| Discover.SaveBody | frontend/src/pages/Discover.jsx:74-79 | name, industry, research and context go into the create body |
| Discover.SavedLeadCarriesResearch | frontend/src/pages/Discover.jsx:80-85 | the created lead has no insights, and the follow-up update stores the research |
| Discover.DiscoverView.constructor | frontend/src/pages/Discover.jsx:16-23 | empty inputs and results, no spinners |
| Discover.DiscoverView.ResearchCall | frontend/src/pages/Discover.jsx:33-37 | the research request carries the name and the optional industry and context |
| Discover.DiscoverView.BeginResearch | frontend/src/pages/Discover.jsx:25-32 | a blank name is refused; otherwise the old result is cleared and the spinner starts |
| Discover.DiscoverView.CompleteResearch | frontend/src/pages/Discover.jsx:38-44 | success shows the research; failure reports the server's detail; the spinner stops |
| Discover.DiscoverView.BeginContacts | frontend/src/pages/Discover.jsx:47-57 | a blank name is refused; otherwise only the name is sent |
| Discover.DiscoverView.CompleteContacts | frontend/src/pages/Discover.jsx:58-64 | success shows the discovered contacts; failure reports; the spinner stops |
| Discover.DiscoverView.SaveAsLead | frontend/src/pages/Discover.jsx:67-94 | a blank name is refused; the lead is created and, when there is research, updated with it; only full success goes to the new lead's page |
| RegisterPage.RegisterView.constructor | frontend/src/pages/Register.jsx:12-15 | empty inputs, not loading |
| RegisterPage.RegisterView.HandleSubmit | frontend/src/pages/Register.jsx:19-35 | a password under 6 characters is refused with no request, no session change and no stored token, user or navigation; success starts the session, storing the token and the user, and goes to /dashboard; failure shows the server's reason or "Registration failed" |

## Left out

- Password hashing (bcrypt) and JWT signing are left out. A token is the opaque `Credential` (signed for an id, expired, or malformed), and a password is compared as stored.
- The language-model calls (prompt text, model choice, session ids) are left out; the model's answer is a parameter of `AskModel` and `GenerateEmail`. The research and contact-discovery endpoints are the same key check plus an answer, and have no member of their own beyond `AskModel`.
- Backend.Store.Authenticate: a request with no `Authorization` header is refused by `HTTPBearer()` before the token is decoded (403 "Not authenticated" in FastAPI releases of this code's era); `Credential` has no such case. The frontend sends a bare request only when no token is stored.
- MongoDB I/O, CORS, the health and root routes, and application start-up and shutdown are not modelled. `/auth/me` only returns the authenticated account, which `Backend.Store.Authenticate` covers.
- Backend.LeadStatsFor: the aggregation's `to_list(100)` cap on status groups is not modelled. With six known statuses it cuts nothing unless a user has more than 100 distinct status strings.
- Backend.ListLeads: Mongo's sort stability for equal `updated_at` values is not specified. The model uses a stable insertion sort.
- ContactsPage.ContactsView.HandleDelete, LeadDetail.LeadDetailView.HandleDeleteContact, TemplatesPage.TemplatesView.HandleDelete, LeadDetail.LeadDetailView.HandleStatusChange, LeadsPage.LeadsView.HandleAddLead and LeadsPage.LeadsView.HandleDeleteLead are atomic: each reads the page state at the moment its reply arrives. In the source these handlers compute their update from the closure of the render that created them (`contacts.filter`, `templates.filter`, `{ ...lead, status }`, the `statusFilter` that `fetchLeads` reads). Overlapping runs are not modelled. Two deletes confirmed before the first resolves, a status change resolving after a save, or a filter change during a delete can therefore show stale state in the source; the model cannot produce these.
- `Promise.all` in the Contacts and LeadDetail fetches is modelled as two replies that both have to succeed. The order in which the two requests are sent is not modelled.
- The 401 interceptor's page reload (`window.location.href`) is modelled as a change of `Browser.location`. Page contracts do not repeat what `Api.Settle` states about the browser.
- Text.IncludesIgnoringCase: lower-casing covers ASCII letters only, not JavaScript's full Unicode `toLowerCase`.
- NewLead (Records.NewLead): an explicit JSON `null` status is a 422 in the source (Pydantic rejects `None` for a `str` field); the model has no null and treats it as an absent status, which defaults to "new".
- NewTemplate (Records.NewTemplate): the same for an explicit `null` category, which the model defaults to "outreach".
- Register (Backend.Store.Register): `EmailStr` validation is not modelled. The source answers a malformed email with 422 and normalises the address's domain before the uniqueness check; the model compares emails as given.
- Login (Backend.Store.Login): the same `EmailStr` validation and normalisation is not modelled.
- Request validation errors (422) carry a list of error objects as `detail`; `Api.Failure.detail` is a string, so such a reply is modelled as one without a usable detail, which `Api.DetailOr` replaces by the page's fallback text.
- Layout.AvatarInitial: upper-cases ASCII letters only, not JavaScript's full Unicode `toUpperCase`.
- Api.RequestOf: `contactsAPI.update` and `leadsAPI.getStats` are not called by the modelled pages and have no `Call`.
- RegisterPage.RegisterView.HandleSubmit: the password length is counted in characters, not UTF-16 code units. The form's `required` attributes are browser validation and are not modelled.
- `JSON.parse` of the stored user is not modelled; the stored user is a `Profile` value.
- Route matching (`Routes.MatchRoute`) is exact. React Router's case-insensitive and trailing-slash matching is not modelled.
- `formatDate`, `cn`, icons, styling and clipboard access (`navigator.clipboard`) are presentation or I/O. `TemplatesPage.CopyText` models only the text copied.
- The Login and Dashboard pages are not part of this model.
- LeadDetail.LeadDetailView.HandleSave requires an edit copy. The page's Save button exists only once the lead has loaded, and that load sets the copy.
- Confirmation dialogs (`window.confirm`) are a `confirmed` parameter.
