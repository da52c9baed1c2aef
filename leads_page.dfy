/**
 * The lead list view (frontend/src/pages/Leads.jsx): the status filter kept
 * in the `status` search parameter, the add-lead form, delete with
 * re-fetch, and the client-side search over the fetched leads.
 */
module LeadsPage {
  import opened Wrappers
  import opened Records
  import Seqs
  import Text
  import Api

  /** The add-lead form; every input starts as the empty string. */
  datatype LeadForm = LeadForm(companyName: string, industry: string, companySize: string, website: string, notes: string)

  const EmptyLeadForm := LeadForm("", "", "", "", "")

  /** The JSON the form posts: no status (the backend's default applies) and no insights. */
  function FormBody(f: LeadForm): (b: LeadFields)
    ensures b.companyName == Some(f.companyName) && b.status.None? && b.aiInsights.None?
    ensures b.industry == Some(f.industry) && b.companySize == Some(f.companySize)
    ensures b.website == Some(f.website) && b.notes == Some(f.notes) && b.qualificationScore.None?
  {
    LeadFields(Some(f.companyName), Some(f.industry), Some(f.companySize), Some(f.website), None, Some(f.notes), None, None)
  }

  const AllStatuses := "all"

  /** The `status` the list request carries for a filter value. */
  function StatusParam(filter: string): (r: Option<string>)
    ensures r.None? <==> filter == AllStatuses
    ensures r.Some? ==> r.value == filter
  {
    if filter == AllStatuses then None else Some(filter)
  }

  /** `searchParams.get('status') || 'all'`. */
  function InitialFilter(params: map<string, string>): (f: string)
    ensures "status" in params && params["status"] != "" ==> f == params["status"]
    ensures !("status" in params && params["status"] != "") ==> f == AllStatuses
  {
    if "status" in params && params["status"] != "" then params["status"] else AllStatuses
  }

  /** The search: the company name, or the industry when it is set, contains the query ignoring case. */
  predicate LeadMatches(l: Lead, q: string) {
    Text.IncludesIgnoringCase(l.companyName, q)
    || (Text.Truthy(l.industry) && Text.IncludesIgnoringCase(l.industry.value, q))
  }

  /** `filteredLeads`. */
  function FilterLeads(leads: seq<Lead>, q: string): (r: seq<Lead>)
    ensures forall l :: l in r <==> l in leads && LeadMatches(l, q)
  {
    Seqs.Filter(leads, (l: Lead) => LeadMatches(l, q))
  }

  /** The search keeps the fetched order: its result is a subsequence of the list. */
  lemma FilterLeadsKeepsOrder(leads: seq<Lead>, q: string)
    ensures Seqs.IsSubsequence(FilterLeads(leads, q), leads)
  {
    Seqs.FilterIsSubsequence(leads, (l: Lead) => LeadMatches(l, q));
  }

  /** The empty query keeps every lead. */
  lemma EmptySearchKeepsAll(leads: seq<Lead>)
    ensures FilterLeads(leads, "") == leads
  {
    forall i | 0 <= i < |leads| ensures LeadMatches(leads[i], "") {
      Text.EmptyQueryMatches(leads[i].companyName);
    }
    Seqs.FilterKeepsAll(leads, (l: Lead) => LeadMatches(l, ""));
  }

  /** Searching for a company's own name finds it. */
  lemma SearchFindsOwnName(leads: seq<Lead>, l: Lead)
    requires l in leads
    ensures l in FilterLeads(leads, l.companyName)
  {
    Text.SelfMatchesIgnoringCase(l.companyName);
  }

  /** The toast a re-fetch adds. */
  function ListToasts(listed: Api.Reply<seq<Lead>>): seq<Api.Toast> {
    if listed.Ok? then [] else [Api.Error("Failed to load leads")]
  }

  class LeadsView {
    var leads: seq<Lead>
    var loading: bool
    var searchQuery: string
    var statusFilter: string
    var searchParams: map<string, string>
    var showAddDialog: bool
    var newLead: LeadForm
    const browser: Api.Browser

    constructor (browser: Api.Browser, searchParams: map<string, string>)
      ensures this.browser == browser && this.searchParams == searchParams
      ensures statusFilter == InitialFilter(searchParams)
      ensures leads == [] && loading && searchQuery == "" && !showAddDialog && newLead == EmptyLeadForm
    {
      this.browser := browser;
      this.searchParams := searchParams;
      statusFilter := InitialFilter(searchParams);
      leads, loading, searchQuery, showAddDialog, newLead := [], true, "", false, EmptyLeadForm;
    }

    /** `fetchLeads`: the list narrowed by the current filter; loading ends whatever the outcome. */
    method FetchLeads(reply: Api.Reply<seq<Lead>>) returns (call: Api.Call, toast: Option<Api.Toast>)
      modifies this`leads, this`loading, browser
      ensures call == Api.ListLeads(StatusParam(statusFilter))
      ensures reply.Ok? ==> leads == reply.value && toast.None?
      ensures reply.Err? ==> leads == old(leads) && toast == Some(Api.Error("Failed to load leads"))
      ensures !loading
    {
      loading := true;
      call := Api.ListLeads(StatusParam(statusFilter));
      var r := Api.Settle(browser, reply);
      if r.Ok? {
        leads := r.value;
        toast := None;
      } else {
        toast := Some(Api.Error("Failed to load leads"));
      }
      loading := false;
    }

    /**
     * `handleAddLead`: a blank company name is refused with no request; a
     * successful create closes the dialog, empties the form and re-fetches.
     */
    method HandleAddLead(created: Api.Reply<Lead>, listed: Api.Reply<seq<Lead>>)
      returns (calls: seq<Api.Call>, toasts: seq<Api.Toast>)
      modifies this`leads, this`loading, this`showAddDialog, this`newLead, browser
      ensures Text.IsBlank(old(newLead.companyName)) ==>
                calls == [] && toasts == [Api.Error("Company name is required")]
                && leads == old(leads) && newLead == old(newLead) && showAddDialog == old(showAddDialog)
                && loading == old(loading)
      ensures !Text.IsBlank(old(newLead.companyName)) && created.Err? ==>
                calls == [Api.CreateLead(FormBody(old(newLead)))] && toasts == [Api.Error("Failed to add lead")]
                && leads == old(leads) && newLead == old(newLead) && showAddDialog == old(showAddDialog)
                && loading == old(loading)
      ensures !Text.IsBlank(old(newLead.companyName)) && created.Ok? ==>
                calls == [Api.CreateLead(FormBody(old(newLead))), Api.ListLeads(StatusParam(statusFilter))]
                && toasts == [Api.Success("Lead added successfully")] + ListToasts(listed)
                && newLead == EmptyLeadForm && !showAddDialog && !loading
                && (listed.Ok? ==> leads == listed.value) && (listed.Err? ==> leads == old(leads))
    {
      if Text.IsBlank(newLead.companyName) {
        return [], [Api.Error("Company name is required")];
      }
      calls := [Api.CreateLead(FormBody(newLead))];
      var r := Api.Settle(browser, created);
      if r.Err? {
        return calls, [Api.Error("Failed to add lead")];
      }
      toasts := [Api.Success("Lead added successfully")];
      showAddDialog := false;
      newLead := EmptyLeadForm;
      var call, toast := FetchLeads(listed);
      calls := calls + [call];
      if toast.Some? {
        toasts := toasts + [toast.value];
      }
    }

    /**
     * `handleDeleteLead`: nothing is sent unless confirmed; a successful
     * delete re-fetches the list rather than removing the lead locally.
     */
    method HandleDeleteLead(id: Id, confirmed: bool, deleted: Api.Reply<()>, listed: Api.Reply<seq<Lead>>)
      returns (calls: seq<Api.Call>, toasts: seq<Api.Toast>)
      modifies this`leads, this`loading, browser
      ensures !confirmed ==> calls == [] && toasts == [] && leads == old(leads) && loading == old(loading)
      ensures confirmed && deleted.Err? ==>
                calls == [Api.DeleteLead(id)] && toasts == [Api.Error("Failed to delete lead")] && leads == old(leads)
                && loading == old(loading)
      ensures confirmed && deleted.Ok? ==>
                calls == [Api.DeleteLead(id), Api.ListLeads(StatusParam(statusFilter))]
                && toasts == [Api.Success("Lead deleted")] + ListToasts(listed) && !loading
                && (listed.Ok? ==> leads == listed.value) && (listed.Err? ==> leads == old(leads))
    {
      if !confirmed {
        return [], [];
      }
      calls := [Api.DeleteLead(id)];
      var r := Api.Settle(browser, deleted);
      if r.Err? {
        return calls, [Api.Error("Failed to delete lead")];
      }
      toasts := [Api.Success("Lead deleted")];
      var call, toast := FetchLeads(listed);
      calls := calls + [call];
      if toast.Some? {
        toasts := toasts + [toast.value];
      }
    }

    /**
     * `handleStatusFilterChange`: 'all' deletes the `status` search
     * parameter, any other value sets it; the list is re-fetched (by the
     * effect on `statusFilter`) only when the value actually changed.
     */
    method HandleStatusFilterChange(value: string, listed: Api.Reply<seq<Lead>>)
      returns (calls: seq<Api.Call>, toast: Option<Api.Toast>)
      modifies this`statusFilter, this`searchParams, this`leads, this`loading, browser
      ensures statusFilter == value
      ensures value == AllStatuses ==> searchParams == old(searchParams) - {"status"}
      ensures value != AllStatuses ==> searchParams == old(searchParams)["status" := value]
      ensures value == old(statusFilter) ==> calls == [] && leads == old(leads) && toast.None? && loading == old(loading)
      ensures value != old(statusFilter) ==> calls == [Api.ListLeads(StatusParam(value))] && !loading
      ensures value != old(statusFilter) && listed.Ok? ==> leads == listed.value && toast.None?
      ensures value != old(statusFilter) && listed.Err? ==>
                leads == old(leads) && toast == Some(Api.Error("Failed to load leads"))
    {
      var changed := value != statusFilter;
      statusFilter := value;
      if value == AllStatuses {
        searchParams := searchParams - {"status"};
      } else {
        searchParams := searchParams["status" := value];
      }
      calls, toast := [], None;
      if changed {
        var call;
        call, toast := FetchLeads(listed);
        calls := [call];
      }
    }
  }
}
