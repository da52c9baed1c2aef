/**
 * The AI discovery page (frontend/src/pages/Discover.jsx): company research,
 * contact discovery and saving the researched company as a lead. Research
 * and discovery each have a start and a completion, so that both may be in
 * flight at once; each touches only its own result and spinner.
 */
module Discover {
  import opened Wrappers
  import opened Records
  import Text
  import Api

  /** The industry sent: nothing for the empty choice and for "any". */
  function IndustryParam(industry: string): (p: Option<string>)
    ensures p.None? <==> industry == "" || industry == "any"
    ensures p.Some? ==> p.value == industry
  {
    if industry == "" || industry == "any" then None else Some(industry)
  }

  /** `value || undefined`: an empty input is not sent. */
  function ContextParam(text: string): (p: Option<string>)
    ensures p.None? <==> text == ""
    ensures p.Some? ==> p.value == text
  {
    if text == "" then None else Some(text)
  }

  /** The body `handleSaveAsLead` creates the lead with. */
  function SaveBody(companyName: string, industry: string, additionalContext: string, research: string): (b: LeadFields)
    ensures b.companyName == Some(companyName)
    ensures b.industry == IndustryParam(industry) && b.notes == ContextParam(additionalContext)
    ensures b.aiInsights == ContextParam(research)
    ensures b.status.None? && b.companySize.None? && b.website.None? && b.qualificationScore.None?
  {
    NoLeadFields.(companyName := Some(companyName), industry := IndustryParam(industry),
                  aiInsights := ContextParam(research), notes := ContextParam(additionalContext))
  }

  /**
   * The backend ignores `ai_insights` on create, so the research survives
   * only because of the follow-up update: with it the stored lead carries the
   * research; without research the lead is stored with none.
   */
  lemma SavedLeadCarriesResearch(companyName: string, industry: string, additionalContext: string, research: string,
                                 id: Id, uid: Id, t1: Timestamp, t2: Timestamp)
    ensures var created := NewLead(SaveBody(companyName, industry, additionalContext, research), id, uid, t1);
            created.Ok? && created.value.aiInsights.None?
            && created.value.companyName == companyName && created.value.status == DefaultStatus
            && created.value.notes == ContextParam(additionalContext)
            && (research != "" ==> PatchLead(created.value, InsightsOnly(research), t2).aiInsights == Some(research))
  {
    var body := SaveBody(companyName, industry, additionalContext, research);
    if research != "" {
      CreateThenUpdatePersistsInsights(body, id, uid, t1, t2, research);
    }
  }

  class DiscoverView {
    var companyName: string
    var industry: string
    var additionalContext: string
    var researchLoading: bool
    var contactsLoading: bool
    var researchResult: string
    var contactsResult: string
    var savingLead: bool
    const browser: Api.Browser

    constructor (browser: Api.Browser)
      ensures this.browser == browser
      ensures companyName == "" && industry == "" && additionalContext == ""
      ensures !researchLoading && !contactsLoading && researchResult == "" && contactsResult == "" && !savingLead
    {
      this.browser := browser;
      companyName, industry, additionalContext := "", "", "";
      researchLoading, contactsLoading, researchResult, contactsResult, savingLead := false, false, "", "", false;
    }

    /** The request `handleResearch` sends for the current inputs. */
    function ResearchCall(): (c: Api.Call)
      reads this
      ensures c.ResearchCompany? && c.companyName == companyName
      ensures c.industry == IndustryParam(industry) && c.additionalContext == ContextParam(additionalContext)
    {
      Api.ResearchCompany(companyName, IndustryParam(industry), ContextParam(additionalContext))
    }

    /** `handleResearch` up to the request: a blank name is refused; otherwise the old result is cleared. */
    method BeginResearch() returns (call: Option<Api.Call>, toast: Option<Api.Toast>)
      modifies this`researchLoading, this`researchResult
      ensures Text.IsBlank(companyName) ==>
                call.None? && toast == Some(Api.Error("Please enter a company name"))
                && researchLoading == old(researchLoading) && researchResult == old(researchResult)
      ensures !Text.IsBlank(companyName) ==>
                call == Some(ResearchCall()) && toast.None? && researchLoading && researchResult == ""
    {
      if Text.IsBlank(companyName) {
        return None, Some(Api.Error("Please enter a company name"));
      }
      researchLoading := true;
      researchResult := "";
      call, toast := Some(ResearchCall()), None;
    }

    /** The rest of `handleResearch`. */
    method CompleteResearch(researched: Api.Reply<string>) returns (toast: Api.Toast)
      modifies this`researchLoading, this`researchResult, browser
      ensures researched.Ok? ==> researchResult == researched.value && toast == Api.Success("Research complete!")
      ensures researched.Err? ==> researchResult == old(researchResult)
                                  && toast == Api.Error("Research failed: " + Api.DetailOrMessage(researched.error))
      ensures !researchLoading
    {
      var r := Api.Settle(browser, researched);
      if r.Ok? {
        researchResult := r.value;
        toast := Api.Success("Research complete!");
      } else {
        toast := Api.Error("Research failed: " + Api.DetailOrMessage(r.error));
      }
      researchLoading := false;
    }

    /** `handleDiscoverContacts` up to the request: only the company name is sent. */
    method BeginContacts() returns (call: Option<Api.Call>, toast: Option<Api.Toast>)
      modifies this`contactsLoading, this`contactsResult
      ensures Text.IsBlank(companyName) ==>
                call.None? && toast == Some(Api.Error("Please enter a company name"))
                && contactsLoading == old(contactsLoading) && contactsResult == old(contactsResult)
      ensures !Text.IsBlank(companyName) ==>
                call == Some(Api.DiscoverContacts(companyName)) && toast.None? && contactsLoading && contactsResult == ""
    {
      if Text.IsBlank(companyName) {
        return None, Some(Api.Error("Please enter a company name"));
      }
      contactsLoading := true;
      contactsResult := "";
      call, toast := Some(Api.DiscoverContacts(companyName)), None;
    }

    /** The rest of `handleDiscoverContacts`. */
    method CompleteContacts(discovered: Api.Reply<string>) returns (toast: Api.Toast)
      modifies this`contactsLoading, this`contactsResult, browser
      ensures discovered.Ok? ==> contactsResult == discovered.value && toast == Api.Success("Contact discovery complete!")
      ensures discovered.Err? ==> contactsResult == old(contactsResult)
                                  && toast == Api.Error("Contact discovery failed: " + Api.DetailOrMessage(discovered.error))
      ensures !contactsLoading
    {
      var r := Api.Settle(browser, discovered);
      if r.Ok? {
        contactsResult := r.value;
        toast := Api.Success("Contact discovery complete!");
      } else {
        toast := Api.Error("Contact discovery failed: " + Api.DetailOrMessage(r.error));
      }
      contactsLoading := false;
    }

    /**
     * `handleSaveAsLead`: the lead is created, then updated with the
     * research when there is some; only when every request succeeds does the
     * page go to the new lead. Nothing on the page changes but the saving flag.
     */
    method SaveAsLead(created: Api.Reply<Lead>, updated: Api.Reply<Lead>)
      returns (calls: seq<Api.Call>, toast: Api.Toast, goTo: Option<string>)
      modifies this`savingLead, browser
      ensures Text.IsBlank(companyName) ==>
                calls == [] && toast == Api.Error("Please enter a company name") && goTo.None?
                && savingLead == old(savingLead)
      ensures !Text.IsBlank(companyName) ==> !savingLead
      ensures !Text.IsBlank(companyName) && created.Err? ==>
                calls == [Api.CreateLead(SaveBody(companyName, industry, additionalContext, researchResult))]
                && toast == Api.Error("Failed to save lead") && goTo.None?
      ensures !Text.IsBlank(companyName) && created.Ok? ==>
                calls == [Api.CreateLead(SaveBody(companyName, industry, additionalContext, researchResult))]
                         + (if researchResult != "" then [Api.UpdateLead(created.value.id, InsightsOnly(researchResult))] else [])
      ensures !Text.IsBlank(companyName) && created.Ok? && (researchResult == "" || updated.Ok?) ==>
                toast == Api.Success("Lead saved successfully!") && goTo == Some("/leads/" + created.value.id)
      ensures !Text.IsBlank(companyName) && created.Ok? && researchResult != "" && updated.Err? ==>
                toast == Api.Error("Failed to save lead") && goTo.None?
    {
      if Text.IsBlank(companyName) {
        return [], Api.Error("Please enter a company name"), None;
      }
      savingLead := true;
      calls := [Api.CreateLead(SaveBody(companyName, industry, additionalContext, researchResult))];
      var c := Api.Settle(browser, created);
      toast, goTo := Api.Error("Failed to save lead"), None;
      if c.Ok? {
        var ok := true;
        if researchResult != "" {
          calls := calls + [Api.UpdateLead(c.value.id, InsightsOnly(researchResult))];
          var u := Api.Settle(browser, updated);
          ok := u.Ok?;
        }
        if ok {
          toast, goTo := Api.Success("Lead saved successfully!"), Some("/leads/" + c.value.id);
        }
      }
      savingLead := false;
    }
  }
}
