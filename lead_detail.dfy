/**
 * The lead detail view (frontend/src/pages/LeadDetail.jsx): loading the
 * lead with its contacts, editing, the status selector, adding and deleting
 * contacts, and the two language-model actions. Each awaited request is a
 * `Reply` parameter; the two AI actions are split into a start and a
 * completion so that either may be in flight while the other runs.
 */
module LeadDetail {
  import opened Wrappers
  import opened Records
  import Text
  import Api
  import ContactsPage

  /** The add-contact form; every input starts as the empty string. */
  datatype ContactForm = ContactForm(name: string, title: string, email: string, phone: string, linkedin: string, notes: string)

  const EmptyContactForm := ContactForm("", "", "", "", "", "")

  /** `{ ...newContact, lead_id: id }`. */
  function ContactBody(f: ContactForm, leadId: Id): (b: ContactFields)
    ensures b.leadId == Some(leadId) && b.name == Some(f.name)
    ensures b.title == Some(f.title) && b.email == Some(f.email) && b.phone == Some(f.phone)
    ensures b.linkedin == Some(f.linkedin) && b.notes == Some(f.notes)
  {
    ContactFields(Some(leadId), Some(f.name), Some(f.title), Some(f.email), Some(f.phone), Some(f.linkedin), Some(f.notes))
  }

  /** The body `handleSave` sends: every field of the edited lead, the nulls among them ignored by the backend. */
  function EditBody(e: Lead): (b: LeadFields)
    ensures b.companyName == Some(e.companyName) && b.status == Some(e.status)
    ensures b.industry == e.industry && b.companySize == e.companySize && b.website == e.website
    ensures b.notes == e.notes && b.qualificationScore == e.qualificationScore && b.aiInsights == e.aiInsights
  {
    LeadFields(Some(e.companyName), e.industry, e.companySize, e.website, Some(e.status), e.notes,
               e.qualificationScore, e.aiInsights)
  }

  /** Saving an edit stores every field the edited copy has a value for. */
  lemma SaveStoresEdits(stored: Lead, e: Lead, now: Timestamp)
    ensures var r := PatchLead(stored, EditBody(e), now);
            r.companyName == e.companyName && r.status == e.status
            && (e.industry.Some? ==> r.industry == e.industry)
            && (e.notes.Some? ==> r.notes == e.notes)
            && (e.aiInsights.Some? ==> r.aiInsights == e.aiInsights)
            && r.id == stored.id && r.userId == stored.userId
  {
  }

  /**
   * The edit copy is taken when the lead is loaded and not when a status is
   * chosen: saving an edit after a successful status change sends the older
   * status back.
   */
  lemma StaleEditRevertsStatus(loaded: Lead, chosen: string, t1: Timestamp, t2: Timestamp)
    requires chosen != loaded.status
    ensures var afterStatus := PatchLead(loaded, StatusOnly(chosen), t1);
            afterStatus.status == chosen
            && PatchLead(afterStatus, EditBody(loaded), t2).status == loaded.status
  {
  }

  /**
   * The same holds for the insights: research saved after loading is
   * overwritten by a later edit when the lead was loaded with insights.
   */
  lemma StaleEditRevertsInsights(loaded: Lead, research: string, t1: Timestamp, t2: Timestamp)
    requires loaded.aiInsights.Some? && loaded.aiInsights.value != research
    ensures var afterResearch := PatchLead(loaded, InsightsOnly(research), t1);
            afterResearch.aiInsights == Some(research)
            && PatchLead(afterResearch, EditBody(loaded), t2).aiInsights == loaded.aiInsights
  {
  }

  class LeadDetailView {
    const leadId: Id
    var lead: Option<Lead>
    var contacts: seq<Contact>
    var loading: bool
    var editing: bool
    var editData: Option<Lead>
    var showContactDialog: bool
    var newContact: ContactForm
    var aiLoading: bool
    var aiInsights: string
    var emailLoading: bool
    var generatedEmail: string
    const browser: Api.Browser

    constructor (browser: Api.Browser, leadId: Id)
      ensures this.browser == browser && this.leadId == leadId
      ensures lead.None? && contacts == [] && loading && !editing && editData.None?
      ensures !showContactDialog && newContact == EmptyContactForm
      ensures !aiLoading && aiInsights == "" && !emailLoading && generatedEmail == ""
    {
      this.browser := browser;
      this.leadId := leadId;
      lead, contacts, loading, editing, editData := None, [], true, false, None;
      showContactDialog, newContact := false, EmptyContactForm;
      aiLoading, aiInsights, emailLoading, generatedEmail := false, "", false, "";
    }

    /**
     * `fetchData`: the lead and its contacts are requested together; both
     * arriving fills the view (and the insights when the lead has some),
     * anything else leaves for /leads; loading ends in every outcome.
     */
    method FetchData(leadReply: Api.Reply<Lead>, contactsReply: Api.Reply<seq<Contact>>)
      returns (calls: seq<Api.Call>, toast: Option<Api.Toast>, goTo: Option<string>)
      modifies this`lead, this`editData, this`contacts, this`aiInsights, this`loading, browser
      ensures calls == [Api.GetLead(leadId), Api.ListContacts(Some(leadId))]
      ensures leadReply.Ok? && contactsReply.Ok? ==>
                lead == Some(leadReply.value) && editData == Some(leadReply.value) && contacts == contactsReply.value
                && aiInsights == (if Text.Truthy(leadReply.value.aiInsights) then leadReply.value.aiInsights.value else old(aiInsights))
                && toast.None? && goTo.None?
      ensures !(leadReply.Ok? && contactsReply.Ok?) ==>
                lead == old(lead) && editData == old(editData) && contacts == old(contacts) && aiInsights == old(aiInsights)
                && toast == Some(Api.Error("Failed to load lead details")) && goTo == Some("/leads")
      ensures !loading
    {
      calls := [Api.GetLead(leadId), Api.ListContacts(Some(leadId))];
      var rl := Api.Settle(browser, leadReply);
      var rc := Api.Settle(browser, contactsReply);
      if rl.Ok? && rc.Ok? {
        lead := Some(rl.value);
        editData := Some(rl.value);
        contacts := rc.value;
        if Text.Truthy(rl.value.aiInsights) {
          aiInsights := rl.value.aiInsights.value;
        }
        toast, goTo := None, None;
      } else {
        toast, goTo := Some(Api.Error("Failed to load lead details")), Some("/leads");
      }
      loading := false;
    }

    /** The Edit button: edit mode on, the edit copy as it stands. */
    method StartEditing()
      modifies this`editing
      ensures editing
    {
      editing := true;
    }

    /** The Cancel button: edit mode off and the edit copy restored from the lead. */
    method CancelEditing()
      modifies this`editing, this`editData
      ensures !editing && editData == lead
    {
      editing := false;
      editData := lead;
    }

    /** Typing in the edit form: the five editable inputs of the edit copy. */
    method ChangeEditData(companyName: string, website: Option<string>, industry: Option<string>,
                          companySize: Option<string>, notes: Option<string>)
      requires editData.Some?
      modifies this`editData
      ensures editData == Some(old(editData).value.(companyName := companyName, website := website, industry := industry,
                                                     companySize := companySize, notes := notes))
    {
      editData := Some(editData.value.(companyName := companyName, website := website, industry := industry,
                                       companySize := companySize, notes := notes));
    }

    /** `handleSave`: the edit copy is sent; only success adopts it as the lead and leaves edit mode. */
    method HandleSave(saved: Api.Reply<Lead>) returns (call: Api.Call, toast: Api.Toast)
      requires editData.Some?
      modifies this`lead, this`editing, browser
      ensures call == Api.UpdateLead(leadId, EditBody(editData.value))
      ensures saved.Ok? ==> lead == editData && !editing && toast == Api.Success("Lead updated")
      ensures saved.Err? ==> lead == old(lead) && editing == old(editing) && toast == Api.Error("Failed to update lead")
    {
      call := Api.UpdateLead(leadId, EditBody(editData.value));
      var r := Api.Settle(browser, saved);
      if r.Ok? {
        lead := editData;
        editing := false;
        toast := Api.Success("Lead updated");
      } else {
        toast := Api.Error("Failed to update lead");
      }
    }

    /** `handleStatusChange`: only `{status}` is sent, and the local status changes only after success. */
    method HandleStatusChange(status: string, updated: Api.Reply<Lead>) returns (call: Api.Call, toast: Api.Toast)
      requires lead.Some?
      modifies this`lead, browser
      ensures call == Api.UpdateLead(leadId, StatusOnly(status))
      ensures updated.Ok? ==> lead == Some(old(lead).value.(status := status)) && toast == Api.Success("Status updated")
      ensures updated.Err? ==> lead == old(lead) && toast == Api.Error("Failed to update status")
    {
      call := Api.UpdateLead(leadId, StatusOnly(status));
      var r := Api.Settle(browser, updated);
      if r.Ok? {
        lead := Some(lead.value.(status := status));
        toast := Api.Success("Status updated");
      } else {
        toast := Api.Error("Failed to update status");
      }
    }

    /**
     * `handleAddContact`: a blank name is refused with no request; after a
     * successful create the dialog closes, the form empties and the lead's
     * contacts are re-loaded (a failed re-load is reported as a failed add).
     */
    method HandleAddContact(created: Api.Reply<Contact>, listed: Api.Reply<seq<Contact>>)
      returns (calls: seq<Api.Call>, toasts: seq<Api.Toast>)
      modifies this`contacts, this`showContactDialog, this`newContact, browser
      ensures Text.IsBlank(old(newContact).name) ==>
                calls == [] && toasts == [Api.Error("Contact name is required")]
                && contacts == old(contacts) && newContact == old(newContact) && showContactDialog == old(showContactDialog)
      ensures !Text.IsBlank(old(newContact).name) && created.Err? ==>
                calls == [Api.CreateContact(ContactBody(old(newContact), leadId))]
                && toasts == [Api.Error("Failed to add contact")]
                && contacts == old(contacts) && newContact == old(newContact) && showContactDialog == old(showContactDialog)
      ensures !Text.IsBlank(old(newContact).name) && created.Ok? ==>
                calls == [Api.CreateContact(ContactBody(old(newContact), leadId)), Api.ListContacts(Some(leadId))]
                && !showContactDialog && newContact == EmptyContactForm
                && (listed.Ok? ==> contacts == listed.value && toasts == [Api.Success("Contact added")])
                && (listed.Err? ==> contacts == old(contacts)
                                    && toasts == [Api.Success("Contact added"), Api.Error("Failed to add contact")])
    {
      if Text.IsBlank(newContact.name) {
        return [], [Api.Error("Contact name is required")];
      }
      calls := [Api.CreateContact(ContactBody(newContact, leadId))];
      var r := Api.Settle(browser, created);
      if r.Err? {
        return calls, [Api.Error("Failed to add contact")];
      }
      toasts := [Api.Success("Contact added")];
      showContactDialog := false;
      newContact := EmptyContactForm;
      calls := calls + [Api.ListContacts(Some(leadId))];
      var rl := Api.Settle(browser, listed);
      if rl.Ok? {
        contacts := rl.value;
      } else {
        toasts := toasts + [Api.Error("Failed to add contact")];
      }
    }

    /** `handleDeleteContact`: only a confirmed, successful delete removes the contact locally. */
    method HandleDeleteContact(contactId: Id, confirmed: bool, deleted: Api.Reply<()>)
      returns (calls: seq<Api.Call>, toast: Option<Api.Toast>)
      modifies this`contacts, browser
      ensures !confirmed ==> calls == [] && toast.None? && contacts == old(contacts)
      ensures confirmed ==> calls == [Api.DeleteContact(contactId)]
      ensures confirmed && deleted.Ok? ==>
                contacts == ContactsPage.WithoutContact(old(contacts), contactId) && toast == Some(Api.Success("Contact deleted"))
      ensures confirmed && deleted.Err? ==>
                contacts == old(contacts) && toast == Some(Api.Error("Failed to delete contact"))
    {
      if !confirmed {
        return [], None;
      }
      calls := [Api.DeleteContact(contactId)];
      var r := Api.Settle(browser, deleted);
      if r.Ok? {
        contacts := ContactsPage.WithoutContact(contacts, contactId);
        toast := Some(Api.Success("Contact deleted"));
      } else {
        toast := Some(Api.Error("Failed to delete contact"));
      }
    }

    /** `handleAiResearch` up to the request: the research spinner on, the lead's own fields sent. */
    method BeginResearch() returns (call: Api.Call)
      requires lead.Some?
      modifies this`aiLoading
      ensures aiLoading
      ensures call == Api.ResearchCompany(lead.value.companyName, lead.value.industry, lead.value.notes)
    {
      aiLoading := true;
      call := Api.ResearchCompany(lead.value.companyName, lead.value.industry, lead.value.notes);
    }

    /**
     * The rest of `handleAiResearch`: the research is shown and then saved
     * as the lead's `ai_insights`; the spinner stops in every outcome. A
     * failed save reports failure but keeps the research on screen.
     */
    method CompleteResearch(researched: Api.Reply<string>, saved: Api.Reply<Lead>)
      returns (calls: seq<Api.Call>, toast: Api.Toast)
      modifies this`aiInsights, this`aiLoading, browser
      ensures researched.Err? ==>
                calls == [] && aiInsights == old(aiInsights)
                && toast == Api.Error("AI research failed: " + Api.DetailOrMessage(researched.error))
      ensures researched.Ok? ==>
                calls == [Api.UpdateLead(leadId, InsightsOnly(researched.value))] && aiInsights == researched.value
      ensures researched.Ok? && saved.Ok? ==> toast == Api.Success("AI research complete")
      ensures researched.Ok? && saved.Err? ==> toast == Api.Error("AI research failed: " + Api.DetailOrMessage(saved.error))
      ensures !aiLoading
    {
      calls := [];
      var r := Api.Settle(browser, researched);
      if r.Err? {
        toast := Api.Error("AI research failed: " + Api.DetailOrMessage(r.error));
      } else {
        aiInsights := r.value;
        calls := [Api.UpdateLead(leadId, InsightsOnly(r.value))];
        var s := Api.Settle(browser, saved);
        if s.Ok? {
          toast := Api.Success("AI research complete");
        } else {
          toast := Api.Error("AI research failed: " + Api.DetailOrMessage(s.error));
        }
      }
      aiLoading := false;
    }

    /** `handleGenerateEmail` up to the request: `generateEmail(id)` has no template. */
    method BeginEmail() returns (call: Api.Call)
      modifies this`emailLoading
      ensures emailLoading && call == Api.GenerateEmail(leadId, None)
    {
      emailLoading := true;
      call := Api.GenerateEmail(leadId, None);
    }

    /** The rest of `handleGenerateEmail`: only the email slot and its spinner change. */
    method CompleteEmail(generated: Api.Reply<string>) returns (toast: Api.Toast)
      modifies this`generatedEmail, this`emailLoading, browser
      ensures generated.Ok? ==> generatedEmail == generated.value && toast == Api.Success("Email generated")
      ensures generated.Err? ==> generatedEmail == old(generatedEmail)
                                 && toast == Api.Error("Email generation failed: " + Api.DetailOrMessage(generated.error))
      ensures !emailLoading
    {
      var r := Api.Settle(browser, generated);
      if r.Ok? {
        generatedEmail := r.value;
        toast := Api.Success("Email generated");
      } else {
        toast := Api.Error("Email generation failed: " + Api.DetailOrMessage(r.error));
      }
      emailLoading := false;
    }
  }
}
