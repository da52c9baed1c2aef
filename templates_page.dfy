/**
 * The email templates view (frontend/src/pages/Templates.jsx): the
 * create/edit form, delete, the clipboard text and the category captions.
 */
module TemplatesPage {
  import opened Wrappers
  import opened Records
  import Seqs
  import Text
  import Api

  datatype Category = Category(value: string, caption: string)

  const TemplateCategories: seq<Category> := [
    Category("outreach", "Initial Outreach"),
    Category("follow_up", "Follow Up"),
    Category("proposal", "Proposal"),
    Category("meeting", "Meeting Request")
  ]

  /** `getCategoryLabel`: the caption of a known category, the value itself otherwise. */
  function CategoryLabel(value: string): (caption: string)
    ensures (exists i :: 0 <= i < |TemplateCategories| && TemplateCategories[i].value == value) ==>
              exists i :: 0 <= i < |TemplateCategories| && TemplateCategories[i].value == value
                          && caption == TemplateCategories[i].caption
    ensures (forall i :: 0 <= i < |TemplateCategories| ==> TemplateCategories[i].value != value) ==> caption == value
  {
    match Seqs.First(TemplateCategories, (c: Category) => c.value == value)
    case Some(c) => c.caption
    case None => value
  }

  /** The four captions, one per category, and the fallback for anything else. */
  lemma CategoryLabels()
    ensures CategoryLabel("outreach") == "Initial Outreach"
    ensures CategoryLabel("follow_up") == "Follow Up"
    ensures CategoryLabel("proposal") == "Proposal"
    ensures CategoryLabel("meeting") == "Meeting Request"
    ensures forall v :: v !in {"outreach", "follow_up", "proposal", "meeting"} ==> CategoryLabel(v) == v
  {
    assert TemplateCategories[0].value == "outreach";
    assert TemplateCategories[1].value == "follow_up" && TemplateCategories[1].value != "outreach";
    assert TemplateCategories[2].value == "proposal" && "proposal" != "outreach" && "proposal" != "follow_up";
    assert TemplateCategories[3].value == "meeting" && "meeting" != "outreach" && "meeting" != "follow_up" && "meeting" != "proposal";
  }

  datatype TemplateForm = TemplateForm(name: string, subject: string, body: string, category: string)

  const EmptyTemplateForm := TemplateForm("", "", "", DefaultCategory)

  function FormBody(f: TemplateForm): (b: TemplateFields)
    ensures b == TemplateFields(Some(f.name), Some(f.subject), Some(f.body), Some(f.category))
  {
    TemplateFields(Some(f.name), Some(f.subject), Some(f.body), Some(f.category))
  }

  /** The form `handleEdit` loads from a template. */
  function FormOf(t: Template): (f: TemplateForm)
    ensures f.name == t.name && f.subject == t.subject && f.body == t.body && f.category == t.category
  {
    TemplateForm(t.name, t.subject, t.body, t.category)
  }

  /** Saving the form loaded from a template writes back exactly that template's contents. */
  lemma EditedFormRestoresTemplate(t: Template)
    ensures PatchTemplate(t, FormBody(FormOf(t))) == t
  {
  }

  /** The validation of `handleSave`: name, subject and body all non-blank. */
  predicate FormComplete(f: TemplateForm) {
    !Text.IsBlank(f.name) && !Text.IsBlank(f.subject) && !Text.IsBlank(f.body)
  }

  const SubjectPrefix := "Subject: "
  const Separator := "\n\n"

  /** The text `handleCopy` puts on the clipboard. */
  function CopyText(t: Template): (text: string)
    ensures SubjectPrefix <= text
    ensures |text| == |SubjectPrefix| + |t.subject| + |Separator| + |t.body|
  {
    SubjectPrefix + t.subject + Separator + t.body
  }

  /** Reads a copied text back into subject and body, splitting at the first line break. */
  function ParseCopyText(text: string): Option<(string, string)> {
    if !(SubjectPrefix <= text) then None
    else
      var rest := text[|SubjectPrefix|..];
      var k := Text.IndexOfChar(rest, '\n');
      if Separator <= rest[k..] then Some((rest[..k], rest[k + |Separator|..])) else None
  }

  /** A one-line subject and the body are recovered from the copied text. */
  lemma CopyTextRoundTrip(t: Template)
    requires forall i :: 0 <= i < |t.subject| ==> t.subject[i] != '\n'
    ensures ParseCopyText(CopyText(t)) == Some((t.subject, t.body))
  {
    var text := CopyText(t);
    var suffix := Separator + t.body;
    assert text == SubjectPrefix + (t.subject + suffix);
    var rest := text[|SubjectPrefix|..];
    assert rest == t.subject + suffix;
    Text.IndexOfCharAfter(t.subject, '\n', suffix);
    assert rest[..|t.subject|] == t.subject;
    assert rest[|t.subject|..] == suffix;
    assert suffix[|Separator|..] == t.body;
  }

  /** `templates.filter(t => t.id !== id)`. */
  function WithoutTemplate(templates: seq<Template>, id: Id): (r: seq<Template>)
    ensures forall t :: t in r <==> t in templates && t.id != id
  {
    Seqs.Filter(templates, (t: Template) => t.id != id)
  }

  /** Removing an id keeps every other template, in order. */
  lemma WithoutTemplateKeepsOthers(templates: seq<Template>, id: Id)
    ensures Seqs.IsSubsequence(WithoutTemplate(templates, id), templates)
  {
    Seqs.FilterIsSubsequence(templates, (t: Template) => t.id != id);
  }

  /** The request `handleSave` sends: an update of the template being edited, else a create. */
  function SaveCall(editing: Option<Template>, f: TemplateForm): (c: Api.Call)
    ensures editing.Some? <==> c.UpdateTemplate?
    ensures editing.Some? ==> c == Api.UpdateTemplate(editing.value.id, FormBody(f))
    ensures editing.None? ==> c == Api.CreateTemplate(FormBody(f))
  {
    if editing.Some? then Api.UpdateTemplate(editing.value.id, FormBody(f)) else Api.CreateTemplate(FormBody(f))
  }

  function SavedMessage(editing: Option<Template>): string {
    if editing.Some? then "Template updated" else "Template created"
  }

  function ListToasts(listed: Api.Reply<seq<Template>>): seq<Api.Toast> {
    if listed.Ok? then [] else [Api.Error("Failed to load templates")]
  }

  class TemplatesView {
    var templates: seq<Template>
    var loading: bool
    var showDialog: bool
    var editingTemplate: Option<Template>
    var formData: TemplateForm
    const browser: Api.Browser

    constructor (browser: Api.Browser)
      ensures this.browser == browser && templates == [] && loading && !showDialog
      ensures editingTemplate.None? && formData == EmptyTemplateForm
    {
      this.browser := browser;
      templates, loading, showDialog, editingTemplate, formData := [], true, false, None, EmptyTemplateForm;
    }

    /** `fetchTemplates`. */
    method FetchTemplates(reply: Api.Reply<seq<Template>>) returns (call: Api.Call, toasts: seq<Api.Toast>)
      modifies this`templates, this`loading, browser
      ensures call == Api.ListTemplates && toasts == ListToasts(reply)
      ensures reply.Ok? ==> templates == reply.value
      ensures reply.Err? ==> templates == old(templates)
      ensures !loading
    {
      call := Api.ListTemplates;
      var r := Api.Settle(browser, reply);
      if r.Ok? {
        templates := r.value;
      }
      toasts := ListToasts(reply);
      loading := false;
    }

    /** `resetForm`. */
    method ResetForm()
      modifies this`editingTemplate, this`formData
      ensures editingTemplate.None? && formData == EmptyTemplateForm
    {
      editingTemplate := None;
      formData := EmptyTemplateForm;
    }

    /** `handleEdit`: the chosen template is loaded into the form and the dialog opens. */
    method HandleEdit(t: Template)
      modifies this`editingTemplate, this`formData, this`showDialog
      ensures editingTemplate == Some(t) && formData == FormOf(t) && showDialog
    {
      editingTemplate := Some(t);
      formData := FormOf(t);
      showDialog := true;
    }

    /**
     * `handleSave`: an incomplete form is refused with no request; otherwise
     * the form is saved.
     */
    method HandleSave(saved: Api.Reply<Template>, listed: Api.Reply<seq<Template>>)
      returns (calls: seq<Api.Call>, toasts: seq<Api.Toast>)
      modifies this`templates, this`loading, this`showDialog, this`editingTemplate, this`formData, browser
      ensures !FormComplete(old(formData)) ==>
                calls == [] && toasts == [Api.Error("Please fill in all fields")]
                && formData == old(formData) && editingTemplate == old(editingTemplate) && templates == old(templates)
                && showDialog == old(showDialog) && loading == old(loading)
      ensures FormComplete(old(formData)) ==> SaveOutcome(saved, listed, old(editingTemplate), old(formData), old(templates), old(showDialog), old(loading), calls, toasts)
    {
      if !FormComplete(formData) {
        return [], [Api.Error("Please fill in all fields")];
      }
      calls, toasts := SaveForm(saved, listed);
    }

    /** The effect of a save that passed validation. */
    ghost predicate SaveOutcome(saved: Api.Reply<Template>, listed: Api.Reply<seq<Template>>,
                                editing: Option<Template>, form: TemplateForm, before: seq<Template>,
                                dialogBefore: bool, loadingBefore: bool,
                                calls: seq<Api.Call>, toasts: seq<Api.Toast>)
      reads this
    {
      && (saved.Err? ==>
            calls == [SaveCall(editing, form)] && toasts == [Api.Error("Failed to save template")]
            && formData == form && editingTemplate == editing && templates == before
            && showDialog == dialogBefore && loading == loadingBefore)
      && (saved.Ok? ==>
            calls == [SaveCall(editing, form), Api.ListTemplates]
            && toasts == [Api.Success(SavedMessage(editing))] + ListToasts(listed)
            && !showDialog && !loading && editingTemplate.None? && formData == EmptyTemplateForm
            && (listed.Ok? ==> templates == listed.value) && (listed.Err? ==> templates == before))
    }

    /**
     * The `try` block of `handleSave`: with a template being edited the form
     * updates it, otherwise it is created; success closes the dialog, resets
     * the form and re-fetches.
     */
    method SaveForm(saved: Api.Reply<Template>, listed: Api.Reply<seq<Template>>)
      returns (calls: seq<Api.Call>, toasts: seq<Api.Toast>)
      modifies this`templates, this`loading, this`showDialog, this`editingTemplate, this`formData, browser
      ensures SaveOutcome(saved, listed, old(editingTemplate), old(formData), old(templates), old(showDialog), old(loading), calls, toasts)
    {
      var message := SavedMessage(editingTemplate);
      calls := [SaveCall(editingTemplate, formData)];
      var r := Api.Settle(browser, saved);
      if r.Err? {
        return calls, [Api.Error("Failed to save template")];
      }
      showDialog := false;
      ResetForm();
      var listCall, listToasts := FetchTemplates(listed);
      calls := calls + [listCall];
      toasts := [Api.Success(message)] + listToasts;
    }

    /** `handleDelete`: only a confirmed, successful delete removes the template locally. */
    method HandleDelete(id: Id, confirmed: bool, deleted: Api.Reply<()>)
      returns (calls: seq<Api.Call>, toast: Option<Api.Toast>)
      modifies this`templates, browser
      ensures !confirmed ==> calls == [] && toast.None? && templates == old(templates)
      ensures confirmed ==> calls == [Api.DeleteTemplate(id)]
      ensures confirmed && deleted.Ok? ==>
                templates == WithoutTemplate(old(templates), id) && toast == Some(Api.Success("Template deleted"))
      ensures confirmed && deleted.Err? ==>
                templates == old(templates) && toast == Some(Api.Error("Failed to delete template"))
    {
      if !confirmed {
        return [], None;
      }
      calls := [Api.DeleteTemplate(id)];
      var r := Api.Settle(browser, deleted);
      if r.Ok? {
        templates := WithoutTemplate(templates, id);
        toast := Some(Api.Success("Template deleted"));
      } else {
        toast := Some(Api.Error("Failed to delete template"));
      }
    }
  }
}
