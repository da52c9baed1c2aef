/**
 * The documents of the lead store and the request bodies that create or
 * change them (the pydantic models of backend/server.py), with the
 * partial-update rule `{k: v for k, v in data.items() if v is not None}`.
 * JSON `null` and an absent key are both `None`.
 */
module Records {
  import opened Wrappers

  /** Record identifiers (uuid4 strings). */
  type Id = string

  /** ISO-8601 UTC instants; each is a number here, ordered as the strings are. */
  type Timestamp = nat

  datatype HttpError = HttpError(code: nat, detail: string)

  const MissingFieldError := HttpError(422, "field required")

  /** A document of the `users` collection. The password is kept as the opaque value bcrypt would hash. */
  datatype Account = Account(id: Id, email: string, name: string, password: string, createdAt: Timestamp)

  /** `UserResponse`: what the client sees of an account. */
  datatype Profile = Profile(id: Id, email: string, name: string, createdAt: Timestamp)

  /** `TokenResponse`: the reply to register and login. */
  datatype TokenResponse = TokenResponse(token: string, user: Profile)

  function ProfileOf(a: Account): (p: Profile)
    ensures p.id == a.id && p.email == a.email && p.name == a.name && p.createdAt == a.createdAt
  {
    Profile(a.id, a.email, a.name, a.createdAt)
  }

  datatype Lead = Lead(
    id: Id,
    companyName: string,
    industry: Option<string>,
    companySize: Option<string>,
    website: Option<string>,
    status: string,
    notes: Option<string>,
    qualificationScore: Option<int>,
    aiInsights: Option<string>,
    createdAt: Timestamp,
    updatedAt: Timestamp,
    userId: Id)

  /** The JSON body of a lead create or update request: every key optional. */
  datatype LeadFields = LeadFields(
    companyName: Option<string>,
    industry: Option<string>,
    companySize: Option<string>,
    website: Option<string>,
    status: Option<string>,
    notes: Option<string>,
    qualificationScore: Option<int>,
    aiInsights: Option<string>)

  const NoLeadFields := LeadFields(None, None, None, None, None, None, None, None)

  /** The default status of `LeadCreate`. */
  const DefaultStatus := "new"

  /** A non-null supplied value replaces the current one; `None` keeps it. */
  function Override<T>(current: T, supplied: Option<T>): T {
    if supplied.Some? then supplied.value else current
  }

  function OverrideOpt<T>(current: Option<T>, supplied: Option<T>): (r: Option<T>)
    ensures supplied.None? ==> r == current
    ensures supplied.Some? ==> r == supplied
  {
    if supplied.Some? then supplied else current
  }

  /**
   * The stored lead after `update_lead`: the supplied non-null fields
   * overwrite, everything else is kept, and `updated_at` is always the time
   * of the request.
   */
  function PatchLead(l: Lead, p: LeadFields, now: Timestamp): (r: Lead)
    ensures r.id == l.id && r.userId == l.userId && r.createdAt == l.createdAt
    ensures r.updatedAt == now
    ensures r.companyName == (if p.companyName.Some? then p.companyName.value else l.companyName)
    ensures r.status == (if p.status.Some? then p.status.value else l.status)
    ensures r.industry == (if p.industry.Some? then p.industry else l.industry)
    ensures r.companySize == (if p.companySize.Some? then p.companySize else l.companySize)
    ensures r.website == (if p.website.Some? then p.website else l.website)
    ensures r.notes == (if p.notes.Some? then p.notes else l.notes)
    ensures r.qualificationScore == (if p.qualificationScore.Some? then p.qualificationScore else l.qualificationScore)
    ensures r.aiInsights == (if p.aiInsights.Some? then p.aiInsights else l.aiInsights)
  {
    l.(companyName := Override(l.companyName, p.companyName),
       industry := OverrideOpt(l.industry, p.industry),
       companySize := OverrideOpt(l.companySize, p.companySize),
       website := OverrideOpt(l.website, p.website),
       status := Override(l.status, p.status),
       notes := OverrideOpt(l.notes, p.notes),
       qualificationScore := OverrideOpt(l.qualificationScore, p.qualificationScore),
       aiInsights := OverrideOpt(l.aiInsights, p.aiInsights),
       updatedAt := now)
  }

  /** An update carrying no non-null field changes nothing but `updated_at`. */
  lemma EmptyPatchOnlyTouches(l: Lead, now: Timestamp)
    ensures PatchLead(l, NoLeadFields, now) == l.(updatedAt := now)
  {
  }

  /** Sending null can never clear a stored value. */
  lemma NullCannotClear(l: Lead, p: LeadFields, now: Timestamp)
    ensures l.industry.Some? ==> PatchLead(l, p, now).industry.Some?
    ensures l.notes.Some? ==> PatchLead(l, p, now).notes.Some?
    ensures l.aiInsights.Some? ==> PatchLead(l, p, now).aiInsights.Some?
    ensures l.website.Some? ==> PatchLead(l, p, now).website.Some?
    ensures l.companySize.Some? ==> PatchLead(l, p, now).companySize.Some?
    ensures l.qualificationScore.Some? ==> PatchLead(l, p, now).qualificationScore.Some?
  {
  }

  /** Applying the same update twice is the same as applying it once at the later time. */
  lemma PatchIdempotent(l: Lead, p: LeadFields, t1: Timestamp, t2: Timestamp)
    ensures PatchLead(PatchLead(l, p, t1), p, t2) == PatchLead(l, p, t2)
  {
  }

  /** A status-only update, as the status selector sends it. */
  function StatusOnly(status: string): (f: LeadFields)
    ensures f.status == Some(status)
    ensures f == NoLeadFields.(status := Some(status))
  {
    NoLeadFields.(status := Some(status))
  }

  /** An `ai_insights`-only update, as the research handlers send it. */
  function InsightsOnly(text: string): (f: LeadFields)
    ensures f == NoLeadFields.(aiInsights := Some(text))
  {
    NoLeadFields.(aiInsights := Some(text))
  }

  /** A status-only update changes the status and `updated_at` and nothing else. */
  lemma StatusPatchChangesOnlyStatus(l: Lead, s: string, now: Timestamp)
    ensures PatchLead(l, StatusOnly(s), now) == l.(status := s, updatedAt := now)
  {
  }

  /**
   * The document `create_lead` inserts. `LeadCreate` has no `ai_insights`
   * key, so a supplied value is dropped; the status defaults to "new".
   */
  function NewLead(f: LeadFields, id: Id, uid: Id, now: Timestamp): (r: Result<Lead, HttpError>)
    ensures f.companyName.None? <==> r.Err?
    ensures r.Err? ==> r.error == MissingFieldError
    ensures r.Ok? ==> r.value.id == id && r.value.userId == uid
    ensures r.Ok? ==> r.value.companyName == f.companyName.value
    ensures r.Ok? ==> r.value.status == f.status.GetOr(DefaultStatus)
    ensures r.Ok? ==> r.value.aiInsights.None?
    ensures r.Ok? ==> r.value.createdAt == r.value.updatedAt == now
    ensures r.Ok? ==> r.value.industry == f.industry && r.value.companySize == f.companySize
                      && r.value.website == f.website && r.value.notes == f.notes
                      && r.value.qualificationScore == f.qualificationScore
  {
    match f.companyName
    case None => Err(MissingFieldError)
    case Some(name) =>
      Ok(Lead(id, name, f.industry, f.companySize, f.website, f.status.GetOr(DefaultStatus),
              f.notes, f.qualificationScore, None, now, now, uid))
  }

  /** Creating and then updating with the same body is what persists `ai_insights`. */
  lemma CreateThenUpdatePersistsInsights(f: LeadFields, id: Id, uid: Id, t1: Timestamp, t2: Timestamp, text: string)
    requires f.companyName.Some?
    ensures NewLead(f, id, uid, t1).value.aiInsights == None
    ensures PatchLead(NewLead(f, id, uid, t1).value, InsightsOnly(text), t2).aiInsights == Some(text)
  {
  }

  datatype Contact = Contact(
    id: Id,
    leadId: Id,
    name: string,
    title: Option<string>,
    email: Option<string>,
    phone: Option<string>,
    linkedin: Option<string>,
    notes: Option<string>,
    createdAt: Timestamp,
    userId: Id)

  /** The JSON body of a contact request. */
  datatype ContactFields = ContactFields(
    leadId: Option<Id>,
    name: Option<string>,
    title: Option<string>,
    email: Option<string>,
    phone: Option<string>,
    linkedin: Option<string>,
    notes: Option<string>)

  /** The contact document `create_contact` inserts; `lead_id` and `name` are required. */
  function NewContact(f: ContactFields, id: Id, uid: Id, now: Timestamp): (r: Result<Contact, HttpError>)
    ensures (f.leadId.None? || f.name.None?) <==> r.Err?
    ensures r.Ok? ==> r.value.id == id && r.value.userId == uid && r.value.createdAt == now
    ensures r.Ok? ==> r.value.leadId == f.leadId.value && r.value.name == f.name.value
    ensures r.Ok? ==> r.value.title == f.title && r.value.email == f.email && r.value.phone == f.phone
                      && r.value.linkedin == f.linkedin && r.value.notes == f.notes
  {
    if f.leadId.None? || f.name.None? then Err(MissingFieldError)
    else Ok(Contact(id, f.leadId.value, f.name.value, f.title, f.email, f.phone, f.linkedin, f.notes, now, uid))
  }

  /** `update_contact`: supplied non-null fields overwrite; `lead_id` is not an updatable field. */
  function PatchContact(c: Contact, p: ContactFields): (r: Contact)
    ensures r.id == c.id && r.leadId == c.leadId && r.userId == c.userId && r.createdAt == c.createdAt
    ensures r.name == (if p.name.Some? then p.name.value else c.name)
    ensures r.title == (if p.title.Some? then p.title else c.title)
    ensures r.email == (if p.email.Some? then p.email else c.email)
    ensures r.phone == (if p.phone.Some? then p.phone else c.phone)
    ensures r.linkedin == (if p.linkedin.Some? then p.linkedin else c.linkedin)
    ensures r.notes == (if p.notes.Some? then p.notes else c.notes)
  {
    c.(name := Override(c.name, p.name),
       title := OverrideOpt(c.title, p.title),
       email := OverrideOpt(c.email, p.email),
       phone := OverrideOpt(c.phone, p.phone),
       linkedin := OverrideOpt(c.linkedin, p.linkedin),
       notes := OverrideOpt(c.notes, p.notes))
  }

  datatype Template = Template(
    id: Id,
    name: string,
    subject: string,
    body: string,
    category: string,
    createdAt: Timestamp,
    userId: Id)

  datatype TemplateFields = TemplateFields(
    name: Option<string>,
    subject: Option<string>,
    body: Option<string>,
    category: Option<string>)

  /** The default category of `TemplateCreate`. */
  const DefaultCategory := "outreach"

  function NewTemplate(f: TemplateFields, id: Id, uid: Id, now: Timestamp): (r: Result<Template, HttpError>)
    ensures (f.name.None? || f.subject.None? || f.body.None?) <==> r.Err?
    ensures r.Ok? ==> r.value.id == id && r.value.userId == uid && r.value.createdAt == now
    ensures r.Ok? ==> r.value.name == f.name.value && r.value.subject == f.subject.value
                      && r.value.body == f.body.value
    ensures r.Ok? ==> r.value.category == f.category.GetOr(DefaultCategory)
  {
    if f.name.None? || f.subject.None? || f.body.None? then Err(MissingFieldError)
    else Ok(Template(id, f.name.value, f.subject.value, f.body.value, f.category.GetOr(DefaultCategory), now, uid))
  }

  /** `update_template`: supplied non-null fields overwrite, the others are kept. */
  function PatchTemplate(t: Template, p: TemplateFields): (r: Template)
    ensures r.id == t.id && r.userId == t.userId && r.createdAt == t.createdAt
    ensures r.name == (if p.name.Some? then p.name.value else t.name)
    ensures r.subject == (if p.subject.Some? then p.subject.value else t.subject)
    ensures r.body == (if p.body.Some? then p.body.value else t.body)
    ensures r.category == (if p.category.Some? then p.category.value else t.category)
  {
    t.(name := Override(t.name, p.name),
       subject := Override(t.subject, p.subject),
       body := Override(t.body, p.body),
       category := Override(t.category, p.category))
  }
}
