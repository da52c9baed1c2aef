/**
 * The HTTP client (frontend/src/lib/api.js): the browser storage it reads
 * and clears, its request and response interceptors, and the URLs and query
 * parameters its resource helpers build. Transport is not modelled: an
 * awaited call is a `Reply` the caller supplies.
 */
module Api {
  import opened Wrappers
  import opened Records
  import Text

  /**
   * A rejected request: the HTTP status and the backend's `detail` when a
   * response arrived, and axios's `error.message` always.
   */
  datatype Failure = Failure(status: Option<nat>, detail: Option<string>, message: string)

  /** The settled outcome of an awaited request. */
  type Reply<T> = Result<T, Failure>

  const Unauthorized := 401

  /** `localStorage` (`token`, `user`) and `window.location.href`. */
  class Browser {
    var token: Option<string>
    var savedUser: Option<Profile>
    var location: string

    constructor (token: Option<string>, savedUser: Option<Profile>, location: string)
      ensures this.token == token && this.savedUser == savedUser && this.location == location
    {
      this.token, this.savedUser, this.location := token, savedUser, location;
    }

    /** `removeItem('token')`, `removeItem('user')`. */
    method ClearSession()
      modifies this`token, this`savedUser
      ensures token.None? && savedUser.None?
    {
      token := None;
      savedUser := None;
    }
  }

  /** The outgoing request's header map. */
  class RequestConfig {
    var headers: map<string, string>

    constructor (headers: map<string, string>)
      ensures this.headers == headers
    {
      this.headers := headers;
    }
  }

  const AuthorizationHeader := "Authorization"
  const BearerPrefix := "Bearer "

  /** The request interceptor: a stored, non-empty token becomes a bearer header. */
  method InterceptRequest(browser: Browser, config: RequestConfig)
    modifies config
    ensures Text.Truthy(browser.token) ==>
              config.headers == old(config.headers)[AuthorizationHeader := BearerPrefix + browser.token.value]
    ensures !Text.Truthy(browser.token) ==> config.headers == old(config.headers)
  {
    var token := browser.token;
    if Text.Truthy(token) {
      config.headers := config.headers[AuthorizationHeader := BearerPrefix + token.value];
    }
  }

  /**
   * The response interceptor's error branch: a 401 clears the session and
   * sends the browser to /login; every failure is still rejected unchanged.
   */
  method InterceptFailure(browser: Browser, f: Failure) returns (rejected: Failure)
    modifies browser
    ensures rejected == f
    ensures f.status == Some(Unauthorized) ==>
              browser.token.None? && browser.savedUser.None? && browser.location == "/login"
    ensures f.status != Some(Unauthorized) ==>
              browser.token == old(browser.token) && browser.savedUser == old(browser.savedUser)
              && browser.location == old(browser.location)
  {
    if f.status == Some(Unauthorized) {
      browser.ClearSession();
      browser.location := "/login";
    }
    rejected := f;
  }

  /** An awaited call as its caller sees it: successes pass through, failures go through the interceptor. */
  method Settle<T>(browser: Browser, reply: Reply<T>) returns (r: Reply<T>)
    modifies browser
    ensures r == reply
    ensures reply.Err? && reply.error.status == Some(Unauthorized) ==>
              browser.token.None? && browser.savedUser.None? && browser.location == "/login"
    ensures !(reply.Err? && reply.error.status == Some(Unauthorized)) ==>
              browser.token == old(browser.token) && browser.savedUser == old(browser.savedUser)
              && browser.location == old(browser.location)
  {
    r := reply;
    if reply.Err? {
      var f := InterceptFailure(browser, reply.error);
    }
  }

  /** The requests the pages send, with the JSON body or arguments each carries. */
  datatype Call =
    | RegisterUser(name: string, email: string, password: string)
    | LoginUser(email: string, password: string)
    | GetMe
    | CreateLead(lead: LeadFields)
    | ListLeads(status: Option<string>)
    | GetLead(id: Id)
    | UpdateLead(id: Id, lead: LeadFields)
    | DeleteLead(id: Id)
    | CreateContact(contact: ContactFields)
    | ListContacts(ofLead: Option<Id>)
    | DeleteContact(id: Id)
    | ListTemplates
    | CreateTemplate(template: TemplateFields)
    | UpdateTemplate(id: Id, template: TemplateFields)
    | DeleteTemplate(id: Id)
    | ResearchCompany(companyName: string, industry: Option<string>, additionalContext: Option<string>)
    | DiscoverContacts(companyName: string)
    | GenerateEmail(leadId: Id, templateId: Option<Id>)

  datatype Verb = GET | POST | PUT | DELETE

  /** The method, URL (relative to the API base) and query parameters of a call. */
  datatype HttpRequest = HttpRequest(verb: Verb, url: string, params: map<string, string>)

  /** The resource helpers of api.js. */
  function RequestOf(c: Call): (r: HttpRequest)
    ensures c.GetLead? || c.UpdateLead? || c.DeleteLead? ==> r.url == ItemPath(LeadsRoot, c.id) && r.params == map[]
    ensures c.DeleteContact? ==> r.url == ItemPath(ContactsRoot, c.id)
    ensures c.UpdateTemplate? || c.DeleteTemplate? ==> r.url == ItemPath(TemplatesRoot, c.id)
    ensures c.ListLeads? ==> r == HttpRequest(GET, "/leads", LeadListParams(c.status))
    ensures c.ListContacts? ==> r == HttpRequest(GET, "/contacts", ContactListParams(c.ofLead))
    ensures c.GenerateEmail? ==> r == HttpRequest(POST, GenerateEmailUrl(c.leadId, c.templateId), map[])
  {
    match c
    case RegisterUser(_, _, _) => HttpRequest(POST, "/auth/register", map[])
    case LoginUser(_, _) => HttpRequest(POST, "/auth/login", map[])
    case GetMe => HttpRequest(GET, "/auth/me", map[])
    case CreateLead(_) => HttpRequest(POST, "/leads", map[])
    case ListLeads(status) => HttpRequest(GET, "/leads", LeadListParams(status))
    case GetLead(id) => HttpRequest(GET, ItemPath(LeadsRoot, id), map[])
    case UpdateLead(id, _) => HttpRequest(PUT, ItemPath(LeadsRoot, id), map[])
    case DeleteLead(id) => HttpRequest(DELETE, ItemPath(LeadsRoot, id), map[])
    case CreateContact(_) => HttpRequest(POST, "/contacts", map[])
    case ListContacts(leadId) => HttpRequest(GET, "/contacts", ContactListParams(leadId))
    case DeleteContact(id) => HttpRequest(DELETE, ItemPath(ContactsRoot, id), map[])
    case ListTemplates => HttpRequest(GET, "/templates", map[])
    case CreateTemplate(_) => HttpRequest(POST, "/templates", map[])
    case UpdateTemplate(id, _) => HttpRequest(PUT, ItemPath(TemplatesRoot, id), map[])
    case DeleteTemplate(id) => HttpRequest(DELETE, ItemPath(TemplatesRoot, id), map[])
    case ResearchCompany(_, _, _) => HttpRequest(POST, "/ai/research", map[])
    case DiscoverContacts(_) => HttpRequest(POST, "/ai/discover-contacts", map[])
    case GenerateEmail(leadId, templateId) => HttpRequest(POST, GenerateEmailUrl(leadId, templateId), map[])
  }

  /** The lead item calls address the lead they name, and only the verb tells them apart. */
  lemma LeadItemCallsTargetTheLead(id: Id, body: LeadFields)
    ensures ItemId(LeadsRoot, RequestOf(GetLead(id)).url) == Some(id)
    ensures RequestOf(GetLead(id)).url == RequestOf(UpdateLead(id, body)).url == RequestOf(DeleteLead(id)).url
    ensures RequestOf(GetLead(id)).verb == GET && RequestOf(UpdateLead(id, body)).verb == PUT
            && RequestOf(DeleteLead(id)).verb == DELETE
  {
    ItemPathRoundTrip(LeadsRoot, id, id);
  }

  // ---------- resource paths and query parameters ----------

  const LeadsRoot := "/leads/"
  const ContactsRoot := "/contacts/"
  const TemplatesRoot := "/templates/"

  /** `/leads/${id}`, `/contacts/${id}`, `/templates/${id}`. */
  function ItemPath(root: string, id: Id): (p: string)
    ensures root <= p && |p| == |root| + |id|
  {
    root + id
  }

  /** The id a resource path names, when it lies under `root`. */
  function ItemId(root: string, path: string): (r: Option<Id>)
    ensures r.Some? <==> root <= path
  {
    if root <= path then Some(path[|root|..]) else None
  }

  /** Each item path names exactly its id, so different ids give different paths. */
  lemma ItemPathRoundTrip(root: string, id: Id, other: Id)
    ensures ItemId(root, ItemPath(root, id)) == Some(id)
    ensures id != other ==> ItemPath(root, id) != ItemPath(root, other)
  {
    assert (root + id)[|root|..] == id;
    if ItemPath(root, id) == ItemPath(root, other) {
      assert (root + other)[|root|..] == other;
    }
  }

  /**
   * axios `params`: a key whose value is `undefined` is left out of the
   * query, any other value (the empty string included) is sent.
   */
  function QueryParam(key: string, value: Option<string>): (m: map<string, string>)
    ensures key in m <==> value.Some?
    ensures value.Some? ==> m[key] == value.value
    ensures forall k :: k in m ==> k == key
  {
    if value.Some? then map[key := value.value] else map[]
  }

  /** `leadsAPI.getAll(status)`. */
  function LeadListParams(status: Option<string>): (m: map<string, string>)
    ensures "status" in m <==> status.Some?
    ensures status.Some? ==> m["status"] == status.value
    ensures forall k :: k in m ==> k == "status"
  {
    QueryParam("status", status)
  }

  /** `contactsAPI.getAll(leadId)`. */
  function ContactListParams(leadId: Option<Id>): (m: map<string, string>)
    ensures "lead_id" in m <==> leadId.Some?
    ensures leadId.Some? ==> m["lead_id"] == leadId.value
    ensures forall k :: k in m ==> k == "lead_id"
  {
    QueryParam("lead_id", leadId)
  }

  const GenerateEmailBase := "/ai/generate-email?lead_id="
  const TemplateIdArg := "&template_id="

  /** `aiAPI.generateEmail(leadId, templateId)`: the template argument only when it is truthy. */
  function GenerateEmailUrl(leadId: Id, templateId: Option<Id>): (url: string)
    ensures GenerateEmailBase + leadId <= url
    ensures Text.Truthy(templateId) <==> |url| > |GenerateEmailBase + leadId|
  {
    GenerateEmailBase + leadId + (if Text.Truthy(templateId) then TemplateIdArg + templateId.value else "")
  }

  /** How the backend reads the query: `lead_id` up to the first '&', then an optional `template_id`. */
  function ParseGenerateEmailUrl(url: string): Option<(Id, Option<Id>)> {
    if !(GenerateEmailBase <= url) then None
    else
      var rest := url[|GenerateEmailBase|..];
      var k := Text.IndexOfChar(rest, '&');
      var tail := rest[k..];
      if tail == [] then Some((rest[..k], None))
      else if TemplateIdArg <= tail then Some((rest[..k], Some(tail[|TemplateIdArg|..])))
      else None
  }

  /**
   * The URL carries the lead id and, exactly when it is truthy, the
   * template id: an id without '&' reads back unchanged.
   */
  lemma GenerateEmailUrlRoundTrip(leadId: Id, templateId: Option<Id>)
    requires forall i :: 0 <= i < |leadId| ==> leadId[i] != '&'
    ensures ParseGenerateEmailUrl(GenerateEmailUrl(leadId, templateId))
              == Some((leadId, if Text.Truthy(templateId) then templateId else None))
  {
    var url := GenerateEmailUrl(leadId, templateId);
    var suffix := if Text.Truthy(templateId) then TemplateIdArg + templateId.value else "";
    assert url == GenerateEmailBase + (leadId + suffix);
    var rest := url[|GenerateEmailBase|..];
    assert rest == leadId + suffix;
    Text.IndexOfCharAfter(leadId, '&', suffix);
    assert rest[..|leadId|] == leadId;
    assert rest[|leadId|..] == suffix;
    if Text.Truthy(templateId) {
      assert suffix[|TemplateIdArg|..] == templateId.value;
    }
  }

  /** The message a page shows for a failure: the backend's `detail` when present, else its own text. */
  function DetailOr(f: Failure, fallback: string): (msg: string)
    ensures f.detail.Some? && f.detail.value != "" ==> msg == f.detail.value
    ensures f.detail.None? || f.detail.value == "" ==> msg == fallback
  {
    if Text.Truthy(f.detail) then f.detail.value else fallback
  }

  /** `error.response?.data?.detail || error.message`. */
  function DetailOrMessage(f: Failure): (msg: string)
    ensures Text.Truthy(f.detail) ==> msg == f.detail.value
    ensures !Text.Truthy(f.detail) ==> msg == f.message
  {
    DetailOr(f, f.message)
  }

  /** The toasts the pages raise. */
  datatype Toast = Success(text: string) | Error(text: string)
}
