/**
 * The backend's record store (backend/server.py): the `users`, `leads`,
 * `contacts` and `templates` collections, every route scoped by the
 * authenticated caller's id, ownership-checked lookups answering 404, the
 * lead delete that cascades to the lead's contacts, and the checks around the
 * language-model routes. MongoDB collections are sequences of documents in
 * insertion order; uuid4 values and the clock are parameters.
 */
module Backend {
  import opened Wrappers
  import opened Records
  import Seqs
  import Text
  import Stats
  import Seed

  const NotFoundLead := HttpError(404, "Lead not found")
  const NotFoundContact := HttpError(404, "Contact not found")
  const NotFoundTemplate := HttpError(404, "Template not found")
  const EmailTaken := HttpError(400, "Email already registered")
  const BadCredentials := HttpError(401, "Invalid credentials")
  const NoSuchUser := HttpError(401, "User not found")
  const TokenExpired := HttpError(401, "Token expired")
  const TokenInvalid := HttpError(401, "Invalid token")
  const KeyMissing := HttpError(500, "LLM API key not configured")

  /** The limits of `to_list(...)` on the list routes. */
  const LeadListLimit := 1000
  const ContactListLimit := 1000
  const TemplateListLimit := 100

  /** What decoding the bearer token yields (JWT signature and expiry checks are not modelled). */
  datatype Credential = Signed(userId: Id) | Expired | Malformed

  // ---------- ordering of `GET /leads` ----------

  /** `sort("updated_at", -1)`: most recently updated first. */
  ghost predicate NewestFirst(s: seq<Lead>) {
    forall i, j :: 0 <= i < j < |s| ==> s[i].updatedAt >= s[j].updatedAt
  }

  function InsertByUpdate(l: Lead, s: seq<Lead>): seq<Lead> {
    if s == [] || l.updatedAt >= s[0].updatedAt then [l] + s
    else [s[0]] + InsertByUpdate(l, s[1..])
  }

  function SortNewestFirst(s: seq<Lead>): seq<Lead> {
    if s == [] then [] else InsertByUpdate(s[0], SortNewestFirst(s[1..]))
  }

  lemma {:induction false} InsertMembers(l: Lead, s: seq<Lead>)
    ensures multiset(InsertByUpdate(l, s)) == multiset(s) + multiset{l}
    ensures |InsertByUpdate(l, s)| == |s| + 1
  {
    if s != [] && l.updatedAt < s[0].updatedAt {
      InsertMembers(l, s[1..]);
      assert s == [s[0]] + s[1..];
    }
  }

  /** Every element after the head of a newest-first sequence is no newer than the head. */
  lemma HeadIsNewest(s: seq<Lead>)
    requires NewestFirst(s) && s != []
    ensures forall x :: x in s[1..] ==> x.updatedAt <= s[0].updatedAt
  {
    forall x | x in s[1..] ensures x.updatedAt <= s[0].updatedAt {
      var k :| 0 <= k < |s[1..]| && s[1..][k] == x;
      assert s[k + 1] == x;
    }
  }

  lemma {:induction false} InsertSorted(l: Lead, s: seq<Lead>)
    requires NewestFirst(s)
    ensures NewestFirst(InsertByUpdate(l, s))
  {
    if s != [] && l.updatedAt < s[0].updatedAt {
      var rest := InsertByUpdate(l, s[1..]);
      InsertSorted(l, s[1..]);
      InsertMembers(l, s[1..]);
      HeadIsNewest(s);
      var r := [s[0]] + rest;
      forall j | 0 < j < |r| ensures r[0].updatedAt >= r[j].updatedAt {
        assert r[j] in multiset(s[1..]) + multiset{l};
      }
      forall i, j | 0 <= i < j < |r| ensures r[i].updatedAt >= r[j].updatedAt {
        if i > 0 {
          assert r[i] == rest[i - 1] && r[j] == rest[j - 1];
        }
      }
    }
  }

  /** The sort orders newest first and is a permutation of its input. */
  lemma {:induction false} SortFacts(s: seq<Lead>)
    ensures NewestFirst(SortNewestFirst(s))
    ensures multiset(SortNewestFirst(s)) == multiset(s)
    ensures |SortNewestFirst(s)| == |s|
  {
    if s != [] {
      SortFacts(s[1..]);
      InsertMembers(s[0], SortNewestFirst(s[1..]));
      InsertSorted(s[0], SortNewestFirst(s[1..]));
      assert s == [s[0]] + s[1..];
    }
  }

  // ---------- predicates on documents ----------

  predicate OwnedLead(l: Lead, uid: Id, id: Id) { l.id == id && l.userId == uid }
  predicate OwnedContact(c: Contact, uid: Id, id: Id) { c.id == id && c.userId == uid }
  predicate OwnedTemplate(t: Template, uid: Id, id: Id) { t.id == id && t.userId == uid }

  /** The list filter of `GET /leads`: the caller's leads, and only `status` when it is truthy. */
  predicate LeadListed(l: Lead, uid: Id, status: Option<string>) {
    l.userId == uid && (Text.Truthy(status) ==> l.status == status.value)
  }

  /** The list filter of `GET /contacts`: the caller's contacts, and only `lead_id` when it is truthy. */
  predicate ContactListed(c: Contact, uid: Id, leadId: Option<Id>) {
    c.userId == uid && (Text.Truthy(leadId) ==> c.leadId == leadId.value)
  }

  function LeadIndex(leads: seq<Lead>, uid: Id, id: Id): Option<nat> {
    Seqs.FirstIndex(leads, (l: Lead) => OwnedLead(l, uid, id))
  }

  function ContactIndex(contacts: seq<Contact>, uid: Id, id: Id): Option<nat> {
    Seqs.FirstIndex(contacts, (c: Contact) => OwnedContact(c, uid, id))
  }

  function TemplateIndex(templates: seq<Template>, uid: Id, id: Id): Option<nat> {
    Seqs.FirstIndex(templates, (t: Template) => OwnedTemplate(t, uid, id))
  }

  /** `find_one({"id": lead_id, "user_id": uid})` answered as the route answers it. */
  function FindOwnedLead(leads: seq<Lead>, uid: Id, id: Id): (r: Result<Lead, HttpError>)
    ensures r.Ok? <==> exists i :: 0 <= i < |leads| && OwnedLead(leads[i], uid, id)
    ensures r.Ok? ==> r.value in leads && r.value.id == id && r.value.userId == uid
    ensures r.Err? ==> r.error == NotFoundLead
  {
    match LeadIndex(leads, uid, id)
    case Some(i) => Ok(leads[i])
    case None => Err(NotFoundLead)
  }

  /** The contacts that survive deleting lead `id`: `delete_many({"lead_id": id})`. */
  function CascadeContacts(contacts: seq<Contact>, id: Id): (r: seq<Contact>)
    ensures forall c :: c in r <==> c in contacts && c.leadId != id
  {
    Seqs.Filter(contacts, (c: Contact) => c.leadId != id)
  }

  /** The cascade removes every contact of the deleted lead and keeps all others in order. */
  lemma CascadeKeepsOrder(contacts: seq<Contact>, id: Id)
    ensures Seqs.IsSubsequence(CascadeContacts(contacts, id), contacts)
    ensures forall i :: 0 <= i < |contacts| && contacts[i].leadId != id ==> contacts[i] in CascadeContacts(contacts, id)
  {
    Seqs.FilterIsSubsequence(contacts, (c: Contact) => c.leadId != id);
  }

  /** `GET /leads`: the caller's leads (narrowed by status), newest first, at most 1000. */
  function ListLeads(leads: seq<Lead>, uid: Id, status: Option<string>): (r: seq<Lead>)
    ensures |r| <= LeadListLimit
    ensures forall l :: l in r ==> l in leads && LeadListed(l, uid, status)
    ensures NewestFirst(r)
    ensures var matching := Seqs.Filter(leads, (l: Lead) => LeadListed(l, uid, status));
            |r| == (if |matching| <= LeadListLimit then |matching| else LeadListLimit)
            && multiset(r) <= multiset(matching)
            && (|matching| <= LeadListLimit ==> multiset(r) == multiset(matching))
            && (forall x, y :: x in r && y in matching && y !in r ==> y.updatedAt <= x.updatedAt)
  {
    var matching := Seqs.Filter(leads, (l: Lead) => LeadListed(l, uid, status));
    SortFacts(matching);
    var sorted := SortNewestFirst(matching);
    var r := Seqs.Take(sorted, LeadListLimit);
    TakeOfSortedKeepsNewest(matching, sorted, r);
    r
  }

  /**
   * A prefix of a newest-first arrangement of `matching` holds part of it,
   * and every lead left out is no newer than any lead kept.
   */
  lemma TakeOfSortedKeepsNewest(matching: seq<Lead>, sorted: seq<Lead>, r: seq<Lead>)
    requires NewestFirst(sorted) && multiset(sorted) == multiset(matching) && r <= sorted
    ensures multiset(r) <= multiset(matching)
    ensures |r| == |sorted| ==> multiset(r) == multiset(matching)
    ensures forall l :: l in r ==> l in matching
    ensures forall x, y :: x in r && y in matching && y !in r ==> y.updatedAt <= x.updatedAt
  {
    assert sorted == r + sorted[|r|..];
    assert multiset(sorted) == multiset(r) + multiset(sorted[|r|..]);
    forall l | l in r ensures l in matching {
      assert l in multiset(r);
      assert l in multiset(matching);
    }
    forall x, y | x in r && y in matching && y !in r ensures y.updatedAt <= x.updatedAt {
      var i :| 0 <= i < |r| && r[i] == x;
      assert y in multiset(sorted);
      var j :| 0 <= j < |sorted| && sorted[j] == y;
      assert sorted[i] == x;
    }
  }

  /** The caller's leads in store order, as `$match` passes them to `$group`. */
  function OwnedLeads(leads: seq<Lead>, uid: Id): (r: seq<Lead>)
    ensures forall l :: l in r <==> l in leads && l.userId == uid
  {
    Seqs.Filter(leads, (l: Lead) => l.userId == uid)
  }

  /** `GET /leads/stats/summary` */
  function LeadStatsFor(leads: seq<Lead>, uid: Id): (st: Stats.LeadStats)
    ensures st.total == |OwnedLeads(leads, uid)|
    ensures st.newCount == Stats.Occurrences(Stats.StatusesOf(OwnedLeads(leads, uid)), "new")
    ensures st.contacted == Stats.Occurrences(Stats.StatusesOf(OwnedLeads(leads, uid)), "contacted")
    ensures st.qualified == Stats.Occurrences(Stats.StatusesOf(OwnedLeads(leads, uid)), "qualified")
    ensures st.proposal == Stats.Occurrences(Stats.StatusesOf(OwnedLeads(leads, uid)), "proposal")
    ensures st.won == Stats.Occurrences(Stats.StatusesOf(OwnedLeads(leads, uid)), "won")
    ensures st.lost == Stats.Occurrences(Stats.StatusesOf(OwnedLeads(leads, uid)), "lost")
    ensures st.total >= Stats.NamedSum(st)
  {
    var owned := OwnedLeads(leads, uid);
    Stats.SummarizeCounts(owned);
    Stats.TotalVersusNamed(owned);
    Stats.Summarize(owned)
  }

  /** `GET /contacts`: the caller's contacts (narrowed by lead), in store order, at most 1000. */
  function ListContacts(contacts: seq<Contact>, uid: Id, leadId: Option<Id>): (r: seq<Contact>)
    ensures |r| <= ContactListLimit
    ensures forall c :: c in r ==> c in contacts && ContactListed(c, uid, leadId)
    ensures var matching := Seqs.Filter(contacts, (c: Contact) => ContactListed(c, uid, leadId));
            r <= matching && |r| == (if |matching| <= ContactListLimit then |matching| else ContactListLimit)
  {
    Seqs.Take(Seqs.Filter(contacts, (c: Contact) => ContactListed(c, uid, leadId)), ContactListLimit)
  }

  /** `GET /templates`: the caller's templates, in store order, at most 100. */
  function ListTemplates(templates: seq<Template>, uid: Id): (r: seq<Template>)
    ensures |r| <= TemplateListLimit
    ensures forall t :: t in r ==> t in templates && t.userId == uid
    ensures var matching := Seqs.Filter(templates, (t: Template) => t.userId == uid);
            r <= matching && |r| == (if |matching| <= TemplateListLimit then |matching| else TemplateListLimit)
  {
    Seqs.Take(Seqs.Filter(templates, (t: Template) => t.userId == uid), TemplateListLimit)
  }

  // ---------- the language-model routes (model output is a parameter) ----------

  /**
   * `POST /ai/research` and `POST /ai/discover-contacts`: 500 when no key is
   * configured; otherwise the model's text, or 500 with `prefix + error`.
   */
  function AskModel(keyConfigured: bool, prefix: string, model: Result<string, string>): (r: Result<string, HttpError>)
    ensures !keyConfigured ==> r == Err(KeyMissing)
    ensures keyConfigured && model.Ok? ==> r == Ok(model.value)
    ensures keyConfigured && model.Err? ==> r == Err(HttpError(500, prefix + model.error))
  {
    if !keyConfigured then Err(KeyMissing)
    else match model
      case Ok(text) => Ok(text)
      case Err(e) => Err(HttpError(500, prefix + e))
  }

  const ResearchFailed := "AI research failed: "
  const DiscoveryFailed := "AI contact discovery failed: "
  const EmailFailed := "AI email generation failed: "

  class Store {
    var accounts: seq<Account>
    var leads: seq<Lead>
    var contacts: seq<Contact>
    var templates: seq<Template>

    /** uuid4 identifiers never collide within a collection. */
    ghost predicate Valid()
      reads this
    {
      && Seqs.UniqueBy(accounts, (a: Account) => a.id)
      && Seqs.UniqueBy(accounts, (a: Account) => a.email)
      && Seqs.UniqueBy(leads, (l: Lead) => l.id)
      && Seqs.UniqueBy(contacts, (c: Contact) => c.id)
      && Seqs.UniqueBy(templates, (t: Template) => t.id)
    }

    ghost predicate LeadIdFree(id: Id) reads this { forall l :: l in leads ==> l.id != id }
    ghost predicate ContactIdFree(id: Id) reads this { forall c :: c in contacts ==> c.id != id }
    ghost predicate TemplateIdFree(id: Id) reads this { forall t :: t in templates ==> t.id != id }
    ghost predicate AccountIdFree(id: Id) reads this { forall a :: a in accounts ==> a.id != id }

    constructor ()
      ensures Valid()
      ensures accounts == [] && leads == [] && contacts == [] && templates == []
    {
      accounts, leads, contacts, templates := [], [], [], [];
    }

    // ---------- authentication ----------

    /** `get_current_user`: the account behind a decoded token, or 401. */
    function Authenticate(cred: Credential): (r: Result<Account, HttpError>)
      reads this
      ensures r.Ok? ==> cred.Signed? && r.value in accounts && r.value.id == cred.userId
      ensures r.Err? ==> r.error.code == 401
      ensures cred.Signed? && r.Err? ==> forall a :: a in accounts ==> a.id != cred.userId
    {
      match cred
      case Expired => Err(TokenExpired)
      case Malformed => Err(TokenInvalid)
      case Signed(uid) =>
        match Seqs.First(accounts, (a: Account) => a.id == uid)
        case Some(a) => Ok(a)
        case None => Err(NoSuchUser)
    }

    /**
     * `POST /auth/login`: the account with this email gets a token when the
     * password matches; every other attempt is 401.
     */
    function Login(email: string, password: string, token: string): (r: Result<TokenResponse, HttpError>)
      requires Valid()
      reads this
      ensures forall a :: a in accounts && a.email == email && a.password == password ==>
                r == Ok(TokenResponse(token, ProfileOf(a)))
      ensures r.Ok? ==> exists a :: a in accounts && a.email == email && a.password == password
                                    && r.value == TokenResponse(token, ProfileOf(a))
      ensures r.Err? ==> r.error == BadCredentials
      ensures (forall a :: a in accounts ==> a.email != email) ==> r.Err?
    {
      Seqs.UniqueKeyIdentifies(accounts, (a: Account) => a.email);
      match Seqs.First(accounts, (a: Account) => a.email == email)
      case Some(a) => if a.password == password then Ok(TokenResponse(token, ProfileOf(a))) else Err(BadCredentials)
      case None => Err(BadCredentials)
    }

    /** `POST /auth/register`: 400 when the email is taken; otherwise a new account and its token. */
    method Register(email: string, password: string, name: string, freshId: Id, now: Timestamp, token: string)
      returns (r: Result<TokenResponse, HttpError>)
      requires Valid() && AccountIdFree(freshId)
      modifies this
      ensures Valid()
      ensures leads == old(leads) && contacts == old(contacts) && templates == old(templates)
      ensures (exists a :: a in old(accounts) && a.email == email) ==>
                r == Err(EmailTaken) && accounts == old(accounts)
      ensures (forall a :: a in old(accounts) ==> a.email != email) ==>
                accounts == old(accounts) + [Account(freshId, email, name, password, now)]
                && r == Ok(TokenResponse(token, Profile(freshId, email, name, now)))
    {
      if Seqs.First(accounts, (a: Account) => a.email == email).Some? {
        return Err(EmailTaken);
      }
      var acct := Account(freshId, email, name, password, now);
      assert forall y :: y in accounts ==> y.email != email by {
        forall y | y in accounts ensures y.email != email {
          var i :| 0 <= i < |accounts| && accounts[i] == y;
        }
      }
      Seqs.AppendKeepsUnique(accounts, acct, (a: Account) => a.email);
      Seqs.AppendKeepsUnique(accounts, acct, (a: Account) => a.id);
      accounts := accounts + [acct];
      r := Ok(TokenResponse(token, ProfileOf(acct)));
    }

    // ---------- leads ----------

    /** `POST /leads` */
    method CreateLead(uid: Id, body: LeadFields, freshId: Id, now: Timestamp) returns (r: Result<Lead, HttpError>)
      requires Valid() && LeadIdFree(freshId)
      modifies this`leads
      ensures Valid()
      ensures r == NewLead(body, freshId, uid, now)
      ensures leads == if r.Ok? then old(leads) + [r.value] else old(leads)
    {
      r := NewLead(body, freshId, uid, now);
      if r.Ok? {
        leads := leads + [r.value];
      }
    }

    /** `GET /leads/{id}` */
    function GetLead(uid: Id, id: Id): (r: Result<Lead, HttpError>)
      reads this
      ensures r == FindOwnedLead(leads, uid, id)
    {
      FindOwnedLead(leads, uid, id)
    }

    /** `PUT /leads/{id}`: 404 and no change unless the caller owns the lead. */
    method UpdateLead(uid: Id, id: Id, patch: LeadFields, now: Timestamp) returns (r: Result<Lead, HttpError>)
      requires Valid()
      modifies this`leads
      ensures Valid()
      ensures LeadIndex(old(leads), uid, id).None? ==> r == Err(NotFoundLead) && leads == old(leads)
      ensures LeadIndex(old(leads), uid, id).Some? ==>
                var i := LeadIndex(old(leads), uid, id).value;
                leads == old(leads)[i := PatchLead(old(leads)[i], patch, now)] && r == Ok(leads[i])
    {
      var found := LeadIndex(leads, uid, id);
      if found.None? {
        return Err(NotFoundLead);
      }
      var i := found.value;
      leads := leads[i := PatchLead(leads[i], patch, now)];
      assert Seqs.UniqueBy(leads, (l: Lead) => l.id) by {
        forall a, b | 0 <= a < b < |leads| ensures leads[a].id != leads[b].id {
          assert leads[a].id == old(leads)[a].id && leads[b].id == old(leads)[b].id;
        }
      }
      // the re-read is `find_one({"id": id})`: the first lead with that id
      var reread := Seqs.First(leads, (l: Lead) => l.id == id);
      assert reread == Some(leads[i]) by {
        var k :| 0 <= k < |leads| && leads[k] == reread.value;
        assert leads[k].id == leads[i].id;
      }
      r := Ok(reread.value);
    }

    /** `DELETE /leads/{id}`: 404 and no change unless owned; otherwise the lead and all contacts of it go. */
    method DeleteLead(uid: Id, id: Id) returns (r: Result<(), HttpError>)
      requires Valid()
      modifies this`leads, this`contacts
      ensures Valid()
      ensures LeadIndex(old(leads), uid, id).None? ==>
                r == Err(NotFoundLead) && leads == old(leads) && contacts == old(contacts)
      ensures LeadIndex(old(leads), uid, id).Some? ==>
                r == Ok(()) && leads == Seqs.RemoveAt(old(leads), LeadIndex(old(leads), uid, id).value)
                && contacts == CascadeContacts(old(contacts), id)
    {
      var found := LeadIndex(leads, uid, id);
      if found.None? {
        return Err(NotFoundLead);
      }
      Seqs.RemoveAtKeepsUnique(leads, found.value, (l: Lead) => l.id);
      Seqs.FilterKeepsUnique(contacts, (c: Contact) => c.leadId != id, (c: Contact) => c.id);
      leads := Seqs.RemoveAt(leads, found.value);
      contacts := CascadeContacts(contacts, id);
      r := Ok(());
    }

    /**
     * `POST /leads/seed`: for each example in order, insert it unless the
     * caller already has a lead with that company name; `ids[k]` is the uuid
     * drawn for example `k`.
     */
    method SeedExampleLeads(uid: Id, ids: seq<Id>, now: Timestamp)
      returns (message: string, createdCount: nat, totalExamples: nat)
      requires Valid()
      requires |ids| == |Seed.ExampleLeads|
      requires forall i, j :: 0 <= i < j < |ids| ==> ids[i] != ids[j]
      requires forall i :: 0 <= i < |ids| ==> LeadIdFree(ids[i])
      modifies this`leads
      ensures Valid()
      ensures leads == old(leads) + Seed.Pending(old(leads), uid, Seed.ExampleLeads, ids, now)
      ensures createdCount == |Seed.Pending(old(leads), uid, Seed.ExampleLeads, ids, now)|
      ensures totalExamples == |Seed.ExampleLeads| == 13
      ensures message == Seed.SeedMessage(createdCount)
    {
      Seed.ExampleLeadsShape();
      createdCount := InsertMissing(uid, Seed.ExampleLeads, ids, now);
      totalExamples := |Seed.ExampleLeads|;
      message := Seed.SeedMessage(createdCount);
    }

    /** The loop of the seed route, over any list of examples with distinct company names. */
    method InsertMissing(uid: Id, examples: seq<Seed.ExampleLead>, ids: seq<Id>, now: Timestamp) returns (createdCount: nat)
      requires Seqs.UniqueBy(leads, (l: Lead) => l.id)
      requires |ids| == |examples| && Seed.DistinctNames(examples)
      requires forall i, j :: 0 <= i < j < |ids| ==> ids[i] != ids[j]
      requires forall i :: 0 <= i < |ids| ==> LeadIdFree(ids[i])
      modifies this`leads
      ensures Seqs.UniqueBy(leads, (l: Lead) => l.id)
      ensures leads == old(leads) + Seed.Pending(old(leads), uid, examples, ids, now)
      ensures createdCount == |Seed.Pending(old(leads), uid, examples, ids, now)|
    {
      ghost var before := leads;
      createdCount := 0;
      var i := 0;
      while i < |examples|
        invariant 0 <= i <= |examples|
        invariant leads == before + Seed.Pending(before, uid, examples[..i], ids[..i], now)
        invariant createdCount == |Seed.Pending(before, uid, examples[..i], ids[..i], now)|
        invariant Seqs.UniqueBy(leads, (l: Lead) => l.id)
      {
        var e := examples[i];
        Seed.PendingStep(before, uid, examples, ids, now, i);
        Seed.PendingAvoidsLaterNames(before, uid, examples, ids, now, i);
        if !Seed.HasCompany(leads, uid, e.companyName) {
          var doc := Seed.SeedLead(e, ids[i], uid, now);
          Seed.PendingAvoidsLaterIds(before, uid, examples, ids, now, i);
          Seqs.AppendKeepsUnique(leads, doc, (l: Lead) => l.id);
          leads := leads + [doc];
          createdCount := createdCount + 1;
        }
        i := i + 1;
      }
      assert examples[..i] == examples && ids[..i] == ids;
    }

    // ---------- contacts ----------

    /** `POST /contacts`: 422 without `lead_id` or `name`, 404 unless the caller owns that lead. */
    method CreateContact(uid: Id, body: ContactFields, freshId: Id, now: Timestamp) returns (r: Result<Contact, HttpError>)
      requires Valid() && ContactIdFree(freshId)
      modifies this`contacts
      ensures Valid()
      ensures NewContact(body, freshId, uid, now).Err? ==> r == NewContact(body, freshId, uid, now) && contacts == old(contacts)
      ensures NewContact(body, freshId, uid, now).Ok? && FindOwnedLead(leads, uid, body.leadId.value).Err? ==>
                r == Err(NotFoundLead) && contacts == old(contacts)
      ensures r.Ok? <==> NewContact(body, freshId, uid, now).Ok? && FindOwnedLead(leads, uid, body.leadId.value).Ok?
      ensures r.Ok? ==> r == NewContact(body, freshId, uid, now) && contacts == old(contacts) + [r.value]
    {
      var made := NewContact(body, freshId, uid, now);
      if made.Err? {
        return made;
      }
      if FindOwnedLead(leads, uid, body.leadId.value).Err? {
        return Err(NotFoundLead);
      }
      contacts := contacts + [made.value];
      r := made;
    }

    /** `PUT /contacts/{id}` (no `updated_at` on contacts). */
    method UpdateContact(uid: Id, id: Id, patch: ContactFields) returns (r: Result<Contact, HttpError>)
      requires Valid()
      modifies this`contacts
      ensures Valid()
      ensures ContactIndex(old(contacts), uid, id).None? ==> r == Err(NotFoundContact) && contacts == old(contacts)
      ensures ContactIndex(old(contacts), uid, id).Some? ==>
                var i := ContactIndex(old(contacts), uid, id).value;
                contacts == old(contacts)[i := PatchContact(old(contacts)[i], patch)] && r == Ok(contacts[i])
    {
      var found := ContactIndex(contacts, uid, id);
      if found.None? {
        return Err(NotFoundContact);
      }
      var i := found.value;
      contacts := contacts[i := PatchContact(contacts[i], patch)];
      assert Seqs.UniqueBy(contacts, (c: Contact) => c.id) by {
        forall a, b | 0 <= a < b < |contacts| ensures contacts[a].id != contacts[b].id {
          assert contacts[a].id == old(contacts)[a].id && contacts[b].id == old(contacts)[b].id;
        }
      }
      var reread := Seqs.First(contacts, (c: Contact) => c.id == id);
      assert reread == Some(contacts[i]) by {
        var k :| 0 <= k < |contacts| && contacts[k] == reread.value;
        assert contacts[k].id == contacts[i].id;
      }
      r := Ok(reread.value);
    }

    /** `DELETE /contacts/{id}` */
    method DeleteContact(uid: Id, id: Id) returns (r: Result<(), HttpError>)
      requires Valid()
      modifies this`contacts
      ensures Valid()
      ensures ContactIndex(old(contacts), uid, id).None? ==> r == Err(NotFoundContact) && contacts == old(contacts)
      ensures ContactIndex(old(contacts), uid, id).Some? ==>
                r == Ok(()) && contacts == Seqs.RemoveAt(old(contacts), ContactIndex(old(contacts), uid, id).value)
    {
      var found := ContactIndex(contacts, uid, id);
      if found.None? {
        return Err(NotFoundContact);
      }
      Seqs.RemoveAtKeepsUnique(contacts, found.value, (c: Contact) => c.id);
      contacts := Seqs.RemoveAt(contacts, found.value);
      r := Ok(());
    }

    // ---------- templates ----------

    /** `POST /templates`: 422 without name, subject or body; the category defaults to "outreach". */
    method CreateTemplate(uid: Id, body: TemplateFields, freshId: Id, now: Timestamp) returns (r: Result<Template, HttpError>)
      requires Valid() && TemplateIdFree(freshId)
      modifies this`templates
      ensures Valid()
      ensures r == NewTemplate(body, freshId, uid, now)
      ensures templates == if r.Ok? then old(templates) + [r.value] else old(templates)
    {
      r := NewTemplate(body, freshId, uid, now);
      if r.Ok? {
        templates := templates + [r.value];
      }
    }

    /** `PUT /templates/{id}` */
    method UpdateTemplate(uid: Id, id: Id, patch: TemplateFields) returns (r: Result<Template, HttpError>)
      requires Valid()
      modifies this`templates
      ensures Valid()
      ensures TemplateIndex(old(templates), uid, id).None? ==> r == Err(NotFoundTemplate) && templates == old(templates)
      ensures TemplateIndex(old(templates), uid, id).Some? ==>
                var i := TemplateIndex(old(templates), uid, id).value;
                templates == old(templates)[i := PatchTemplate(old(templates)[i], patch)] && r == Ok(templates[i])
    {
      var found := TemplateIndex(templates, uid, id);
      if found.None? {
        return Err(NotFoundTemplate);
      }
      var i := found.value;
      templates := templates[i := PatchTemplate(templates[i], patch)];
      assert Seqs.UniqueBy(templates, (t: Template) => t.id) by {
        forall a, b | 0 <= a < b < |templates| ensures templates[a].id != templates[b].id {
          assert templates[a].id == old(templates)[a].id && templates[b].id == old(templates)[b].id;
        }
      }
      var reread := Seqs.First(templates, (t: Template) => t.id == id);
      assert reread == Some(templates[i]) by {
        var k :| 0 <= k < |templates| && templates[k] == reread.value;
        assert templates[k].id == templates[i].id;
      }
      r := Ok(reread.value);
    }

    /** `DELETE /templates/{id}` */
    method DeleteTemplate(uid: Id, id: Id) returns (r: Result<(), HttpError>)
      requires Valid()
      modifies this`templates
      ensures Valid()
      ensures TemplateIndex(old(templates), uid, id).None? ==> r == Err(NotFoundTemplate) && templates == old(templates)
      ensures TemplateIndex(old(templates), uid, id).Some? ==>
                r == Ok(()) && templates == Seqs.RemoveAt(old(templates), TemplateIndex(old(templates), uid, id).value)
    {
      var found := TemplateIndex(templates, uid, id);
      if found.None? {
        return Err(NotFoundTemplate);
      }
      Seqs.RemoveAtKeepsUnique(templates, found.value, (t: Template) => t.id);
      templates := Seqs.RemoveAt(templates, found.value);
      r := Ok(());
    }

    /**
     * `POST /ai/generate-email`: 500 without a key, 404 unless the caller
     * owns the lead, then the model's text or 500.
     */
    function GenerateEmail(keyConfigured: bool, uid: Id, leadId: Id, model: Result<string, string>): (r: Result<string, HttpError>)
      reads this
      ensures !keyConfigured ==> r == Err(KeyMissing)
      ensures keyConfigured && FindOwnedLead(leads, uid, leadId).Err? ==> r == Err(NotFoundLead)
      ensures r.Ok? ==> keyConfigured && FindOwnedLead(leads, uid, leadId).Ok? && model == Ok(r.value)
      ensures keyConfigured && FindOwnedLead(leads, uid, leadId).Ok? ==> r == AskModel(true, EmailFailed, model)
    {
      if !keyConfigured then Err(KeyMissing)
      else if FindOwnedLead(leads, uid, leadId).Err? then Err(NotFoundLead)
      else AskModel(true, EmailFailed, model)
    }
  }

  /** Another user's lead is invisible: get, update and delete of it all answer 404. */
  lemma OtherUsersLeadIsNotFound(leads: seq<Lead>, uid: Id, id: Id)
    requires forall l :: l in leads && l.id == id ==> l.userId != uid
    ensures FindOwnedLead(leads, uid, id) == Err(NotFoundLead)
    ensures LeadIndex(leads, uid, id).None?
  {
  }
}
