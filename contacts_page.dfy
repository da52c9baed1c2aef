/**
 * The contacts view (frontend/src/pages/Contacts.jsx): the lead index built
 * from the fetched leads, the link from a contact to its lead, the search,
 * and delete.
 */
module ContactsPage {
  import opened Wrappers
  import opened Records
  import Seqs
  import Text
  import Api

  /** The object `forEach` builds: each id mapped to the last fetched lead carrying it. */
  function IndexById(leads: seq<Lead>): (m: map<Id, Lead>)
    ensures forall id :: id in m <==> exists l :: l in leads && l.id == id
    ensures forall id :: id in m ==> m[id] in leads && m[id].id == id
  {
    if leads == [] then map[]
    else
      var n := |leads| - 1;
      var m := IndexById(leads[..n]);
      assert forall l :: l in leads[..n] ==> l in leads;
      assert forall l :: l in leads ==> l in leads[..n] || l == leads[n];
      m[leads[n].id := leads[n]]
  }

  /** With unique ids (as the backend guarantees), every fetched lead is found under its own id. */
  lemma {:induction false} IndexFindsEveryLead(leads: seq<Lead>)
    requires Seqs.UniqueBy(leads, (l: Lead) => l.id)
    ensures forall i :: 0 <= i < |leads| ==> IndexById(leads)[leads[i].id] == leads[i]
  {
    if leads != [] {
      var n := |leads| - 1;
      assert Seqs.UniqueBy(leads[..n], (l: Lead) => l.id) by {
        forall a, b | 0 <= a < b < n ensures leads[..n][a].id != leads[..n][b].id {
          assert leads[..n][a] == leads[a] && leads[..n][b] == leads[b];
        }
      }
      IndexFindsEveryLead(leads[..n]);
      forall i | 0 <= i < |leads| ensures IndexById(leads)[leads[i].id] == leads[i] {
        if i < n {
          assert leads[..n][i] == leads[i];
          assert leads[i].id != leads[n].id;
        }
      }
    }
  }

  /** The link shown under a contact: only when its lead is in the index; a missing lead is no error. */
  function LeadLink(c: Contact, index: map<Id, Lead>): (r: Option<(string, string)>)
    ensures r.Some? <==> c.leadId in index
    ensures r.Some? ==> r.value == (Api.ItemPath(Api.LeadsRoot, index[c.leadId].id), index[c.leadId].companyName)
  {
    if c.leadId in index then
      var l := index[c.leadId];
      Some((Api.ItemPath(Api.LeadsRoot, l.id), l.companyName))
    else None
  }

  /** The search: the name, or the title or email when set, contains the query ignoring case. */
  predicate ContactMatches(c: Contact, q: string) {
    || Text.IncludesIgnoringCase(c.name, q)
    || (Text.Truthy(c.title) && Text.IncludesIgnoringCase(c.title.value, q))
    || (Text.Truthy(c.email) && Text.IncludesIgnoringCase(c.email.value, q))
  }

  /** `filteredContacts`. */
  function FilterContacts(contacts: seq<Contact>, q: string): (r: seq<Contact>)
    ensures forall c :: c in r <==> c in contacts && ContactMatches(c, q)
  {
    Seqs.Filter(contacts, (c: Contact) => ContactMatches(c, q))
  }

  /** The empty query keeps every contact, in order. */
  lemma EmptySearchKeepsAllContacts(contacts: seq<Contact>)
    ensures FilterContacts(contacts, "") == contacts
  {
    forall i | 0 <= i < |contacts| ensures ContactMatches(contacts[i], "") {
      Text.EmptyQueryMatches(contacts[i].name);
    }
    Seqs.FilterKeepsAll(contacts, (c: Contact) => ContactMatches(c, ""));
  }

  /** The search keeps the fetched order. */
  lemma FilterContactsKeepsOrder(contacts: seq<Contact>, q: string)
    ensures Seqs.IsSubsequence(FilterContacts(contacts, q), contacts)
  {
    Seqs.FilterIsSubsequence(contacts, (c: Contact) => ContactMatches(c, q));
  }

  /** `contacts.filter(c => c.id !== id)`. */
  function WithoutContact(contacts: seq<Contact>, id: Id): (r: seq<Contact>)
    ensures forall c :: c in r <==> c in contacts && c.id != id
  {
    Seqs.Filter(contacts, (c: Contact) => c.id != id)
  }

  /** Removing an id keeps every other contact, in order, and removing an absent id changes nothing. */
  lemma WithoutContactKeepsOthers(contacts: seq<Contact>, id: Id)
    ensures Seqs.IsSubsequence(WithoutContact(contacts, id), contacts)
    ensures (forall c :: c in contacts ==> c.id != id) ==> WithoutContact(contacts, id) == contacts
  {
    Seqs.FilterIsSubsequence(contacts, (c: Contact) => c.id != id);
    if forall c :: c in contacts ==> c.id != id {
      Seqs.FilterKeepsAll(contacts, (c: Contact) => c.id != id);
    }
  }

  class ContactsView {
    var contacts: seq<Contact>
    var leads: map<Id, Lead>
    var loading: bool
    var searchQuery: string
    const browser: Api.Browser

    constructor (browser: Api.Browser)
      ensures this.browser == browser && contacts == [] && leads == map[] && loading && searchQuery == ""
    {
      this.browser := browser;
      contacts, leads, loading, searchQuery := [], map[], true, "";
    }

    /** The `forEach` that fills `leadsMap`. */
    static method BuildLeadsMap(fetched: seq<Lead>) returns (m: map<Id, Lead>)
      ensures m == IndexById(fetched)
    {
      m := map[];
      var i := 0;
      while i < |fetched|
        invariant 0 <= i <= |fetched|
        invariant m == IndexById(fetched[..i])
      {
        assert fetched[..i + 1][..i] == fetched[..i];
        m := m[fetched[i].id := fetched[i]];
        i := i + 1;
      }
      assert fetched[..i] == fetched;
    }

    /**
     * `fetchData`: both lists are requested together and set only when both
     * arrive; loading ends whatever the outcome.
     */
    method FetchData(contactsReply: Api.Reply<seq<Contact>>, leadsReply: Api.Reply<seq<Lead>>)
      returns (calls: seq<Api.Call>, toast: Option<Api.Toast>)
      modifies this`contacts, this`leads, this`loading, browser
      ensures calls == [Api.ListContacts(None), Api.ListLeads(None)]
      ensures contactsReply.Ok? && leadsReply.Ok? ==>
                contacts == contactsReply.value && leads == IndexById(leadsReply.value) && toast.None?
      ensures !(contactsReply.Ok? && leadsReply.Ok?) ==>
                contacts == old(contacts) && leads == old(leads) && toast == Some(Api.Error("Failed to load contacts"))
      ensures !loading
    {
      calls := [Api.ListContacts(None), Api.ListLeads(None)];
      var rc := Api.Settle(browser, contactsReply);
      var rl := Api.Settle(browser, leadsReply);
      if rc.Ok? && rl.Ok? {
        contacts := rc.value;
        leads := BuildLeadsMap(rl.value);
        toast := None;
      } else {
        toast := Some(Api.Error("Failed to load contacts"));
      }
      loading := false;
    }

    /** `handleDelete`: only a confirmed, successful delete removes the contact locally. */
    method HandleDelete(id: Id, confirmed: bool, deleted: Api.Reply<()>)
      returns (calls: seq<Api.Call>, toast: Option<Api.Toast>)
      modifies this`contacts, browser
      ensures !confirmed ==> calls == [] && toast.None? && contacts == old(contacts)
      ensures confirmed ==> calls == [Api.DeleteContact(id)]
      ensures confirmed && deleted.Ok? ==>
                contacts == WithoutContact(old(contacts), id) && toast == Some(Api.Success("Contact deleted"))
      ensures confirmed && deleted.Err? ==>
                contacts == old(contacts) && toast == Some(Api.Error("Failed to delete contact"))
    {
      if !confirmed {
        return [], None;
      }
      calls := [Api.DeleteContact(id)];
      var r := Api.Settle(browser, deleted);
      if r.Ok? {
        contacts := WithoutContact(contacts, id);
        toast := Some(Api.Success("Contact deleted"));
      } else {
        toast := Some(Api.Error("Failed to delete contact"));
      }
    }
  }
}
