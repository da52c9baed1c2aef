/**
 * The example data behind `POST /leads/seed` (backend/server.py): thirteen
 * example companies, and the documents the seed route inserts for those of
 * them the caller does not have yet.
 */
module Seed {
  import opened Wrappers
  import opened Records

  datatype ExampleLead = ExampleLead(companyName: string, industry: string, companySize: string, website: string, notes: string)

  const ExampleLeads: seq<ExampleLead> := [
    ExampleLead("TechVision Software", "Technology", "51-200 employees", "https://techvision.example.com", "Fast-growing SaaS company, recently raised Series B funding"),
    ExampleLead("MedCare Solutions", "Healthcare", "201-500 employees", "https://medcare.example.com", "Healthcare tech company expanding into new markets"),
    ExampleLead("Capital Trust Bank", "Finance", "500+ employees", "https://capitaltrust.example.com", "Regional bank with compliance-heavy HR needs"),
    ExampleLead("PrecisionMfg Industries", "Manufacturing", "201-500 employees", "https://precisionmfg.example.com", "Manufacturing company with shift-based workforce challenges"),
    ExampleLead("ShopSmart Retail", "Retail", "51-200 employees", "https://shopsmart.example.com", "E-commerce retailer with high seasonal hiring needs"),
    ExampleLead("Apex Consulting Group", "Professional Services", "11-50 employees", "https://apexconsulting.example.com", "Growing consulting firm needs HR infrastructure"),
    ExampleLead("BrightMinds Academy", "Education", "51-200 employees", "https://brightminds.example.com", "Private education institution, complex faculty management"),
    ExampleLead("Summit Properties", "Real Estate", "11-50 employees", "https://summitproperties.example.com", "Real estate firm with distributed workforce"),
    ExampleLead("Grand Hotels Group", "Hospitality", "201-500 employees", "https://grandhotels.example.com", "Hotel chain with high turnover, needs onboarding solutions"),
    ExampleLead("BuildRight Construction", "Construction", "51-200 employees", "https://buildright.example.com", "Construction company with compliance and safety training needs"),
    ExampleLead("FastTrack Logistics", "Transportation", "201-500 employees", "https://fasttrack.example.com", "Logistics company with driver management challenges"),
    ExampleLead("Creative Studios Media", "Media & Entertainment", "11-50 employees", "https://creativestudios.example.com", "Media production company with freelancer management needs"),
    ExampleLead("GreenGrow Farms", "Other", "51-200 employees", "https://greengrow.example.com", "Agricultural business with seasonal workforce")
  ]

  predicate DistinctNames(ex: seq<ExampleLead>) {
    forall i, j :: 0 <= i < j < |ex| ==> ex[i].companyName != ex[j].companyName
  }

  /** Thirteen examples, no two with the same company name. */
  lemma ExampleLeadsShape()
    ensures |ExampleLeads| == 13
    ensures DistinctNames(ExampleLeads)
  {
    var keys := seq(|ExampleLeads|, i requires 0 <= i < |ExampleLeads| => (ExampleLeads[i].companyName[0], |ExampleLeads[i].companyName|));
    assert keys == [('T', 19), ('M', 17), ('C', 18), ('P', 23), ('S', 16), ('A', 21), ('B', 19),
                    ('S', 17), ('G', 18), ('B', 23), ('F', 19), ('C', 22), ('G', 15)];
    forall i, j | 0 <= i < j < |ExampleLeads| ensures ExampleLeads[i].companyName != ExampleLeads[j].companyName {
      assert keys[i] != keys[j];
    }
  }

  /** The document inserted for one example: status "new", no score, no insights. */
  function SeedLead(e: ExampleLead, id: Id, uid: Id, now: Timestamp): (l: Lead)
    ensures l.id == id && l.userId == uid && l.companyName == e.companyName
    ensures l.status == DefaultStatus && l.qualificationScore.None? && l.aiInsights.None?
    ensures l.industry == Some(e.industry) && l.companySize == Some(e.companySize)
    ensures l.website == Some(e.website) && l.notes == Some(e.notes)
    ensures l.createdAt == l.updatedAt == now
  {
    Lead(id, e.companyName, Some(e.industry), Some(e.companySize), Some(e.website), DefaultStatus,
         Some(e.notes), None, None, now, now, uid)
  }

  /** `find_one({"company_name": name, "user_id": uid})` finds a document. */
  predicate HasCompany(leads: seq<Lead>, uid: Id, name: string) {
    exists l :: l in leads && l.companyName == name && l.userId == uid
  }

  /**
   * The documents seeding inserts, in order, when the store holds `leads`:
   * one per example whose company the caller does not have, with the id
   * drawn for that example.
   */
  function Pending(leads: seq<Lead>, uid: Id, ex: seq<ExampleLead>, ids: seq<Id>, now: Timestamp): (r: seq<Lead>)
    requires |ids| == |ex|
    ensures |r| <= |ex|
    ensures forall l :: l in r ==> l.userId == uid && !HasCompany(leads, uid, l.companyName)
  {
    if ex == [] then []
    else
      var n := |ex| - 1;
      Pending(leads, uid, ex[..n], ids[..n], now)
      + (if HasCompany(leads, uid, ex[n].companyName) then [] else [SeedLead(ex[n], ids[n], uid, now)])
  }

  /** Every inserted document is one of the examples, with that example's id. */
  lemma {:induction false} PendingFromExamples(leads: seq<Lead>, uid: Id, ex: seq<ExampleLead>, ids: seq<Id>, now: Timestamp)
    requires |ids| == |ex|
    ensures forall l :: l in Pending(leads, uid, ex, ids, now) ==>
              exists k :: 0 <= k < |ex| && l == SeedLead(ex[k], ids[k], uid, now)
  {
    if ex != [] {
      var n := |ex| - 1;
      PendingFromExamples(leads, uid, ex[..n], ids[..n], now);
      forall l | l in Pending(leads, uid, ex, ids, now)
        ensures exists k :: 0 <= k < |ex| && l == SeedLead(ex[k], ids[k], uid, now)
      {
        if l in Pending(leads, uid, ex[..n], ids[..n], now) {
          var k :| 0 <= k < n && l == SeedLead(ex[..n][k], ids[..n][k], uid, now);
          assert l == SeedLead(ex[k], ids[k], uid, now);
        } else {
          assert l == SeedLead(ex[n], ids[n], uid, now);
        }
      }
    }
  }

  /** An example is inserted exactly when the caller does not already have its company. */
  lemma {:induction false} PendingExactlyMissing(leads: seq<Lead>, uid: Id, ex: seq<ExampleLead>, ids: seq<Id>, now: Timestamp, k: nat)
    requires |ids| == |ex| && k < |ex|
    ensures SeedLead(ex[k], ids[k], uid, now) in Pending(leads, uid, ex, ids, now) <==>
              !HasCompany(leads, uid, ex[k].companyName)
  {
    var n := |ex| - 1;
    var l := SeedLead(ex[k], ids[k], uid, now);
    if k < n {
      PendingExactlyMissing(leads, uid, ex[..n], ids[..n], now, k);
      assert ex[..n][k] == ex[k] && ids[..n][k] == ids[k];
    }
  }

  /** After seeding, the caller has every example company. */
  lemma {:induction false} SeedCoversAll(leads: seq<Lead>, uid: Id, ex: seq<ExampleLead>, ids: seq<Id>, now: Timestamp)
    requires |ids| == |ex|
    ensures forall k :: 0 <= k < |ex| ==> HasCompany(leads + Pending(leads, uid, ex, ids, now), uid, ex[k].companyName)
  {
    forall k | 0 <= k < |ex| ensures HasCompany(leads + Pending(leads, uid, ex, ids, now), uid, ex[k].companyName) {
      var after := leads + Pending(leads, uid, ex, ids, now);
      if !HasCompany(leads, uid, ex[k].companyName) {
        PendingExactlyMissing(leads, uid, ex, ids, now, k);
        assert SeedLead(ex[k], ids[k], uid, now) in after;
      } else {
        var l :| l in leads && l.companyName == ex[k].companyName && l.userId == uid;
        assert l in after;
      }
    }
  }

  /** Nothing is pending when the caller has every example company. */
  lemma {:induction false} NothingPendingWhenAllPresent(leads: seq<Lead>, uid: Id, ex: seq<ExampleLead>, ids: seq<Id>, now: Timestamp)
    requires |ids| == |ex|
    requires forall k :: 0 <= k < |ex| ==> HasCompany(leads, uid, ex[k].companyName)
    ensures Pending(leads, uid, ex, ids, now) == []
  {
    if ex != [] {
      var n := |ex| - 1;
      assert forall k :: 0 <= k < n ==> ex[..n][k] == ex[k];
      NothingPendingWhenAllPresent(leads, uid, ex[..n], ids[..n], now);
    }
  }

  /** Seeding twice: the second run inserts nothing, whatever ids and time it is given. */
  lemma SeedIdempotent(leads: seq<Lead>, uid: Id, ids: seq<Id>, ids2: seq<Id>, now: Timestamp, now2: Timestamp)
    requires |ids| == |ExampleLeads| == |ids2|
    ensures Pending(leads + Pending(leads, uid, ExampleLeads, ids, now), uid, ExampleLeads, ids2, now2) == []
  {
    SeedCoversAll(leads, uid, ExampleLeads, ids, now);
    NothingPendingWhenAllPresent(leads + Pending(leads, uid, ExampleLeads, ids, now), uid, ExampleLeads, ids2, now2);
  }

  /** The documents pending for a prefix do not decide whether a later example is present. */
  lemma {:induction false} PendingAvoidsLaterNames(leads: seq<Lead>, uid: Id, ex: seq<ExampleLead>, ids: seq<Id>, now: Timestamp, i: nat)
    requires |ids| == |ex| && i < |ex| && DistinctNames(ex)
    ensures HasCompany(leads + Pending(leads, uid, ex[..i], ids[..i], now), uid, ex[i].companyName)
              == HasCompany(leads, uid, ex[i].companyName)
  {
    var p := Pending(leads, uid, ex[..i], ids[..i], now);
    PendingFromExamples(leads, uid, ex[..i], ids[..i], now);
    if HasCompany(leads, uid, ex[i].companyName) {
      var l :| l in leads && l.companyName == ex[i].companyName && l.userId == uid;
      assert l in leads + p;
    }
  }

  /** The documents pending for a prefix carry none of the later ids. */
  lemma PendingAvoidsLaterIds(leads: seq<Lead>, uid: Id, ex: seq<ExampleLead>, ids: seq<Id>, now: Timestamp, i: nat)
    requires |ids| == |ex| && i < |ex|
    requires forall a, b :: 0 <= a < b < |ids| ==> ids[a] != ids[b]
    ensures forall l :: l in Pending(leads, uid, ex[..i], ids[..i], now) ==> l.id != ids[i]
  {
    PendingFromExamples(leads, uid, ex[..i], ids[..i], now);
    forall l | l in Pending(leads, uid, ex[..i], ids[..i], now) ensures l.id != ids[i] {
      var k :| 0 <= k < i && l == SeedLead(ex[..i][k], ids[..i][k], uid, now);
      assert l.id == ids[k];
    }
  }

  /** One more example: the pending documents grow by that example's document exactly when it is missing. */
  lemma PendingStep(leads: seq<Lead>, uid: Id, ex: seq<ExampleLead>, ids: seq<Id>, now: Timestamp, i: nat)
    requires |ids| == |ex| && i < |ex|
    ensures Pending(leads, uid, ex[..i + 1], ids[..i + 1], now)
              == Pending(leads, uid, ex[..i], ids[..i], now)
                 + (if HasCompany(leads, uid, ex[i].companyName) then [] else [SeedLead(ex[i], ids[i], uid, now)])
  {
    assert ex[..i + 1][..i] == ex[..i] && ids[..i + 1][..i] == ids[..i];
  }

  /** The summary message of the seed route. */
  function SeedMessage(createdCount: nat): (m: string)
    ensures |m| > |MessageHead| + |MessageTail|
    ensures MessageHead <= m && m[|m| - |MessageTail|..] == MessageTail
    ensures var digits := m[|MessageHead|..|m| - |MessageTail|];
            (forall i :: 0 <= i < |digits| ==> '0' <= digits[i] <= '9') && DecimalValue(digits) == createdCount
            && (digits == "0" || digits[0] != '0')
  {
    var d := NatToDecimal(createdCount);
    var m := MessageHead + d + MessageTail;
    assert m[|MessageHead|..|m| - |MessageTail|] == d;
    assert m[|m| - |MessageTail|..] == MessageTail;
    NatToDecimalRoundTrip(createdCount);
    m
  }

  const MessageHead := "Created "
  const MessageTail := " example leads"

  function DigitChar(d: nat): char
    requires d < 10
  {
    "0123456789"[d]
  }

  /** Python's `str(n)` for a natural number. */
  function NatToDecimal(n: nat): (s: string)
    ensures |s| >= 1
    ensures forall i :: 0 <= i < |s| ==> '0' <= s[i] <= '9'
    ensures n == 0 <==> s == "0"
    ensures s == "0" || s[0] != '0'
    decreases n
  {
    if n < 10 then [DigitChar(n)] else NatToDecimal(n / 10) + [DigitChar(n % 10)]
  }

  function DecimalValue(s: string): nat
    requires forall i :: 0 <= i < |s| ==> '0' <= s[i] <= '9'
  {
    if s == [] then 0 else DecimalValue(s[..|s| - 1]) * 10 + (s[|s| - 1] as int - '0' as int)
  }

  /** The count in the message reads back as the count. */
  lemma {:induction false} NatToDecimalRoundTrip(n: nat)
    ensures DecimalValue(NatToDecimal(n)) == n
    decreases n
  {
    var s := NatToDecimal(n);
    if n >= 10 {
      NatToDecimalRoundTrip(n / 10);
      assert s[..|s| - 1] == NatToDecimal(n / 10);
    }
  }
}
