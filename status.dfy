/**
 * The lead status pipeline's lookup tables and the option lists used by the
 * lead forms: `LEAD_STATUSES`, `getStatusColor`, `getStatusLabel`,
 * `INDUSTRIES` and `COMPANY_SIZES`.
 */
module LeadStatus {
  import opened Wrappers
  import Seqs
  import Text

  datatype StatusEntry = StatusEntry(value: string, caption: string, color: string)

  /** The six pipeline stages, in presentation order. */
  const LeadStatuses: seq<StatusEntry> := [
    StatusEntry("new", "New", "bg-blue-500"),
    StatusEntry("contacted", "Contacted", "bg-yellow-500"),
    StatusEntry("qualified", "Qualified", "bg-purple-500"),
    StatusEntry("proposal", "Proposal", "bg-orange-500"),
    StatusEntry("won", "Won", "bg-lime-500"),
    StatusEntry("lost", "Lost", "bg-red-500")
  ]

  const UnknownStatusColor := "bg-gray-500"

  const StatusValues: seq<string> := ["new", "contacted", "qualified", "proposal", "won", "lost"]

  predicate IsKnownStatus(s: string) {
    s in StatusValues
  }

  /** `LEAD_STATUSES.find(s => s.value === status)` */
  function FindStatus(status: string): (r: Option<StatusEntry>)
    ensures r.Some? <==> IsKnownStatus(status)
    ensures r.Some? ==> r.value in LeadStatuses && r.value.value == status
  {
    StatusTableValues();
    Seqs.First(LeadStatuses, (e: StatusEntry) => e.value == status)
  }

  /** The table's values are exactly `StatusValues`, in the same order. */
  lemma StatusTableValues()
    ensures |LeadStatuses| == |StatusValues|
    ensures forall i :: 0 <= i < |LeadStatuses| ==> LeadStatuses[i].value == StatusValues[i]
  {
  }

  /** `getStatusColor`: the table colour, or grey for any other string. */
  function StatusColor(status: string): (r: string)
    ensures IsKnownStatus(status) ==> exists e :: e in LeadStatuses && e.value == status && r == e.color
    ensures !IsKnownStatus(status) ==> r == UnknownStatusColor
  {
    match FindStatus(status)
    case Some(e) => e.color
    case None => UnknownStatusColor
  }

  /** `getStatusLabel`: the table caption, or the status string itself for any other string. */
  function StatusLabel(status: string): (r: string)
    ensures IsKnownStatus(status) ==> exists e :: e in LeadStatuses && e.value == status && r == e.caption
    ensures !IsKnownStatus(status) ==> r == status
  {
    match FindStatus(status)
    case Some(e) => e.caption
    case None => status
  }

  /** There are six stages, all distinct, in the order new, contacted, qualified, proposal, won, lost. */
  lemma StatusesDistinctAndOrdered()
    ensures |LeadStatuses| == 6
    ensures forall i, j :: 0 <= i < j < |LeadStatuses| ==> LeadStatuses[i].value != LeadStatuses[j].value
    ensures StatusValues == ["new", "contacted", "qualified", "proposal", "won", "lost"]
  {
  }

  /** The label and colour of every known stage are the ones listed with it. */
  lemma {:induction false} KnownStatusLookups(i: nat)
    requires i < |LeadStatuses|
    ensures StatusLabel(LeadStatuses[i].value) == LeadStatuses[i].caption
    ensures StatusColor(LeadStatuses[i].value) == LeadStatuses[i].color
  {
    var e := LeadStatuses[i];
    StatusesDistinctAndOrdered();
    var found := FindStatus(e.value);
    assert found.Some?;
    assert found.value == e by {
      var k :| 0 <= k < |LeadStatuses| && LeadStatuses[k] == found.value;
      assert LeadStatuses[k].value == e.value;
    }
  }

  /** Every known status is spelled in lower case. */
  lemma {:induction false} KnownStatusesAreLowerCase(s: string)
    requires IsKnownStatus(s)
    ensures Text.Lower(s) == s
  {
    assert forall i :: 0 <= i < |s| ==> 'a' <= s[i] <= 'z';
  }

  /**
   * The lookups compare exactly: among the spellings of a known status that
   * differ only in letter case (`"New"`, `"WON"`), only the lower-case one
   * is recognised; every other is shown as itself, in grey.
   */
  lemma UnknownStatusFallbacks(s: string)
    requires Text.Lower(s) in StatusValues
    ensures IsKnownStatus(s) <==> s == Text.Lower(s)
    ensures s != Text.Lower(s) ==> StatusLabel(s) == s && StatusColor(s) == UnknownStatusColor
  {
    if IsKnownStatus(s) {
      KnownStatusesAreLowerCase(s);
    }
  }

  /** The industry choices offered by the forms. */
  const Industries: seq<string> := [
    "Technology", "Healthcare", "Finance", "Manufacturing", "Retail",
    "Professional Services", "Education", "Real Estate", "Hospitality",
    "Construction", "Transportation", "Media & Entertainment", "Other"
  ]

  /** The company size buckets offered by the forms. */
  const CompanySizes: seq<string> := [
    "1-10 employees", "11-50 employees", "51-200 employees", "201-500 employees", "500+ employees"
  ]

  predicate Distinct(s: seq<string>) {
    forall i, j :: 0 <= i < j < |s| ==> s[i] != s[j]
  }

  lemma OptionListsShape()
    ensures |Industries| == 13 && Distinct(Industries) && Industries[|Industries| - 1] == "Other"
    ensures |CompanySizes| == 5 && Distinct(CompanySizes)
  {
  }
}
