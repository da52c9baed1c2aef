/**
 * `get_lead_stats`: the `$group` by status, the `stats` dictionary built from
 * the groups, `total = sum(stats.values())`, and the six named counts read
 * with a default of 0.
 */
module Stats {
  import opened Records
  import LeadStatus

  /** One `$group` result: a status and how many leads carry it. */
  datatype Group = Group(status: string, count: nat)

  /** Number of occurrences of `x` in `s`. */
  function Occurrences(s: seq<string>, x: string): nat {
    if s == [] then 0 else (if s[0] == x then 1 else 0) + Occurrences(s[1..], x)
  }

  predicate DistinctStatuses(gs: seq<Group>) {
    forall i, j :: 0 <= i < j < |gs| ==> gs[i].status != gs[j].status
  }

  /** Counts one more lead with status `x`. */
  function Bump(gs: seq<Group>, x: string): seq<Group> {
    if gs == [] then [Group(x, 1)]
    else if gs[0].status == x then [Group(x, gs[0].count + 1)] + gs[1..]
    else [gs[0]] + Bump(gs[1..], x)
  }

  /** The `$group` stage: one group per distinct status. */
  function Tally(statuses: seq<string>): seq<Group> {
    if statuses == [] then [] else Bump(Tally(statuses[1..]), statuses[0])
  }

  /** `sum(stats.values())` */
  function SumCounts(gs: seq<Group>): nat {
    if gs == [] then 0 else gs[0].count + SumCounts(gs[1..])
  }

  /** `stats.get(status, 0)` */
  function CountOf(gs: seq<Group>, status: string): nat {
    if gs == [] then 0 else if gs[0].status == status then gs[0].count else CountOf(gs[1..], status)
  }

  lemma {:induction false} BumpFacts(gs: seq<Group>, x: string)
    requires DistinctStatuses(gs)
    ensures DistinctStatuses(Bump(gs, x))
    ensures SumCounts(Bump(gs, x)) == SumCounts(gs) + 1
    ensures forall y :: CountOf(Bump(gs, x), y) == CountOf(gs, y) + (if y == x then 1 else 0)
  {
    if gs != [] && gs[0].status != x {
      BumpFacts(gs[1..], x);
      var b := Bump(gs[1..], x);
      assert Bump(gs, x) == [gs[0]] + b;
      assert ([gs[0]] + b)[1..] == b;
      forall y ensures CountOf(Bump(gs, x), y) == CountOf(gs, y) + (if y == x then 1 else 0) {
      }
      assert forall k :: 0 <= k < |b| ==> b[k].status == x || b[k] in gs[1..] by {
        BumpMembers(gs[1..], x);
      }
    } else if gs != [] {
      assert Bump(gs, x)[1..] == gs[1..];
      forall y ensures CountOf(Bump(gs, x), y) == CountOf(gs, y) + (if y == x then 1 else 0) {
        if y != x {
          NotFirstCount(gs, y);
          NotFirstCount(Bump(gs, x), y);
        }
      }
    }
  }

  lemma NotFirstCount(gs: seq<Group>, y: string)
    requires gs != [] && gs[0].status != y
    ensures CountOf(gs, y) == CountOf(gs[1..], y)
  {
  }

  lemma {:induction false} BumpMembers(gs: seq<Group>, x: string)
    ensures forall k :: 0 <= k < |Bump(gs, x)| ==> Bump(gs, x)[k].status == x || Bump(gs, x)[k] in gs
  {
    if gs != [] && gs[0].status != x {
      BumpMembers(gs[1..], x);
      assert Bump(gs, x) == [gs[0]] + Bump(gs[1..], x);
    } else if gs != [] {
      assert Bump(gs, x)[1..] == gs[1..];
    }
  }

  /** The groups have distinct statuses, their counts add up to the number of leads, and each count is that status's lead count. */
  lemma {:induction false} TallyFacts(statuses: seq<string>)
    ensures DistinctStatuses(Tally(statuses))
    ensures SumCounts(Tally(statuses)) == |statuses|
    ensures forall y :: CountOf(Tally(statuses), y) == Occurrences(statuses, y)
  {
    if statuses != [] {
      TallyFacts(statuses[1..]);
      BumpFacts(Tally(statuses[1..]), statuses[0]);
    }
  }

  /** The reply of `GET /leads/stats/summary`. */
  datatype LeadStats = LeadStats(total: nat, newCount: nat, contacted: nat, qualified: nat, proposal: nat, won: nat, lost: nat)

  function StatusesOf(leads: seq<Lead>): (r: seq<string>)
    ensures |r| == |leads|
    ensures forall i :: 0 <= i < |leads| ==> r[i] == leads[i].status
  {
    if leads == [] then [] else [leads[0].status] + StatusesOf(leads[1..])
  }

  /** The summary computed from the leads the caller owns. */
  function Summarize(owned: seq<Lead>): LeadStats {
    var gs := Tally(StatusesOf(owned));
    LeadStats(SumCounts(gs), CountOf(gs, "new"), CountOf(gs, "contacted"), CountOf(gs, "qualified"),
              CountOf(gs, "proposal"), CountOf(gs, "won"), CountOf(gs, "lost"))
  }

  function NamedSum(st: LeadStats): nat {
    st.newCount + st.contacted + st.qualified + st.proposal + st.won + st.lost
  }

  /** How many of `s` are none of the six pipeline stages. */
  function UnknownCount(s: seq<string>): nat {
    if s == [] then 0 else (if LeadStatus.IsKnownStatus(s[0]) then 0 else 1) + UnknownCount(s[1..])
  }

  lemma {:induction false} Partition(s: seq<string>)
    ensures |s| == Occurrences(s, "new") + Occurrences(s, "contacted") + Occurrences(s, "qualified")
                   + Occurrences(s, "proposal") + Occurrences(s, "won") + Occurrences(s, "lost")
                   + UnknownCount(s)
  {
    if s != [] {
      Partition(s[1..]);
    }
  }

  /**
   * `total` counts every owned lead, each named count is the number of owned
   * leads with that status (0 when there are none), and `total` exceeds the
   * sum of the six counts by exactly the number of leads with another status.
   */
  lemma SummarizeCounts(owned: seq<Lead>)
    ensures Summarize(owned).total == |owned|
    ensures Summarize(owned).newCount == Occurrences(StatusesOf(owned), "new")
    ensures Summarize(owned).contacted == Occurrences(StatusesOf(owned), "contacted")
    ensures Summarize(owned).qualified == Occurrences(StatusesOf(owned), "qualified")
    ensures Summarize(owned).proposal == Occurrences(StatusesOf(owned), "proposal")
    ensures Summarize(owned).won == Occurrences(StatusesOf(owned), "won")
    ensures Summarize(owned).lost == Occurrences(StatusesOf(owned), "lost")
  {
    var s := StatusesOf(owned);
    TallySum(s);
    TallyCount(s, "new");
    TallyCount(s, "contacted");
    TallyCount(s, "qualified");
    TallyCount(s, "proposal");
    TallyCount(s, "won");
    TallyCount(s, "lost");
  }

  lemma TallySum(s: seq<string>)
    ensures SumCounts(Tally(s)) == |s|
  {
    TallyFacts(s);
  }

  lemma TallyCount(s: seq<string>, y: string)
    ensures CountOf(Tally(s), y) == Occurrences(s, y)
  {
    TallyFacts(s);
  }

  lemma TotalSplits(owned: seq<Lead>)
    ensures Summarize(owned).total == NamedSum(Summarize(owned)) + UnknownCount(StatusesOf(owned))
  {
    SummarizeCounts(owned);
    Partition(StatusesOf(owned));
  }

  /** With no lead of an unknown status, the six counts add up to the total; any such lead makes the total larger. */
  lemma TotalVersusNamed(owned: seq<Lead>)
    ensures Summarize(owned).total >= NamedSum(Summarize(owned))
    ensures Summarize(owned).total > NamedSum(Summarize(owned)) <==>
            exists i :: 0 <= i < |owned| && !LeadStatus.IsKnownStatus(owned[i].status)
  {
    TotalSplits(owned);
    UnknownPositive(StatusesOf(owned));
  }

  lemma {:induction false} UnknownPositive(s: seq<string>)
    ensures UnknownCount(s) > 0 <==> exists i :: 0 <= i < |s| && !LeadStatus.IsKnownStatus(s[i])
  {
    if s != [] {
      UnknownPositive(s[1..]);
      if exists i :: 0 <= i < |s| && !LeadStatus.IsKnownStatus(s[i]) {
        var i :| 0 <= i < |s| && !LeadStatus.IsKnownStatus(s[i]);
        if i > 0 { assert s[1..][i - 1] == s[i]; }
      }
      if exists i :: 0 <= i < |s[1..]| && !LeadStatus.IsKnownStatus(s[1..][i]) {
        var i :| 0 <= i < |s[1..]| && !LeadStatus.IsKnownStatus(s[1..][i]);
        assert s[i + 1] == s[1..][i];
      }
    }
  }
}
