/** The dashboard: the four statistics cards, the recent activity list, the
    team overview and the open/closed breakdown. Date parsing is a function
    parameter; the dates shown are `Js.DateLabel` with `Unknown date`. */
module Dashboard {
  import opened Wrappers
  import opened Js
  import opened Seqs
  import opened Roles
  import opened Tallies
  import Sorting

  /** A statistics card: its title and its number. */
  datatype Stat = Stat(title: string, value: nat)

  /** `getDashboardStats()` */
  function DashboardStats(role: Role, teamMembers: seq<Doc>, feedbacks: seq<Doc>): (stats: seq<Stat>)
    ensures |stats| == 4
    ensures stats[1].value + stats[2].value <= |feedbacks| && stats[3].value <= |feedbacks|
  {
    var t := TallyOf(feedbacks);
    if role == TeamMember then
      [Stat("Total Feedback", t.total), Stat("Positive Feedback", t.positive),
       Stat("Improvement Areas", t.improvement), Stat("Open Action Items", t.open)]
    else
      [Stat("Team Members", |NonAdmins(teamMembers)|), Stat("Positive Feedbacks", t.positive),
       Stat("Improvement Items", t.improvement), Stat("Open Items", t.open)]
  }

  /** A team member's first card counts all the (own) feedback; every other
      role's counts the non-admin members. The other three cards count the
      positive, improvement and open feedback. */
  lemma DashboardStatsSpec(role: Role, teamMembers: seq<Doc>, feedbacks: seq<Doc>)
    ensures var stats := DashboardStats(role, teamMembers, feedbacks);
            (role == TeamMember ==> stats[0].value == |feedbacks|) &&
            (role != TeamMember ==> stats[0].value == |Filter(teamMembers, m => !Is(Get(m, "role"), "admin"))|) &&
            stats[1].value == |Filter(feedbacks, f => Is(Get(f, "type"), "positive"))| &&
            stats[2].value == |Filter(feedbacks, f => Is(Get(f, "type"), "improvement"))| &&
            stats[3].value == |Filter(feedbacks, f => Is(Get(f, "status"), "open"))|
  {
    FilterExt(teamMembers, NotAdmin, m => !Is(Get(m, "role"), "admin"));
    FilterExt(feedbacks, IsPositive, f => Is(Get(f, "type"), "positive"));
    FilterExt(feedbacks, IsImprovement, f => Is(Get(f, "type"), "improvement"));
    FilterExt(feedbacks, IsOpen, f => Is(Get(f, "status"), "open"));
  }

  /** The recent-activity order: the creation time, an invalid date taken
      as the epoch. */
  function RecentKey(f: Doc, parse: string -> Option<int>): int
  {
    var ms := CreatedMs(f, parse);
    if ms.Some? then ms.value else 0
  }

  /** The number of recent items shown. */
  const RecentCount: nat := 5

  /** `getRecentActivity()`: sorts the loaded feedback array itself, newest
      first, and returns its first five items. */
  method RecentActivity(feedbacks: array<Doc>, parse: string -> Option<int>) returns (recent: seq<Doc>)
    modifies feedbacks
    ensures multiset(feedbacks[..]) == multiset(old(feedbacks[..]))
    ensures Sorting.NewestFirst(feedbacks[..], f => RecentKey(f, parse))
    ensures recent == Take(feedbacks[..], RecentCount)
  {
    Sorting.SortNewestFirst(feedbacks, f => RecentKey(f, parse));
    recent := Take(feedbacks[..], RecentCount);
  }

  /** The recent items are at most five, newest first, all from the feedback. */
  lemma RecentActivitySpec(sorted: seq<Doc>, key: Doc -> int)
    requires Sorting.NewestFirst(sorted, key)
    ensures |Take(sorted, RecentCount)| <= 5
    ensures Sorting.NewestFirst(Take(sorted, RecentCount), key)
    ensures forall f :: f in Take(sorted, RecentCount) ==> f in sorted
  {
    var r := Take(sorted, RecentCount);
    forall f | f in r
      ensures f in sorted
    {
      var k :| 0 <= k < |r| && r[k] == f;
      assert sorted[k] == f;
    }
  }

  /** The number of members in the team overview. */
  const OverviewCount: nat := 6

  /** The team overview: the first six non-admin members. */
  function TeamOverview(teamMembers: seq<Doc>): (r: seq<Doc>)
    ensures |r| <= 6
    ensures |r| == if |NonAdmins(teamMembers)| < 6 then |NonAdmins(teamMembers)| else 6
    ensures r == NonAdmins(teamMembers)[..|r|]
    ensures forall m :: m in r ==> m in teamMembers && !Is(Get(m, "role"), "admin")
    ensures IsSubseq(r, teamMembers)
  {
    var shown := NonAdmins(teamMembers);
    SubseqTrans(Take(shown, OverviewCount), shown, teamMembers);
    TakeMembers(shown, OverviewCount);
    Take(shown, OverviewCount)
  }

  /** Every element of a prefix is an element of the sequence. */
  lemma TakeMembers<T>(s: seq<T>, n: nat)
    ensures forall x :: x in Take(s, n) ==> x in s
  {
    forall x | x in Take(s, n)
      ensures x in s
    {
      var k :| 0 <= k < |Take(s, n)| && Take(s, n)[k] == x;
      assert s[k] == x;
    }
  }

  /** The open and closed counts of the performance summary. */
  function OpenClosed(feedbacks: seq<Doc>): (r: (nat, nat))
    ensures r.0 + r.1 <= |feedbacks|
    ensures r.0 == Count(feedbacks, IsOpen) && r.1 == Count(feedbacks, IsClosed)
  {
    OpenClosedBound(feedbacks);
    (Count(feedbacks, IsOpen), Count(feedbacks, IsClosed))
  }

  /** `teamMembers.find(m => m.uid === userData?.uid)`: the user's own profile. */
  function CurrentUserProfile(teamMembers: seq<Doc>, userData: Option<Doc>): (r: Option<Doc>)
    ensures r.Some? ==> r.value in teamMembers
    ensures r.Some? ==> Get(r.value, "uid") == (if userData.Some? then Get(userData.value, "uid") else None)
    ensures r.Some? <==> exists m :: m in teamMembers && Get(m, "uid") == (if userData.Some? then Get(userData.value, "uid") else None)
    ensures r.Some? ==> exists i :: 0 <= i < |teamMembers| && teamMembers[i] == r.value &&
                              forall j :: 0 <= j < i ==> Get(teamMembers[j], "uid") != (if userData.Some? then Get(userData.value, "uid") else None)
  {
    var uid := if userData.Some? then Get(userData.value, "uid") else None;
    FindFirst(teamMembers, m => Get(m, "uid") == uid);
    Find(teamMembers, m => Get(m, "uid") == uid)
  }
}
