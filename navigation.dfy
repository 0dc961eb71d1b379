/** The navigation tabs of each role. */
module Navigation {
  import opened Wrappers
  import opened Js

  datatype Tab = Tab(id: string, title: string)

  const DashboardTab := Tab("dashboard", "Dashboard")

  /** `getTabsForRole()` */
  function TabsForRole(userRole: Option<Value>): (tabs: seq<Tab>)
    ensures |tabs| >= 1 && tabs[0] == DashboardTab
    ensures Is(userRole, "team_member") ==> Ids(tabs) == ["dashboard", "my-feedback", "my-reports"]
    ensures !Is(userRole, "team_member") ==> Ids(tabs) == ["dashboard", "team-members", "feedback", "reports"]
  {
    if Is(userRole, "team_member") then
      [DashboardTab, Tab("my-feedback", "My Feedback"), Tab("my-reports", "My Reports")]
    else
      [DashboardTab, Tab("team-members", "Team Members"), Tab("feedback", "Feedback"), Tab("reports", "Reports")]
  }

  function Ids(tabs: seq<Tab>): (r: seq<string>)
    ensures |r| == |tabs| && forall i :: 0 <= i < |tabs| ==> r[i] == tabs[i].id
  {
    seq(|tabs|, i requires 0 <= i < |tabs| => tabs[i].id)
  }

  /** No tab id appears twice, and a team member has no team tab. */
  lemma TabsSpec(userRole: Option<Value>)
    ensures var ids := Ids(TabsForRole(userRole));
            forall i, j :: 0 <= i < j < |ids| ==> ids[i] != ids[j]
    ensures Is(userRole, "team_member") ==> "team-members" !in Ids(TabsForRole(userRole))
  {
  }
}
