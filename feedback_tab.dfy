/** The feedback tab: who may give feedback, its titles and empty-state
    messages, and which parts it renders. */
module FeedbackTab {
  import opened Wrappers
  import opened Js
  import opened Seqs
  import opened Roles
  import FeedbackItem

  /** `canGiveFeedback` */
  predicate CanGiveFeedback(userRole: Option<Value>)
  {
    IsManager(RoleOf(userRole))
  }

  /** Giving feedback is for exactly the admins and the reviewers. */
  lemma CanGiveFeedbackSpec(userRole: Option<Value>)
    ensures CanGiveFeedback(userRole) <==> Is(userRole, "admin") || Is(userRole, "reviewer")
  {
  }

  /** `getTitle()` */
  function Title(userRole: Option<Value>): (r: string)
    ensures r == "My Feedback" <==> Is(userRole, "team_member")
  {
    if Is(userRole, "team_member") then "My Feedback" else "Performance Feedback"
  }

  /** The empty-state title and subtitle. */
  datatype Message = Message(title: string, subtitle: string)

  /** `getEmptyStateMessage()`: the team-member case first, then an empty
      member list, then the default. */
  function EmptyState(userRole: Option<Value>, teamMembers: seq<Doc>): (r: Message)
    ensures Is(userRole, "team_member") ==> r.subtitle == "You haven't received any feedback yet. Check back later!"
    ensures !Is(userRole, "team_member") && teamMembers == [] ==> r.title == "No Team Members"
    ensures !Is(userRole, "team_member") && teamMembers != [] ==>
              r == Message("No Feedback Yet", "Submit your first feedback using the form above")
  {
    if Is(userRole, "team_member") then
      Message("No Feedback Yet", "You haven't received any feedback yet. Check back later!")
    else if |teamMembers| == 0 then
      Message("No Team Members", "Add team members first to start giving feedback")
    else
      Message("No Feedback Yet", "Submit your first feedback using the form above")
  }

  /** The form is rendered for an admin or a reviewer when there are members. */
  predicate ShowsForm(userRole: Option<Value>, teamMembers: seq<Doc>)
  {
    CanGiveFeedback(userRole) && |teamMembers| > 0
  }

  /** The list section is rendered when there are members, or for a team member. */
  predicate ShowsList(userRole: Option<Value>, teamMembers: seq<Doc>)
  {
    |teamMembers| > 0 || Is(userRole, "team_member")
  }

  /** Whether the items get the toggle callback. */
  predicate ItemsGetToggle(userRole: Option<Value>)
  {
    CanGiveFeedback(userRole)
  }

  /** `teamMembers.find(m => m.id === feedback.memberId)`: the member shown
      with an item. */
  function ItemMember(teamMembers: seq<Doc>, feedback: Doc): (r: Option<Doc>)
    ensures r.Some? ==> r.value in teamMembers && Get(r.value, "id") == Get(feedback, "memberId")
    ensures r.None? <==> forall m :: m in teamMembers ==> Get(m, "id") != Get(feedback, "memberId")
    ensures r.Some? ==> exists i :: 0 <= i < |teamMembers| && teamMembers[i] == r.value &&
                              forall j :: 0 <= j < i ==> Get(teamMembers[j], "id") != Get(feedback, "memberId")
  {
    FindFirst(teamMembers, m => Get(m, "id") == Get(feedback, "memberId"));
    Find(teamMembers, m => Get(m, "id") == Get(feedback, "memberId"))
  }

  /** A team member never sees the form or a toggle button, and a toggle
      shown in this tab is on an improvement item seen by a manager. */
  lemma TabGating(userRole: Option<Value>, teamMembers: seq<Doc>, feedback: Doc)
    ensures Is(userRole, "team_member") ==>
              !ShowsForm(userRole, teamMembers) &&
              !FeedbackItem.ShowsToggle(feedback, ItemsGetToggle(userRole), userRole)
    ensures FeedbackItem.ShowsToggle(feedback, ItemsGetToggle(userRole), userRole) ==>
              (Is(userRole, "admin") || Is(userRole, "reviewer")) && Is(Get(feedback, "type"), "improvement")
    ensures ShowsForm(userRole, teamMembers) ==> ShowsList(userRole, teamMembers)
  {
  }
}
