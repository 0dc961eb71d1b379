/** The team tab: who may manage members, which members are shown, the role
    counts, and the tab's form state. The outcome of the shell's save
    handler is passed in; a failed save leaves the state as it was. */
module TeamMembers {
  import opened Wrappers
  import opened Js
  import opened Seqs
  import opened Roles
  import opened Tallies
  import opened FirebaseService

  /** `canManageMembers` */
  predicate CanManageMembers(userRole: Option<Value>)
  {
    IsManager(RoleOf(userRole))
  }

  /** Managing members is for exactly the admins and the reviewers. */
  lemma CanManageMembersSpec(userRole: Option<Value>)
    ensures CanManageMembers(userRole) <==> Is(userRole, "admin") || Is(userRole, "reviewer")
  {
  }

  /** `filteredMembers`: the listed members without the admins. */
  function DisplayedMembers(teamMembers: seq<Doc>): seq<Doc>
  {
    NonAdmins(teamMembers)
  }

  /** The reviewer and team-member counts of the summary. */
  function RoleCounts(displayed: seq<Doc>): (r: (nat, nat))
    ensures r.0 + r.1 <= |displayed|
    ensures r.0 == |Filter(displayed, m => Is(Get(m, "role"), "reviewer"))|
    ensures r.1 == |Filter(displayed, m => Is(Get(m, "role"), "team_member"))|
  {
    var reviewer := m => Is(Get(m, "role"), "reviewer");
    var member := m => Is(Get(m, "role"), "team_member");
    DisjointCounts(displayed, reviewer, member);
    (Count(displayed, reviewer), Count(displayed, member))
  }

  /** Whether the cards get edit and delete callbacks. */
  predicate CardActions(userRole: Option<Value>)
  {
    CanManageMembers(userRole)
  }

  /** Whether a save result is shown as credentials: a created member with
      a password, when no member was being edited. */
  predicate ShowsCredentials(result: Option<Created>, editingMember: Option<Doc>)
  {
    result.Some? && Truthy(Some(result.value.password)) && editingMember.None?
  }

  class TeamMembersView {
    var showAddMember: bool
    var editingMember: Option<Doc>
    var showCredentials: Option<Created>

    constructor ()
      ensures !showAddMember && editingMember == None && showCredentials == None
    {
      showAddMember, editingMember, showCredentials := false, None, None;
    }

    /** The member form is rendered only for a manager. */
    predicate FormShown(userRole: Option<Value>)
      reads this
    {
      showAddMember && CanManageMembers(userRole)
    }

    /** The "Add Team Member" button. */
    method AddMember()
      modifies this
      ensures showAddMember && editingMember == old(editingMember) && showCredentials == old(showCredentials)
    {
      showAddMember := true;
    }

    /** `handleEditMember(member)` */
    method EditMember(member: Doc)
      modifies this
      ensures showAddMember && editingMember == Some(member) && showCredentials == old(showCredentials)
    {
      editingMember := Some(member);
      showAddMember := true;
    }

    /** `handleCancel` */
    method Cancel()
      modifies this
      ensures !showAddMember && editingMember == None && showCredentials == old(showCredentials)
    {
      showAddMember := false;
      editingMember := None;
    }

    /** `handleSaveMember(memberData)` once the shell's handler has answered
        with `outcome`: the credentials of a new member are shown, and the
        form is closed. A failure propagates and changes nothing. */
    method SaveMember(outcome: Result<Option<Created>, string>)
      modifies this
      ensures outcome.Err? ==>
                showAddMember == old(showAddMember) && editingMember == old(editingMember) &&
                showCredentials == old(showCredentials)
      ensures outcome.Ok? ==> !showAddMember && editingMember == None
      ensures outcome.Ok? && ShowsCredentials(outcome.value, old(editingMember)) ==>
                showCredentials == outcome.value
      ensures outcome.Ok? && !ShowsCredentials(outcome.value, old(editingMember)) ==>
                showCredentials == old(showCredentials)
    {
      if outcome.Err? {
        return;
      }
      var result := outcome.value;
      if result.Some? && Truthy(Some(result.value.password)) && editingMember.None? {
        showCredentials := result;
      }
      showAddMember := false;
      editingMember := None;
    }
  }
}
