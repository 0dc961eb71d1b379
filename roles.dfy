/** The user roles. The source keeps a role as a string and compares it
    against the three known names; every other string falls through to the
    "unknown role" branches, which `Other` keeps visible. */
module Roles {
  import opened Wrappers
  import opened Js

  datatype Role = Admin | Reviewer | TeamMember | Other(name: string)

  /** The role a stored `role` field denotes. A missing or non-string role
      is an unknown role, like the empty string. */
  function RoleOf(v: Option<Value>): Role
  {
    match v
    case Some(Str(s)) =>
      if s == "admin" then Admin
      else if s == "reviewer" then Reviewer
      else if s == "team_member" then TeamMember
      else Other(s)
    case _ => Other("")
  }

  /** The role of a user record. */
  function RoleOfDoc(d: Doc): Role
  {
    RoleOf(Get(d, "role"))
  }

  /** `role === 'admin' || role === 'reviewer'`: the gate shared by
      `canManageMembers`, `canGiveFeedback`, the toggle button and the
      reviewer option of the member form. */
  predicate IsManager(r: Role)
  {
    r == Admin || r == Reviewer
  }

  /** `getRoleLabel` of the member cards. */
  function RoleLabel(r: Role): string
  {
    match r
    case Admin => "Administrator"
    case Reviewer => "Reviewer"
    case TeamMember => "Team Member"
    case Other(_) => "Unknown"
  }

  /** Every stored role value gets a label; the three known roles get
      distinct labels and only the unknown roles are labelled 'Unknown'. */
  lemma RoleLabelSpec(v: Option<Value>, w: Option<Value>)
    ensures RoleLabel(RoleOf(v)) == "Unknown" <==> !(Is(v, "admin") || Is(v, "reviewer") || Is(v, "team_member"))
    ensures RoleLabel(RoleOf(v)) == RoleLabel(RoleOf(w)) && RoleLabel(RoleOf(v)) != "Unknown" ==> RoleOf(v) == RoleOf(w)
    ensures Is(v, "admin") ==> RoleLabel(RoleOf(v)) == "Administrator"
    ensures Is(v, "reviewer") ==> RoleLabel(RoleOf(v)) == "Reviewer"
    ensures Is(v, "team_member") ==> RoleLabel(RoleOf(v)) == "Team Member"
  {
  }
}
