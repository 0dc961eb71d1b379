/** The member form: its initial fields, the roles it offers and what it
    submits. */
module MemberForm {
  import opened Wrappers
  import opened Js
  import opened Roles

  /** `member?.[k] || ''` */
  function FieldOr(member: Option<Doc>, k: string, default: string): Value
  {
    Or(if member.Some? then Get(member.value, k) else None, Some(Str(default))).value
  }

  /** The form's initial fields, from the member being edited if any. */
  function InitialForm(member: Option<Doc>): (d: Doc)
    ensures d.Keys == {"name", "email", "role", "position", "experience", "skills", "password", "useGeneratedPassword"}
    ensures d["password"] == Str("") && d["useGeneratedPassword"] == Bool(true)
    ensures member.None? ==> d["role"] == Str("team_member") &&
                             d["name"] == d["email"] == d["position"] == d["experience"] == d["skills"] == Str("")
    ensures member.Some? && Truthy(Get(member.value, "role")) ==> d["role"] == member.value["role"]
    ensures member.Some? && !Truthy(Get(member.value, "role")) ==> d["role"] == Str("team_member")
    ensures forall k :: k in {"name", "email", "position", "experience", "skills"} ==>
              d[k] == if member.Some? && Truthy(Get(member.value, k)) then member.value[k] else Str("")
  {
    map["name" := FieldOr(member, "name", ""), "email" := FieldOr(member, "email", ""),
        "role" := FieldOr(member, "role", "team_member"), "position" := FieldOr(member, "position", ""),
        "experience" := FieldOr(member, "experience", ""), "skills" := FieldOr(member, "skills", ""),
        "password" := Str(""), "useGeneratedPassword" := Bool(true)]
  }

  /** An entry of the role drop-down. */
  datatype RoleOption = RoleOption(value: string, title: string, description: string)

  const ReviewerOption := RoleOption("reviewer", "Reviewer", "Can manage team members and give feedback")
  const TeamMemberOption := RoleOption("team_member", "Team Member", "Can view their own feedback and reports")

  /** `getRoleOptions()`: the team-member role, with the reviewer role put
      in front of it for an admin or a reviewer. Admin is never offered. */
  method RoleOptions(userRole: Option<Value>) returns (options: seq<RoleOption>)
    ensures |options| >= 1 && options[|options| - 1] == TeamMemberOption
    ensures |options| == 2 <==> IsManager(RoleOf(userRole))
    ensures |options| == 2 ==> options[0] == ReviewerOption
    ensures |options| <= 2
    ensures forall i :: 0 <= i < |options| ==> options[i].value != "admin"
  {
    options := [TeamMemberOption];
    if Is(userRole, "admin") || Is(userRole, "reviewer") {
      options := [ReviewerOption] + options;
    }
  }

  class MemberFormState {
    var formData: Doc

    constructor (member: Option<Doc>)
      ensures formData == InitialForm(member)
    {
      formData := InitialForm(member);
    }

    /** `handleChange(field, value)` */
    method Change(field: string, value: Value)
      modifies this
      ensures Get(formData, field) == Some(value)
      ensures forall k :: k != field ==> Get(formData, k) == Get(old(formData), k)
    {
      formData := formData[field := value];
    }

    /** `handleSubmit`: a copy of the form without `useGeneratedPassword`,
        and without `password` when a generated password was chosen. The
        email is submitted when editing too. */
    method Submit() returns (submitData: Doc)
      ensures "useGeneratedPassword" !in submitData
      ensures "password" in submitData <==> "password" in formData && !Truthy(Get(formData, "useGeneratedPassword"))
      ensures forall k :: k != "password" && k != "useGeneratedPassword" ==> Get(submitData, k) == Get(formData, k)
      ensures "password" in submitData ==> submitData["password"] == formData["password"]
    {
      submitData := formData;
      if Truthy(Get(formData, "useGeneratedPassword")) {
        submitData := submitData - {"password"};
      }
      submitData := submitData - {"useGeneratedPassword"};
    }
  }
}
