/** The route guard: the loading spinner, the login screen, the access
    denial, or the protected content. */
module ProtectedRoute {
  import opened Wrappers
  import opened Js

  datatype Screen = Spinner | LoginScreen | AccessDenied | Content

  /** `roleHierarchy[role]`: admin 3, reviewer 2, team member 1, and
      `undefined` for anything else. */
  function Level(role: Option<Value>): (r: Option<int>)
    ensures r == Some(3) <==> Is(role, "admin")
    ensures r == Some(2) <==> Is(role, "reviewer")
    ensures r == Some(1) <==> Is(role, "team_member")
    ensures r.None? <==> !(Is(role, "admin") || Is(role, "reviewer") || Is(role, "team_member"))
  {
    if Is(role, "admin") then Some(3)
    else if Is(role, "reviewer") then Some(2)
    else if Is(role, "team_member") then Some(1)
    else None
  }

  /** `userLevel < requiredLevel`: a comparison with `undefined` is false. */
  predicate Below(userRole: Option<Value>, requiredRole: Option<Value>)
  {
    Level(userRole).Some? && Level(requiredRole).Some? && Level(userRole).value < Level(requiredRole).value
  }

  /** The guard's decision, in the source's order. */
  function Decide(loading: bool, signedIn: bool, userData: Option<Doc>, requiredRole: Option<Value>): (s: Screen)
    ensures loading ==> s == Spinner
    ensures !loading && (!signedIn || userData.None?) ==> s == LoginScreen
    ensures !loading && signedIn && userData.Some? && !Truthy(requiredRole) ==> s == Content
    ensures s == AccessDenied <==>
              !loading && signedIn && userData.Some? && Truthy(requiredRole) && Below(Get(userData.value, "role"), requiredRole)
  {
    if loading then Spinner
    else if !signedIn || userData.None? then LoginScreen
    else if Truthy(requiredRole) && Below(Get(userData.value, "role"), requiredRole) then AccessDenied
    else Content
  }

  /** A role that passes a requirement passes it with every higher role. */
  lemma Monotone(userRole: Option<Value>, higherRole: Option<Value>, requiredRole: Option<Value>)
    requires Level(userRole).Some? && Level(higherRole).Some? && Level(userRole).value <= Level(higherRole).value
    requires !Below(userRole, requiredRole)
    ensures !Below(higherRole, requiredRole)
  {
  }

  /** An unrecognised user role or required role is never denied. */
  lemma UnknownNeverDenied(userData: Doc, requiredRole: Option<Value>)
    requires Level(Get(userData, "role")).None? || Level(requiredRole).None?
    ensures Decide(false, true, Some(userData), requiredRole) == Content
  {
  }

  /** Access is denied exactly when both roles are known and the user's
      level is below the required one. */
  lemma DeniedSpec(userData: Doc, requiredRole: Option<Value>)
    requires Truthy(requiredRole)
    ensures Decide(false, true, Some(userData), requiredRole) == AccessDenied <==>
              Level(Get(userData, "role")).Some? && Level(requiredRole).Some? &&
              Level(Get(userData, "role")).value < Level(requiredRole).value
  {
  }
}
