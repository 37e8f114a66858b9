/** The `checkRole` middleware (apps/api/src/middleware/check-role.ts): lets a
    request through only when the signed-in user has one of the required roles. */
module CheckRole {
  import opened Wrappers
  import opened ApiUtils

  /** The signed-in user as the middleware sees it; `role` may be missing. */
  datatype SessionUser = SessionUser(id: string, role: Option<string>)

  /** The middleware's argument: one role name or a list of them. */
  datatype Required = OneRole(role: string) | AnyOf(roles: seq<string>)

  /** A single role is read as a one-element list. */
  function Roles(req: Required): seq<string>
  {
    match req
    case OneRole(r) => [r]
    case AnyOf(rs) => rs
  }

  /** The user has a role in JavaScript's sense: present and not the empty string. */
  predicate HasRole(user: Option<SessionUser>)
  {
    user.Some? && user.value.role.Some? && user.value.role.value != ""
  }

  function Gate(user: Option<SessionUser>, req: Required): (v: Verdict)
    ensures v.Proceed? <==> HasRole(user) && user.value.role.value in Roles(req)
    ensures !HasRole(user) ==> v == Refuse(FORBIDDEN, "FORBIDDEN", "No user or role assigned")
    ensures HasRole(user) && user.value.role.value !in Roles(req) ==>
      v == Refuse(FORBIDDEN, "FORBIDDEN", "User does not have the required role")
  {
    if user.None? || user.value.role.None? || user.value.role.value == "" then
      Refuse(FORBIDDEN, "FORBIDDEN", "No user or role assigned")
    else if user.value.role.value !in Roles(req) then
      Refuse(FORBIDDEN, "FORBIDDEN", "User does not have the required role")
    else
      Proceed
  }

  /** Passing one role name behaves exactly like passing the list holding it. */
  lemma OneRoleIsSingletonList(user: Option<SessionUser>, r: string)
    ensures Gate(user, OneRole(r)) == Gate(user, AnyOf([r]))
  {
  }

  /** The gate in front of the admin and category-management routes. */
  const StaffRoles := AnyOf(["admin", "superadmin"])

  /** The gate in front of the superadmin routes. */
  const SuperadminRole := OneRole("superadmin")

  lemma StaffGate(user: Option<SessionUser>)
    ensures Gate(user, StaffRoles).Proceed? <==>
      user.Some? && (user.value.role == Some("admin") || user.value.role == Some("superadmin"))
  {
  }

  lemma SuperadminGate(user: Option<SessionUser>)
    ensures Gate(user, SuperadminRole).Proceed? <==> user.Some? && user.value.role == Some("superadmin")
  {
  }
}
