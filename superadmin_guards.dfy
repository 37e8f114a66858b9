/** The guard chains of the superadmin routes
    (apps/api/src/routes/superadmin/superadmin.route.ts): create a user, change a
    user's role, delete a user. The effects themselves are calls into the
    authentication library; below they are modelled only as the change to the
    user table that the call requests. */
module SuperadminGuards {
  import opened Wrappers
  import opened ApiUtils
  import opened CheckRole
  import opened AdminGuards

  predicate EmailTaken(users: Users, email: string)
  {
    exists id :: id in users && users[id].email == email
  }

  /** POST /create-user: an e-mail already on file is a conflict. */
  function CreateUser(users: Users, email: string): (v: Verdict)
    ensures EmailTaken(users, email) ==> v == Refuse(CONFLICT, "USER_EXISTS", "User already exists")
    ensures v.Proceed? <==> !EmailTaken(users, email)
  {
    if EmailTaken(users, email) then Refuse(CONFLICT, "USER_EXISTS", "User already exists") else Proceed
  }

  /** POST /change-user-role: only "user" and "admin" may be requested. */
  function ChangeUserRole(actor: SessionUser, users: Users, userId: string, role: string): (v: Verdict)
    ensures (userId == "" || role !in {"user", "admin"}) ==> v == Invalid
    ensures userId != "" && role in {"user", "admin"} && userId == actor.id ==>
      v == Refuse(FORBIDDEN, "FORBIDDEN", "User cannot change their own role")
    ensures userId != "" && role in {"user", "admin"} && userId != actor.id && userId !in users ==>
      v == Refuse(NOT_FOUND, "NOT_FOUND", "User not found")
    ensures v.Proceed? <==>
      userId != "" && role in {"user", "admin"} && userId != actor.id && userId in users
      && !IsRole(users[userId], "superadmin")
  {
    if userId == "" || role !in {"user", "admin"} then Invalid
    else if actor.id == userId then Refuse(FORBIDDEN, "FORBIDDEN", "User cannot change their own role")
    else if userId !in users then Refuse(NOT_FOUND, "NOT_FOUND", "User not found")
    else if IsRole(users[userId], "superadmin") then
      Refuse(FORBIDDEN, "FORBIDDEN", "User cannot change the role of a superadmin")
    else Proceed
  }

  /** DELETE /delete-user. */
  function DeleteUser(actor: SessionUser, users: Users, userId: string): (v: Verdict)
    ensures userId == "" ==> v == Invalid
    ensures userId != "" && userId == actor.id ==> v == Refuse(FORBIDDEN, "FORBIDDEN", "User cannot delete their own account")
    ensures userId != "" && userId != actor.id && userId !in users ==>
      v == Refuse(NOT_FOUND, "NOT_FOUND", "User not found")
    ensures v.Proceed? <==>
      userId != "" && userId != actor.id && userId in users && !IsRole(users[userId], "superadmin")
  {
    if userId == "" then Invalid
    else if actor.id == userId then Refuse(FORBIDDEN, "FORBIDDEN", "User cannot delete their own account")
    else if userId !in users then Refuse(NOT_FOUND, "NOT_FOUND", "User not found")
    else if IsRole(users[userId], "superadmin") then Refuse(FORBIDDEN, "FORBIDDEN", "User cannot delete a superadmin")
    else Proceed
  }

  /** The ids of the superadmins on file. */
  function Superadmins(users: Users): set<string>
  {
    set id | id in users && IsRole(users[id], "superadmin")
  }

  datatype SuperadminOp = SetRole(userId: string, role: string) | Remove(userId: string)

  /** A request to the superadmin router: the role gate, then the guards. */
  function SuperadminRequest(user: Option<SessionUser>, users: Users, op: SuperadminOp): (v: Verdict)
    ensures v.Proceed? ==> user.Some? && ActorIs(user.value, "superadmin")
  {
    var gate := Gate(user, SuperadminRole);
    if !gate.Proceed? then gate
    else match op
      case SetRole(u, r) => ChangeUserRole(user.value, users, u, r)
      case Remove(u) => DeleteUser(user.value, users, u)
  }

  /** The change to the user table that an accepted request asks the library for. */
  function Apply(users: Users, op: SuperadminOp): Users
    requires op.userId in users
  {
    match op
    case SetRole(u, r) => users[u := users[u].(role := Some(r))]
    case Remove(u) => users - {u}
  }

  /** No accepted superadmin request adds or removes a superadmin: role
      changes only ever grant "user" or "admin" and never touch a superadmin,
      and deletion never removes one. */
  lemma {:induction false} SuperadminSetPreserved(user: Option<SessionUser>, users: Users, op: SuperadminOp)
    requires SuperadminRequest(user, users, op).Proceed?
    ensures op.userId in users
    ensures Superadmins(Apply(users, op)) == Superadmins(users)
  {
    var after := Apply(users, op);
    forall id | id in Superadmins(users) ensures id in Superadmins(after) {
      assert id != op.userId;
    }
    forall id | id in Superadmins(after) ensures id in Superadmins(users) {
      assert id != op.userId;
    }
  }
}
