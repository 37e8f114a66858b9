/** The guard chains of the admin routes (apps/api/src/routes/admin/admin.route.ts).
    Each handler checks ids and roles in a fixed order and either refuses with an
    error reply or goes on to call the authentication library, whose effect is
    not part of this model. */
module AdminGuards {
  import opened Text
  import opened Wrappers
  import opened ApiUtils
  import opened CheckRole

  /** A row of the user table: id, e-mail and role (which may be missing). */
  datatype UserRecord = UserRecord(id: string, email: string, role: Option<string>)

  /** The user table by id, and the session table: session token to user id. */
  type Users = map<string, UserRecord>
  type Sessions = map<string, string>

  predicate IsRole(u: UserRecord, r: string) { u.role == Some(r) }

  predicate ActorIs(actor: SessionUser, r: string) { actor.role == Some(r) }

  /** POST /list-user-sessions. */
  function ListUserSessions(actor: SessionUser, users: Users, userId: string): (v: Verdict)
    ensures userId == "" ==> v == Invalid
    ensures userId != "" && userId !in users ==> v == Refuse(NOT_FOUND, "NOT_FOUND", "User not found")
    ensures v.Proceed? <==>
      userId != "" && userId in users && (IsRole(users[userId], "superadmin") ==> ActorIs(actor, "superadmin"))
  {
    if userId == "" then Invalid
    else if userId !in users then Refuse(NOT_FOUND, "NOT_FOUND", "User not found")
    else if IsRole(users[userId], "superadmin") && !ActorIs(actor, "superadmin") then
      Refuse(FORBIDDEN, "FORBIDDEN", "User cannot get superadmin info")
    else Proceed
  }

  /** The rule shared by the session-revoking and password-changing handlers,
      once the target is found: a superadmin target needs a superadmin actor, and
      an admin may not act on another admin. `what` is the tail of the messages. */
  function StaffOverTarget(actor: SessionUser, target: UserRecord, superadminMsg: string, fellowMsg: string): (v: Verdict)
    ensures v.Proceed? <==>
      && (IsRole(target, "superadmin") ==> ActorIs(actor, "superadmin"))
      && !(IsRole(target, "admin") && ActorIs(actor, "admin") && target.id != actor.id)
    ensures v.Refuse? ==> v.status == FORBIDDEN && v.code == "FORBIDDEN"
  {
    if IsRole(target, "superadmin") && !ActorIs(actor, "superadmin") then
      Refuse(FORBIDDEN, "FORBIDDEN", superadminMsg)
    else if IsRole(target, "admin") && ActorIs(actor, "admin") && target.id != actor.id then
      Refuse(FORBIDDEN, "FORBIDDEN", fellowMsg)
    else Proceed
  }

  /** POST /revoke-user-session: the session is looked up first, then its owner. */
  function RevokeUserSession(actor: SessionUser, users: Users, sessions: Sessions, token: string): (v: Verdict)
    ensures token == "" ==> v == Invalid
    ensures token != "" && token !in sessions ==> v == Refuse(NOT_FOUND, "NOT_FOUND", "Session not found")
    ensures token != "" && token in sessions && sessions[token] !in users ==>
      v == Refuse(NOT_FOUND, "NOT_FOUND", "User not found")
    ensures v.Proceed? <==>
      && token != "" && token in sessions && sessions[token] in users
      && (IsRole(users[sessions[token]], "superadmin") ==> ActorIs(actor, "superadmin"))
      && !(IsRole(users[sessions[token]], "admin") && ActorIs(actor, "admin") && users[sessions[token]].id != actor.id)
  {
    if token == "" then Invalid
    else if token !in sessions then Refuse(NOT_FOUND, "NOT_FOUND", "Session not found")
    else if sessions[token] !in users then Refuse(NOT_FOUND, "NOT_FOUND", "User not found")
    else StaffOverTarget(actor, users[sessions[token]],
                         "User cannot revoke superadmin session", "Admin cannot revoke fellow admin session")
  }

  /** POST /revoke-user-sessions. */
  function RevokeUserSessions(actor: SessionUser, users: Users, userId: string): (v: Verdict)
    ensures userId == "" ==> v == Invalid
    ensures userId != "" && userId !in users ==> v == Refuse(NOT_FOUND, "NOT_FOUND", "User not found")
    ensures v.Proceed? <==>
      && userId != "" && userId in users
      && (IsRole(users[userId], "superadmin") ==> ActorIs(actor, "superadmin"))
      && !(IsRole(users[userId], "admin") && ActorIs(actor, "admin") && users[userId].id != actor.id)
  {
    if userId == "" then Invalid
    else if userId !in users then Refuse(NOT_FOUND, "NOT_FOUND", "User not found")
    else StaffOverTarget(actor, users[userId],
                         "User cannot revoke superadmin sessions", "Admin cannot revoke fellow admin session")
  }

  /** POST /change-user-password: the new password needs at least 8 UTF-16
      code units, the length zod's `min(8)` measures. */
  function ChangeUserPassword(actor: SessionUser, users: Users, userId: string, newPassword: string): (v: Verdict)
    ensures (userId == "" || Utf16Len(newPassword) < 8) ==> v == Invalid
    ensures userId != "" && Utf16Len(newPassword) >= 8 && userId !in users ==>
      v == Refuse(NOT_FOUND, "NOT_FOUND", "User not found")
    ensures v.Proceed? <==>
      && userId != "" && Utf16Len(newPassword) >= 8 && userId in users
      && (IsRole(users[userId], "superadmin") ==> ActorIs(actor, "superadmin"))
      && !(IsRole(users[userId], "admin") && ActorIs(actor, "admin") && users[userId].id != actor.id)
  {
    if userId == "" || Utf16Len(newPassword) < 8 then Invalid
    else if userId !in users then Refuse(NOT_FOUND, "NOT_FOUND", "User not found")
    else StaffOverTarget(actor, users[userId],
                         "User cannot change superadmin password", "Admin cannot change fellow admin password")
  }

  /** The length rule counts code units: four emoji from outside the Basic
      Multilingual Plane are as long a password as eight ASCII letters. */
  lemma PasswordLengthInCodeUnits(actor: SessionUser, users: Users, userId: string)
    ensures ChangeUserPassword(actor, users, userId, "\U{1F600}\U{1F600}\U{1F600}\U{1F600}")
         == ChangeUserPassword(actor, users, userId, "abcdefgh")
    ensures userId != "" ==> ChangeUserPassword(actor, users, userId, "abcdefg") == Invalid
  {
    var e := '\U{1F600}';
    assert Utf16Len([e]) == 2 by { assert [e][..0] == []; }
    assert Utf16Len([e, e]) == 4 by { assert [e, e][..1] == [e]; }
    assert Utf16Len([e, e, e]) == 6 by { assert [e, e, e][..2] == [e, e]; }
    assert Utf16Len([e, e, e, e]) == 8 by { assert [e, e, e, e][..3] == [e, e, e]; }
    Utf16LenIsLength("abcdefgh");
    Utf16LenIsLength("abcdefg");
  }

  /** The rule shared by ban and unban. `verb` is "ban" or "unban". The
      self-check comes before the lookup. */
  function BanRule(actor: SessionUser, users: Users, userId: string, verb: string): (v: Verdict)
    ensures userId == actor.id ==> v == Refuse(FORBIDDEN, "FORBIDDEN", "User cannot " + verb + " their own account")
    ensures userId != actor.id && userId !in users ==> v == Refuse(NOT_FOUND, "NOT_FOUND", "User not found")
    ensures v.Proceed? <==>
      && userId != actor.id && userId in users
      && !IsRole(users[userId], "superadmin")
      && !(IsRole(users[userId], "admin") && ActorIs(actor, "admin"))
  {
    if actor.id == userId then Refuse(FORBIDDEN, "FORBIDDEN", "User cannot " + verb + " their own account")
    else if userId !in users then Refuse(NOT_FOUND, "NOT_FOUND", "User not found")
    else if IsRole(users[userId], "superadmin") then Refuse(FORBIDDEN, "FORBIDDEN", "User cannot " + verb + " a superadmin")
    else if IsRole(users[userId], "admin") && ActorIs(actor, "admin") then
      Refuse(FORBIDDEN, "FORBIDDEN", "An admin cannot " + verb + " a fellow admin")
    else Proceed
  }

  /** POST /ban-user (the body schema is the library's, not part of this model). */
  function BanUser(actor: SessionUser, users: Users, userId: string): (v: Verdict)
    ensures v == BanRule(actor, users, userId, "ban")
    ensures v.Proceed? <==>
      && userId != actor.id && userId in users
      && !IsRole(users[userId], "superadmin")
      && !(IsRole(users[userId], "admin") && ActorIs(actor, "admin"))
  {
    BanRule(actor, users, userId, "ban")
  }

  /** POST /unban-user. */
  function UnbanUser(actor: SessionUser, users: Users, userId: string): (v: Verdict)
    ensures userId == "" ==> v == Invalid
    ensures userId != "" ==> v == BanRule(actor, users, userId, "unban")
    ensures v.Proceed? <==>
      && userId != "" && userId != actor.id && userId in users
      && !IsRole(users[userId], "superadmin")
      && !(IsRole(users[userId], "admin") && ActorIs(actor, "admin"))
  {
    if userId == "" then Invalid else BanRule(actor, users, userId, "unban")
  }

  /** The operations of the admin router. */
  datatype AdminOp =
    | ListSessions(userId: string)
    | RevokeSession(token: string)
    | RevokeSessions(userId: string)
    | ChangePassword(userId: string, newPassword: string)
    | Ban(userId: string)
    | Unban(userId: string)

  /** A request to the admin router: the role gate, then the handler's guards. */
  function AdminRequest(user: Option<SessionUser>, users: Users, sessions: Sessions, op: AdminOp): (v: Verdict)
    ensures v.Proceed? ==> user.Some? && (ActorIs(user.value, "admin") || ActorIs(user.value, "superadmin"))
  {
    var gate := Gate(user, StaffRoles);
    if !gate.Proceed? then gate
    else
      match op
      case ListSessions(u) => ListUserSessions(user.value, users, u)
      case RevokeSession(t) => RevokeUserSession(user.value, users, sessions, t)
      case RevokeSessions(u) => RevokeUserSessions(user.value, users, u)
      case ChangePassword(u, p) => ChangeUserPassword(user.value, users, u, p)
      case Ban(u) => BanUser(user.value, users, u)
      case Unban(u) => UnbanUser(user.value, users, u)
  }

  /** The user a request acts on, when it names one that exists. */
  function Target(users: Users, sessions: Sessions, op: AdminOp): Option<string>
  {
    var id := match op
      case RevokeSession(t) => if t in sessions then sessions[t] else ""
      case ListSessions(u) => u
      case RevokeSessions(u) => u
      case ChangePassword(u, _) => u
      case Ban(u) => u
      case Unban(u) => u;
    if id in users then Some(id) else None
  }

  /** Nobody but a superadmin gets past the admin router to act on a
      superadmin, and a ban or unban of a superadmin never goes through. */
  lemma SuperadminsProtected(user: Option<SessionUser>, users: Users, sessions: Sessions, op: AdminOp)
    requires Target(users, sessions, op).Some? && IsRole(users[Target(users, sessions, op).value], "superadmin")
    ensures AdminRequest(user, users, sessions, op).Proceed? ==> ActorIs(user.value, "superadmin")
    ensures (op.Ban? || op.Unban?) ==> !AdminRequest(user, users, sessions, op).Proceed?
  {
  }

  /** Revoking one session applies to the session's owner the same rule as
      revoking all of that user's sessions. */
  lemma RevokeOneLikeRevokeAll(actor: SessionUser, users: Users, sessions: Sessions, token: string)
    requires token != "" && token in sessions && sessions[token] != ""
    ensures RevokeUserSession(actor, users, sessions, token).Proceed? <==>
            RevokeUserSessions(actor, users, sessions[token]).Proceed?
  {
  }

  /** An admin may list and revoke their own sessions and change their own
      password, but not another admin's. */
  lemma AdminOnAdmins(actor: SessionUser, users: Users, userId: string, newPassword: string)
    requires ActorIs(actor, "admin") && userId in users && IsRole(users[userId], "admin")
    requires userId != "" && Utf16Len(newPassword) >= 8 && users[userId].id == userId
    ensures ListUserSessions(actor, users, userId).Proceed?
    ensures RevokeUserSessions(actor, users, userId).Proceed? <==> userId == actor.id
    ensures ChangeUserPassword(actor, users, userId, newPassword).Proceed? <==> userId == actor.id
    ensures !BanUser(actor, users, userId).Proceed? && !UnbanUser(actor, users, userId).Proceed?
  {
  }
}
