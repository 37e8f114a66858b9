/** The access-control grant tables (apps/api/src/lib/permissions.ts): for each
    role, the actions it may perform on each resource of the statement. */
module Permissions {

  datatype Role = UserRole | AdminRole | SuperadminRole

  /** A role's grant on one resource: an explicit action list, the admin
      plugin's own default list (defined by the authentication library, which is
      not part of this model), or nothing. */
  datatype Grant = Listed(actions: set<string>) | LibraryDefault | NoGrant

  /** The resources the source adds to the library's default statement, with
      every action each of them has. */
  function OwnStatement(resource: string): (actions: set<string>)
    ensures resource !in {"product", "category", "order"} ==> actions == {}
  {
    if resource == "product" || resource == "category" then {"create", "view", "update", "delete"}
    else if resource == "order" then {"view-user", "view-all"}
    else {}
  }

  function Grants(role: Role, resource: string): (g: Grant)
    // a role may only be granted actions that the statement declares
    ensures g.Listed? && resource in {"product", "category", "order"} ==> g.actions <= OwnStatement(resource)
    ensures g.Listed? ==> resource in {"product", "category", "order", "user"}
  {
    match role
    case UserRole =>
      if resource == "product" || resource == "category" then Listed({"view"})
      else if resource == "order" then Listed({"view-user"})
      else NoGrant
    case AdminRole =>
      if resource == "user" then Listed({"list", "ban", "set-password", "update", "impersonate"})
      else if resource == "session" then LibraryDefault
      else if resource in {"product", "category", "order"} then Listed(OwnStatement(resource))
      else NoGrant
    case SuperadminRole =>
      if resource == "user" || resource == "session" then LibraryDefault
      else if resource in {"product", "category", "order"} then Listed(OwnStatement(resource))
      else NoGrant
  }

  /** The role may perform the action according to the explicit lists. */
  predicate Allows(role: Role, resource: string, action: string)
  {
    Grants(role, resource).Listed? && action in Grants(role, resource).actions
  }

  /** A customer may only view products and categories, and only view their own
      orders; nothing on users or sessions. */
  lemma CustomerIsReadOnly(resource: string, action: string)
    ensures resource in {"product", "category"} ==> (Allows(UserRole, resource, action) <==> action == "view")
    ensures Allows(UserRole, "order", action) <==> action == "view-user"
    ensures Grants(UserRole, "user") == NoGrant && Grants(UserRole, "session") == NoGrant
  {
  }

  /** Admin and superadmin hold the same catalogue and order grants: everything
      the statement declares. */
  lemma StaffShareCatalogueGrants(resource: string, action: string)
    requires resource in {"product", "category", "order"}
    ensures Grants(AdminRole, resource) == Grants(SuperadminRole, resource)
    ensures Allows(AdminRole, resource, action) <==> action in OwnStatement(resource)
  {
  }

  /** The admin's actions on users are exactly these five. */
  lemma AdminUserActions(action: string)
    ensures Allows(AdminRole, "user", action) <==>
      action in {"list", "ban", "set-password", "update", "impersonate"}
  {
  }
}
