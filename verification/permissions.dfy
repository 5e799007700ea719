/** The role table behind `hasPermission`. */
module Permissions {
  import opened Base
  import opened UserCodec

  /** Permission key to the roles it is granted to. */
  const PermissionTable: map<string, seq<string>> := map[
    "users.manage" := ["admin"],
    "products.manage" := ["admin", "manager"],
    "inventory.manage" := ["admin", "manager", "operator"],
    "inbound.manage" := ["admin", "manager", "operator"],
    "outbound.manage" := ["admin", "manager", "operator"],
    "suppliers.manage" := ["admin", "manager"],
    "customers.manage" := ["admin", "manager"],
    "reports.view" := ["admin", "manager", "operator"]
  ]

  /** `hasPermission`: no user, nothing; an admin, everything; anyone else,
      what the table lists for their role. */
  function HasPermission(user: Option<User>, permission: string): (r: bool)
    ensures user.None? ==> !r
    ensures user.Some? && user.value.role == "admin" ==> r
    ensures user.Some? && permission !in PermissionTable ==> (r <==> user.value.role == "admin")
  {
    if user.None? then false
    else if user.value.role == "admin" then true
    else permission in PermissionTable && user.value.role in PermissionTable[permission]
  }

  /** The same grants read by role instead of by permission. */
  function RolePermissions(role: string): set<string> {
    if role == "manager" then
      {"products.manage", "inventory.manage", "inbound.manage", "outbound.manage",
       "suppliers.manage", "customers.manage", "reports.view"}
    else if role == "operator" then
      {"inventory.manage", "inbound.manage", "outbound.manage", "reports.view"}
    else {}
  }

  /** For every role but admin, the table grants exactly the role's permissions. */
  lemma HasPermissionByRole(u: User, permission: string)
    requires u.role != "admin"
    ensures HasPermission(Some(u), permission) <==> permission in RolePermissions(u.role)
  {
    if permission in PermissionTable {
      var roles := PermissionTable[permission];
      if u.role == "manager" || u.role == "operator" {
        assert u.role in roles <==> permission in RolePermissions(u.role);
      } else {
        assert forall r :: r in roles ==> r == "admin" || r == "manager" || r == "operator";
      }
    }
  }

  /** Every permission of an operator is a permission of a manager, and only
      an admin manages users. */
  lemma RolesAreNested(operator: User, manager: User, permission: string)
    requires operator.role == "operator" && manager.role == "manager"
    ensures HasPermission(Some(operator), permission) ==> HasPermission(Some(manager), permission)
    ensures !HasPermission(Some(manager), "users.manage")
  {
    HasPermissionByRole(operator, permission);
    HasPermissionByRole(manager, permission);
    HasPermissionByRole(manager, "users.manage");
  }

  /** Stock movements may be managed by admins, managers and operators only. */
  lemma InventoryManagers(user: Option<User>)
    ensures HasPermission(user, "inventory.manage")
        <==> user.Some? && (user.value.role == "admin" || user.value.role == "manager" || user.value.role == "operator")
  {
  }
}
