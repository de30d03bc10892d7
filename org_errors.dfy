/**
 * The organisation error values and validity checks (org/errors.go). A
 * check over a `map[string]bool` literal is a lookup whose missing keys
 * read as `false`, the zero value.
 */
module OrgErrors {
  const ErrNotFound := "resource not found"
  const ErrInvalidRole := "invalid role: must be 'member' or 'admin'"
  const ErrInvalidPermission := "invalid permission: must be 'read', 'write', or 'admin'"
  const ErrInvalidTeamPermission := "invalid team permission: must be 'pull', 'push', 'admin', 'maintain', or 'triage'"

  /** `m[k]` for a `map[string]bool`: false when `k` is absent. */
  predicate Lookup(m: map<string, bool>, k: string)
  {
    k in m && m[k]
  }

  const Permissions := map["read" := true, "write" := true, "admin" := true]
  const TeamPermissions := map["pull" := true, "push" := true, "admin" := true, "maintain" := true, "triage" := true]

  /** `ValidRole`. */
  predicate ValidRole(role: string)
  {
    role == "member" || role == "admin"
  }

  /** `ValidPermission`. */
  predicate ValidPermission(permission: string)
  {
    Lookup(Permissions, permission)
  }

  /** `ValidTeamPermission`. */
  predicate ValidTeamPermission(permission: string)
  {
    Lookup(TeamPermissions, permission)
  }

  /** The repository permissions are exactly read, write and admin. */
  lemma PermissionsExactly(permission: string)
    ensures ValidPermission(permission) <==> permission in {"read", "write", "admin"}
  {
  }

  /** The team permissions are exactly pull, push, admin, maintain and triage. */
  lemma TeamPermissionsExactly(permission: string)
    ensures ValidTeamPermission(permission) <==> permission in {"pull", "push", "admin", "maintain", "triage"}
  {
  }

  /** "admin" is the one string that is both a repository and a team permission. */
  lemma OnlyAdminIsBoth(permission: string)
    ensures ValidPermission(permission) && ValidTeamPermission(permission) <==> permission == "admin"
  {
    PermissionsExactly(permission);
    TeamPermissionsExactly(permission);
  }

  /** The checks compare exactly: other case, surrounding blanks and the empty string are refused. */
  lemma ChecksAreExact()
    ensures !ValidRole("Member") && !ValidRole("ADMIN") && !ValidRole("") && !ValidRole(" member")
    ensures !ValidTeamPermission("PULL") && !ValidTeamPermission("pull ") && !ValidTeamPermission("")
    ensures !ValidPermission("Read") && !ValidPermission("")
  {
    TeamPermissionsExactly("PULL");
    TeamPermissionsExactly("pull ");
    TeamPermissionsExactly("");
    PermissionsExactly("Read");
    PermissionsExactly("");
  }
}
