/** The session store of the frontend (src/stores/userStore.js): the current role key and
    the permission table looked up for it, replaced together by `setRole`, and saved to the
    browser's storage under "user-storage" to be merged back when the page loads again. */
module UserStoreModel {
  import opened Wrappers
  import opened Access

  /** What `hasPermission` can end in: the answer, or the `TypeError` thrown when the stored
      permission table is `undefined`. */
  datatype PermissionError = UndefinedPermissions

  /** The state as the `persist` middleware saves it: `JSON.stringify` keeps the role key
      and drops a table that is `undefined` (`None`). */
  datatype SavedState = SavedState(currentRole: string, permissions: Option<PermissionTable>)

  class UserStore {
    var currentRole: string
    var permissions: Option<PermissionTable>

    /** The stored table is the one `PERMISSIONS` holds for the stored role key. The constructor
        and `SetRole` establish it; a reload of a state saved under a key outside `ROLES` does
        not (SetRoleThenReload). */
    ghost predicate Consistent()
      reads this
    {
      permissions == PermissionsFor(currentRole)
    }

    /** The initial state: the administrator and the administrator's table. */
    constructor ()
      ensures Consistent()
      ensures currentRole == "admin" && permissions == Some(Permissions(Admin))
    {
      currentRole := "admin";
      permissions := Some(Permissions(Admin));
    }

    /** The store as a page load creates it: the initial state with the saved state, when
        there is one, merged over it key by key, so a saved state without a table keeps the
        administrator's table beside the saved role. */
    constructor Reload(saved: Option<SavedState>)
      ensures saved.None? ==> currentRole == "admin" && permissions == Some(Permissions(Admin))
      ensures saved.Some? ==> currentRole == saved.value.currentRole
      ensures saved.Some? && saved.value.permissions.Some? ==> permissions == saved.value.permissions
      ensures saved.Some? && saved.value.permissions.None? ==> permissions == Some(Permissions(Admin))
    {
      currentRole := "admin";
      permissions := Some(Permissions(Admin));
      if saved.Some? {
        currentRole := saved.value.currentRole;
        if saved.value.permissions.Some? {
          permissions := saved.value.permissions;
        }
      }
    }

    /** What the middleware saves after an update. */
    function Saved(): (s: SavedState)
      reads this
      ensures s.currentRole == currentRole && s.permissions == permissions
    {
      SavedState(currentRole, permissions)
    }

    /** `setRole(role)`: both fields are replaced in one update. A key outside `ROLES`
        stores an undefined table. */
    method SetRole(role: string)
      modifies this
      ensures Consistent()
      ensures currentRole == role && permissions == PermissionsFor(role)
      ensures permissions.Some? <==> role in {"admin", "tomador_decisiones", "operativo"}
    {
      currentRole, permissions := role, PermissionsFor(role);
    }

    /** `hasPermission(name)`: true exactly when the stored table's property `name` is
        `true`; the string `label` and unknown names give false. With no table stored the
        property access throws. The store is not changed. */
    method HasPermission(name: string) returns (r: Result<bool, PermissionError>)
      ensures r.Err? <==> permissions.None?
      ensures permissions.Some? ==>
        (r == Ok(true) <==> exists f :: f in permissions.value.granted && FlagName(f) == name)
      ensures name == "label" ==> r != Ok(true)
    {
      match permissions
      case None =>
        r := Err(UndefinedPermissions);
      case Some(t) =>
        r := Ok(Lookup(t, name) == JsBool(true));
    }
  }

  /** For a role key in `ROLES`, `hasPermission` answers from that role's table. */
  method SetRoleThenAsk(role: Role, flag: Flag) returns (granted: bool)
    ensures granted == (flag in Permissions(role).granted)
  {
    var store := new UserStore();
    store.SetRole(RoleKey(role));
    var r := store.HasPermission(FlagName(flag));
    granted := r == Ok(true);
    if r == Ok(true) {
      var f :| f in Permissions(role).granted && FlagName(f) == FlagName(flag);
      FlagNameInjective(f, flag);
    }
  }

  /** A role set and then reloaded keeps its key. A role key in `ROLES` comes back with its
      own table; any other key comes back with the administrator's table, because the
      undefined table was not saved, so the reloaded store no longer holds
      `PERMISSIONS[currentRole]`. */
  method SetRoleThenReload(role: string) returns (reloadedRole: string, reloadedTable: Option<PermissionTable>, consistent: bool)
    ensures reloadedRole == role
    ensures RoleOfKey(role).Some? ==> reloadedTable == Some(Permissions(RoleOfKey(role).value))
    ensures RoleOfKey(role).None? ==> reloadedTable == Some(Permissions(Admin))
    ensures consistent <==> RoleOfKey(role).Some?
  {
    var store := new UserStore();
    store.SetRole(role);
    var reloaded := new UserStore.Reload(Some(store.Saved()));
    reloadedRole, reloadedTable := reloaded.currentRole, reloaded.permissions;
    consistent := reloadedTable == PermissionsFor(reloadedRole);
  }

  lemma FlagNameInjective(f: Flag, g: Flag)
    requires FlagName(f) == FlagName(g)
    ensures f == g
  {
    assert FlagOfName(FlagName(f)).Some?;
  }
}
