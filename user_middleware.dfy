/**
 * The two guards of src/middlewares/usermiddleware.js: `adminGetUsers`
 * refuses a role query that lists "admin", and `adminDeleteOrUpdateUser`
 * lets a caller touch a user only when the caller is an admin, or is that
 * user and the user is not an admin.
 */
module UserMiddleware {
  import opened Common
  import opened Auth
  import opened AuthMiddleware

  const DefaultRoleQuery: string := "customer,vendor"

  /** `next()`, or a response that ends the request. */
  datatype Decision = Next | Deny(code: nat, message: string)

  /** The role query after `adminGetUsers` has put in its default. */
  function RoleQuery(role: Option<string>): (q: string)
    ensures Truthy(role) ==> q == role.value
    ensures !Truthy(role) ==> q == DefaultRoleQuery
  {
    if Truthy(role) then role.value else DefaultRoleQuery
  }

  /** `adminGetUsers`: 403 exactly when one comma-separated piece of the role query is "admin". */
  function AdminGetUsers(role: Option<string>): (d: Decision)
    ensures d.Deny? <==> Admin in Split(RoleQuery(role), ',')
    ensures d.Deny? ==> d.code == Forbidden
  {
    if Admin in Split(RoleQuery(role), ',') then Deny(Forbidden, "Unauthorized to view admin user data") else Next
  }

  /** A query of two comma-free roles, neither of them "admin", is let through. */
  lemma TwoRolesAllowed(a: string, b: string)
    requires ',' !in a && ',' !in b && a != "" && a != Admin && b != Admin
    ensures AdminGetUsers(Some(a + [','] + b)) == Next
  {
    SplitTwo(a, b, ',');
  }

  /** The default query asks for customers and vendors, and is let through. */
  lemma DefaultQueryAllowed()
    ensures AdminGetUsers(None) == Next
  {
    TwoRolesAllowed(Customer, Vendor);
    assert RoleQuery(None) == RoleQuery(Some(Customer + [','] + Vendor));
  }

  /** For a query written as a comma-separated list of roles, it is refused exactly when "admin" is in the list. */
  lemma AdminGetUsersIff(roles: seq<string>)
    requires |roles| > 0
    requires forall k :: 0 <= k < |roles| ==> ',' !in roles[k]
    ensures AdminGetUsers(Some(Join(roles, ','))).Deny? <==> Admin in roles
  {
    JoinSplit(roles, ',');
    if Join(roles, ',') == "" {
      DefaultQueryAllowed();
      assert roles == [""];
    }
  }

  predicate IsSelf(caller: UserRecord, targetId: Id) {
    caller.id == targetId
  }

  predicate IsAdmin(caller: UserRecord) {
    caller.user.role == Admin
  }

  /**
   * `adminDeleteOrUpdateUser`: 404 for an unknown target; 500 when no user
   * is on the request (reading `req.user._id` throws); 403 unless the caller
   * is the target or an admin; 403 when a non-admin targets an admin.
   */
  function AdminDeleteOrUpdateUser(caller: Option<UserRecord>, targetId: Id, users: map<Id, User>): (d: Decision)
    ensures targetId !in users ==> d == Deny(NotFound, "User not found")
    ensures targetId in users && caller.None? ==> d == Deny(ServerError, "Internal server error")
    ensures targetId in users && caller.Some? && !IsSelf(caller.value, targetId) && !IsAdmin(caller.value) ==>
      d.Deny? && d.code == Forbidden
    ensures d.Deny? ==> d.code in {NotFound, ServerError, Forbidden}
  {
    if targetId !in users then Deny(NotFound, "User not found")
    else if caller.None? then Deny(ServerError, "Internal server error")
    else
      var isSelf := caller.value.id == targetId;
      var isAdmin := caller.value.user.role == Admin;
      if !isSelf && !isAdmin then Deny(Forbidden, "Unauthorized to modify or delete this user")
      else if users[targetId].role == Admin && !isAdmin then Deny(Forbidden, "Only admins can modify admin accounts")
      else Next
  }

  /** The guard passes exactly when the caller is an admin, or is the target and the target is not an admin. */
  lemma AdminDeleteOrUpdateUserIff(caller: Option<UserRecord>, targetId: Id, users: map<Id, User>)
    ensures AdminDeleteOrUpdateUser(caller, targetId, users) == Next <==>
      && targetId in users && caller.Some?
      && (IsAdmin(caller.value) || (IsSelf(caller.value, targetId) && users[targetId].role != Admin))
  {
  }

  /** A non-admin never passes the guard for an admin account, not even their own. */
  lemma NonAdminNeverTouchesAdmin(caller: UserRecord, targetId: Id, users: map<Id, User>)
    requires targetId in users && users[targetId].role == Admin && !IsAdmin(caller)
    ensures AdminDeleteOrUpdateUser(Some(caller), targetId, users) == Deny(Forbidden, "Only admins can modify admin accounts")
      || AdminDeleteOrUpdateUser(Some(caller), targetId, users) == Deny(Forbidden, "Unauthorized to modify or delete this user")
  {
  }
}
