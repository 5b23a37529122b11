/**
 * `roleAuth(allowedRoles)` of src/middlewares/roleBasedAuth.js: run
 * `authenticate`, then let the request through exactly when `req.user` is
 * present and its role is one of the allowed ones.
 *
 * `authenticate` never calls its callback with an error: a refusal answers
 * the request itself and never calls the callback at all, so the promise
 * around it never settles and the 401 "Authentication failed." branch is
 * never taken.  The model therefore ends the request with authenticate's own
 * answer when it refuses, and runs the role check only after it passed.
 */
module RoleBasedAuth {
  import opened Common
  import opened Auth
  import opened AuthMiddleware

  const InsufficientRole: string := "Access denied. Insufficient role."

  /** The request goes on to the handler with this user, or ends with this status. */
  datatype Gate = Admit(user: UserRecord) | Halt(code: nat)

  function RoleAuth(allowedRoles: seq<string>, auth: AuthOutcome): (g: Gate)
    ensures g.Admit? <==> auth.Pass? && auth.user.Some? && auth.user.value.user.role in allowedRoles
    ensures g.Admit? ==> g.user == auth.user.value
    ensures auth.Reject? ==> g == Halt(auth.code)
    ensures auth.Pass? && !g.Admit? ==> g == Halt(Forbidden)
  {
    match auth
    case Reject(code, _) => Halt(code)
    case Pass(user) =>
      if user.None? || user.value.user.role !in allowedRoles then Halt(Forbidden) else Admit(user.value)
  }

  /** `roleAuth()` with its default, empty role list. */
  function DefaultRoleAuth(auth: AuthOutcome): (g: Gate)
    ensures !g.Admit?
  {
    RoleAuth([], auth)
  }

  /** The role the authenticated user has, where there is one. */
  predicate HasRole(auth: AuthOutcome, role: string) {
    auth.Pass? && auth.user.Some? && auth.user.value.user.role == role
  }

  /** `adminAuth`: admits exactly the admins; authenticate's refusal stands. */
  function AdminAuth(auth: AuthOutcome): (g: Gate)
    ensures g.Admit? <==> HasRole(auth, Admin)
    ensures auth.Reject? ==> g == Halt(auth.code)
  {
    RoleAuth([Admin], auth)
  }

  /** `customerAuth`: admits exactly the customers; authenticate's refusal stands. */
  function CustomerAuth(auth: AuthOutcome): (g: Gate)
    ensures g.Admit? <==> HasRole(auth, Customer)
    ensures auth.Reject? ==> g == Halt(auth.code)
  {
    RoleAuth([Customer], auth)
  }

  /** `vendorAuth`: admits exactly the vendors; authenticate's refusal stands. */
  function VendorAuth(auth: AuthOutcome): (g: Gate)
    ensures g.Admit? <==> HasRole(auth, Vendor)
    ensures auth.Reject? ==> g == Halt(auth.code)
  {
    RoleAuth([Vendor], auth)
  }

  /** No request passes two of the prebuilt gates. */
  lemma PrebuiltGatesAdmitOneRole(auth: AuthOutcome)
    ensures !(AdminAuth(auth).Admit? && VendorAuth(auth).Admit?)
    ensures !(AdminAuth(auth).Admit? && CustomerAuth(auth).Admit?)
    ensures !(VendorAuth(auth).Admit? && CustomerAuth(auth).Admit?)
  {
  }

  /**
   * Over every request: a gate answers 401 exactly when the header carries no
   * token or a blacklisted one (authenticate's own answers, never roleAuth's
   * "Authentication failed."), 400 exactly when the token does not verify,
   * and otherwise, short of admitting, 403.
   */
  lemma HaltCodes(allowedRoles: seq<string>, authorization: Option<string>, blacklist: seq<string>,
                  users: map<Id, User>, verify: string -> Option<Claims>, claim: string)
    ensures RoleAuth(allowedRoles, Authenticate(authorization, blacklist, users, verify, claim)) == Halt(Unauthorized)
      <==> !Truthy(HeaderToken(authorization)) || HeaderToken(authorization).value in blacklist
    ensures RoleAuth(allowedRoles, Authenticate(authorization, blacklist, users, verify, claim)) == Halt(BadRequest)
      <==> Truthy(HeaderToken(authorization)) && HeaderToken(authorization).value !in blacklist
           && verify(HeaderToken(authorization).value).None?
    ensures RoleAuth(allowedRoles, Authenticate(authorization, blacklist, users, verify, claim)).Halt? ==>
      RoleAuth(allowedRoles, Authenticate(authorization, blacklist, users, verify, claim)).code in {Unauthorized, BadRequest, Forbidden}
  {
  }

  /** Widening the allowed roles never turns an admitted request away. */
  lemma MoreRolesAdmitMore(allowed: seq<string>, wider: seq<string>, auth: AuthOutcome)
    requires forall k :: 0 <= k < |allowed| ==> allowed[k] in wider
    ensures RoleAuth(allowed, auth).Admit? ==> RoleAuth(wider, auth).Admit?
  {
  }

  /**
   * As written, a request carrying a token issued by `signIn` is turned away
   * with 403 by every role gate: the middleware finds no user for it.
   */
  lemma SessionTokenAlwaysForbidden(allowedRoles: seq<string>, token: string, blacklist: seq<string>,
                                    users: map<Id, User>, verify: string -> Option<Claims>, id: Id, u: User)
    requires token != "" && ' ' !in token && token !in blacklist
    requires verify(token) == Some(SessionClaims(id, u))
    ensures RoleAuth(allowedRoles, Authenticate(Some(BearerPrefix + token), blacklist, users, verify, WrittenLookupClaim))
      == Halt(Forbidden)
  {
    SessionTokenLoadsNoUser(token, blacklist, users, verify, id, u);
  }

  /** Looked up by `userId`, the same token is admitted exactly when its user's role is allowed. */
  lemma SessionTokenAdmittedByUserId(allowedRoles: seq<string>, token: string, blacklist: seq<string>,
                                     users: map<Id, User>, verify: string -> Option<Claims>, id: Id, u: User)
    requires token != "" && ' ' !in token && token !in blacklist
    requires verify(token) == Some(SessionClaims(id, u)) && id in users
    ensures RoleAuth(allowedRoles, Authenticate(Some(BearerPrefix + token), blacklist, users, verify, UserIdClaim)).Admit?
      <==> users[id].role in allowedRoles
  {
    SessionTokenLoadsUserByUserId(token, blacklist, users, verify, id, u);
  }
}
