/**
 * The account handlers of src/controllers/authController.js.  The user
 * collection is a map from id to record; the token blacklist is one
 * sequence shared by the whole process, which `signOut` appends to and
 * `isTokenBlacklisted` searches.  bcrypt and JWT are not modelled: the
 * controller is built over four uninterpreted capabilities (hash, compare,
 * sign, verify), so the contracts speak of which branch is taken and what
 * is stored, never of cryptography or expiry.
 */
module Auth {
  import opened Common

  datatype User = User(name: string, email: string, password: string, role: string, phone: Option<string>)

  /** The payload of a signed token. */
  type Claims = map<string, string>

  const UserIdClaim: string := "userId"
  const RoleClaim: string := "role"
  /** `expiresIn` of a session token and of a password-reset token. */
  const SessionExpiry: string := "1d"
  const ResetExpiry: string := "15m"
  const BearerPrefix: string := "Bearer "
  const InvalidCredentials: string := "Invalid credentials"

  /** What `signIn` signs: the user's id and role. */
  function SessionClaims(id: Id, u: User): Claims {
    map[UserIdClaim := id, RoleClaim := u.role]
  }

  /** What `forgotPassword` signs: the user's id only. */
  function ResetClaims(id: Id): Claims {
    map[UserIdClaim := id]
  }

  predicate HasEmail(users: map<Id, User>, email: string) {
    exists id :: id in users && users[id].email == email
  }

  /** A header starting with "Bearer " splits on spaces into "Bearer" and at least one more piece. */
  lemma BearerSplit(h: string)
    requires StartsWith(h, BearerPrefix)
    ensures |Split(h, ' ')| >= 2 && Split(h, ' ')[0] == "Bearer"
  {
    assert h == "Bearer" + [' '] + h[|BearerPrefix|..];
    SplitAfterWord("Bearer", ' ', h[|BearerPrefix|..]);
  }

  /** The token `signOut` takes from the header: `authHeader.split(' ')[1]` when it starts with "Bearer ". */
  function BearerToken(header: Option<string>): (t: Option<string>)
    ensures t.Some? <==> header.Some? && StartsWith(header.value, BearerPrefix)
    ensures t.Some? ==> |Split(header.value, ' ')| >= 2 && t.value == Split(header.value, ' ')[1]
  {
    if header.Some? && StartsWith(header.value, BearerPrefix) then
      BearerSplit(header.value);
      Some(Split(header.value, ' ')[1])
    else
      None
  }

  /** The header a client sends with a space-free token carries exactly that token. */
  lemma BearerTokenOf(token: string)
    requires ' ' !in token
    ensures BearerToken(Some(BearerPrefix + token)) == Some(token)
  {
    var h := BearerPrefix + token;
    assert h == "Bearer" + [' '] + token;
    assert StartsWith(h, BearerPrefix);
    SplitAfterWord("Bearer", ' ', token);
    SplitNoSep(token, ' ');
  }

  class AuthController {
    var users: map<Id, User>
    /** The in-memory blacklist, in the order tokens were signed out. */
    var blacklist: seq<string>
    /** `bcrypt.hash(password, 10)`. */
    const hash: string -> string
    /** `bcrypt.compare(plain, hashed)`. */
    const compare: (string, string) -> bool
    /** `jwt.sign(claims, secret, { expiresIn })`. */
    const sign: (Claims, string) -> string
    /** `jwt.verify(token, secret)`: the claims, or None where it throws. */
    const verify: string -> Option<Claims>
    /**
     * The `{ phone_no: emailOrPhone }` half of `userExists`'s query, on one
     * stored user.  The user schema has no `phone_no` path, so what this
     * clause matches depends on how the driver treats an unknown path in a
     * filter (nothing, or every document); it is left uninterpreted.
     */
    const phoneClause: (User, string) -> bool

    constructor (hash: string -> string, compare: (string, string) -> bool,
                 sign: (Claims, string) -> string, verify: string -> Option<Claims>,
                 phoneClause: (User, string) -> bool)
      ensures users == map[] && blacklist == []
      ensures this.hash == hash && this.compare == compare && this.sign == sign && this.verify == verify
      ensures this.phoneClause == phoneClause
    {
      users := map[];
      blacklist := [];
      this.hash := hash;
      this.compare := compare;
      this.sign := sign;
      this.verify := verify;
      this.phoneClause := phoneClause;
    }

    /** `userExists(emailOrPhone)`: `findOne` over `$or` of the email clause and the phone clause found a user. */
    predicate UserExists(emailOrPhone: string): (b: bool)
      reads this
      ensures HasEmail(users, emailOrPhone) ==> b
      ensures b ==> exists id :: id in users && (users[id].email == emailOrPhone || phoneClause(users[id], emailOrPhone))
    {
      exists id :: id in users && (users[id].email == emailOrPhone || phoneClause(users[id], emailOrPhone))
    }

    /** `token` is the session token of user `id`, whose email and password were presented. */
    predicate SessionOf(id: Id, email: string, password: string, token: Option<string>)
      reads this
    {
      && id in users && users[id].email == email && compare(password, users[id].password)
      && token == Some(sign(SessionClaims(id, users[id]), SessionExpiry))
    }

    /** `token` is the reset token of user `id`, who has that email. */
    predicate ResetOf(id: Id, email: string, token: Option<string>)
      reads this
    {
      id in users && users[id].email == email && token == Some(sign(ResetClaims(id), ResetExpiry))
    }

    /** `isTokenBlacklisted`: the token occurs somewhere in the blacklist. */
    predicate IsTokenBlacklisted(token: string): (b: bool)
      reads this
      ensures b <==> exists i :: 0 <= i < |blacklist| && blacklist[i] == token
    {
      token in blacklist
    }

    /** `signUp`: 400 for an existing user; otherwise stores the hashed password and the given role, customer when none. */
    method SignUp(name: string, email: string, password: string, role: Option<string>, phone: Option<string>, newId: Id)
      returns (code: nat)
      requires newId !in users
      modifies this`users
      ensures old(UserExists(email)) ==> code == BadRequest && users == old(users)
      ensures !old(UserExists(email)) ==>
        && code == Created
        && users == old(users)[newId := User(name, email, hash(password), if Truthy(role) then role.value else Customer, phone)]
      ensures code == Created ==> users[newId].role == (if Truthy(role) then role.value else Customer)
    {
      if UserExists(email) {
        return BadRequest;
      }
      var u := User(name, email, hash(password), if role.Some? && role.value != "" then role.value else Customer, phone);
      users := users[newId := u];
      return Created;
    }

    /**
     * `signIn`: the user found by email signs in when the password matches,
     * with a one-day token over its id and role.  An unknown email and a wrong
     * password give the same answer.
     */
    method SignIn(email: string, password: string) returns (code: nat, message: string, token: Option<string>)
      ensures code == Ok ==> exists id :: SessionOf(id, email, password, token)
      ensures code != Ok ==> code == BadRequest && message == InvalidCredentials && token == None
      ensures !HasEmail(users, email) ==> code == BadRequest
      ensures HasEmail(users, email) && (forall id :: id in users && users[id].email == email ==> compare(password, users[id].password))
        ==> code == Ok
      ensures (forall id :: id in users && users[id].email == email ==> !compare(password, users[id].password))
        ==> code == BadRequest
    {
      if !exists id :: id in users && users[id].email == email {
        return BadRequest, InvalidCredentials, None;
      }
      var id :| id in users && users[id].email == email;
      var u := users[id];
      if !compare(password, u.password) {
        return BadRequest, InvalidCredentials, None;
      }
      token := Some(sign(SessionClaims(id, u), SessionExpiry));
      assert SessionOf(id, email, password, token);
      return Ok, "", token;
    }

    /** `signOut`: a Bearer header's token joins the blacklist; every header is answered 200. */
    method SignOut(authorization: Option<string>) returns (code: nat)
      modifies this`blacklist
      ensures code == Ok
      ensures BearerToken(authorization).Some? ==> blacklist == old(blacklist) + [BearerToken(authorization).value]
      ensures BearerToken(authorization).None? ==> blacklist == old(blacklist)
      ensures forall t :: IsTokenBlacklisted(t) <==> old(IsTokenBlacklisted(t)) || BearerToken(authorization) == Some(t)
    {
      if authorization.Some? && StartsWith(authorization.value, BearerPrefix) {
        BearerSplit(authorization.value);
        var token := Split(authorization.value, ' ')[1];
        blacklist := blacklist + [token];
      }
      return Ok;
    }

    /** `forgotPassword`: 404 for an unknown email; otherwise a fifteen-minute reset token over the user's id. */
    method ForgotPassword(email: string) returns (code: nat, resetToken: Option<string>)
      ensures !HasEmail(users, email) ==> code == NotFound && resetToken == None
      ensures HasEmail(users, email) ==> code == Ok && exists id :: ResetOf(id, email, resetToken)
    {
      if !exists id :: id in users && users[id].email == email {
        return NotFound, None;
      }
      var id :| id in users && users[id].email == email;
      resetToken := Some(sign(ResetClaims(id), ResetExpiry));
      assert ResetOf(id, email, resetToken);
      return Ok, resetToken;
    }

    /**
     * `resetPassword`: a blacklisted token is refused before it is verified;
     * a token that does not verify is refused; a verified token names the
     * user whose password is replaced by the hash of the new one.
     */
    method ResetPassword(token: string, newPassword: string) returns (code: nat)
      modifies this`users
      ensures IsTokenBlacklisted(token) ==> code == BadRequest && users == old(users)
      ensures !IsTokenBlacklisted(token) && verify(token).None? ==> code == BadRequest && users == old(users)
      ensures !IsTokenBlacklisted(token) && verify(token).Some? ==>
        var claims := verify(token).value;
        if UserIdClaim in claims && claims[UserIdClaim] in old(users) then
          code == Ok && users == old(users)[claims[UserIdClaim] := old(users)[claims[UserIdClaim]].(password := hash(newPassword))]
        else
          code == NotFound && users == old(users)
      ensures code == Ok ==> users.Keys == old(users).Keys
    {
      if token in blacklist {
        return BadRequest;
      }
      var decoded := verify(token);
      if decoded.None? {
        return BadRequest;
      }
      var claims := decoded.value;
      if UserIdClaim !in claims || claims[UserIdClaim] !in users {
        return NotFound;
      }
      var id := claims[UserIdClaim];
      users := users[id := users[id].(password := hash(newPassword))];
      return Ok;
    }
  }

  /**
   * The two readings of the phone clause: matching nothing, `userExists` is
   * "some user has that email"; matching every document, it is "some user is
   * stored".  Either way a taken email is always reported.
   */
  lemma UserExistsReadings(c: AuthController, email: string)
    ensures (forall u: User, e: string :: !c.phoneClause(u, e)) ==> (c.UserExists(email) <==> HasEmail(c.users, email))
    ensures (forall u: User, e: string :: c.phoneClause(u, e)) ==> (c.UserExists(email) <==> c.users != map[])
  {
    if forall u: User, e: string :: c.phoneClause(u, e) {
      if c.users != map[] {
        var id :| id in c.users;
        assert c.phoneClause(c.users[id], email);
      }
    }
  }

  /** Signing out twice with the same header leaves the first signed-out token on the list; the blacklist only grows. */
  method SignOutKeepsEarlierTokens(c: AuthController, first: Option<string>, second: Option<string>)
    modifies c
    ensures forall t :: old(c.IsTokenBlacklisted(t)) ==> c.IsTokenBlacklisted(t)
    ensures BearerToken(first).Some? ==> c.IsTokenBlacklisted(BearerToken(first).value)
    ensures |c.blacklist| >= |old(c.blacklist)|
    ensures c.users == old(c.users)
  {
    var code := c.SignOut(first);
    code := c.SignOut(second);
  }

  /** After `signOut`, a reset with that token is refused and changes no user. */
  method SignedOutTokenCannotReset(c: AuthController, token: string, newPassword: string) returns (code: nat)
    requires ' ' !in token
    modifies c
    ensures code == BadRequest
    ensures c.users == old(c.users)
  {
    BearerTokenOf(token);
    var ignored := c.SignOut(Some(BearerPrefix + token));
    code := c.ResetPassword(token, newPassword);
  }
}
