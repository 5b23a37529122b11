/**
 * `authenticate` of src/middlewares/authMiddleware.js: take the second
 * space-separated piece of the Authorization header, refuse a missing token,
 * then a blacklisted one, then one that does not verify, and otherwise load
 * the user the token names into `req.user` and go on.
 *
 * The middleware reads the blacklist as an export of the auth controller,
 * which exports no such name, so as written it holds `undefined`.
 * `AuthenticateAsWritten` models that; `Authenticate` is repaired to search
 * the controller's one shared blacklist, and the rest of the model uses it.
 * The middleware also looks the user up by the claim `id`, while `signIn`
 * signs the claim `userId`; that defect is kept: the claim is a parameter
 * of `Authenticate`, and the lemmas below show what each choice yields.
 */
module AuthMiddleware {
  import opened Common
  import opened Auth

  /** The claim the middleware reads the user id from, as written (`decoded.id`). */
  const WrittenLookupClaim: string := "id"
  const NoTokenProvided: string := "Access denied. No token provided."
  const InvalidToken: string := "Invalid token."

  /** A loaded user document: `req.user`, with its `_id`. */
  datatype UserRecord = UserRecord(id: Id, user: User)

  /** Either a response ends the request, or `next()` runs with `req.user` set (null when no user was found). */
  datatype AuthOutcome = Reject(code: nat, message: string) | Pass(user: Option<UserRecord>)

  /** `req.headers.authorization?.split(' ')[1]`. */
  function HeaderToken(authorization: Option<string>): (t: Option<string>)
    ensures authorization.None? ==> t.None?
    ensures authorization.Some? ==> t == At(Split(authorization.value, ' '), 1)
  {
    if authorization.None? then None else At(Split(authorization.value, ' '), 1)
  }

  /** `User.findById(decoded[claim])`: null when the claim is absent or names no user. */
  function LoadUser(users: map<Id, User>, claims: Claims, claim: string): (r: Option<UserRecord>)
    ensures r.Some? <==> claim in claims && claims[claim] in users
    ensures r.Some? ==> r.value.id == claims[claim] && r.value.user == users[claims[claim]]
  {
    if claim in claims && claims[claim] in users then Some(UserRecord(claims[claim], users[claims[claim]])) else None
  }

  function Authenticate(authorization: Option<string>, blacklist: seq<string>, users: map<Id, User>,
                        verify: string -> Option<Claims>, claim: string): (r: AuthOutcome)
    ensures !Truthy(HeaderToken(authorization)) ==> r == Reject(Unauthorized, NoTokenProvided)
    ensures Truthy(HeaderToken(authorization)) && HeaderToken(authorization).value in blacklist ==>
      r == Reject(Unauthorized, InvalidToken)
    ensures Truthy(HeaderToken(authorization)) && HeaderToken(authorization).value !in blacklist ==>
      var token := HeaderToken(authorization).value;
      if verify(token).None? then r == Reject(BadRequest, InvalidToken)
      else r == Pass(LoadUser(users, verify(token).value, claim))
  {
    var token := HeaderToken(authorization);
    if !Truthy(token) then Reject(Unauthorized, NoTokenProvided)
    else if token.value in blacklist then Reject(Unauthorized, InvalidToken)
    else match verify(token.value)
      case None => Reject(BadRequest, InvalidToken)
      case Some(decoded) => Pass(LoadUser(users, decoded, claim))
  }

  /**
   * `authenticate` as written, with `blacklist` undefined: a missing token is
   * answered 401, and for any other request `blacklist.includes` throws
   * outside the `try`, so the middleware's promise rejects and no answer is
   * sent (None).
   */
  function AuthenticateAsWritten(authorization: Option<string>): (r: Option<AuthOutcome>)
    ensures r.None? <==> Truthy(HeaderToken(authorization))
    ensures r.Some? ==> r.value == Reject(Unauthorized, NoTokenProvided)
  {
    if !Truthy(HeaderToken(authorization)) then Some(Reject(Unauthorized, NoTokenProvided)) else None
  }

  /** Wherever the middleware as written answers at all, it answers as the repaired one does, whatever the blacklist. */
  lemma AsWrittenAgreesWhereItAnswers(authorization: Option<string>, blacklist: seq<string>, users: map<Id, User>,
                                      verify: string -> Option<Claims>, claim: string)
    ensures AuthenticateAsWritten(authorization).Some? ==>
      AuthenticateAsWritten(authorization) == Some(Authenticate(authorization, blacklist, users, verify, claim))
  {
  }

  /** As written, a request with a Bearer token is never answered, so no signed-in request reaches a handler. */
  lemma BearerRequestUnanswered(token: string)
    requires token != "" && ' ' !in token
    ensures AuthenticateAsWritten(Some(BearerPrefix + token)) == None
  {
    BearerTokenOf(token);
    HeaderTokenIsBearerToken(BearerPrefix + token);
  }

  /** For a header starting with "Bearer ", the middleware reads the same token `signOut` blacklists. */
  lemma HeaderTokenIsBearerToken(authorization: string)
    requires StartsWith(authorization, BearerPrefix)
    ensures HeaderToken(Some(authorization)) == BearerToken(Some(authorization))
  {
    BearerSplit(authorization);
  }

  /** A token passed to `signOut` is refused with 401 from then on, whatever it verifies to. */
  lemma SignedOutTokenRefused(token: string, blacklist: seq<string>, users: map<Id, User>,
                              verify: string -> Option<Claims>, claim: string)
    requires token != "" && ' ' !in token && token in blacklist
    ensures Authenticate(Some(BearerPrefix + token), blacklist, users, verify, claim) == Reject(Unauthorized, InvalidToken)
  {
    BearerTokenOf(token);
    HeaderTokenIsBearerToken(BearerPrefix + token);
  }

  /** The refusals come in order: missing, then blacklisted, then unverifiable; only a verified token passes. */
  lemma PassOnlyWhenVerified(authorization: Option<string>, blacklist: seq<string>, users: map<Id, User>,
                             verify: string -> Option<Claims>, claim: string)
    ensures Authenticate(authorization, blacklist, users, verify, claim).Pass? <==>
      && Truthy(HeaderToken(authorization))
      && HeaderToken(authorization).value !in blacklist
      && verify(HeaderToken(authorization).value).Some?
  {
  }

  /**
   * As written, a token issued by `signIn` never loads a user: its claims
   * are `userId` and `role`, and the middleware looks for `id`.
   */
  lemma SessionTokenLoadsNoUser(token: string, blacklist: seq<string>, users: map<Id, User>,
                                verify: string -> Option<Claims>, id: Id, u: User)
    requires token != "" && ' ' !in token && token !in blacklist
    requires verify(token) == Some(SessionClaims(id, u))
    ensures Authenticate(Some(BearerPrefix + token), blacklist, users, verify, WrittenLookupClaim) == Pass(None)
  {
    BearerTokenOf(token);
    HeaderTokenIsBearerToken(BearerPrefix + token);
    assert WrittenLookupClaim !in SessionClaims(id, u);
  }

  /** Looking the user up by the claim `signIn` signs, the same token loads the user it was issued to. */
  lemma SessionTokenLoadsUserByUserId(token: string, blacklist: seq<string>, users: map<Id, User>,
                                      verify: string -> Option<Claims>, id: Id, u: User)
    requires token != "" && ' ' !in token && token !in blacklist
    requires verify(token) == Some(SessionClaims(id, u)) && id in users
    ensures Authenticate(Some(BearerPrefix + token), blacklist, users, verify, UserIdClaim) == Pass(Some(UserRecord(id, users[id])))
  {
    BearerTokenOf(token);
    HeaderTokenIsBearerToken(BearerPrefix + token);
  }
}
