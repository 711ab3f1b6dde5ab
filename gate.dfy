/**
 * The v1 user controller: the Telegram login handler, which answers with a
 * bare access token, and the two middlewares that guard routes. The
 * authentication stage turns (required, Authorization header) into anonymous
 * access, a pass with claims, or a 401; the admin stage turns the attached
 * claims into a pass or a 403.
 */
module AuthGate {
  import opened Wrappers
  import opened Foreign
  import opened GoText
  import opened Errx
  import opened UserStore
  import opened Tokens
  import opened SessionTokens
  import opened TelegramAuth
  import opened UserService

  /** What a middleware does with a request. */
  datatype GateOutcome =
    | Anonymous                        // next is called, no claims attached
    | Pass(claims: AccessTokenClaims)  // next is called once, claims under "user"
    | Reject(status: Status)           // an error body, next is not called
    | Crashed                          // a failed type assertion panics; the recoverer answers 500

  /** AuthMiddleware(required) */
  function AuthStage(required: bool, header: string, secret: string, now: int, lib: Lib): (o: GateOutcome)
    ensures o.Anonymous? <==> !required && header == ""
    ensures (required || header != "") ==> (
      (o.Pass? <==> CheckAuthToken(header, secret, now, lib).Success?)
      && (o.Pass? ==> CheckAuthToken(header, secret, now, lib) == Success(o.claims)))
    ensures o.Reject? ==> o.status == Unauthorized
  {
    if !required && header == "" then Anonymous
    else match BearerToken(header)
      case None => Reject(Unauthorized)
      case Some(t) =>
        match ParseJwt(t, secret, now, lib)
        case Failure(_) => Reject(Unauthorized)
        case Success(c) =>
          match ValidateAccessToken(c, lib)
          case Accepted(claims) => Pass(claims)
          case Rejected(_) => Reject(Unauthorized)
          case Panicked => Crashed
  }

  /** AdminMiddleware; it asserts without checking that claims are attached. */
  function AdminStage(attached: Option<AccessTokenClaims>): (o: GateOutcome)
    requires attached.Some?
    ensures o.Pass? <==> attached.value.role == "admin"
    ensures o.Pass? ==> o.claims == attached.value
    ensures !o.Pass? ==> o == Reject(Forbidden)
  {
    if attached.value.role == "admin" then Pass(attached.value) else Reject(Forbidden)
  }

  /** An admin route: AuthMiddleware(true) in front of AdminMiddleware, as every admin group is wired. */
  function AdminRoute(header: string, secret: string, now: int, lib: Lib): GateOutcome
  {
    match AuthStage(true, header, secret, now, lib)
    case Pass(claims) => AdminStage(Some(claims))
    case other => other
  }

  /**
   * An admin route lets a request through exactly when it carries a valid
   * access token whose role is "admin"; a missing header gets 401, and a valid
   * token of a plain user gets 403.
   */
  lemma AdminRouteDecision(header: string, secret: string, now: int, lib: Lib)
    ensures AdminRoute(header, secret, now, lib).Pass? <==>
      CheckAuthToken(header, secret, now, lib).Success? && CheckAuthToken(header, secret, now, lib).value.role == "admin"
    ensures header == "" ==> AdminRoute(header, secret, now, lib) == Reject(Unauthorized)
    ensures CheckAuthToken(header, secret, now, lib).Success? && CheckAuthToken(header, secret, now, lib).value.role != "admin"
      ==> AdminRoute(header, secret, now, lib) == Reject(Forbidden)
  {
  }

  /** With authentication optional, a header that is present but bad is still refused, never downgraded. */
  lemma OptionalAuthDoesNotDowngrade(header: string, secret: string, now: int, lib: Lib)
    requires header != ""
    ensures AuthStage(false, header, secret, now, lib) == AuthStage(true, header, secret, now, lib)
  {
  }

  /** The issued access token of a user passes an admin route exactly when the user is an admin. */
  lemma IssuedTokenOnAdminRoute(u: User, secret: string, now: int, lib: Lib, later: int)
    requires lib.Laws() && 0 <= now <= later < now + AccessLifetime
    requires GenerateAccessToken(u, secret, now, lib).Some?
    ensures var t := GenerateAccessToken(u, secret, now, lib).value;
      AdminRoute("Bearer " + t.signedValue, secret, later, lib)
        == (if u.isAdmin then Pass(t.claims) else Reject(Forbidden))
  {
    CheckAuthTokenAcceptsIssued(u, secret, now, lib, later);
  }

  /** generateJWT: the same claims as the service's access token; only the signed string is returned. */
  function GenerateJwt(u: User, secret: string, now: int, lib: Lib): (r: Option<string>)
    ensures r.Some? <==> GenerateAccessToken(u, secret, now, lib).Some?
    ensures r.Some? ==> r.value == GenerateAccessToken(u, secret, now, lib).value.signedValue
  {
    lib.signHs256(AccessClaims(u, RoleOf(u.isAdmin), now + AccessLifetime, lib), lib.utf8(secret))
  }

  /** What the login handler writes: {"token": ...} or an error status. */
  datatype Response = TokenBody(token: string) | ErrorBody(status: Status)

  /**
   * Auth: an undecodable body is 400, a failed Telegram check 403, a
   * repository or signing failure 500; otherwise the signed access token.
   * No refresh token is issued or stored.
   */
  ghost function AuthSpec(rows: Rows, body: Option<TelegramUser>, botToken: string, secret: string, now: int,
                          newId: Uuid, lib: Lib, faults: set<UserCall>): (Response, Rows)
  {
    if body.None? then (ErrorBody(BadRequest), rows)
    else if !Verified(body.value, botToken, lib) then (ErrorBody(Forbidden), rows)
    else
      var (u, rows1) := ProvisionSpec(rows, body.value, newId, faults);
      if u.Failure? then (ErrorBody(InternalServerError), rows1)
      else match GenerateJwt(u.value, secret, now, lib)
        case None => (ErrorBody(InternalServerError), rows1)
        case Some(token) => (TokenBody(token), rows1)
  }

  /**
   * The handler answers with a token exactly when the service's login would
   * succeed on the same table, and then with the same access token; the table
   * differs only in the refresh id the service stores.
   */
  lemma AuthAgreesWithService(rows: Rows, tg: TelegramUser, botToken: string, secret: string, now: int,
                              newId: Uuid, freshJit: Uuid, lib: Lib, faults: set<UserCall>)
    requires SaveRefreshCall !in faults && lib.SigningTotal()
    ensures var (resp, rows1) := AuthSpec(rows, Some(tg), botToken, secret, now, newId, lib, faults);
      var (r, rows2) := LoginSpec(rows, tg, botToken, secret, now, newId, freshJit, lib, faults);
      (resp.TokenBody? <==> r.Success?)
      && (r.Success? ==> (
            resp.token == r.value.accessToken.signedValue
            && rows2 == SaveRefresh(rows1, r.value.accessToken.claims.id, freshJit)))
      && (r.Failure? ==> resp == ErrorBody(r.error.status) && rows2 == rows1)
  {
    var (u, rows1) := ProvisionSpec(rows, tg, newId, faults);
    if Verified(tg, botToken, lib) && u.Success? {
      var refresh := RefreshClaims(NewRefreshTokenClaims(u.value.id, now + RefreshLifetime, freshJit), lib);
      assert lib.signHs256(refresh, lib.utf8(secret)).Some?;
    }
  }

  class UserController {
    const secret: string
    const botToken: string
    const users: UserTable

    constructor (secret: string, botToken: string, users: UserTable)
      ensures this.secret == secret && this.botToken == botToken && this.users == users
    {
      this.secret := secret;
      this.botToken := botToken;
      this.users := users;
    }

    method Auth(body: Option<TelegramUser>, now: int, newId: Uuid, lib: Lib, faults: set<UserCall>)
      returns (resp: Response)
      requires users.Valid() && newId !in users.rows
      modifies users
      ensures users.Valid()
      ensures (resp, users.rows) == AuthSpec(old(users.rows), body, botToken, secret, now, newId, lib, faults)
    {
      if body.None? {
        return ErrorBody(BadRequest);
      }
      var telegramUser := body.value;
      var verifyErr := VerifyTelegramAuth(telegramUser, botToken, lib);
      if verifyErr.Some? {
        return ErrorBody(Forbidden);
      }
      var userExists := users.Exists(telegramUser.id, ExistsCall in faults);
      if userExists.Failure? {
        return ErrorBody(InternalServerError);
      }
      if !userExists.value {
        var emptyUser := NewEmptyUser(telegramUser.id, telegramUser.firstName, telegramUser.lastName, telegramUser.username);
        var err := users.Create(emptyUser, newId, CreateCall in faults);
        if err.Some? {
          return ErrorBody(InternalServerError);
        }
      }
      var u := users.GetByTelegramId(telegramUser.id, GetByTelegramIdCall in faults);
      if u.Failure? {
        return ErrorBody(InternalServerError);
      }
      var token := GenerateJwt(u.value, secret, now, lib);
      if token.None? {
        return ErrorBody(InternalServerError);
      }
      return TokenBody(token.value);
    }
  }
}
