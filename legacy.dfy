/**
 * The older authentication controller: the same Telegram login, but tokens
 * without a role claim, a middleware that always demands a token, and a claims
 * check that reads exp, id, firstName and username only.
 */
module LegacyAuth {
  import opened Wrappers
  import opened Foreign
  import opened GoText
  import opened Errx
  import opened UserStore
  import opened SessionTokens
  import opened TelegramAuth
  import opened UserService
  import AuthGate

  /** The claims this controller attaches to a request. */
  datatype LegacyClaims = LegacyClaims(id: Uuid, firstName: string, username: string, exp: int)

  predicate LegacyShaped(c: Claims, lib: Lib)
  {
    DateClaimOf(c, "exp").Date?
    && "id" in c && c["id"].Str? && lib.parseUuid(c["id"].s).Some?
    && "firstName" in c && c["firstName"].Str?
    && "username" in c && c["username"].Str?
  }

  /** parseClaims: exp, id, firstName, username; no role is read. */
  function ValidateLegacyClaims(c: Claims, lib: Lib): (r: Checked<LegacyClaims>)
    ensures r.Accepted? <==> LegacyShaped(c, lib)
    ensures r.Accepted? ==> r.value == LegacyClaims(
      lib.parseUuid(c["id"].s).value, c["firstName"].s, c["username"].s, DateClaimOf(c, "exp").seconds)
    ensures r.Panicked? <==> DateClaimOf(c, "exp").Date? && "id" in c && !c["id"].Str?
  {
    var exp := DateClaimOf(c, "exp");
    if !exp.Date? then Rejected(ExpNull)
    else match UuidClaim(c, "id", IdNull, InvalidId, lib)
      case Panicked => Panicked
      case Rejected(e) => Rejected(e)
      case Accepted(id) =>
        match StringClaim(c, "firstName", FirstNameNull, InvalidFirstName)
        case Rejected(e) => Rejected(e)
        case Panicked => Panicked
        case Accepted(firstName) =>
          match StringClaim(c, "username", UsernameNull, InvalidUsername)
          case Rejected(e) => Rejected(e)
          case Panicked => Panicked
          case Accepted(username) => Accepted(LegacyClaims(id, firstName, username, exp.seconds))
  }

  /** The claims generateJWT signs: those of the v1 token without "role". */
  function LegacyClaimsMap(u: User, exp: int, lib: Lib): Claims
  {
    map["id" := Str(lib.formatUuid(u.id)), "firstName" := Str(u.firstName), "username" := Str(u.username), "exp" := Num(exp)]
  }

  /** generateJWT, with an expiry one hour ahead. */
  function GenerateLegacyJwt(u: User, secret: string, now: int, lib: Lib): Option<string>
  {
    lib.signHs256(LegacyClaimsMap(u, now + AccessLifetime, lib), lib.utf8(secret))
  }

  datatype LegacyOutcome = Pass(claims: LegacyClaims) | Reject(status: Status) | Crashed

  /** AuthMiddleware: no anonymous mode; every refusal is 401. */
  function LegacyAuthStage(header: string, secret: string, now: int, lib: Lib): (o: LegacyOutcome)
    ensures !HasPrefix(header, "Bearer") ==> o == Reject(Unauthorized)
    ensures o.Reject? ==> o.status == Unauthorized
  {
    match BearerToken(header)
    case None => Reject(Unauthorized)
    case Some(t) =>
      match ParseJwt(t, secret, now, lib)
      case Failure(_) => Reject(Unauthorized)
      case Success(c) =>
        match ValidateLegacyClaims(c, lib)
        case Accepted(claims) => Pass(claims)
        case Rejected(_) => Reject(Unauthorized)
        case Panicked => Crashed
  }

  /** A token the v1 gate accepts also passes this gate, with the same fields less the role. */
  lemma LegacyAcceptsWhatV1Accepts(header: string, secret: string, now: int, lib: Lib)
    ensures var v1 := AuthGate.AuthStage(true, header, secret, now, lib);
      v1.Pass? ==> (LegacyAuthStage(header, secret, now, lib)
        == Pass(LegacyClaims(v1.claims.id, v1.claims.firstName, v1.claims.username, v1.claims.exp)))
  {
  }

  /**
   * The tokens this controller issues decode to the user's claims here, but
   * the v1 checks refuse them for the missing role.
   */
  lemma LegacyTokenRoundTrip(u: User, secret: string, now: int, lib: Lib, later: int)
    requires lib.Laws() && 0 <= now <= later < now + AccessLifetime
    requires GenerateLegacyJwt(u, secret, now, lib).Some?
    ensures var t := GenerateLegacyJwt(u, secret, now, lib).value;
      LegacyAuthStage("Bearer " + t, secret, later, lib) == Pass(LegacyClaims(u.id, u.firstName, u.username, now + AccessLifetime))
      && AuthGate.AuthStage(true, "Bearer " + t, secret, later, lib) == AuthGate.Reject(Unauthorized)
  {
    var t := GenerateLegacyJwt(u, secret, now, lib).value;
    var header := "Bearer " + t;
    assert HasPrefix(header, "Bearer ") && header[7..] == t;
    assert HasPrefix(header, "Bearer") by { assert header[..6] == "Bearer"; }
    var c := LegacyClaimsMap(u, now + AccessLifetime, lib);
    assert lib.parseUuid(lib.formatUuid(u.id)) == Some(u.id);
    assert DateClaimOf(c, "nbf") == Absent;
    assert "role" !in c;
  }

  /** Auth: the login flow of the v1 controller, issuing a role-less token. */
  ghost function LegacyAuthSpec(rows: Rows, body: Option<TelegramUser>, botToken: string, secret: string, now: int,
                                newId: Uuid, lib: Lib, faults: set<UserCall>): (AuthGate.Response, Rows)
  {
    if body.None? then (AuthGate.ErrorBody(BadRequest), rows)
    else if !Verified(body.value, botToken, lib) then (AuthGate.ErrorBody(Forbidden), rows)
    else
      var (u, rows1) := ProvisionSpec(rows, body.value, newId, faults);
      if u.Failure? then (AuthGate.ErrorBody(InternalServerError), rows1)
      else match GenerateLegacyJwt(u.value, secret, now, lib)
        case None => (AuthGate.ErrorBody(InternalServerError), rows1)
        case Some(token) => (AuthGate.TokenBody(token), rows1)
  }

  /** Both login handlers check and provision in the same order, so they fail alike and write alike. */
  lemma LegacyAuthMatchesV1(rows: Rows, body: Option<TelegramUser>, botToken: string, secret: string, now: int,
                            newId: Uuid, lib: Lib, faults: set<UserCall>)
    requires lib.SigningTotal()
    ensures var (legacy, rows1) := LegacyAuthSpec(rows, body, botToken, secret, now, newId, lib, faults);
      var (v1, rows2) := AuthGate.AuthSpec(rows, body, botToken, secret, now, newId, lib, faults);
      rows1 == rows2 && legacy.TokenBody? == v1.TokenBody? && (legacy.ErrorBody? ==> legacy == v1)
  {
    if body.Some? && Verified(body.value, botToken, lib) {
      var (u, rows1) := ProvisionSpec(rows, body.value, newId, faults);
      if u.Success? {
        assert GenerateLegacyJwt(u.value, secret, now, lib).Some?;
        assert AuthGate.GenerateJwt(u.value, secret, now, lib).Some?;
      }
    }
  }

  class AuthController {
    const secret: string
    const botToken: string
    const users: UserTable

    constructor (secret: string, botToken: string, users: UserTable)
      ensures this.secret == secret && this.botToken == botToken && this.users == users
    {
      this.secret := secret;
      this.botToken := botToken;
      this.users := users;
    }

    method Auth(body: Option<TelegramUser>, now: int, newId: Uuid, lib: Lib, faults: set<UserCall>)
      returns (resp: AuthGate.Response)
      requires users.Valid() && newId !in users.rows
      modifies users
      ensures users.Valid()
      ensures (resp, users.rows) == LegacyAuthSpec(old(users.rows), body, botToken, secret, now, newId, lib, faults)
    {
      if body.None? {
        return AuthGate.ErrorBody(BadRequest);
      }
      var telegramUser := body.value;
      var verifyErr := VerifyTelegramAuth(telegramUser, botToken, lib);
      if verifyErr.Some? {
        return AuthGate.ErrorBody(Forbidden);
      }
      var userExists := users.Exists(telegramUser.id, ExistsCall in faults);
      if userExists.Failure? {
        return AuthGate.ErrorBody(InternalServerError);
      }
      if !userExists.value {
        var emptyUser := NewEmptyUser(telegramUser.id, telegramUser.firstName, telegramUser.lastName, telegramUser.username);
        var err := users.Create(emptyUser, newId, CreateCall in faults);
        if err.Some? {
          return AuthGate.ErrorBody(InternalServerError);
        }
      }
      var u := users.GetByTelegramId(telegramUser.id, GetByTelegramIdCall in faults);
      if u.Failure? {
        return AuthGate.ErrorBody(InternalServerError);
      }
      var token := GenerateLegacyJwt(u.value, secret, now, lib);
      if token.None? {
        return AuthGate.ErrorBody(InternalServerError);
      }
      return AuthGate.TokenBody(token.value);
    }
  }
}
