/**
 * Issuing and checking the session JWTs (HS256): the claims the user service
 * signs, what golang-jwt's Parse accepts, and the shape checks the service
 * applies to the decoded claims. Signing, decoding and MAC checking are the
 * library functions of `Lib`; the clock is the parameter `now`, in Unix seconds.
 */
module SessionTokens {
  import opened Wrappers
  import opened Foreign
  import opened GoText
  import opened Errx
  import opened UserStore
  import opened Tokens

  /** time.Hour * 1 */
  const AccessLifetime: int := 3600
  /** time.Hour * 24 * 7 */
  const RefreshLifetime: int := 604800

  /** Why jwt.Parse refused a token. */
  datatype TokenError = Malformed | Unverifiable | SignatureInvalid | InvalidClaims(expired: bool)

  /** A registered time claim as MapClaims reads it: a JSON number, where 0 counts as absent. */
  datatype DateClaim = Absent | Date(seconds: int) | WrongType

  function DateClaimOf(c: Claims, key: string): DateClaim
  {
    if key !in c then Absent
    else match c[key]
      case Num(n) => if n == 0 then Absent else Date(n)
      case _ => WrongType
  }

  /**
   * The default validator: exp and nbf are optional, but when present they must
   * be numbers with nbf <= now < exp.
   */
  function RegisteredClaimsError(c: Claims, now: int): Option<TokenError>
  {
    var exp := DateClaimOf(c, "exp");
    var nbf := DateClaimOf(c, "nbf");
    var expired := exp.Date? && now >= exp.seconds;
    if exp.WrongType? || expired || nbf.WrongType? || (nbf.Date? && now < nbf.seconds) then
      Some(InvalidClaims(expired))
    else None
  }

  /** parseJWT: jwt.Parse with a key function that admits HMAC methods only, keyed by the secret's bytes. */
  function ParseJwt(token: string, secret: string, now: int, lib: Lib): (r: Result<Claims, TokenError>)
    ensures r.Success? ==>
      lib.decodeJws(token).Some? && IsHmac(lib.decodeJws(token).value.alg)
      && lib.macValid(lib.decodeJws(token).value, lib.utf8(secret))
      && r.value == lib.decodeJws(token).value.claims
      && !(DateClaimOf(r.value, "exp").Date? && now >= DateClaimOf(r.value, "exp").seconds)
    ensures lib.decodeJws(token).Some? && !IsHmac(lib.decodeJws(token).value.alg) ==> r == Failure(Unverifiable)
  {
    match lib.decodeJws(token)
    case None => Failure(Malformed)
    case Some(jws) =>
      if !IsHmac(jws.alg) then Failure(Unverifiable)
      else if !lib.macValid(jws, lib.utf8(secret)) then Failure(SignatureInvalid)
      else match RegisteredClaimsError(jws.claims, now)
        case Some(e) => Failure(e)
        case None => Success(jws.claims)
  }

  datatype ClaimsError =
    | ExpNull | IdNull | InvalidId | FirstNameNull | InvalidFirstName
    | UsernameNull | InvalidUsername | RoleNull | InvalidRole | JitNull | InvalidJit

  /**
   * The result of a shape check: the typed claims, an error, or the panic of an
   * unchecked `.(string)` assertion on a value that is not a string.
   */
  datatype Checked<T> = Accepted(value: T) | Rejected(reason: ClaimsError) | Panicked

  /** `uuid.Parse(claims[key].(string))`, which panics on a non-string value. */
  function UuidClaim(c: Claims, key: string, missing: ClaimsError, invalid: ClaimsError, lib: Lib): (r: Checked<Uuid>)
    ensures r.Panicked? <==> key in c && !c[key].Str?
    ensures r.Accepted? <==> key in c && c[key].Str? && lib.parseUuid(c[key].s).Some?
    ensures r.Accepted? ==> r.value == lib.parseUuid(c[key].s).value
    ensures r.Rejected? ==> r.reason == missing || r.reason == invalid
  {
    if key !in c then Rejected(missing)
    else if !c[key].Str? then Panicked
    else match lib.parseUuid(c[key].s)
      case None => Rejected(invalid)
      case Some(u) => Accepted(u)
  }

  /** A checked `claims[key].(string)`: absent and non-string values are errors, never panics. */
  function StringClaim(c: Claims, key: string, missing: ClaimsError, invalid: ClaimsError): (r: Checked<string>)
    ensures r.Accepted? <==> key in c && c[key].Str?
    ensures r.Accepted? ==> r.value == c[key].s
    ensures !r.Panicked?
  {
    if key !in c then Rejected(missing)
    else if c[key].Str? then Accepted(c[key].s)
    else Rejected(invalid)
  }

  /** Everything validateAccessToken needs to accept a claims map. */
  predicate AccessShaped(c: Claims, lib: Lib)
  {
    DateClaimOf(c, "exp").Date?
    && "id" in c && c["id"].Str? && lib.parseUuid(c["id"].s).Some?
    && "firstName" in c && c["firstName"].Str?
    && "username" in c && c["username"].Str?
    && "role" in c && c["role"].Str?
  }

  /** validateAccessToken: exp, id, firstName, username, role, checked in that order. */
  function ValidateAccessToken(c: Claims, lib: Lib): (r: Checked<AccessTokenClaims>)
    ensures r.Accepted? <==> AccessShaped(c, lib)
    ensures r.Accepted? ==> r.value == AccessTokenClaims(
      lib.parseUuid(c["id"].s).value, c["firstName"].s, c["username"].s, c["role"].s, DateClaimOf(c, "exp").seconds)
    ensures r.Panicked? <==> DateClaimOf(c, "exp").Date? && "id" in c && !c["id"].Str?
  {
    var exp := DateClaimOf(c, "exp");
    if !exp.Date? then Rejected(ExpNull)
    else match UuidClaim(c, "id", IdNull, InvalidId, lib)
      case Panicked => Panicked
      case Rejected(e) => Rejected(e)
      case Accepted(id) =>
        match StringClaim(c, "firstName", FirstNameNull, InvalidFirstName)
        case Rejected(e) => Rejected(e)
        case Panicked => Panicked
        case Accepted(firstName) =>
          match StringClaim(c, "username", UsernameNull, InvalidUsername)
          case Rejected(e) => Rejected(e)
          case Panicked => Panicked
          case Accepted(username) =>
            match StringClaim(c, "role", RoleNull, InvalidRole)
            case Rejected(e) => Rejected(e)
            case Panicked => Panicked
            case Accepted(role) => Accepted(AccessTokenClaims(id, firstName, username, role, exp.seconds))
  }

  predicate RefreshShaped(c: Claims, lib: Lib)
  {
    DateClaimOf(c, "exp").Date?
    && "id" in c && c["id"].Str? && lib.parseUuid(c["id"].s).Some?
    && "jit" in c && c["jit"].Str? && lib.parseUuid(c["jit"].s).Some?
  }

  /** validateRefreshToken: exp, id, jit; both ids go through unchecked string assertions. */
  function ValidateRefreshToken(c: Claims, lib: Lib): (r: Checked<RefreshTokenClaims>)
    ensures r.Accepted? <==> RefreshShaped(c, lib)
    ensures r.Accepted? ==> r.value == RefreshTokenClaims(
      lib.parseUuid(c["id"].s).value, DateClaimOf(c, "exp").seconds, lib.parseUuid(c["jit"].s).value)
    ensures r.Panicked? <==> (
      DateClaimOf(c, "exp").Date? && "id" in c
      && (!c["id"].Str? || (lib.parseUuid(c["id"].s).Some? && "jit" in c && !c["jit"].Str?)))
  {
    var exp := DateClaimOf(c, "exp");
    if !exp.Date? then Rejected(ExpNull)
    else match UuidClaim(c, "id", IdNull, InvalidId, lib)
      case Panicked => Panicked
      case Rejected(e) => Rejected(e)
      case Accepted(id) =>
        match UuidClaim(c, "jit", JitNull, InvalidJit, lib)
        case Panicked => Panicked
        case Rejected(e) => Rejected(e)
        case Accepted(jit) => Accepted(RefreshTokenClaims(id, exp.seconds, jit))
  }

  function RoleOf(isAdmin: bool): (role: string)
    ensures role == "admin" <==> isAdmin
    ensures role == "admin" || role == "user"
  {
    if isAdmin then "admin" else "user"
  }

  /** The claims generateAccessToken signs. */
  function AccessClaims(u: User, role: string, exp: int, lib: Lib): Claims
  {
    map["id" := Str(lib.formatUuid(u.id)), "firstName" := Str(u.firstName), "username" := Str(u.username),
        "role" := Str(role), "exp" := Num(exp)]
  }

  /** The claims generateRefreshToken signs; the jit is a UUID, which JSON renders as its string form. */
  function RefreshClaims(c: RefreshTokenClaims, lib: Lib): Claims
  {
    map["id" := Str(lib.formatUuid(c.id)), "exp" := Num(c.exp), "jit" := Str(lib.formatUuid(c.jit))]
  }

  /** generateAccessToken; None stands for a signing error. */
  function GenerateAccessToken(u: User, secret: string, now: int, lib: Lib): Option<AccessToken>
  {
    var exp := now + AccessLifetime;
    var role := RoleOf(u.isAdmin);
    match lib.signHs256(AccessClaims(u, role, exp, lib), lib.utf8(secret))
    case None => None
    case Some(signed) => Some(NewAccessToken(signed, u, role, exp))
  }

  /** generateRefreshToken; `freshJit` is the uuid.New() drawn for it. */
  function GenerateRefreshToken(userId: Uuid, secret: string, now: int, freshJit: Uuid, lib: Lib): Option<RefreshToken>
  {
    var claims := NewRefreshTokenClaims(userId, now + RefreshLifetime, freshJit);
    match lib.signHs256(RefreshClaims(claims, lib), lib.utf8(secret))
    case None => None
    case Some(signed) => Some(NewRefreshToken(signed, claims))
  }

  /**
   * An issued access token carries the user's id, names, the role "admin" or
   * "user" by the admin flag, and an expiry one hour ahead; until then it parses
   * and validates back to exactly those claims.
   */
  lemma AccessTokenRoundTrip(u: User, secret: string, now: int, lib: Lib, later: int)
    requires lib.Laws() && 0 <= now <= later < now + AccessLifetime
    requires GenerateAccessToken(u, secret, now, lib).Some?
    ensures var t := GenerateAccessToken(u, secret, now, lib).value;
      t.claims == AccessTokenClaims(u.id, u.firstName, u.username, RoleOf(u.isAdmin), now + AccessLifetime)
      && ParseJwt(t.signedValue, secret, later, lib) == Success(AccessClaims(u, RoleOf(u.isAdmin), now + AccessLifetime, lib))
      && ValidateAccessToken(ParseJwt(t.signedValue, secret, later, lib).value, lib) == Accepted(t.claims)
  {
    var c := AccessClaims(u, RoleOf(u.isAdmin), now + AccessLifetime, lib);
    assert lib.parseUuid(lib.formatUuid(u.id)) == Some(u.id);
    assert DateClaimOf(c, "nbf") == Absent;
  }

  /** From its expiry on, an issued access token is refused as expired. */
  lemma AccessTokenExpires(u: User, secret: string, now: int, lib: Lib, later: int)
    requires lib.Laws() && 0 <= now && now + AccessLifetime <= later
    requires GenerateAccessToken(u, secret, now, lib).Some?
    ensures ParseJwt(GenerateAccessToken(u, secret, now, lib).value.signedValue, secret, later, lib) == Failure(InvalidClaims(true))
  {
    var c := AccessClaims(u, RoleOf(u.isAdmin), now + AccessLifetime, lib);
    assert DateClaimOf(c, "exp") == Date(now + AccessLifetime);
  }

  /**
   * An issued refresh token carries the user id, the fresh jit and an expiry
   * seven days ahead; until then it parses and validates back to those claims.
   */
  lemma RefreshTokenRoundTrip(userId: Uuid, secret: string, now: int, freshJit: Uuid, lib: Lib, later: int)
    requires lib.Laws() && 0 <= now <= later < now + RefreshLifetime
    requires GenerateRefreshToken(userId, secret, now, freshJit, lib).Some?
    ensures var t := GenerateRefreshToken(userId, secret, now, freshJit, lib).value;
      t.claims == RefreshTokenClaims(userId, now + RefreshLifetime, freshJit)
      && ParseJwt(t.signedValue, secret, later, lib).Success?
      && ValidateRefreshToken(ParseJwt(t.signedValue, secret, later, lib).value, lib) == Accepted(t.claims)
  {
    var c := RefreshClaims(RefreshTokenClaims(userId, now + RefreshLifetime, freshJit), lib);
    assert lib.parseUuid(lib.formatUuid(userId)) == Some(userId);
    assert lib.parseUuid(lib.formatUuid(freshJit)) == Some(freshJit);
    assert DateClaimOf(c, "nbf") == Absent;
  }

  /** The two kinds of token cannot stand in for each other: each lacks a claim the other's check demands. */
  lemma TokenKindsNotInterchangeable(u: User, role: string, exp: int, r: RefreshTokenClaims, lib: Lib)
    requires exp != 0 && r.exp != 0
    ensures ValidateRefreshToken(AccessClaims(u, role, exp, lib), lib) != Accepted(r)
    ensures ValidateAccessToken(RefreshClaims(r, lib), lib).Rejected?
  {
    var a := AccessClaims(u, role, exp, lib);
    assert "jit" !in a;
    var c := RefreshClaims(r, lib);
    assert "firstName" !in c;
  }

  /**
   * The bearer check: the header must start with "Bearer" (no space needed),
   * and then only an exact "Bearer " prefix is removed.
   */
  function BearerToken(header: string): (r: Option<string>)
    ensures r.Some? <==> HasPrefix(header, "Bearer")
    ensures HasPrefix(header, "Bearer ") ==> r == Some(header[7..])
    ensures r.Some? && !HasPrefix(header, "Bearer ") ==> r == Some(header)
  {
    if !HasPrefix(header, "Bearer") then None else Some(TrimPrefix(header, "Bearer "))
  }

  /** CheckAuthToken: every refusal is 401, except the panic of a non-string id. */
  function CheckAuthToken(header: string, secret: string, now: int, lib: Lib): (r: Result<AccessTokenClaims, Error>)
    ensures !HasPrefix(header, "Bearer") ==> r == Failure(App(Unauthorized))
    ensures r.Failure? ==> r.error == App(Unauthorized) || r.error == Panic
    ensures r.Success? ==> (
      BearerToken(header).Some? && ParseJwt(BearerToken(header).value, secret, now, lib).Success?
      && ValidateAccessToken(ParseJwt(BearerToken(header).value, secret, now, lib).value, lib) == Accepted(r.value))
  {
    match BearerToken(header)
    case None => Failure(App(Unauthorized))
    case Some(t) =>
      match ParseJwt(t, secret, now, lib)
      case Failure(_) => Failure(App(Unauthorized))
      case Success(c) =>
        match ValidateAccessToken(c, lib)
        case Accepted(claims) => Success(claims)
        case Rejected(_) => Failure(App(Unauthorized))
        case Panicked => Failure(Panic)
  }

  /** A header "Bearer <token>" carrying an issued, unexpired access token is accepted with that token's claims. */
  lemma CheckAuthTokenAcceptsIssued(u: User, secret: string, now: int, lib: Lib, later: int)
    requires lib.Laws() && 0 <= now <= later < now + AccessLifetime
    requires GenerateAccessToken(u, secret, now, lib).Some?
    ensures var t := GenerateAccessToken(u, secret, now, lib).value;
      CheckAuthToken("Bearer " + t.signedValue, secret, later, lib) == Success(t.claims)
  {
    var t := GenerateAccessToken(u, secret, now, lib).value;
    var header := "Bearer " + t.signedValue;
    assert HasPrefix(header, "Bearer ") && header[7..] == t.signedValue;
    assert HasPrefix(header, "Bearer") by { assert header[..6] == "Bearer"; }
    AccessTokenRoundTrip(u, secret, now, lib, later);
  }
}
