/**
 * The user service: Telegram login with first-login provisioning, and refresh
 * of a session by rotating the single refresh-token id stored per user. Each
 * entry point is a method on the service, which owns the users table, and is
 * proved equal to a specification function giving the result and the table
 * afterwards; the properties of logins and refreshes are lemmas about those
 * functions. Which repository calls fail is the parameter `faults`.
 */
module UserService {
  import opened Wrappers
  import opened Foreign
  import opened Errx
  import opened UserStore
  import opened Tokens
  import opened SessionTokens
  import opened TelegramAuth

  /** The repository calls that can report an error. */
  datatype UserCall = ExistsCall | CreateCall | GetByTelegramIdCall | SaveRefreshCall | IsRefreshCall | GetByIdCall

  /** createRefreshToken: sign a refresh token with the fresh jit, then store the jit for the user. */
  function CreateRefreshSpec(rows: Rows, userId: Uuid, secret: string, now: int, freshJit: Uuid, lib: Lib, faults: set<UserCall>)
    : (Result<RefreshToken, Error>, Rows)
  {
    match GenerateRefreshToken(userId, secret, now, freshJit, lib)
    case None => (Failure(App(InternalServerError)), rows)
    case Some(t) =>
      if SaveRefreshCall in faults then (Failure(Raw(Unavailable)), rows)
      else (Success(t), SaveRefresh(rows, userId, t.claims.jit))
  }

  /** The tokens for a stored user: an access token, then a refresh token whose jit is stored. */
  ghost function IssueSpec(rows: Rows, u: User, secret: string, now: int, freshJit: Uuid, lib: Lib, faults: set<UserCall>,
                           signFailure: Error): (Result<UserTokens, Error>, Rows)
  {
    match GenerateAccessToken(u, secret, now, lib)
    case None => (Failure(signFailure), rows)
    case Some(access) =>
      var (refresh, rows') := CreateRefreshSpec(rows, u.id, secret, now, freshJit, lib, faults);
      if refresh.Failure? then (Failure(refresh.error), rows')
      else (Success(NewUserTokens(access, refresh.value)), rows')
  }

  /**
   * The provisioning steps every login shares: Exists, Create when the Telegram
   * id is new, then the user re-read by Telegram id. Any repository failure is 500.
   */
  ghost function ProvisionSpec(rows: Rows, tg: TelegramUser, newId: Uuid, faults: set<UserCall>): (Result<User, Error>, Rows)
  {
    if ExistsCall in faults then (Failure(App(InternalServerError)), rows)
    else
      var (createErr, rows1) :=
        if HasTelegramId(rows, tg.id) then (None, rows)
        else CreateSpec(rows, NewEmptyUser(tg.id, tg.firstName, tg.lastName, tg.username), newId, CreateCall in faults);
      if createErr.Some? then (Failure(App(InternalServerError)), rows1)
      else if GetByTelegramIdCall in faults || !HasTelegramId(rows1, tg.id) then (Failure(App(InternalServerError)), rows1)
      else (Success(UserByTelegramId(rows1, tg.id)), rows1)
  }

  /** AuthenticateUser */
  ghost function LoginSpec(rows: Rows, tg: TelegramUser, botToken: string, secret: string, now: int,
                           newId: Uuid, freshJit: Uuid, lib: Lib, faults: set<UserCall>): (Result<UserTokens, Error>, Rows)
  {
    if !Verified(tg, botToken, lib) then (Failure(App(Forbidden)), rows)
    else
      var (u, rows1) := ProvisionSpec(rows, tg, newId, faults);
      if u.Failure? then (Failure(u.error), rows1)
      else IssueSpec(rows1, u.value, secret, now, freshJit, lib, faults, App(InternalServerError))
  }

  /**
   * Provisioning either fails with 500, leaving the table as it was or with the
   * new row only, or yields the stored user with the payload's Telegram id;
   * that user is the new row exactly when the id was unknown.
   */
  lemma ProvisionOutcome(rows: Rows, tg: TelegramUser, newId: Uuid, faults: set<UserCall>)
    requires UniqueTelegramIds(rows) && newId !in rows
    ensures var (u, rows1) := ProvisionSpec(rows, tg, newId, faults);
      var created := rows[newId := InsertedRow(NewEmptyUser(tg.id, tg.firstName, tg.lastName, tg.username))];
      UniqueTelegramIds(rows1)
      && (u.Failure? ==> u.error == App(InternalServerError) && (rows1 == rows || rows1 == created))
      && (u.Success? ==>
            u.value.id in rows1 && rows1[u.value.id].telegramId == tg.id && u.value == ToUser(u.value.id, rows1[u.value.id])
            && (HasTelegramId(rows, tg.id) ==> rows1 == rows && u.value == UserByTelegramId(rows, tg.id))
            && (!HasTelegramId(rows, tg.id) ==> rows1 == created && u.value == NewEmptyUser(tg.id, tg.firstName, tg.lastName, tg.username).(id := newId)))
  {
    if ExistsCall !in faults && !HasTelegramId(rows, tg.id) && CreateCall !in faults {
      CreateThenRead(rows, NewEmptyUser(tg.id, tg.firstName, tg.lastName, tg.username), newId);
    }
  }

  /** UpdateAccessToken */
  ghost function RefreshSpec(rows: Rows, token: string, secret: string, now: int, freshJit: Uuid, lib: Lib,
                             faults: set<UserCall>): (Result<UserTokens, Error>, Rows)
  {
    match ParseJwt(token, secret, now, lib)
    case Failure(_) => (Failure(App(Unauthorized)), rows)
    case Success(c) =>
      match ValidateRefreshToken(c, lib)
      case Rejected(_) => (Failure(App(Unauthorized)), rows)
      case Panicked => (Failure(Panic), rows)
      case Accepted(rt) =>
        if IsRefreshCall in faults then (Failure(Raw(Unavailable)), rows)
        else if !RefreshCurrent(rows, rt.id, rt.jit) then (Failure(App(Unauthorized)), rows)
        else match UserById(rows, rt.id, GetByIdCall in faults)
          case Failure(e) => (Failure(Raw(e)), rows)
          case Success(None) => (Failure(App(NotFound)), rows)
          case Success(Some(u)) => IssueSpec(rows, u, secret, now, freshJit, lib, faults, Raw(SigningFailed))
  }

  /** A payload that fails the Telegram check is refused with 403 before any repository call. */
  lemma LoginRejectsUnverified(rows: Rows, tg: TelegramUser, botToken: string, secret: string, now: int,
                               newId: Uuid, freshJit: Uuid, lib: Lib, faults: set<UserCall>)
    requires botToken == "" || tg.hash != ExpectedHash(tg, botToken, lib)
    ensures LoginSpec(rows, tg, botToken, secret, now, newId, freshJit, lib, faults) == (Failure(App(Forbidden)), rows)
  {
  }

  /** Issuing tokens that fails writes nothing. */
  lemma IssueFailure(rows: Rows, u: User, secret: string, now: int, freshJit: Uuid, lib: Lib, faults: set<UserCall>,
                     signFailure: Error)
    ensures var (r, rows') := IssueSpec(rows, u, secret, now, freshJit, lib, faults, signFailure);
      r.Failure? ==> (
        rows' == rows
        && (r.error == signFailure || r.error == App(InternalServerError) || r.error == Raw(Unavailable)))
  {
  }

  /**
   * A login fails only with 403, 500 or the raw error of the refresh-id write,
   * and a failed login leaves at most the new user's row behind.
   */
  lemma LoginFailures(rows: Rows, tg: TelegramUser, botToken: string, secret: string, now: int,
                      newId: Uuid, freshJit: Uuid, lib: Lib, faults: set<UserCall>)
    ensures var (r, rows') := LoginSpec(rows, tg, botToken, secret, now, newId, freshJit, lib, faults);
      r.Failure? ==>
        (r.error == App(Forbidden) || r.error == App(InternalServerError) || r.error == Raw(Unavailable))
        && (rows' == rows || rows' == rows[newId := InsertedRow(NewEmptyUser(tg.id, tg.firstName, tg.lastName, tg.username))])
  {
    var (u, rows1) := ProvisionSpec(rows, tg, newId, faults);
    if Verified(tg, botToken, lib) && u.Success? {
      IssueFailure(rows1, u.value, secret, now, freshJit, lib, faults, App(InternalServerError));
    }
  }

  /**
   * A successful login returns tokens for the user stored under the payload's
   * Telegram id: the refresh token carries the fresh jit, which is now that
   * user's current refresh id, and the access token the user's role, with
   * lifetimes of one hour and seven days.
   */
  lemma LoginSuccess(rows: Rows, tg: TelegramUser, botToken: string, secret: string, now: int,
                     newId: Uuid, freshJit: Uuid, lib: Lib, faults: set<UserCall>)
    requires UniqueTelegramIds(rows) && newId !in rows
    ensures var (r, rows') := LoginSpec(rows, tg, botToken, secret, now, newId, freshJit, lib, faults);
      r.Success? ==>
        var id := r.value.accessToken.claims.id;
        Verified(tg, botToken, lib)
        && id in rows' && rows'[id].telegramId == tg.id
        && r.value.refreshToken.claims == RefreshTokenClaims(id, now + RefreshLifetime, freshJit)
        && RefreshCurrent(rows', id, freshJit)
        && r.value.accessToken.claims.role == RoleOf(rows'[id].isAdmin)
        && r.value.accessToken.claims.exp == now + AccessLifetime
  {
    ProvisionOutcome(rows, tg, newId, faults);
    var (u, rows1) := ProvisionSpec(rows, tg, newId, faults);
    if u.Success? {
      IssueSuccess(rows1, u.value, secret, now, freshJit, lib, faults, App(InternalServerError));
    }
  }

  /** Issuing tokens for a stored user, when it succeeds, stores the fresh jit for that user and nothing else. */
  lemma IssueSuccess(rows: Rows, u: User, secret: string, now: int, freshJit: Uuid, lib: Lib, faults: set<UserCall>,
                     signFailure: Error)
    requires u.id in rows
    ensures var (r, rows') := IssueSpec(rows, u, secret, now, freshJit, lib, faults, signFailure);
      r.Success? ==>
        rows' == SaveRefresh(rows, u.id, freshJit)
        && r.value.accessToken.claims == AccessTokenClaims(u.id, u.firstName, u.username, RoleOf(u.isAdmin), now + AccessLifetime)
        && r.value.refreshToken.claims == RefreshTokenClaims(u.id, now + RefreshLifetime, freshJit)
  {
  }

  /**
   * The first login of a Telegram id creates exactly one row, a non-admin user
   * with the payload's names, whose refresh id is the one just issued.
   */
  lemma FirstLoginProvisions(rows: Rows, tg: TelegramUser, botToken: string, secret: string, now: int,
                             newId: Uuid, freshJit: Uuid, lib: Lib)
    requires UniqueTelegramIds(rows) && newId !in rows && !HasTelegramId(rows, tg.id)
    requires Verified(tg, botToken, lib) && lib.SigningTotal()
    ensures var (r, rows') := LoginSpec(rows, tg, botToken, secret, now, newId, freshJit, lib, {});
      r.Success?
      && rows' == rows[newId := UserRow(tg.id, Some(tg.firstName), Some(tg.lastName), Some(tg.username), false, Some(freshJit))]
      && r.value.accessToken.claims == AccessTokenClaims(newId, tg.firstName, tg.username, "user", now + AccessLifetime)
  {
    ProvisionOutcome(rows, tg, newId, {});
    var u := NewEmptyUser(tg.id, tg.firstName, tg.lastName, tg.username).(id := newId);
    var access := AccessClaims(u, RoleOf(false), now + AccessLifetime, lib);
    assert lib.signHs256(access, lib.utf8(secret)).Some?;
    var refresh := RefreshClaims(NewRefreshTokenClaims(newId, now + RefreshLifetime, freshJit), lib);
    assert lib.signHs256(refresh, lib.utf8(secret)).Some?;
  }

  /** A returning user gets no new row: at most their refresh id changes. */
  lemma ReturningLoginCreatesNothing(rows: Rows, tg: TelegramUser, botToken: string, secret: string, now: int,
                                     newId: Uuid, freshJit: Uuid, lib: Lib, faults: set<UserCall>)
    requires HasTelegramId(rows, tg.id)
    ensures var rows' := LoginSpec(rows, tg, botToken, secret, now, newId, freshJit, lib, faults).1;
      rows' == rows || rows' == SaveRefresh(rows, UserByTelegramId(rows, tg.id).id, freshJit)
  {
  }

  /** A refresh that fails writes nothing, and never reports 404. */
  lemma RefreshFailureWritesNothing(rows: Rows, token: string, secret: string, now: int, freshJit: Uuid, lib: Lib,
                                    faults: set<UserCall>)
    ensures var (r, rows') := RefreshSpec(rows, token, secret, now, freshJit, lib, faults);
      r.Failure? ==> rows' == rows && r.error != App(NotFound)
  {
  }

  /**
   * A refresh succeeds only for a token whose (id, jit) pair is the user's
   * current one, and replaces that pair's jit with the fresh one, which the
   * returned refresh token carries.
   */
  lemma RefreshSuccess(rows: Rows, token: string, secret: string, now: int, freshJit: Uuid, lib: Lib,
                       faults: set<UserCall>)
    ensures var (r, rows') := RefreshSpec(rows, token, secret, now, freshJit, lib, faults);
      r.Success? ==>
        ParseJwt(token, secret, now, lib).Success?
        && var checked := ValidateRefreshToken(ParseJwt(token, secret, now, lib).value, lib);
        checked.Accepted?
        && RefreshCurrent(rows, checked.value.id, checked.value.jit)
        && rows' == SaveRefresh(rows, checked.value.id, freshJit)
        && r.value.refreshToken.claims == RefreshTokenClaims(checked.value.id, now + RefreshLifetime, freshJit)
        && r.value.accessToken.claims.id == checked.value.id
  {
  }

  /** The fresh jit is stored for no user yet, as a newly drawn random UUID is. */
  ghost predicate Unused(rows: Rows, jit: Uuid)
  {
    forall id :: id in rows ==> rows[id].refreshTokenId != Some(jit)
  }

  /**
   * Replay protection: once a refresh token has been rotated, presenting it
   * again fails, with 401 unless the existence check itself errs, and writes
   * nothing.
   */
  lemma {:induction false} ReplayAfterRotationFails(rows: Rows, token: string, secret: string, now: int, freshJit: Uuid,
                                                     lib: Lib, faults: set<UserCall>,
                                                     later: int, nextJit: Uuid, laterFaults: set<UserCall>)
    requires Unused(rows, freshJit)
    requires RefreshSpec(rows, token, secret, now, freshJit, lib, faults).0.Success?
    ensures var rows1 := RefreshSpec(rows, token, secret, now, freshJit, lib, faults).1;
      var (r2, rows2) := RefreshSpec(rows1, token, secret, later, nextJit, lib, laterFaults);
      r2.Failure? && rows2 == rows1
      && (IsRefreshCall !in laterFaults ==> r2 == Failure(App(Unauthorized)))
  {
    var rows1 := RefreshSpec(rows, token, secret, now, freshJit, lib, faults).1;
    RefreshSuccess(rows, token, secret, now, freshJit, lib, faults);
    var rt := ValidateRefreshToken(ParseJwt(token, secret, now, lib).value, lib).value;
    assert rt.jit != freshJit;
    assert rows1 == SaveRefresh(rows, rt.id, freshJit);
    assert !RefreshCurrent(rows1, rt.id, rt.jit);
    var parsed := ParseJwt(token, secret, later, lib);
    if parsed.Success? {
      assert parsed.value == ParseJwt(token, secret, now, lib).value;
    }
  }

  /**
   * The refresh token of a successful login, presented before it expires,
   * refreshes the session when nothing fails.
   */
  lemma LoginThenRefresh(rows: Rows, tg: TelegramUser, botToken: string, secret: string, now: int,
                         newId: Uuid, freshJit: Uuid, lib: Lib, later: int, nextJit: Uuid)
    requires UniqueTelegramIds(rows) && newId !in rows
    requires lib.Laws() && lib.SigningTotal() && 0 <= now <= later < now + RefreshLifetime
    requires LoginSpec(rows, tg, botToken, secret, now, newId, freshJit, lib, {}).0.Success?
    ensures var (r, rows1) := LoginSpec(rows, tg, botToken, secret, now, newId, freshJit, lib, {});
      RefreshSpec(rows1, r.value.refreshToken.signedValue, secret, later, nextJit, lib, {}).0.Success?
  {
    var (r, rows1) := LoginSpec(rows, tg, botToken, secret, now, newId, freshJit, lib, {});
    LoginSuccess(rows, tg, botToken, secret, now, newId, freshJit, lib, {});
    var id := r.value.accessToken.claims.id;
    assert GenerateRefreshToken(id, secret, now, freshJit, lib) == Some(r.value.refreshToken);
    RefreshTokenRoundTrip(id, secret, now, freshJit, lib, later);
    var u := ToUser(id, rows1[id]);
    assert lib.signHs256(AccessClaims(u, RoleOf(u.isAdmin), later + AccessLifetime, lib), lib.utf8(secret)).Some?;
    assert lib.signHs256(RefreshClaims(NewRefreshTokenClaims(id, later + RefreshLifetime, nextJit), lib), lib.utf8(secret)).Some?;
  }

  class UserService {
    const users: UserTable

    constructor (users: UserTable)
      ensures this.users == users
    {
      this.users := users;
    }

    method AuthenticateUser(tg: TelegramUser, botToken: string, secret: string, now: int,
                            newId: Uuid, freshJit: Uuid, lib: Lib, faults: set<UserCall>)
      returns (r: Result<UserTokens, Error>)
      requires users.Valid() && newId !in users.rows
      modifies users
      ensures users.Valid()
      ensures (r, users.rows) == LoginSpec(old(users.rows), tg, botToken, secret, now, newId, freshJit, lib, faults)
    {
      var verifyErr := VerifyTelegramAuth(tg, botToken, lib);
      if verifyErr.Some? {
        return Failure(App(Forbidden));
      }
      var userExists := users.Exists(tg.id, ExistsCall in faults);
      if userExists.Failure? {
        return Failure(App(InternalServerError));
      }
      if !userExists.value {
        var emptyUser := NewEmptyUser(tg.id, tg.firstName, tg.lastName, tg.username);
        var err := users.Create(emptyUser, newId, CreateCall in faults);
        if err.Some? {
          return Failure(App(InternalServerError));
        }
      }
      var u := users.GetByTelegramId(tg.id, GetByTelegramIdCall in faults);
      if u.Failure? {
        return Failure(App(InternalServerError));
      }
      var accessToken := GenerateAccessToken(u.value, secret, now, lib);
      if accessToken.None? {
        return Failure(App(InternalServerError));
      }
      var refreshToken := CreateRefreshToken(u.value.id, secret, now, freshJit, lib, faults);
      if refreshToken.Failure? {
        return Failure(refreshToken.error);
      }
      return Success(NewUserTokens(accessToken.value, refreshToken.value));
    }

    method CreateRefreshToken(userId: Uuid, secret: string, now: int, freshJit: Uuid, lib: Lib, faults: set<UserCall>)
      returns (r: Result<RefreshToken, Error>)
      requires users.Valid()
      modifies users
      ensures users.Valid()
      ensures (r, users.rows) == CreateRefreshSpec(old(users.rows), userId, secret, now, freshJit, lib, faults)
    {
      var refreshToken := GenerateRefreshToken(userId, secret, now, freshJit, lib);
      if refreshToken.None? {
        return Failure(App(InternalServerError));
      }
      var err := users.SaveRefreshToken(userId, refreshToken.value.claims.jit, SaveRefreshCall in faults);
      if err.Some? {
        return Failure(Raw(err.value));
      }
      return Success(refreshToken.value);
    }

    method UpdateAccessToken(token: string, secret: string, now: int, freshJit: Uuid, lib: Lib, faults: set<UserCall>)
      returns (r: Result<UserTokens, Error>)
      requires users.Valid()
      modifies users
      ensures users.Valid()
      ensures (r, users.rows) == RefreshSpec(old(users.rows), token, secret, now, freshJit, lib, faults)
    {
      var parsed := ParseJwt(token, secret, now, lib);
      if parsed.Failure? {
        return Failure(App(Unauthorized));
      }
      var checked := ValidateRefreshToken(parsed.value, lib);
      if checked.Panicked? {
        return Failure(Panic);
      }
      if checked.Rejected? {
        return Failure(App(Unauthorized));
      }
      var rt := checked.value;
      var isExists := users.IsRefreshTokenExists(rt.id, rt.jit, IsRefreshCall in faults);
      if isExists.Failure? {
        return Failure(Raw(isExists.error));
      }
      if !isExists.value {
        return Failure(App(Unauthorized));
      }
      var user := users.GetById(rt.id, GetByIdCall in faults);
      if user.Failure? {
        return Failure(Raw(user.error));
      }
      if user.value.None? {
        return Failure(App(NotFound));
      }
      var newAccessToken := GenerateAccessToken(user.value.value, secret, now, lib);
      if newAccessToken.None? {
        return Failure(Raw(SigningFailed));
      }
      var newRefreshToken := CreateRefreshToken(user.value.value.id, secret, now, freshJit, lib, faults);
      if newRefreshToken.Failure? {
        return Failure(newRefreshToken.error);
      }
      return Success(NewUserTokens(newAccessToken.value, newRefreshToken.value));
    }
  }
}
