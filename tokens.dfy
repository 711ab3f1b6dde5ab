/**
 * The token records handed between the user service and the HTTP layer: the
 * claims each signed token carries, the signed tokens, and the pair returned
 * by a login or a refresh, whose JSON form exposes only the access token.
 */
module Tokens {
  import opened Foreign
  import opened UserStore

  /** Access-token claims; `exp` is a Unix time in seconds. */
  datatype AccessTokenClaims = AccessTokenClaims(id: Uuid, firstName: string, username: string, role: string, exp: int)

  /** Refresh-token claims; `jit` is the random id the users table remembers. */
  datatype RefreshTokenClaims = RefreshTokenClaims(id: Uuid, exp: int, jit: Uuid)

  datatype AccessToken = AccessToken(signedValue: string, claims: AccessTokenClaims)
  datatype RefreshToken = RefreshToken(signedValue: string, claims: RefreshTokenClaims)
  datatype UserTokens = UserTokens(accessToken: AccessToken, refreshToken: RefreshToken)

  /** The random id comes from uuid.New, here the parameter `freshJit`. */
  function NewRefreshTokenClaims(userId: Uuid, expTime: int, freshJit: Uuid): RefreshTokenClaims
  {
    RefreshTokenClaims(userId, expTime, freshJit)
  }

  function NewAccessToken(signedValue: string, user: User, role: string, expTime: int): AccessToken
  {
    AccessToken(signedValue, AccessTokenClaims(user.id, user.firstName, user.username, role, expTime))
  }

  function NewRefreshToken(signedValue: string, claims: RefreshTokenClaims): RefreshToken
  {
    RefreshToken(signedValue, claims)
  }

  function NewUserTokens(accessToken: AccessToken, refreshToken: RefreshToken): UserTokens
  {
    UserTokens(accessToken, refreshToken)
  }

  /** UserTokens.MarshalJSON: a JSON object with the single member "token". */
  function MarshalJson(tokens: UserTokens): (body: map<string, string>)
    ensures body.Keys == {"token"}
    ensures body["token"] == tokens.accessToken.signedValue
  {
    map["token" := tokens.accessToken.signedValue]
  }

  /** The JSON form depends on the signed access token only: never on its claims or the refresh token. */
  lemma MarshalShowsOnlyAccessToken(a: UserTokens, b: UserTokens)
    requires a.accessToken.signedValue == b.accessToken.signedValue
    ensures MarshalJson(a) == MarshalJson(b)
  {
  }
}
