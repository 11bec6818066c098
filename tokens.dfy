/**
 * Bearer-token claims and the codec interface.
 *
 * The claims follow the registered JWT claims `exp` (section 4.1.4 of
 * RFC 7519) and `jti` (section 4.1.7 of RFC 7519), plus the application's
 * own `user` and `refresh` claims. The codec that signs and verifies the
 * tokens is not part of this model: it is a pair of functions supplied by
 * the caller, `Issuer` and `Decoder`.
 */
module Tokens {
  import opened Wrappers

  type Email = string
  type Jti = string
  /** Unix time, in whole seconds. */
  type Time = int
  /** An opaque signed token, as carried in an `Authorization: Bearer` header (section 2.1 of RFC 6750). */
  type Token = string

  const SECONDS_PER_DAY: int := 86400

  /** The `user` claim: who the token was issued to. */
  datatype Subject = Subject(email: Email, userUid: string, role: string)

  /** A decoded claim set. */
  datatype Claims = Claims(user: Subject, exp: Time, jti: Jti, refresh: bool)

  /** The two kinds of bearer token; each is accepted only by its own guard. */
  datatype TokenKind = AccessToken | RefreshToken

  /** The value of the `refresh` claim a token of this kind carries. */
  function RefreshFlag(kind: TokenKind): (flag: bool)
    ensures flag <==> kind == RefreshToken
  {
    match kind
    case AccessToken => false
    case RefreshToken => true
  }

  /**
   * The arguments of one call to the token issuer: the subject claims,
   * the `refresh` flag, and the lifetime in seconds (None: the issuer's
   * own default lifetime).
   */
  datatype Grant = Grant(user: Subject, refresh: bool, lifetime: Option<int>)

  /**
   * Signs a grant into a token carrying the given `jti`; the issuer stamps
   * `exp` = now + lifetime. A fresh `jti` is chosen for every call, so it
   * is an argument here.
   */
  type Issuer = (Grant, Jti) -> Token

  /** Verifies and decodes a token; None stands for any falsy result (bad signature, expired, malformed). */
  type Decoder = Token -> Option<Claims>

  /**
   * The codec hypothesis used by end-to-end lemmas: a freshly issued token
   * decodes to claims that carry the grant's subject and refresh flag and
   * the `jti` it was issued with.
   */
  ghost predicate IssuedDecodes(issue: Issuer, decode: Decoder, g: Grant, jti: Jti)
  {
    && decode(issue(g, jti)).Some?
    && decode(issue(g, jti)).value.user == g.user
    && decode(issue(g, jti)).value.refresh == g.refresh
    && decode(issue(g, jti)).value.jti == jti
  }
}
