/**
 * Request dependencies of the authentication core: the bearer-token
 * guards, the current-user resolver and the role gate.
 *
 * The guard runs its checks in a fixed order: the credential is decoded,
 * then its `jti` is looked up in the blocklist, then its kind is checked.
 * The first check that fails decides the error; on success the decoded
 * claims are returned unchanged.
 */
module Dependencies {
  import opened Wrappers
  import opened Tokens
  import opened Models
  import opened Blocklist

  const HTTP_403_FORBIDDEN: int := 403

  /** The `detail` of an HTTP exception: a plain message, or an `error` with a `resolution`. */
  datatype Detail = Message(text: string) | Structured(error: string, resolution: string)

  /** An HTTP exception raised to the client, with its status code. */
  datatype HttpException = HttpException(status: int, detail: Detail)

  /** Why a bearer-token guard refused a request. */
  datatype AuthError =
    | MissingCredential                     // no usable `Authorization: Bearer` header (the framework's own check)
    | Raised(exception: HttpException)      // an exception the guard raises itself

  /** The decode check's refusal. */
  const INVALID_OR_EXPIRED: AuthError :=
    Raised(HttpException(HTTP_403_FORBIDDEN, Structured("This token is invalid or expired", "Please get a new token")))

  /** The revocation check's refusal. */
  const REVOKED: AuthError :=
    Raised(HttpException(HTTP_403_FORBIDDEN, Structured("This token is invalid or has benn revoked", "Please get a new token")))

  /** The kind check's refusal, naming the kind the guard requires. */
  function WrongTokenType(required: TokenKind): AuthError
  {
    match required
    case AccessToken => Raised(HttpException(HTTP_403_FORBIDDEN, Message("Please provide an aceess token")))
    case RefreshToken => Raised(HttpException(HTTP_403_FORBIDDEN, Message("Please provide a refresh token")))
  }

  /** The token decodes to a truthy claim set: anything but the codec's falsy result. */
  predicate IsTokenValid(token: Token, decode: Decoder): (valid: bool)
    ensures valid <==> decode(token) != None
  {
    decode(token).Some?
  }

  /**
   * The kind check of the Access and Refresh guards: an access guard
   * refuses claims with `refresh` set, a refresh guard claims without it.
   */
  function VerifyTokenData(kind: TokenKind, claims: Claims): (r: Option<AuthError>)
    ensures r.None? <==> claims.refresh == RefreshFlag(kind)
    ensures r.Some? ==> r.value == WrongTokenType(kind)
  {
    match kind
    case AccessToken => if claims.refresh then Some(WrongTokenType(AccessToken)) else None
    case RefreshToken => if !claims.refresh then Some(WrongTokenType(RefreshToken)) else None
  }

  /**
   * The bearer-token guard of the given kind, applied to the credential
   * the framework extracted from the request, against the blocklist as it
   * stands at time `now`.
   */
  function Authenticate(kind: TokenKind, credential: Option<Token>, decode: Decoder,
                        blocked: Entries, now: Time): (r: Result<Claims, AuthError>)
    ensures r.Success? <==>
      && credential.Some?
      && decode(credential.value).Some?
      && !Marked(blocked, decode(credential.value).value.jti, now)
      && decode(credential.value).value.refresh == RefreshFlag(kind)
    ensures r.Success? ==> r.value == decode(credential.value).value
    ensures credential.None? ==> r == Failure(MissingCredential)
    ensures r.Failure? && r.error != MissingCredential ==>
      && r.error.exception.status == HTTP_403_FORBIDDEN
      && r.error in {INVALID_OR_EXPIRED, REVOKED, WrongTokenType(kind)}
  {
    match credential
    case None => Failure(MissingCredential)
    case Some(token) =>
      var tokenData := decode(token);
      if !IsTokenValid(token, decode) then Failure(INVALID_OR_EXPIRED)
      else if Marked(blocked, tokenData.value.jti, now) then Failure(REVOKED)
      else match VerifyTokenData(kind, tokenData.value)
        case Some(e) => Failure(e)
        case None => Success(tokenData.value)
  }

  /**
   * A token that does not decode is refused as invalid or expired, by
   * either guard and whatever the blocklist holds: the blocklist and the
   * kind are never consulted.
   */
  lemma UndecodableIsInvalid(kind: TokenKind, token: Token, decode: Decoder, blocked: Entries, now: Time)
    requires decode(token).None?
    ensures Authenticate(kind, Some(token), decode, blocked, now) == Failure(INVALID_OR_EXPIRED)
  {
  }

  /**
   * `is_token_valid` decides the first check alone: a guard of either kind
   * refuses a token as invalid or expired exactly when it is not valid.
   */
  lemma InvalidIffNotValid(kind: TokenKind, token: Token, decode: Decoder, blocked: Entries, now: Time)
    ensures Authenticate(kind, Some(token), decode, blocked, now) == Failure(INVALID_OR_EXPIRED)
        <==> !IsTokenValid(token, decode)
  {
    RefusalsDistinct();
  }

  /**
   * A decodable token whose `jti` is on the blocklist is refused as
   * revoked, by either guard: revocation is reported even when the token
   * is of the wrong kind.
   */
  lemma RevocationBeforeKind(kind: TokenKind, token: Token, decode: Decoder, blocked: Entries, now: Time)
    requires decode(token).Some? && Marked(blocked, decode(token).value.jti, now)
    ensures Authenticate(kind, Some(token), decode, blocked, now) == Failure(REVOKED)
  {
  }

  /**
   * A decodable, unrevoked token is refused for its kind alone, and only
   * by the guard of the other kind.
   */
  lemma KindDecidesLast(kind: TokenKind, token: Token, decode: Decoder, blocked: Entries, now: Time)
    requires decode(token).Some? && !Marked(blocked, decode(token).value.jti, now)
    ensures decode(token).value.refresh != RefreshFlag(kind) ==>
      Authenticate(kind, Some(token), decode, blocked, now) == Failure(WrongTokenType(kind))
    ensures decode(token).value.refresh == RefreshFlag(kind) ==>
      Authenticate(kind, Some(token), decode, blocked, now) == Success(decode(token).value)
  {
  }

  /** The access guard and the refresh guard never both accept the same request. */
  lemma GuardsDisjoint(credential: Option<Token>, decode: Decoder, blocked: Entries, now: Time)
    ensures !(Authenticate(AccessToken, credential, decode, blocked, now).Success?
              && Authenticate(RefreshToken, credential, decode, blocked, now).Success?)
  {
  }

  /**
   * Each check of the guard fails with its own refusal: the decode, the
   * revocation and the two kind checks raise four different exceptions.
   */
  lemma RefusalsDistinct()
    ensures INVALID_OR_EXPIRED != REVOKED
    ensures WrongTokenType(AccessToken) != WrongTokenType(RefreshToken)
    ensures forall kind :: WrongTokenType(kind) != INVALID_OR_EXPIRED && WrongTokenType(kind) != REVOKED
  {
  }

  /**
   * The current user: the access guard's claims, then the user found by
   * the `user.email` claim. An absent account is returned as None; it is
   * not an error here.
   */
  function GetCurrentUser(credential: Option<Token>, decode: Decoder, blocked: Entries,
                          now: Time, users: Users): (r: Result<Option<User>, AuthError>)
    ensures r.Failure? <==> Authenticate(AccessToken, credential, decode, blocked, now).Failure?
    ensures r.Failure? ==> r.error == Authenticate(AccessToken, credential, decode, blocked, now).error
    ensures r.Success? ==>
      var email := decode(credential.value).value.user.email;
      && (r.value.Some? <==> email in users)
      && (r.value.Some? ==> r.value.value == users[email])
  {
    match Authenticate(AccessToken, credential, decode, blocked, now)
    case Failure(e) => Failure(e)
    case Success(tokenDetails) => Success(FindUser(users, tokenDetails.user.email))
  }

  /** Why the role gate refused a resolved user. */
  datatype RoleError =
    | AccountNotVerified
    | InsufficientPermission
    | NoCurrentUser   // the resolver gave None; reading `is_verified` of it fails with a server error

  /** The role gate, configured once with the roles it admits. */
  datatype RoleChecker = RoleChecker(allowedRoles: seq<string>)
  {
    /**
     * Succeeds exactly for a verified user whose role is admitted. An
     * unverified user is refused as not verified whatever the role;
     * InsufficientPermission is only ever reported for verified users.
     */
    function Check(currentUser: Option<User>): (r: Result<bool, RoleError>)
      ensures r.Success? <==>
        currentUser.Some? && currentUser.value.isVerified && currentUser.value.role in allowedRoles
      ensures r.Success? ==> r.value
      ensures currentUser.None? ==> r == Failure(NoCurrentUser)
      ensures currentUser.Some? && !currentUser.value.isVerified ==> r == Failure(AccountNotVerified)
      ensures r == Failure(InsufficientPermission) <==>
        currentUser.Some? && currentUser.value.isVerified && currentUser.value.role !in allowedRoles
    {
      match currentUser
      case None => Failure(NoCurrentUser)
      case Some(user) =>
        if !user.isVerified then Failure(AccountNotVerified)
        else if user.role in allowedRoles then Success(true)
        else Failure(InsufficientPermission)
    }
  }
}
