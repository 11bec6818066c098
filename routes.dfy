/**
 * The authentication routes: sign-up, email verification, login, session
 * renewal, logout and password-reset confirmation, plus the role gates the
 * routers configure.
 *
 * Each route that changes a store is specified by a pure step function
 * from the old store to the outcome and the new store; the method that
 * models the handler updates the store in place and is proved to follow
 * its step function.
 */
module Routes {
  import opened Wrappers
  import opened Tokens
  import opened Models
  import opened Blocklist
  import opened Dependencies

  const HTTP_200_OK: int := 200
  const HTTP_400_BAD_REQUEST: int := 400
  const HTTP_401_UNAUTHORIZED: int := 401
  const HTTP_404_NOT_FOUND: int := 404
  const HTTP_500_INTERNAL_SERVER_ERROR: int := 500

  /** Lifetime of a refresh token, in days. */
  const REFRESH_TOKEN_EXPIRY: int := 2

  /** The gate of the `/me` route and of the book routes. */
  const ROLE_CHECKER: RoleChecker := RoleChecker(["admin", "user"])
  /** The review routes' gates. */
  const ADMIN_ROLE_CHECKER: RoleChecker := RoleChecker(["admin"])
  const USER_ROLE_CHECKER: RoleChecker := RoleChecker(["user", "admin"])

  /** Why a route did not complete. */
  datatype RouteError =
    | Guard(auth: AuthError)                       // a bearer-token dependency refused the request
    | Role(role: RoleError)                        // the role gate refused the request
    | Http(exception: HttpException)               // raised by the handler itself
    | UserAlreadyExists
    | UserNotFound
    | ServerError                                  // an exception the handler does not catch: a bare 500

  /** A JSON response the handler returns, with its status code. */
  datatype Reply = Reply(status: int, message: string)

  /** A route's outcome together with the store it leaves behind. */
  datatype Step<T, S> = Step(result: Result<T, RouteError>, state: S)

  const LOGGED_OUT: Reply := Reply(HTTP_200_OK, "Logged out succesfully")
  const VERIFIED: Reply := Reply(HTTP_200_OK, "Account verified successfully")
  const VERIFY_FAILED: Reply := Reply(HTTP_500_INTERNAL_SERVER_ERROR, "Error occured during verification")
  const PASSWORD_RESET: Reply := Reply(HTTP_200_OK, "Password reset Successfully")
  const RESET_FAILED: Reply := Reply(HTTP_500_INTERNAL_SERVER_ERROR, "Error occured during password reset.")
  const LOGIN_USER_NOT_FOUND: RouteError :=
    Http(HttpException(HTTP_404_NOT_FOUND, Message("User not found. Please verify the email address and try again.")))
  const LOGIN_BAD_PASSWORD: RouteError :=
    Http(HttpException(HTTP_401_UNAUTHORIZED, Message("Invalid credentials. Please check your password and try again.")))
  const SESSION_EXPIRED: RouteError :=
    Http(HttpException(HTTP_400_BAD_REQUEST, Message("Invalid or expired token")))
  const PASSWORDS_DIFFER: RouteError :=
    Http(HttpException(HTTP_400_BAD_REQUEST, Message("Passwords do not match")))

  /** A decoded link payload, reduced to its `email` value if it has one. */
  datatype LinkPayload = LinkPayload(email: Option<string>)

  /**
   * Decodes a URL-safe link token. None is the codec's None result, on
   * which the handlers' `.get("email")` fails.
   */
  type LinkDecoder = Token -> Option<LinkPayload>

  /** The `email` value passes the handler's truthiness test: Python's falsy strings are None and "". */
  predicate Truthy(email: Option<string>): (t: bool)
    ensures t <==> email != None && email != Some("")
  {
    email.Some? && email.value != ""
  }

  // ---------------------------------------------------------------- sign-up

  /** Sign-up: refused for a taken email; otherwise one new, unverified account. */
  function SignUpStep(users: Users, email: Email, password: string, uid: string,
                      hashPassword: string -> string): (s: Step<User, Users>)
    ensures email in users ==> s == Step(Failure(UserAlreadyExists), users)
    ensures email !in users ==>
      && s.result.Success?
      && s.state.Keys == users.Keys + {email}
      && s.state[email] == s.result.value
      && s.result.value.role == DEFAULT_ROLE && !s.result.value.isVerified
      && s.result.value.passwordHash == hashPassword(password)
    ensures forall e :: e in users ==> e in s.state && s.state[e] == users[e]
  {
    if email in users then Step(Failure(UserAlreadyExists), users)
    else
      var newUser := NewUser(uid, hashPassword(password));
      Step(Success(newUser), users[email := newUser])
  }

  /** The sign-up handler, inserting into the user store. */
  method CreateUserAccount(store: UserStore, email: Email, password: string, uid: string,
                           hashPassword: string -> string) returns (r: Result<User, RouteError>)
    modifies store
    ensures Step(r, store.users) == SignUpStep(old(store.users), email, password, uid, hashPassword)
  {
    var userExists := email in store.users;
    if userExists {
      r := Failure(UserAlreadyExists);
      return;
    }
    var newUser := NewUser(uid, hashPassword(password));
    store.users := store.users[email := newUser];
    r := Success(newUser);
  }

  // ---------------------------------------------------------- verification

  /**
   * Email verification: a payload the codec could not produce (None) fails
   * before any branch; with a truthy email of an existing account, sets
   * that account's `is_verified` and changes nothing else; an unknown
   * account is UserNotFound; a payload without a truthy email is a 500
   * reply. Only success changes the store.
   */
  function VerifyStep(users: Users, token: Token, decodeLink: LinkDecoder): (s: Step<Reply, Users>)
    ensures decodeLink(token).None? ==> s == Step(Failure(ServerError), users)
    ensures s.result == Success(VERIFIED) <==>
      decodeLink(token).Some? && Truthy(decodeLink(token).value.email) && decodeLink(token).value.email.value in users
    ensures s.result == Success(VERIFIED) ==>
      var email := decodeLink(token).value.email.value;
      s.state == users[email := users[email].(isVerified := true)]
    ensures s.result != Success(VERIFIED) ==> s.state == users
    ensures decodeLink(token).Some? && !Truthy(decodeLink(token).value.email) ==> s.result == Success(VERIFY_FAILED)
    ensures decodeLink(token).Some? && Truthy(decodeLink(token).value.email) && decodeLink(token).value.email.value !in users ==>
      s.result == Failure(UserNotFound)
  {
    match decodeLink(token)
    case None => Step(Failure(ServerError), users)
    case Some(tokenData) =>
      var userEmail := tokenData.email;
      if Truthy(userEmail) then
        if userEmail.value !in users then Step(Failure(UserNotFound), users)
        else
          var user := users[userEmail.value];
          Step(Success(VERIFIED), users[userEmail.value := user.(isVerified := true)])
      else Step(Success(VERIFY_FAILED), users)
  }

  /** The verification handler, updating the user store in place. */
  method VerifyUserAccount(store: UserStore, token: Token, decodeLink: LinkDecoder)
    returns (r: Result<Reply, RouteError>)
    modifies store
    ensures Step(r, store.users) == VerifyStep(old(store.users), token, decodeLink)
  {
    var tokenData := decodeLink(token);
    if tokenData.None? {
      r := Failure(ServerError);
      return;
    }
    var userEmail := tokenData.value.email;
    if Truthy(userEmail) {
      var user := FindUser(store.users, userEmail.value);
      if user.None? {
        r := Failure(UserNotFound);
        return;
      }
      store.users := store.users[userEmail.value := user.value.(isVerified := true)];
      r := Success(VERIFIED);
      return;
    }
    r := Success(VERIFY_FAILED);
  }

  // ------------------------------------------------------------------ login

  /** The claims both login tokens carry. */
  function SubjectOf(email: Email, user: User): Subject
  {
    Subject(email, user.uid, user.role)
  }

  /** The access token's grant: not a refresh token, the issuer's default lifetime. */
  function AccessGrant(user: Subject): Grant
  {
    Grant(user, false, None)
  }

  /** The refresh token's grant: a refresh token living REFRESH_TOKEN_EXPIRY days. */
  function RefreshGrant(user: Subject): Grant
  {
    Grant(user, true, Some(REFRESH_TOKEN_EXPIRY * SECONDS_PER_DAY))
  }

  datatype LoginTokens = LoginTokens(accessToken: Token, refreshToken: Token)

  /**
   * Login: an unknown email is a 404, a wrong password a 401; otherwise
   * exactly one access token and one refresh token, issued for the same
   * subject claims with the `jti`s chosen for this request.
   */
  function LoginUsers(users: Users, email: Email, password: string,
                      verifyPassword: (string, string) -> bool, issue: Issuer,
                      accessJti: Jti, refreshJti: Jti): (r: Result<LoginTokens, RouteError>)
    ensures email !in users ==> r == Failure(LOGIN_USER_NOT_FOUND)
    ensures email in users && !verifyPassword(password, users[email].passwordHash) ==> r == Failure(LOGIN_BAD_PASSWORD)
    ensures r.Success? <==> email in users && verifyPassword(password, users[email].passwordHash)
    ensures r.Success? ==>
      var subject := SubjectOf(email, users[email]);
      && r.value.accessToken == issue(AccessGrant(subject), accessJti)
      && r.value.refreshToken == issue(RefreshGrant(subject), refreshJti)
  {
    match FindUser(users, email)
    case None => Failure(LOGIN_USER_NOT_FOUND)
    case Some(user) =>
      if verifyPassword(password, user.passwordHash) then
        var subject := SubjectOf(email, user);
        Success(LoginTokens(issue(AccessGrant(subject), accessJti), issue(RefreshGrant(subject), refreshJti)))
      else Failure(LOGIN_BAD_PASSWORD)
  }

  /**
   * The two login grants share their subject claims; only the refresh
   * grant is a refresh token, and only it has the two-day lifetime.
   */
  lemma LoginGrantsDiffer(subject: Subject)
    ensures AccessGrant(subject).user == subject && RefreshGrant(subject).user == subject
    ensures !AccessGrant(subject).refresh && RefreshGrant(subject).refresh
    ensures AccessGrant(subject).lifetime.None?
    ensures RefreshGrant(subject).lifetime == Some(172800)
  {
  }

  /** Login does not look at `is_verified`: an unverified account logs in like a verified one. */
  lemma LoginIgnoresVerification(users: Users, email: Email, password: string, verified: bool,
                                 verifyPassword: (string, string) -> bool, issue: Issuer,
                                 accessJti: Jti, refreshJti: Jti)
    requires email in users
    ensures LoginUsers(users[email := users[email].(isVerified := verified)], email, password, verifyPassword, issue,
                       accessJti, refreshJti)
         == LoginUsers(users, email, password, verifyPassword, issue, accessJti, refreshJti)
  {
  }

  /**
   * With a codec that decodes what it issues, and `jti`s never written to
   * the blocklist, the login access token is accepted only by the access
   * guard and the login refresh token only by the refresh guard, each
   * yielding the account's subject claims.
   */
  lemma LoginTokensKeepTheirKind(users: Users, email: Email, password: string,
                                 verifyPassword: (string, string) -> bool, issue: Issuer,
                                 accessJti: Jti, refreshJti: Jti,
                                 decode: Decoder, blocked: Entries, now: Time)
    requires LoginUsers(users, email, password, verifyPassword, issue, accessJti, refreshJti).Success?
    requires IssuedDecodes(issue, decode, AccessGrant(SubjectOf(email, users[email])), accessJti)
    requires IssuedDecodes(issue, decode, RefreshGrant(SubjectOf(email, users[email])), refreshJti)
    requires accessJti !in blocked && refreshJti !in blocked
    ensures var tokens := LoginUsers(users, email, password, verifyPassword, issue, accessJti, refreshJti).value;
      var subject := SubjectOf(email, users[email]);
      && Authenticate(AccessToken, Some(tokens.accessToken), decode, blocked, now).Success?
      && Authenticate(AccessToken, Some(tokens.accessToken), decode, blocked, now).value.user == subject
      && Authenticate(RefreshToken, Some(tokens.accessToken), decode, blocked, now) == Failure(WrongTokenType(RefreshToken))
      && Authenticate(RefreshToken, Some(tokens.refreshToken), decode, blocked, now).Success?
      && Authenticate(RefreshToken, Some(tokens.refreshToken), decode, blocked, now).value.user == subject
      && Authenticate(AccessToken, Some(tokens.refreshToken), decode, blocked, now) == Failure(WrongTokenType(AccessToken))
  {
    var tokens := LoginUsers(users, email, password, verifyPassword, issue, accessJti, refreshJti).value;
    KindDecidesLast(AccessToken, tokens.accessToken, decode, blocked, now);
    KindDecidesLast(RefreshToken, tokens.accessToken, decode, blocked, now);
    KindDecidesLast(AccessToken, tokens.refreshToken, decode, blocked, now);
    KindDecidesLast(RefreshToken, tokens.refreshToken, decode, blocked, now);
  }

  // ----------------------------------------------------------- new session

  /**
   * Session renewal, behind the refresh guard: a new access token for the
   * same `user` claims when the token's `exp` is still ahead of `now`,
   * and a 400 otherwise.
   */
  function GetNewSession(credential: Option<Token>, decode: Decoder, blocked: Entries, now: Time,
                         issue: Issuer, jti: Jti): (r: Result<Token, RouteError>)
    ensures r.Success? <==>
      Authenticate(RefreshToken, credential, decode, blocked, now).Success? && decode(credential.value).value.exp > now
    ensures r.Success? ==> r.value == issue(AccessGrant(decode(credential.value).value.user), jti)
    ensures Authenticate(RefreshToken, credential, decode, blocked, now).Failure? ==>
      r == Failure(Guard(Authenticate(RefreshToken, credential, decode, blocked, now).error))
    ensures Authenticate(RefreshToken, credential, decode, blocked, now).Success? && decode(credential.value).value.exp <= now ==>
      r == Failure(SESSION_EXPIRED)
  {
    match Authenticate(RefreshToken, credential, decode, blocked, now)
    case Failure(e) => Failure(Guard(e))
    case Success(tokenDetails) =>
      if tokenDetails.exp > now then Success(issue(AccessGrant(tokenDetails.user), jti))
      else Failure(SESSION_EXPIRED)
  }

  /** An access token can never open a new session: it is refused by the refresh guard or as revoked. */
  lemma AccessTokenCannotRenew(token: Token, decode: Decoder, blocked: Entries, now: Time, issue: Issuer, jti: Jti)
    requires decode(token).Some? && !decode(token).value.refresh
    ensures GetNewSession(Some(token), decode, blocked, now, issue, jti) ==
      if Marked(blocked, decode(token).value.jti, now) then Failure(Guard(REVOKED))
      else Failure(Guard(WrongTokenType(RefreshToken)))
  {
    if Marked(blocked, decode(token).value.jti, now) {
      RevocationBeforeKind(RefreshToken, token, decode, blocked, now);
    } else {
      KindDecidesLast(RefreshToken, token, decode, blocked, now);
    }
  }

  /**
   * With a codec that decodes what it issues and a `jti` never written to
   * the blocklist, the renewed token is an access token for the refresh
   * token's own `user` claims: it passes the access guard.
   */
  lemma RenewedTokenIsAccess(credential: Option<Token>, decode: Decoder, blocked: Entries, now: Time,
                             issue: Issuer, jti: Jti)
    requires GetNewSession(credential, decode, blocked, now, issue, jti).Success?
    requires IssuedDecodes(issue, decode, AccessGrant(decode(credential.value).value.user), jti)
    requires jti !in blocked
    ensures var renewed := GetNewSession(credential, decode, blocked, now, issue, jti).value;
      && Authenticate(AccessToken, Some(renewed), decode, blocked, now).Success?
      && Authenticate(AccessToken, Some(renewed), decode, blocked, now).value.user == decode(credential.value).value.user
  {
    var renewed := GetNewSession(credential, decode, blocked, now, issue, jti).value;
    KindDecidesLast(AccessToken, renewed, decode, blocked, now);
  }

  // ----------------------------------------------------------------- logout

  /** Logout, behind the access guard: the presented token's `jti` goes on the blocklist. */
  function LogoutStep(entries: Entries, credential: Option<Token>, decode: Decoder, now: Time): (s: Step<Reply, Entries>)
    ensures s.result.Success? <==> Authenticate(AccessToken, credential, decode, entries, now).Success?
    ensures s.result.Success? ==>
      && s.result.value == LOGGED_OUT
      && !decode(credential.value).value.refresh
      && s.state == Stored(entries, decode(credential.value).value.jti, now)
    ensures s.result.Failure? ==>
      && s.result.error == Guard(Authenticate(AccessToken, credential, decode, entries, now).error)
      && s.state == entries
  {
    match Authenticate(AccessToken, credential, decode, entries, now)
    case Failure(e) => Step(Failure(Guard(e)), entries)
    case Success(tokenDetails) => Step(Success(LOGGED_OUT), Stored(entries, tokenDetails.jti, now))
  }

  /** The logout handler, writing to the shared blocklist. */
  method RevokeToken(blocklist: TokenBlocklist, credential: Option<Token>, decode: Decoder, now: Time)
    returns (r: Result<Reply, RouteError>)
    requires blocklist.Valid() && blocklist.clock <= now
    modifies blocklist
    ensures blocklist.Valid()
    ensures Step(r, blocklist.entries) == LogoutStep(old(blocklist.entries), credential, decode, now)
    ensures r.Success? ==> blocklist.log == old(blocklist.log) + [Revocation(decode(credential.value).value.jti, now)]
    ensures r.Failure? ==> blocklist.log == old(blocklist.log)
    ensures r.Success? ==> blocklist.clock == now
    ensures r.Failure? ==> blocklist.clock == old(blocklist.clock)
  {
    var tokenDetails := Authenticate(AccessToken, credential, decode, blocklist.entries, now);
    if tokenDetails.Failure? {
      r := Failure(Guard(tokenDetails.error));
      return;
    }
    blocklist.AddJtiToBlocklist(tokenDetails.value.jti, now);
    r := Success(LOGGED_OUT);
  }

  /**
   * After a logout at `t`, the same token is refused as revoked, by
   * either guard, at every instant before the marker lapses at which the
   * codec still decodes it (an expired token fails the decode check first).
   */
  lemma LogoutRevokes(entries: Entries, credential: Option<Token>, decode: Decoder, t: Time,
                      kind: TokenKind, later: Time)
    requires LogoutStep(entries, credential, decode, t).result.Success?
    requires t <= later < t + JTI_EXPIRY
    ensures Authenticate(kind, credential, decode, LogoutStep(entries, credential, decode, t).state, later)
         == Failure(REVOKED)
  {
    RevocationBeforeKind(kind, credential.value, decode, LogoutStep(entries, credential, decode, t).state, later);
  }

  /**
   * Logout revokes only the presented token: any token with another
   * `jti`, such as the refresh token issued alongside it, is judged by
   * either guard exactly as before.
   */
  lemma LogoutSparesOtherTokens(entries: Entries, credential: Option<Token>, decode: Decoder, t: Time,
                                kind: TokenKind, other: Token, later: Time)
    requires LogoutStep(entries, credential, decode, t).result.Success?
    requires decode(other).Some? ==> decode(other).value.jti != decode(credential.value).value.jti
    ensures Authenticate(kind, Some(other), decode, LogoutStep(entries, credential, decode, t).state, later)
         == Authenticate(kind, Some(other), decode, entries, later)
  {
  }

  /**
   * The marker's lifetime is JTI_EXPIRY, not the token's own: once it
   * lapses, the logged-out token is accepted again for as long as the
   * codec still decodes it.
   */
  lemma RevokedTokenRevivesAfterTtl(entries: Entries, credential: Option<Token>, decode: Decoder, t: Time,
                                    later: Time)
    requires LogoutStep(entries, credential, decode, t).result.Success?
    requires t + JTI_EXPIRY <= later
    ensures Authenticate(AccessToken, credential, decode, LogoutStep(entries, credential, decode, t).state, later)
         == Success(decode(credential.value).value)
  {
  }

  /**
   * Logging out does not stand in the way of a new login: with fresh
   * `jti`s (never written, and not the one just revoked), the new access
   * token passes the access guard at any later time.
   */
  lemma ReloginAfterLogout(entries: Entries, credential: Option<Token>, decode: Decoder, t: Time,
                           users: Users, email: Email, password: string,
                           verifyPassword: (string, string) -> bool, issue: Issuer,
                           accessJti: Jti, refreshJti: Jti, later: Time)
    requires LogoutStep(entries, credential, decode, t).result.Success?
    requires LoginUsers(users, email, password, verifyPassword, issue, accessJti, refreshJti).Success?
    requires IssuedDecodes(issue, decode, AccessGrant(SubjectOf(email, users[email])), accessJti)
    requires accessJti !in entries && accessJti != decode(credential.value).value.jti
    ensures var tokens := LoginUsers(users, email, password, verifyPassword, issue, accessJti, refreshJti).value;
      var after := LogoutStep(entries, credential, decode, t).state;
      && Authenticate(AccessToken, Some(tokens.accessToken), decode, after, later).Success?
      && Authenticate(AccessToken, Some(tokens.accessToken), decode, after, later).value.user == SubjectOf(email, users[email])
  {
    var tokens := LoginUsers(users, email, password, verifyPassword, issue, accessJti, refreshJti).value;
    var after := LogoutStep(entries, credential, decode, t).state;
    assert accessJti !in after;
    KindDecidesLast(AccessToken, tokens.accessToken, decode, after, later);
  }

  /**
   * Logout revokes only the access token: the refresh token issued with
   * it at login (its `jti` differs) still opens a new session, and the
   * renewed access token, with a fresh `jti`, passes the access guard.
   */
  lemma SessionSurvivesLogout(users: Users, email: Email, password: string,
                              verifyPassword: (string, string) -> bool, issue: Issuer,
                              accessJti: Jti, refreshJti: Jti, renewJti: Jti,
                              decode: Decoder, entries: Entries, t: Time, later: Time)
    requires LoginUsers(users, email, password, verifyPassword, issue, accessJti, refreshJti).Success?
    requires IssuedDecodes(issue, decode, AccessGrant(SubjectOf(email, users[email])), accessJti)
    requires IssuedDecodes(issue, decode, RefreshGrant(SubjectOf(email, users[email])), refreshJti)
    requires IssuedDecodes(issue, decode, AccessGrant(SubjectOf(email, users[email])), renewJti)
    requires accessJti != refreshJti && refreshJti !in entries
    requires renewJti !in entries && renewJti != accessJti
    requires var tokens := LoginUsers(users, email, password, verifyPassword, issue, accessJti, refreshJti).value;
      LogoutStep(entries, Some(tokens.accessToken), decode, t).result.Success?
    requires var tokens := LoginUsers(users, email, password, verifyPassword, issue, accessJti, refreshJti).value;
      decode(tokens.refreshToken).value.exp > later
    ensures var tokens := LoginUsers(users, email, password, verifyPassword, issue, accessJti, refreshJti).value;
      var after := LogoutStep(entries, Some(tokens.accessToken), decode, t).state;
      var renewed := GetNewSession(Some(tokens.refreshToken), decode, after, later, issue, renewJti);
      && renewed.Success?
      && Authenticate(AccessToken, Some(renewed.value), decode, after, later).Success?
      && Authenticate(AccessToken, Some(renewed.value), decode, after, later).value.user == SubjectOf(email, users[email])
  {
    var tokens := LoginUsers(users, email, password, verifyPassword, issue, accessJti, refreshJti).value;
    var after := LogoutStep(entries, Some(tokens.accessToken), decode, t).state;
    assert after == Stored(entries, accessJti, t);
    assert refreshJti !in after && renewJti !in after;
    KindDecidesLast(RefreshToken, tokens.refreshToken, decode, after, later);
    var renewed := GetNewSession(Some(tokens.refreshToken), decode, after, later, issue, renewJti);
    assert renewed.value == issue(AccessGrant(SubjectOf(email, users[email])), renewJti);
    KindDecidesLast(AccessToken, renewed.value, decode, after, later);
  }

  // --------------------------------------------------------- password reset

  /**
   * Password-reset confirmation: mismatched passwords are a 400 before the
   * link is decoded; a payload the codec could not produce (None) fails
   * next; with a truthy email of an existing account, only that account's
   * password hash changes; an unknown account is UserNotFound; a payload
   * without a truthy email is a 500 reply. Only success changes the store.
   */
  function ResetStep(users: Users, token: Token, newPassword: string, confirmPassword: string,
                     decodeLink: LinkDecoder, hashPassword: string -> string): (s: Step<Reply, Users>)
    ensures newPassword != confirmPassword ==> s == Step(Failure(PASSWORDS_DIFFER), users)
    ensures newPassword == confirmPassword && decodeLink(token).None? ==> s == Step(Failure(ServerError), users)
    ensures s.result == Success(PASSWORD_RESET) <==>
      && newPassword == confirmPassword
      && decodeLink(token).Some? && Truthy(decodeLink(token).value.email)
      && decodeLink(token).value.email.value in users
    ensures s.result == Success(PASSWORD_RESET) ==>
      var email := decodeLink(token).value.email.value;
      s.state == users[email := users[email].(passwordHash := hashPassword(newPassword))]
    ensures s.result != Success(PASSWORD_RESET) ==> s.state == users
    ensures newPassword == confirmPassword && decodeLink(token).Some? && !Truthy(decodeLink(token).value.email) ==>
      s.result == Success(RESET_FAILED)
    ensures newPassword == confirmPassword && decodeLink(token).Some? && Truthy(decodeLink(token).value.email)
            && decodeLink(token).value.email.value !in users ==>
      s.result == Failure(UserNotFound)
  {
    if newPassword != confirmPassword then Step(Failure(PASSWORDS_DIFFER), users)
    else match decodeLink(token)
      case None => Step(Failure(ServerError), users)
      case Some(tokenData) =>
        var userEmail := tokenData.email;
        if Truthy(userEmail) then
          if userEmail.value !in users then Step(Failure(UserNotFound), users)
          else
            var user := users[userEmail.value];
            Step(Success(PASSWORD_RESET), users[userEmail.value := user.(passwordHash := hashPassword(newPassword))])
        else Step(Success(RESET_FAILED), users)
  }

  /** Mismatched passwords are refused whatever the link would decode to. */
  lemma MismatchBeforeDecode(users: Users, token: Token, newPassword: string, confirmPassword: string,
                             decodeLink: LinkDecoder, otherDecodeLink: LinkDecoder, hashPassword: string -> string)
    requires newPassword != confirmPassword
    ensures ResetStep(users, token, newPassword, confirmPassword, decodeLink, hashPassword)
         == ResetStep(users, token, newPassword, confirmPassword, otherDecodeLink, hashPassword)
  {
  }

  /** The reset-confirmation handler, updating the user store in place. */
  method ResetAccountPassword(store: UserStore, token: Token, newPassword: string, confirmPassword: string,
                              decodeLink: LinkDecoder, hashPassword: string -> string)
    returns (r: Result<Reply, RouteError>)
    modifies store
    ensures Step(r, store.users) == ResetStep(old(store.users), token, newPassword, confirmPassword, decodeLink, hashPassword)
  {
    if newPassword != confirmPassword {
      r := Failure(PASSWORDS_DIFFER);
      return;
    }
    var tokenData := decodeLink(token);
    if tokenData.None? {
      r := Failure(ServerError);
      return;
    }
    var userEmail := tokenData.value.email;
    if Truthy(userEmail) {
      var user := FindUser(store.users, userEmail.value);
      if user.None? {
        r := Failure(UserNotFound);
        return;
      }
      var passwordHash := hashPassword(newPassword);
      store.users := store.users[userEmail.value := user.value.(passwordHash := passwordHash)];
      r := Success(PASSWORD_RESET);
      return;
    }
    r := Success(RESET_FAILED);
  }

  // ------------------------------------------------------------ the /me route

  /**
   * The `/me` route: the access guard, then the current user, then the
   * role gate for "admin" and "user". It returns the account exactly when
   * the token passes the access guard and names an existing, verified
   * account with one of those roles.
   */
  function CurrentUser(credential: Option<Token>, decode: Decoder, blocked: Entries, now: Time,
                       users: Users): (r: Result<User, RouteError>)
    ensures r.Success? <==>
      && Authenticate(AccessToken, credential, decode, blocked, now).Success?
      && var email := decode(credential.value).value.user.email;
      && email in users && users[email].isVerified && users[email].role in ["admin", "user"]
    ensures r.Success? ==> r.value == users[decode(credential.value).value.user.email]
    ensures Authenticate(AccessToken, credential, decode, blocked, now).Success? && r.Failure? ==>
      var email := decode(credential.value).value.user.email;
      r == Failure(Role(ROLE_CHECKER.Check(FindUser(users, email)).error))
    ensures Authenticate(AccessToken, credential, decode, blocked, now).Failure? ==>
      r == Failure(Guard(Authenticate(AccessToken, credential, decode, blocked, now).error))
  {
    match GetCurrentUser(credential, decode, blocked, now, users)
    case Failure(e) => Failure(Guard(e))
    case Success(user) =>
      match ROLE_CHECKER.Check(user)
      case Failure(e) => Failure(Role(e))
      case Success(_) => Success(user.value)
  }

  /**
   * A new account is refused by every role gate as not verified; once its
   * link is verified it passes the gate for "admin" and "user" but not the
   * admin-only gate.
   */
  lemma NewAccountGatedUntilVerified(users: Users, email: Email, password: string, uid: string,
                                     hashPassword: string -> string, token: Token, decodeLink: LinkDecoder,
                                     checker: RoleChecker)
    requires email !in users
    requires email != "" && decodeLink(token) == Some(LinkPayload(Some(email)))
    ensures var signedUp := SignUpStep(users, email, password, uid, hashPassword).state;
      && checker.Check(FindUser(signedUp, email)) == Failure(AccountNotVerified)
      && var verified := VerifyStep(signedUp, token, decodeLink).state;
      && ROLE_CHECKER.Check(FindUser(verified, email)) == Success(true)
      && USER_ROLE_CHECKER.Check(FindUser(verified, email)) == Success(true)
      && ADMIN_ROLE_CHECKER.Check(FindUser(verified, email)) == Failure(InsufficientPermission)
  {
    var signedUp := SignUpStep(users, email, password, uid, hashPassword).state;
    assert signedUp[email].role == DEFAULT_ROLE;
  }

  // ------------------------------------------------------ account invariants

  /** One request to an account flow that writes to the user store. */
  datatype AccountRequest =
    | SignUpRequest(email: Email, password: string, uid: string)
    | VerifyRequest(link: Token)
    | ResetRequest(resetLink: Token, newPassword: string, confirmPassword: string)

  /** The user store after one account request. */
  function ApplyRequest(users: Users, request: AccountRequest, decodeLink: LinkDecoder,
                        hashPassword: string -> string): Users
  {
    match request
    case SignUpRequest(email, password, uid) => SignUpStep(users, email, password, uid, hashPassword).state
    case VerifyRequest(link) => VerifyStep(users, link, decodeLink).state
    case ResetRequest(link, newPassword, confirmPassword) =>
      ResetStep(users, link, newPassword, confirmPassword, decodeLink, hashPassword).state
  }

  /** The user store after a series of account requests, first to last. */
  function ApplyRequests(users: Users, requests: seq<AccountRequest>, decodeLink: LinkDecoder,
                         hashPassword: string -> string): Users
    decreases |requests|
  {
    if requests == [] then users
    else ApplyRequests(ApplyRequest(users, requests[0], decodeLink, hashPassword), requests[1..], decodeLink, hashPassword)
  }

  /**
   * Accounts persist: no account is removed, its uid and role never
   * change, and a verified account stays verified.
   */
  ghost predicate Persists(before: Users, after: Users)
  {
    forall e :: e in before ==>
      && e in after
      && after[e].uid == before[e].uid
      && after[e].role == before[e].role
      && (before[e].isVerified ==> after[e].isVerified)
  }

  /** No series of account requests deletes an account, alters its uid or role, or un-verifies it. */
  lemma {:induction false} AccountsPersist(users: Users, requests: seq<AccountRequest>,
                                           decodeLink: LinkDecoder, hashPassword: string -> string)
    ensures Persists(users, ApplyRequests(users, requests, decodeLink, hashPassword))
    decreases |requests|
  {
    if requests != [] {
      var next := ApplyRequest(users, requests[0], decodeLink, hashPassword);
      assert Persists(users, next);
      AccountsPersist(next, requests[1..], decodeLink, hashPassword);
    }
  }
}
