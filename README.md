# Authentication core of the book-review backend, in Dafny

This project models the authentication and authorization pipeline of a
FastAPI book-review service and proves properties of it:

- **Bearer-token guards** (`TokenBearer`, `AccessTokenBearer`,
  `RefreshTokenBearer`). A guard decodes the credential, then checks the
  revocation blocklist, then checks the token kind. The first failing check
  decides the error. On success the guard returns the decoded claims unchanged
  (module `Dependencies`).
- **Current-user resolver and role gate** (`get_current_user`, `RoleChecker`).
  "Not verified" is checked before role membership (module `Dependencies`).
- **Revocation blocklist** (`redis.py`). This is a key-value cache in which
  logout stores a token's `jti` with a fixed time-to-live of 3600 seconds. It is
  modelled as a class whose field maps each `jti` to the instant its marker
  lapses. The clock is an explicit parameter (module `Blocklist`).
- **Account and session routes**: sign-up, email verification, login, session
  renewal (`/new_session`), logout, password-reset confirmation, the `/me`
  route, and the role-gate configurations the routers use (module `Routes`).
  The user store is a class holding a map `email -> User`. Each route that
  changes a store has a pure step function, from the old store to the outcome
  and the new store. A method models the handler: it updates the store in
  place, and its contract ties it to the step function.

The claims carry the registered JWT claims `exp` (section 4.1.4 of RFC 7519)
and `jti` (section 4.1.7 of RFC 7519). Credentials arrive in an
`Authorization: Bearer` header (section 2.1 of RFC 6750).

Some collaborators are not part of this model and become function-typed
parameters:

- the token codec: issuing is an `Issuer`, decoding a `Decoder` that returns
  `None` for any falsy result;
- the password hasher and the password verifier;
- the URL-safe link codec (`LinkDecoder`). It yields None (the codec's `None`
  result) or a payload reduced to its `email` value, if there is one.

Token issuing takes the `jti` chosen for that call as an argument. That these
`jti`s are distinct and were never written to the blocklist is a hypothesis of
the lemmas that need it (`SessionSurvivesLogout` requires
`accessJti != refreshJti`).

The end-to-end lemmas about login and session renewal assume two things. A
freshly issued token decodes to its grant's subject, kind and `jti`
(`Tokens.IssuedDecodes`). A freshly chosen `jti` has never been written to the
blocklist.

Two behaviours of the code are worth noting:

- `get_current_user` returns `None` for an account that no longer exists; it
  does not raise `UserNotFound`. The role gate then reads `is_verified` of
  `None`, which fails as a server error. `Dependencies.RoleChecker.Check`
  models that failure as `NoCurrentUser`.
- In the link flows, a payload without a truthy email (absent or empty) yields
  the handler's 500 reply. If the codec returns `None`, the handler's
  `.get("email")` fails first, giving an uncaught server error (`ServerError`).

Modules: `Wrappers` (Option, Result), `Tokens` (claims, grants, codec types),
`Models` (the user record and its store), `Blocklist`, `Dependencies` and
`Routes`.

## Model

| member | source | states |
|---|---|---|
| `Models.NewUser` | src/app/models/models.py:26-30 | a new account has the default role "user" and is not verified |
| `Models.FindUser` | src/app/auth/routes.py:126 | the lookup by email finds an account iff the email is in the store, and then exactly that account; an absent account is None, not an error |
| `Blocklist.Stored` | src/app/db/redis.py:15-16 | after `add(jti)` at `t` the jti is present at every `t'` in `[t, t+3600)` and absent from `t+3600` on; the presence of every other key is unchanged |
| `Blocklist.ReAddRefreshes` | src/app/db/redis.py:15-16 | re-adding a present jti keeps it present and resets its lapse to the latest write plus 3600, as if only the latest write had happened |
| `Blocklist.ReplayMarked` | src/app/db/redis.py:15-20 | after any series of writes in clock order, all made by `now`, a jti is present at `now` iff one of its writes is less than 3600 seconds old; in a cache never written nothing is present |
| `Blocklist.TokenBlocklist.constructor` | src/app/db/redis.py:19-20 | an empty cache reports no jti as revoked at any time |
| `Blocklist.TokenBlocklist.AddJtiToBlocklist` | src/app/db/redis.py:15-16 | the cache becomes `Stored(old, jti, now)`: the marker is written afresh with the fixed TTL, independent of the token's `exp`; the write log grows by this write and the clock moves to `now` |
| `Blocklist.TokenBlocklist.IsTokenInBlocklist` | src/app/db/redis.py:19-20 | reports a non-lapsed stored marker, which is exactly "some write of the jti is younger than the TTL" |
| `Dependencies.IsTokenValid` | src/app/auth/dependecies.py:49-50 | a token is valid iff the decoder's result is not the falsy None |
| `Dependencies.VerifyTokenData` | src/app/auth/dependecies.py:56-75 | the access check passes iff `refresh` is false, the refresh check iff it is true; a failure is the 403 naming the kind that was required |
| `Dependencies.Authenticate` | src/app/auth/dependecies.py:19-50 | the guard succeeds iff a credential is present, decodes, its jti is not on the blocklist and its `refresh` flag matches the guard's kind; on success it returns exactly the decoded claims; no credential is MissingCredential; every refusal the guard raises itself is a 403 with the detail of the decode, revocation or kind check |
| `Dependencies.UndecodableIsInvalid` | src/app/auth/dependecies.py:24-34 | a token that does not decode fails with the "invalid or expired" 403, whatever the blocklist holds and whatever the guard's kind |
| `Dependencies.InvalidIffNotValid` | src/app/auth/dependecies.py:27-34 | a guard of either kind refuses a token as invalid or expired exactly when `is_token_valid` is false |
| `Dependencies.RevocationBeforeKind` | src/app/auth/dependecies.py:36-45 | a decodable token whose jti is on the blocklist fails with the "revoked" 403 under either guard, even when it is of the wrong kind |
| `Dependencies.KindDecidesLast` | src/app/auth/dependecies.py:45-47 | a decodable, unrevoked token fails for kind iff its flag differs from the guard's kind; otherwise the guard returns its claims |
| `Dependencies.GuardsDisjoint` | src/app/auth/dependecies.py:56-75 | the access guard and the refresh guard never both accept the same request |
| `Dependencies.RefusalsDistinct` | src/app/auth/dependecies.py:27-75 | the decode check, the revocation check and the two kind checks each raise a different exception |
| `Dependencies.GetCurrentUser` | src/app/auth/dependecies.py:78-85 | guard failures propagate unchanged; otherwise the result is the lookup by the `user.email` claim as is, None for an absent account |
| `Dependencies.RoleChecker.Check` | src/app/auth/dependecies.py:88-99 | succeeds (with True) iff the user exists, is verified and has an allowed role; an absent user (None) fails with NoCurrentUser, the server error of reading `is_verified` of None; an unverified user always fails with AccountNotVerified; InsufficientPermission arises iff a verified user's role is not allowed |
| `Routes.Truthy` | src/app/auth/routes.py:100 | the handlers' `if user_email:` test fails exactly for Python's falsy optional strings, None and "" |
| `Routes.SignUpStep` | src/app/auth/routes.py:63-70 | a taken email fails with UserAlreadyExists and leaves the store unchanged; otherwise exactly one account is added, unverified, with the default role and the hash of the given password, and no existing account changes |
| `Routes.CreateUserAccount` | src/app/auth/routes.py:53-90 | the handler's reply and new store are those of `SignUpStep` |
| `Routes.VerifyStep` | src/app/auth/routes.py:93-116 | a None payload is an uncaught server error; with a truthy email of an existing account, sets only that account's `is_verified`; an unknown account is UserNotFound; a payload without a truthy email is the 500 reply; only success changes the store |
| `Routes.VerifyUserAccount` | src/app/auth/routes.py:93-116 | the handler's reply and new store are those of `VerifyStep` |
| `Routes.LoginUsers` | src/app/auth/routes.py:119-168 | an unknown email is a 404, a wrong password a 401; success iff the account exists and the password verifies, returning one access token and one refresh token issued for the same subject claims, each with the `jti` chosen for this request |
| `Routes.LoginGrantsDiffer` | src/app/auth/routes.py:132-144 | both login grants carry the same subject; only the refresh grant has `refresh` set and a lifetime of 2 days (172800 s) |
| `Routes.LoginIgnoresVerification` | src/app/auth/routes.py:126-144 | the login outcome does not depend on `is_verified` |
| `Routes.LoginTokensKeepTheirKind` | src/app/auth/routes.py:132-144 | with a codec that decodes what it issues and fresh `jti`s, the login access token passes only the access guard and the refresh token only the refresh guard, each with the account's subject |
| `Routes.GetNewSession` | src/app/auth/routes.py:171-182 | a new access token with the same `user` claims and this request's `jti` iff the refresh guard accepts and `exp > now`; guard failures propagate; an accepted token with `exp <= now` is a 400 |
| `Routes.AccessTokenCannotRenew` | src/app/auth/routes.py:171-172 | an access token never renews a session: it fails as revoked or as the wrong kind |
| `Routes.RenewedTokenIsAccess` | src/app/auth/routes.py:175-178 | with a fresh `jti`, the renewed token passes the access guard with the refresh token's own `user` claims |
| `Routes.LogoutStep` | src/app/auth/routes.py:190-199 | logout succeeds iff the access guard accepts; it then adds exactly the presented (access) token's jti to the blocklist; on failure the blocklist is unchanged |
| `Routes.RevokeToken` | src/app/auth/routes.py:190-199 | the handler's reply and new blocklist are those of `LogoutStep`; on success the write log grows by exactly that write and the clock moves to `now`; on failure log and clock are unchanged |
| `Routes.LogoutRevokes` | src/app/auth/routes.py:191-195 | after logout at `t`, the same token fails as revoked under either guard at every time before `t+3600` at which the codec still decodes it |
| `Routes.LogoutSparesOtherTokens` | src/app/auth/routes.py:193-195 | any token with another jti gets the same guard result as before the logout |
| `Routes.ReloginAfterLogout` | src/app/auth/routes.py:126-144 | after a logout, a new login with fresh `jti`s yields an access token that the access guard accepts |
| `Routes.SessionSurvivesLogout` | src/app/auth/routes.py:171-195 | logging out the login access token leaves the refresh token from the same login usable: it opens a new session whose access token passes the access guard |
| `Routes.RevokedTokenRevivesAfterTtl` | src/app/db/redis.py:15-16 | from `t+3600` on, the access guard accepts the logged-out token again while the codec still decodes it |
| `Routes.ResetStep` | src/app/auth/routes.py:225-260 | mismatched passwords are a 400 with no change; a None payload is an uncaught server error; with a truthy email of an existing account, only its `password_hash` changes, to the hash of the new password; an unknown account is UserNotFound; a payload without a truthy email is the 500 reply |
| `Routes.MismatchBeforeDecode` | src/app/auth/routes.py:234-239 | with mismatched passwords the outcome does not depend on the link decoder: the 400 comes before any decoding |
| `Routes.ResetAccountPassword` | src/app/auth/routes.py:225-260 | the handler's reply and new store are those of `ResetStep` |
| `Routes.CurrentUser` | src/app/auth/routes.py:185-187 | returns the account iff the access guard accepts and the claimed email names an existing, verified account with role "admin" or "user"; guard failures propagate; once the guard accepts, any failure is the role gate's error for the looked-up account |
| `Routes.NewAccountGatedUntilVerified` | src/app/reviews/routes.py:13-14 | a new account fails every role gate as not verified; after verification it passes the "admin"/"user" gates and fails the admin-only gate with InsufficientPermission |
| `Routes.AccountsPersist` | src/app/auth/routes.py:53-260 | no series of sign-up, verification and reset requests deletes an account, changes its uid or role, or un-verifies it |

## Left out

- Token codec (`create_access_token`, `decode_token`): signing, the secret, the access token's default lifetime and the codec's own expiry test are not modelled. `src/app/utils/security.py` is not part of this model. The issuer and the decoder are parameters, and the decoder has no clock. So the `exp > now` re-check in `/new_session` is kept as written; the model does not show it to be redundant.
- `jti` generation is not modelled. Each issuing call takes its `jti` as an argument. That a fresh `jti` is unique and was never written to the blocklist is a hypothesis of the end-to-end lemmas, not a proved fact.
- The blocklist's clock is assumed never to run backwards: its methods and logout require `now` to be no earlier than the last clock reading the cache has seen.
- Decoded claims that lack `jti`, `refresh` or `user` fail with a key error in the source. This is not modelled: every decoded claim set carries all four claims.
- `decode_token` is called twice on one token (dependecies.py lines 25 and 50). Because the decoder is a pure function, both calls give one value in the model.
- Password hashing and verification (`generate_password_hash`, `verify_password`) are parameters. The salt's randomness is not modelled.
- The URL-safe link codec is a parameter. It yields None or a payload reduced to its `email` value. A None result is an uncaught server error, and a payload without a truthy email is the handler's 500 reply. What the unshown codec returns for a bad or expired link is not modelled.
- The framework's `HTTPBearer` extraction of the header is the abstract `MissingCredential` outcome. Its status code is library behaviour and is not modelled.
- The Redis client, the database session, async suspension and concurrent requests are not modelled. Every store operation is one atomic step.
- The clock is a parameter in whole seconds. `datetime.now()` sub-second precision and local-time conversion are not modelled.
- `auth/service.py` is not part of this model. Sign-up is assumed to store the default role, `is_verified = False` and the hash of the given password. Lookup by email is exact key equality, which ignores any database collation.
- Email sending (`send_email.delay`), link and HTML building, the `/send_mail` route and `/password-reset-request` (which only sends an email) are left out as fire-and-forget I/O.
- The success replies of sign-up, login and `/new_session` are reduced to the new user record or the issued tokens. Their status (201 at sign-up) and message are not modelled, nor are the user details in the login reply or the new user's name fields at sign-up.
- Schema field-length validation, book and review CRUD, database setup and app wiring are left out.
