# Login and session engine of the users microservice, in Dafny

This project models the authentication core of the users microservice: Google login
(verify a Google ID token, resolve it to one account by Google id, then by email with
linking, then by creation, and issue a signed access token), the bearer-credential guard
that turns an `Authorization` header into the stored user it names, access-token issuance
and verification with expiry (RFC 7519), the mapping of Google's verified claims with the
issuer check of section 3.1.3.7 of OpenID Connect Core 1.0, and the in-memory user store.

Modules follow the source files:

- `Wrappers` (`wrappers.dfy`): `Option` and `Result`.
- `Text` (`text.dfy`): Python's `str.split()` with no separator (`Words`) and `str.lower()` (`Lower`).
- `UserService` (`user_service.dfy`): the user record and the in-memory store, a `map<UserId, User>`.
- `AuthService` (`auth_service.dfy`): Google claim mapping, access-token issue and verification.
- `AccountStore` (`account_store.dfy`): the Google-linked store methods the login route calls.
- `AuthRoutes` (`auth_routes.dfy`): `google_login` and `get_current_user`.

Foreign code is passed in as parameters:

- The JWT library is a `JwtCodec` pair of functions. `encode(claims, key, algorithm)` and
  `decode(token, key, algorithm)` check the format, algorithm and signature. The laws
  assumed of an ideal signature scheme are collected in `AuthService.Sound`, and only
  lemmas assume them:
  - decode inverts encode under the same key and algorithm;
  - a token that decodes is the encoding of its payload under that key and algorithm;
  - token text is non-empty base64url-and-dot text.
- The library's time checks are modelled explicitly. A token has expired when
  `exp <= now`, and is not yet valid when `now < iat`.
- Google's `verify_oauth2_token` is a function of `(token, audience, now)`, so its
  expiry check sees the same clock as the rest of the model. `None` stands for the
  exception it raises.
- The four store methods `get_user_by_google_id`, `get_user_by_email`, `link_google_id`
  and `create_user_from_google` are a `StoreOps` record of functions. Neither
  `InMemoryUserService` nor `SqlAlchemyUserService` in app/services/user_service.py
  defines them. Each of them may raise, and link and create may also return nothing.
  A store method that raises leaves the store as it was: a raise carries no store in
  the model, so this is an assumption about the store, not a result. The rest of the
  assumed behaviour is `AccountStore.Lawful`:
  - a lookup that answers with an account returns a stored account with the key asked
    for; on a store whose records sit under their own ids (`UserService.KeysMatch`,
    which create, update and delete keep), it answers "no match" only when no account
    has that key;
  - a successful link sets the Google id of the named account only, and a link that
    returns nothing changes nothing;
  - a successful create that returns an account adds it under a fresh id, carrying the
    given Google id, email and name, no phone and the default role, and a create that
    returns nothing changes nothing. The name is an assumption of these
    laws: the route only passes the token's `name` (app/resources/auth.py:139-143).
  The laws are consistent: `AccountStore.LawfulSatisfiable` exhibits store methods that
  obey them. Google-id uniqueness is not assumed of the store; the lawful-store lemmas
  prove that the route keeps it, because it links or creates only after the lookup by
  Google id missed.
- Time is an integer count of seconds (`now`). The fresh UUID of `create_user` is a parameter.

Each run of the login route returns the store calls it made, in order. This lets
properties say which lookups, links and creates happened.

The code, and so the model, behaves as follows on points a reader might expect otherwise:

- A failed create is a 500. It is not retried.
- An unset Google client id makes Google verification return nothing, which gives a 400.
  It is not a distinct configuration error.
- No route compares the authenticated user with a target account. The model has no
  "self-only" check.
- The in-memory store does not keep emails unique, and the model does not claim it does.

An exception from `get_user_by_google_id` or `get_user_by_email` is not caught by the
route (app/resources/auth.py:120 and 125); the model gives it as the generic 500 below,
after one or two store calls. A `create_user_from_google` that returns nothing sets
`user` to `None` without raising (lines 139-144). Reading `user.id` to issue the token
(line 154) then raises outside any `try`, which the model also gives as the generic 500.

One branch of the code is easy to miss: `link_google_id` might return nothing instead of
raising. The route then reads `user.id` on that nothing while logging, inside the `try`
(app/resources/auth.py:129-130). The `except` handler reads it again (line 133), so the
exception escapes the route instead of falling through to account creation. The model
gives this outcome as the generic 500 "Internal server error" that the route documents
(lines 74-81). The application's error-handler module is not part of this model, so the
exact body of that response is not pinned down.

## Model

| member | source | states |
|---|---|---|
| Text.Words | app/resources/auth.py:201 | every part the header split yields is non-empty and contains no whitespace |
| Text.WordsOfTwo | app/resources/auth.py:201 | optional whitespace, a word, at least one whitespace, a word and optional whitespace split into exactly those two words |
| Text.Lower | app/resources/auth.py:202 | the lower-cased text has the same length, maps each character to its ASCII lower-case counterpart, and holds no upper-case ASCII letter |
| Text.LowerIsBearer | app/resources/auth.py:202 | the lower-cased scheme equals "bearer" exactly for the six-letter spellings of "bearer" in any letter case |
| UserService.GetUser | app/services/user_service.py:18-20 | a record is returned exactly when the id is stored, and it is the stored record |
| UserService.CreateUser | app/services/user_service.py:22-33 | the new record carries the payload's email, name and phone under the new id; the key set grows by that id; every other record is unchanged |
| UserService.ApplyUpdate | app/services/user_service.py:39-44 | each field supplied by the payload is overwritten and each absent one kept; id, Google id and role never change |
| UserService.UpdateUser | app/services/user_service.py:35-47 | an unknown id gives None and leaves the store as it was; a known id stores and returns the merged record |
| UserService.DeleteUser | app/services/user_service.py:49-54 | the result is true exactly when the id was stored; afterwards the id is gone and all other records are unchanged |
| UserService.ListUsers | app/services/user_service.py:15-16 | one entry per stored id: the entries pair with distinct keys that are exactly the stored ids, each entry is the record stored under its key, so there are as many entries as stored ids and every stored record is listed |
| UserService.OperationsKeepKeysMatch | app/services/user_service.py:22-54 | create, update and delete keep every record stored under its own id |
| UserService.CreateThenGet | app/services/user_service.py:22-33 | get_user on the new id returns exactly the created record |
| UserService.CreateKeepsEarlierUsers | app/services/user_service.py:23-31 | with a fresh id the store grows by one and get_user answers as before for every earlier id |
| UserService.UpdateIsIdempotent | app/services/user_service.py:35-47 | applying the same update twice yields the same store and result as applying it once |
| UserService.UpdateChangesOnlyTarget | app/services/user_service.py:36-47 | an update leaves every other id's record as it was and keeps the target's id, Google id and role |
| UserService.DeleteThenGet | app/services/user_service.py:49-54 | after deletion get_user finds nothing under that id and the same as before under any other id |
| AuthService.VerifyGoogleToken | app/services/auth_service.py:21-67 | claims are returned exactly when the client id is configured, Google accepts the token, the issuer is accounts.google.com or https://accounts.google.com and a subject is present; then google_id is the subject, email, name and picture are copied and email_verified defaults to false |
| AuthService.GetTokenExpiresIn | app/services/auth_service.py:127-129 | the reported lifetime is a whole number of minutes in seconds, exactly the configured minute count |
| AuthService.CreateAccessToken | app/services/auth_service.py:69-98 | under the signature laws the token is compact text that decodes to sub = user id, the email, the role, exp = now plus the lifetime and iat = now |
| AuthService.VerifyAccessToken | app/services/auth_service.py:100-125 | a payload is returned only when the token decodes under the configured key and algorithm and is neither expired nor issued in the future; otherwise None |
| AuthService.VerifyCreatedToken | app/services/auth_service.py:69-95 | before expiry a created token verifies to sub = user id, the given email and role, exp = issue time plus the lifetime, iat = issue time; from expiry on it verifies to None |
| AuthService.ExpiresInIsTokenLifetime | app/services/auth_service.py:127-129 | a token verifies after `elapsed` seconds exactly when `elapsed` is below the reported lifetime (minutes times 60) |
| AuthService.DefaultRoleIsUser | app/services/auth_service.py:69 | a token created without a role carries the role "user" |
| AuthService.VerifiedTokensAreGenuine | app/services/auth_service.py:110-125 | any token that verifies is the encoding of its payload under the configured key and algorithm, so a malformed, altered or foreign-signed token verifies to None |
| AuthService.ExpiredTokenIsRejected | app/services/auth_service.py:117-119 | a token whose exp is not after now verifies to None |
| AuthRoutes.LinkByEmail | app/resources/auth.py:124-134 | the email lookup comes first; "no match" exactly when it answers with none; a link of the matched account's id is the second call exactly when it answers with an account; the store changes only through a successful link |
| AuthRoutes.ResolveAccount | app/resources/auth.py:119-151 | the Google-id lookup comes first and there are at most three calls; a create, when made, is the third call after both lookups, and a new account or "Failed to create user account" requires it; the only other failure is the generic 500, and when it follows a create, that create returned nothing |
| AuthRoutes.GoogleLogin | app/resources/auth.py:85-176 | errors are 400 or 500; a 400 touches no store method and changes nothing; "Failed to create user account" comes only after lookup, lookup, create; any other 500 is the generic one, after one to three calls, and when it follows a create, that create returned nothing; a success has token type "bearer" and expires_in equal to the lifetime |
| AuthRoutes.LoginRequiresGoogleToken | app/resources/auth.py:101-120 | a login succeeds only when the client id is set and Google accepts the token for it with a Google issuer, a subject and a non-empty email; the first store call looks that subject up as the Google id |
| AuthRoutes.LoginLookupRaises | app/resources/auth.py:119-125 | a raising Google-id lookup, or a raising email lookup after a Google-id miss, is the generic 500 with the store unchanged and no further call |
| AuthRoutes.LoginRejectsUnverifiedToken | app/resources/auth.py:101-107 | an unverifiable Google token is the 400 "Invalid or expired Google ID token" with no store call and an unchanged store |
| AuthRoutes.LoginRejectsMissingEmail | app/resources/auth.py:109-117 | verified claims with a missing or empty email give the 400 "Email not found in Google token" before any lookup, link or create |
| AuthRoutes.LoginFindsByGoogleId | app/resources/auth.py:119-124 | on a Google-id hit the response's id, email, full name, phone and role are that account's, not new, after one lookup, with the store unchanged |
| AuthRoutes.LoginLinksByEmail | app/resources/auth.py:124-134 | on a Google-id miss and an email hit the calls are lookup, lookup, link and nothing is created; if the link raises, the email-matched account's id, email, full name, phone and role are returned, not new, and the store is untouched; if it returns the linked account, that account's fields are returned, not new; if it returns nothing, the route fails with the generic 500 |
| AuthRoutes.LoginCreatesOnlyAsLastResort | app/resources/auth.py:119-151 | a create is attempted exactly when both lookups miss, after them and last; is_new_user holds exactly when that create returned an account; "Failed to create user account" happens exactly when it raised; a create that returns nothing gives the generic 500 |
| AuthRoutes.LoginTokenNamesAccount | app/resources/auth.py:153-162 | the issued token verifies, until expires_in seconds pass, to the returned account's id, email and role, and to None afterwards |
| AuthRoutes.LinkByEmailLawful | app/resources/auth.py:124-134 | with lawful store methods on a store keyed by record id, the email branch returns a stored account with that email; only it may change, and only by gaining the Google id; records stay under their ids, and Google-id uniqueness is kept when no account carried the Google id |
| AuthRoutes.ResolveAccountLawful | app/resources/auth.py:119-151 | with lawful store methods on a store keyed by record id, the logged-in account is stored and matches the Google id or the email; no other account changes; a new account has a fresh id and the Google id; a failure changes nothing; records stay under their ids and Google-id uniqueness is preserved |
| AuthRoutes.SecondLoginFindsSameAccount | app/resources/auth.py:101-124 | with lawful store methods on a store keyed by record id, after a login that created an account, a second login with the same token whose Google verification still yields the same claims makes one lookup and changes nothing; it returns that account, not new, exactly when the lookup does not raise, and otherwise the generic 500 (once Google rejects the token, LoginRejectsUnverifiedToken gives the 400 with no store call) |
| AuthRoutes.FreshIdentityCreatesAccount | app/resources/auth.py:119-151 | with lawful store methods, when neither the Google id nor the email is stored, a raising lookup is the generic 500; otherwise the calls are lookup, lookup, create, and login succeeds exactly when the create returns an account, always with a new account under a fresh id |
| AuthRoutes.GetCurrentUser | app/resources/auth.py:179-238 | every rejection is a 401 and every accepted user is a stored record |
| AuthRoutes.ParseWellFormedHeader | app/resources/auth.py:199-209 | a header made of the scheme "bearer" in any case and a whitespace-free token, with any whitespace padding, parses to that token |
| AuthRoutes.ParseAuthorization | app/resources/auth.py:199-209 | a parsed token is the second of exactly two header parts, the first of which lower-cases to "bearer"; the token is non-empty and free of whitespace |
| AuthRoutes.GuardRejectsBadHeader | app/resources/auth.py:192-209 | a missing or empty header is "Authorization header missing"; a header that does not split into two parts led by bearer is the format error |
| AuthRoutes.GuardAcceptsExactly | app/resources/auth.py:211-238 | a user is returned exactly when the bearer token verifies to a non-empty payload with a non-empty sub naming a stored id, and it is the user stored under sub |
| AuthRoutes.GuardAcceptsIssuedToken | app/resources/auth.py:192-238 | "Bearer " plus a token issued for a stored, non-empty id authenticates as that stored user until the token expires |
| AuthRoutes.GuardRejectsEmptySubject | app/resources/auth.py:220-227 | a valid token whose subject is the empty string is rejected with "Invalid token payload" |
| AuthRoutes.GuardRejectsDeletedAccount | app/resources/auth.py:229-236 | a still-valid token for a deleted account is rejected with "User not found" |
| AuthRoutes.LoginTokenAuthenticates | app/resources/auth.py:153-238 | with lawful store methods on a store keyed by record id, and a logged-in account whose id is non-empty, the token a successful login issues authenticates, until it expires, as a stored account whose id, email, name, phone and role are the ones the login returned |

## Left out

- Signature checking, JWT encoding and Google's token verification are foreign cryptographic and network code. They are oracles, and the `Sound` laws are assumptions of the lemmas, not proofs.
- The store methods `get_user_by_google_id`, `get_user_by_email`, `link_google_id` and `create_user_from_google` are parameters. Neither `InMemoryUserService` nor `SqlAlchemyUserService` in app/services/user_service.py defines them, so only the laws the route relies on are stated.
- AuthRoutes.GoogleLogin: signing the access token cannot raise in the model. An exception from `jwt.encode` (app/services/auth_service.py:91, reached from app/resources/auth.py:154; an unsupported algorithm, say) would escape as a 500 after the store calls and any store change; JWT encoding is foreign code, modelled as a total function.
- `SqlAlchemyUserService`, the ORM model, database sessions and the health route are persistence plumbing. The email-uniqueness constraint exists only in that database layer.
- Process wiring, CORS, middleware, the database-to-memory fallback and settings loading are left out. The settings the auth service reads are a parameter.
- The users CRUD routes and the pydantic schemas are left out. Email-format validation and the password minimum length are library validation, and the password is never stored.
- Logging calls and the `WWW-Authenticate` response header are left out.
- Wall-clock time is left out; `now` is a parameter. The code reads the clock twice, once for `exp` and once for `iat`. The model uses one reading, so it ignores a possible one-second skew between them.
- Concurrent requests are not modelled. Logins run one after another, so the Google-id uniqueness and second-login results cover sequential logins only. Two concurrent first logins with the same Google identity could both miss at app/resources/auth.py:120 and 125 and then both create at app/resources/auth.py:139.
- UserService.ListUsers: the order is not modelled. Python returns dictionary insertion order, while the model's map has no order.
- Text.LowerIsBearer: `str.lower()` is modelled on ASCII letters only. The comparison result is unaffected, because no non-ASCII character lower-cases to any of the letters of "bearer".
- AuthService.Claims: a decoded payload holds only the five claims this service writes. Other claims in a foreign payload are not represented, so the "empty payload" test sees only these five.
