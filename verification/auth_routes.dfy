/**
 * The two authentication routes: Google login (verify the Google ID token, resolve it to
 * one account by Google id, then by email with linking, then by creation, and issue an
 * access token) and the bearer-credential guard that turns an Authorization header into
 * the stored user it names (section 2.1 of RFC 6750).
 */
module AuthRoutes {
  import opened Wrappers
  import opened Text
  import opened UserService
  import opened AuthService
  import opened AccountStore

  /** An HTTP error response: status code and detail message. */
  datatype HttpError = HttpError(status: int, detail: string)

  /** The user dictionary in the login response. */
  datatype UserView = UserView(
    id: UserId,
    email: string,
    fullName: Option<string>,
    primaryPhone: Option<string>,
    role: string)

  datatype TokenResponse = TokenResponse(accessToken: string, tokenType: string, expiresIn: int)

  datatype GoogleLoginResponse = GoogleLoginResponse(user: UserView, token: TokenResponse, isNewUser: bool)

  /** The account the resolution settled on, and whether it was created for this login. */
  datatype Resolved = Resolved(user: User, isNewUser: bool)

  /** The store after resolution, the store calls made in order, and the outcome. */
  datatype Resolution = Resolution(store: Store, calls: seq<StoreCall>, outcome: Result<Resolved, HttpError>)

  /**
   * How the email branch ends: no account has the email; an account was settled on; or an
   * exception escapes the route, because the email lookup raised, or because the link
   * returned nothing and reading the account's id then raises both in the `try` block and
   * again in its `except` handler.
   */
  datatype EmailOutcome = NoEmailMatch | Matched(user: User) | Escaped

  /** The store after the email branch, its store calls, and how it ended. */
  datatype EmailBranch = EmailBranch(store: Store, calls: seq<StoreCall>, outcome: EmailOutcome)

  /** One run of the login route: the final store, the store calls in order, the response. */
  datatype LoginRun = LoginRun(store: Store, calls: seq<StoreCall>, outcome: Result<GoogleLoginResponse, HttpError>)

  const InvalidGoogleToken := HttpError(400, "Invalid or expired Google ID token")
  const MissingEmail := HttpError(400, "Email not found in Google token")
  const CreationFailed := HttpError(500, "Failed to create user account")
  /** An exception that escapes the route, answered with the documented generic 500. */
  const Uncaught := HttpError(500, "Internal server error")

  /** The account `u` as the login response's user dictionary. */
  function View(u: User): UserView {
    UserView(u.id, u.email, u.fullName, u.primaryPhone, u.role.Value())
  }

  /**
   * The email branch, entered when no account carries the Google id: look the email up
   * and, on a hit, try to link the Google id. A link that raises is absorbed and keeps the
   * email-matched account.
   */
  function LinkByEmail(ops: StoreOps, s: Store, googleId: string, email: string): (r: EmailBranch)
    ensures 1 <= |r.calls| <= 2 && r.calls[0] == GetUserByEmail(email)
    ensures r.outcome.NoEmailMatch? <==> ops.getUserByEmail(s, email) == Success(None)
    ensures |r.calls| == 2 <==> ops.getUserByEmail(s, email).Success? && ops.getUserByEmail(s, email).value.Some?
    ensures |r.calls| == 2 ==> r.calls[1] == LinkGoogleId(ops.getUserByEmail(s, email).value.value.id, googleId)
    ensures r.outcome.Matched? ==> |r.calls| == 2
    ensures r.store != s ==>
      |r.calls| == 2 && ops.linkGoogleId(s, r.calls[1].userId, googleId).Success?
      && r.store == ops.linkGoogleId(s, r.calls[1].userId, googleId).value.store
  {
    match ops.getUserByEmail(s, email)
    case Failure(_) => EmailBranch(s, [GetUserByEmail(email)], Escaped)
    case Success(None) => EmailBranch(s, [GetUserByEmail(email)], NoEmailMatch)
    case Success(Some(found)) =>
      var calls := [GetUserByEmail(email), LinkGoogleId(found.id, googleId)];
      match ops.linkGoogleId(s, found.id, googleId)
      case Failure(_) => EmailBranch(s, calls, Matched(found))
      case Success(Step(s', None)) => EmailBranch(s', calls, Escaped)
      case Success(Step(s', Some(linked))) => EmailBranch(s', calls, Matched(linked))
  }

  /**
   * Account resolution: by Google id, else by email with linking, else by creating an
   * account from the Google claims; a create that raises is a 500. An exception from a
   * lookup escapes as the generic 500, and so does a create that returns nothing, once
   * the route reads the missing account's id to issue the token.
   */
  function ResolveAccount(ops: StoreOps, s: Store, googleId: string, email: string, name: Option<string>): (r: Resolution)
    ensures 1 <= |r.calls| <= 3 && r.calls[0] == GetUserByGoogleId(googleId)
    ensures r.outcome.Failure? ==> r.outcome.error in {CreationFailed, Uncaught}
    ensures CreateUserFromGoogle(googleId, email, name) in r.calls ==>
      r.calls == [GetUserByGoogleId(googleId), GetUserByEmail(email), CreateUserFromGoogle(googleId, email, name)]
    ensures r.outcome == Failure(CreationFailed) || (r.outcome.Success? && r.outcome.value.isNewUser) ==>
      CreateUserFromGoogle(googleId, email, name) in r.calls
    ensures r.outcome == Failure(Uncaught) && CreateUserFromGoogle(googleId, email, name) in r.calls ==>
      var created := ops.createUserFromGoogle(s, googleId, email, name);
      created.Success? && created.value.value.None?
  {
    match ops.getUserByGoogleId(s, googleId)
    case Failure(_) => Resolution(s, [GetUserByGoogleId(googleId)], Failure(Uncaught))
    case Success(Some(u)) => Resolution(s, [GetUserByGoogleId(googleId)], Success(Resolved(u, false)))
    case Success(None) =>
      var byEmail := LinkByEmail(ops, s, googleId, email);
      match byEmail.outcome
      case Matched(found) =>
        Resolution(byEmail.store, [GetUserByGoogleId(googleId)] + byEmail.calls, Success(Resolved(found, false)))
      case Escaped =>
        Resolution(byEmail.store, [GetUserByGoogleId(googleId)] + byEmail.calls, Failure(Uncaught))
      case NoEmailMatch =>
        var calls := [GetUserByGoogleId(googleId)] + byEmail.calls + [CreateUserFromGoogle(googleId, email, name)];
        match ops.createUserFromGoogle(byEmail.store, googleId, email, name)
        case Failure(_) => Resolution(byEmail.store, calls, Failure(CreationFailed))
        case Success(Step(s', None)) => Resolution(s', calls, Failure(Uncaught))
        case Success(Step(s', Some(u))) => Resolution(s', calls, Success(Resolved(u, true)))
  }

  /** The login response for account `u`: its view, a fresh access token and the flag. */
  function LoginResponse(svc: AuthService, now: int, u: User, isNewUser: bool): GoogleLoginResponse {
    var token := CreateAccessToken(svc, now, u.id, u.email, u.role.Value());
    GoogleLoginResponse(View(u), TokenResponse(token, "bearer", GetTokenExpiresIn(svc)), isNewUser)
  }

  /** `google_login` at time `now` against store `s`. */
  function GoogleLogin(svc: AuthService, ops: StoreOps, s: Store, idToken: string, now: int): (r: LoginRun)
    ensures r.outcome.Failure? ==> r.outcome.error.status in {400, 500}
    ensures r.outcome.Failure? && r.outcome.error.status == 400 ==> r.calls == [] && r.store == s
    ensures r.outcome == Failure(CreationFailed) ==>
      |r.calls| == 3 && r.calls[2].CreateUserFromGoogle?
    ensures r.outcome.Failure? && r.outcome.error.status == 500 && r.outcome != Failure(CreationFailed) ==>
      && r.outcome == Failure(Uncaught)
      && 1 <= |r.calls| <= 3
      && (|r.calls| == 3 && r.calls[2].CreateUserFromGoogle? ==>
            var c := r.calls[2];
            var created := ops.createUserFromGoogle(s, c.newGoogleId, c.newEmail, c.name);
            created.Success? && created.value.value.None?)
    ensures r.outcome.Success? ==>
      r.outcome.value.token.tokenType == "bearer" && r.outcome.value.token.expiresIn == GetTokenExpiresIn(svc)
  {
    match VerifyGoogleToken(svc, idToken, now)
    case None => LoginRun(s, [], Failure(InvalidGoogleToken))
    case Some(info) =>
      if !Truthy(info.email) then LoginRun(s, [], Failure(MissingEmail))
      else
        var res := ResolveAccount(ops, s, info.googleId, info.email.value, info.name);
        match res.outcome
        case Failure(e) => LoginRun(res.store, res.calls, Failure(e))
        case Success(Resolved(u, isNew)) => LoginRun(res.store, res.calls, Success(LoginResponse(svc, now, u, isNew)))
  }

  // ---------------------------------------------------------------------------------
  // Login: the decision table, stated against the store methods' answers.
  // ---------------------------------------------------------------------------------

  /** An unverifiable Google token is a 400; the store is neither asked nor changed. */
  lemma LoginRejectsUnverifiedToken(svc: AuthService, ops: StoreOps, s: Store, idToken: string, now: int)
    requires VerifyGoogleToken(svc, idToken, now).None?
    ensures GoogleLogin(svc, ops, s, idToken, now) == LoginRun(s, [], Failure(InvalidGoogleToken))
  {
  }

  /** Verified claims without an email are a 400 before any lookup, link or create. */
  lemma LoginRejectsMissingEmail(svc: AuthService, ops: StoreOps, s: Store, idToken: string, now: int)
    requires VerifyGoogleToken(svc, idToken, now).Some?
    requires VerifyGoogleToken(svc, idToken, now).value.email in {None, Some("")}
    ensures GoogleLogin(svc, ops, s, idToken, now) == LoginRun(s, [], Failure(MissingEmail))
  {
  }

  /**
   * A login succeeds only for a token Google accepts for the configured client id, issued
   * by Google, with a subject and a non-empty email; the first store call looks that
   * subject up as the Google id.
   */
  lemma LoginRequiresGoogleToken(svc: AuthService, ops: StoreOps, s: Store, idToken: string, now: int)
    requires GoogleLogin(svc, ops, s, idToken, now).outcome.Success?
    ensures Truthy(svc.settings.googleClientId)
    ensures var info := svc.verifyOAuth2Token(idToken, svc.settings.googleClientId.value, now);
      && info.Some?
      && info.value.iss.Some? && info.value.iss.value in GoogleIssuers
      && info.value.sub.Some?
      && Truthy(info.value.email)
      && GoogleLogin(svc, ops, s, idToken, now).calls[0] == GetUserByGoogleId(info.value.sub.value)
  {
  }

  /** A lookup that raises escapes the route as the generic 500, with the store unchanged. */
  lemma LoginLookupRaises(svc: AuthService, ops: StoreOps, s: Store, idToken: string, now: int)
    requires VerifyGoogleToken(svc, idToken, now).Some?
    requires Truthy(VerifyGoogleToken(svc, idToken, now).value.email)
    ensures var info := VerifyGoogleToken(svc, idToken, now).value;
      var r := GoogleLogin(svc, ops, s, idToken, now);
      && (ops.getUserByGoogleId(s, info.googleId).Failure? ==>
            r == LoginRun(s, [GetUserByGoogleId(info.googleId)], Failure(Uncaught)))
      && (ops.getUserByGoogleId(s, info.googleId) == Success(None) && ops.getUserByEmail(s, info.email.value).Failure? ==>
            r == LoginRun(s, [GetUserByGoogleId(info.googleId), GetUserByEmail(info.email.value)], Failure(Uncaught)))
  {
  }

  /**
   * An account already carrying the Google id is the one logged in, not new, with a
   * single lookup and no change to the store.
   */
  lemma LoginFindsByGoogleId(svc: AuthService, ops: StoreOps, s: Store, idToken: string, now: int)
    requires VerifyGoogleToken(svc, idToken, now).Some?
    requires Truthy(VerifyGoogleToken(svc, idToken, now).value.email)
    requires var lookup := ops.getUserByGoogleId(s, VerifyGoogleToken(svc, idToken, now).value.googleId);
      lookup.Success? && lookup.value.Some?
    ensures var info := VerifyGoogleToken(svc, idToken, now).value;
      var r := GoogleLogin(svc, ops, s, idToken, now);
      && r.store == s
      && r.calls == [GetUserByGoogleId(info.googleId)]
      && r.outcome.Success?
      && r.outcome.value.user == View(ops.getUserByGoogleId(s, info.googleId).value.value)
      && !r.outcome.value.isNewUser
  {
  }

  /**
   * Google-id miss and email hit: a link is attempted and nothing is created. When the
   * link raises, the email-matched account is logged in unchanged, not new, and the store
   * is untouched; when it returns the linked account, that account is logged in, not new;
   * when it returns nothing, the exception raised on reading its id escapes as a 500.
   */
  lemma LoginLinksByEmail(svc: AuthService, ops: StoreOps, s: Store, idToken: string, now: int)
    requires VerifyGoogleToken(svc, idToken, now).Some?
    requires Truthy(VerifyGoogleToken(svc, idToken, now).value.email)
    requires ops.getUserByGoogleId(s, VerifyGoogleToken(svc, idToken, now).value.googleId) == Success(None)
    requires var lookup := ops.getUserByEmail(s, VerifyGoogleToken(svc, idToken, now).value.email.value);
      lookup.Success? && lookup.value.Some?
    ensures var info := VerifyGoogleToken(svc, idToken, now).value;
      var found := ops.getUserByEmail(s, info.email.value).value.value;
      var link := ops.linkGoogleId(s, found.id, info.googleId);
      var r := GoogleLogin(svc, ops, s, idToken, now);
      && r.calls == [GetUserByGoogleId(info.googleId), GetUserByEmail(info.email.value),
                     LinkGoogleId(found.id, info.googleId)]
      && (link.Failure? ==>
            && r.store == s && r.outcome.Success?
            && r.outcome.value.user == View(found)
            && !r.outcome.value.isNewUser)
      && (link.Success? && link.value.value.Some? ==>
            && r.store == link.value.store && r.outcome.Success?
            && r.outcome.value.user == View(link.value.value.value)
            && !r.outcome.value.isNewUser)
      && (link.Success? && link.value.value.None? ==>
            r.store == link.value.store && r.outcome == Failure(Uncaught))
  {
  }

  /**
   * A create is attempted only when both lookups answered with no match, and it is the
   * last store call; the user is new exactly when that create succeeded, and a create
   * that raises is the 500 "Failed to create user account" with no token; a create that
   * returns nothing escapes as the generic 500.
   */
  lemma LoginCreatesOnlyAsLastResort(svc: AuthService, ops: StoreOps, s: Store, idToken: string, now: int)
    requires VerifyGoogleToken(svc, idToken, now).Some?
    requires Truthy(VerifyGoogleToken(svc, idToken, now).value.email)
    ensures var info := VerifyGoogleToken(svc, idToken, now).value;
      var r := GoogleLogin(svc, ops, s, idToken, now);
      var create := CreateUserFromGoogle(info.googleId, info.email.value, info.name);
      var created := ops.createUserFromGoogle(s, info.googleId, info.email.value, info.name);
      && (create in r.calls <==>
            ops.getUserByGoogleId(s, info.googleId) == Success(None) && ops.getUserByEmail(s, info.email.value) == Success(None))
      && (create in r.calls ==> r.calls == [GetUserByGoogleId(info.googleId), GetUserByEmail(info.email.value), create])
      && ((r.outcome.Success? && r.outcome.value.isNewUser) <==>
            (create in r.calls && created.Success? && created.value.value.Some?))
      && (r.outcome == Failure(CreationFailed) <==> (create in r.calls && created.Failure?))
      && (create in r.calls && created.Success? && created.value.value.None? ==> r.outcome == Failure(Uncaught))
  {
  }

  /**
   * The issued token names the resolved account: it verifies, until `expires_in` seconds
   * have passed, to the account's id, email and role; the token type is "bearer".
   */
  lemma LoginTokenNamesAccount(svc: AuthService, ops: StoreOps, s: Store, idToken: string, now: int, later: int)
    requires Sound(svc.jwt)
    requires GoogleLogin(svc, ops, s, idToken, now).outcome.Success?
    requires now <= later
    ensures var resp := GoogleLogin(svc, ops, s, idToken, now).outcome.value;
      var claims := VerifyAccessToken(svc, resp.token.accessToken, later);
      && resp.token.tokenType == "bearer"
      && resp.token.expiresIn == GetTokenExpiresIn(svc)
      && (later < now + resp.token.expiresIn ==>
            claims == Some(Claims(Some(resp.user.id), Some(resp.user.email), Some(resp.user.role),
                                  Some(now + resp.token.expiresIn), Some(now))))
      && (now + resp.token.expiresIn <= later ==> claims == None)
  {
  }

  // ---------------------------------------------------------------------------------
  // Login against a lawful store whose records sit under their own ids: what the
  // resolution guarantees about accounts.
  // ---------------------------------------------------------------------------------

  /** The email branch under lawful store methods. */
  lemma LinkByEmailLawful(ops: StoreOps, s: Store, googleId: string, email: string)
    requires Lawful(ops) && KeysMatch(s)
    ensures var r := LinkByEmail(ops, s, googleId, email);
      && (r.outcome.NoEmailMatch? ==> r.store == s && !HasEmail(s, email))
      && (r.outcome.Escaped? ==> r.store == s)
      && (r.outcome.Matched? ==> var u := r.outcome.user;
            && u.email == email
            && Stored(r.store, u)
            && r.store.Keys == s.Keys
            && (forall k :: k in s && k != u.id ==> r.store[k] == s[k])
            && (u.googleId != Some(googleId) ==> r.store == s))
      && KeysMatch(r.store)
      && (GoogleIdsUnique(s) && !HasGoogleId(s, googleId) ==> GoogleIdsUnique(r.store))
  {
  }

  /**
   * Resolution under lawful store methods: the account logged in is stored and matches
   * the Google id or the email (never an unrelated account); only that account may change;
   * a new account has a fresh id and carries the Google id; a failure changes nothing;
   * and record ids and Google-id uniqueness are preserved.
   */
  lemma ResolveAccountLawful(ops: StoreOps, s: Store, googleId: string, email: string, name: Option<string>)
    requires Lawful(ops) && KeysMatch(s)
    ensures var r := ResolveAccount(ops, s, googleId, email, name);
      && (r.outcome.Failure? ==> r.store == s)
      && (r.outcome.Success? ==> var u := r.outcome.value.user;
            && Stored(r.store, u)
            && (u.googleId == Some(googleId) || u.email == email)
            && (forall k :: k in s && k != u.id ==> k in r.store && r.store[k] == s[k])
            && (r.outcome.value.isNewUser ==>
                  u.id !in s && u.googleId == Some(googleId) && r.store.Keys == s.Keys + {u.id})
            && (!r.outcome.value.isNewUser ==> r.store.Keys == s.Keys))
      && KeysMatch(r.store)
      && (GoogleIdsUnique(s) ==> GoogleIdsUnique(r.store))
  {
    match ops.getUserByGoogleId(s, googleId)
    case Failure(_) =>
    case Success(Some(u)) =>
    case Success(None) =>
      assert !HasGoogleId(s, googleId);
      LinkByEmailLawful(ops, s, googleId, email);
      var byEmail := LinkByEmail(ops, s, googleId, email);
      var r := ResolveAccount(ops, s, googleId, email, name);
      match byEmail.outcome
      case Matched(found) =>
        assert r.store == byEmail.store && r.outcome == Success(Resolved(found, false));
      case Escaped =>
        assert r.store == s && r.outcome.Failure?;
      case NoEmailMatch =>
        assert byEmail.store == s;
        CreateKeepsStoreLaws(ops, s, googleId, email, name);
  }

  /**
   * A lawful create for a Google id no account carries keeps records under their own ids
   * and keeps Google ids unique.
   */
  lemma CreateKeepsStoreLaws(ops: StoreOps, s: Store, googleId: string, email: string, name: Option<string>)
    requires Lawful(ops) && KeysMatch(s) && !HasGoogleId(s, googleId)
    ensures var c := ops.createUserFromGoogle(s, googleId, email, name);
      c.Success? ==> var s' := c.value.store;
        && (c.value.value.Some? ==> Stored(s', c.value.value.value))
        && KeysMatch(s')
        && (GoogleIdsUnique(s) ==> GoogleIdsUnique(s'))
  {
    var c := ops.createUserFromGoogle(s, googleId, email, name);
    if c.Success? && c.value.value.Some? {
      var u := c.value.value.value;
      assert c.value.store == s[u.id := u];
    }
  }

  /**
   * A first login that creates an account is not repeated: logging in again with the same
   * Google token, while Google still verifies it to the same claims, makes a single lookup
   * by Google id and changes nothing; unless that lookup raises, it finds the account just
   * created, not new. (Once Google rejects the token, the second login is the 400 of
   * `LoginRejectsUnverifiedToken`.)
   */
  lemma SecondLoginFindsSameAccount(svc: AuthService, ops: StoreOps, s: Store, idToken: string, now: int, later: int)
    requires Lawful(ops) && KeysMatch(s)
    requires GoogleLogin(svc, ops, s, idToken, now).outcome.Success?
    requires GoogleLogin(svc, ops, s, idToken, now).outcome.value.isNewUser
    requires VerifyGoogleToken(svc, idToken, later) == VerifyGoogleToken(svc, idToken, now)
    ensures var first := GoogleLogin(svc, ops, s, idToken, now);
      var second := GoogleLogin(svc, ops, first.store, idToken, later);
      var g := VerifyGoogleToken(svc, idToken, now).value.googleId;
      && second.store == first.store
      && second.calls == [GetUserByGoogleId(g)]
      && (second.outcome.Success? <==> ops.getUserByGoogleId(first.store, g).Success?)
      && (second.outcome.Success? ==>
            second.outcome.value.user == first.outcome.value.user && !second.outcome.value.isNewUser)
      && (second.outcome.Failure? ==> second.outcome == Failure(Uncaught))
  {
    var info := VerifyGoogleToken(svc, idToken, now).value;
    var g := info.googleId;
    var first := GoogleLogin(svc, ops, s, idToken, now);
    var res := ResolveAccount(ops, s, g, info.email.value, info.name);
    ResolveAccountLawful(ops, s, g, info.email.value, info.name);
    assert !HasGoogleId(s, g);
    var u := res.outcome.value.user;
    assert first.store == res.store;
    assert Stored(first.store, u) && u.googleId == Some(g);
    assert HasGoogleId(first.store, g);
    if ops.getUserByGoogleId(first.store, g).Success? {
      var v := ops.getUserByGoogleId(first.store, g).value.value;
      assert Stored(first.store, v) && v.googleId == Some(g);
      assert v.id == u.id;
    }
  }

  /**
   * On a store where neither the Google id nor the email is known, login goes straight to
   * creation: lookup by Google id, lookup by email, create; unless a lookup raises, the
   * user is new exactly when the create succeeds, and the new account has a fresh id.
   */
  lemma FreshIdentityCreatesAccount(svc: AuthService, ops: StoreOps, s: Store, idToken: string, now: int)
    requires Lawful(ops)
    requires VerifyGoogleToken(svc, idToken, now).Some?
    requires Truthy(VerifyGoogleToken(svc, idToken, now).value.email)
    requires !HasGoogleId(s, VerifyGoogleToken(svc, idToken, now).value.googleId)
    requires !HasEmail(s, VerifyGoogleToken(svc, idToken, now).value.email.value)
    ensures var info := VerifyGoogleToken(svc, idToken, now).value;
      var r := GoogleLogin(svc, ops, s, idToken, now);
      var byGoogleId := ops.getUserByGoogleId(s, info.googleId);
      var byEmail := ops.getUserByEmail(s, info.email.value);
      var create := ops.createUserFromGoogle(s, info.googleId, info.email.value, info.name);
      && (byGoogleId.Failure? ==> r == LoginRun(s, [GetUserByGoogleId(info.googleId)], Failure(Uncaught)))
      && (byGoogleId.Success? && byEmail.Failure? ==>
            r == LoginRun(s, [GetUserByGoogleId(info.googleId), GetUserByEmail(info.email.value)], Failure(Uncaught)))
      && (byGoogleId.Success? && byEmail.Success? ==>
            && r.calls == [GetUserByGoogleId(info.googleId), GetUserByEmail(info.email.value),
                           CreateUserFromGoogle(info.googleId, info.email.value, info.name)]
            && (r.outcome.Success? <==> create.Success? && create.value.value.Some?))
      && (r.outcome.Success? ==> r.outcome.value.isNewUser && r.outcome.value.user.id !in s)
  {
    var info := VerifyGoogleToken(svc, idToken, now).value;
    assert ops.getUserByGoogleId(s, info.googleId).Success? ==> ops.getUserByGoogleId(s, info.googleId).value.None?;
    assert ops.getUserByEmail(s, info.email.value).Success? ==> ops.getUserByEmail(s, info.email.value).value.None?;
  }

  // ---------------------------------------------------------------------------------
  // The bearer-credential guard.
  // ---------------------------------------------------------------------------------

  const MissingHeader := HttpError(401, "Authorization header missing")
  const MalformedHeader := HttpError(401, "Invalid authorization header format. Expected: Bearer <token>")
  const InvalidToken := HttpError(401, "Invalid or expired token")
  const InvalidPayload := HttpError(401, "Invalid token payload")
  const UserNotFound := HttpError(401, "User not found")

  /** The token of an Authorization header: exactly two whitespace-separated parts, the first "bearer" in any case. */
  function ParseAuthorization(header: string): (r: Option<string>)
    ensures r.Some? ==> r.value != [] && NoSpace(r.value)
    ensures r.Some? ==> |Words(header)| == 2 && Words(header)[1] == r.value
    ensures r.Some? ==> Lower(Words(header)[0]) == "bearer"
  {
    var parts := Words(header);
    if |parts| == 2 && Lower(parts[0]) == "bearer" then Some(parts[1]) else None
  }

  /** `get_current_user`: the stored user the bearer token names, or a 401. */
  function GetCurrentUser(svc: AuthService, authorization: Option<string>, s: Store, now: int): (r: Result<User, HttpError>)
    ensures r.Failure? ==> r.error.status == 401
    ensures r.Success? ==> r.value in s.Values
  {
    if !Truthy(authorization) then Failure(MissingHeader)
    else match ParseAuthorization(authorization.value)
      case None => Failure(MalformedHeader)
      case Some(token) =>
        match VerifyAccessToken(svc, token, now)
        case None => Failure(InvalidToken)
        case Some(payload) =>
          if payload.IsEmpty() then Failure(InvalidToken)
          else if !Truthy(payload.sub) then Failure(InvalidPayload)
          else match GetUser(s, payload.sub.value)
            case None => Failure(UserNotFound)
            case Some(u) => Success(u)
  }

  /**
   * A header of the shape `[spaces] scheme spaces token [spaces]` with the scheme "bearer"
   * in any case and a whitespace-free token parses to that token.
   */
  lemma ParseWellFormedHeader(pre: string, scheme: string, mid: string, token: string, post: string)
    requires AllSpace(pre) && AllSpace(mid) && AllSpace(post) && mid != []
    requires Lower(scheme) == "bearer"
    requires token != [] && NoSpace(token)
    ensures ParseAuthorization(pre + (scheme + (mid + (token + post)))) == Some(token)
  {
    assert scheme != [] && NoSpace(scheme) by {
      assert |scheme| == 6;
      forall i | 0 <= i < |scheme| ensures !IsSpace(scheme[i]) {
        assert LowerChar(scheme[i]) == "bearer"[i];
      }
    }
    WordsOfTwo(pre, scheme, mid, token, post);
  }

  /** A missing or empty header, or one that is not two parts led by "bearer", is a 401 before the token is looked at. */
  lemma GuardRejectsBadHeader(svc: AuthService, authorization: Option<string>, s: Store, now: int)
    ensures !Truthy(authorization) ==> GetCurrentUser(svc, authorization, s, now) == Failure(MissingHeader)
    ensures Truthy(authorization) && |Words(authorization.value)| != 2 ==>
      GetCurrentUser(svc, authorization, s, now) == Failure(MalformedHeader)
    ensures Truthy(authorization) && |Words(authorization.value)| == 2 && Lower(Words(authorization.value)[0]) != "bearer" ==>
      GetCurrentUser(svc, authorization, s, now) == Failure(MalformedHeader)
  {
  }

  /**
   * The guard returns a user exactly when the header carries a bearer token that verifies
   * to a non-empty payload whose non-empty subject is a stored id, and that user is the
   * one stored under the subject.
   */
  lemma GuardAcceptsExactly(svc: AuthService, authorization: Option<string>, s: Store, now: int, u: User)
    ensures GetCurrentUser(svc, authorization, s, now) == Success(u) <==>
      && Truthy(authorization)
      && ParseAuthorization(authorization.value).Some?
      && var payload := VerifyAccessToken(svc, ParseAuthorization(authorization.value).value, now);
      && payload.Some? && !payload.value.IsEmpty()
      && Truthy(payload.value.sub)
      && payload.value.sub.value in s
      && s[payload.value.sub.value] == u
  {
  }

  /** "Bearer " followed by an issued token parses to that token. */
  lemma ParseIssuedToken(svc: AuthService, issuedAt: int, userId: UserId, email: string, role: string)
    requires Sound(svc.jwt)
    ensures var token := CreateAccessToken(svc, issuedAt, userId, email, role);
      ParseAuthorization("Bearer " + token) == Some(token)
  {
    var token := CreateAccessToken(svc, issuedAt, userId, email, role);
    assert IsTokenText(token);
    assert "Bearer " + token == [] + ("Bearer" + (" " + (token + [])));
    ParseWellFormedHeader([], "Bearer", " ", token, []);
  }

  /**
   * A token issued for a stored, non-empty user id, sent as "Bearer <token>" before it
   * expires, authenticates as the user stored under that id.
   */
  lemma GuardAcceptsIssuedToken(svc: AuthService, s: Store, issuedAt: int, now: int, userId: UserId, email: string, role: string)
    requires Sound(svc.jwt)
    requires issuedAt <= now < issuedAt + GetTokenExpiresIn(svc)
    requires userId != "" && userId in s
    ensures GetCurrentUser(svc, Some("Bearer " + CreateAccessToken(svc, issuedAt, userId, email, role)), s, now)
         == Success(s[userId])
  {
    ParseIssuedToken(svc, issuedAt, userId, email, role);
    VerifyCreatedToken(svc, issuedAt, now, userId, email, role);
  }

  /** A valid token whose subject is the empty string is "Invalid token payload", whatever is stored. */
  lemma GuardRejectsEmptySubject(svc: AuthService, s: Store, issuedAt: int, now: int, email: string, role: string)
    requires Sound(svc.jwt)
    requires issuedAt <= now < issuedAt + GetTokenExpiresIn(svc)
    ensures GetCurrentUser(svc, Some("Bearer " + CreateAccessToken(svc, issuedAt, "", email, role)), s, now)
         == Failure(InvalidPayload)
  {
    ParseIssuedToken(svc, issuedAt, "", email, role);
    VerifyCreatedToken(svc, issuedAt, now, "", email, role);
  }

  /** A token whose account has since been deleted no longer authenticates. */
  lemma GuardRejectsDeletedAccount(svc: AuthService, s: Store, issuedAt: int, now: int, userId: UserId, email: string, role: string)
    requires Sound(svc.jwt)
    requires issuedAt <= now < issuedAt + GetTokenExpiresIn(svc)
    requires userId != ""
    ensures GetCurrentUser(svc, Some("Bearer " + CreateAccessToken(svc, issuedAt, userId, email, role)),
                           DeleteUser(s, userId).store, now)
         == Failure(UserNotFound)
  {
    ParseIssuedToken(svc, issuedAt, userId, email, role);
    VerifyCreatedToken(svc, issuedAt, now, userId, email, role);
  }

  /**
   * End to end: after a successful login against lawful store methods on a store whose
   * records sit under their own ids, presenting the issued token as "Bearer <token>"
   * before it expires authenticates as the account the login resolved.
   */
  lemma LoginTokenAuthenticates(svc: AuthService, ops: StoreOps, s: Store, idToken: string, now: int, later: int)
    requires Sound(svc.jwt) && Lawful(ops) && KeysMatch(s)
    requires GoogleLogin(svc, ops, s, idToken, now).outcome.Success?
    requires GoogleLogin(svc, ops, s, idToken, now).outcome.value.user.id != ""
    requires now <= later < now + GetTokenExpiresIn(svc)
    ensures var run := GoogleLogin(svc, ops, s, idToken, now);
      var resp := run.outcome.value;
      var r := GetCurrentUser(svc, Some("Bearer " + resp.token.accessToken), run.store, later);
      && r.Success?
      && View(r.value) == resp.user
  {
    var info := VerifyGoogleToken(svc, idToken, now).value;
    var res := ResolveAccount(ops, s, info.googleId, info.email.value, info.name);
    ResolveAccountLawful(ops, s, info.googleId, info.email.value, info.name);
    var u := res.outcome.value.user;
    assert Stored(res.store, u);
    GuardAcceptsIssuedToken(svc, res.store, now, later, u.id, u.email, u.role.Value());
  }
}
