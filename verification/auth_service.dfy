/**
 * The authentication service: mapping a verified Google ID token to the user-info claims,
 * and issuing and verifying the service's own signed, time-bound access tokens (JWTs,
 * RFC 7519). Signing and decoding, and Google's signature check, are foreign code: they
 * are parameters (oracles), and the laws the JWT oracle is assumed to obey are stated
 * separately in `Sound`, which only lemmas assume.
 */
module AuthService {
  import opened Wrappers
  import opened Text

  /** The payload of an access token; `exp` and `iat` are seconds since the epoch. */
  datatype Claims = Claims(
    sub: Option<string>,
    email: Option<string>,
    role: Option<string>,
    exp: Option<int>,
    iat: Option<int>)
  {
    /** An empty payload dictionary, which Python treats as false. */
    predicate IsEmpty() {
      sub.None? && email.None? && role.None? && exp.None? && iat.None?
    }
  }

  /**
   * The JWT library as an oracle: `encode(claims, key, algorithm)` produces the compact
   * token text, and `decode(token, key, algorithm)` checks its format, algorithm and
   * signature and returns the payload, or `None` when any of those checks fails. The
   * library's time checks are not part of the oracle; `VerifyAccessToken` makes them.
   */
  datatype JwtCodec = JwtCodec(
    encode: (Claims, string, string) -> string,
    decode: (string, string, string) -> Option<Claims>)

  /** The characters of a compact JWT: the base64url alphabet and the dot separator. */
  predicate IsTokenChar(c: char) {
    ('A' <= c <= 'Z') || ('a' <= c <= 'z') || ('0' <= c <= '9') || c == '-' || c == '_' || c == '.'
  }

  predicate IsTokenText(t: string) {
    t != [] && forall i :: 0 <= i < |t| ==> IsTokenChar(t[i])
  }

  /**
   * The laws of an ideal signature scheme: a token decodes, under the key and algorithm
   * that made it, to the payload it was made from; a token that decodes to a payload is
   * the one encoding made from that payload under that key and algorithm (anything
   * altered or signed with another key is rejected); and token text is compact.
   */
  ghost predicate Sound(codec: JwtCodec) {
    && (forall c, key, alg :: codec.decode(codec.encode(c, key, alg), key, alg) == Some(c))
    && (forall t, key, alg :: codec.decode(t, key, alg).Some? ==>
          t == codec.encode(codec.decode(t, key, alg).value, key, alg))
    && (forall c, key, alg :: IsTokenText(codec.encode(c, key, alg)))
  }

  /** The settings the service reads: Google client id and JWT secret, algorithm, lifetime. */
  datatype Settings = Settings(
    googleClientId: Option<string>,
    jwtSecretKey: string,
    jwtAlgorithm: string,
    jwtAccessTokenExpireMinutes: int)

  /** What Google's `verify_oauth2_token` returns for a valid token (`None` fields are absent keys). */
  datatype IdInfo = IdInfo(
    iss: Option<string>,
    sub: Option<string>,
    email: Option<string>,
    name: Option<string>,
    picture: Option<string>,
    emailVerified: Option<bool>)

  /** The claim map `verify_google_token` hands to the login route. */
  datatype GoogleUserInfo = GoogleUserInfo(
    googleId: string,
    email: Option<string>,
    name: Option<string>,
    picture: Option<string>,
    emailVerified: bool)

  /**
   * The service: its settings and the two foreign verifiers. `verifyOAuth2Token(token,
   * audience, now)` is Google's signature, audience and expiry check at time `now`;
   * `None` stands for the exception it raises.
   */
  datatype AuthService = AuthService(
    settings: Settings,
    jwt: JwtCodec,
    verifyOAuth2Token: (string, string, int) -> Option<IdInfo>)

  /** The issuer identifiers Google uses (section 3.1.3.7 of OpenID Connect Core 1.0). */
  const GoogleIssuers: seq<string> := ["accounts.google.com", "https://accounts.google.com"]

  /** Python truthiness of an optional string: present and non-empty. */
  predicate Truthy(s: Option<string>) {
    s.Some? && s.value != ""
  }

  /**
   * `verify_google_token` at time `now`: the Google claims as a user-info map, or `None` when the client
   * id is unset, Google rejects the token, the issuer is not Google's, or a required key
   * (`iss`, `sub`) is missing. Every failure is `None`; nothing is raised.
   */
  function VerifyGoogleToken(svc: AuthService, idToken: string, now: int): (r: Option<GoogleUserInfo>)
    ensures !Truthy(svc.settings.googleClientId) ==> r == None
    ensures r.Some? <==>
      && Truthy(svc.settings.googleClientId)
      && var info := svc.verifyOAuth2Token(idToken, svc.settings.googleClientId.value, now);
      && info.Some? && info.value.iss.Some? && info.value.iss.value in GoogleIssuers
      && info.value.sub.Some?
    ensures r.Some? ==>
      var info := svc.verifyOAuth2Token(idToken, svc.settings.googleClientId.value, now).value;
      && r.value.googleId == info.sub.value
      && r.value.email == info.email
      && r.value.name == info.name
      && r.value.picture == info.picture
      && r.value.emailVerified == info.emailVerified.GetOr(false)
  {
    var clientId := svc.settings.googleClientId;
    if !Truthy(clientId) then None
    else
      match svc.verifyOAuth2Token(idToken, clientId.value, now)
      case None => None
      case Some(info) =>
        if info.iss.None? || info.iss.value !in GoogleIssuers then None
        else if info.sub.None? then None
        else Some(GoogleUserInfo(info.sub.value, info.email, info.name, info.picture,
                                 info.emailVerified.GetOr(false)))
  }

  /** `get_token_expires_in`: the configured lifetime in seconds. */
  function GetTokenExpiresIn(svc: AuthService): (r: int)
    ensures r % 60 == 0 && r / 60 == svc.settings.jwtAccessTokenExpireMinutes
  {
    svc.settings.jwtAccessTokenExpireMinutes * 60
  }

  /** The payload `create_access_token` signs when called at time `now`. */
  function AccessTokenClaims(svc: AuthService, now: int, userId: string, email: string, role: string): Claims {
    Claims(Some(userId), Some(email), Some(role), Some(now + GetTokenExpiresIn(svc)), Some(now))
  }

  /** `create_access_token`: sign the payload for `userId` with the configured key and algorithm. */
  function CreateAccessToken(svc: AuthService, now: int, userId: string, email: string, role: string := "user"): (r: string)
    ensures Sound(svc.jwt) ==> IsTokenText(r)
    ensures Sound(svc.jwt) ==>
      svc.jwt.decode(r, svc.settings.jwtSecretKey, svc.settings.jwtAlgorithm)
        == Some(Claims(Some(userId), Some(email), Some(role), Some(now + GetTokenExpiresIn(svc)), Some(now)))
  {
    svc.jwt.encode(AccessTokenClaims(svc, now, userId, email, role),
                   svc.settings.jwtSecretKey, svc.settings.jwtAlgorithm)
  }

  /**
   * `verify_access_token` at time `now`: the payload of a token that decodes under the
   * configured key and algorithm, has not expired (`exp` strictly after `now`) and was
   * not issued in the future; `None` for every other token.
   */
  function VerifyAccessToken(svc: AuthService, token: string, now: int): (r: Option<Claims>)
    ensures r.Some? ==> svc.jwt.decode(token, svc.settings.jwtSecretKey, svc.settings.jwtAlgorithm) == r
    ensures r.Some? && r.value.exp.Some? ==> now < r.value.exp.value
    ensures r.Some? && r.value.iat.Some? ==> r.value.iat.value <= now
    ensures r.None? ==> var d := svc.jwt.decode(token, svc.settings.jwtSecretKey, svc.settings.jwtAlgorithm);
      d.None? || (d.value.exp.Some? && d.value.exp.value <= now) || (d.value.iat.Some? && now < d.value.iat.value)
  {
    match svc.jwt.decode(token, svc.settings.jwtSecretKey, svc.settings.jwtAlgorithm)
    case None => None
    case Some(c) =>
      if c.exp.Some? && c.exp.value <= now then None
      else if c.iat.Some? && now < c.iat.value then None
      else Some(c)
  }

  /**
   * Round trip: before its expiry, a token created at `issuedAt` verifies to exactly the
   * payload it was made from, carrying the given subject, email and role; from its expiry
   * on, it verifies to `None`.
   */
  lemma VerifyCreatedToken(svc: AuthService, issuedAt: int, now: int, userId: string, email: string, role: string)
    requires Sound(svc.jwt)
    requires issuedAt <= now
    ensures var r := VerifyAccessToken(svc, CreateAccessToken(svc, issuedAt, userId, email, role), now);
      && (now < issuedAt + GetTokenExpiresIn(svc) ==>
            r == Some(Claims(Some(userId), Some(email), Some(role),
                             Some(issuedAt + GetTokenExpiresIn(svc)), Some(issuedAt))))
      && (issuedAt + GetTokenExpiresIn(svc) <= now ==> r == None)
  {
  }

  /** The lifetime reported as `expires_in` is exactly the span in which the token verifies. */
  lemma ExpiresInIsTokenLifetime(svc: AuthService, issuedAt: int, elapsed: nat, userId: string, email: string, role: string)
    requires Sound(svc.jwt)
    ensures VerifyAccessToken(svc, CreateAccessToken(svc, issuedAt, userId, email, role), issuedAt + elapsed).Some?
        <==> elapsed < GetTokenExpiresIn(svc)
  {
  }

  /** Without an explicit role, the token carries the role "user". */
  lemma DefaultRoleIsUser(svc: AuthService, issuedAt: int, userId: string, email: string)
    requires Sound(svc.jwt)
    requires 0 < GetTokenExpiresIn(svc)
    ensures var r := VerifyAccessToken(svc, CreateAccessToken(svc, issuedAt, userId, email), issuedAt);
      r.Some? && r.value.role == Some("user")
  {
  }

  /**
   * Any token that verifies is the token the configured key and algorithm make from the
   * payload it carries: a malformed, altered or foreign-signed token verifies to `None`.
   */
  lemma VerifiedTokensAreGenuine(svc: AuthService, token: string, now: int)
    requires Sound(svc.jwt)
    requires VerifyAccessToken(svc, token, now).Some?
    ensures token == svc.jwt.encode(VerifyAccessToken(svc, token, now).value,
                                    svc.settings.jwtSecretKey, svc.settings.jwtAlgorithm)
  {
  }

  /** A token whose payload says it has expired never verifies, whatever else it carries. */
  lemma ExpiredTokenIsRejected(svc: AuthService, token: string, now: int)
    requires var d := svc.jwt.decode(token, svc.settings.jwtSecretKey, svc.settings.jwtAlgorithm);
      d.Some? && d.value.exp.Some? && d.value.exp.value <= now
    ensures VerifyAccessToken(svc, token, now) == None
  {
  }
}
