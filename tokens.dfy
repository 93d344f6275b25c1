/**
 * Access tokens. A token is a signed claim set; signing is modelled
 * symbolically: the signature is a term that records the key, the algorithm
 * and the claims, so that two signatures are equal exactly when all three are.
 * Decoding follows the validation the service configures: HS256 only, a
 * matching signature, not expired beyond a fixed leeway, the right issuer.
 */
module Tokens {
  import opened Wrappers
  import opened Uuids

  /** The configuration the token functions read: issuer domain, signing secret, lifetime, and an unused leeway. */
  datatype Config = Config(domain: string, tokenSecret: string, tokenDuration: int, tokenLeeway: int)

  datatype Claims = Claims(iss: string, id: Uuid, user: string, role: string, iat: int, exp: int)

  datatype Algorithm = HS256 | HS384 | HS512 | ES256 | ES384 | RS256 | RS384 | RS512 | PS256 | PS384 | PS512 | EdDSA

  datatype Header = Header(alg: Algorithm)

  /** A message authentication code over the claims under a key and an algorithm. */
  datatype Signature = Mac(key: string, alg: Algorithm, claims: Claims)

  datatype Jwt = Jwt(header: Header, claims: Claims, signature: Signature)

  /** Sign and encode a claim set. */
  function Encode(header: Header, claims: Claims, key: string): (t: Jwt)
  {
    Jwt(header, claims, Mac(key, header.alg, claims))
  }

  /** The checks a decoder applies: allowed algorithms, leeway in seconds, whether to check `exp`, accepted issuers. */
  datatype Validation = Validation(algorithms: set<Algorithm>, leeway: int, validateExp: bool, iss: Option<set<string>>)

  /** The library's default validation for one algorithm: a 60-second leeway, expiry checked, any issuer. */
  function NewValidation(alg: Algorithm): (v: Validation)
  {
    Validation({alg}, 60, true, None)
  }

  datatype JwtError = InvalidAlgorithm | InvalidSignature | ExpiredSignature | InvalidIssuer

  /** Decode and check a token at time `now` (seconds). `iat` is not checked. */
  function Decode(token: Jwt, key: string, v: Validation, now: int): (r: Result<Claims, JwtError>)
  {
    if token.header.alg !in v.algorithms then Err(InvalidAlgorithm)
    else if token.signature != Mac(key, token.header.alg, token.claims) then Err(InvalidSignature)
    else if v.validateExp && token.claims.exp < now - v.leeway then Err(ExpiredSignature)
    else if v.iss.Some? && token.claims.iss !in v.iss.value then Err(InvalidIssuer)
    else Ok(token.claims)
  }

  /** Decoding, then encoding under the same key, gives the token back. */
  lemma DecodeInvertsEncode(token: Jwt, key: string, v: Validation, now: int)
    requires Decode(token, key, v, now).Ok?
    ensures Encode(token.header, Decode(token, key, v, now).value, key) == token
  {
  }

  /** The two clock readings `create_jwt` makes: one for `iat`, a later one for `exp`. */
  datatype TokenClock = TokenClock(first: int, second: int)

  /**
   * `create_jwt`: the claims carry the configured domain as issuer, the given
   * user, role and id unchanged, `iat` from the first clock reading and `exp`
   * from the second plus the configured lifetime; signed with HS256.
   */
  function CreateJwt(cfg: Config, username: string, accType: string, userId: Uuid, clock: TokenClock): (t: Jwt)
    ensures t.header.alg == HS256
    ensures t.claims.iss == cfg.domain
    ensures t.claims.id == userId && t.claims.user == username && t.claims.role == accType
    ensures t.claims.exp - t.claims.iat == cfg.tokenDuration + (clock.second - clock.first)
  {
    Encode(
      Header(HS256),
      Claims(cfg.domain, userId, username, accType, clock.first, clock.second + cfg.tokenDuration),
      cfg.tokenSecret)
  }

  /** With clock readings in order, a token lives at least the configured duration, exactly that when they agree. */
  lemma TokenLifetime(cfg: Config, username: string, accType: string, userId: Uuid, clock: TokenClock)
    requires clock.first <= clock.second
    ensures var c := CreateJwt(cfg, username, accType, userId, clock).claims;
      c.exp >= c.iat + cfg.tokenDuration && (clock.first == clock.second ==> c.exp == c.iat + cfg.tokenDuration)
  {
  }

  /** The leeway `decode_jwt` uses; the configured `tokenLeeway` is never read. */
  const DecodeLeeway: int := 3

  /** The validation `decode_jwt` sets up. */
  function DecodeValidation(cfg: Config): (v: Validation)
    ensures v.algorithms == {HS256} && v.leeway == DecodeLeeway && v.validateExp && v.iss == Some({cfg.domain})
  {
    NewValidation(HS256).(leeway := DecodeLeeway, iss := Some({cfg.domain}))
  }

  /**
   * `decode_jwt` at time `now`: accepts exactly the HS256 tokens signed with
   * the configured secret, whose issuer is the configured domain and whose
   * `exp` is at least `now - 3`; it then returns their claims unchanged.
   */
  function DecodeJwt(cfg: Config, token: Jwt, now: int): (r: Result<Claims, JwtError>)
    ensures r.Ok? <==>
      token.header.alg == HS256
      && token.signature == Mac(cfg.tokenSecret, HS256, token.claims)
      && token.claims.exp >= now - DecodeLeeway
      && token.claims.iss == cfg.domain
    ensures r.Ok? ==> r.value == token.claims
  {
    Decode(token, cfg.tokenSecret, DecodeValidation(cfg), now)
  }

  /** A token the service issued decodes, until three seconds after it expires, to the claims it was issued with. */
  lemma IssuedTokenDecodes(cfg: Config, username: string, accType: string, userId: Uuid, clock: TokenClock, now: int)
    requires now <= clock.second + cfg.tokenDuration + DecodeLeeway
    ensures DecodeJwt(cfg, CreateJwt(cfg, username, accType, userId, clock), now)
      == Ok(Claims(cfg.domain, userId, username, accType, clock.first, clock.second + cfg.tokenDuration))
  {
  }

  /** Any token is rejected once more than the leeway has passed since its expiry. */
  lemma ExpiredTokenRejected(cfg: Config, token: Jwt, now: int)
    requires now > token.claims.exp + DecodeLeeway
    ensures DecodeJwt(cfg, token, now).Err?
  {
  }

  /** A token issued for one domain is rejected by a service configured for another, even with the same secret. */
  lemma IssuerBinding(a: Config, b: Config, username: string, accType: string, userId: Uuid, clock: TokenClock, now: int)
    requires a.domain != b.domain
    ensures DecodeJwt(b, CreateJwt(a, username, accType, userId, clock), now).Err?
  {
  }

  /** Changing the configured leeway does not change what `decode_jwt` accepts. */
  lemma ConfiguredLeewayUnused(cfg: Config, leeway: int, token: Jwt, now: int)
    ensures DecodeJwt(cfg.(tokenLeeway := leeway), token, now) == DecodeJwt(cfg, token, now)
  {
  }

  /** A bearer token that does not pass the check gets this error, described as "Invalid Token". */
  datatype AuthenticationError = AuthenticationError(description: string)

  /**
   * `validator`, the middleware of the protected scopes: the request passes
   * through exactly when the token decodes; otherwise it is answered with an
   * authentication error.
   */
  function Validator<R>(cfg: Config, request: R, token: Jwt, now: int): (r: Result<R, (AuthenticationError, R)>)
    ensures r.Ok? <==> DecodeJwt(cfg, token, now).Ok?
    ensures r.Ok? ==> r.value == request
    ensures r.Err? ==> r.error == (AuthenticationError("Invalid Token"), request)
  {
    match DecodeJwt(cfg, token, now)
    case Ok(_) => Ok(request)
    case Err(_) => Err((AuthenticationError("Invalid Token"), request))
  }
}
