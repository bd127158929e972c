/** The token service: which claims a token carries, and reading them back.
    Signing and parsing are an abstract codec; only the laws the service
    relies on are assumed of it, as a precondition. */
module Tokens {
  import opened Enums
  import opened Outcomes
  import opened Uuids
  import opened Entities
  import opened Text

  /** The payload of a token: the registered claims `sub`, `iat` and `exp` of
      section 4.1 of RFC 7519 (times in ms) and the private claims `role`,
      `userId` and `uuid`. An absent claim is `None`. */
  datatype Claims = Claims(
    sub: Option<string>,
    role: Option<string>,
    userId: Option<nat>,
    uuid: Option<string>,
    iat: int,
    exp: int)

  /** Signing (builder, key and compact form) and verified parsing at a given
      time; the cryptography and encoding are not modelled. */
  datatype Codec = Codec(sign: Claims -> string, parse: (string, int) -> Option<Claims>)

  /** The laws of the codec: a signed payload parses back to itself up to and
      including its expiry instant, a signed payload never parses to anything
      else, and no token at all parses after the expiry it carries. */
  ghost predicate Sound(c: Codec) {
    (forall cl: Claims, now: int :: now <= cl.exp ==> c.parse(c.sign(cl), now) == Some(cl))
    && (forall cl: Claims, now: int :: c.parse(c.sign(cl), now).Some? ==> c.parse(c.sign(cl), now) == Some(cl))
    && (forall t: string, now: int :: c.parse(t, now).Some? ==> now <= c.parse(t, now).value.exp)
  }

  /** The service's configuration: the codec over its key, and the token
      lifetime in ms. */
  datatype TokenConfig = TokenConfig(codec: Codec, jwtExpirationMs: int)

  /** The claims `generateToken` puts into a token issued at `now`; a user
      with no uuid cannot be issued one. */
  function IssuedClaims(cfg: TokenConfig, user: UserModel, now: int): (r: Result<Claims>)
    ensures r.Failure? <==> user.uuid.None?
    ensures r.Failure? ==> r.error == NullReference
    ensures r.Success? ==>
      r.value.sub == Some(user.email)
      && r.value.role == Some(if user.typeUser.Some? then RoleText(user.typeUser.value) else "USER")
      && r.value.userId == Some(user.id)
      && r.value.uuid == Some(ToString(user.uuid.value))
      && r.value.iat == now
      && r.value.exp == now + cfg.jwtExpirationMs
  {
    var role := if user.typeUser.Some? then RoleText(user.typeUser.value) else "USER";
    if user.uuid.None? then Failure(NullReference)
    else Success(Claims(Some(user.email), Some(role), Some(user.id), Some(ToString(user.uuid.value)),
      now, now + cfg.jwtExpirationMs))
  }

  /** `generateToken`. */
  function GenerateToken(cfg: TokenConfig, user: UserModel, now: int): (r: Result<string>)
    ensures r.Failure? <==> user.uuid.None?
    ensures r.Success? ==> r.value == cfg.codec.sign(IssuedClaims(cfg, user, now).value)
  {
    match IssuedClaims(cfg, user, now)
    case Failure(e) => Failure(e)
    case Success(cl) => Success(cfg.codec.sign(cl))
  }

  /** `validateToken`: every parse failure is reported as `false`; under a
      sound codec a valid token has not yet expired. */
  predicate ValidateToken(cfg: TokenConfig, token: string, now: int): (r: bool)
    ensures Sound(cfg.codec) && r ==>
      match cfg.codec.parse(token, now)
      case Some(cl) => now <= cl.exp
      case None => false
  {
    cfg.codec.parse(token, now).Some?
  }

  /** `getClaims`: a token that does not parse is an invalid-token error. */
  function GetClaims(cfg: TokenConfig, token: string, now: int): (r: Result<Claims>)
    ensures r.Success? <==> ValidateToken(cfg, token, now)
    ensures r.Failure? ==> r.error == TokenInvalid
    ensures r.Success? ==> Some(r.value) == cfg.codec.parse(token, now)
  {
    match cfg.codec.parse(token, now)
    case None => Failure(TokenInvalid)
    case Some(cl) => Success(cl)
  }

  /** `getUsernameFromToken`: the subject, which may be absent; a token that
      does not parse is rejected by the parser itself. */
  function GetUsernameFromToken(cfg: TokenConfig, token: string, now: int): (r: Result<Option<string>>)
    ensures r.Success? <==> ValidateToken(cfg, token, now)
    ensures r.Failure? ==> r.error == TokenRejected
    ensures r.Success? ==> r.value == cfg.codec.parse(token, now).value.sub
  {
    match cfg.codec.parse(token, now)
    case None => Failure(TokenRejected)
    case Some(cl) => Success(cl.sub)
  }

  /** `getUuidFromToken`: fails for a token that does not parse, for one with
      no uuid claim, and for a uuid claim that is not a uuid. */
  function GetUuidFromToken(cfg: TokenConfig, token: string, now: int): (r: Result<Uuid>)
    ensures !ValidateToken(cfg, token, now) ==> r == Failure(TokenInvalid)
    ensures ValidateToken(cfg, token, now) && cfg.codec.parse(token, now).value.uuid.None?
            ==> r == Failure(MissingUuidClaim)
    ensures ValidateToken(cfg, token, now) && cfg.codec.parse(token, now).value.uuid.Some?
            ==> r == (match FromString(cfg.codec.parse(token, now).value.uuid.value)
                      case None => Failure(MalformedUuid)
                      case Some(u) => Success(u))
  {
    match GetClaims(cfg, token, now)
    case Failure(e) => Failure(e)
    case Success(cl) =>
      if cl.uuid.None? then Failure(MissingUuidClaim)
      else match FromString(cl.uuid.value)
        case None => Failure(MalformedUuid)
        case Some(u) => Success(u)
  }

  /** The bearer prefix of section 2.1 of RFC 6750. */
  const BearerPrefix := "Bearer "

  /** `resolveToken`, over the value of the Authorization header of the
      current request. */
  function ResolveToken(header: Option<string>): (r: Result<string>)
    ensures r.Success? <==> header.Some? && StartsWith(header.value, BearerPrefix)
    ensures r.Failure? ==> r.error == AuthorizationHeaderMissing
    ensures r.Success? ==> header.value == BearerPrefix + r.value
  {
    if header.Some? && StartsWith(header.value, BearerPrefix) then
      assert header.value == BearerPrefix + header.value[7..];
      Success(header.value[7..])
    else Failure(AuthorizationHeaderMissing)
  }

  /** A header formed by the prefix and a token resolves to that token. */
  lemma ResolveTokenOfBearer(token: string)
    ensures ResolveToken(Some(BearerPrefix + token)) == Success(token)
  {
    assert StartsWith(BearerPrefix + token, BearerPrefix);
  }

  /** A token is valid from its issue until its lifetime has passed. */
  lemma IssuedTokenValidUntilExpiry(cfg: TokenConfig, user: UserModel, issued: int, now: int)
    requires Sound(cfg.codec) && user.uuid.Some?
    requires now <= issued + cfg.jwtExpirationMs
    ensures ValidateToken(cfg, GenerateToken(cfg, user, issued).value, now)
    ensures GetClaims(cfg, GenerateToken(cfg, user, issued).value, now) == IssuedClaims(cfg, user, issued)
  {
    var cl := IssuedClaims(cfg, user, issued).value;
    assert cfg.codec.parse(cfg.codec.sign(cl), now) == Some(cl);
  }

  /** No issued token is valid once its lifetime has passed. */
  lemma {:induction false} IssuedTokenExpires(cfg: TokenConfig, user: UserModel, issued: int, now: int)
    requires Sound(cfg.codec) && user.uuid.Some?
    requires now > issued + cfg.jwtExpirationMs
    ensures !ValidateToken(cfg, GenerateToken(cfg, user, issued).value, now)
  {
    var cl := IssuedClaims(cfg, user, issued).value;
    if cfg.codec.parse(cfg.codec.sign(cl), now).Some? {
      assert false;
    }
  }

  /** Round trip: the subject and uuid read back from an issued token are the
      user's email and uuid, and its role claim is the user's role name. */
  lemma {:induction false} IssuedTokenRoundTrip(cfg: TokenConfig, user: UserModel, issued: int, now: int)
    requires Sound(cfg.codec) && user.uuid.Some?
    requires now <= issued + cfg.jwtExpirationMs
    ensures GetUsernameFromToken(cfg, GenerateToken(cfg, user, issued).value, now) == Success(Some(user.email))
    ensures GetUuidFromToken(cfg, GenerateToken(cfg, user, issued).value, now) == Success(user.uuid.value)
    ensures user.typeUser.Some? ==>
      GetClaims(cfg, GenerateToken(cfg, user, issued).value, now).value.role == Some(RoleText(user.typeUser.value))
  {
    IssuedTokenValidUntilExpiry(cfg, user, issued, now);
    FromStringOfToString(user.uuid.value);
  }
}
