/** The request gate in front of every endpoint: it establishes an
    authenticated principal from a bearer token when it can, never rejects a
    request itself, and always passes the request on. */
module AuthFilter {
  import opened Enums
  import opened Outcomes
  import opened Text
  import opened Entities
  import opened Repositories
  import opened Users
  import opened Tokens
  import opened UserDetails

  /** The parts of a request the gate reads. */
  datatype Request = Request(servletPath: string, authorization: Option<string>)

  /** An authenticated principal with its granted authorities. */
  datatype Authentication = Authentication(principal: Principal, authorities: seq<string>)

  /** The registration and login endpoints are served without any token
      handling. */
  predicate IsExempt(path: string): (r: bool)
    ensures r ==> StartsWith(path, "/api/v1/users/")
  {
    StartsWith(path, "/api/v1/users/register") || StartsWith(path, "/api/v1/users/login")
  }

  /** `getJwtFromRequest`: the text after the bearer prefix, or nothing. */
  function GetJwtFromRequest(request: Request): (r: Option<string>)
    ensures r.Some? <==> ResolveToken(request.authorization).Success?
    ensures r.Some? ==> request.authorization == Some(BearerPrefix + r.value)
  {
    match ResolveToken(request.authorization)
    case Failure(_) => None
    case Success(t) => Some(t)
  }

  /** The authentication the gate establishes for a request, if any: a valid
      bearer token whose subject is the email of a stored user with a role.
      Every failure on the way yields none. */
  function Authenticate(cfg: TokenConfig, users: map<nat, UserModel>, n: nat, request: Request, now: int)
    : (r: Option<Authentication>)
    requires UsersValid(users, n)
    ensures IsExempt(request.servletPath) ==> r.None?
    ensures r.Some? ==> GetJwtFromRequest(request).Some? && ValidateToken(cfg, GetJwtFromRequest(request).value, now)
  {
    if IsExempt(request.servletPath) then None
    else match GetJwtFromRequest(request)
      case None => None
      case Some(jwt) =>
        if !ValidateToken(cfg, jwt, now) then None
        else match GetUsernameFromToken(cfg, jwt, now)
          case Failure(_) => None
          case Success(sub) =>
            if sub.None? then None
            else match LoadUserByUsername(users, n, sub.value)
              case Failure(_) => None
              case Success(details) => Some(Authentication(details, details.authorities))
  }

  /** An established authentication always comes from a valid bearer token
      naming a stored user, and carries exactly that user's role authority. */
  lemma {:induction false} AuthenticationNeedsValidToken(
    cfg: TokenConfig, users: map<nat, UserModel>, n: nat, request: Request, now: int)
    requires UsersValid(users, n)
    requires Authenticate(cfg, users, n, request, now).Some?
    ensures !IsExempt(request.servletPath)
    ensures var a := Authenticate(cfg, users, n, request, now).value;
      exists token ::
        && request.authorization == Some(BearerPrefix + token)
        && ValidateToken(cfg, token, now)
        && cfg.codec.parse(token, now).value.sub == Some(a.principal.username)
    ensures var a := Authenticate(cfg, users, n, request, now).value;
      exists k ::
        && k in users && users[k].typeUser.Some?
        && users[k].email == a.principal.username
        && a.authorities == [AuthorityText(users[k].typeUser.value)]
  {
    var jwt := GetJwtFromRequest(request).value;
    var sub := GetUsernameFromToken(cfg, jwt, now).value.value;
    assert ExistsByEmail(users, sub);
    var k :| k in users && users[k].email == sub;
    assert request.authorization == Some(BearerPrefix + jwt);
  }

  /** A token issued to a stored user with a role authenticates that user on
      every non-exempt path until it expires. */
  lemma {:induction false} IssuedTokenAuthenticates(
    cfg: TokenConfig, users: map<nat, UserModel>, n: nat, k: nat, path: string, issued: int, now: int)
    requires UsersValid(users, n) && Sound(cfg.codec)
    requires k in users && users[k].typeUser.Some?
    requires !IsExempt(path) && now <= issued + cfg.jwtExpirationMs
    ensures var u := users[k];
      Authenticate(cfg, users, n, Request(path, Some(BearerPrefix + GenerateToken(cfg, u, issued).value)), now)
      == Some(Authentication(Principal(u.email, u.password, [AuthorityText(u.typeUser.value)]),
                             [AuthorityText(u.typeUser.value)]))
  {
    var u := users[k];
    var token := GenerateToken(cfg, u, issued).value;
    ResolveTokenOfBearer(token);
    IssuedTokenRoundTrip(cfg, u, issued, now);
    IssuedTokenValidUntilExpiry(cfg, u, issued, now);
  }

  /** The rest of the filter chain; it records the requests it receives. */
  class FilterChain {
    var received: seq<Request>

    constructor ()
      ensures received == []
    {
      received := [];
    }

    method DoFilter(request: Request)
      modifies this
      ensures received == old(received) + [request]
    {
      received := received + [request];
    }
  }

  /** The security context of the current request. */
  class SecurityContext {
    var authentication: Option<Authentication>

    constructor ()
      ensures authentication.None?
    {
      authentication := None;
    }
  }

  class JwtAuthenticationFilter {
    const jwtTokenService: TokenConfig
    const userRepository: Repository<UserModel>

    constructor (jwtTokenService: TokenConfig, userRepository: Repository<UserModel>)
      ensures this.jwtTokenService == jwtTokenService && this.userRepository == userRepository
    {
      this.jwtTokenService := jwtTokenService;
      this.userRepository := userRepository;
    }

    /** `doFilterInternal`: the context gains an authentication only when one
        can be established, and the chain receives the request exactly once
        on every path. */
    method DoFilterInternal(request: Request, chain: FilterChain, context: SecurityContext, now: int)
      requires UsersValid(userRepository.rows, userRepository.nextId)
      modifies chain, context
      ensures chain.received == old(chain.received) + [request]
      ensures context.authentication ==
        match Authenticate(jwtTokenService, userRepository.rows, userRepository.nextId, request, now)
        case None => old(context.authentication)
        case Some(a) => Some(a)
    {
      if IsExempt(request.servletPath) {
        chain.DoFilter(request);
        return;
      }
      var jwt := GetJwtFromRequest(request);
      if jwt.Some? && ValidateToken(jwtTokenService, jwt.value, now) {
        var email := GetUsernameFromToken(jwtTokenService, jwt.value, now);
        if email.Success? && email.value.Some? {
          var userDetails := LoadUserByUsername(userRepository.rows, userRepository.nextId, email.value.value);
          if userDetails.Success? {
            context.authentication := Some(Authentication(userDetails.value, userDetails.value.authorities));
          }
        }
      }
      chain.DoFilter(request);
    }
  }
}
