/**
 * `Auth0AuthenticationProvider`: configuration by setters, the start-up check
 * `afterPropertiesSet` that installs a token verifier, and `authenticate`,
 * which verifies a bearer token, looks up the session user and fills in the
 * credential it was given.  The JWT library and the servlet session are
 * parameters: the verifier's answer is `verify(verifier, jwt)`, the session
 * lookup is the request context passed in.
 */
module Auth0Provider {
  import opened Wrappers
  import opened Credentials

  // ---------------------------------------------------------------------------
  // The external token verifier (com.auth0.jwt.JWTVerifier)

  /** The signing key derived from the configured secret by base64url decoding; kept opaque. */
  datatype SecretKey = Base64UrlDecoded(encodedSecret: string)

  /** A verifier built once at start-up from the decoded secret and the expected audience. */
  datatype JWTVerifier = JWTVerifier(secret: SecretKey, audience: string)

  /** The six exception classes `authenticate` catches. */
  datatype ExceptionKind =
    | InvalidKeyException
    | NoSuchAlgorithmException
    | IllegalStateException
    | SignatureException
    | IOException
    | JWTVerifyException

  /** What `JWTVerifier.verify(token)` does: return the decoded claims or throw. */
  datatype VerifyOutcome = Verified(claims: Claims) | Threw(kind: ExceptionKind)

  /** The verifier installed for a configured secret and client id. */
  function BuildVerifier(clientSecret: string, clientId: string): (v: JWTVerifier)
    ensures v.secret.encodedSecret == clientSecret && v.audience == clientId
  {
    JWTVerifier(Base64UrlDecoded(clientSecret), clientId)
  }

  // ---------------------------------------------------------------------------
  // Errors

  /** An `AuthenticationException`, seen from outside only through its message. */
  datatype AuthError = Auth0TokenException(message: string)

  /** The one error value every failed authentication throws. */
  const AUTH_ERROR: AuthError := Auth0TokenException("Authentication Error")

  /** A `RuntimeException` thrown by `afterPropertiesSet`. */
  datatype ConfigError = RuntimeException(message: string)

  const MISSING_CREDENTIALS: ConfigError :=
    RuntimeException("client secret and client id are not set for Auth0AuthenticationProvider")

  const MISSING_SECURED_ROUTE: ConfigError :=
    RuntimeException("You must set which route pattern is used to check for users so that they must be authenticated")

  /** The catch clauses of `authenticate`: each cause is rethrown as the shared error. */
  function ErrorFor(cause: ExceptionKind): (e: AuthError)
    ensures e == AUTH_ERROR && e.message == "Authentication Error"
  {
    match cause
    case InvalidKeyException => AUTH_ERROR
    case NoSuchAlgorithmException => AUTH_ERROR
    case IllegalStateException => AUTH_ERROR
    case SignatureException => AUTH_ERROR
    case IOException => AUTH_ERROR
    case JWTVerifyException => AUTH_ERROR
  }

  // ---------------------------------------------------------------------------
  // Configuration check

  /**
   * The decision `afterPropertiesSet` takes on the three configured strings.
   * Only absence (Java null) is rejected; an empty string passes.
   */
  function CheckConfiguration(clientSecret: Option<string>, clientId: Option<string>,
                              securedRoute: Option<string>): (r: Outcome<ConfigError>)
    ensures r.Pass? <==> clientSecret.Some? && clientId.Some? && securedRoute.Some?
    ensures r == Fail(MISSING_CREDENTIALS) <==> clientSecret.None? || clientId.None?
    ensures r == Fail(MISSING_SECURED_ROUTE)
        <==> clientSecret.Some? && clientId.Some? && securedRoute.None?
  {
    if clientSecret.None? || clientId.None? then Fail(MISSING_CREDENTIALS)
    else if securedRoute.None? then Fail(MISSING_SECURED_ROUTE)
    else Pass
  }

  // ---------------------------------------------------------------------------
  // Authentication

  /** What the request context yields: no current request, or the session's Auth0User (if any). */
  datatype RequestContext = NoRequestContext | ServletRequest(sessionUser: Option<Auth0User>)

  /** The user `SessionUtils.getAuth0User` finds, or none when there is no request or no user. */
  function SessionUser(ctx: RequestContext): (u: Option<Auth0User>)
    ensures u.Some? <==> ctx.ServletRequest? && ctx.sessionUser.Some?
  {
    match ctx
    case NoRequestContext => None
    case ServletRequest(user) => user
  }

  /** How `authenticate` completes: it returns its argument or throws an error. */
  datatype Completion = ReturnedCredential | ThrewError(error: AuthError)

  /** The completion of one `authenticate` call and the setter calls it made on the credential. */
  datatype AuthOutcome = AuthOutcome(completion: Completion, mutations: seq<Mutation>)

  /**
   * What `authenticate` does, given the verifier's answer and the request
   * context: the way it completes and the setter calls it makes, in order.
   */
  function AuthenticateEffect(verified: VerifyOutcome, ctx: RequestContext): (o: AuthOutcome)
    // every failure is the one shared error
    ensures o.completion.ThrewError? ==> o.completion.error == AUTH_ERROR
    // success exactly when verification passed and the session holds a user
    ensures o.completion.ReturnedCredential? <==> verified.Verified? && SessionUser(ctx).Some?
    // a verifier failure touches nothing, whatever the session holds
    ensures verified.Threw? ==> o == AuthOutcome(ThrewError(AUTH_ERROR), [])
    // once verification passed, the credential is marked authenticated before anything else
    ensures verified.Verified? ==> |o.mutations| > 0 && o.mutations[0] == SetAuthenticatedTo(true)
    // a missing user stops after that first mutation
    ensures verified.Verified? && SessionUser(ctx).None? ==> o.mutations == [SetAuthenticatedTo(true)]
    // on success the principal wraps the session user and the details are the claims
    ensures o.completion.ReturnedCredential? ==>
      o.mutations == [SetAuthenticatedTo(true),
                      SetPrincipalTo(Auth0UserDetails(SessionUser(ctx).value)),
                      SetDetailsTo(verified.claims)]
  {
    match verified
    case Threw(kind) => AuthOutcome(ThrewError(ErrorFor(kind)), [])
    case Verified(claims) =>
      match ctx
      case NoRequestContext =>
        // currentRequestAttributes() throws IllegalStateException
        AuthOutcome(ThrewError(ErrorFor(IllegalStateException)), [SetAuthenticatedTo(true)])
      case ServletRequest(user) =>
        if user.None? then
          AuthOutcome(ThrewError(ErrorFor(IllegalStateException)), [SetAuthenticatedTo(true)])
        else
          AuthOutcome(ReturnedCredential,
                      [SetAuthenticatedTo(true), SetPrincipalTo(Auth0UserDetails(user.value)),
                       SetDetailsTo(claims)])
  }

  /** A verifier failure leaves the credential exactly as it was. */
  lemma FailureLeavesCredential(kind: ExceptionKind, ctx: RequestContext, s: TokenState)
    ensures ApplyAll(s, AuthenticateEffect(Threw(kind), ctx).mutations) == s
  {
  }

  /**
   * A passed verification with no session user leaves the credential half
   * updated: authenticated, but with its old principal and details.
   */
  lemma MissingUserHalfUpdates(claims: Claims, ctx: RequestContext, s: TokenState)
    requires SessionUser(ctx).None?
    ensures AuthenticateEffect(Verified(claims), ctx).completion == ThrewError(AUTH_ERROR)
    ensures ApplyAll(s, AuthenticateEffect(Verified(claims), ctx).mutations)
         == TokenState(true, s.principal, s.details)
  {
    var ms := AuthenticateEffect(Verified(claims), ctx).mutations;
    assert ms[1..] == [];
  }

  /** A successful call leaves the credential fully authenticated, whatever it held before. */
  lemma SuccessFillsCredential(claims: Claims, user: Auth0User, s: TokenState)
    ensures AuthenticateEffect(Verified(claims), ServletRequest(Some(user))).completion == ReturnedCredential
    ensures ApplyAll(s, AuthenticateEffect(Verified(claims), ServletRequest(Some(user))).mutations)
         == TokenState(true, Some(Auth0UserDetails(user)), Some(claims))
  {
    var a, p, d := SetAuthenticatedTo(true), SetPrincipalTo(Auth0UserDetails(user)), SetDetailsTo(claims);
    assert [a, p, d] == [a] + [p] + [d];
    ApplyAllAppend(s, [a] + [p], [d]);
    ApplyAllAppend(s, [a], [p]);
    ApplyAllSingle(s, a);
    ApplyAllSingle(Apply(s, a), p);
    ApplyAllSingle(Apply(Apply(s, a), p), d);
  }

  /** The Java result of `authenticate`: the credential it was given, or a thrown error. */
  datatype AuthResult = Returned(credential: Auth0JWTToken) | Thrown(error: AuthError)

  // ---------------------------------------------------------------------------
  // The provider

  class Auth0AuthenticationProvider {
    var jwtVerifier: Option<JWTVerifier>
    var clientSecret: Option<string>
    var clientId: Option<string>
    var securedRoute: Option<string>

    /** A new provider: every field null. */
    constructor ()
      ensures jwtVerifier == None && clientSecret == None && clientId == None && securedRoute == None
    {
      jwtVerifier := None;
      clientSecret := None;
      clientId := None;
      securedRoute := None;
    }

    /** `afterPropertiesSet`: reject an incomplete configuration, or install a verifier. */
    method AfterPropertiesSet() returns (r: Outcome<ConfigError>)
      modifies this`jwtVerifier
      ensures r == CheckConfiguration(clientSecret, clientId, securedRoute)
      ensures r.Pass? ==> jwtVerifier == Some(BuildVerifier(clientSecret.value, clientId.value))
      ensures r.Fail? ==> jwtVerifier == old(jwtVerifier)
    {
      if clientSecret.None? || clientId.None? {
        return Fail(MISSING_CREDENTIALS);
      }
      if securedRoute.None? {
        return Fail(MISSING_SECURED_ROUTE);
      }
      jwtVerifier := Some(BuildVerifier(clientSecret.value, clientId.value));
      return Pass;
    }

    /**
     * `authenticate`: verify the credential's token with the installed
     * verifier, look up the session user, fill in the credential in place
     * and return that same object; any caught failure becomes AUTH_ERROR.
     */
    method Authenticate(authentication: Auth0JWTToken,
                        verify: (JWTVerifier, string) -> VerifyOutcome,
                        ctx: RequestContext) returns (r: AuthResult)
      requires jwtVerifier.Some?
      modifies authentication
      ensures var o := AuthenticateEffect(verify(jwtVerifier.value, authentication.jwt), ctx);
        && (r.Returned? <==> o.completion.ReturnedCredential?)
        && (r.Returned? ==> r.credential == authentication)
        && (r.Thrown? ==> r.error == AUTH_ERROR)
        && authentication.history == old(authentication.history) + o.mutations
        && authentication.State() == ApplyAll(old(authentication.State()), o.mutations)
    {
      ghost var s0 := authentication.State();
      var token := authentication.jwt;
      var decoded := verify(jwtVerifier.value, token);
      if decoded.Threw? {
        return Thrown(ErrorFor(decoded.kind));
      }
      authentication.SetAuthenticated(true);
      ApplyAllSingle(s0, SetAuthenticatedTo(true));
      var user := SessionUser(ctx);
      if user.None? {
        return Thrown(ErrorFor(IllegalStateException));
      }
      var details := Auth0UserDetails(user.value);
      authentication.SetPrincipal(details);
      authentication.SetDetails(decoded.claims);
      SuccessFillsCredential(decoded.claims, user.value, s0);
      return Returned(authentication);
    }

    /** `supports(c)`: the provider accepts `Auth0JWTToken` and its subclasses, and nothing else. */
    function Supports(c: JavaClass): (r: bool)
      ensures r <==> c == Auth0JWTTokenClass || c == Auth0JWTTokenSubclass
      ensures r ==> IsAssignableFrom(AuthenticationInterface, c)
    {
      Auth0JWTTokenFamily(c);
      if IsAssignableFrom(Auth0JWTTokenClass, c) then
        assert IsAssignableFrom(AuthenticationInterface, Auth0JWTTokenClass) by {
          assert AbstractAuthenticationTokenClass in DirectSupertypes(Auth0JWTTokenClass);
          assert AuthenticationInterface in DirectSupertypes(AbstractAuthenticationTokenClass);
          assert IsAssignableFrom(AuthenticationInterface, AbstractAuthenticationTokenClass);
        }
        AssignableTransitive(AuthenticationInterface, Auth0JWTTokenClass, c);
        true
      else
        false
    }

    /** `getSecuredRoute`. */
    method GetSecuredRoute() returns (r: Option<string>)
      ensures r == securedRoute
    {
      return securedRoute;
    }

    /** `setSecuredRoute`: changes that field only. */
    method SetSecuredRoute(route: Option<string>)
      modifies this`securedRoute
      ensures securedRoute == route
      ensures clientSecret == old(clientSecret) && clientId == old(clientId)
      ensures jwtVerifier == old(jwtVerifier)
    {
      securedRoute := route;
    }

    /** `getClientSecret`. */
    method GetClientSecret() returns (r: Option<string>)
      ensures r == clientSecret
    {
      return clientSecret;
    }

    /** `setClientSecret`: changes that field only. */
    method SetClientSecret(secret: Option<string>)
      modifies this`clientSecret
      ensures clientSecret == secret
      ensures clientId == old(clientId) && securedRoute == old(securedRoute)
      ensures jwtVerifier == old(jwtVerifier)
    {
      clientSecret := secret;
    }

    /** `getClientId`. */
    method GetClientId() returns (r: Option<string>)
      ensures r == clientId
    {
      return clientId;
    }

    /** `setClientId`: changes that field only. */
    method SetClientId(id: Option<string>)
      modifies this`clientId
      ensures clientId == id
      ensures clientSecret == old(clientSecret) && securedRoute == old(securedRoute)
      ensures jwtVerifier == old(jwtVerifier)
    {
      clientId := id;
    }
  }

  /**
   * A client of the provider: configuration completes only once all three
   * strings are set (empty strings included), each getter returns what its
   * setter stored, and later setter calls leave the installed verifier alone.
   */
  method ConfigurationLifecycle(secret: string, id: string)
  {
    var p := new Auth0AuthenticationProvider();
    var r := p.AfterPropertiesSet();
    assert r == Fail(MISSING_CREDENTIALS) && p.jwtVerifier == None;
    p.SetClientSecret(Some(secret));
    p.SetClientId(Some(id));
    r := p.AfterPropertiesSet();
    assert r == Fail(MISSING_SECURED_ROUTE) && p.jwtVerifier == None;
    p.SetSecuredRoute(Some(""));
    r := p.AfterPropertiesSet();
    assert r == Pass && p.jwtVerifier == Some(BuildVerifier(secret, id));
    var got := p.GetClientId();
    assert got == Some(id);
    p.SetClientId(None);
    got := p.GetClientId();
    assert got == None && p.jwtVerifier == Some(BuildVerifier(secret, id));
  }
}
