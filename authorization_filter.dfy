/** The per-request authorization gate. It reads the configured header; when the header
    carries the configured prefix it decodes the token and overwrites the request's
    security context, and in every case that does not raise it hands the request on to
    the rest of the filter chain exactly once. */
module AuthorizationFilter {
  import opened Wrappers
  import opened Strings
  import opened Http

  const HeaderNameProperty := "authorization.token.header.name"
  const HeaderPrefixProperty := "authorization.token.header.prefix"
  const TokenSecretProperty := "token.secret"

  /** The Spring environment's properties. */
  type Environment = map<string, string>

  /** The three properties the filter reads are set. */
  predicate Configured(env: Environment) {
    HeaderNameProperty in env && HeaderPrefixProperty in env && TokenSecretProperty in env
  }

  datatype HttpRequest = HttpRequest(headers: map<string, string>) {
    /** getHeader: null when the request has no such header. */
    function GetHeader(name: string): (r: Option<string>)
      ensures r.Some? <==> name in headers
      ensures r.Some? ==> r.value == headers[name]
    {
      if name in headers then Some(headers[name]) else None
    }
  }

  /** A decoded token; its user id may be null. */
  datatype AppJwt = AppJwt(userId: Option<string>)

  /** The token decoder: token and secret in, a decoded token out, or an exception. */
  type Decoder = (string, string) -> Result<AppJwt, Exception>

  /** UsernamePasswordAuthenticationToken(principal, credentials, authorities). */
  datatype AuthenticationToken = AuthenticationToken(principal: string, credentials: Option<string>, authorities: set<string>)

  /** The request goes on unauthenticated: no configured header, or one without the prefix. */
  predicate PassesThrough(env: Environment, request: HttpRequest)
    requires Configured(env)
  {
    var header := request.GetHeader(env[HeaderNameProperty]);
    header.None? || !StartsWith(header.value, env[HeaderPrefixProperty])
  }

  /** The token handed to the decoder: the header with the prefix removed. */
  function TokenOf(env: Environment, header: string): string
    requires Configured(env)
  {
    RemoveAll(header, env[HeaderPrefixProperty])
  }

  /** getAuthentication: no header gives null; otherwise the decoder runs on the stripped
      header with the configured secret, and a decoded user id becomes the principal of
      a token without credentials or authorities, a null user id gives null. A decoder
      failure is not caught. */
  function GetAuthentication(env: Environment, decode: Decoder, request: HttpRequest): (r: Result<Option<AuthenticationToken>, Exception>)
    requires Configured(env)
    ensures request.GetHeader(env[HeaderNameProperty]).None? ==> r == Success(None)
    ensures r.Failure? <==>
      request.GetHeader(env[HeaderNameProperty]).Some? &&
      decode(TokenOf(env, request.GetHeader(env[HeaderNameProperty]).value), env[TokenSecretProperty]).Failure?
    ensures r.Failure? ==>
      r.error == decode(TokenOf(env, request.GetHeader(env[HeaderNameProperty]).value), env[TokenSecretProperty]).error
    ensures r.Success? && r.value.Some? ==>
      && request.GetHeader(env[HeaderNameProperty]).Some?
      && decode(TokenOf(env, request.GetHeader(env[HeaderNameProperty]).value), env[TokenSecretProperty])
         == Success(AppJwt(Some(r.value.value.principal)))
      && r.value.value.credentials == None
      && r.value.value.authorities == {}
    ensures request.GetHeader(env[HeaderNameProperty]).Some? &&
      decode(TokenOf(env, request.GetHeader(env[HeaderNameProperty]).value), env[TokenSecretProperty]) == Success(AppJwt(None))
      ==> r == Success(None)
    ensures request.GetHeader(env[HeaderNameProperty]).Some? ==>
      forall userId :: decode(TokenOf(env, request.GetHeader(env[HeaderNameProperty]).value), env[TokenSecretProperty]) == Success(AppJwt(Some(userId))) ==>
        r == Success(Some(AuthenticationToken(userId, None, {})))
  {
    match request.GetHeader(env[HeaderNameProperty])
    case None => Success(None)
    case Some(authHeader) =>
      var token := RemoveAll(authHeader, env[HeaderPrefixProperty]);
      match decode(token, env[TokenSecretProperty])
      case Failure(e) => Failure(e)
      case Success(jwt) =>
        if jwt.userId.None? then Success(None)
        else Success(Some(AuthenticationToken(jwt.userId.value, None, {})))
  }

  /** The request-scoped security context. */
  class SecurityContext {
    var authentication: Option<AuthenticationToken>

    constructor (initial: Option<AuthenticationToken>)
      ensures authentication == initial
    {
      authentication := initial;
    }

    method SetAuthentication(a: Option<AuthenticationToken>)
      modifies this
      ensures authentication == a
    {
      authentication := a;
    }
  }

  /** The rest of the filter chain, seen only through what it was called with: the
      authentication each invocation found in the context, in call order. */
  class FilterChain {
    var invocations: seq<Option<AuthenticationToken>>

    constructor ()
      ensures invocations == []
    {
      invocations := [];
    }

    method DoFilter(request: HttpRequest, context: SecurityContext)
      modifies this
      ensures invocations == old(invocations) + [context.authentication]
    {
      invocations := invocations + [context.authentication];
    }
  }

  class MyHomeAuthorizationFilter {
    const environment: Environment
    const decode: Decoder

    constructor (environment: Environment, decode: Decoder)
      ensures this.environment == environment && this.decode == decode
    {
      this.environment := environment;
      this.decode := decode;
    }

    /** doFilterInternal */
    method DoFilterInternal(request: HttpRequest, chain: FilterChain, context: SecurityContext)
      returns (outcome: Result<(), Exception>)
      requires Configured(environment)
      modifies chain, context
      // no usable header: the context is left alone and the chain runs once
      ensures PassesThrough(environment, request) ==>
        && outcome == Success(())
        && context.authentication == old(context.authentication)
        && chain.invocations == old(chain.invocations) + [old(context.authentication)]
      // the decoder raised: the exception escapes before the context or the chain is touched
      ensures !PassesThrough(environment, request) && GetAuthentication(environment, decode, request).Failure? ==>
        && outcome == Failure(GetAuthentication(environment, decode, request).error)
        && context.authentication == old(context.authentication)
        && chain.invocations == old(chain.invocations)
      // otherwise the context is overwritten, possibly with null, and then the chain runs once
      ensures !PassesThrough(environment, request) && GetAuthentication(environment, decode, request).Success? ==>
        && outcome == Success(())
        && context.authentication == GetAuthentication(environment, decode, request).value
        && chain.invocations == old(chain.invocations) + [context.authentication]
      ensures outcome.Success? ==> |chain.invocations| == |old(chain.invocations)| + 1
    {
      var authHeaderName := environment[HeaderNameProperty];
      var authHeaderPrefix := environment[HeaderPrefixProperty];

      var authHeader := request.GetHeader(authHeaderName);
      if authHeader.None? || !StartsWith(authHeader.value, authHeaderPrefix) {
        chain.DoFilter(request, context);
        return Success(());
      }

      var authentication := GetAuthentication(environment, decode, request);
      if authentication.Failure? {
        return Failure(authentication.error);
      }
      context.SetAuthentication(authentication.value);
      chain.DoFilter(request, context);
      outcome := Success(());
    }
  }

  /** A header that does not start with the prefix is treated exactly like a missing one. */
  lemma PrefixMismatchLikeAbsent(env: Environment, request: HttpRequest, header: string)
    requires Configured(env)
    requires request.GetHeader(env[HeaderNameProperty]) == Some(header)
    requires !StartsWith(header, env[HeaderPrefixProperty])
    ensures PassesThrough(env, request)
    ensures PassesThrough(env, request) == PassesThrough(env, HttpRequest(request.headers - {env[HeaderNameProperty]}))
  {
  }

  /** On the authenticating path the decoder sees every occurrence of the prefix removed:
      the leading one and, by the same scan, those in the rest of the header. */
  lemma DecoderSeesHeaderWithoutPrefix(env: Environment, request: HttpRequest)
    requires Configured(env) && !PassesThrough(env, request)
    ensures var header := request.GetHeader(env[HeaderNameProperty]).value;
      TokenOf(env, header) == RemoveAll(header[|env[HeaderPrefixProperty]|..], env[HeaderPrefixProperty])
  {
    if env[HeaderPrefixProperty] != [] {
      LeadingOccurrenceRemoved(request.GetHeader(env[HeaderNameProperty]).value, env[HeaderPrefixProperty]);
    }
  }

  /** The usual case: a header "prefix + token" whose token does not contain the prefix
      authenticates as whatever the decoder makes of exactly that token and the
      configured secret. */
  lemma BearerHeaderAuthenticates(env: Environment, decode: Decoder, request: HttpRequest, token: string)
    requires Configured(env)
    requires env[HeaderPrefixProperty] != [] && !Contains(token, env[HeaderPrefixProperty])
    requires request.GetHeader(env[HeaderNameProperty]) == Some(env[HeaderPrefixProperty] + token)
    ensures !PassesThrough(env, request)
    ensures decode(token, env[TokenSecretProperty]) == Success(AppJwt(None)) ==>
      GetAuthentication(env, decode, request) == Success(None)
    ensures forall userId :: decode(token, env[TokenSecretProperty]) == Success(AppJwt(Some(userId))) ==>
      GetAuthentication(env, decode, request) == Success(Some(AuthenticationToken(userId, None, {})))
    ensures decode(token, env[TokenSecretProperty]).Failure? ==>
      GetAuthentication(env, decode, request) == Failure(decode(token, env[TokenSecretProperty]).error)
  {
    var p := env[HeaderPrefixProperty];
    assert (p + token)[..|p|] == p;
    RemoveAllOfPrefixed(p, token);
  }

  /** The principal is exactly the decoded user id, whatever the previous context held:
      two requests whose tokens decode alike authenticate alike. */
  lemma AuthenticationDependsOnlyOnDecodedToken(env: Environment, decode: Decoder, r1: HttpRequest, r2: HttpRequest)
    requires Configured(env) && !PassesThrough(env, r1) && !PassesThrough(env, r2)
    requires decode(TokenOf(env, r1.GetHeader(env[HeaderNameProperty]).value), env[TokenSecretProperty]) ==
             decode(TokenOf(env, r2.GetHeader(env[HeaderNameProperty]).value), env[TokenSecretProperty])
    ensures GetAuthentication(env, decode, r1) == GetAuthentication(env, decode, r2)
  {
  }

  /** A client of the filter: with the header present and prefixed and a token that
      decodes to "u1", the chain runs once and sees principal "u1"; with a header of
      another scheme, the chain runs once and sees whatever the context held before. */
  method ScenarioBearerAndBasic(decode: Decoder, initial: Option<AuthenticationToken>)
    returns (seen: seq<Option<AuthenticationToken>>, kept: Option<AuthenticationToken>)
    requires decode("t", "s") == Success(AppJwt(Some("u1")))
    ensures seen == [Some(AuthenticationToken("u1", None, {})), initial]
    ensures kept == initial
  {
    var env := map[HeaderNameProperty := "Authorization", HeaderPrefixProperty := "Bearer ", TokenSecretProperty := "s"];
    var filter := new MyHomeAuthorizationFilter(env, decode);
    var chain := new FilterChain();
    var context := new SecurityContext(initial);

    var bearer := HttpRequest(map["Authorization" := "Bearer t"]);
    assert !Contains("t", "Bearer ");
    assert "Bearer " + "t" == "Bearer t";
    BearerHeaderAuthenticates(env, decode, bearer, "t");
    var outcome := filter.DoFilterInternal(bearer, chain, context);
    assert outcome.Success?;
    assert chain.invocations == [Some(AuthenticationToken("u1", None, {}))];

    var basic := HttpRequest(map["Authorization" := "Basic xyz"]);
    assert "Basic xyz"[..7][1] != "Bearer "[1];
    var context2 := new SecurityContext(initial);
    outcome := filter.DoFilterInternal(basic, chain, context2);
    seen, kept := chain.invocations, context2.authentication;
  }
}
