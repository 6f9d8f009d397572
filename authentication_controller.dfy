/** The login endpoint: the authentication service is asked once, and a successful login
    answers 200 with the user id and the token as response headers. */
module AuthenticationController {
  import opened Wrappers
  import opened Domain
  import opened Http

  datatype LoginRequest = LoginRequest(email: string, password: string)

  /** The authentication service: every call is recorded, and outcome says how it answers
      (the AuthenticationData, or the failure it raises). */
  class AuthenticationService {
    const outcome: LoginRequest -> Result<AuthenticationData, AuthenticationFailure>
    var requests: seq<LoginRequest>

    constructor(outcome: LoginRequest -> Result<AuthenticationData, AuthenticationFailure>)
      ensures this.outcome == outcome && requests == []
    {
      this.outcome := outcome;
      requests := [];
    }

    /** login: raises AuthenticationException for a failed login. */
    method Login(loginRequest: LoginRequest) returns (r: Result<AuthenticationData, Exception>)
      modifies this
      ensures requests == old(requests) + [loginRequest]
      ensures outcome(loginRequest).Success? ==> r == Success(outcome(loginRequest).value)
      ensures outcome(loginRequest).Failure? ==> r == Failure(AuthenticationException(outcome(loginRequest).error))
    {
      requests := requests + [loginRequest];
      match outcome(loginRequest)
      case Success(data) => r := Success(data);
      case Failure(failure) => r := Failure(AuthenticationException(failure));
    }
  }

  /** HttpHeaders: each header name holds the list of its values. */
  class HttpHeaders {
    var headers: map<string, seq<string>>

    constructor()
      ensures headers == map[]
    {
      headers := map[];
    }

    /** add: appends a value to the header's list, starting the list when the header is new. */
    method Add(name: string, value: string)
      modifies this
      ensures name in old(headers) ==> headers == old(headers)[name := old(headers)[name] + [value]]
      ensures name !in old(headers) ==> headers == old(headers)[name := [value]]
    {
      if name in headers {
        headers := headers[name := headers[name] + [value]];
      } else {
        headers := headers[name := [value]];
      }
    }
  }

  /** The answer to a login: a status and the response headers; there is no body. */
  datatype LoginResponse = LoginResponse(status: Status, headers: map<string, seq<string>>)

  /** createLoginHeaders: exactly the two headers userId and token, one value each. */
  method CreateLoginHeaders(authenticationData: AuthenticationData) returns (httpHeaders: HttpHeaders)
    ensures fresh(httpHeaders)
    ensures httpHeaders.headers == map["userId" := [authenticationData.userId], "token" := [authenticationData.jwtToken]]
    ensures |httpHeaders.headers| == 2
  {
    httpHeaders := new HttpHeaders();
    httpHeaders.Add("userId", authenticationData.userId);
    httpHeaders.Add("token", authenticationData.jwtToken);
    assert "userId" != "token";
  }

  /** login */
  method Login(loginRequest: LoginRequest, authenticationService: AuthenticationService)
    returns (r: Result<LoginResponse, Exception>)
    modifies authenticationService
    ensures authenticationService.requests == old(authenticationService.requests) + [loginRequest]
    ensures var outcome := authenticationService.outcome(loginRequest);
      && (outcome.Success? ==>
            r == Success(LoginResponse(Ok, map["userId" := [outcome.value.userId], "token" := [outcome.value.jwtToken]])))
      && (outcome.Failure? ==> r == Failure(AuthenticationException(outcome.error)))
  {
    var authenticationData := authenticationService.Login(loginRequest);
    if authenticationData.Failure? {
      return Failure(authenticationData.error);
    }
    var httpHeaders := CreateLoginHeaders(authenticationData.value);
    r := Success(LoginResponse(Ok, httpHeaders.headers));
  }

  /** A client: an unknown user and a wrong password are answered alike, after one call each. */
  method ScenarioFailedLogins(request1: LoginRequest, request2: LoginRequest, service: AuthenticationService)
    returns (r1: Result<LoginResponse, Exception>, r2: Result<LoginResponse, Exception>)
    requires service.outcome(request1).Failure? && service.outcome(request1).error.UserNotFound?
    requires service.outcome(request2).Failure? && service.outcome(request2).error.CredentialsIncorrect?
    modifies service
    ensures r1.Failure? && r2.Failure?
    ensures r1.error.Message() == r2.error.Message() == Some(AuthenticationErrorMessage)
    ensures r1.error.ResponseStatus() == r2.error.ResponseStatus() == Some(Unauthorized)
    ensures service.requests == old(service.requests) + [request1, request2]
  {
    r1 := Login(request1, service);
    r2 := Login(request2, service);
    AuthenticationFailuresIndistinguishable(r1.error.failure, r2.error.failure);
  }
}
