/** The HTTP vocabulary of the controllers: the statuses they answer with, response
    entities, and the exceptions that escape a call. */
module Http {
  import opened Wrappers

  datatype Status = Ok | Created | NoContent | BadRequest | Unauthorized | NotFound | Conflict

  /** ResponseEntity: a status and an optional body. */
  datatype Response<T> = Response(status: Status, body: Option<T>)

  /** ResponseEntity.status(s).body(b), ResponseEntity.ok(b) */
  function WithBody<T>(status: Status, body: T): Response<T> {
    Response(status, Some(body))
  }

  /** ResponseEntity.status(s).build(), ResponseEntity.notFound().build() */
  function Empty<T>(status: Status): Response<T> {
    Response(status, None)
  }

  /** Why a login was refused; both causes are AuthenticationExceptions. */
  datatype AuthenticationFailure = UserNotFound(email: string) | CredentialsIncorrect(userId: string)

  /** The message every AuthenticationException carries. */
  const AuthenticationErrorMessage := "Credentials are incorrect or user does not exists"

  /** The exceptions that can escape a call of the core. DecoderException stands for
      whatever the token decoder raises. */
  datatype Exception =
    | RuntimeException(message: string)
    | NullPointerException
    | IllegalArgumentException(message: string)
    | UsernameNotFoundException(username: string)
    | AuthenticationException(failure: AuthenticationFailure)
    | DecoderException(reason: string)
  {
    /** getMessage() */
    function Message(): Option<string> {
      match this
      case RuntimeException(m) => Some(m)
      case NullPointerException => None
      case IllegalArgumentException(m) => Some(m)
      case UsernameNotFoundException(u) => Some(u)
      case AuthenticationException(_) => Some(AuthenticationErrorMessage)
      case DecoderException(m) => Some(m)
    }

    /** The status a @ResponseStatus annotation on the exception class asks for. */
    function ResponseStatus(): Option<Status> {
      if AuthenticationException? then Some(Unauthorized) else None
    }
  }

  /** A failed login answers the same way whatever the cause, so a caller cannot tell an
      unknown user from a wrong password. */
  lemma AuthenticationFailuresIndistinguishable(a: AuthenticationFailure, b: AuthenticationFailure)
    ensures AuthenticationException(a).Message() == AuthenticationException(b).Message()
    ensures AuthenticationException(a).ResponseStatus() == Some(Unauthorized)
    ensures AuthenticationException(b).ResponseStatus() == Some(Unauthorized)
  {
  }
}
