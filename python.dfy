/** The fragment of Python's run-time semantics that the authentication
    shim relies on: `None`-able values, truthiness of an optional string,
    the exception classes it raises or catches, and how a `try` statement
    with `except` and `finally` clauses completes. */
module Python {

  datatype Option<+T> = None | Some(value: T)

  /** `not s` is false: the value is present and is not the empty string. */
  predicate Truthy(s: Option<string>) {
    s.Some? && s.value != ""
  }

  /** The exception classes that matter to the shim. */
  datatype Exception =
    /** starlette.exceptions.HTTPException: the rejection a route sees. */
    | HTTPException(statusCode: int, detail: string)
    /** httpx.HTTPError, as raised by `raise_for_status`. */
    | HTTPError(statusCode: int)
    /** jwt.exceptions.InvalidTokenError or one of its subclasses. */
    | InvalidTokenError(reason: string)
    /** Any other exception, named by its class. */
    | Other(name: string)

  const HTTP_401_UNAUTHORIZED: int := 401
  const HTTP_403_FORBIDDEN: int := 403
  const NOT_AUTHENTICATED: string := "Not authenticated"

  /** The rejection the shim raises, with its one fixed message. */
  function Rejection(status: int): Exception {
    HTTPException(status, NOT_AUTHENTICATED)
  }

  /** How a block of statements ends: by running off its end, by `return`,
      or by an exception propagating out of it. */
  datatype Completion<+T> = Normal | Return(value: T) | Raise(exc: Exception)

  /** How a call ends, as its caller sees it. */
  datatype Outcome<+T> = Returned(value: T) | Raised(exc: Exception)

  /** The block `return f(...)`, where the call `f(...)` ends with `o`. */
  function ReturnCall<T>(o: Outcome<T>): Completion<T> {
    match o
    case Returned(v) => Return(v)
    case Raised(e) => Raise(e)
  }

  /** `try: body except C: handler`: only an exception of a class the
      clause names is handed to the handler; anything else passes through. */
  function TryExcept<T>(body: Completion<T>, catches: Exception -> bool,
                        handler: Exception -> Completion<T>): Completion<T>
  {
    if body.Raise? && catches(body.exc) then handler(body.exc) else body
  }

  /** The `finally` clause always runs after `pending` (the completion of
      the `try` and `except` part). If it ends with a `return` or a `raise`
      of its own, that replaces whatever was pending, including a pending
      exception; only when it runs off its end does `pending` go on. */
  function Finally<T>(pending: Completion<T>, fin: Completion<T>): Completion<T> {
    if fin.Normal? then pending else fin
  }

  /** The outcome of a call whose body does not run off its end. */
  function Exit<T>(body: Completion<T>): Outcome<T>
    requires !body.Normal?
  {
    match body
    case Return(v) => Returned(v)
    case Raise(e) => Raised(e)
  }
}
