/** JWTAuthenticator of fastapi_authservice/authenticators.py: it holds the
    signing secret, the one accepted algorithm, the address of the remote
    verification service and an HTTP client; it exchanges a caller's
    credential for a re-issued token at that service, decodes the token into
    claims, and builds cookie and header extractors bound to those two
    operations. The client is modelled by the answer it gets for a request
    (a response, or the exception the POST raised), and PyJWT's `decode` by
    the outcome it has for a token, a key and a list of algorithms. */
module Authenticators {
  import opened Python
  import opened Security

  /** `client.post(url, json=json)`. */
  datatype PostRequest = PostRequest(url: string, json: map<string, string>)

  /** The verification service's response body, as the `finally` clause reads it. */
  datatype Body =
    /** A JSON object; `token` is its "token" member, `None` when that member is absent or null. */
    | Object(token: Option<string>)
    /** Valid JSON that is not an object, which has no `get`. */
    | NotAnObject
    /** Not JSON at all, so `response.json()` raises. */
    | Unparsable

  datatype Response = Response(statusCode: int, body: Body)

  /** What the shared client gets back for a POST. */
  type Client = PostRequest -> Outcome<Response>

  /** `jwt.decode(token, key=..., algorithms=[...])`. */
  type JwtDecode = (string, string, seq<string>) -> Outcome<Claims>

  /** A 2xx status, the only kind `raise_for_status` lets through. */
  predicate IsSuccess(statusCode: int) {
    200 <= statusCode < 300
  }

  /** `response.raise_for_status()`. */
  function RaiseForStatus(response: Response): Completion<string> {
    if IsSuccess(response.statusCode) then Normal else Raise(HTTPError(response.statusCode))
  }

  /** The `finally` clause of `verify`: read the body, take its "token"
      member, reject with 403 when there is none, return it otherwise. It
      never runs off its end. */
  function FinallyBlock(response: Response): (c: Completion<string>)
    ensures !c.Normal?
  {
    match response.body
    case Unparsable => Raise(Other("JSONDecodeError"))
    case NotAnObject => Raise(Other("AttributeError"))
    case Object(token) =>
      if token.None? then Raise(Rejection(HTTP_403_FORBIDDEN)) else Return(token.value)
  }

  /** The `try` statement of `verify`, run on the service's response: the
      status check and its status-mirroring handler, then the `finally`
      clause. Because the `finally` clause always ends with a `return` or a
      `raise`, it alone decides the outcome: a body with a token gives that
      token, whatever the status (an empty token included); a body without
      one gives 403, whatever the status; and the rejection carrying the
      service's own status never reaches the caller, except where it
      coincides with the 403 of a token-less body. */
  function Verification(response: Response): (r: Outcome<string>)
    ensures response.body.Object? && response.body.token.Some? ==> r == Returned(response.body.token.value)
    ensures response.body == Object(None) ==> r == Raised(Rejection(HTTP_403_FORBIDDEN))
    ensures response.body == NotAnObject ==> r == Raised(Other("AttributeError"))
    ensures response.body == Unparsable ==> r == Raised(Other("JSONDecodeError"))
    ensures r == Raised(Rejection(response.statusCode)) ==>
      response.statusCode == HTTP_403_FORBIDDEN && response.body == Object(None)
  {
    var statusChecked := TryExcept(RaiseForStatus(response), (e: Exception) => e.HTTPError?,
                                   (e: Exception) => Raise(Rejection(response.statusCode)));
    Exit(Finally(statusChecked, FinallyBlock(response)))
  }

  /** The status of the response plays no part in the outcome. */
  lemma VerificationIgnoresStatus(a: Response, b: Response)
    requires a.body == b.body
    ensures Verification(a) == Verification(b)
  {
  }

  /** For every status, exactly these outcomes occur: any token at all, the
      403 rejection, and the two errors of an unreadable body. A success
      status does not rule out the 403, and a failure status does not rule
      out a token. */
  lemma VerificationOutcomes(statusCode: int, o: Outcome<string>)
    ensures (exists body :: Verification(Response(statusCode, body)) == o) <==>
      o.Returned? || o == Raised(Rejection(HTTP_403_FORBIDDEN)) ||
      o == Raised(Other("AttributeError")) || o == Raised(Other("JSONDecodeError"))
  {
    if o.Returned? {
      assert Verification(Response(statusCode, Object(Some(o.value)))) == o;
    } else if o == Raised(Rejection(HTTP_403_FORBIDDEN)) {
      assert Verification(Response(statusCode, Object(None))) == o;
    } else if o == Raised(Other("AttributeError")) {
      assert Verification(Response(statusCode, NotAnObject)) == o;
    } else if o == Raised(Other("JSONDecodeError")) {
      assert Verification(Response(statusCode, Unparsable)) == o;
    }
  }

  /** A JWTAuthenticator object; nothing changes it after `__init__`. */
  datatype JWTAuthenticator = JWTAuthenticator(secretKey: string, algorithm: string, verifyUrl: string,
                                               client: Client)
  {
    /** JWTAuthenticator.verify. The POST carries the credential as the
        "token" member to the configured address; an exception raised by
        the POST itself propagates unchanged; otherwise the outcome is that
        of the `try` statement on the response: the re-issued token when the
        body has one, a 403 rejection when it has none. */
    function Verify(token: string): (r: Outcome<string>)
      ensures var reply := client(PostRequest(verifyUrl, map["token" := token]));
        (reply.Raised? ==> r == Raised(reply.exc)) &&
        (r.Returned? <==> reply.Returned? && reply.value.body.Object? && reply.value.body.token.Some?) &&
        (r.Returned? ==> r.value == reply.value.body.token.value) &&
        (reply.Returned? && reply.value.body == Object(None) ==> r == Raised(Rejection(HTTP_403_FORBIDDEN))) &&
        (reply.Returned? && !reply.value.body.Object? ==> r.Raised? && r.exc.Other?)
    {
      match client(PostRequest(verifyUrl, map["token" := token]))
      case Raised(e) => Raised(e)
      case Returned(response) => Verification(response)
    }

    /** JWTAuthenticator.decode. The library is asked with the configured
        secret and the configured algorithm as the only one allowed; the
        claims it returns are returned as they are, any InvalidTokenError
        becomes a 401 rejection, and any other exception propagates. */
    function Decode(jwt: JwtDecode, token: string): (r: Outcome<Claims>)
      ensures var verdict := jwt(token, secretKey, [algorithm]);
        (verdict.Returned? ==> r == verdict) &&
        (verdict.Raised? && verdict.exc.InvalidTokenError? ==> r == Raised(Rejection(HTTP_401_UNAUTHORIZED))) &&
        (verdict.Raised? && !verdict.exc.InvalidTokenError? ==> r == verdict)
    {
      Exit(TryExcept(ReturnCall(jwt(token, secretKey, [algorithm])), (e: Exception) => e.InvalidTokenError?,
                     (e: Exception) => Raise(Rejection(HTTP_401_UNAUTHORIZED))))
    }

    /** JWTAuthenticator.from_cookie: a cookie extractor named `name` whose
        verifier and decoder are this authenticator's, with the options
        passed through. */
    function FromCookie(jwt: JwtDecode, name: string, schemeName: Option<string> := None,
                        autoError: bool := true): (b: JWTBase)
      ensures b.Ready() && b.model.value == APIKey(Cookie, name)
      ensures forall request: Request :: b.Credential(request) == Get(request.cookies, name)
      ensures b.schemeName == SchemeName(schemeName, "JWTCookie") && b.autoError == autoError
      ensures forall t :: b.verify(t) == Verify(t)
      ensures forall t :: b.decode(t) == Decode(jwt, t)
    {
      JWTCookie(name, (t: string) => Verify(t), (t: string) => Decode(jwt, t), schemeName, autoError)
    }

    /** JWTAuthenticator.from_header: as from_cookie, for a header. */
    function FromHeader(jwt: JwtDecode, name: string, schemeName: Option<string> := None,
                        autoError: bool := true): (b: JWTBase)
      ensures b.Ready() && b.model.value == APIKey(Header, name)
      ensures forall request: Request :: b.Credential(request) == Get(request.headers, name)
      ensures b.schemeName == SchemeName(schemeName, "JWTHeader") && b.autoError == autoError
      ensures forall t :: b.verify(t) == Verify(t)
      ensures forall t :: b.decode(t) == Decode(jwt, t)
    {
      JWTHeader(name, (t: string) => Verify(t), (t: string) => Decode(jwt, t), schemeName, autoError)
    }

    /** The extractor for `location` that from_cookie or from_header builds. */
    function From(location: APIKeyIn, jwt: JwtDecode, name: string, schemeName: Option<string>,
                  autoError: bool): JWTBase
    {
      match location
      case Cookie => FromCookie(jwt, name, schemeName, autoError)
      case Header => FromHeader(jwt, name, schemeName, autoError)
    }
  }

  /** The outcome of authenticating one request, written as the ordered case
      split the two files together implement: a missing credential; then the
      verification service's answer for the credential (the POST failing,
      an unreadable body, a body without a token); then the library's verdict
      on the re-issued token. */
  function Expected(autoError: bool, credential: Option<string>, answer: string -> Outcome<Response>,
                    verdict: string -> Outcome<Claims>): Outcome<Option<Claims>>
  {
    if !Truthy(credential) then
      if autoError then Raised(Rejection(HTTP_403_FORBIDDEN)) else Returned(None)
    else
      match answer(credential.value)
      case Raised(e) => Raised(e)
      case Returned(response) =>
        match response.body
        case Unparsable => Raised(Other("JSONDecodeError"))
        case NotAnObject => Raised(Other("AttributeError"))
        case Object(None) => Raised(Rejection(HTTP_403_FORBIDDEN))
        case Object(Some(reissued)) =>
          match verdict(reissued)
          case Returned(claims) => Returned(Some(claims))
          case Raised(InvalidTokenError(_)) => Raised(Rejection(HTTP_401_UNAUTHORIZED))
          case Raised(e) => Raised(e)
  }

  /** An extractor built by from_cookie or from_header follows the case
      split exactly, with the verification service asked about the
      credential and the library asked about the re-issued token under the
      configured secret and algorithm; it makes no call without a
      credential, one when the verifier raises, and two otherwise. */
  lemma PipelineFollowsCaseSplit(a: JWTAuthenticator, location: APIKeyIn, jwt: JwtDecode, name: string,
                                 schemeName: Option<string>, autoError: bool, request: Request)
    ensures var run := a.From(location, jwt, name, schemeName, autoError).Call(request);
      var credential := Get(Select(location, request), name);
      run.result == Expected(autoError, credential,
                             (t: string) => a.client(PostRequest(a.verifyUrl, map["token" := t])),
                             (t: string) => jwt(t, a.secretKey, [a.algorithm])) &&
      |run.invocations| == (if !Truthy(credential) then 0 else if a.Verify(credential.value).Raised? then 1 else 2)
  {
    var b := a.From(location, jwt, name, schemeName, autoError);
    assert b.Ready() && b.Credential(request) == Get(Select(location, request), name);
  }

  /** `verify` tells the service nothing but the credential, at the
      configured address: two clients that answer that one request alike
      give the same outcome. */
  lemma VerifySendsOnlyCredential(a: JWTAuthenticator, client: Client, token: string)
    requires client(PostRequest(a.verifyUrl, map["token" := token])) ==
             a.client(PostRequest(a.verifyUrl, map["token" := token]))
    ensures a.(client := client).Verify(token) == a.Verify(token)
  {
  }

  /** `decode` consults the library only with the configured secret and the
      configured algorithm as the single allowed one. */
  lemma DecodeUsesConfiguredKeyOnly(a: JWTAuthenticator, jwt: JwtDecode, other: JwtDecode, token: string)
    requires other(token, a.secretKey, [a.algorithm]) == jwt(token, a.secretKey, [a.algorithm])
    ensures a.Decode(other, token) == a.Decode(jwt, token)
  {
  }
}
