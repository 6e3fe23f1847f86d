/** Worked requests through a header extractor: credential "abc" in header
    "X-Token", a verification service that answers that one request with a
    fixed response, and a signing library that accepts "xyz" under secret
    "s" and HS256 only. */
module Scenarios {
  import opened Python
  import opened Security
  import opened Authenticators

  const VERIFY_URL: string := "https://auth.example/verify"

  /** A service that answers the POST for credential "abc" with `response`;
      any other request fails to connect. */
  function Service(response: Response): Client {
    (req: PostRequest) =>
      if req == PostRequest(VERIFY_URL, map["token" := "abc"]) then Returned(response)
      else Raised(Other("ConnectError"))
  }

  /** A library for which "xyz" is signed with "s" under HS256, when `valid`. */
  function Library(valid: bool): JwtDecode {
    (token: string, key: string, algorithms: seq<string>) =>
      if valid && token == "xyz" && key == "s" && algorithms == ["HS256"] then Returned(map["sub" := "u1"])
      else Raised(InvalidTokenError("Signature verification failed"))
  }

  function Authenticate(response: Response, valid: bool, request: Request): Outcome<Option<Claims>> {
    JWTAuthenticator("s", "HS256", VERIFY_URL, Service(response))
      .FromHeader(Library(valid), "X-Token").Call(request).result
  }

  const WITH_CREDENTIAL: Request := Request(map[], map["X-Token" := "abc"])

  lemma ReissuedTokenDecodes()
    ensures Authenticate(Response(200, Object(Some("xyz"))), true, WITH_CREDENTIAL) ==
            Returned(Some(map["sub" := "u1"]))
  {
  }

  lemma EmptyBodyIsForbidden()
    ensures Authenticate(Response(200, Object(None)), true, WITH_CREDENTIAL) ==
            Raised(Rejection(HTTP_403_FORBIDDEN))
  {
  }

  /** A server error with a token-less body is a 403 rejection, not a 500. */
  lemma ServerErrorIsNotMirrored()
    ensures Authenticate(Response(500, Object(None)), true, WITH_CREDENTIAL) ==
            Raised(Rejection(HTTP_403_FORBIDDEN))
  {
  }

  /** A server error whose body still carries a token is accepted. */
  lemma ServerErrorWithTokenIsAccepted()
    ensures Authenticate(Response(500, Object(Some("xyz"))), true, WITH_CREDENTIAL) ==
            Returned(Some(map["sub" := "u1"]))
  {
  }

  lemma BadSignatureIsUnauthorized()
    ensures Authenticate(Response(200, Object(Some("xyz"))), false, WITH_CREDENTIAL) ==
            Raised(Rejection(HTTP_401_UNAUTHORIZED))
  {
  }

  /** A request without the header is rejected before the service is asked. */
  lemma MissingHeaderIsForbidden()
    ensures Authenticate(Response(200, Object(Some("xyz"))), true, Request(map["X-Token" := "abc"], map[])) ==
            Raised(Rejection(HTTP_403_FORBIDDEN))
  {
  }
}
