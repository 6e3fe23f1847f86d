# fastapi-authservice: request authentication, modelled in Dafny

fastapi-authservice protects FastAPI routes with tokens. An extractor object
reads a named credential from the request's cookies or headers. A missing or
empty credential gives a 403 rejection, or `None` when `auto_error` is off.
Otherwise the extractor hands the credential to a `JWTAuthenticator`. The
authenticator exchanges it for a re-issued token at a remote verification
service, then decodes that token with PyJWT under its configured secret and
algorithm. Every rejection is a Starlette `HTTPException` with the message
"Not authenticated".

The model has four modules:

- `Python` (`python.dfy`) models the bits of Python the code relies on:
  optional values, truthiness, the exception classes involved, and how a
  `try`/`except`/`finally` statement completes. In Python a `return` or
  `raise` inside `finally` replaces whatever was pending. That rule is what
  decides `verify`'s outcome.
- `Security` (`security.dfy`, modelling fastapi_authservice/security.py)
  models `JWTBase` and its subclasses `JWTCookie` and `JWTHeader`, the
  subclasses modelled as constructor functions. Nothing changes these
  objects after construction, so they are datatype values. Construction still goes step by step:
  - `JWTBase.Init` leaves `model` and `getter` as `None`;
  - the subclass constructor then sets both.

  `__call__` is `JWTBase.Call`. It returns the outcome together with the
  list of calls it made to the verifier and the decoder, so "not called" and
  "called exactly once" can be stated.
- `Authenticators` (`authenticators.dfy`, modelling
  fastapi_authservice/authenticators.py) models `JWTAuthenticator` as a
  datatype:
  - `verify` is `Verify`, and the `try` statement inside it is
    `Verification`;
  - `decode` is `Decode`;
  - the two factories are `FromCookie` and `FromHeader`.

  The shared HTTP client is a field that maps a POST request to how the
  POST ends. PyJWT's `decode` is passed in as a parameter. `Expected` is an
  independent reference for the whole request: an ordered case split, and
  `PipelineFollowsCaseSplit` proves the extractors follow it.
- `Scenarios` (`scenarios.dfy`) works through fixed requests on a header extractor.

Some consequences of the code are easy to miss:

- The `except` clause (authenticators.py:51-54) raises a rejection carrying
  the verification service's status. But the `finally` clause
  (authenticators.py:55-64) always ends with a `return` or a `raise`, so
  that rejection never reaches a caller. A body with a token is accepted
  whatever the status. A body without one is a 403 whatever the status.
  `Verification`, `VerificationOutcomes` and the `ServerError…` scenarios
  state this.
- Line 59 of authenticators.py rejects only a missing or null token, so an
  empty re-issued token is returned.
- A failure of the POST itself (connection refused, say) is not turned into
  an `HTTPException`. The client's own exception propagates unchanged.
- Only `InvalidTokenError` from PyJWT becomes a 401. Any other exception
  from the library propagates unchanged.

## Model

| member | source | states |
|---|---|---|
| `Security.JWTBase.Init` | fastapi_authservice/security.py:10-24 | the base constructor stores the options (scheme name defaulting to the class name, `auto_error`) and leaves model and getter unset; every call on such an object raises a non-HTTP error and calls nothing |
| `Security.JWTBase.Call` | fastapi_authservice/security.py:26-38 | a missing or empty credential gives 403 with `auto_error` and `None` without it, and calls nothing; otherwise the verifier is called exactly once, first, with the credential; if it raises, that exception is the result and the decoder is not called; if it returns, the decoder is called once on its answer and decides the result |
| `Security.JWTCookie` | fastapi_authservice/security.py:41-59 | the credential is the cookie named `name`; scheme name is the given one, or "JWTCookie" when that is `None` or empty; `auto_error`, verifier and decoder are as given |
| `Security.JWTHeader` | fastapi_authservice/security.py:62-80 | the credential is the header named `name`; scheme name is the given one, or "JWTHeader" when that is `None` or empty; `auto_error`, verifier and decoder are as given |
| `Security.ConstructorDefaults` | fastapi_authservice/security.py:16-21 | with no options, every constructor turns `auto_error` on and names the scheme after the class |
| `Security.CollaboratorsUnusedWithoutCredential` | fastapi_authservice/security.py:27-35 | without a usable credential, replacing the verifier and the decoder by any others changes nothing: neither is consulted |
| `Security.VerifierSeenOnlyAtCredential` | fastapi_authservice/security.py:37 | the run depends on the verifier only through its answer for the raw credential |
| `Security.DecoderSeenOnlyAtVerifiedToken` | fastapi_authservice/security.py:37-38 | the run depends on the decoder only through its answer for the verifier's result, and not at all when the verifier raised |
| `Authenticators.FinallyBlock` | fastapi_authservice/authenticators.py:55-64 | the `finally` clause always ends with a `return` or a `raise` |
| `Authenticators.Verification` | fastapi_authservice/authenticators.py:49-64 | a body with a token returns it whatever the status, the empty string included; a body without one (absent or null) is a 403 whatever the status; unreadable bodies raise the JSON or attribute error; the rejection carrying the service's status never escapes unless it is the token-less 403 |
| `Authenticators.VerificationIgnoresStatus` | fastapi_authservice/authenticators.py:49-64 | two responses with the same body give the same outcome, whatever their statuses |
| `Authenticators.VerificationOutcomes` | fastapi_authservice/authenticators.py:49-64 | at every status, exactly these outcomes occur: any token, the 403, and the two unreadable-body errors |
| `Authenticators.JWTAuthenticator.Verify` | fastapi_authservice/authenticators.py:46-64 | the POST carries `{"token": credential}` to `verify_url`; a POST failure propagates unchanged; the result is a token exactly when the body has one, and then it is that token; a token-less body is a 403; an unreadable body raises a non-HTTP error |
| `Authenticators.JWTAuthenticator.Decode` | fastapi_authservice/authenticators.py:66-72 | the library is asked with the configured secret and `[algorithm]`; its claims are returned unchanged; any `InvalidTokenError` becomes 401; any other exception propagates |
| `Authenticators.JWTAuthenticator.FromCookie` | fastapi_authservice/authenticators.py:20-31 | a cookie extractor for `name` whose verifier and decoder are this authenticator's `verify` and `decode`, with scheme name and `auto_error` passed through (auto_error true by default) |
| `Authenticators.JWTAuthenticator.FromHeader` | fastapi_authservice/authenticators.py:33-44 | the same as from_cookie, with a header extractor |
| `Authenticators.PipelineFollowsCaseSplit` | fastapi_authservice/authenticators.py:20-72 | an extractor from either factory gives exactly the reference case split: missing credential, then POST failure, unreadable body or token-less body, then the library's verdict (claims, 401 or its own exception); it makes 0, 1 or 2 calls accordingly |
| `Authenticators.VerifySendsOnlyCredential` | fastapi_authservice/authenticators.py:47 | clients that answer the one request `{"token": credential}` at `verify_url` alike give the same outcome |
| `Authenticators.DecodeUsesConfiguredKeyOnly` | fastapi_authservice/authenticators.py:68 | libraries that agree on the token under the configured secret and single algorithm give the same outcome |
| `Scenarios.ReissuedTokenDecodes` | fastapi_authservice/authenticators.py:46-72 | header "abc", a 200 response carrying "xyz", and a valid signature give the claims `{"sub": "u1"}` |
| `Scenarios.EmptyBodyIsForbidden` | fastapi_authservice/authenticators.py:56-62 | a 200 response with no token is a 403 |
| `Scenarios.ServerErrorIsNotMirrored` | fastapi_authservice/authenticators.py:49-62 | a 500 response with no token is a 403, not a 500 |
| `Scenarios.ServerErrorWithTokenIsAccepted` | fastapi_authservice/authenticators.py:49-64 | a 500 response with a token is accepted |
| `Scenarios.BadSignatureIsUnauthorized` | fastapi_authservice/authenticators.py:66-72 | a re-issued token that fails the signature check is a 401 |
| `Scenarios.MissingHeaderIsForbidden` | fastapi_authservice/security.py:27-33 | a credential sent as a cookie does not satisfy a header extractor, and the request is a 403 |

## Left out

- The HTTP client's POST, `async`/`await` and the client shared between requests: this is network I/O and concurrency. The client is modelled only by the answer it gets for each request.
- Response bodies are reduced to three cases: a JSON object with a string, null or absent "token", valid JSON that is not an object, or text that is not JSON. A "token" member holding a boolean, number, list or object is not modelled; such a value is not `None`, so `verify` would return it.
- Which statuses `raise_for_status` rejects is taken to be "not 2xx". This choice cannot change any outcome, as `VerificationIgnoresStatus` shows.
- The `__context__` of the exception raised in `finally` (the pending exception it replaced) is not modelled. Only the class, status and message of an exception are.
- PyJWT's signature and claim checks are cryptography in a foreign library. They are a parameter that maps (token, key, algorithms) to claims or an exception.
- FastAPI's `Security(...)` wrapper returned by from_cookie and from_header, the OpenAPI schema, and the `SecurityBase` base class are framework glue. The factories return the extractor itself.
- Starlette's case-insensitive header names and repeated headers are framework behaviour. Cookies and headers are each one map from name to value.
- Security.JWTBase.Init, Security.JWTCookie and Security.JWTHeader: object identity and the in-place field assignments of the three constructors are not modelled. The objects are never changed after construction, so each is a datatype value, and the subclass step is a record update of the base value.
- Claim values are kept abstract as strings. The model never inspects them.
