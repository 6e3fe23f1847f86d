/** The credential extractors of fastapi_authservice/security.py: an object
    that FastAPI calls once per request, which looks a credential up by name
    in the request's cookies or headers, rejects or tolerates its absence,
    and otherwise hands it to the verifier and the verifier's answer to the
    decoder. The extractor is never changed after its constructor, so it is
    a value here; the verifier and the decoder it is given are functions
    from their argument to how the call ends. */
module Security {
  import opened Python

  /** The claim set a decoder returns (a dict); claim values are kept abstract as strings. */
  type Claims = map<string, string>

  /** fastapi.openapi.models.APIKeyIn: where the credential travels. */
  datatype APIKeyIn = Cookie | Header

  /** fastapi.openapi.models.APIKey: the credential's place and name. */
  datatype APIKey = APIKey(location: APIKeyIn, name: string)

  /** The two parts of an incoming request that an extractor can read. */
  datatype Request = Request(cookies: map<string, string>, headers: map<string, string>)

  /** `m.get(key)`, which gives `None` for a missing key. */
  function Get(m: map<string, string>, key: string): Option<string> {
    if key in m then Some(m[key]) else None
  }

  /** What the stored getter returns for a request: `x.cookies` or `x.headers`. */
  function Select(getter: APIKeyIn, request: Request): map<string, string> {
    match getter
    case Cookie => request.cookies
    case Header => request.headers
  }

  /** `scheme_name or self.__class__.__name__`. */
  function SchemeName(schemeName: Option<string>, className: string): string {
    if Truthy(schemeName) then schemeName.value else className
  }

  /** A call that one run of the extractor makes to its collaborators. */
  datatype Invocation = VerifierCalled(argument: string) | DecoderCalled(argument: string)

  /** One run of the extractor: how it ends (with `None`, with claims, or
      with an exception) and, in order, the calls it made on the way. */
  datatype Run = Run(result: Outcome<Option<Claims>>, invocations: seq<Invocation>)

  /** A JWTBase object. `model` and `getter` are `None` until a subclass
      constructor sets them; `getter` records which of the request's
      collections the stored lambda returns. */
  datatype JWTBase = JWTBase(
    verify: string -> Outcome<string>,
    decode: string -> Outcome<Claims>,
    schemeName: string,
    autoError: bool,
    model: Option<APIKey>,
    getter: Option<APIKeyIn>)
  {
    /** JWTBase.__init__ run on an object of the class named `className`:
        it stores the collaborators and options and leaves the object
        without a model and without a getter, so a bare JWTBase cannot
        extract anything. */
    static function Init(className: string, verifier: string -> Outcome<string>,
                         decoder: string -> Outcome<Claims>,
                         schemeName: Option<string> := None, autoError: bool := true): (b: JWTBase)
      ensures b.model.None? && b.getter.None?
      ensures forall request: Request ::
        b.Call(request).invocations == [] && b.Call(request).result.Raised? &&
        !b.Call(request).result.exc.HTTPException?
      ensures b.schemeName == SchemeName(schemeName, className) && b.autoError == autoError
    {
      JWTBase(verifier, decoder, SchemeName(schemeName, className), autoError, None, None)
    }

    /** Both fields a subclass constructor sets are in place. */
    predicate Ready() {
      model.Some? && getter.Some?
    }

    /** `self.getter(request).get(self.model.name)`. */
    function Credential(request: Request): Option<string>
      requires Ready()
    {
      Get(Select(getter.value, request), model.value.name)
    }

    /** JWTBase.__call__. A missing or empty credential never reaches the
        verifier: it is a 403 rejection or `None`, as `autoError` says.
        Otherwise the verifier is called exactly once, with the credential
        itself, first; if it raises, that exception is the result and the
        decoder is not called; if it returns, the decoder is called once on
        what it returned and decides the result. */
    function Call(request: Request): (r: Run)
      ensures getter.None? ==> r == Run(Raised(Other("TypeError")), [])
      ensures getter.Some? && model.None? ==> r == Run(Raised(Other("AttributeError")), [])
      ensures Ready() && !Truthy(Credential(request)) ==>
        r.invocations == [] &&
        r.result == if autoError then Raised(Rejection(HTTP_403_FORBIDDEN)) else Returned(None)
      ensures Ready() && Truthy(Credential(request)) ==>
        |r.invocations| > 0 && r.invocations[0] == VerifierCalled(Credential(request).value) &&
        forall i | 0 < i < |r.invocations| :: r.invocations[i].DecoderCalled?
      ensures Ready() && Truthy(Credential(request)) && verify(Credential(request).value).Raised? ==>
        r.result == Raised(verify(Credential(request).value).exc) &&
        r.invocations == [VerifierCalled(Credential(request).value)]
      ensures Ready() && Truthy(Credential(request)) && verify(Credential(request).value).Returned? ==>
        var verified := verify(Credential(request).value).value;
        r.invocations == [VerifierCalled(Credential(request).value), DecoderCalled(verified)] &&
        (decode(verified).Returned? ==> r.result == Returned(Some(decode(verified).value))) &&
        (decode(verified).Raised? ==> r.result == Raised(decode(verified).exc))
    {
      if getter.None? then
        // self.getter is None, and None is not callable
        Run(Raised(Other("TypeError")), [])
      else if model.None? then
        // None has no attribute `name`
        Run(Raised(Other("AttributeError")), [])
      else
        var token := Get(Select(getter.value, request), model.value.name);
        if !Truthy(token) then
          Run(if autoError then Raised(Rejection(HTTP_403_FORBIDDEN)) else Returned(None), [])
        else
          match verify(token.value)
          case Raised(e) => Run(Raised(e), [VerifierCalled(token.value)])
          case Returned(verified) =>
            var calls := [VerifierCalled(token.value), DecoderCalled(verified)];
            match decode(verified)
            case Returned(claims) => Run(Returned(Some(claims)), calls)
            case Raised(e) => Run(Raised(e), calls)
    }
  }

  /** JWTCookie.__init__: the base constructor under the class name
      "JWTCookie", then the credential is described as a cookie named `name`
      and looked up in the request's cookies. */
  function JWTCookie(name: string, verifier: string -> Outcome<string>,
                     decoder: string -> Outcome<Claims>,
                     schemeName: Option<string> := None, autoError: bool := true): (b: JWTBase)
    ensures b.Ready() && b.model.value == APIKey(Cookie, name)
    ensures forall request: Request :: b.Credential(request) == Get(request.cookies, name)
    ensures b.schemeName == if schemeName == None || schemeName == Some("") then "JWTCookie" else schemeName.value
    ensures b.autoError == autoError
    ensures forall t :: b.verify(t) == verifier(t)
    ensures forall t :: b.decode(t) == decoder(t)
  {
    JWTBase.Init("JWTCookie", verifier, decoder, schemeName, autoError)
      .(model := Some(APIKey(Cookie, name)), getter := Some(Cookie))
  }

  /** JWTHeader.__init__: as JWTCookie, with a header named `name`. */
  function JWTHeader(name: string, verifier: string -> Outcome<string>,
                     decoder: string -> Outcome<Claims>,
                     schemeName: Option<string> := None, autoError: bool := true): (b: JWTBase)
    ensures b.Ready() && b.model.value == APIKey(Header, name)
    ensures forall request: Request :: b.Credential(request) == Get(request.headers, name)
    ensures b.schemeName == if schemeName == None || schemeName == Some("") then "JWTHeader" else schemeName.value
    ensures b.autoError == autoError
    ensures forall t :: b.verify(t) == verifier(t)
    ensures forall t :: b.decode(t) == decoder(t)
  {
    JWTBase.Init("JWTHeader", verifier, decoder, schemeName, autoError)
      .(model := Some(APIKey(Header, name)), getter := Some(Header))
  }

  /** Every constructor leaves `auto_error` on and names the scheme after
      the class when it is given no options. */
  lemma ConstructorDefaults(name: string, className: string, verifier: string -> Outcome<string>,
                            decoder: string -> Outcome<Claims>)
    ensures JWTBase.Init(className, verifier, decoder).autoError
    ensures JWTBase.Init(className, verifier, decoder).schemeName == className
    ensures JWTCookie(name, verifier, decoder).autoError
    ensures JWTCookie(name, verifier, decoder).schemeName == "JWTCookie"
    ensures JWTHeader(name, verifier, decoder).autoError
    ensures JWTHeader(name, verifier, decoder).schemeName == "JWTHeader"
  {
  }

  /** Without a usable credential the run does not depend on the verifier
      or the decoder at all: neither is consulted. */
  lemma CollaboratorsUnusedWithoutCredential(b: JWTBase, request: Request,
                                             verifier: string -> Outcome<string>,
                                             decoder: string -> Outcome<Claims>)
    requires !b.Ready() || !Truthy(b.Credential(request))
    ensures b.(verify := verifier, decode := decoder).Call(request) == b.Call(request)
  {
  }

  /** The run depends on the verifier only through its answer for the
      credential itself. */
  lemma VerifierSeenOnlyAtCredential(b: JWTBase, request: Request, verifier: string -> Outcome<string>)
    requires b.Ready() && Truthy(b.Credential(request))
    requires verifier(b.Credential(request).value) == b.verify(b.Credential(request).value)
    ensures b.(verify := verifier).Call(request) == b.Call(request)
  {
  }

  /** The run depends on the decoder only through its answer for the token
      the verifier returned, and not at all when the verifier raised. */
  lemma DecoderSeenOnlyAtVerifiedToken(b: JWTBase, request: Request, decoder: string -> Outcome<Claims>)
    requires b.Ready() && Truthy(b.Credential(request))
    requires b.verify(b.Credential(request).value).Returned? ==>
      decoder(b.verify(b.Credential(request).value).value) == b.decode(b.verify(b.Credential(request).value).value)
    ensures b.(decode := decoder).Call(request) == b.Call(request)
  {
  }
}
