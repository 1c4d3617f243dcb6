/**
 The callable-function deployment (`generatePoster` in mboka_ai/functions/index.js).

 The handler checks the caller's authentication, destructures and checks the request
 data, renders the prompt, and only then enters a `try` around the provider call and the
 image extraction. Every exception raised inside that `try`, including the handler's own
 `internal` error for a response without an image, is replaced by one `unavailable`
 error. Exceptions raised before the `try` escape the handler uncaught.
 */
module FirebaseHandler {
  import opened Js
  import opened Relay
  import Gemini

  /** The error codes the handler raises. */
  datatype Code = Unauthenticated | InvalidArgument | Internal | Unavailable

  const UnauthenticatedMessage := "User must be authenticated to call this function."
  const InvalidArgumentMessage := "Missing or invalid input parameters (image, description, or template)."
  const NoImageMessage := "AI did not return a valid image."
  const UnavailableMessage := "AI Service Unavailable or Rate Limited. Please try again later."

  /** An exception raised while the handler runs. */
  datatype Exception =
    | HttpsError(code: Code, message: string)   // a structured error meant for the caller
    | TypeError                                 // a read or call on `undefined` or `null`
    | ProviderFailure                           // the provider call rejected

  /**
   How the handler's promise settles: with `{status: "success", base64Poster}`, or with
   an exception. A settled exception that is not an `HttpsError` is one the handler did
   not mean to raise.
   */
  datatype Settled = Success(base64Poster: string) | Raised(error: Exception)

  /** The settled outcome together with the provider requests made on the way. */
  datatype Invocation = Invocation(settled: Settled, calls: seq<Gemini.Request>)

  /** What a catch clause does with an exception. */
  datatype CatchClause =
    | ReportUnavailable   // every exception becomes the generic `unavailable` error
    | KeepHttpsErrors     // structured errors pass through; others become `unavailable`

  /** The body of the `try`, once the provider call has settled. */
  function TryBody(o: Gemini.Outcome): (s: Settled)
    ensures s.Success? <==> o.Resolves? && Gemini.Extract(o.response).Poster?
    ensures s.Success? ==> s.base64Poster == Gemini.Extract(o.response).data
    ensures o.Rejects? ==> s == Raised(ProviderFailure)
    ensures o.Resolves? && Gemini.Extract(o.response).NoImage? ==> s == Raised(HttpsError(Internal, NoImageMessage))
    ensures o.Resolves? && Gemini.Extract(o.response).Malformed? ==> s == Raised(TypeError)
  {
    match o
    case Rejects => Raised(ProviderFailure)
    case Resolves(response) =>
      match Gemini.Extract(response)
      case Malformed => Raised(TypeError)
      case NoImage => Raised(HttpsError(Internal, NoImageMessage))
      case Poster(data) => Success(data)
  }

  /** The `catch` around the provider call. */
  function Catch(clause: CatchClause, s: Settled): (t: Settled)
    ensures s.Success? ==> t == s
    ensures s.Raised? ==> t.Raised? && t.error.HttpsError?
    ensures clause == ReportUnavailable && s.Raised? ==> t == Raised(HttpsError(Unavailable, UnavailableMessage))
    ensures clause == KeepHttpsErrors && s.Raised? && s.error.HttpsError? ==> t == s
    ensures clause == KeepHttpsErrors && s.Raised? && !s.error.HttpsError? ==> t == Raised(HttpsError(Unavailable, UnavailableMessage))
  {
    match s
    case Success(_) => s
    case Raised(e) =>
      if clause == KeepHttpsErrors && e.HttpsError? then s
      else Raised(HttpsError(Unavailable, UnavailableMessage))
  }

  /** Rejects the call before the provider is contacted. */
  function Refuse(e: Exception): Invocation
  {
    Invocation(Raised(e), [])
  }

  /** The handler, parameterised by its template lookup and its catch clause. */
  function Run(how: Lookup, clause: CatchClause, authenticated: bool, data: Option<Fields>,
               provider: Gemini.Provider): (c: Invocation)
    ensures !authenticated ==> c == Refuse(HttpsError(Unauthenticated, UnauthenticatedMessage))
    ensures authenticated && data.None? ==> c == Refuse(TypeError)
    ensures authenticated && data.Some? && Validate(how, data.value).None? ==>
              c == Refuse(HttpsError(InvalidArgument, InvalidArgumentMessage))
    ensures && authenticated && data.Some? && Validate(how, data.value).Some?
            && Validate(how, data.value).value.entry.Inherited?
            ==> c == Refuse(TypeError)
    ensures Admitted(authenticated, data) ==>
              var request := RequestFor(data.value);
              c == Invocation(Catch(clause, TryBody(provider(request))), [request])
    ensures !Admitted(authenticated, data) ==> c.calls == []
  {
    if !authenticated then Refuse(HttpsError(Unauthenticated, UnauthenticatedMessage))
    else if data.None? then Refuse(TypeError)
    else
      match Validate(how, data.value)
      case None => Refuse(HttpsError(InvalidArgument, InvalidArgumentMessage))
      case Some(input) =>
        match input.entry
        case Template(style) =>
          var request := Gemini.BuildRequest(input.image, Prompt(style, input.description));
          Invocation(Catch(clause, TryBody(provider(request))), [request])
        case _ => Refuse(TypeError)
  }

  /** True when a call reaches the provider: authenticated, with accepted fields. */
  predicate Admitted(authenticated: bool, data: Option<Fields>)
  {
    authenticated && data.Some? && Accepted(data.value)
  }

  /**
   The handler as written. Unauthenticated callers are refused before anything else;
   incomplete input or a name the table does not know is refused with `invalid-argument`;
   the provider is called exactly once when the call is admitted and never otherwise,
   with the image and the rendered prompt; the poster is the provider's first inline
   image, unchanged; every failure after admission is the generic `unavailable` error,
   so `internal` is never raised; null data and inherited member names escape uncaught.
   */
  function Handle(authenticated: bool, data: Option<Fields>, provider: Gemini.Provider): (c: Invocation)
    ensures !authenticated ==> c == Invocation(Raised(HttpsError(Unauthenticated, UnauthenticatedMessage)), [])
    ensures authenticated && data.Some? && Validate(PropertyAccess, data.value).None? ==>
              c == Invocation(Raised(HttpsError(InvalidArgument, InvalidArgumentMessage)), [])
    ensures |c.calls| <= 1
    ensures |c.calls| == 1 <==> Admitted(authenticated, data)
    ensures |c.calls| == 1 ==> c.calls[0] == RequestFor(data.value)
    ensures c.settled.Success? <==> && |c.calls| == 1 && provider(c.calls[0]).Resolves?
                                    && Gemini.Extract(provider(c.calls[0]).response).Poster?
    ensures c.settled.Success? ==>
              c.settled.base64Poster == Gemini.Extract(provider(c.calls[0]).response).data
    ensures |c.calls| == 1 && c.settled.Raised? ==>
              c.settled.error == HttpsError(Unavailable, UnavailableMessage)
    ensures c.settled.Raised? && c.settled.error.HttpsError? ==> c.settled.error.code != Internal
    ensures c.settled == Raised(TypeError) <==>
              authenticated && (data.None? || (Complete(data.value) && data.value.templateName.value in InheritedKeys))
  {
    Run(PropertyAccess, ReportUnavailable, authenticated, data, provider)
  }

  /**
   The handler as evidently intended: a name outside the three keys is refused with
   `invalid-argument`, and a response without an image is reported as `internal` with
   its own message rather than as `unavailable`.
   */
  function HandleIntended(authenticated: bool, data: Option<Fields>, provider: Gemini.Provider): (c: Invocation)
    ensures authenticated && data.Some? && !Accepted(data.value) ==>
              c == Invocation(Raised(HttpsError(InvalidArgument, InvalidArgumentMessage)), [])
    ensures |c.calls| == 1 <==> Admitted(authenticated, data)
    ensures |c.calls| == 1 ==> c.calls[0] == RequestFor(data.value)
    ensures |c.calls| == 1 && provider(c.calls[0]).Resolves? && Gemini.Extract(provider(c.calls[0]).response).NoImage? ==>
              c.settled == Raised(HttpsError(Internal, NoImageMessage))
    ensures c.settled == Raised(TypeError) <==> authenticated && data.None?
  {
    Run(OwnKeysOnly, KeepHttpsErrors, authenticated, data, provider)
  }

  /** Both versions agree on every call except the two cases the intended one corrects. */
  lemma IntendedDiffersOnlyOnFindings(authenticated: bool, data: Option<Fields>, provider: Gemini.Provider)
    requires !(authenticated && data.Some? && Complete(data.value) && data.value.templateName.value in InheritedKeys)
    requires Admitted(authenticated, data) ==>
               var o := provider(RequestFor(data.value));
               !(o.Resolves? && Gemini.Extract(o.response).NoImage?)
    ensures Handle(authenticated, data, provider) == HandleIntended(authenticated, data, provider)
  {
  }

  // ---------------------------------------------------------------------------------------
  // Inputs that show the discrepancies
  // ---------------------------------------------------------------------------------------

  /** A provider answering with one text part and no image. */
  function TextOnlyProvider(): Gemini.Provider
  {
    (r: Gemini.Request) => Gemini.Resolves(TextOnlyResponse())
  }

  function TextOnlyResponse(): Gemini.Response
  {
    Gemini.Response(Some([Gemini.Candidate(Some(Gemini.Content(Some([Gemini.Part(None, Some("no image"))]))))]))
  }

  /** A complete request naming the given template. */
  function Sample(templateName: string): Fields
  {
    Fields(Some("aGk="), Some("artisan coffee beans"), Some(templateName))
  }

  /** A valid call answered without an image is reported as `unavailable`, not `internal`. */
  lemma NoImageReportedUnavailable()
    ensures Handle(true, Some(Sample("Warm Bakery")), TextOnlyProvider()).settled
            == Raised(HttpsError(Unavailable, UnavailableMessage))
    ensures HandleIntended(true, Some(Sample("Warm Bakery")), TextOnlyProvider()).settled
            == Raised(HttpsError(Internal, NoImageMessage))
  {
    assert Admitted(true, Some(Sample("Warm Bakery")));
    assert Gemini.Extract(TextOnlyResponse()).NoImage?;
  }

  /** The name "toString" passes the check, then crashes the handler outside the `try`. */
  lemma InheritedNameCrashes(provider: Gemini.Provider)
    ensures Handle(true, Some(Sample("toString")), provider) == Invocation(Raised(TypeError), [])
    ensures HandleIntended(true, Some(Sample("toString")), provider)
            == Invocation(Raised(HttpsError(InvalidArgument, InvalidArgumentMessage)), [])
  {
  }

  /** A response holding a text part followed by the image "cG9zdGVy". */
  function ImageAfterTextResponse(): Gemini.Response
  {
    Gemini.Response(Some([Gemini.Candidate(Some(Gemini.Content(Some([
      Gemini.Part(None, Some("here is your poster")),
      Gemini.Part(Some(Gemini.Blob("cG9zdGVy", Gemini.Jpeg)), None)
    ]))))]))
  }

  /** A Warm Bakery request for "artisan coffee beans" returns the generated image unchanged. */
  lemma WarmBakeryScenario()
    ensures Handle(true, Some(Sample("Warm Bakery")), (r: Gemini.Request) => Gemini.Resolves(ImageAfterTextResponse())).settled
            == Success("cG9zdGVy")
  {
    assert Admitted(true, Some(Sample("Warm Bakery")));
    var ps := Gemini.CandidateParts(ImageAfterTextResponse()).value;
    assert ps[0].inlineData.None? && ps[1].inlineData.Some?;
    assert Gemini.FirstImageIndex(ps) == 1;
    assert Gemini.Extract(ImageAfterTextResponse()) == Gemini.Poster("cG9zdGVy");
  }

  /** A style outside the table is refused without a provider call. */
  lemma UnknownStyleScenario(provider: Gemini.Provider)
    ensures Handle(true, Some(Sample("Neon Future")), provider)
            == Invocation(Raised(HttpsError(InvalidArgument, InvalidArgumentMessage)), [])
  {
    assert Index("Neon Future").Undefined?;
  }
}
