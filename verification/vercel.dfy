/**
 The serverless HTTP deployment (the exported handler of
 mboka_ai_backend/api/generate-poster.js).

 The handler sets three CORS headers, answers pre-flight requests, refuses other methods
 than POST, refuses to run without an API key, and then enters a `try` that destructures
 the body, checks it, calls the provider and extracts the image. Errors it detects
 itself are returned as JSON failures with their own status; any exception inside the
 `try` becomes 503.
 */
module VercelHandler {
  import opened Js
  import opened Relay
  import Gemini

  const MethodNotAllowedMessage := "Method Not Allowed"
  const ConfigurationMessage := "Server configuration error."
  const InvalidInputMessage := "Missing or invalid input parameters."
  const NoImageMessage := "AI did not return a valid image."
  const UnavailableMessage := "AI Service Temporarily Unavailable or Rate Limited."

  /** The headers the handler sets before any branch is taken. */
  const CorsHeaders: map<string, string> := map[
    "Access-Control-Allow-Origin" := "*",
    "Access-Control-Allow-Methods" := "POST, OPTIONS",
    "Access-Control-Allow-Headers" := "Content-Type"
  ]

  /** A response body: none, `{status: 'failure', message}` or `{status: 'success', base64Poster}`. */
  datatype Body = NoContent | Failure(message: string) | Success(base64Poster: string)

  datatype HttpResponse = HttpResponse(status: int, headers: map<string, string>, body: Body)

  /** The parts of the incoming request the handler reads; `body` is `None` when absent. */
  datatype HttpRequest = HttpRequest(httpMethod: string, body: Option<Fields>)

  /** The response together with the provider requests made on the way. */
  datatype Exchange = Exchange(response: HttpResponse, calls: seq<Gemini.Request>)

  /** A response sent without calling the provider, carrying the CORS headers. */
  function Reply(status: int, body: Body): Exchange
  {
    Exchange(HttpResponse(status, CorsHeaders, body), [])
  }

  /** What the `catch` sends for any exception raised inside the `try`. */
  function Caught(): Exchange
  {
    Reply(503, Failure(UnavailableMessage))
  }

  /** The response to a provider request, once the provider call has settled. */
  function Respond(request: Gemini.Request, o: Gemini.Outcome): (x: Exchange)
    ensures x.calls == [request]
    ensures x.response.headers == CorsHeaders
    ensures x.response.status == 200 <==> o.Resolves? && Gemini.Extract(o.response).Poster?
    ensures x.response.status == 200 ==> x.response.body == Success(Gemini.Extract(o.response).data)
    ensures o.Resolves? && Gemini.Extract(o.response).NoImage? ==> x.response == HttpResponse(500, CorsHeaders, Failure(NoImageMessage))
    ensures x.response.status == 503 <==> o.Rejects? || Gemini.Extract(o.response).Malformed?
    ensures x.response.status == 503 ==> x.response.body == Failure(UnavailableMessage)
  {
    match o
    case Rejects => Caught().(calls := [request])
    case Resolves(response) =>
      match Gemini.Extract(response)
      case Malformed => Caught().(calls := [request])
      case NoImage => Reply(500, Failure(NoImageMessage)).(calls := [request])
      case Poster(data) => Reply(200, Success(data)).(calls := [request])
  }

  /** True when a request reaches the provider: a POST with a key and accepted fields. */
  predicate Admitted(req: HttpRequest, apiKey: Option<string>)
  {
    req.httpMethod == "POST" && Truthy(apiKey) && req.body.Some? && Accepted(req.body.value)
  }

  /** The handler, parameterised by its template lookup. */
  function Serve(how: Lookup, req: HttpRequest, apiKey: Option<string>, provider: Gemini.Provider): (x: Exchange)
    ensures x.response.headers == CorsHeaders
    ensures req.httpMethod == "OPTIONS" ==> x == Reply(200, NoContent)
    ensures req.httpMethod != "OPTIONS" && req.httpMethod != "POST" ==> x == Reply(405, Failure(MethodNotAllowedMessage))
    ensures req.httpMethod == "POST" && !Truthy(apiKey) ==> x == Reply(500, Failure(ConfigurationMessage))
    ensures req.httpMethod == "POST" && Truthy(apiKey) && req.body.None? ==> x == Caught()
    ensures && req.httpMethod == "POST" && Truthy(apiKey) && req.body.Some?
            && Validate(how, req.body.value).None?
            ==> x == Reply(400, Failure(InvalidInputMessage))
    ensures && req.httpMethod == "POST" && Truthy(apiKey) && req.body.Some?
            && Validate(how, req.body.value).Some? && Validate(how, req.body.value).value.entry.Inherited?
            ==> x == Caught()
    ensures !Admitted(req, apiKey) ==> x.calls == []
    ensures Admitted(req, apiKey) ==>
              var request := RequestFor(req.body.value);
              x == Respond(request, provider(request))
  {
    if req.httpMethod == "OPTIONS" then Reply(200, NoContent)
    else if req.httpMethod != "POST" then Reply(405, Failure(MethodNotAllowedMessage))
    else if !Truthy(apiKey) then Reply(500, Failure(ConfigurationMessage))
    else if req.body.None? then Caught()
    else
      match Validate(how, req.body.value)
      case None => Reply(400, Failure(InvalidInputMessage))
      case Some(input) =>
        match input.entry
        case Template(style) =>
          var request := Gemini.BuildRequest(input.image, Prompt(style, input.description));
          Respond(request, provider(request))
        case _ => Caught()
  }

  /**
   The handler as written. Every response carries the three CORS headers. A pre-flight
   request gets 200 with no body, any method but POST gets 405, and a POST without an API
   key gets 500, all before the body is read. Missing or empty fields or a name the
   table lacks get 400. The provider is called exactly once when the request is admitted
   and never otherwise. A response without an image gets 500, never 503. Every exception
   inside the `try` gets 503 with the generic message.
   */
  function Handle(req: HttpRequest, apiKey: Option<string>, provider: Gemini.Provider): (x: Exchange)
    ensures x.response.headers == CorsHeaders
    ensures req.httpMethod == "OPTIONS" ==> x == Exchange(HttpResponse(200, CorsHeaders, NoContent), [])
    ensures req.httpMethod != "OPTIONS" && req.httpMethod != "POST" ==>
              x == Exchange(HttpResponse(405, CorsHeaders, Failure(MethodNotAllowedMessage)), [])
    ensures req.httpMethod == "POST" && !Truthy(apiKey) ==>
              x == Exchange(HttpResponse(500, CorsHeaders, Failure(ConfigurationMessage)), [])
    ensures && req.httpMethod == "POST" && Truthy(apiKey) && req.body.Some?
            && Validate(PropertyAccess, req.body.value).None?
            ==> x == Exchange(HttpResponse(400, CorsHeaders, Failure(InvalidInputMessage)), [])
    ensures |x.calls| <= 1
    ensures |x.calls| == 1 <==> Admitted(req, apiKey)
    ensures |x.calls| == 1 ==> x.calls[0] == RequestFor(req.body.value)
    ensures x.response.status == 200 && x.response.body.Success? <==>
              && |x.calls| == 1 && provider(x.calls[0]).Resolves?
              && Gemini.Extract(provider(x.calls[0]).response).Poster?
    ensures x.response.body.Success? ==>
              && |x.calls| == 1 && provider(x.calls[0]).Resolves?
              && Gemini.Extract(provider(x.calls[0]).response).Poster?
              && x.response.body.base64Poster == Gemini.Extract(provider(x.calls[0]).response).data
    ensures && |x.calls| == 1 && provider(x.calls[0]).Resolves?
            && Gemini.Extract(provider(x.calls[0]).response).NoImage?
            ==> x.response.status == 500 && x.response.body == Failure(NoImageMessage)
    ensures x.response.status == 503 <==>
              && req.httpMethod == "POST" && Truthy(apiKey)
              && (|| req.body.None?
                  || (Complete(req.body.value) && req.body.value.templateName.value in InheritedKeys)
                  || (|x.calls| == 1 && (provider(x.calls[0]).Rejects?
                                         || Gemini.Extract(provider(x.calls[0]).response).Malformed?)))
    ensures x.response.status == 503 ==> x.response.body == Failure(UnavailableMessage)
  {
    Serve(PropertyAccess, req, apiKey, provider)
  }

  /**
   The handler as evidently intended: a name outside the three keys gets 400. On every
   other request it answers exactly as the written handler does.
   */
  function HandleIntended(req: HttpRequest, apiKey: Option<string>, provider: Gemini.Provider): (x: Exchange)
    ensures && req.httpMethod == "POST" && Truthy(apiKey) && req.body.Some? && !Accepted(req.body.value)
            ==> x == Exchange(HttpResponse(400, CorsHeaders, Failure(InvalidInputMessage)), [])
    ensures |x.calls| == 1 <==> Admitted(req, apiKey)
    ensures Admitted(req, apiKey) ==> x == Handle(req, apiKey, provider)
    ensures !(&& req.httpMethod == "POST" && Truthy(apiKey) && req.body.Some?
              && Complete(req.body.value) && req.body.value.templateName.value in InheritedKeys)
            ==> x == Handle(req, apiKey, provider)
  {
    Serve(OwnKeysOnly, req, apiKey, provider)
  }

  /** The name "toString" passes the check, then fails inside the `try` with 503, not 400. */
  lemma InheritedNameUnavailable(provider: Gemini.Provider)
    ensures Handle(HttpRequest("POST", Some(Fields(Some("aGk="), Some("artisan coffee beans"), Some("toString")))),
                   Some("key"), provider).response.status == 503
    ensures HandleIntended(HttpRequest("POST", Some(Fields(Some("aGk="), Some("artisan coffee beans"), Some("toString")))),
                           Some("key"), provider).response.status == 400
  {
  }
}
