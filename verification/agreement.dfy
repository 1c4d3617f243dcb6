/**
 How the two deployments compare on the same authenticated POST with a configured key.
 The callable function's outcome is read through the status the callable protocol
 reports it with: `unauthenticated` 401, `invalid-argument` 400, `internal` 500,
 `unavailable` 503, and 500 (`internal`) for an exception that is not a structured error.
 */
module Agreement {
  import opened Js
  import opened Relay
  import Gemini
  import FirebaseHandler
  import VercelHandler

  /** The HTTP status the callable protocol sends for a settled invocation. */
  function CallableStatus(s: FirebaseHandler.Settled): (status: int)
    ensures status == 200 <==> s.Success?
    ensures status == 500 <==> s.Raised? && !(s.error.HttpsError? && s.error.code != FirebaseHandler.Internal)
  {
    match s
    case Success(_) => 200
    case Raised(e) =>
      if !e.HttpsError? then 500
      else match e.code
        case Unauthenticated => 401
        case InvalidArgument => 400
        case Internal => 500
        case Unavailable => 503
  }

  /** A POST carrying the given fields. */
  function Post(f: Fields): VercelHandler.HttpRequest
  {
    VercelHandler.HttpRequest("POST", Some(f))
  }

  /**
   Both deployments send the same provider requests for the same fields, succeed in the
   same cases and return the same poster.
   */
  lemma SameProviderTraffic(f: Fields, apiKey: Option<string>, provider: Gemini.Provider)
    requires Truthy(apiKey)
    ensures FirebaseHandler.Handle(true, Some(f), provider).calls
            == VercelHandler.Handle(Post(f), apiKey, provider).calls
    ensures FirebaseHandler.Handle(true, Some(f), provider).settled.Success?
            <==> VercelHandler.Handle(Post(f), apiKey, provider).response.body.Success?
    ensures FirebaseHandler.Handle(true, Some(f), provider).settled.Success? ==>
              FirebaseHandler.Handle(true, Some(f), provider).settled.base64Poster
              == VercelHandler.Handle(Post(f), apiKey, provider).response.body.base64Poster
  {
  }

  /**
   As written, the deployments report the same status except in two cases: an inherited
   member name (500 from the callable crash, 503 from the HTTP handler) and a response
   without an image (503 from the callable, 500 from the HTTP handler).
   */
  lemma AsWrittenStatusesDiffer(f: Fields, apiKey: Option<string>, provider: Gemini.Provider)
    requires Truthy(apiKey)
    ensures var inherited := Complete(f) && f.templateName.value in InheritedKeys;
            var noImage := Accepted(f) && provider(RequestFor(f)).Resolves?
                           && Gemini.Extract(provider(RequestFor(f)).response).NoImage?;
            CallableStatus(FirebaseHandler.Handle(true, Some(f), provider).settled)
            == VercelHandler.Handle(Post(f), apiKey, provider).response.status
            <==> !inherited && !noImage
  {
    var fb := FirebaseHandler.Handle(true, Some(f), provider);
    var v := VercelHandler.Handle(Post(f), apiKey, provider);
    if Validate(PropertyAccess, f).None? {
      assert CallableStatus(fb.settled) == 400 == v.response.status;
    } else if !Accepted(f) {
      assert CallableStatus(fb.settled) == 500 && v.response.status == 503;
    } else {
      var o := provider(RequestFor(f));
      if o.Resolves? && Gemini.Extract(o.response).Poster? {
        assert CallableStatus(fb.settled) == 200 == v.response.status;
      } else if o.Resolves? && Gemini.Extract(o.response).NoImage? {
        assert CallableStatus(fb.settled) == 503 && v.response.status == 500;
      } else {
        assert CallableStatus(fb.settled) == 503 == v.response.status;
      }
    }
  }

  /** Once corrected, the two deployments report the same status on every such request. */
  lemma IntendedStatusesAgree(f: Fields, apiKey: Option<string>, provider: Gemini.Provider)
    requires Truthy(apiKey)
    ensures CallableStatus(FirebaseHandler.HandleIntended(true, Some(f), provider).settled)
            == VercelHandler.HandleIntended(Post(f), apiKey, provider).response.status
  {
  }
}
