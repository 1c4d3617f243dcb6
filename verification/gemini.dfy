/**
 The boundary with the image-generation provider, as both handlers use it: the request
 they build, the response shape they read, and how they pick the generated image out of
 it. The provider itself is not modelled; it is an arbitrary function from request to
 outcome.
 */
module Gemini {
  import opened Js

  /** The model identifier both handlers request. */
  const ModelName := "gemini-2.5-flash-image-preview"

  /** The media type the handlers attach to the uploaded image and ask back. */
  const Jpeg := "image/jpeg"

  /** Base64 bytes tagged with a media type. */
  datatype Blob = Blob(data: string, mimeType: string)

  /** One content part: it may carry inline data, text, both or neither. */
  datatype Part = Part(inlineData: Option<Blob>, text: Option<string>)

  /** The argument of `ai.models.generateContent`. */
  datatype Request = Request(model: string, contents: seq<Part>, responseMimeType: string)

  datatype Content = Content(parts: Option<seq<Part>>)
  datatype Candidate = Candidate(content: Option<Content>)
  datatype Response = Response(candidates: Option<seq<Candidate>>)

  /** What awaiting the provider call yields: a rejection, or a response. */
  datatype Outcome = Rejects | Resolves(response: Response)

  /** The provider, as seen by the handlers. */
  type Provider = Request -> Outcome

  /** The image part first, the prompt text second; the source's request layout. */
  predicate ImageThenText(r: Request, image: string, prompt: string)
  {
    && r.model == ModelName
    && r.responseMimeType == Jpeg
    && |r.contents| == 2
    && r.contents[0] == Part(Some(Blob(image, Jpeg)), None)
    && r.contents[1] == Part(None, Some(prompt))
  }

  /**
   The request the handlers send: the client's base64 image, unchanged and tagged as
   JPEG, followed by the rendered prompt; and it can be read back into both.
   */
  function BuildRequest(image: string, prompt: string): (r: Request)
    ensures ImageThenText(r, image, prompt)
    ensures ReadRequest(r) == Some((image, prompt))
  {
    Request(ModelName, [Part(Some(Blob(image, Jpeg)), None), Part(None, Some(prompt))], Jpeg)
  }

  /** The image and prompt of a request laid out as the handlers lay it out, if it is. */
  function ReadRequest(r: Request): Option<(string, string)>
  {
    if && r.model == ModelName && r.responseMimeType == Jpeg && |r.contents| == 2
       && r.contents[0].inlineData.Some? && r.contents[0].inlineData.value.mimeType == Jpeg
       && r.contents[0].text.None?
       && r.contents[1].inlineData.None? && r.contents[1].text.Some?
    then Some((r.contents[0].inlineData.value.data, r.contents[1].text.value))
    else None
  }

  /** Every request the reader accepts is the one built from what it reads. */
  lemma ReadRequestInverse(r: Request, image: string, prompt: string)
    requires ReadRequest(r) == Some((image, prompt))
    ensures BuildRequest(image, prompt) == r
  {
    assert r.contents == [r.contents[0], r.contents[1]];
  }

  // ---------------------------------------------------------------------------------------
  // Reading the response
  // ---------------------------------------------------------------------------------------

  /**
   `result.candidates[0].content.parts`: `None` when evaluating it throws, that is when
   there are no candidates, the first candidate has no content, or the content has no
   parts.
   */
  function CandidateParts(r: Response): (ps: Option<seq<Part>>)
    ensures ps.Some? <==> && r.candidates.Some? && |r.candidates.value| > 0
                          && r.candidates.value[0].content.Some?
                          && r.candidates.value[0].content.value.parts.Some?
    ensures ps.Some? ==> ps.value == r.candidates.value[0].content.value.parts.value
  {
    if r.candidates.None? || |r.candidates.value| == 0 then None
    else
      var first := r.candidates.value[0];
      if first.content.None? then None else first.content.value.parts
  }

  /** `k` is the position of the first part that carries inline data. */
  predicate IsFirstImage(ps: seq<Part>, k: int)
  {
    && 0 <= k < |ps|
    && ps[k].inlineData.Some?
    && forall j :: 0 <= j < k ==> ps[j].inlineData.None?
  }

  /**
   The position `Array.prototype.find` stops at when its test is `p.inlineData`: the
   first part with inline data, or `|ps|` when there is none.
   */
  function FirstImageIndex(ps: seq<Part>): (k: nat)
    ensures k <= |ps|
    ensures forall j :: 0 <= j < k ==> ps[j].inlineData.None?
    ensures k < |ps| ==> ps[k].inlineData.Some?
  {
    if |ps| == 0 then 0
    else if ps[0].inlineData.Some? then 0
    else
      var k := 1 + FirstImageIndex(ps[1..]);
      assert forall j :: 1 <= j < k ==> ps[j] == ps[1..][j - 1];
      k
  }

  /** The first-image position is the only one satisfying the definition. */
  lemma FirstImageIndexUnique(ps: seq<Part>, k: int)
    ensures IsFirstImage(ps, k) <==> k == FirstImageIndex(ps) < |ps|
  {
  }

  /** `parts.find((p) => p.inlineData)`. */
  function FindImagePart(ps: seq<Part>): (r: Option<Part>)
    ensures r.None? <==> forall j :: 0 <= j < |ps| ==> ps[j].inlineData.None?
    ensures r.Some? ==> IsFirstImage(ps, FirstImageIndex(ps)) && r.value == ps[FirstImageIndex(ps)]
  {
    var k := FirstImageIndex(ps);
    if k < |ps| then Some(ps[k]) else None
  }

  /** What the handlers make of a response. */
  datatype Extraction =
    | Malformed              // reading `candidates[0].content.parts` throws
    | NoImage                // the parts are readable but none carries inline data
    | Poster(data: string)   // the inline data of the first part that carries some

  /**
   Reads the generated image out of a response. The poster is the inline data of the
   first part that has any, passed through unchanged.
   */
  function Extract(r: Response): (x: Extraction)
    ensures x.Malformed? <==> CandidateParts(r).None?
    ensures x.NoImage? <==> && CandidateParts(r).Some?
                            && forall j :: 0 <= j < |CandidateParts(r).value| ==>
                                 CandidateParts(r).value[j].inlineData.None?
    ensures x.Poster? ==> exists k :: && IsFirstImage(CandidateParts(r).value, k)
                                      && x.data == CandidateParts(r).value[k].inlineData.value.data
  {
    match CandidateParts(r)
    case None => Malformed
    case Some(ps) =>
      match FindImagePart(ps)
      case None => NoImage
      case Some(p) => Poster(p.inlineData.value.data)
  }
}
