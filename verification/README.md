# Poster relay: a Dafny model

The relay takes a product photo (base64 JPEG), a product description and the name of a
poster style. It renders a style-specific prompt, sends the image and the prompt to an
image-generation provider, and returns the first inline image of the provider's answer.
It is deployed twice:
- as a callable cloud function, `generatePoster` in `mboka_ai/functions/index.js`;
- as a serverless HTTP handler in `mboka_ai_backend/api/generate-poster.js`.

This project models both handlers as pure functions. The provider is an arbitrary input
function from request to outcome: it either rejects, or resolves with a response. Each
handler returns what it answers together with the provider requests it made. That makes
"no provider call" and "exactly one provider call with this payload" statements about
the result.

Modules:
- `Js` (js.dfy): optional values for `undefined`/`null`, and JavaScript truthiness of a
  string field.
- `Relay` (relay.dfy): the template table, shared by both handlers because both declare
  the same three keys with the same three prompt texts. It also holds prompt rendering,
  the combined input check, and the request an accepted input is sent as. Template lookup is JavaScript property
  access, so the twelve member names inherited from `Object.prototype` (`toString`,
  `constructor`, ...) are found as well. `Lookup.OwnKeysOnly` is the corrected lookup.
- `Gemini` (gemini.dfy): the request layout (image part, then text part), the response
  shape, `candidates[0].content.parts`, and `parts.find((p) => p.inlineData)`.
- `FirebaseHandler` (firebase.dfy): the callable handler as written (`Handle`) and as
  evidently intended (`HandleIntended`).
- `VercelHandler` (vercel.dfy): the HTTP handler as written (`Handle`) and as evidently
  intended (`HandleIntended`).
- `Agreement` (agreement.dfy): the two deployments compared on the same request. The
  callable outcome is read through the status the callable protocol reports it with.

Two behaviours of the code differ from what the code itself evidently means (see
Findings):
- The callable handler raises `HttpsError("internal", "AI did not return a valid image.")`
  for a response without an image (mboka_ai/functions/index.js:97). It raises it inside its
  own `try`, so the caller sees `unavailable` instead.
- Both handlers guard with `!TEMPLATES[templateName]` (mboka_ai/functions/index.js:63,
  mboka_ai_backend/api/generate-poster.js:44), which is meant to refuse unknown names.
  Property access lets inherited member names through that check.

## Model

| member | source | states |
|---|---|---|
| `Relay.Index` | mboka_ai/functions/index.js:44-54 | `TEMPLATES[name]` finds a template exactly for the three keys, each naming its own style. It finds a truthy member without a `prompt` exactly for the inherited names. Everything else is undefined. |
| `Relay.Resolve` | mboka_ai_backend/api/generate-poster.js:7-17 | The two lookup disciplines agree on the three keys. Only property access finds inherited members. |
| `Relay.TableKeys` | mboka_ai/functions/index.js:44-54 | The table holds a template exactly for "Elegant Studio", "Warm Bakery" and "Vibrant Market", and each style's key leads back to that style. |
| `Relay.Frame` | mboka_ai/functions/index.js:46-52 | A rendered prompt contains "The product is: " + desc + "." right after the style's opening, and the description verbatim inside it. |
| `Relay.Prompt` | mboka_ai/functions/index.js:46-52 | For every style, the prompt contains the product sentence with the description verbatim at a fixed offset. |
| `Relay.UnframeFrame` | mboka_ai_backend/api/generate-poster.js:9-15 | Reading a framed prompt yields the description it was framed around. |
| `Relay.FrameUnframe` | mboka_ai_backend/api/generate-poster.js:9-15 | Any text the reader accepts is exactly the frame around what it reads. |
| `Relay.PromptRoundTrip` | mboka_ai/functions/index.js:78 | Rendering a prompt loses nothing: the description is read back unchanged. |
| `Relay.DescriptionOfInverse` | mboka_ai_backend/api/generate-poster.js:56 | Every prompt-shaped text of a style is the rendering of the description read from it. |
| `Relay.PromptInjective` | mboka_ai/functions/index.js:46-52 | Different descriptions never render the same prompt of one style. |
| `Relay.Validate` | mboka_ai/functions/index.js:63-65 | The check passes if and only if image, description and name are present and non-empty and the lookup finds something. Passing fields are forwarded unchanged, together with the entry found. |
| `Relay.ValidateAdmits` | mboka_ai_backend/api/generate-poster.js:44-46 | Under property access, exactly the complete inputs naming a key or an inherited member pass. Under own-key lookup, exactly those naming one of the three keys pass, always with a template. |
| `Relay.RequestFor` | mboka_ai/functions/index.js:67-87 | An accepted input is sent as its image unchanged and the prompt of its style, from which its description reads back. |
| `Gemini.BuildRequest` | mboka_ai/functions/index.js:70-92 | The request is exactly [inline part with the image unchanged and type "image/jpeg", text part with the prompt], with the fixed model and JPEG response type. It reads back into the same image and prompt. |
| `Gemini.ReadRequestInverse` | mboka_ai_backend/api/generate-poster.js:49-68 | A request laid out as the handlers lay it out is the one built from its image and prompt. |
| `Gemini.CandidateParts` | mboka_ai/functions/index.js:95 | `candidates[0].content.parts` is readable exactly when there is a first candidate with content and parts, and it is those parts. |
| `Gemini.FirstImageIndex` | mboka_ai/functions/index.js:95 | `find` stops at a part with inline data with none before it, or runs past the end when no part has any. |
| `Gemini.FirstImageIndexUnique` | mboka_ai_backend/api/generate-poster.js:71 | The first-image position is the only position meeting the definition. |
| `Gemini.FindImagePart` | mboka_ai_backend/api/generate-poster.js:71 | `find` yields nothing exactly when no part carries inline data; otherwise it yields the first part that does. |
| `Gemini.Extract` | mboka_ai/functions/index.js:95-103 | Unreadable parts, no image part, or a poster equal to the inline data of the first image part, unchanged. |
| `FirebaseHandler.TryBody` | mboka_ai/functions/index.js:80-103 | Inside the `try`, the call succeeds exactly when the provider resolves with an image part, and returns that part's data. A rejection is a provider failure. A response without an image part raises `HttpsError("internal", "AI did not return a valid image.")`, and unreadable parts raise a TypeError. |
| `FirebaseHandler.Catch` | mboka_ai/functions/index.js:104-110 | The catch keeps a success and turns every exception into the generic `unavailable` error. The corrected clause lets structured errors through and turns every other exception into the same `unavailable` error. |
| `FirebaseHandler.Run` | mboka_ai/functions/index.js:56-111 | Order of checks: authentication, then data, then the combined check, then the template's builder. Only an admitted call reaches the provider, once, through the catch. |
| `FirebaseHandler.Handle` | mboka_ai/functions/index.js:56-111 | No auth context gets `unauthenticated` with no provider call. Failed checks get `invalid-argument` with no call. Exactly one call, with the image and rendered prompt, happens if and only if admitted. Success holds exactly when the provider answers with an image, whose data is returned unchanged. Every failure after admission is the generic `unavailable`, so `internal` is never raised. Null data and inherited names escape uncaught. |
| `FirebaseHandler.HandleIntended` | mboka_ai/functions/index.js:63-98 | Any name outside the three keys gets `invalid-argument`. A response without an image gets `internal` with its own message. Only null data escapes. |
| `FirebaseHandler.IntendedDiffersOnlyOnFindings` | mboka_ai/functions/index.js:56-111 | The written and corrected handlers agree on every call other than an inherited name or an imageless response. |
| `FirebaseHandler.NoImageReportedUnavailable` | mboka_ai/functions/index.js:96-109 | A valid call answered with text only gets `unavailable`, where the corrected handler gets `internal` "AI did not return a valid image.". |
| `FirebaseHandler.InheritedNameCrashes` | mboka_ai/functions/index.js:63-78 | "toString" passes the check and the handler crashes with no provider call. The corrected handler refuses it with `invalid-argument`. |
| `FirebaseHandler.WarmBakeryScenario` | mboka_ai/functions/index.js:95-103 | A Warm Bakery request answered with a text part then an image returns that image's data. |
| `FirebaseHandler.UnknownStyleScenario` | mboka_ai/functions/index.js:63-65 | "Neon Future" is refused with `invalid-argument` and no provider call. |
| `VercelHandler.Respond` | mboka_ai_backend/api/generate-poster.js:59-89 | Once the provider has answered: 200 with the first image's data, 500 "AI did not return a valid image." when there is none, and 503 exactly for a rejection or unreadable parts. |
| `VercelHandler.Serve` | mboka_ai_backend/api/generate-poster.js:20-90 | Order of checks: OPTIONS, method, key, body, combined check, builder. Every path carries the CORS headers, and only an admitted request reaches the provider. |
| `VercelHandler.Handle` | mboka_ai_backend/api/generate-poster.js:20-90 | All responses carry the three CORS headers. OPTIONS gets 200 with no body. Other non-POST methods get 405. A POST without a key gets 500 with no call. Failed checks get 400 with no call. Exactly one call happens if and only if admitted. 200 with a success body holds exactly when the provider answers with an image, passed through unchanged. No image gets 500, never 503. 503 with the generic message holds exactly for an absent body, an inherited name, a rejection or unreadable parts. |
| `VercelHandler.HandleIntended` | mboka_ai_backend/api/generate-poster.js:44-56 | Any name outside the three keys gets 400. On every request other than a complete POST naming an inherited member, it answers exactly as the written handler does. |
| `VercelHandler.InheritedNameUnavailable` | mboka_ai_backend/api/generate-poster.js:44-56 | "toString" gets 503 from the written handler and 400 from the corrected one. |
| `Agreement.SameProviderTraffic` | mboka_ai_backend/api/generate-poster.js:41-81 | For the same fields, both deployments make the same provider calls, succeed in the same cases and return the same poster. |
| `Agreement.AsWrittenStatusesDiffer` | mboka_ai_backend/api/generate-poster.js:71-89 | As written, the deployments' statuses coincide if and only if the name is not an inherited member and the response does not lack an image. |
| `Agreement.IntendedStatusesAgree` | mboka_ai/functions/index.js:96-110 | With both corrections, the two deployments report the same status on every authenticated POST with a key. |

## Findings

| source | as written | input that shows it | evidently intended | confidence | as-written member | corrected member |
|---|---|---|---|---|---|---|
| mboka_ai/functions/index.js:96-110 | The `internal` "AI did not return a valid image." error is thrown inside the `try`. The `catch` turns it into `unavailable`. | Valid Warm Bakery call; the provider answers with one text part and no inline data | The caller gets `internal` with that message, as the HTTP handler returns 500 | high (not executed) | `FirebaseHandler.NoImageReportedUnavailable` | `FirebaseHandler.HandleIntended` |
| mboka_ai/functions/index.js:63-78 | `!TEMPLATES[templateName]` is false for inherited member names. `template.prompt(...)`, outside the `try`, then throws a TypeError that escapes the handler. | `templateName: "toString"` with image and description present | Refused with `invalid-argument` and no provider call | high (not executed) | `FirebaseHandler.InheritedNameCrashes` | `FirebaseHandler.HandleIntended` |
| mboka_ai_backend/api/generate-poster.js:44-56 | The same check lets inherited names through. The TypeError from `template.prompt(...)` inside the `try` gives 503. | POST with `templateName: "toString"` | 400 "Missing or invalid input parameters." | high (not executed) | `VercelHandler.InheritedNameUnavailable` | `VercelHandler.HandleIntended` |

## Left out

- The provider client (`new GoogleGenAI`, `ai.models.generateContent`) is a foreign network call. It is an arbitrary input function from request to outcome. The model does not check whether the HTTP handler's client construction can throw.
- Platform setup is not modelled: `setGlobalOptions`, `maxInstances`, and reading the key through `functions.config()` or `process.env`. The HTTP handler's key is an input. The callable module reads its key when the module loads, outside the handler, so a missing key there is not modelled.
- The HTTP handler's key check is modelled as the truthiness of an optional string, which covers unset and empty keys.
- Logging (`console.error`, `logger`) has no effect on any answer and is left out.
- Request fields are optional strings. Non-string JSON values (numbers, objects, arrays) and their truthiness and string conversion are not modelled.
- An image part whose `inlineData` lacks `data` is not modelled: every blob carries a data string.
- The callable platform's wire mechanics (`onCall`, `HttpsError` serialisation) are not modelled, nor its rejection of requests without a `data` field. `Agreement.CallableStatus` uses only the protocol's code-to-status mapping. An uncaught non-`HttpsError` exception is read as `internal`.
- JSON serialisation of responses, and base64 or JPEG validity of the image data, are not modelled; neither handler checks them.
- Only the product-sentence part of each prompt's wording is stated in contracts. The full wording is modelled as constants.
- The callable model assumes `functions.https.onCall` invokes the handler as `(data, context)`, the first-generation callable signature, so `context.auth` is the caller's authentication. The firebase-functions version in use is not part of this model. If the export were the second-generation `onCall`, which passes one request object, `context.auth` would never be set.
- Headers the HTTP framework adds itself, such as the `Content-Type` that `res.json` sets, are not modelled. A response's `headers` field holds only the headers the handler sets, which are the three CORS headers.
