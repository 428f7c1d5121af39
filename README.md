# Virtual try-on: verified model of the controller and the Gemini client

This project models the two pieces of logic in the virtual try-on web app:

- **The try-on client** (`services/geminiService.ts`, module `GeminiService`). It reads each
  selected file as a data URL and keeps the base64 payload after the comma. It builds one
  generate-content request with the person image, the clothing image and a fixed instruction,
  in that order. It scans the first candidate's response parts for the first one carrying
  inline data. Every `Error` thrown inside the `try` is rethrown with the prefix
  `Failed to generate image: `. The "did not return an image" error is thrown inside the
  `try`, so it gets that prefix too. Any other thrown value becomes an `Error` with the fixed
  message "An unexpected error occurred while calling the Gemini API.", which has no prefix.
  Module initialisation fails when the `API_KEY` value is unset or empty.
- **The application state controller** (`App.tsx`, module `TryOnApp`). This is the class
  `TryOnController`. Its fields are the app's seven `useState` values: two image slots, two
  previews, the generated image, the loading flag and the error. It has methods for image
  selection, preview loading, submit and completion, plus a model of a button click. It also
  defines the rendered content of the result area as a pure function of the state. The single
  `await virtualTryOn(...)` is split into two steps. `HandleVirtualTryOn` is everything before
  the await. `CompleteVirtualTryOn(outcome)` is everything after it, given how the call
  settled.
- **JavaScript value semantics** the two rely on (module `Js`): `null`/`undefined` as
  `Option`, string truthiness, `split` with a one-character separator and its inverse `join`,
  array indexing past the end (`undefined`), template interpolation of `undefined`, and
  promise settlement (resolved, or rejected with an `Error` or another value).

The hosted model is a parameter `api: Request -> Settled<Response>`, so the request it gets
is exactly the one the client builds. The file reader is also a parameter: what
`readAsDataURL` leaves in `reader.result`. React's state setters are modelled as immediate
assignments.

The predicates `CanTryOn` and `SubmitDisabled` of the controller are `canTryOn`
(App.tsx:51) and the button's `disabled` expression (App.tsx:77); `ClickTryOn`'s contract
states what they mean for a click. The methods `ScenarioOnePhoto`, `ScenarioSuccess` and
`ScenarioFailures` drive the controller and the client through the example flows: a
submit with one photo, a service answer holding one image part with payload `X`, and an
answer with no parts followed by a call that fails with "rate limited".

The controller's invariant `Valid()` says two things. While loading, both images are present
and no error or result is held. A held result comes with both images and no error, and it
starts with the JPEG data-URL prefix. Every method preserves `Valid()`. From it,
`CompleteVirtualTryOn` proves that exactly one of result and error is held afterwards.

In these places the code behaves differently from what its UI suggests:

- Submitting while a call is in flight is a no-op only because the button is `disabled`.
  `handleVirtualTryOn` itself has no loading guard. In the model this is the handler's
  `requires !isLoading`, a duty of its caller. `ClickTryOn` models the button and meets that
  duty.
- The result area does not pick one panel by priority. Each child has its own guard. It shows
  both the spinner and the error when both are set. `RenderResultArea` proves that this case
  is the only one where more than the priority panel shows, and `Valid()` rules it out.
- An empty error string is falsy, so it would show no error panel. The client never produces
  one, because every message it throws is non-empty.
- `split(',')[1]` of a string without a comma is `undefined`. The model keeps that
  (`InlineData.data` is an `Option`). A response blob whose `data` is missing reaches the app
  as `undefined`. The app then stores `data:image/jpeg;base64,undefined`.

## Model

| member | source | states |
|---|---|---|
| `Js.Split` | services/geminiService.ts:24 | `split(',')` gives at least one piece, no piece holds the separator, and there is more than one piece iff the separator occurs |
| `Js.JoinSplit` | services/geminiService.ts:24 | joining the pieces of a split gives back the original string |
| `Js.SplitJoin` | services/geminiService.ts:24 | splitting a join of separator-free pieces gives back the pieces (the inverse direction) |
| `GeminiService.InitService` | services/geminiService.ts:13-15 | initialisation fails with "API_KEY environment variable is not set" iff the key is unset or empty; otherwise the client carries the key |
| `GeminiService.ExtractPayload` | services/geminiService.ts:22-27 | a non-string reader result gives `""`; a string result gives a defined payload iff it has a comma, and that payload has no comma |
| `GeminiService.DataUrlPayload` | services/geminiService.ts:23-27 | for `data:<mime>;base64,<p>` with no comma in `<mime>` or `<p>`, the payload is exactly `<p>` |
| `GeminiService.FileToGenerativePart` | services/geminiService.ts:32-37 | the built part is inline and its MIME type is the file's own `type` |
| `GeminiService.RequestOrder` | services/geminiService.ts:42-56 | for two files read as data URLs, the request has the fixed model and exactly three parts: person payload with person type, clothing payload with clothing type, then the prompt |
| `GeminiService.PartsOf` | services/geminiService.ts:64 | a missing candidate list, an empty one, a missing content or a missing parts list reads as no parts; otherwise the parts are the first candidate's |
| `GeminiService.FirstInlineIndex` | services/geminiService.ts:64-68 | the index found is the first part with inline data: every earlier part has none, and it is `\|parts\|` only when no part has any |
| `GeminiService.FirstInline` | services/geminiService.ts:64-68 | the scan finds nothing iff no part carries inline data |
| `GeminiService.FirstInlineIgnoresLater` | services/geminiService.ts:64-68 | once a part with inline data is found, parts after it never change the result |
| `GeminiService.FirstInlineSkipsEmpty` | services/geminiService.ts:64-68 | parts without inline data are passed over and the scan continues with what follows |
| `GeminiService.FindInlineData` | services/geminiService.ts:64-68 | the `for ... of` loop with early return returns exactly the first-match result |
| `GeminiService.VirtualTryOn` | services/geminiService.ts:40-79 | returns the first inline data of the answer to the built request; no image gives "Failed to generate image: The AI did not return an image. …"; an Error `m` from the call gives "Failed to generate image: " + `m`; a non-Error throw gives the fixed unexpected-error message; every rejection is a non-empty `Error` |
| `TryOnApp.DisplayUrl` | App.tsx:42 | the stored result always starts with `data:image/jpeg;base64,` |
| `TryOnApp.DisplayedImageDecodes` | App.tsx:42 | the stored result decodes, by the client's own extraction, back to the payload the service returned |
| `TryOnApp.RenderResultArea` | App.tsx:85-104 | the area always shows something and puts the priority panel first; the spinner shows iff loading; the error panel shows iff the error is truthy; exactly the priority panel shows unless loading and a truthy error are both set, when spinner and error both show |
| `TryOnApp.TryOnController.constructor` | App.tsx:8-15 | all slots, previews, result and error start null, loading false, the invariant holds and the placeholder shows |
| `TryOnApp.TryOnController.HandleImageChange` | App.tsx:17-22 | only the chosen slot's file changes; previews, the other slot, result, loading and error are unchanged |
| `TryOnApp.TryOnController.HandlePreviewLoaded` | App.tsx:23-27 | only the chosen slot's preview becomes the reader result; nothing else changes |
| `TryOnApp.TryOnController.HandleVirtualTryOn` | App.tsx:30-38 | calls the service iff both images are present; otherwise the error becomes exactly "Please upload both images before proceeding." and loading and result are unchanged; when it calls, loading is set, error and result are cleared and the spinner alone shows |
| `TryOnApp.TryOnController.CompleteVirtualTryOn` | App.tsx:40-48 | loading ends; success stores the JPEG data-URL of the payload with no error; an Error stores its message, any other throw stores "An unknown error occurred.", with no result; exactly one of result and error is held afterwards |
| `TryOnApp.TryOnController.ClickTryOn` | App.tsx:76-77 | the handler runs iff the button is enabled (both images present per `canTryOn` at App.tsx:51, and not loading); a disabled click changes nothing; an enabled click always starts the call and shows the spinner alone; images and previews never change |

## Left out

- The `generateContent` call and the `@google/genai` types: the call is the parameter `api`, and only the response fields the code reads are modelled.
- FileReader and base64 encoding: the reader's result is a parameter. The encoding promise has no reject path, so encoding cannot fail in the source and no encoding error is modelled.
- The timing between `setImage` and the later `setPreview`: these are two separate steps, `HandleImageChange` and `HandlePreviewLoaded`, with no timing.
- React's asynchronous state updates and batching, and the stale closure of `useCallback`: the call uses the images captured at click time, but completion does not read the images, so the model does not track which files were sent.
- A second overlapping call: the handler requires `!isLoading` instead of modelling two calls in flight, because the source relies on the disabled button for this.
- Console logging, including the API-key metadata log, and the build-time key plumbing in `vite.config.ts`: these are diagnostic or configuration only.
- JSX markup, styling, the header's theme toggle, the spinner's SVG and the uploader's file-picker plumbing (`components/`): these are presentation only.
- The `accept` file-type filter: the browser enforces it, not this code.
- `TryOnApp.TryOnController.HandleVirtualTryOn`: does not model the loading-while-loading case, because its `requires !isLoading` excludes it (see above).
