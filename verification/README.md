# Ghibli art page: the upload-and-generate workflow in Dafny

The page holds four pieces of component state: the picked `image`, the
`prompt` text, the generated `output` URL and the `loading` flag. Three
handlers change that state:

- `handleUpload` stores a picked file.
- The prompt input's `onChange` stores the typed text verbatim
  (`EditPrompt`).
- `generateGhibliArt` first refuses a missing image, an empty prompt or a
  file over 5 MiB. It then sets `loading`, posts the file and the prompt,
  and reads the reply in a fixed order: content type, then body, then
  status, then `imageUrl`. It either shows the new image or raises an
  alert, and always clears `loading` at the end.

This project models that workflow as pure functions over immutable
datatypes. The network round trip is not performed. It is an input: a
`FetchResult` is either a network error or a received reply with a content
type, a status and a parsed body. `Submit` is given the reply that its
request would settle with. Each alert is returned as a string value.

Modules:

- `Text` (`text.dfy`): `String.prototype.includes`, used on the content
  type, and the decimal rendering of the status in a template literal. Each
  has an independent reference definition and a proof connecting the two.
- `Workflow` (`workflow.dfy`): the state, the reply, the messages,
  `HandleUpload`, `EditPrompt`, `Validate`, `Classify` and `Submit`.
- `SubmitProperties` (`submit_properties.dfy`): one lemma per path through
  the submit handler.
- `Session` (`session.dfy`): the page as a sequence of user events handled
  one after another, with invariants proved by induction over the sequence.

Behaviour of the code that the model keeps as written:

- The code never clears `output`. A failed or refused attempt leaves the old
  image on display.
- The code accepts any content type that contains the text
  `application/json`, matched case-sensitively, so
  `application/json; charset=utf-8` passes and `Application/JSON` does not
  (`SubmitProperties.ContentTypeExamples`).
- A JSON `null` body parses, so the status is tested first. The handler
  then throws while reading `result.error` on a failed status, or
  `result.imageUrl` on an OK status. The engine's message for each read is
  carried separately (`SubmitProperties.NullBodyFailsOnFieldRead`).
- A submission refused by validation does not touch `loading` at all. Only a
  request that was actually sent sets `loading` and then clears it.
- The size alert says "less than 5MB". The guard is `size > 5 * 1024 * 1024`,
  so a file of exactly 5,242,880 bytes is accepted. The model keeps the
  guard as written (`SubmitProperties.SizeLimit`).

`response.ok` is not a free flag in the model. It is derived from the
status as the Fetch Standard defines it: a status from 200 to 299.

## Model

| member | source | states |
|---|---|---|
| Text.Includes | src/GhibliArtApp.jsx:46 | `contentType.includes(p)` is true exactly when `p` occurs at some index of the content type |
| Text.OccursInTail | src/GhibliArtApp.jsx:46 | an occurrence in the tail of a string is an occurrence one place later in the whole string, and every occurrence past index 0 arises this way |
| Text.Decimal | src/GhibliArtApp.jsx:54 | the status written into the message is a non-empty string of decimal digits with no leading zero |
| Text.DecimalRoundTrip | src/GhibliArtApp.jsx:54 | reading the rendered status back as a decimal numeral gives the status |
| Text.DecimalInjective | src/GhibliArtApp.jsx:54 | two different statuses never produce the same numeral |
| Workflow.HttpErrorReason | src/GhibliArtApp.jsx:54 | the synthesised HTTP error message starts with `HTTP error! status: ` and is followed by digits that denote exactly the status, with no leading zero unless the status is 0, so it is exactly `${response.status}` |
| Workflow.FailureAlert | src/GhibliArtApp.jsx:64 | the request-failure alert is the fixed prefix, then the reason, then the fixed "try again" suffix |
| Workflow.FailureAlertRoundTrip | src/GhibliArtApp.jsx:64 | the reason can be recovered from the alert that shows it, so distinct reasons give distinct alerts |
| Workflow.ValidationAlertsAreDistinct | src/GhibliArtApp.jsx:21-30 | neither validation alert has the shape of a request-failure alert |
| Workflow.HandleUpload | src/GhibliArtApp.jsx:13-18 | a picked file replaces `image`; with no file nothing changes; `prompt`, `output` and `loading` are never touched |
| Workflow.EditPrompt | src/GhibliArtApp.jsx:96 | the prompt input stores its text verbatim and changes nothing else |
| Workflow.Validate | src/GhibliArtApp.jsx:21-30 | validation accepts exactly when an image is present, the prompt is non-empty and the size is at most 5 MiB; every rejection carries one of the two validation alerts |
| Workflow.Classify | src/GhibliArtApp.jsx:38-61 | a reply yields an image exactly when it is JSON by content type, has a non-null document body, an OK status and a non-empty `imageUrl`, and the image is exactly that `imageUrl` |
| Workflow.Submit | src/GhibliArtApp.jsx:20-68 | refused exactly when validation rejects; once sent, `loading` is true in flight and false at the end, `image` and `prompt` are kept, there is no alert exactly when the reply yields an image, a failure keeps `output` and shows a request-failure alert, and a success sets `output` to the reply's URL |
| SubmitProperties.MissingInputRefused | src/GhibliArtApp.jsx:21-24 | no image or an empty prompt: no request, the missing-input alert, the whole state unchanged, even if the file is also too large |
| SubmitProperties.SizeLimit | src/GhibliArtApp.jsx:26-30 | with both inputs present, refusal happens exactly when the size exceeds 5,242,880 bytes, with the size alert and the state unchanged |
| SubmitProperties.RequestSentIff | src/GhibliArtApp.jsx:21-32 | a request is sent exactly when all validation passes; it is sent with `loading` true and the handler returns with `loading` false |
| SubmitProperties.ContentTypeCheckedFirst | src/GhibliArtApp.jsx:45-48 | a missing or non-JSON content type fails with "Invalid response format from server" whatever the status and body |
| SubmitProperties.UnparsableBodyIgnoresStatus | src/GhibliArtApp.jsx:50-53 | a body that does not parse fails with the engine's message whatever the status |
| SubmitProperties.NullBodyFailsOnFieldRead | src/GhibliArtApp.jsx:50-57 | a JSON `null` body fails with the engine's message for reading `error` on a failed status, and for reading `imageUrl` on an OK status |
| SubmitProperties.HttpErrorReported | src/GhibliArtApp.jsx:53-55 | a non-OK status reports the `error` field if it is a non-empty string, else `HTTP error! status: <status>`, from which the status reads back; `imageUrl` is ignored |
| SubmitProperties.ImageUrlBecomesOutput | src/GhibliArtApp.jsx:57-58 | an OK JSON reply with a non-empty `imageUrl` sets `output` to exactly that URL, raises no alert and clears `loading` |
| SubmitProperties.MissingImageUrl | src/GhibliArtApp.jsx:57-61 | an OK JSON reply with no or an empty `imageUrl` alerts "No image URL in response" and keeps `output` |
| SubmitProperties.FailureKeepsOutput | src/GhibliArtApp.jsx:62-67 | every failure after the request, a network error included, alerts "Failed to generate art: <reason>. …", keeps `output` and clears `loading` |
| SubmitProperties.ContentTypeExamples | src/GhibliArtApp.jsx:46 | `application/json; charset=utf-8` is accepted; `text/html` and `Application/JSON` are not |
| SubmitProperties.ServerMessageExample | src/GhibliArtApp.jsx:53-54 | a 500 reply with `error: "overloaded"` alerts with exactly that reason |
| Session.LoadingNeverStuck | src/GhibliArtApp.jsx:32-67 | starting idle, `loading` is false after any sequence of picks, edits and presses |
| Session.OutputComesFromSentReplies | src/GhibliArtApp.jsx:57-58 | `output` is always either its starting value or the URL from a successful reply to a request that validation let through |
| Session.ImageComesFromPicks | src/GhibliArtApp.jsx:13-17 | `image` is always either its starting value or a file the user picked |
| Session.InitialOutputFromReplies | src/GhibliArtApp.jsx:8-11 | from the freshly mounted page, any displayed result came from a reply to a sent request, and `loading` is false between events |
| Session.PickThenPress | src/GhibliArtApp.jsx:13-30 | after picking a file with a non-empty prompt, pressing sends a request exactly when that file is at most 5 MiB |
| Session.CancelledPickIsInvisible | src/GhibliArtApp.jsx:13-17 | a cancelled file pick has no effect on anything that follows |

## Left out

- `fetch`, `FormData`, the hard-coded endpoint address, `alert` and `console` are I/O and platform calls. The reply is an input to `Submit`, each alert is a returned string, and logging is dropped.
- The message inside an `Unparsable`, `NullDocument` or `NetworkError` reply is whatever the JavaScript engine or the browser produces. It is carried as an opaque string.
- The `error` and `imageUrl` fields are modelled as absent or a string. A non-string JSON value in either field is not modelled: a truthy number or object would be converted to text by `new Error(…)`, or stored as-is in `output`.
- Overlapping submissions are not modelled. The code does not guard against them, and the order in which asynchronous completions arrive is concurrency. Each press is handled to completion before the next event.
- The JSX rendering, the `URL.createObjectURL` preview, and the button's disabled state and label (src/GhibliArtApp.jsx:70-126) are presentation only.
- `handleUpload` reads `event.target.files[0]`. The DOM event is reduced to the file it yields, or none.
- A file's contents and MIME type are not modelled; only its byte size matters to the workflow.
- The status is modelled as a non-negative integer. Fetch statuses are always in that range.
- src/App.jsx (routing shell), src/components/ui/card.jsx (class-name wrappers) and vite.config.js (build and dev proxy) hold no workflow logic.
