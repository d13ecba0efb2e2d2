/**
 The upload-and-generate workflow of the Ghibli art page: four pieces of
 component state, the file-picker handler, the prompt input's change
 handler, and the submit handler, which validates its inputs, sends one
 request and turns the reply into either a new output image or an alert.
 The network round trip is an input here: `Submit` is given the
 `FetchResult` that the request would settle with.
 */
module Workflow {
  import opened Text

  datatype Option<+T> = None | Some(value: T)

  /** JavaScript truthiness of a field that is absent or a string:
      `undefined` and `""` are falsy, every other string is truthy. */
  predicate Truthy(field: Option<string>)
  {
    field.Some? && field.value != ""
  }

  /** A picked file; only its byte size matters to the workflow. */
  datatype File = File(size: nat)

  /** The component's state: `image`, `prompt`, `output`, `loading`. */
  datatype State = State(image: Option<File>, prompt: string, output: Option<string>, loading: bool)

  /** The state the page mounts with. */
  const Initial: State := State(None, "", None, false)

  /** The parsed body of a reply. `Document` is any JSON value other than
      `null`: a value that is not an object has neither field. */
  datatype Body =
    | Unparsable(reason: string)    // `response.json()` rejected, with the engine's message
    | NullDocument(readingError: string, readingImageUrl: string)
      // the body is JSON `null`: reading `.error` (failed status) or `.imageUrl`
      // (OK status) throws, with the engine's message for that field
    | Document(error: Option<string>, imageUrl: Option<string>)

  /** How the request settles: `fetch` rejects, or a response arrives. */
  datatype FetchResult =
    | NetworkError(reason: string)
    | Received(contentType: Option<string>, status: nat, body: Body)

  /** What the reply means for the page. */
  datatype Outcome = Generated(url: string) | Failed(reason: string)

  /** Largest accepted upload: 5 MiB. */
  const MaxImageBytes: nat := 5 * 1024 * 1024

  const MissingInputAlert: string := "Please upload an image and enter a prompt"
  const OversizeAlert: string := "Image size should be less than 5MB"
  const InvalidFormatReason: string := "Invalid response format from server"
  const NoImageUrlReason: string := "No image URL in response"
  const HttpErrorPrefix: string := "HTTP error! status: "
  const FailurePrefix: string := "Failed to generate art: "
  const FailureSuffix: string := ". Please try again with a different image or prompt."

  /** `response.ok`: the status is in the range 200 to 299. */
  predicate IsOk(status: nat)
  {
    200 <= status <= 299
  }

  /** The content-type header is present, non-empty and mentions
      `application/json` anywhere, in that exact case. */
  predicate IsJsonContentType(contentType: Option<string>)
  {
    contentType.Some? && contentType.value != "" && Includes(contentType.value, "application/json")
  }

  /** The message synthesised for a failed status without a server message. */
  function HttpErrorReason(status: nat): (m: string)
    ensures |m| > |HttpErrorPrefix| && m[..|HttpErrorPrefix|] == HttpErrorPrefix
    ensures forall i :: |HttpErrorPrefix| <= i < |m| ==> IsDigit(m[i])
    ensures ValueOf(m[|HttpErrorPrefix|..]) == status
    ensures m[|HttpErrorPrefix|] == '0' ==> m == HttpErrorPrefix + "0"
  {
    var m := HttpErrorPrefix + Decimal(status);
    assert m[|HttpErrorPrefix|..] == Decimal(status);
    DecimalRoundTrip(status);
    m
  }

  /** The alert for any failure after the request was issued. */
  function FailureAlert(reason: string): (a: string)
    ensures |a| == |FailurePrefix| + |reason| + |FailureSuffix|
    ensures a[..|FailurePrefix|] == FailurePrefix
    ensures a[|FailurePrefix|..|FailurePrefix| + |reason|] == reason
    ensures a[|FailurePrefix| + |reason|..] == FailureSuffix
  {
    FailurePrefix + reason + FailureSuffix
  }

  /** The shape every request-failure alert has. */
  predicate IsFailureAlert(a: string)
  {
    |a| >= |FailurePrefix| + |FailureSuffix|
    && a[..|FailurePrefix|] == FailurePrefix
    && a[|a| - |FailureSuffix|..] == FailureSuffix
  }

  /** The reason carried inside a request-failure alert. */
  function ReasonOf(a: string): string
    requires IsFailureAlert(a)
  {
    a[|FailurePrefix|..|a| - |FailureSuffix|]
  }

  /** The reason can be read back out of the alert that shows it, so no two
      reasons produce the same alert. */
  lemma FailureAlertRoundTrip(reason: string)
    ensures IsFailureAlert(FailureAlert(reason))
    ensures ReasonOf(FailureAlert(reason)) == reason
  {
  }

  /** Neither alert raised before the request looks like a request-failure
      alert, so the user can tell "nothing was sent" from "sending failed". */
  lemma ValidationAlertsAreDistinct()
    ensures !IsFailureAlert(MissingInputAlert)
    ensures !IsFailureAlert(OversizeAlert)
  {
  }

  /** `handleUpload`: a picked file replaces `image`; cancelling the picker
      (no file) changes nothing. */
  function HandleUpload(s: State, picked: Option<File>): (r: State)
    ensures r.prompt == s.prompt && r.output == s.output && r.loading == s.loading
    ensures r.image == (if picked.Some? then picked else s.image)
  {
    if picked.Some? then s.(image := picked) else s
  }

  /** Typing in the prompt box stores the text verbatim. */
  function EditPrompt(s: State, text: string): (r: State)
    ensures r.prompt == text
    ensures r.image == s.image && r.output == s.output && r.loading == s.loading
  {
    s.(prompt := text)
  }

  datatype Verdict = Accept | Reject(alert: string)

  /** The two checks made before any request, in order: inputs present,
      then the file size. */
  function Validate(s: State): (v: Verdict)
    ensures v.Accept? <==> s.image.Some? && s.prompt != "" && s.image.value.size <= MaxImageBytes
    ensures v.Reject? ==> v.alert == MissingInputAlert || v.alert == OversizeAlert
  {
    if s.image.None? || s.prompt == "" then Reject(MissingInputAlert)
    else if s.image.value.size > MaxImageBytes then Reject(OversizeAlert)
    else Accept
  }

  /** Reading the settled request in the order the handler does: content
      type, then the body, then the status, then the image URL. */
  function Classify(reply: FetchResult): (o: Outcome)
    ensures o.Generated?
        <==> reply.Received? && IsJsonContentType(reply.contentType) && reply.body.Document?
             && IsOk(reply.status) && Truthy(reply.body.imageUrl)
    ensures o.Generated? ==> Some(o.url) == reply.body.imageUrl && o.url != ""
  {
    match reply
    case NetworkError(reason) => Failed(reason)
    case Received(contentType, status, body) =>
      if !IsJsonContentType(contentType) then Failed(InvalidFormatReason)
      else
        match body
        case Unparsable(reason) => Failed(reason)
        case NullDocument(readingError, readingImageUrl) =>
          if !IsOk(status) then Failed(readingError) else Failed(readingImageUrl)
        case Document(error, imageUrl) =>
          if !IsOk(status) then Failed(if Truthy(error) then error.value else HttpErrorReason(status))
          else if Truthy(imageUrl) then Generated(imageUrl.value)
          else Failed(NoImageUrlReason)
  }

  /** One press of the generate button. */
  datatype Submission =
    | Refused(alert: string)  // stopped by validation: no request, state untouched
    | Settled(inFlight: State, final: State, failure: Option<string>)  // a request was sent

  /** `generateGhibliArt` run to completion against the reply its request
      settles with. */
  function Submit(s: State, reply: FetchResult): (t: Submission)
    ensures t.Refused? <==> Validate(s).Reject?
    ensures t.Refused? ==> t.alert == MissingInputAlert || t.alert == OversizeAlert
    ensures t.Settled? ==> t.inFlight == s.(loading := true)
    ensures t.Settled? ==> !t.final.loading && t.final.image == s.image && t.final.prompt == s.prompt
    ensures t.Settled? ==> (t.failure.None? <==> Classify(reply).Generated?)
    ensures t.Settled? && t.failure.Some? ==> t.final.output == s.output && IsFailureAlert(t.failure.value)
    ensures t.Settled? && t.failure.None? ==> t.final.output == Some(Classify(reply).url)
  {
    match Validate(s)
    case Reject(alert) => Refused(alert)
    case Accept =>
      var inFlight := s.(loading := true);
      match Classify(reply)
      case Generated(url) => Settled(inFlight, inFlight.(output := Some(url), loading := false), None)
      case Failed(reason) =>
        FailureAlertRoundTrip(reason);
        Settled(inFlight, inFlight.(loading := false), Some(FailureAlert(reason)))
  }

  /** The state the page is left in once the handler has returned. */
  function After(s: State, reply: FetchResult): State
  {
    match Submit(s, reply)
    case Refused(_) => s
    case Settled(_, final, _) => final
  }
}
