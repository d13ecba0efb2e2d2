/**
 What one press of the generate button does, stated case by case: which
 inputs are refused before any request, in which order the reply is read,
 and what becomes of `output` and `loading` on each path.
 */
module SubmitProperties {
  import opened Text
  import opened Workflow

  /** With no image or an empty prompt nothing is sent, the missing-input
      alert is shown, and the state (including `output` and `loading`) is
      left as it was, whatever the file size. */
  lemma MissingInputRefused(s: State, reply: FetchResult)
    requires s.image.None? || s.prompt == ""
    ensures Submit(s, reply) == Refused(MissingInputAlert)
    ensures After(s, reply) == s
  {
  }

  /** With both inputs present, the size check is the only gate: a file of
      more than 5,242,880 bytes is refused with the size alert and nothing
      is sent; a file of at most that size is sent. */
  lemma SizeLimit(s: State, reply: FetchResult)
    requires s.image.Some? && s.prompt != ""
    ensures Submit(s, reply).Refused? <==> s.image.value.size > 5242880
    ensures Submit(s, reply).Refused? ==> Submit(s, reply).alert == OversizeAlert && After(s, reply) == s
  {
  }

  /** A request is sent exactly when an image is present, the prompt is
      non-empty and the image is at most 5 MiB; once sent, `loading` is true
      for the round trip and false when the handler returns. */
  lemma RequestSentIff(s: State, reply: FetchResult)
    ensures Submit(s, reply).Settled? <==> s.image.Some? && s.prompt != "" && s.image.value.size <= 5242880
    ensures Submit(s, reply).Settled? ==> Submit(s, reply).inFlight.loading && !After(s, reply).loading
  {
  }

  /** A reply whose content type is missing or does not mention
      `application/json` fails with the format message, and neither its
      status nor its body is looked at. */
  lemma ContentTypeCheckedFirst(contentType: Option<string>, status1: nat, body1: Body, status2: nat, body2: Body)
    requires !IsJsonContentType(contentType)
    ensures Classify(Received(contentType, status1, body1)) == Failed(InvalidFormatReason)
    ensures Classify(Received(contentType, status1, body1)) == Classify(Received(contentType, status2, body2))
  {
  }

  /** A body that does not parse fails with the engine's own message, and
      the status is not consulted. */
  lemma UnparsableBodyIgnoresStatus(contentType: Option<string>, status: nat, reason: string)
    requires IsJsonContentType(contentType)
    ensures Classify(Received(contentType, status, Unparsable(reason))) == Failed(reason)
  {
  }

  /** A JSON `null` body parses, so the status is tested first; the failure
      is then the engine's message for reading `error` when the status is
      not OK, and for reading `imageUrl` when it is. */
  lemma NullBodyFailsOnFieldRead(contentType: Option<string>, status: nat, readingError: string, readingImageUrl: string)
    requires IsJsonContentType(contentType)
    ensures !IsOk(status) ==> Classify(Received(contentType, status, NullDocument(readingError, readingImageUrl))) == Failed(readingError)
    ensures IsOk(status) ==> Classify(Received(contentType, status, NullDocument(readingError, readingImageUrl))) == Failed(readingImageUrl)
  {
  }

  /** A failed status reports the server's `error` field when it is a
      non-empty string and otherwise the synthesised status message, from
      which the numeric status can be read back; the image URL is not
      consulted. */
  lemma HttpErrorReported(contentType: Option<string>, status: nat, error: Option<string>, imageUrl: Option<string>)
    requires IsJsonContentType(contentType) && !IsOk(status)
    ensures Truthy(error) ==> Classify(Received(contentType, status, Document(error, imageUrl))) == Failed(error.value)
    ensures !Truthy(error) ==> Classify(Received(contentType, status, Document(error, imageUrl))) == Failed(HttpErrorReason(status))
    ensures !Truthy(error) ==> ValueOf(HttpErrorReason(status)[|HttpErrorPrefix|..]) == status
  {
  }

  /** An accepted reply with an OK status and a non-empty `imageUrl` sets
      `output` to exactly that URL, raises no alert and clears `loading`. */
  lemma ImageUrlBecomesOutput(s: State, contentType: Option<string>, status: nat, error: Option<string>, url: string)
    requires Validate(s).Accept?
    requires IsJsonContentType(contentType) && IsOk(status) && url != ""
    ensures Submit(s, Received(contentType, status, Document(error, Some(url)))).failure == None
    ensures After(s, Received(contentType, status, Document(error, Some(url))))
         == s.(output := Some(url), loading := false)
  {
  }

  /** An OK reply with no `imageUrl`, or an empty one, fails with the
      missing-URL message and keeps the previous `output`. */
  lemma MissingImageUrl(s: State, contentType: Option<string>, status: nat, error: Option<string>, imageUrl: Option<string>)
    requires Validate(s).Accept?
    requires IsJsonContentType(contentType) && IsOk(status) && !Truthy(imageUrl)
    ensures Submit(s, Received(contentType, status, Document(error, imageUrl))).failure
         == Some(FailureAlert(NoImageUrlReason))
    ensures After(s, Received(contentType, status, Document(error, imageUrl))) == s.(loading := false)
  {
  }

  /** Every failure once the request is out, a network error included, is
      shown as the request-failure alert around its reason and leaves
      `output` as it was; `loading` is cleared on every path. */
  lemma FailureKeepsOutput(s: State, reply: FetchResult)
    requires Validate(s).Accept? && Classify(reply).Failed?
    ensures Submit(s, reply).failure == Some(FailureAlert(Classify(reply).reason))
    ensures ReasonOf(Submit(s, reply).failure.value) == Classify(reply).reason
    ensures After(s, reply) == s.(loading := false)
  {
  }

  /** A content type with parameters still counts as JSON; an HTML error
      page does not. */
  lemma ContentTypeExamples()
    ensures IsJsonContentType(Some("application/json; charset=utf-8"))
    ensures !IsJsonContentType(Some("text/html"))
    ensures !IsJsonContentType(Some("Application/JSON"))
  {
    assert OccursAt("application/json; charset=utf-8", "application/json", 0);
    var upper := "Application/JSON";
    assert !OccursAt(upper, "application/json", 0) by {
      assert upper[0] != 'a';
    }
  }

  /** A server error with a message of its own shows that message. */
  lemma ServerMessageExample(s: State)
    requires Validate(s).Accept?
    ensures Submit(s, Received(Some("application/json"), 500, Document(Some("overloaded"), None))).failure
         == Some(FailureAlert("overloaded"))
  {
    assert OccursAt("application/json", "application/json", 0);
  }
}
