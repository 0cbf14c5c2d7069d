/** The closed set of error values the UAA client produces, and their
    `Error()` renderings (api/uaa/uaa_connection_errors.go, plus the
    `UAAErrorResponse` struct of api/uaa/errors.go). */
module UaaConnectionErrors {
  import opened Wrappers
  import opened Text

  /** Every error kind is a flat struct; `Other` stands for an error value of a
      type declared outside these files (an encoder failure, a Cloud Controller
      error), known only through its `Error()` text. */
  datatype Error =
    | UAAErrorResponse(errorType: string, description: string)
    | UnverifiedServerError(url: string)
    | RequestError(err: Error)
    | InvalidAuthTokenError(message: string)
    | RawHTTPStatusError(statusCode: int, rawResponse: seq<byte>)
    | Other(text: string)

  /** The Go struct types, as subsets of the error sum. */
  type UAAErrorResponseValue = e: Error | e.UAAErrorResponse? witness UAAErrorResponse("", "")
  type RawHTTPStatusErrorValue = e: Error | e.RawHTTPStatusError? witness RawHTTPStatusError(0, [])

  const UnknownAuthorityMessage := "x509: certificate signed by unknown authority"
  const TypeLabel := "Error Type: "
  const DescriptionLabel := "\nDescription: "
  const CodeLabel := "Error Code: "
  const RawResponseLabel := "\nRaw Response: "

  /** Go's `Error()` method on each kind other than `RequestError`. */
  function KindMessage(e: Error): string
    requires !e.RequestError?
  {
    match e
    case UAAErrorResponse(t, d) => TypeLabel + t + DescriptionLabel + d
    case UnverifiedServerError(_) => UnknownAuthorityMessage
    case InvalidAuthTokenError(m) => m
    case RawHTTPStatusError(code, raw) => CodeLabel + FormatInt(code) + RawResponseLabel + BytesAsText(raw)
    case Other(t) => t
  }

  /** Go's `Error()` method: a request error defers to the error it wraps, so
      every error renders as its innermost cause does. */
  function Message(e: Error): (r: string)
    ensures r == KindMessage(Cause(e))
  {
    if e.RequestError? then Message(e.err) else KindMessage(e)
  }

  /** Reads a `RawHTTPStatusError` back from its rendering. */
  function ParseRawHTTPStatusMessage(s: string): Option<RawHTTPStatusErrorValue>
  {
    match SplitLabelled(s, CodeLabel, RawResponseLabel)
    case None => None
    case Some((code, raw)) =>
      match (ParseInt(code), TextAsBytes(raw))
      case (Some(c), Some(b)) => Some(RawHTTPStatusError(c, b))
      case _ => None
  }

  /** Reads a `UAAErrorResponse` back from its rendering, taking the type to
      end at the first line break. */
  function ParseUAAErrorMessage(s: string): Option<UAAErrorResponseValue>
  {
    match SplitLabelled(s, TypeLabel, DescriptionLabel)
    case None => None
    case Some((t, d)) => Some(UAAErrorResponse(t, d))
  }

  /** The rendering of a raw status error keeps both the status code and the
      exact body: reading it back gives the same error. */
  lemma RawHTTPStatusMessageRoundTrip(e: RawHTTPStatusErrorValue)
    ensures ParseRawHTTPStatusMessage(Message(e)) == Some(e)
  {
    var code := FormatInt(e.statusCode);
    var raw := BytesAsText(e.rawResponse);
    assert Message(e) == CodeLabel + code + RawResponseLabel + raw;
    SplitLabelledRoundTrip(CodeLabel, code, RawResponseLabel, raw);
    IntRoundTrip(e.statusCode);
    BytesRoundTrip(e.rawResponse);
  }

  /** Two raw status errors with the same rendering are the same error. */
  lemma RawHTTPStatusMessageInjective(e1: RawHTTPStatusErrorValue, e2: RawHTTPStatusErrorValue)
    requires Message(e1) == Message(e2)
    ensures e1 == e2
  {
    RawHTTPStatusMessageRoundTrip(e1);
    RawHTTPStatusMessageRoundTrip(e2);
  }

  /** The rendering of a UAA error response keeps its type and description,
      as long as the type holds no line break. */
  lemma UAAErrorMessageRoundTrip(e: UAAErrorResponseValue)
    requires '\n' !in e.errorType
    ensures ParseUAAErrorMessage(Message(e)) == Some(e)
  {
    SplitLabelledRoundTrip(TypeLabel, e.errorType, DescriptionLabel, e.description);
  }

  /** Without that condition the rendering is ambiguous: a type that itself
      contains the description label renders like a different response. */
  lemma UAAErrorMessageAmbiguous()
    ensures UAAErrorResponse("a\nDescription: b", "c") != UAAErrorResponse("a", "b\nDescription: c")
    ensures Message(UAAErrorResponse("a\nDescription: b", "c"))
         == Message(UAAErrorResponse("a", "b\nDescription: c"))
  {
  }

  /** The certificate error renders as one fixed text, whatever its URL. */
  lemma UnverifiedServerMessageIgnoresURL(url1: string, url2: string)
    ensures Message(UnverifiedServerError(url1)) == UnknownAuthorityMessage
    ensures Message(UnverifiedServerError(url1)) == Message(UnverifiedServerError(url2))
  {
  }

  /** The invalid-token error renders as its message, verbatim. */
  lemma InvalidAuthTokenMessageVerbatim(m: string)
    ensures Message(InvalidAuthTokenError(m)) == m
  {
  }

  /** The innermost cause under any number of `RequestError` layers. */
  function Cause(e: Error): (c: Error)
    ensures !c.RequestError?
  {
    if e.RequestError? then Cause(e.err) else e
  }

  /** A request error renders as the error it wraps, through any nesting. */
  lemma {:induction false} RequestErrorMessageIsCauseMessage(e: Error)
    ensures Message(RequestError(e)) == Message(e)
    ensures Message(e) == Message(Cause(e))
  {
    if e.RequestError? {
      RequestErrorMessageIsCauseMessage(e.err);
    }
  }
}
