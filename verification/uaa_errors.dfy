/** The UAA error-classification decorator (api/uaa/errors.go): `convert`,
    `errorWrapper.Wrap` and `errorWrapper.Make`, over a chain of connections. */
module UaaErrors {
  import opened Wrappers
  import opened Text
  import opened UaaConnectionErrors

  const StatusUnauthorized := 401
  const InvalidTokenType := "invalid_token"

  /** `json.Unmarshal` of a body into a `UAAErrorResponse` (the `error` and
      `error_description` members of section 5.2 of RFC 6749): `None` when the
      decoder reports an error. The decoder is not modelled; it is a parameter. */
  type Unmarshal = seq<byte> -> Option<UAAErrorResponseValue>

  /** Classifies one raw status error. */
  function Convert(unmarshal: Unmarshal, rawErr: RawHTTPStatusErrorValue): (r: Error)
    // an unparseable body leaves the raw error as it is, and only then
    ensures unmarshal(rawErr.rawResponse).None? <==> r == rawErr
    // the outcomes form a closed set
    ensures r == rawErr || r.UAAErrorResponse? || r.InvalidAuthTokenError?
    // the invalid-token error arises exactly from a parsed 401 of type invalid_token
    ensures r.InvalidAuthTokenError? <==>
              && rawErr.statusCode == StatusUnauthorized
              && unmarshal(rawErr.rawResponse).Some?
              && unmarshal(rawErr.rawResponse).value.errorType == InvalidTokenType
    ensures r.InvalidAuthTokenError? ==> r.message == unmarshal(rawErr.rawResponse).value.description
    // every other parsed body is returned as parsed
    ensures r.UAAErrorResponse? ==> unmarshal(rawErr.rawResponse) == Some(r)
  {
    match unmarshal(rawErr.rawResponse)
    case None => rawErr
    case Some(uaaErrorResponse) =>
      if rawErr.statusCode == StatusUnauthorized then
        if uaaErrorResponse.errorType == InvalidTokenType then
          InvalidAuthTokenError(uaaErrorResponse.description)
        else
          uaaErrorResponse
      else
        uaaErrorResponse
  }

  /** What `errorWrapper.Make` does to the inner connection's error: only a
      raw status error is converted; nil and every other kind pass through. */
  function WrapError(unmarshal: Unmarshal, err: Option<Error>): (r: Option<Error>)
    ensures r.None? <==> err.None?
    ensures err.Some? && !err.value.RawHTTPStatusError? ==> r == err
    ensures err.Some? && err.value.RawHTTPStatusError? ==> r == Some(Convert(unmarshal, err.value))
  {
    match err
    case Some(e) => if e.RawHTTPStatusError? then Some(Convert(unmarshal, e)) else err
    case None => err
  }

  /** An HTTP request as handed to a connection; how it is built is not modelled. */
  datatype Request = Request(httpMethod: string, url: string, header: map<string, seq<string>>, body: seq<byte>)

  /** What a connection leaves behind: the filled response target of the
      caller's shape `D`, and the returned error (`None` for nil). */
  datatype Reply<D> = Reply(result: D, err: Option<Error>)

  /** A chain of connections. `External` is any connection whose code is not
      part of this model (the HTTP transport, or another decorator); an
      `ErrorWrapper` holds the connection it wraps once `Wrap` has bound one. */
  datatype Connection<D> =
    | External(make: Request -> Reply<D>)
    | Wrapped(wrapper: ErrorWrapper<D>)

  datatype ErrorWrapper<D> = ErrorWrapper(connection: Option<Connection<D>>)

  /** `NewErrorWrapper`: a wrapper not yet bound to any connection. */
  function NewErrorWrapper<D>(): (w: ErrorWrapper<D>)
    ensures w.connection.None?
  {
    ErrorWrapper(None)
  }

  /** `Wrap`: binds the given inner connection, replacing any earlier binding,
      and returns the wrapper itself as the outward-facing connection. */
  function Wrap<D>(w: ErrorWrapper<D>, inner: Connection<D>): (c: Connection<D>)
    ensures c.Wrapped? && c.wrapper.connection == Some(inner)
    ensures Bound(inner) ==> Bound(c)
  {
    Wrapped(w.(connection := Some(inner)))
  }

  /** Every wrapper along the chain has been bound; `Make` through an unbound
      wrapper dereferences a nil interface. */
  predicate Bound<D>(c: Connection<D>)
    decreases c
  {
    match c
    case External(_) => true
    case Wrapped(ErrorWrapper(None)) => false
    case Wrapped(ErrorWrapper(Some(inner))) => Bound(inner)
  }

  /** A request made through a chain: the reply, and the requests that
      reached the connection at the inside end of the chain, in order. */
  datatype Exchange<D> = Exchange(reply: Reply<D>, sent: seq<Request>)

  /** `Connection.Make` on a chain. */
  function Make<D>(c: Connection<D>, unmarshal: Unmarshal, request: Request): (r: Exchange<D>)
    requires Bound(c)
    // the request reaches the inside end exactly once, unchanged
    ensures r.sent == [request]
    // the response target is the one the inside end filled
    ensures r.reply.result == Innermost(c)(request).result
    decreases c, 1
  {
    match c
    case External(make) => Exchange(make(request), [request])
    case Wrapped(w) => WrapperMake(w, unmarshal, request)
  }

  /** `errorWrapper.Make`: one call to the bound inner connection with the same
      request and response target; its response is kept and its error classified. */
  function WrapperMake<D>(w: ErrorWrapper<D>, unmarshal: Unmarshal, request: Request): (r: Exchange<D>)
    requires w.connection.Some? && Bound(w.connection.value)
    ensures r.sent == Make(w.connection.value, unmarshal, request).sent
    ensures r.reply.result == Make(w.connection.value, unmarshal, request).reply.result
    ensures r.reply.err == WrapError(unmarshal, Make(w.connection.value, unmarshal, request).reply.err)
    decreases w, 0
  {
    var inner := Make(w.connection.value, unmarshal, request);
    Exchange(Reply(inner.reply.result, WrapError(unmarshal, inner.reply.err)), inner.sent)
  }

  /** The connection at the inside end of a chain. */
  function Innermost<D>(c: Connection<D>): (f: Request -> Reply<D>)
    requires Bound(c)
    decreases c
  {
    match c
    case External(make) => make
    case Wrapped(w) => Innermost(w.connection.value)
  }

  /** The number of error wrappers along a chain. */
  function Depth<D>(c: Connection<D>): nat
    requires Bound(c)
    decreases c
  {
    match c
    case External(_) => 0
    case Wrapped(w) => 1 + Depth(w.connection.value)
  }

  /** Classifying an already classified error changes nothing. */
  lemma WrapErrorIdempotent(unmarshal: Unmarshal, err: Option<Error>)
    ensures WrapError(unmarshal, WrapError(unmarshal, err)) == WrapError(unmarshal, err)
  {
  }

  /** However many error wrappers a chain holds, a request through it is the
      innermost connection's reply with its error classified once, or not at
      all when the chain holds no wrapper: callers cannot tell how many layers
      are present. */
  lemma {:induction false} MakeClassifiesOnce<D>(c: Connection<D>, unmarshal: Unmarshal, request: Request)
    requires Bound(c)
    ensures Make(c, unmarshal, request).sent == [request]
    ensures Depth(c) == 0 ==> Make(c, unmarshal, request).reply == Innermost(c)(request)
    ensures Depth(c) > 0 ==>
      Make(c, unmarshal, request).reply
        == Reply(Innermost(c)(request).result, WrapError(unmarshal, Innermost(c)(request).err))
    decreases c
  {
    match c
    case External(_) =>
    case Wrapped(w) =>
      var inner := w.connection.value;
      MakeClassifiesOnce(inner, unmarshal, request);
      WrapErrorIdempotent(unmarshal, Innermost(inner)(request).err);
  }

  /** A classified error no longer shows the status code it came from: two
      parseable bodies alike under different non-401 statuses classify alike. */
  lemma ConvertForgetsStatus(unmarshal: Unmarshal, body: seq<byte>, status1: int, status2: int)
    requires status1 != status2 && status1 != StatusUnauthorized && status2 != StatusUnauthorized
    requires unmarshal(body).Some?
    ensures RawHTTPStatusError(status1, body) != RawHTTPStatusError(status2, body)
    ensures Convert(unmarshal, RawHTTPStatusError(status1, body)) == Convert(unmarshal, RawHTTPStatusError(status2, body))
  {
  }

  /** A body the decoder accepts with no known member (Go's decoder accepts `{}`
      this way) becomes the zero-valued `UAAErrorResponse`, whatever the status. */
  lemma EmptyObjectBecomesZeroResponse(unmarshal: Unmarshal, rawErr: RawHTTPStatusErrorValue)
    requires unmarshal(rawErr.rawResponse) == Some(UAAErrorResponse("", ""))
    ensures Convert(unmarshal, rawErr) == UAAErrorResponse("", "")
  {
  }

  /** An unparseable 401 stays raw: the status is looked at only after a
      successful parse. */
  lemma UnparseableUnauthorizedStaysRaw(unmarshal: Unmarshal, rawErr: RawHTTPStatusErrorValue)
    requires rawErr.statusCode == StatusUnauthorized
    requires unmarshal(rawErr.rawResponse).None?
    ensures Convert(unmarshal, rawErr) == rawErr
    ensures !Convert(unmarshal, rawErr).InvalidAuthTokenError?
  {
  }

  /** A 403 carrying `insufficient_scope` (section 3.1 of RFC 6750) is a generic
      UAA error response, never an invalid-token error. */
  lemma InsufficientScopeIsGeneric(unmarshal: Unmarshal, body: seq<byte>, description: string)
    requires unmarshal(body) == Some(UAAErrorResponse("insufficient_scope", description))
    ensures Convert(unmarshal, RawHTTPStatusError(403, body)) == UAAErrorResponse("insufficient_scope", description)
  {
  }
}
