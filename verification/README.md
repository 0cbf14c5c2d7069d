# UAA error classification and user creation, in Dafny

This project models the error-classification layer of the UAA client in a
command-line tool for a multi-tenant cloud platform, and the user-creation
path that runs through it.

- **Error kinds** (`UaaConnectionErrors`): the closed, flat set of error values.
  These are `UAAErrorResponse`, `UnverifiedServerError`, `RequestError`,
  `InvalidAuthTokenError` and `RawHTTPStatusError`, plus `Other` for errors
  whose types are declared elsewhere. Each kind has its `Error()` rendering.
  Inverse readers show what a rendering keeps.
- **Error wrapper** (`UaaErrors`): `convert`, which turns a raw HTTP status
  error into a typed error, and the `errorWrapper` decorator. The decorator is
  unbound until `Wrap`, and its `Make` delegates to the inner connection and
  classifies the error that comes back. A connection chain is a datatype.
  `External` is any connection whose code is not modelled, and `Wrapped` is an
  error wrapper.
- **Text** (`Text`): Go's `%d` on an `int` and `%s` on a `[]byte`, with their
  inverses.
- **User creation** (`UaaUser`, `Json`): the SCIM creation payload of section
  4.1 of RFC 7643. It includes the payload's JSON tag names and
  `Client.NewUser`: encode the payload, build the request, make it through
  the chain, and map the response ID to a `User`.
- **Actor** (`V2ActionUser`): `Actor.NewUser` creates the account in UAA and
  then registers its ID with the Cloud Controller. A UAA failure stops it
  before the second step.

Go's `error` is `Option<Error>`, where `None` is `nil`. A `(value, error)` pair
is a small datatype. Collaborators are function-valued parameters: the JSON
encoder and decoder, the request builder, the transport and the two clients
the actor uses.

## Model

| member | source | states |
|---|---|---|
| UaaErrors.Convert | api/uaa/errors.go:42-60 | The body is unparseable exactly when the raw error comes back unchanged. The outcome is one of three: that raw error, a `UAAErrorResponse` or an `InvalidAuthTokenError`. The invalid-token error arises exactly when the status is 401 and the parsed type is `invalid_token`, and it carries the parsed description. Any other parsed body comes back as parsed. |
| UaaErrors.UnparseableUnauthorizedStaysRaw | api/uaa/errors.go:45-54 | A 401 whose body does not parse stays the raw error and is never an invalid-token error, because the status is looked at only after a successful parse. |
| UaaErrors.InsufficientScopeIsGeneric | api/uaa/errors.go:51-58 | A 403 whose body parses as `insufficient_scope` with description Y becomes the generic response with that type and Y, and not an invalid-token error. |
| UaaErrors.EmptyObjectBecomesZeroResponse | api/uaa/errors.go:45-49 | A body the decoder accepts with no known member becomes the zero-valued `UAAErrorResponse`, whatever the status. The raw error is not kept in that case. |
| UaaErrors.ConvertForgetsStatus | api/uaa/errors.go:51-59 | Two different non-401 statuses with the same parseable body classify to the same error, so a classified error does not show its status code. |
| UaaErrors.WrapError | api/uaa/errors.go:35-39 | A nil error stays nil and a non-nil error stays non-nil. Every kind except `RawHTTPStatusError` passes through unchanged, and a raw status error is replaced by its conversion. |
| UaaErrors.WrapErrorIdempotent | api/uaa/errors.go:35-39 | Classifying an error that has already been classified changes nothing. |
| UaaErrors.NewErrorWrapper | api/uaa/errors.go:23-25 | A new wrapper has no inner connection. |
| UaaErrors.Wrap | api/uaa/errors.go:27-30 | The returned connection is the given wrapper with its inner connection set to the given one, replacing any earlier inner connection. It is fully bound when the inner chain is. |
| UaaErrors.Make | api/uaa/user.go:76-79 | Making a request through a bound chain sends exactly that request, once and unchanged, to the innermost connection. The response is the innermost connection's response. |
| UaaErrors.WrapperMake | api/uaa/errors.go:32-40 | The wrapper sends to its inner connection the same requests the inner connection would send on its own. The response is the inner connection's response for the same request. The error is the inner connection's error after classification. |
| UaaErrors.MakeClassifiesOnce | api/uaa/errors.go:32-40 | A bound chain sends the request to the innermost connection exactly once. A chain with at least one error wrapper gives the innermost connection's reply with its error classified once, however many wrappers are stacked. With no wrapper it gives the innermost reply as it is. |
| UaaConnectionErrors.Message | api/uaa/uaa_connection_errors.go:11-42 | Every error renders as its innermost cause renders, so a request error adds no text of its own. The certificate error renders as the fixed unknown-authority text, the invalid-token error as its message, the raw status error as its code and raw body, and a UAA error response as its type and description (api/uaa/errors.go:15-17). |
| UaaConnectionErrors.UAAErrorMessageRoundTrip | api/uaa/errors.go:9-17 | The rendering `Error Type: T` + newline + `Description: D` reads back to the same type and description when T has no line break. |
| UaaConnectionErrors.UAAErrorMessageAmbiguous | api/uaa/errors.go:15-17 | If T may contain a line break, two different responses can render to the same text. |
| UaaConnectionErrors.UnverifiedServerMessageIgnoresURL | api/uaa/uaa_connection_errors.go:5-13 | The certificate error always renders as `x509: certificate signed by unknown authority`, whatever its URL. |
| UaaConnectionErrors.RequestErrorMessageIsCauseMessage | api/uaa/uaa_connection_errors.go:15-22 | A request error renders as the error it wraps, and so does any nesting of request errors around their innermost cause. |
| UaaConnectionErrors.InvalidAuthTokenMessageVerbatim | api/uaa/uaa_connection_errors.go:24-32 | The invalid-token error renders as its message, verbatim. |
| UaaConnectionErrors.RawHTTPStatusMessageRoundTrip | api/uaa/uaa_connection_errors.go:34-42 | The rendering `Error Code: <decimal>` + newline + `Raw Response: <bytes>` reads back to the same status code and the same body bytes. |
| UaaConnectionErrors.RawHTTPStatusMessageInjective | api/uaa/uaa_connection_errors.go:40-42 | Two raw status errors that render to the same text are the same error. |
| Text.IntRoundTrip | api/uaa/uaa_connection_errors.go:41 | The `%d` rendering of any integer, negative ones included, reads back to that integer. |
| UaaUser.BuildNewUserRequest | api/uaa/user.go:40-54 | The payload's user name is the given user and its password is the given password. Its family name and given name are both the user. It has exactly one email, whose value is the user and which is not primary. |
| UaaUser.ToJson | api/uaa/user.go:16-31 | The payload document has the members `userName`, `password`, `name` and `emails`, in that order. `name` has `familyName` and `givenName`, and each email has `value` and `primary`. |
| UaaUser.NewUserRequestJsonRoundTrip | api/uaa/user.go:16-31 | Reading the document back by tag name gives the same payload, so no field is lost or renamed. |
| UaaUser.NewUserRequestOptions | api/uaa/user.go:61-67 | Its only header is `Content-Type: application/json`, and its body is the encoded payload. |
| UaaUser.NewUser | api/uaa/user.go:38-82 | Every failure comes with the zero `User`. It succeeds exactly when encoding, request building and the connection all succeed. |
| UaaUser.NewUserMarshalFailure | api/uaa/user.go:56-59 | An encoder failure is returned as that same error, with the zero `User`. |
| UaaUser.NewUserRequestFailure | api/uaa/user.go:61-70 | A request-builder failure is returned as that same error, with the zero `User`. |
| UaaUser.NewUserConnectionFailure | api/uaa/user.go:76-79 | A connection failure is returned as the chain classified it, with the zero `User`. |
| UaaUser.NewUserSuccess | api/uaa/user.go:72-81 | On success the result is `User{ID: response.id}` with no error. The response's user name plays no part. |
| UaaUser.NewUserSurfacesInvalidToken | api/uaa/user.go:76-79 | Through an error wrapper, a 401 `invalid_token` answer reaches the caller as an invalid-token error that carries the body's description. |
| V2ActionUser.NewUser | actor/v2action/user.go:12-27 | UAA is always called first, with the given user name and password. If UAA fails, that is the only call, and the result is no user, no warnings and UAA's error. Otherwise the Cloud Controller is then called with the UAA user's ID, and the user, warnings and error are its answer. |
| V2ActionUser.FromCCUser | actor/v2action/user.go:26 | Converting a Cloud Controller user keeps its GUID. |
| V2ActionUser.NewUserSkipsCloudControllerOnUAAFailure | actor/v2action/user.go:15-19 | When UAA fails, the calls made include no Cloud Controller call, and any two Cloud Controller clients give the same result. |
| V2ActionUser.NewUserAsksCloudControllerForUAAId | actor/v2action/user.go:24-26 | When UAA succeeds, the Cloud Controller is called exactly once, with the new UAA ID. Two Cloud Controller clients that agree on that ID give the same result. |
| V2ActionUser.NewUserSurfacesInvalidToken | actor/v2action/user.go:13-19 | Through the real UAA client and an error wrapper, a 401 `invalid_token` answer ends the actor with no user, no warnings and the invalid-token error, after a single call to UAA and none to the Cloud Controller. |

## Behaviours of the code worth noting

- Classification can yield a zero-valued error. When the decoder accepts a body with no known member, such as `{}`, the result is an empty `UAAErrorResponse` and the raw error is dropped (`EmptyObjectBecomesZeroResponse`).
- A classified error carries neither the status nor the raw bytes (`ConvertForgetsStatus`). Only an unclassified raw error keeps both (`RawHTTPStatusMessageRoundTrip`).
- `Wrap` does not check for an earlier binding. It replaces the inner connection every time it is called (`Wrap`).

## Left out

- JSON encoding and decoding: `json.Marshal` and `json.Unmarshal` are parameters (`UaaUser.Codec`, `UaaErrors.Unmarshal`). Only the struct-tag view of the payload (`ToJson`) is modelled.
- Request building (`newRequest`, routes, auth headers), the HTTP transport, the `Response` type and TLS/DNS failure classification: none of their code is part of this model. They appear as function parameters, or as `External` connections.
- A connection is modelled per response-target shape (`Connection<D>`). In Go, one connection fills a response target of any shape that the caller passes in.
- UaaErrors.Wrap: the wrapper is a value, and `Wrap` returns a rebound copy. Go's `Wrap` changes the `*errorWrapper` in place, so its effect on other chains that hold the same wrapper is not modelled. A wrapper wrapped around itself (`w.Wrap(w)`, which recurses without end in Go) cannot be built here.
- UaaConnectionErrors.Message: a `RequestError` whose `Err` is nil panics in Go when rendered. In the model a `RequestError` always holds a cause.
- UaaErrors.Make: with an unbound wrapper, Go panics on a nil interface. Here, being bound is a precondition (`Bound`), not an error value.
- The `fmt.Println` of the UAA user in the actor is output only and is not modelled.
- Go strings are modelled as `seq<char>`. A byte of a raw body stands for the character with the same code, so `%s` on a `[]byte` is one character per byte. UTF-8 decoding is not modelled.
- `StatusCode` is an unbounded `int`. Go's 64-bit width is not modelled, because status codes are small.
- A nil warnings slice and an empty one are both the empty sequence.
- The Cloud Controller client is abstract. Its placeholder implementation always answers with an empty user, no warnings and no error, and it is not used.
- Concurrency: the wrapper holds no per-request state, and the model is pure.
- The unimplemented behaviour in the two TODO comments is not modelled: making the email primary, and handling 409 "user already exists".
- The 2xx response decoder and the request builder's content negotiation belong to code that is not part of this model.
- UaaUser.NewUserRequestOptions: the route names of the `internal` package are not part of this model. `RequestName` has the user-creation route only, so the contract cannot tell it from another route.
