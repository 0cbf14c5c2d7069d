/** The actor that creates a user (actor/v2action/user.go): register the
    account with UAA, then register its ID with the Cloud Controller. */
module V2ActionUser {
  import opened Wrappers
  import opened UaaConnectionErrors
  import opened UaaErrors
  import UaaUser

  /** A Cloud Controller user (the `ccv2.User` struct). */
  datatype CCUser = CCUser(guid: string)

  /** A CLI user: the same shape as a Cloud Controller user. */
  datatype User = User(guid: string)

  /** Warnings the Cloud Controller sent; a nil slice is the empty sequence. */
  type Warnings = seq<string>

  /** `(ccv2.User, ccv2.Warnings, error)` from the Cloud Controller client. */
  datatype CCUserResult = CCUserResult(user: CCUser, warnings: Warnings, err: Option<Error>)

  /** A call the actor makes on one of its collaborators. */
  datatype Call =
    | UAANewUser(username: string, password: string)
    | CCNewUser(uaaUserID: string)

  /** `(User, Warnings, error)` from the actor, together with the calls it
      made on its collaborators, in order. */
  datatype NewUserResult = NewUserResult(user: User, warnings: Warnings, err: Option<Error>, calls: seq<Call>)

  /** The actor's two collaborators, as the calls it makes on them. */
  type UAAClient = (string, string) -> UaaUser.UserResult
  type CloudControllerClient = string -> CCUserResult

  /** The conversion `User(ccUser)`: the GUID is carried over. */
  function FromCCUser(u: CCUser): (r: User)
    ensures r.guid == u.guid
  {
    User(u.guid)
  }

  /** `Actor.NewUser`: a UAA failure is returned at once, with no user and no
      warnings; otherwise the Cloud Controller's answer for the new UAA ID is
      returned as it is. */
  function NewUser(uaa: UAAClient, cc: CloudControllerClient, username: string, password: string): (r: NewUserResult)
    ensures uaa(username, password).err.Some? ==>
              r == NewUserResult(User(""), [], uaa(username, password).err, [UAANewUser(username, password)])
    ensures uaa(username, password).err.None? ==>
              && r.user.guid == cc(uaa(username, password).user.id).user.guid
              && r.warnings == cc(uaa(username, password).user.id).warnings
              && r.err == cc(uaa(username, password).user.id).err
              && r.calls == [UAANewUser(username, password), CCNewUser(uaa(username, password).user.id)]
  {
    var uaaResult := uaa(username, password);
    var calls := [UAANewUser(username, password)];
    if uaaResult.err.Some? then
      NewUserResult(User(""), [], uaaResult.err, calls)
    else
      var ccResult := cc(uaaResult.user.id);
      NewUserResult(FromCCUser(ccResult.user), ccResult.warnings, ccResult.err, calls + [CCNewUser(uaaResult.user.id)])
  }

  /** The user IDs the actor registers with the Cloud Controller. */
  function CloudControllerCalls(calls: seq<Call>): (ids: seq<string>)
    ensures |ids| <= |calls|
  {
    if |calls| == 0 then []
    else if calls[0].CCNewUser? then [calls[0].uaaUserID] + CloudControllerCalls(calls[1..])
    else CloudControllerCalls(calls[1..])
  }

  /** When UAA fails the Cloud Controller is never called, and so any two
      Cloud Controller clients give the same result. */
  lemma NewUserSkipsCloudControllerOnUAAFailure(uaa: UAAClient, cc1: CloudControllerClient, cc2: CloudControllerClient,
                                                username: string, password: string)
    requires uaa(username, password).err.Some?
    ensures CloudControllerCalls(NewUser(uaa, cc1, username, password).calls) == []
    ensures NewUser(uaa, cc1, username, password) == NewUser(uaa, cc2, username, password)
  {
  }

  /** When UAA succeeds the Cloud Controller is called exactly once, with the
      new UAA ID; two clients that agree on that ID give the same result. */
  lemma NewUserAsksCloudControllerForUAAId(uaa: UAAClient, cc1: CloudControllerClient, cc2: CloudControllerClient,
                                           username: string, password: string)
    requires uaa(username, password).err.None?
    requires cc1(uaa(username, password).user.id) == cc2(uaa(username, password).user.id)
    ensures CloudControllerCalls(NewUser(uaa, cc1, username, password).calls) == [uaa(username, password).user.id]
    ensures NewUser(uaa, cc1, username, password) == NewUser(uaa, cc2, username, password)
  {
    var calls := NewUser(uaa, cc1, username, password).calls;
    assert calls[1..][1..] == [];
  }

  /** End to end: an actor over a UAA client whose connection chain holds an
      error wrapper turns a 401 `invalid_token` answer into an invalid-token
      error, with no user and no warnings, whatever the Cloud Controller does. */
  lemma NewUserSurfacesInvalidToken(client: UaaUser.Client, json: UaaUser.Codec, cc: CloudControllerClient,
                                    username: string, password: string,
                                    body: seq<Text.byte>, request: Request,
                                    response: UaaUser.NewUserResponse, errorBody: seq<Text.byte>, description: string)
    requires client.connection.Wrapped? && client.connection.wrapper.connection.Some?
    requires client.connection.wrapper.connection.value.External?
    requires json.marshal(UaaUser.ToJson(UaaUser.BuildNewUserRequest(username, password))) == Success(body)
    requires client.newRequest(UaaUser.NewUserRequestOptions(body)) == Success(request)
    requires client.connection.wrapper.connection.value.make(request)
          == Reply(response, Some(RawHTTPStatusError(StatusUnauthorized, errorBody)))
    requires json.unmarshal(errorBody) == Some(UAAErrorResponse(InvalidTokenType, description))
    ensures
      var uaa := (u: string, p: string) => UaaUser.NewUser(client, json, u, p);
      NewUser(uaa, cc, username, password)
        == NewUserResult(User(""), [], Some(InvalidAuthTokenError(description)), [UAANewUser(username, password)])
  {
    var uaa := (u: string, p: string) => UaaUser.NewUser(client, json, u, p);
    assert uaa(username, password) == UaaUser.UserResult(UaaUser.ZeroUser, Some(InvalidAuthTokenError(description)));
  }
}
