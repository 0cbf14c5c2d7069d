/** Creating a UAA user account (api/uaa/user.go): the SCIM creation payload
    of section 4.1 of RFC 7643, its JSON field names, and `Client.NewUser`. */
module UaaUser {
  import opened Wrappers
  import opened Text
  import opened UaaConnectionErrors
  import opened UaaErrors
  import Json

  /** A UAA user account, known by its ID. */
  datatype User = User(id: string)

  datatype NewUserRequest = NewUserRequest(username: string, password: string, name: UserName, emails: seq<Email>)
  datatype UserName = UserName(familyName: string, givenName: string)
  datatype Email = Email(value: string, primary: bool)

  /** The decoded body of a successful creation. */
  datatype NewUserResponse = NewUserResponse(id: string, username: string)

  /** `(User, error)` as returned by `Client.NewUser`. */
  datatype UserResult = UserResult(user: User, err: Option<Error>)

  /** The named routes a request can be built for. Only the user-creation
      route is part of this model, so the type alone fixes the route. */
  datatype RequestName = NewUserRequestName

  /** What `Client.NewUser` hands to the request builder. */
  datatype RequestOptions = RequestOptions(requestName: RequestName, header: map<string, seq<string>>, body: seq<byte>)

  /** The collaborators of `Client.NewUser` that are not part of this model:
      the request builder and the connection chain. */
  datatype Client = Client(
    connection: Connection<NewUserResponse>,
    newRequest: RequestOptions -> Result<Request, Error>)

  /** `encoding/json`: its encoder turns a JSON document into bytes or fails,
      its decoder reads an error body. Neither is modelled. */
  datatype Codec = Codec(marshal: Json.Value -> Result<seq<byte>, Error>, unmarshal: Unmarshal)

  const ZeroUser := User("")
  const JsonContentType := map["Content-Type" := ["application/json"]]

  /** The creation payload for a user name and password: the name fills the
      user name, both name parts and a single non-primary email address. */
  function BuildNewUserRequest(user: string, password: string): (r: NewUserRequest)
    ensures r.username == user && r.password == password
    ensures r.name.familyName == user && r.name.givenName == user
    ensures |r.emails| == 1 && r.emails[0].value == user && !r.emails[0].primary
  {
    NewUserRequest(user, password, UserName(user, user), [Email(user, false)])
  }

  function EmailToJson(e: Email): Json.Value {
    Json.Object([Json.Member("value", Json.String(e.value)), Json.Member("primary", Json.Bool(e.primary))])
  }

  function EmailsToJson(es: seq<Email>): (items: seq<Json.Value>)
    ensures |items| == |es|
    ensures forall i :: 0 <= i < |es| ==> items[i] == EmailToJson(es[i])
  {
    seq(|es|, i requires 0 <= i < |es| => EmailToJson(es[i]))
  }

  /** The document the encoder sees: the fields in declaration order, under
      their `json` tag names. */
  function ToJson(r: NewUserRequest): (v: Json.Value)
    ensures v.Object? && Json.Keys(v.members) == ["userName", "password", "name", "emails"]
    ensures v.members[2].value.Object? && Json.Keys(v.members[2].value.members) == ["familyName", "givenName"]
    ensures v.members[3].value.Array? && |v.members[3].value.items| == |r.emails|
    ensures forall i :: 0 <= i < |r.emails| ==>
              v.members[3].value.items[i].Object? && Json.Keys(v.members[3].value.items[i].members) == ["value", "primary"]
  {
    Json.Object([
      Json.Member("userName", Json.String(r.username)),
      Json.Member("password", Json.String(r.password)),
      Json.Member("name", Json.Object([
        Json.Member("familyName", Json.String(r.name.familyName)),
        Json.Member("givenName", Json.String(r.name.givenName))])),
      Json.Member("emails", Json.Array(EmailsToJson(r.emails)))])
  }

  function EmailFromJson(v: Json.Value): Option<Email> {
    if !v.Object? then None
    else
      match (Json.GetString(v.members, "value"), Json.GetBool(v.members, "primary"))
      case (Some(value), Some(primary)) => Some(Email(value, primary))
      case _ => None
  }

  function EmailsFromJson(items: seq<Json.Value>): Option<seq<Email>>
    decreases |items|
  {
    if |items| == 0 then Some([])
    else
      match (EmailFromJson(items[0]), EmailsFromJson(items[1..]))
      case (Some(e), Some(es)) => Some([e] + es)
      case _ => None
  }

  /** Reads a creation payload back from its document, by tag name. */
  function FromJson(v: Json.Value): Option<NewUserRequest> {
    if !v.Object? then None
    else
      var name := Json.Lookup(v.members, "name");
      var emails := Json.Lookup(v.members, "emails");
      if name.None? || !name.value.Object? || emails.None? || !emails.value.Array? then None
      else
        match (Json.GetString(v.members, "userName"), Json.GetString(v.members, "password"),
               Json.GetString(name.value.members, "familyName"), Json.GetString(name.value.members, "givenName"),
               EmailsFromJson(emails.value.items))
        case (Some(u), Some(p), Some(f), Some(g), Some(es)) => Some(NewUserRequest(u, p, UserName(f, g), es))
        case _ => None
  }

  lemma EmailRoundTrip(e: Email)
    ensures EmailFromJson(EmailToJson(e)) == Some(e)
  {
    var v := Json.Member("value", Json.String(e.value));
    var p := Json.Member("primary", Json.Bool(e.primary));
    assert [v, p] == [v] + [p];
    Json.LookupFirst(v, [p]);
    Json.LookupSkip(v, [p], "primary");
    Json.LookupFirst(p, []);
    assert [p] == [p] + [];
  }

  lemma {:induction false} EmailsRoundTrip(es: seq<Email>)
    ensures EmailsFromJson(EmailsToJson(es)) == Some(es)
    decreases |es|
  {
    var items := EmailsToJson(es);
    if |es| > 0 {
      assert items[1..] == EmailsToJson(es[1..]);
      EmailsRoundTrip(es[1..]);
      EmailRoundTrip(es[0]);
      assert [es[0]] + es[1..] == es;
    }
  }

  /** Each tag name of the top-level object finds its own field. */
  lemma RequestMembersLookup(u: Json.Member, p: Json.Member, n: Json.Member, e: Json.Member)
    requires u.key == "userName" && p.key == "password" && n.key == "name" && e.key == "emails"
    ensures Json.Lookup([u, p, n, e], "userName") == Some(u.value)
    ensures Json.Lookup([u, p, n, e], "password") == Some(p.value)
    ensures Json.Lookup([u, p, n, e], "name") == Some(n.value)
    ensures Json.Lookup([u, p, n, e], "emails") == Some(e.value)
  {
    assert [u, p, n, e] == [u] + [p, n, e];
    assert [p, n, e] == [p] + [n, e];
    assert [n, e] == [n] + [e];
    assert [e] == [e] + [];
    Json.LookupFirst(u, [p, n, e]);
    Json.LookupSkip(u, [p, n, e], "password");
    Json.LookupFirst(p, [n, e]);
    Json.LookupSkip(u, [p, n, e], "name");
    Json.LookupSkip(p, [n, e], "name");
    Json.LookupFirst(n, [e]);
    Json.LookupSkip(u, [p, n, e], "emails");
    Json.LookupSkip(p, [n, e], "emails");
    Json.LookupSkip(n, [e], "emails");
    Json.LookupFirst(e, []);
  }

  lemma NameMembersLookup(f: Json.Member, g: Json.Member)
    requires f.key == "familyName" && g.key == "givenName"
    ensures Json.Lookup([f, g], "familyName") == Some(f.value)
    ensures Json.Lookup([f, g], "givenName") == Some(g.value)
  {
  }

  /** No field of the payload is lost or renamed by the tag mapping. */
  lemma NewUserRequestJsonRoundTrip(r: NewUserRequest)
    ensures FromJson(ToJson(r)) == Some(r)
  {
    var items := EmailsToJson(r.emails);
    var f := Json.Member("familyName", Json.String(r.name.familyName));
    var g := Json.Member("givenName", Json.String(r.name.givenName));
    var u := Json.Member("userName", Json.String(r.username));
    var p := Json.Member("password", Json.String(r.password));
    var n := Json.Member("name", Json.Object([f, g]));
    var e := Json.Member("emails", Json.Array(items));
    assert ToJson(r) == Json.Object([u, p, n, e]);
    RequestMembersLookup(u, p, n, e);
    NameMembersLookup(f, g);
    EmailsRoundTrip(r.emails);
  }

  /** The options the request is built from: the user-creation route, a JSON
      content type, and the encoded payload as body. */
  function NewUserRequestOptions(body: seq<byte>): (r: RequestOptions)
    ensures r.requestName == NewUserRequestName
    ensures r.header.Keys == {"Content-Type"} && r.header["Content-Type"] == ["application/json"]
    ensures r.body == body
  {
    RequestOptions(NewUserRequestName, JsonContentType, body)
  }

  /** `Client.NewUser`: encode the payload, build the request, make it through
      the connection chain; the first failure is returned with the zero user. */
  function NewUser(client: Client, json: Codec, user: string, password: string): (r: UserResult)
    requires Bound(client.connection)
    ensures r.err.Some? ==> r.user == ZeroUser
    ensures r.err.None? <==>
              && json.marshal(ToJson(BuildNewUserRequest(user, password))).Success?
              && client.newRequest(NewUserRequestOptions(json.marshal(ToJson(BuildNewUserRequest(user, password))).value)).Success?
              && Make(client.connection, json.unmarshal,
                      client.newRequest(NewUserRequestOptions(json.marshal(ToJson(BuildNewUserRequest(user, password))).value)).value).reply.err.None?
  {
    var userRequest := BuildNewUserRequest(user, password);
    match json.marshal(ToJson(userRequest))
    case Failure(e) => UserResult(ZeroUser, Some(e))
    case Success(body) =>
      match client.newRequest(NewUserRequestOptions(body))
      case Failure(e) => UserResult(ZeroUser, Some(e))
      case Success(request) =>
        var reply := Make(client.connection, json.unmarshal, request).reply;
        if reply.err.Some? then UserResult(ZeroUser, reply.err)
        else UserResult(User(reply.result.id), None)
  }

  /** An encoder failure is returned as it is, with the zero user. */
  lemma NewUserMarshalFailure(client: Client, json: Codec, user: string, password: string)
    requires Bound(client.connection)
    requires json.marshal(ToJson(BuildNewUserRequest(user, password))).Failure?
    ensures NewUser(client, json, user, password)
         == UserResult(ZeroUser, Some(json.marshal(ToJson(BuildNewUserRequest(user, password))).error))
  {
  }

  /** A request-builder failure is returned as it is, with the zero user. */
  lemma NewUserRequestFailure(client: Client, json: Codec, user: string, password: string, body: seq<byte>)
    requires Bound(client.connection)
    requires json.marshal(ToJson(BuildNewUserRequest(user, password))) == Success(body)
    requires client.newRequest(NewUserRequestOptions(body)).Failure?
    ensures NewUser(client, json, user, password)
         == UserResult(ZeroUser, Some(client.newRequest(NewUserRequestOptions(body)).error))
  {
  }

  /** A connection failure is returned as the chain classified it, with the zero user. */
  lemma NewUserConnectionFailure(client: Client, json: Codec, user: string, password: string,
                                 body: seq<byte>, request: Request)
    requires Bound(client.connection)
    requires json.marshal(ToJson(BuildNewUserRequest(user, password))) == Success(body)
    requires client.newRequest(NewUserRequestOptions(body)) == Success(request)
    requires Make(client.connection, json.unmarshal, request).reply.err.Some?
    ensures NewUser(client, json, user, password)
         == UserResult(ZeroUser, Make(client.connection, json.unmarshal, request).reply.err)
  {
  }

  /** On success the user is the response's ID; the response's user name is
      not looked at. */
  lemma NewUserSuccess(client: Client, json: Codec, user: string, password: string,
                       body: seq<byte>, request: Request)
    requires Bound(client.connection)
    requires json.marshal(ToJson(BuildNewUserRequest(user, password))) == Success(body)
    requires client.newRequest(NewUserRequestOptions(body)) == Success(request)
    requires Make(client.connection, json.unmarshal, request).reply.err.None?
    ensures NewUser(client, json, user, password)
         == UserResult(User(Make(client.connection, json.unmarshal, request).reply.result.id), None)
  {
  }

  /** Through an error wrapper, a 401 whose body reads as `invalid_token`
      reaches the caller of `NewUser` as an invalid-token error carrying the
      body's description. */
  lemma NewUserSurfacesInvalidToken(transport: Request -> Reply<NewUserResponse>,
                                    newRequest: RequestOptions -> Result<Request, Error>, json: Codec,
                                    user: string, password: string,
                                    body: seq<byte>, request: Request,
                                    response: NewUserResponse, errorBody: seq<byte>, description: string)
    requires json.marshal(ToJson(BuildNewUserRequest(user, password))) == Success(body)
    requires newRequest(NewUserRequestOptions(body)) == Success(request)
    requires transport(request) == Reply(response, Some(RawHTTPStatusError(StatusUnauthorized, errorBody)))
    requires json.unmarshal(errorBody) == Some(UAAErrorResponse(InvalidTokenType, description))
    ensures var client := Client(Wrap(NewErrorWrapper(), External(transport)), newRequest);
            NewUser(client, json, user, password) == UserResult(ZeroUser, Some(InvalidAuthTokenError(description)))
  {
  }
}
