/**
 * The subscription registrar: builds the Helix "create EventSub subscription"
 * request that binds a subscription to a WebSocket session, sends it, and
 * classifies the answer. Only 202 Accepted (section 15.3.3 of RFC 9110) is
 * success.
 */
module Api {
  import opened Wrappers
  import opened Format
  import opened Types

  const CreateEndpoint := "https://api.twitch.tv/helix/eventsub/subscriptions"
  const StatusAccepted := 202
  const WebsocketMethod := "websocket"

  const AuthorizationHeader := "Authorization"
  const ClientIdHeader := "Client-Id"
  const ContentTypeHeader := "Content-Type"
  const JsonContentType := "application/json"
  /** The bearer scheme prefix of section 2.1 of RFC 6750, with its separating space. */
  const BearerPrefix := "Bearer "
  const BadStatusPrefix := "bad status code: "

  datatype Credentials = Credentials(clientID: string, accessToken: string)

  datatype CreateParams = CreateParams(
    subscriptionType: string,
    subscriptionVersions: string,
    condition: RawMessage)

  /** The JSON request body: `type`, `version`, `condition` and `transport`. */
  datatype CreateBody = CreateBody(
    subscriptionType: string,
    subscriptionVersion: string,
    condition: RawMessage,
    transport: Transport)

  /** An outgoing HTTP request; `header` maps canonical header names to values. */
  datatype Request = Request(verb: string, url: string, header: map<string, string>, body: string)

  datatype Response = Response(statusCode: int, body: string)

  /**
   * Why registration failed. The first three carry the Go error of the step
   * that failed; `BadStatus` is the error built from an unexpected response.
   */
  datatype ApiError =
    | EncodeFailed(reason: string)
    | RequestFailed(reason: string)
    | TransportFailed(reason: string)
    | BadStatus(code: int, body: string)

  /**
   * The library calls the registrar relies on, which are not part of this
   * model: the JSON encoder writing the body into a buffer, `http.NewRequest`
   * for a verb and URL (its error, if any), and the HTTP client's `Do`.
   */
  datatype Env = Env(
    encode: CreateBody -> Result<string, string>,
    newRequest: (string, string) -> Option<string>,
    send: Request -> Result<Response, string>)

  /** What a stub control plane reads back from a body. */
  function BodyParams(b: CreateBody): CreateParams {
    CreateParams(b.subscriptionType, b.subscriptionVersion, b.condition)
  }

  /**
   * The body for a session: the caller's type, version and condition read
   * back unchanged, delivered over the WebSocket transport to `sessionID`.
   */
  function NewCreateBody(sessionID: string, params: CreateParams): (b: CreateBody)
    ensures BodyParams(b) == params
    ensures b.transport.methodName == WebsocketMethod && b.transport.sessionID == sessionID
  {
    CreateBody(params.subscriptionType, params.subscriptionVersions, params.condition,
               Transport(WebsocketMethod, sessionID))
  }

  /** Every WebSocket body is the body built from what can be read back from it. */
  lemma BodyDeterminedByInputs(b: CreateBody)
    requires b.transport.methodName == WebsocketMethod
    ensures NewCreateBody(b.transport.sessionID, BodyParams(b)) == b
  {
  }

  /** The credential of a bearer `Authorization` value, if it has that form. */
  function BearerToken(value: string): Option<string> {
    if |BearerPrefix| <= |value| && value[..|BearerPrefix|] == BearerPrefix
    then Some(value[|BearerPrefix|..])
    else None
  }

  /** `Header.Set`: replaces any value already stored under the name. */
  function SetHeader(h: map<string, string>, name: string, value: string): map<string, string> {
    h[name := value]
  }

  /**
   * The three headers of the request: the access token as a bearer
   * credential, the application's client id, and a JSON content type.
   */
  function RequestHeaders(creds: Credentials): (h: map<string, string>)
    ensures h.Keys == {AuthorizationHeader, ClientIdHeader, ContentTypeHeader}
    ensures BearerToken(h[AuthorizationHeader]) == Some(creds.accessToken)
    ensures h[ClientIdHeader] == creds.clientID
    ensures h[ContentTypeHeader] == JsonContentType
  {
    var value := BearerPrefix + creds.accessToken;
    assert value[..|BearerPrefix|] == BearerPrefix;
    map[AuthorizationHeader := value, ClientIdHeader := creds.clientID, ContentTypeHeader := JsonContentType]
  }

  /**
   * The request handed to the HTTP client, or `None` when encoding the body or
   * constructing the request failed first.
   */
  function SentRequest(sessionID: string, params: CreateParams, creds: Credentials, env: Env)
    : (r: Option<Request>)
    ensures r.Some? <==>
      env.encode(NewCreateBody(sessionID, params)).Success? && env.newRequest("POST", CreateEndpoint).None?
    ensures r.Some? ==>
      && r.value.verb == "POST" && r.value.url == CreateEndpoint
      && r.value.header == RequestHeaders(creds)
      && r.value.body == env.encode(NewCreateBody(sessionID, params)).value
  {
    match env.encode(NewCreateBody(sessionID, params))
    case Failure(_) => None
    case Success(buf) =>
      if env.newRequest("POST", CreateEndpoint).Some? then None
      else Some(Request("POST", CreateEndpoint, RequestHeaders(creds), buf))
  }

  /**
   * The outcome of a registration: success exactly when the request was sent
   * and answered with 202; an answer with any other status is `BadStatus`
   * with that status and body; a failure before the answer is reported as the
   * step that failed, and then no status is ever examined.
   */
  function Outcome(sessionID: string, params: CreateParams, creds: Credentials, env: Env)
    : (r: Option<ApiError>)
    ensures r.None? <==>
      var sent := SentRequest(sessionID, params, creds, env);
      sent.Some? && env.send(sent.value).Success? && env.send(sent.value).value.statusCode == StatusAccepted
    ensures r.Some? && r.value.BadStatus? <==>
      var sent := SentRequest(sessionID, params, creds, env);
      && sent.Some? && env.send(sent.value).Success?
      && env.send(sent.value).value.statusCode != StatusAccepted
    ensures r.Some? && r.value.BadStatus? ==>
      var answer := env.send(SentRequest(sessionID, params, creds, env).value).value;
      r.value.code == answer.statusCode && r.value.body == answer.body
    ensures env.encode(NewCreateBody(sessionID, params)).Failure? ==>
      r == Some(EncodeFailed(env.encode(NewCreateBody(sessionID, params)).error))
    ensures
      && env.encode(NewCreateBody(sessionID, params)).Success?
      && env.newRequest("POST", CreateEndpoint).Some? ==>
      r == Some(RequestFailed(env.newRequest("POST", CreateEndpoint).value))
    ensures
      var sent := SentRequest(sessionID, params, creds, env);
      sent.Some? && env.send(sent.value).Failure? ==>
        r == Some(TransportFailed(env.send(sent.value).error))
  {
    match env.encode(NewCreateBody(sessionID, params))
    case Failure(e) => Some(EncodeFailed(e))
    case Success(_) =>
      match env.newRequest("POST", CreateEndpoint)
      case Some(e) => Some(RequestFailed(e))
      case None =>
        match env.send(SentRequest(sessionID, params, creds, env).value)
        case Failure(e) => Some(TransportFailed(e))
        case Success(res) =>
          if res.statusCode == StatusAccepted then None else Some(BadStatus(res.statusCode, res.body))
  }

  /**
   * `CreateWebsocketSubscription`: encode the body, build the request, set the
   * headers, send it and accept only 202, returning at the first failure.
   */
  method CreateWebsocketSubscription(sessionID: string, params: CreateParams, creds: Credentials, env: Env)
    returns (err: Option<ApiError>)
    ensures err == Outcome(sessionID, params, creds, env)
  {
    var encoded := env.encode(NewCreateBody(sessionID, params));
    if encoded.Failure? {
      return Some(EncodeFailed(encoded.error));
    }
    var buf := encoded.value;
    var reqErr := env.newRequest("POST", CreateEndpoint);
    if reqErr.Some? {
      return Some(RequestFailed(reqErr.value));
    }
    var header: map<string, string> := map[];
    header := SetHeader(header, AuthorizationHeader, BearerPrefix + creds.accessToken);
    header := SetHeader(header, ClientIdHeader, creds.clientID);
    header := SetHeader(header, ContentTypeHeader, JsonContentType);
    var res := env.send(Request("POST", CreateEndpoint, header, buf));
    if res.Failure? {
      return Some(TransportFailed(res.error));
    }
    if res.value.statusCode != StatusAccepted {
      return Some(BadStatus(res.value.statusCode, res.value.body));
    }
    return None;
  }

  // ---------------------------------------------------------------------
  // The error text
  // ---------------------------------------------------------------------

  /** The index of the first space in `s`, if there is one. */
  function FirstSpace(s: string): (r: Option<nat>)
    ensures r.Some? ==> r.value < |s| && s[r.value] == ' ' && forall j :: 0 <= j < r.value ==> s[j] != ' '
    ensures r.None? ==> forall j :: 0 <= j < |s| ==> s[j] != ' '
    decreases |s|
  {
    if s == [] then None
    else if s[0] == ' ' then Some(0)
    else match FirstSpace(s[1..])
      case None => None
      case Some(k) => Some(k + 1)
  }

  /** How an error reads when it is logged; a bad status renders as `%d %s`. */
  function ErrorText(e: ApiError): string {
    match e
    case EncodeFailed(reason) => reason
    case RequestFailed(reason) => reason
    case TransportFailed(reason) => reason
    case BadStatus(code, body) => BadStatusPrefix + FormatInt(code) + " " + body
  }

  /** Reads the status code and response body back out of a bad-status text. */
  function ParseBadStatus(text: string): Option<(int, string)> {
    if |text| < |BadStatusPrefix| || text[..|BadStatusPrefix|] != BadStatusPrefix then None
    else
      var rest := text[|BadStatusPrefix|..];
      match FirstSpace(rest)
      case None => None
      case Some(k) =>
        match ParseInt(rest[..k])
        case None => None
        case Some(code) => Some((code, rest[k + 1..]))
  }

  /** The text of a bad-status error carries its status code and the whole body. */
  lemma BadStatusTextCarriesCodeAndBody(code: int, body: string)
    ensures ParseBadStatus(ErrorText(BadStatus(code, body))) == Some((code, body))
  {
    var digits := FormatInt(code);
    var rest := digits + " " + body;
    var text := BadStatusPrefix + rest;
    assert text == ErrorText(BadStatus(code, body));
    assert text[..|BadStatusPrefix|] == BadStatusPrefix;
    assert text[|BadStatusPrefix|..] == rest;
    assert rest[|digits|] == ' ';
    assert FirstSpace(rest) == Some(|digits|);
    assert rest[..|digits|] == digits;
    assert rest[|digits| + 1..] == body;
  }
}
