# EventSub WebSocket debugger: a Dafny model of its session handler

The program connects to Twitch EventSub over a WebSocket. For each frame it
decodes an envelope (metadata plus a payload that stays undecoded) and
dispatches on the envelope's `message_type`. On `session_welcome` it stores the
session id the server assigned. It then registers one subscription for that
session through the Helix `POST /eventsub/subscriptions` call. Only
`202 Accepted` counts as success, and a failed registration ends the process
with status 1. Before connecting, it refuses to start unless client id, token,
subscription type, version and condition are all set.

The model has six modules, one per source file or concern:

- `Wrappers`: `Option` and `Result`.
- `Format`: decimal rendering of integers, as `%d` writes it, and the parse
  that reads it back.
- `Types` (types.go): the envelope, session, subscription and payload records.
  It also holds the message-kind classification and the payload projection.
  The projection is a tagged union keyed by the kind. The module also covers
  the member-level encoding fixed by the struct tags: field names, `omitempty`,
  and a nullable `reconnect_url`.
- `Api` (api.go): the registration request, meaning the body, the headers and
  the request actually sent. It has the early-return method
  `CreateWebsocketSubscription` and the outcome it is proved equal to. It also
  has the `bad status code: %d %s` error text.
- `Startup` (main.go, flag checks): the five required flags.
- `Dispatcher` (main.go, `session`): the functional specification `Step` for
  one envelope and `Run` for a stream of envelopes in arrival order, the
  lemmas about them, and the class `SessionContext` with its one mutable field
  `sessionID`. Its methods are proved against `Step`.

The outside world enters as parameters:

- `Types.Decoder` holds the answers of `json.Unmarshal`, one function per
  payload shape plus the generic event map. `None` means the decoder reported
  an error.
- `Api.Env` holds the JSON encoder, `http.NewRequest` and the HTTP client's
  `Do`.
- The configuration is a value given to the session at construction, not
  global flags.

A session records the registration calls it made and the decode failures it
reported. It also records the exit status once the process has exited. These
are ghost fields of the class and plain fields of the specification state.

Behaviour of the code that the model keeps:

- The transport method sent in the registration body is `"websocket"`
  (api.go:47-48).
- The session id is a plain string that starts empty (main.go:51) and is
  overwritten by every welcome.
- A successful registration returns only "no error". The response is never
  decoded into a subscription; its body is read only for the error text of a
  bad status (api.go:74-79).
- Keepalive, reconnect and revocation handling only log (main.go:140-142,
  main.go:158-166).
- A notification whose event body does not decode is logged and dropped
  (main.go:144-156).
- The fifth startup message reads "Condition version must be set"
  (main.go:43-45).

## Model

| member | source | states |
|---|---|---|
| Format.FormatInt | api.go:76 | `%d` rendering of the status code: a minus sign exactly when negative, then the magnitude's digits with no leading zero; parsing it back gives the same integer, and it contains no space |
| Types.KindOf | main.go:88-119 | a `message_type` maps to a known kind exactly when it is that kind's name; every other string is `Unrecognized` |
| Types.Project | main.go:88-119 | the payload is decoded only into the one shape its kind calls for, and the result's tag always agrees with the kind; keepalive and unrecognised kinds are never projected; a known kind's projection fails exactly when the decoder rejects the payload for that shape |
| Types.EncodeMetadata | types.go:18-25 | `subscription_type` and `subscription_version` are written exactly when non-empty (`omitempty`); decoding the members gives the metadata back exactly when its timestamp text is RFC 3339 |
| Types.EncodeSession | types.go:27-33 | `reconnect_url` is written exactly when the pointer is present; decoding gives the session back exactly when its connection time is RFC 3339, so absent and present URLs stay distinct |
| Types.DecodedMetadataRoundTrips | types.go:18-25 | every metadata that decodes has an RFC 3339 timestamp, absent and null ones included, so encoding it and decoding again gives it back |
| Types.DecodedSessionRoundTrips | types.go:27-33 | every session that decodes has an RFC 3339 connection time, so encoding it and decoding again gives it back |
| Types.ZeroInstantIsRfc3339 | types.go:21 | the zero time that an absent or null timestamp decodes to is itself RFC 3339 |
| Types.StringMembersAreUntyped | types.go:19-21 | for every string: a string member takes it unchanged, even when it reads as a time; a time member takes it exactly when it is strict RFC 3339; a date past the end of its month (29 February 2023) is refused |
| Types.ReconnectURLAbsentIsNotEmpty | types.go:32 | a reconnect URL pointing at "" encodes differently from no reconnect URL |
| Api.NewCreateBody | api.go:43-51 | the body's type, version and condition read back as the caller's params unchanged; its transport is method `"websocket"` with the given session id |
| Api.BodyDeterminedByInputs | api.go:33-51 | every WebSocket body is the one built from the params and session id read back from it, so body and inputs determine each other |
| Api.RequestHeaders | api.go:63-65 | exactly the headers `Authorization`, `Client-Id`, `Content-Type`; the `Authorization` value is a bearer credential (section 2.1 of RFC 6750) whose token is the access token; `Client-Id` is the client id; the content type is `application/json` |
| Api.SentRequest | api.go:40-67 | a request reaches the HTTP client exactly when the body encoded and the request could be built; it is a POST to the create endpoint carrying the encoded body and exactly the three headers |
| Api.Outcome | api.go:40-80 | success exactly when the sent request is answered with status 202; any other answered status, 200 included, is `BadStatus` carrying that status and body; encode, request-construction and transport failures are reported as such, before any status is examined |
| Api.CreateWebsocketSubscription | api.go:40-80 | the step-by-step method with its early returns computes exactly `Outcome` |
| Api.BadStatusTextCarriesCodeAndBody | api.go:74-77 | the text of a bad-status error can be parsed back into its status code and the whole response body |
| Startup.FirstMissing | main.go:31-45 | no message exactly when every required value is non-empty; otherwise the message of the first empty one in check order |
| Startup.CheckConfig | main.go:31-45 | startup is accepted exactly when client id, token, subscription type, version and condition are all non-empty; otherwise the fatal message is that of the first empty one |
| Dispatcher.Step | main.go:87-166 | records only grow; an unrecognised type changes nothing; anything but a decoded welcome leaves the session id, the registrations and the exit status alone; a decoded welcome sets the id to the payload's, appends one registration with that id and the configured params and credentials, and exits with 1 exactly when it fails; a known kind whose payload does not decode is reported and its handler skipped; a keepalive, or a decoded reconnect or revocation, changes nothing; a decoded notification changes only the reports, adding a malformed-event report exactly when its event body does not decode |
| Dispatcher.StepRegisters | main.go:122-138 | one envelope adds exactly the registration its welcome causes, if any; the id becomes that welcome's; the process exits exactly when that registration fails |
| Dispatcher.RunRegistersEveryWelcome | main.go:59-68 | over a stream whose registrations are all accepted, each decoded welcome registers once, in arrival order, with no de-duplication; the process keeps running; the session id ends as the last welcome's id, or is unchanged if there was none |
| Dispatcher.RunHaltsAtRefusedRegistration | main.go:134-137 | when the k-th envelope's registration is the first refused, the process exits with status 1 there; the id is that welcome's; registrations stop with it; later envelopes have no effect |
| Dispatcher.RepeatedWelcomeRegistersAgain | main.go:122-133 | two accepted welcomes on one connection give two registrations, even when their ids are equal, and the second id is kept |
| Dispatcher.SessionContext.constructor | main.go:51 | a new session has an empty id and has registered, reported and exited nothing |
| Dispatcher.SessionContext.ProcessMessage | main.go:87-120 | dispatching one envelope leaves the session in exactly the state `Step` gives |
| Dispatcher.SessionContext.ProcessWelcome | main.go:122-138 | stores the id before the one registration call, which carries the stored id; status 1 on failure; reports are untouched (frame) |
| Dispatcher.SessionContext.ProcessNotification | main.go:144-156 | an event body that does not decode is reported and dropped; nothing else may change (frame) |

`ProcessKeepalive`, `ProcessReconnect` and `ProcessRevocation` (main.go:140-142,
main.go:158-166) only log. They are methods with no `modifies` clause, so they
cannot change the session.

## Left out

- The WebSocket transport (connect, callbacks, auto-reconnect) and the failure
  of `ws.Connect`: network I/O in a library outside this model.
- Decoding a frame into the envelope (main.go:62-65): the model starts from
  a decoded `Message`. A frame that does not decode is returned to the
  transport library, which is not part of this model.
- Interrupt handling and process shutdown on a signal: OS signal plumbing.
- The HTTP client, its 5-second timeout and `io.ReadAll`: `Api.Env` stands for
  them. The response body is whatever was read.
- JSON text: the encoder and decoder appear only through their answers.
  Escaping, number ranges, case-insensitive key matching, and `Encode`'s
  validation of the raw condition are not modelled. Struct-tag behaviour is
  modelled on flat member maps for metadata and session only.
- Logging and pretty-printing, including the log of the encoded body.
- Timestamps: `time.Time` is kept as its text, with no arithmetic. Two texts
  for one instant (`Z` and `+00:00`) are two values. Encoding writes back the
  text that was read, where `time.Time` writes its own RFC 3339 form (trailing
  fraction zeros dropped, for example).
- Types.DecodeMetadata, Types.DecodeSession: a time member is read with the strict RFC 3339
  form only. `time.Time` falls back to a looser parse when that fails, and the
  model refuses what only the fallback accepts: a one-digit hour
  (`2024-01-01T1:00:00Z`), a comma before the fraction, and offsets with hour
  24 or minute 60 (`+24:00`, `+00:60`). EventSub timestamps use the strict
  form.
- `Types.Subscription` and the notification and revocation payloads get no
  member-level encoding: their handlers only log them.
- Frames that arrive after `os.Exit` are not modelled. `ProcessMessage`
  requires a running process, because the exit ends the program.
