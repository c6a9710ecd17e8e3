/**
 * The EventSub wire shapes: the envelope every WebSocket frame decodes to,
 * the session and subscription records the server asserts, and the four
 * payload shapes, which stay undecoded until the envelope's message type is
 * known.
 */
module Types {
  import opened Wrappers
  import opened Format

  /**
   * A `time.Time`, kept as its RFC 3339 text: no arithmetic is done on
   * timestamps. Every time the program holds was decoded from JSON, so its
   * text satisfies `IsRfc3339`.
   */
  datatype Instant = Instant(rfc3339: string)

  /** The zero `time.Time`, which a missing or null timestamp decodes to. */
  const ZeroInstant := Instant("0001-01-01T00:00:00Z")

  /** Two decimal digits at `i`. */
  predicate TwoDigitsAt(s: string, i: nat) {
    i + 2 <= |s| && IsDigit(s[i]) && IsDigit(s[i + 1])
  }

  /** The number two decimal digits at `i` denote. */
  function TwoDigitValue(s: string, i: nat): (v: nat)
    requires TwoDigitsAt(s, i)
    ensures v < 100
  {
    DigitValue(s[i]) * 10 + DigitValue(s[i + 1])
  }

  /** Two decimal digits at `i` denoting a number in `lo..hi`. */
  predicate InRange(s: string, i: nat, lo: nat, hi: nat) {
    TwoDigitsAt(s, i) && lo <= TwoDigitValue(s, i) <= hi
  }

  /** The days of a month in the proleptic Gregorian calendar. */
  function DaysIn(month: nat, year: nat): nat {
    if month == 2 then (if year % 4 == 0 && (year % 100 != 0 || year % 400 == 0) then 29 else 28)
    else if month == 4 || month == 6 || month == 9 || month == 11 then 30
    else 31
  }

  /** The year in the first four characters, when they are digits. */
  function YearValue(s: string): nat
    requires 4 <= |s| && IsDigit(s[0]) && IsDigit(s[1]) && IsDigit(s[2]) && IsDigit(s[3])
  {
    TwoDigitValue(s, 0) * 100 + TwoDigitValue(s, 2)
  }

  /**
   * The strict RFC 3339 form, as Go's fast timestamp parse accepts it:
   * `yyyy-mm-ddThh:mm:ss`, an optional fraction (`.` and at least one
   * digit), then `Z` or an offset `+hh:mm` or `-hh:mm`. Month, day (against the month and leap year), hour,
   * minute, second and the offset's hour and minute are range-checked.
   */
  predicate IsRfc3339(s: string) {
    && 20 <= |s|
    && TwoDigitsAt(s, 0) && TwoDigitsAt(s, 2) && s[4] == '-' && InRange(s, 5, 1, 12)
    && s[7] == '-' && InRange(s, 8, 1, DaysIn(TwoDigitValue(s, 5), YearValue(s)))
    && s[10] == 'T' && InRange(s, 11, 0, 23) && s[13] == ':' && InRange(s, 14, 0, 59)
    && s[16] == ':' && InRange(s, 17, 0, 59)
    && var end := if s[|s| - 1] == 'Z' then |s| - 1 else |s| - 6;
       && 19 <= end
       && (end == 19 || (21 <= end && s[19] == '.' && forall j :: 20 <= j < end ==> IsDigit(s[j])))
       && (end == |s| - 1
           || ((s[end] == '+' || s[end] == '-') && InRange(s, end + 1, 0, 23)
               && s[end + 3] == ':' && InRange(s, end + 4, 0, 59)))
  }

  /** A `json.RawMessage`: a JSON value carried as undecoded text. */
  type RawMessage = string

  /** A delivery target: a transport method name and the session it names. */
  datatype Transport = Transport(methodName: string, sessionID: string)

  /**
   * Envelope metadata. `subscriptionType` and `subscriptionVersion` are the
   * empty string when the server did not send them.
   */
  datatype MessageMetadata = MessageMetadata(
    messageID: string,
    messageType: string,
    messageTimestamp: Instant,
    subscriptionType: string,
    subscriptionVersion: string)

  /** One decoded frame: metadata plus a payload that is not yet interpreted. */
  datatype Message = Message(metadata: MessageMetadata, payload: RawMessage)

  /** A session as the server asserts it; `reconnectURL` is a nullable pointer. */
  datatype Session = Session(
    id: string,
    status: string,
    connectedAt: Instant,
    keepaliveTimeoutSeconds: int,
    reconnectURL: Option<string>)

  datatype SessionWelcomePayload = SessionWelcomePayload(session: Session)

  datatype Subscription = Subscription(
    id: string,
    status: string,
    subscriptionType: string,
    version: string,
    cost: int,
    condition: RawMessage,
    transport: Transport,
    createdAt: Instant)

  /** A delivered event: its subscription and the event body, still undecoded. */
  datatype NotificationPayload = NotificationPayload(subscription: Subscription, event: RawMessage)

  datatype ReconnectPayload = ReconnectPayload(session: Session)

  datatype RevocationPayload = RevocationPayload(subscription: Subscription)

  /** The event body once decoded generically, as a `map[string]any`. */
  type EventData = map<string, RawMessage>

  // ---------------------------------------------------------------------
  // Message kinds and the payload projection
  // ---------------------------------------------------------------------

  /** The five message types the dispatcher knows, and everything else. */
  datatype MessageKind =
    | SessionWelcome
    | SessionKeepalive
    | Notification
    | SessionReconnect
    | Revocation
    | Unrecognized
  {
    /** Kinds whose payload is projected into a shape before handling. */
    predicate HasPayload() {
      this != SessionKeepalive && this != Unrecognized
    }
  }

  /** The `message_type` string that names a known kind. */
  function KindName(k: MessageKind): string
    requires k != Unrecognized
  {
    match k
    case SessionWelcome => "session_welcome"
    case SessionKeepalive => "session_keepalive"
    case Notification => "notification"
    case SessionReconnect => "session_reconnect"
    case Revocation => "revocation"
  }

  /**
   * Classifies a `message_type` string: a known kind exactly when the string
   * is that kind's name, and `Unrecognized` when it names no known kind.
   */
  function KindOf(messageType: string): (k: MessageKind)
    ensures k != Unrecognized ==> KindName(k) == messageType
    ensures k == Unrecognized <==>
      forall known: MessageKind :: known != Unrecognized ==> KindName(known) != messageType
  {
    if messageType == "session_welcome" then SessionWelcome
    else if messageType == "session_keepalive" then SessionKeepalive
    else if messageType == "notification" then Notification
    else if messageType == "session_reconnect" then SessionReconnect
    else if messageType == "revocation" then Revocation
    else Unrecognized
  }

  /** A payload projected according to its envelope's kind: a tagged union. */
  datatype Payload =
    | WelcomeOf(welcome: SessionWelcomePayload)
    | NotificationOf(notification: NotificationPayload)
    | ReconnectOf(reconnect: ReconnectPayload)
    | RevocationOf(revocation: RevocationPayload)
  {
    function Kind(): MessageKind {
      match this
      case WelcomeOf(_) => SessionWelcome
      case NotificationOf(_) => Notification
      case ReconnectOf(_) => SessionReconnect
      case RevocationOf(_) => Revocation
    }
  }

  /**
   * `json.Unmarshal` into each payload shape, and into the generic event map.
   * The JSON decoder itself is not part of this model: each field is the
   * decoder's answer for one target shape, `None` when it reports an error.
   */
  datatype Decoder = Decoder(
    welcome: RawMessage -> Option<SessionWelcomePayload>,
    notification: RawMessage -> Option<NotificationPayload>,
    reconnect: RawMessage -> Option<ReconnectPayload>,
    revocation: RawMessage -> Option<RevocationPayload>,
    event: RawMessage -> Option<EventData>)

  /**
   * Decodes a payload into the one shape its kind calls for. The result's tag
   * always agrees with the kind; kinds without a payload shape are never
   * projected; for the others the projection fails exactly when the decoder
   * rejects the payload for that shape.
   */
  function Project(kind: MessageKind, raw: RawMessage, dec: Decoder): (r: Option<Payload>)
    ensures r.Some? ==> r.value.Kind() == kind
    ensures !kind.HasPayload() ==> r == None
    ensures kind == SessionWelcome ==> (r.None? <==> dec.welcome(raw).None?)
    ensures kind == Notification ==> (r.None? <==> dec.notification(raw).None?)
    ensures kind == SessionReconnect ==> (r.None? <==> dec.reconnect(raw).None?)
    ensures kind == Revocation ==> (r.None? <==> dec.revocation(raw).None?)
    ensures r.Some? && r.value.WelcomeOf? ==> dec.welcome(raw) == Some(r.value.welcome)
    ensures r.Some? && r.value.NotificationOf? ==> dec.notification(raw) == Some(r.value.notification)
    ensures r.Some? && r.value.ReconnectOf? ==> dec.reconnect(raw) == Some(r.value.reconnect)
    ensures r.Some? && r.value.RevocationOf? ==> dec.revocation(raw) == Some(r.value.revocation)
  {
    match kind
    case SessionWelcome =>
      (match dec.welcome(raw) case None => None case Some(p) => Some(WelcomeOf(p)))
    case Notification =>
      (match dec.notification(raw) case None => None case Some(p) => Some(NotificationOf(p)))
    case SessionReconnect =>
      (match dec.reconnect(raw) case None => None case Some(p) => Some(ReconnectOf(p)))
    case Revocation =>
      (match dec.revocation(raw) case None => None case Some(p) => Some(RevocationOf(p)))
    case SessionKeepalive => None
    case Unrecognized => None
  }

  // ---------------------------------------------------------------------
  // Field-level encoding fixed by the struct tags
  // ---------------------------------------------------------------------

  /** A JSON member value as the struct tags see it. */
  datatype Scalar = Null | Text(text: string) | Number(number: int)

  /** A flat JSON object: member name to value. */
  type Object = map<string, Scalar>

  /** A string member: absent or null leaves the zero value "". */
  function TextField(o: Object, key: string): Option<string> {
    if key !in o then Some("")
    else match o[key]
      case Null => Some("")
      case Text(s) => Some(s)
      case _ => None
  }

  /**
   * A `time.Time` member: absent or null leaves the zero time; a string is
   * parsed as RFC 3339 and fails the decode when it is not.
   */
  function StampField(o: Object, key: string): Option<Instant> {
    if key !in o then Some(ZeroInstant)
    else match o[key]
      case Null => Some(ZeroInstant)
      case Text(t) => if IsRfc3339(t) then Some(Instant(t)) else None
      case _ => None
  }

  /** A timestamp written as its text is read back as the same instant. */
  lemma StampFieldReadsInstant(o: Object, key: string, t: Instant)
    requires key in o && o[key] == Text(t.rfc3339) && IsRfc3339(t.rfc3339)
    ensures StampField(o, key) == Some(t)
  {
  }

  /** An `int` member: absent or null leaves 0. */
  function NumberField(o: Object, key: string): Option<int> {
    if key !in o then Some(0)
    else match o[key]
      case Null => Some(0)
      case Number(n) => Some(n)
      case _ => None
  }

  /** A `*string` member: absent or null is a nil pointer. */
  function PointerField(o: Object, key: string): Option<Option<string>> {
    if key !in o then Some(None)
    else match o[key]
      case Null => Some(None)
      case Text(s) => Some(Some(s))
      case _ => None
  }

  /**
   * Reads metadata members; a member of the wrong JSON kind, or a timestamp
   * that is not RFC 3339, fails the decode.
   */
  function DecodeMetadata(o: Object): Option<MessageMetadata> {
    match (TextField(o, "message_id"), TextField(o, "message_type"),
           StampField(o, "message_timestamp"),
           TextField(o, "subscription_type"), TextField(o, "subscription_version"))
    case (Some(id), Some(kind), Some(at), Some(st), Some(sv)) =>
      Some(MessageMetadata(id, kind, at, st, sv))
    case _ => None
  }

  /**
   * Writes metadata members. The subscription type and version carry
   * `omitempty`: each is written exactly when it is non-empty, and decoding
   * gives back the metadata unchanged.
   */
  function EncodeMetadata(m: MessageMetadata): (o: Object)
    ensures "subscription_type" in o <==> m.subscriptionType != ""
    ensures "subscription_version" in o <==> m.subscriptionVersion != ""
    ensures DecodeMetadata(o) == if IsRfc3339(m.messageTimestamp.rfc3339) then Some(m) else None
  {
    var base := map["message_id" := Text(m.messageID),
                    "message_type" := Text(m.messageType),
                    "message_timestamp" := Text(m.messageTimestamp.rfc3339)];
    var withType := if m.subscriptionType == "" then base
                    else base["subscription_type" := Text(m.subscriptionType)];
    var o := if m.subscriptionVersion == "" then withType
             else withType["subscription_version" := Text(m.subscriptionVersion)];
    if IsRfc3339(m.messageTimestamp.rfc3339) then
      StampFieldReadsInstant(o, "message_timestamp", m.messageTimestamp);
      o
    else
      o
  }

  /** Reads session members; a missing or null `reconnect_url` is a nil pointer. */
  function DecodeSession(o: Object): Option<Session> {
    match (TextField(o, "id"), TextField(o, "status"), StampField(o, "connected_at"),
           NumberField(o, "keepalive_timeout_seconds"), PointerField(o, "reconnect_url"))
    case (Some(id), Some(status), Some(at), Some(timeout), Some(url)) =>
      Some(Session(id, status, at, timeout, url))
    case _ => None
  }

  /**
   * Writes session members. `reconnect_url` is a pointer with `omitempty`: it
   * is written exactly when present, even when it points at "", so an absent
   * URL and a present empty one stay distinct; decoding gives back the session.
   */
  function EncodeSession(s: Session): (o: Object)
    ensures "reconnect_url" in o <==> s.reconnectURL.Some?
    ensures DecodeSession(o) == if IsRfc3339(s.connectedAt.rfc3339) then Some(s) else None
  {
    var base := map["id" := Text(s.id),
                    "status" := Text(s.status),
                    "connected_at" := Text(s.connectedAt.rfc3339),
                    "keepalive_timeout_seconds" := Number(s.keepaliveTimeoutSeconds)];
    var o := match s.reconnectURL
      case None => base
      case Some(url) => base["reconnect_url" := Text(url)];
    if IsRfc3339(s.connectedAt.rfc3339) then
      StampFieldReadsInstant(o, "connected_at", s.connectedAt);
      o
    else
      o
  }

  /** An absent reconnect URL and a present empty one encode differently. */
  lemma ReconnectURLAbsentIsNotEmpty(s: Session)
    requires s.reconnectURL == Some("")
    ensures EncodeSession(s) != EncodeSession(s.(reconnectURL := None))
  {
    assert "reconnect_url" in EncodeSession(s);
  }

  /** The zero time, which absent and null timestamps decode to, is RFC 3339. */
  lemma ZeroInstantIsRfc3339()
    ensures IsRfc3339(ZeroInstant.rfc3339)
  {
    var s := ZeroInstant.rfc3339;
    assert |s| == 20 && s[19] == 'Z';
    assert InRange(s, 5, 1, 12) && TwoDigitValue(s, 5) == 1;
    assert InRange(s, 8, 1, 31);
    assert InRange(s, 11, 0, 23) && InRange(s, 14, 0, 59) && InRange(s, 17, 0, 59);
  }

  /** Every decoded envelope's timestamp is RFC 3339, so it encodes back. */
  lemma DecodedMetadataRoundTrips(o: Object)
    requires DecodeMetadata(o).Some?
    ensures IsRfc3339(DecodeMetadata(o).value.messageTimestamp.rfc3339)
    ensures DecodeMetadata(EncodeMetadata(DecodeMetadata(o).value)) == DecodeMetadata(o)
  {
    ZeroInstantIsRfc3339();
  }

  /** Every decoded session's connection time is RFC 3339, so it encodes back. */
  lemma DecodedSessionRoundTrips(o: Object)
    requires DecodeSession(o).Some?
    ensures IsRfc3339(DecodeSession(o).value.connectedAt.rfc3339)
    ensures DecodeSession(EncodeSession(DecodeSession(o).value)) == DecodeSession(o)
  {
    ZeroInstantIsRfc3339();
  }

  /**
   * A string member takes any JSON string, even one that reads as a time, and
   * a time member takes a string exactly when it is RFC 3339; a date past the
   * end of its month, such as 29 February 2023, is refused.
   */
  lemma StringMembersAreUntyped(t: string)
    ensures DecodeMetadata(map["message_id" := Text(t)])
      == Some(MessageMetadata(t, "", ZeroInstant, "", ""))
    ensures DecodeMetadata(map["message_timestamp" := Text(t)]).Some? <==> IsRfc3339(t)
    ensures DecodeMetadata(map["message_timestamp" := Text("2023-02-29T00:00:00Z")]) == None
  {
    ZeroInstantIsRfc3339();
    var feb := "2023-02-29T00:00:00Z";
    assert TwoDigitValue(feb, 0) == 20 && TwoDigitValue(feb, 2) == 23 && TwoDigitValue(feb, 5) == 2;
    assert DaysIn(2, YearValue(feb)) == 28 && TwoDigitValue(feb, 8) == 29;
    assert !IsRfc3339(feb);
  }
}
