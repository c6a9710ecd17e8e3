/**
 * The session protocol handler: the one piece of client state (the session
 * id), the dispatch of each decoded envelope by message type, and the
 * welcome handler's registration call, which is fatal when it fails.
 *
 * `Step` and `Run` are the specification: the effect of one envelope and of
 * a stream of envelopes on the session id and on the record of what handling
 * did (registration calls, reported decode failures, process exit).
 * `SessionContext` is the imperative handler proved against `Step`.
 */
module Dispatcher {
  import opened Wrappers
  import opened Types
  import opened Api
  import opened Startup

  /** One call of the registrar, with the outcome it returned. */
  datatype RegistrationCall = RegistrationCall(
    sessionID: string,
    params: CreateParams,
    creds: Credentials,
    result: Option<ApiError>)

  /** A decode failure that was logged and swallowed. */
  datatype Report =
    | MalformedPayload(kind: MessageKind)
    | MalformedEvent(messageID: string)

  /**
   * The session id and what handling has done so far: the registration calls
   * in order, the reported decode failures in order, and the exit status once
   * the process has terminated.
   */
  datatype State = State(
    sessionID: string,
    registrations: seq<RegistrationCall>,
    reports: seq<Report>,
    exitStatus: Option<int>)

  /** The state of a fresh connection: no session id yet, nothing done. */
  const Initial := State("", [], [], None)

  /** The subscription the configuration asks for. */
  function ParamsOf(cfg: Config): CreateParams {
    CreateParams(cfg.subscriptionType, cfg.subscriptionVersion, cfg.condition)
  }

  /** The credentials the configuration holds. */
  function CredentialsOf(cfg: Config): Credentials {
    Credentials(cfg.clientID, cfg.authToken)
  }

  /** The registration `processWelcome` makes for a session id. */
  function RegisterFor(id: string, cfg: Config, env: Env): RegistrationCall {
    var result := Outcome(id, ParamsOf(cfg), CredentialsOf(cfg), env);
    RegistrationCall(id, ParamsOf(cfg), CredentialsOf(cfg), result)
  }

  /**
   * `processWelcome`: store the session id, then register the configured
   * subscription for it exactly once; a failed registration terminates the
   * process with status 1.
   */
  function Welcome(s: State, p: SessionWelcomePayload, cfg: Config, env: Env): State {
    var call := RegisterFor(p.session.id, cfg, env);
    s.(sessionID := p.session.id,
       registrations := s.registrations + [call],
       exitStatus := if call.result.Some? then Some(FatalExitStatus) else s.exitStatus)
  }

  /** `processNotification`: an event body that does not decode is reported and dropped. */
  function NotificationStep(s: State, msg: Message, p: NotificationPayload, dec: Decoder): State {
    if dec.event(p.event).None? then s.(reports := s.reports + [MalformedEvent(msg.metadata.messageID)])
    else s
  }

  /** The welcome payload of an envelope, when it is a welcome whose payload decodes. */
  function DecodedWelcome(msg: Message, dec: Decoder): Option<SessionWelcomePayload> {
    if KindOf(msg.metadata.messageType) == SessionWelcome then dec.welcome(msg.payload) else None
  }

  /**
   * `processMessage` on one envelope. Records only grow. An unrecognised
   * message type changes nothing. Only a decoded welcome touches the session
   * id, registers or exits: it sets the id to the payload's, makes one
   * registration call with that id and the configured subscription and
   * credentials, and exits with status 1 exactly when that call fails. A
   * payload of a known kind that does not decode is reported, and its
   * handler does not run.
   */
  function Step(s: State, msg: Message, cfg: Config, dec: Decoder, env: Env): (r: State)
    ensures s.registrations <= r.registrations && s.reports <= r.reports
    ensures KindOf(msg.metadata.messageType) == Unrecognized ==> r == s
    ensures DecodedWelcome(msg, dec).None? ==>
      && r.sessionID == s.sessionID
      && r.registrations == s.registrations
      && r.exitStatus == s.exitStatus
    ensures DecodedWelcome(msg, dec).Some? ==>
      var id := DecodedWelcome(msg, dec).value.session.id;
      var result := Outcome(id, ParamsOf(cfg), CredentialsOf(cfg), env);
      && r.sessionID == id
      && r.registrations
           == s.registrations + [RegistrationCall(id, ParamsOf(cfg), CredentialsOf(cfg), result)]
      && r.reports == s.reports
      && r.exitStatus == (if result.Some? then Some(FatalExitStatus) else s.exitStatus)
    ensures
      var kind := KindOf(msg.metadata.messageType);
      kind.HasPayload() && Project(kind, msg.payload, dec).None? ==>
        r == s.(reports := s.reports + [MalformedPayload(kind)])
    ensures
      var kind := KindOf(msg.metadata.messageType);
      kind == SessionKeepalive
        || (kind in {SessionReconnect, Revocation} && Project(kind, msg.payload, dec).Some?) ==>
        r == s
    ensures
      var kind := KindOf(msg.metadata.messageType);
      var p := Project(kind, msg.payload, dec);
      kind == Notification && p.Some? ==>
        && r.sessionID == s.sessionID
        && r.registrations == s.registrations
        && r.exitStatus == s.exitStatus
        && (dec.event(p.value.notification.event).None? <==>
              r.reports == s.reports + [MalformedEvent(msg.metadata.messageID)])
        && (dec.event(p.value.notification.event).Some? ==> r.reports == s.reports)
  {
    var kind := KindOf(msg.metadata.messageType);
    if !kind.HasPayload() then
      s  // a keepalive is only observed; an unrecognised type is ignored
    else
      match Project(kind, msg.payload, dec)
      case None => s.(reports := s.reports + [MalformedPayload(kind)])
      case Some(WelcomeOf(p)) => Welcome(s, p, cfg, env)
      case Some(NotificationOf(p)) => NotificationStep(s, msg, p, dec)
      case Some(ReconnectOf(_)) => s  // the reconnect URL is only observed
      case Some(RevocationOf(_)) => s  // the revocation is only observed
  }

  // ---------------------------------------------------------------------
  // A stream of envelopes on one connection
  // ---------------------------------------------------------------------

  /** One received envelope and the world its handling meets. */
  datatype Delivery = Delivery(msg: Message, env: Env)

  /**
   * Envelopes handled strictly in arrival order; once the process has exited,
   * nothing further is handled.
   */
  function Run(s: State, ds: seq<Delivery>, cfg: Config, dec: Decoder): State
    decreases |ds|
  {
    if ds == [] || s.exitStatus.Some? then s
    else Run(Step(s, ds[0].msg, cfg, dec, ds[0].env), ds[1..], cfg, dec)
  }

  /** The registration a delivery causes: one if it is a decoded welcome, else none. */
  function WelcomeCall(d: Delivery, cfg: Config, dec: Decoder): seq<RegistrationCall> {
    match DecodedWelcome(d.msg, dec)
    case None => []
    case Some(p) => [RegisterFor(p.session.id, cfg, d.env)]
  }

  /** The registrations a stream causes, one per decoded welcome, in arrival order. */
  function WelcomeCalls(ds: seq<Delivery>, cfg: Config, dec: Decoder): seq<RegistrationCall>
    decreases |ds|
  {
    if ds == [] then [] else WelcomeCall(ds[0], cfg, dec) + WelcomeCalls(ds[1..], cfg, dec)
  }

  /** The registration a delivery causes, if any, is accepted. */
  predicate CallAccepted(d: Delivery, cfg: Config, dec: Decoder) {
    forall c :: c in WelcomeCall(d, cfg, dec) ==> c.result.None?
  }

  /** Every registration the stream causes is accepted. */
  predicate AllAccepted(ds: seq<Delivery>, cfg: Config, dec: Decoder)
    decreases |ds|
  {
    ds == [] || (CallAccepted(ds[0], cfg, dec) && AllAccepted(ds[1..], cfg, dec))
  }

  /** The session id of the last call, or `default` when there is none. */
  function LastIdOr(calls: seq<RegistrationCall>, default: string): string {
    if calls == [] then default else calls[|calls| - 1].sessionID
  }

  /** One delivery in terms of the registration it causes. */
  lemma StepRegisters(s: State, d: Delivery, cfg: Config, dec: Decoder)
    ensures
      var next := Step(s, d.msg, cfg, dec, d.env);
      && next.registrations == s.registrations + WelcomeCall(d, cfg, dec)
      && next.sessionID == LastIdOr(WelcomeCall(d, cfg, dec), s.sessionID)
      && (next.exitStatus.Some? <==> s.exitStatus.Some? || !CallAccepted(d, cfg, dec))
  {
    if DecodedWelcome(d.msg, dec).Some? {
      var c := RegisterFor(DecodedWelcome(d.msg, dec).value.session.id, cfg, d.env);
      assert WelcomeCall(d, cfg, dec) == [c];
      assert c in WelcomeCall(d, cfg, dec);
    }
  }

  /** A stream whose first registration, if any, is accepted, after its first envelope. */
  lemma RunAfterAccepted(s: State, ds: seq<Delivery>, cfg: Config, dec: Decoder)
    requires s.exitStatus.None? && ds != [] && CallAccepted(ds[0], cfg, dec)
    ensures
      var next := Step(s, ds[0].msg, cfg, dec, ds[0].env);
      && next.exitStatus.None?
      && Run(s, ds, cfg, dec) == Run(next, ds[1..], cfg, dec)
      && next.registrations == s.registrations + WelcomeCall(ds[0], cfg, dec)
      && next.sessionID == LastIdOr(WelcomeCall(ds[0], cfg, dec), s.sessionID)
      && WelcomeCalls(ds, cfg, dec) == WelcomeCall(ds[0], cfg, dec) + WelcomeCalls(ds[1..], cfg, dec)
  {
    StepRegisters(s, ds[0], cfg, dec);
  }

  /** A stream whose first envelope is a welcome whose registration is refused. */
  lemma RunAfterRefused(s: State, ds: seq<Delivery>, cfg: Config, dec: Decoder)
    requires s.exitStatus.None? && ds != [] && !CallAccepted(ds[0], cfg, dec)
    ensures
      var next := Step(s, ds[0].msg, cfg, dec, ds[0].env);
      && next.exitStatus == Some(FatalExitStatus)
      && Run(s, ds, cfg, dec) == next
      && next.registrations == s.registrations + WelcomeCall(ds[0], cfg, dec)
      && next.sessionID == DecodedWelcome(ds[0].msg, dec).value.session.id
      && WelcomeCalls(ds, cfg, dec) == WelcomeCall(ds[0], cfg, dec) + WelcomeCalls(ds[1..], cfg, dec)
  {
    StepRegisters(s, ds[0], cfg, dec);
  }

  lemma CallsConcat(
    a: seq<RegistrationCall>, head: seq<RegistrationCall>, tail: seq<RegistrationCall>, d: string)
    ensures (a + head) + tail == a + (head + tail)
    ensures LastIdOr(head + tail, d) == LastIdOr(tail, LastIdOr(head, d))
  {
    if tail != [] {
      assert (head + tail)[|head + tail| - 1] == tail[|tail| - 1];
    } else {
      assert head + tail == head;
    }
  }

  /**
   * While every registration is accepted, each decoded welcome registers
   * once, in order and without de-duplication, the process keeps running, and
   * the session id ends as the last welcome's id (unchanged if there was none).
   */
  lemma {:induction false} RunRegistersEveryWelcome(s: State, ds: seq<Delivery>, cfg: Config, dec: Decoder)
    requires s.exitStatus.None?
    requires AllAccepted(ds, cfg, dec)
    ensures Run(s, ds, cfg, dec).exitStatus.None?
    ensures Run(s, ds, cfg, dec).registrations == s.registrations + WelcomeCalls(ds, cfg, dec)
    ensures Run(s, ds, cfg, dec).sessionID == LastIdOr(WelcomeCalls(ds, cfg, dec), s.sessionID)
    decreases |ds|
  {
    if ds != [] {
      var next := Step(s, ds[0].msg, cfg, dec, ds[0].env);
      RunAfterAccepted(s, ds, cfg, dec);
      RunRegistersEveryWelcome(next, ds[1..], cfg, dec);
      CallsConcat(
        s.registrations, WelcomeCall(ds[0], cfg, dec), WelcomeCalls(ds[1..], cfg, dec), s.sessionID);
    }
  }

  /** How the first k + 1 deliveries of a stream relate to its first delivery and its tail. */
  lemma PrefixFacts(ds: seq<Delivery>, k: nat, cfg: Config, dec: Decoder)
    requires k < |ds| && AllAccepted(ds[..k], cfg, dec)
    ensures ds[..k + 1][0] == ds[0]
    ensures k == 0 ==> ds[..k + 1][1..] == []
    ensures 0 < k ==> ds[1..][..k] == ds[..k + 1][1..]
    ensures 0 < k ==> CallAccepted(ds[0], cfg, dec) && AllAccepted(ds[1..][..k - 1], cfg, dec)
  {
    if 0 < k {
      assert ds[..k][0] == ds[0] && ds[..k][1..] == ds[1..][..k - 1];
    }
  }

  /**
   * When the k-th envelope is a decoded welcome whose registration is the
   * first one refused, the process exits there with status 1: the session id
   * is that welcome's, registrations stop with it, and no later envelope is
   * handled.
   */
  lemma {:induction false} RunHaltsAtRefusedRegistration(
    s: State, ds: seq<Delivery>, k: nat, cfg: Config, dec: Decoder)
    requires s.exitStatus.None?
    requires k < |ds|
    requires AllAccepted(ds[..k], cfg, dec)
    requires !CallAccepted(ds[k], cfg, dec)
    ensures Run(s, ds, cfg, dec).exitStatus == Some(FatalExitStatus)
    ensures Run(s, ds, cfg, dec) == Run(s, ds[..k + 1], cfg, dec)
    ensures Run(s, ds, cfg, dec).sessionID == DecodedWelcome(ds[k].msg, dec).value.session.id
    ensures Run(s, ds, cfg, dec).registrations == s.registrations + WelcomeCalls(ds[..k + 1], cfg, dec)
    decreases k
  {
    var prefix := ds[..k + 1];
    PrefixFacts(ds, k, cfg, dec);
    if k == 0 {
      RunAfterRefused(s, ds, cfg, dec);
      RunAfterRefused(s, prefix, cfg, dec);
    } else {
      var next := Step(s, ds[0].msg, cfg, dec, ds[0].env);
      RunAfterAccepted(s, ds, cfg, dec);
      RunAfterAccepted(s, prefix, cfg, dec);
      RunHaltsAtRefusedRegistration(next, ds[1..], k - 1, cfg, dec);
      CallsConcat(
        s.registrations, WelcomeCall(ds[0], cfg, dec), WelcomeCalls(prefix[1..], cfg, dec), s.sessionID);
    }
  }

  /**
   * Two welcomes on one connection, both accepted, register twice, even when
   * they carry the same id; the second one's id is the one kept.
   */
  lemma RepeatedWelcomeRegistersAgain(d1: Delivery, d2: Delivery, cfg: Config, dec: Decoder)
    requires DecodedWelcome(d1.msg, dec).Some? && DecodedWelcome(d2.msg, dec).Some?
    requires AllAccepted([d1, d2], cfg, dec)
    ensures
      var first := DecodedWelcome(d1.msg, dec).value.session.id;
      var second := DecodedWelcome(d2.msg, dec).value.session.id;
      var r := Run(Initial, [d1, d2], cfg, dec);
      && |r.registrations| == 2
      && r.registrations[0].sessionID == first
      && r.registrations[1].sessionID == second
      && r.sessionID == second
  {
    var ds := [d1, d2];
    assert ds[1..] == [d2];
    assert WelcomeCalls([d2], cfg, dec) == WelcomeCall(d2, cfg, dec) + WelcomeCalls([], cfg, dec);
    RunRegistersEveryWelcome(Initial, ds, cfg, dec);
  }

  // ---------------------------------------------------------------------
  // The imperative handler
  // ---------------------------------------------------------------------

  /**
   * The per-connection session: its id (empty until a welcome arrives), the
   * configuration the handlers read, and a ghost record of what handling did.
   */
  class SessionContext {
    var sessionID: string
    ghost var registrations: seq<RegistrationCall>
    ghost var reports: seq<Report>
    ghost var exitStatus: Option<int>
    const config: Config

    ghost function Current(): State
      reads this
    {
      State(sessionID, registrations, reports, exitStatus)
    }

    constructor (config: Config)
      ensures Current() == Initial && this.config == config
    {
      sessionID := "";
      registrations := [];
      reports := [];
      exitStatus := None;
      this.config := config;
    }

    /**
     * `processMessage`: dispatch on the message type; each payload of a known
     * kind is decoded into its shape first, and a failed decode is reported
     * and skips the handler. A terminated process handles nothing.
     */
    method ProcessMessage(msg: Message, dec: Decoder, env: Env)
      requires exitStatus.None?
      modifies this
      ensures Current() == Step(old(Current()), msg, config, dec, env)
    {
      var kind := KindOf(msg.metadata.messageType);
      match kind {
        case SessionWelcome =>
          var payload := dec.welcome(msg.payload);
          if payload.None? {
            reports := reports + [MalformedPayload(kind)];
            return;
          }
          ProcessWelcome(msg, payload.value, env);
        case SessionKeepalive =>
          ProcessKeepalive(msg);
        case Notification =>
          var payload := dec.notification(msg.payload);
          if payload.None? {
            reports := reports + [MalformedPayload(kind)];
            return;
          }
          ProcessNotification(msg, payload.value, dec);
        case SessionReconnect =>
          var payload := dec.reconnect(msg.payload);
          if payload.None? {
            reports := reports + [MalformedPayload(kind)];
            return;
          }
          ProcessReconnect(msg, payload.value);
        case Revocation =>
          var payload := dec.revocation(msg.payload);
          if payload.None? {
            reports := reports + [MalformedPayload(kind)];
            return;
          }
          ProcessRevocation(msg, payload.value);
        case Unrecognized =>
      }
    }

    /**
     * `processWelcome`: the id is stored first, and the registration call
     * carries the stored id; a failed registration exits with status 1.
     */
    method ProcessWelcome(msg: Message, payload: SessionWelcomePayload, env: Env)
      modifies this`sessionID, this`registrations, this`exitStatus
      ensures Current() == Welcome(old(Current()), payload, config, env)
    {
      sessionID := payload.session.id;
      var params := ParamsOf(config);
      var creds := CredentialsOf(config);
      var err := CreateWebsocketSubscription(sessionID, params, creds, env);
      registrations := registrations + [RegistrationCall(sessionID, params, creds, err)];
      if err.Some? {
        exitStatus := Some(FatalExitStatus);
      }
    }

    /** `processKeepalive` only logs: it has nothing it may modify. */
    method ProcessKeepalive(msg: Message) {
    }

    /**
     * `processNotification`: decodes the event generically; a failure is
     * reported and the delivery dropped. Only the reports may change.
     */
    method ProcessNotification(msg: Message, payload: NotificationPayload, dec: Decoder)
      modifies this`reports
      ensures Current() == NotificationStep(old(Current()), msg, payload, dec)
    {
      var event := dec.event(payload.event);
      if event.None? {
        reports := reports + [MalformedEvent(msg.metadata.messageID)];
      }
    }

    /** `processReconnect` only logs: it has nothing it may modify. */
    method ProcessReconnect(msg: Message, payload: ReconnectPayload) {
    }

    /** `processRevocation` only logs: it has nothing it may modify. */
    method ProcessRevocation(msg: Message, payload: RevocationPayload) {
    }
  }
}
