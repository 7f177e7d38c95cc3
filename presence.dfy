/**
 * The connection manager of src-tauri/src/main.rs: the `connect_ipc`
 * command, which renews or requests authorization once, and the body of the
 * loop that reads one message from the host, updates the remembered channel
 * and user ids, writes follow-up requests and emits notices to the window.
 */
module Presence {
  import opened Wrappers
  import opened Json
  import opened Errors
  import opened Transport
  import opened Commands
  import LegacyIpc
  import LegacyAuth
  import IpcAuth

  /** The notices the window listens to. */
  datatype EventName = Error | CriticalError | VcSelect | VcInfo | VcMuteUpdate | VcUser | VcSpeak

  /** What a notice carries: an IPC failure, an authentication failure or a JSON document. */
  datatype NoticePayload = IpcFault(ipc: IpcError) | AuthFault(auth: AuthError) | Data(json: Json)

  datatype Notice = Notice(event: EventName, payload: NoticePayload)

  /** The ids the loop remembers between messages; both start as `null`. */
  datatype CurrentState = CurrentState(channelId: Json, userId: Json)

  /** The text of the failure to send the selected-channel query. */
  const QueryFailure: string := "Failed to send GET_SELECTED_VOICE_CHANNEL request."

  /** The texts of the failures the host reports with `evt: "ERROR"`. */
  const AuthorizeRefusal: string := "User cancelled the app authorization."
  const SubscribeRefusal: string := "Failed to subscribe to event."

  /** `{"in_vc": inVc}` */
  function SelectPayload(inVc: bool): Json
  {
    Obj(map["in_vc" := Bool(inVc)])
  }

  /**
   * How the loop reads a message: replies (no `evt`) by their `cmd`, host
   * errors by the failed `cmd`, and dispatched events by their `evt`.
   */
  datatype Kind =
    | ReadFailed
    | AuthorizeReply(code: Json)
    | AuthenticateReply(userId: Json)
    | NotInChannel
    | InChannel(channelId: Json, name: Json, voiceStates: Json)
    | OtherReply
    | AuthorizeRefused
    | SubscribeRefused
    | OtherError
    | SettingsUpdate(mute: Json, deaf: Json)
    | ChannelLeft
    | ChannelJoined(channelId: Json)
    | MemberChanged(joined: bool, data: Json)
    | MemberLeft(userId: Json)
    | Speaking(userId: Json, speaking: bool)
    | Ignored

  /** The branch of the loop body a received message takes. */
  function Classify(msg: Result<Json, string>): Kind
  {
    if msg.Err? then ReadFailed
    else
      var p := msg.value;
      var cmd := Get(p, "cmd");
      var evt := Get(p, "evt");
      var data := Get(p, "data");
      if evt == Null then
        if IsText(cmd, "AUTHORIZE") then AuthorizeReply(Get(data, "code"))
        else if IsText(cmd, "AUTHENTICATE") then AuthenticateReply(Get2(data, "user", "id"))
        else if IsText(cmd, "GET_SELECTED_VOICE_CHANNEL") then
          if data == Null then NotInChannel
          else InChannel(Get(data, "id"), Get(data, "name"), Get(data, "voice_states"))
        else OtherReply
      else if IsText(evt, "ERROR") then
        if IsText(cmd, "AUTHORIZE") then AuthorizeRefused
        else if IsText(cmd, "SUBSCRIBE") then SubscribeRefused
        else OtherError
      else if IsText(cmd, "DISPATCH") then
        if IsText(evt, "VOICE_SETTINGS_UPDATE") then SettingsUpdate(Get(data, "mute"), Get(data, "deaf"))
        else if IsText(evt, "VOICE_CHANNEL_SELECT") then
          if Get(data, "channel_id") == Null then ChannelLeft else ChannelJoined(Get(data, "channel_id"))
        else if IsText(evt, "VOICE_STATE_CREATE") then MemberChanged(true, data)
        else if IsText(evt, "VOICE_STATE_UPDATE") then MemberChanged(false, data)
        else if IsText(evt, "VOICE_STATE_DELETE") then MemberLeft(Get2(data, "user", "id"))
        else if IsText(evt, "SPEAKING_START") then Speaking(Get(data, "user_id"), true)
        else if IsText(evt, "SPEAKING_STOP") then Speaking(Get(data, "user_id"), false)
        else Ignored
      else Ignored
  }

  /** An AUTHORIZE reply whose `data.code` is not a string makes the loop panic on `unwrap`. */
  predicate Panics(msg: Result<Json, string>)
  {
    Classify(msg).AuthorizeReply? && !Classify(msg).code.Str?
  }

  /** One effect on the world outside the loop: a notice to the window, a write to the host or an outside call. */
  datatype Effect = Emit(notice: Notice) | Write(message: Json) | Call(call: ServiceCall)

  /** Each notice as an effect, in order. */
  function Emits(notices: seq<Notice>): (r: seq<Effect>)
    ensures |r| == |notices| && forall k :: 0 <= k < |r| ==> r[k] == Emit(notices[k])
  {
    seq(|notices|, k requires 0 <= k < |notices| => Emit(notices[k]))
  }

  /** Each message as a write, in order. */
  function Writes(messages: seq<Json>): (r: seq<Effect>)
    ensures |r| == |messages| && forall k :: 0 <= k < |r| ==> r[k] == Write(messages[k])
  {
    seq(|messages|, k requires 0 <= k < |messages| => Write(messages[k]))
  }

  /** Each call as an effect, in order. */
  function Calls(calls: seq<ServiceCall>): (r: seq<Effect>)
    ensures |r| == |calls| && forall k :: 0 <= k < |r| ==> r[k] == Call(calls[k])
  {
    seq(|calls|, k requires 0 <= k < |calls| => Call(calls[k]))
  }

  /** The notices of a trace, in order. */
  function Emitted(trace: seq<Effect>): seq<Notice>
  {
    if trace == [] then [] else (if trace[0].Emit? then [trace[0].notice] else []) + Emitted(trace[1..])
  }

  /** The writes of a trace, in order. */
  function Written(trace: seq<Effect>): seq<Json>
  {
    if trace == [] then [] else (if trace[0].Write? then [trace[0].message] else []) + Written(trace[1..])
  }

  /** The outside calls of a trace, in order. */
  function Called(trace: seq<Effect>): seq<ServiceCall>
  {
    if trace == [] then [] else (if trace[0].Call? then [trace[0].call] else []) + Called(trace[1..])
  }

  /**
   * What handling one message does: the state it leaves, and every effect it
   * has in the order it has them (`trace`). `notices`, `sent` and `calls` are
   * the effects on the window, on the host and on the outside services
   * alone, each in order.
   */
  datatype Reaction = Reaction(next: CurrentState, notices: seq<Notice>, sent: seq<Json>, calls: seq<ServiceCall>,
                               trace: seq<Effect>)

  /** A message that changes nothing and causes nothing. */
  function Quiet(state: CurrentState): Reaction
  {
    Reaction(state, [], [], [], [])
  }

  /** The `vc_user` notice for a member who joined or changed their voice state. */
  function MemberNotice(joined: bool, data: Json): Json
  {
    var voice := Get(data, "voice_state");
    Obj(map[
      "event" := Str(if joined then "JOIN" else "UPDATE"),
      "data" := Obj(map[
        "id" := Get2(data, "user", "id"),
        "username" := Get2(data, "user", "username"),
        "avatar" := Get2(data, "user", "avatar"),
        "nick" := Get(data, "nick"),
        "mute" := Get(voice, "mute"),
        "self_mute" := Get(voice, "self_mute"),
        "deaf" := Get(voice, "deaf"),
        "self_deaf" := Get(voice, "self_deaf")])])
  }

  /** The `vc_user` notice for a member who left: only the event name, no `data`. */
  const LeaveNotice: Json := Obj(map["event" := Str("LEAVE")])

  /** The `vc_speak` notice. */
  function SpeakNotice(userId: Json, isMe: bool, speaking: bool): Json
  {
    Obj(map["user_id" := userId, "is_me" := Bool(isMe), "speaking" := Bool(speaking)])
  }

  /** `a` followed by `b`, which starts in the state `a` leaves. */
  function Then(a: Reaction, b: Reaction): Reaction
  {
    Reaction(b.next, a.notices + b.notices, a.sent + b.sent, a.calls + b.calls, a.trace + b.trace)
  }

  /**
   * Logs that grew by `a`'s effects and then by `b`'s have grown by the
   * effects of `a` followed by `b`.
   */
  lemma ThenLogs(a: Reaction, b: Reaction, n0: seq<Notice>, n1: seq<Notice>, n2: seq<Notice>,
                 s0: seq<Json>, s1: seq<Json>, s2: seq<Json>,
                 c0: seq<ServiceCall>, c1: seq<ServiceCall>, c2: seq<ServiceCall>,
                 t0: seq<Effect>, t1: seq<Effect>, t2: seq<Effect>)
    requires n1 == n0 + a.notices && n2 == n1 + b.notices
    requires s1 == s0 + a.sent && s2 == s1 + b.sent
    requires c1 == c0 + a.calls && c2 == c1 + b.calls
    requires t1 == t0 + a.trace && t2 == t1 + b.trace
    ensures var ab := Then(a, b);
            n2 == n0 + ab.notices && s2 == s0 + ab.sent && c2 == c0 + ab.calls && t2 == t0 + ab.trace
  {
  }

  /** Emitting `notices` and nothing else. */
  function Announce(state: CurrentState, notices: seq<Notice>): Reaction
  {
    Reaction(state, notices, [], [], Emits(notices))
  }

  /** An emitted subscription failure, with the transport text dropped. */
  function SubscriptionFailure(event: EventName, outcome: Outcome<InternalIpcError>): seq<Notice>
  {
    if outcome.Fail? then [Notice(event, IpcFault(Public(outcome.error)))] else []
  }

  /** An emitted authentication failure. */
  function AuthFailure(event: EventName, outcome: Outcome<AuthError>): seq<Notice>
  {
    if outcome.Fail? then [Notice(event, AuthFault(outcome.error))] else []
  }

  /** A configuration-save failure, reported as `ConfigSave`. */
  function SaveFailure(fault: Option<string>): seq<Notice>
  {
    if fault.Some? then [Notice(Error, AuthFault(AuthError(ConfigSave, fault.value)))] else []
  }

  /** The outcome of the legacy `subscribe` write numbered `k` for `eventName` with `{}`. */
  function SubscribeOutcome(faults: map<nat, string>, k: nat, eventName: string, nonce: string): Outcome<InternalIpcError>
  {
    var payload := SubscribePayload(eventName, EmptyObject, true, nonce);
    if k in faults then Fail(LegacyIpc.SubscriptionError(payload, true, eventName, faults[k])) else Pass
  }

  /** Subscribing to `eventName` with `{}` as the write numbered `base`, reporting a failure under `event`. */
  function SubscribeReaction(state: CurrentState, event: EventName, faults: map<nat, string>, base: nat,
                             eventName: string, nonce: string): Reaction
  {
    var failure := SubscriptionFailure(event, SubscribeOutcome(faults, base, eventName, nonce));
    var payload := SubscribePayload(eventName, EmptyObject, true, nonce);
    Reaction(state, failure, [payload], [], [Write(payload)] + Emits(failure))
  }

  /** Writing the selected-channel query as the write numbered `base`, reporting a failure under `event`. */
  function QueryReaction(state: CurrentState, event: EventName, faults: map<nat, string>, base: nat, nonce: string)
    : Reaction
  {
    var failure := if base in faults then [Notice(event, IpcFault(IpcError(EventSend, QueryFailure, None)))] else [];
    Reaction(state, failure, [SelectedChannelQuery(nonce)], [], [Write(SelectedChannelQuery(nonce))] + Emits(failure))
  }

  /** The legacy `set_vc_events` from the write numbered `base`, reporting a failure as an error. */
  function VcEventsReaction(state: CurrentState, faults: map<nat, string>, base: nat, channelId: Json,
                            isSubscribe: bool, nonces: seq<string>): Reaction
    requires |nonces| == 5
  {
    var run := LegacyIpc.LegacyRun(faults, base, channelId, isSubscribe, nonces);
    var failure := SubscriptionFailure(Error, run.outcome);
    Reaction(state, failure, run.sent, [], Writes(run.sent) + Emits(failure))
  }

  /**
   * The reply to AUTHORIZE carries a code: trade it for tokens (a failure is
   * critical and ends the handling), save the refresh token, then present the
   * access token.
   */
  function AuthorizedReaction(state: CurrentState, code: string, faults: map<nat, string>, base: nat,
                              codeAnswer: string -> Result<TokenData, AuthError>, saveFault: string -> Option<string>,
                              nonce: string): Reaction
  {
    var tokens := codeAnswer(code);
    if tokens.Err? then
      var refused := Notice(CriticalError, AuthFault(tokens.error));
      Reaction(state, [refused], [], [CodeGrant(code)], [Call(CodeGrant(code)), Emit(refused)])
    else
      var saved := SaveFailure(saveFault(tokens.value.refreshToken));
      var presented := AuthFailure(CriticalError, LegacyAuth.WriteOutcome(IpcAuth.TokenSendFailure, FaultAt(faults, base)));
      var token := AuthenticatePayload(tokens.value.accessToken, nonce);
      Reaction(state, saved + presented, [token], [CodeGrant(code), SaveConfig(tokens.value.refreshToken)],
               [Call(CodeGrant(code)), Call(SaveConfig(tokens.value.refreshToken))] + Emits(saved) + [Write(token)]
               + Emits(presented))
  }

  /**
   * The reply to AUTHENTICATE: remember the user's id, subscribe to the
   * user's voice settings and channel changes (each failure is critical but
   * the next step still runs), then ask for the selected channel.
   */
  function AuthenticatedReaction(state: CurrentState, userId: Json, faults: map<nat, string>, base: nat,
                                 nonces: seq<string>): Reaction
    requires |nonces| == 6
  {
    var next := state.(userId := userId);
    Then(Then(SubscribeReaction(next, CriticalError, faults, base, "VOICE_SETTINGS_UPDATE", nonces[0]),
              SubscribeReaction(next, CriticalError, faults, base + 1, "VOICE_CHANNEL_SELECT", nonces[1])),
         QueryReaction(next, CriticalError, faults, base + 2, nonces[2]))
  }

  /**
   * The reply to the selected-channel query, when the user is in a channel:
   * remember it, report it with its name and members, then subscribe to its
   * member and speaking events.
   */
  function InChannelReaction(state: CurrentState, channelId: Json, name: Json, voiceStates: Json,
                             faults: map<nat, string>, base: nat, nonces: seq<string>): Reaction
    requires |nonces| == 5
  {
    var next := state.(channelId := channelId);
    Then(Announce(next, [Notice(VcSelect, Data(SelectPayload(true))),
                         Notice(VcInfo, Data(Obj(map["name" := name, "users" := voiceStates])))]),
         VcEventsReaction(next, faults, base, channelId, true, nonces))
  }

  /**
   * The user left their channel: forget it, report it, then unsubscribe from
   * the member and speaking events, naming the channel id just set to `null`.
   */
  function ChannelLeftReaction(state: CurrentState, faults: map<nat, string>, base: nat, nonces: seq<string>): Reaction
    requires |nonces| == 5
  {
    var next := state.(channelId := Null);
    Then(Announce(next, [Notice(VcSelect, Data(SelectPayload(false)))]),
         VcEventsReaction(next, faults, base, Null, false, nonces))
  }

  /**
   * The user joined a channel: remember it, report it, ask for the selected
   * channel (a failure ends the handling), then subscribe to the channel's
   * member and speaking events.
   */
  function ChannelJoinedReaction(state: CurrentState, channelId: Json, faults: map<nat, string>, base: nat,
                                 nonces: seq<string>): Reaction
    requires |nonces| == 6
  {
    var next := state.(channelId := channelId);
    Then(Announce(next, [Notice(VcSelect, Data(SelectPayload(true)))]),
         FollowChannelReaction(next, faults, base, nonces))
  }

  /**
   * Asking for the selected channel with a failure reported as an error;
   * only when that write goes through, subscribing to the member and
   * speaking events of the channel `state` remembers.
   */
  function FollowChannelReaction(state: CurrentState, faults: map<nat, string>, base: nat, nonces: seq<string>): Reaction
    requires |nonces| == 6
  {
    var query := QueryReaction(state, Error, faults, base, nonces[0]);
    if base in faults then query
    else Then(query, VcEventsReaction(state, faults, base + 1, state.channelId, true, nonces[1..]))
  }

  /** A message of kind `kind` that cannot make the loop panic. */
  predicate Handled(kind: Kind)
  {
    kind.AuthorizeReply? ==> kind.code.Str?
  }

  /** A dispatched event, as opposed to a reply, a host error or a failed read. */
  predicate IsEvent(kind: Kind)
  {
    || kind.SettingsUpdate? || kind.ChannelLeft? || kind.ChannelJoined? || kind.MemberChanged?
    || kind.MemberLeft? || kind.Speaking? || kind.Ignored?
  }

  /** Handling a message of kind `kind`; see `React`. */
  function KindReaction(state: CurrentState, kind: Kind, faults: map<nat, string>, base: nat,
                        codeAnswer: string -> Result<TokenData, AuthError>, saveFault: string -> Option<string>,
                        nonces: seq<string>): Reaction
    requires |nonces| == 6 && Handled(kind)
  {
    if IsEvent(kind) then EventReaction(state, kind, faults, base, nonces)
    else ReplyReaction(state, kind, faults, base, codeAnswer, saveFault, nonces)
  }

  /** Handling a failed read, a reply to a command or an error the host reports. */
  function ReplyReaction(state: CurrentState, kind: Kind, faults: map<nat, string>, base: nat,
                         codeAnswer: string -> Result<TokenData, AuthError>, saveFault: string -> Option<string>,
                         nonces: seq<string>): Reaction
    requires |nonces| == 6 && Handled(kind) && !IsEvent(kind)
  {
    match kind
    case ReadFailed => Quiet(state)
    case AuthorizeReply(code) => AuthorizedReaction(state, code.s, faults, base, codeAnswer, saveFault, nonces[0])
    case AuthenticateReply(userId) => AuthenticatedReaction(state, userId, faults, base, nonces)
    case NotInChannel => Announce(state.(channelId := Null), [Notice(VcSelect, Data(SelectPayload(false)))])
    case InChannel(channelId, name, voiceStates) =>
      InChannelReaction(state, channelId, name, voiceStates, faults, base, nonces[..5])
    case OtherReply => Quiet(state)
    case AuthorizeRefused => Announce(state, [Notice(CriticalError, IpcFault(IpcError(Authorize, AuthorizeRefusal, None)))])
    case SubscribeRefused =>
      Announce(state, [Notice(Error, IpcFault(IpcError(IpcErrorType.Subscribe, SubscribeRefusal, None)))])
    case OtherError => Quiet(state)
  }

  /** Handling a dispatched event. */
  function EventReaction(state: CurrentState, kind: Kind, faults: map<nat, string>, base: nat, nonces: seq<string>)
    : Reaction
    requires |nonces| == 6 && IsEvent(kind)
  {
    match kind
    case SettingsUpdate(mute, deaf) =>
      Announce(state, [Notice(VcMuteUpdate, Data(Obj(map["mute" := mute, "deaf" := deaf])))])
    case ChannelLeft => ChannelLeftReaction(state, faults, base, nonces[..5])
    case ChannelJoined(channelId) => ChannelJoinedReaction(state, channelId, faults, base, nonces)
    case MemberChanged(joined, data) =>
      if Get2(data, "user", "id") != state.userId
      then Announce(state, [Notice(VcUser, Data(MemberNotice(joined, data)))])
      else Quiet(state)
    case MemberLeft(userId) =>
      if userId != state.userId then Announce(state, [Notice(VcUser, Data(LeaveNotice))]) else Quiet(state)
    case Speaking(userId, speaking) =>
      Announce(state, [Notice(VcSpeak, Data(SpeakNotice(userId, userId == state.userId, speaking)))])
    case Ignored => Quiet(state)
  }

  /**
   * Handling one message received in state `state`. Writes are numbered from
   * `base` and fail as `faults` says; the token endpoint and the
   * configuration store answer as `codeAnswer` and `saveFault` say; fresh
   * nonces are taken from `nonces` in order.
   */
  function React(state: CurrentState, msg: Result<Json, string>, faults: map<nat, string>, base: nat,
                 codeAnswer: string -> Result<TokenData, AuthError>, saveFault: string -> Option<string>,
                 nonces: seq<string>): Reaction
    requires |nonces| == 6 && !Panics(msg)
  {
    KindReaction(state, Classify(msg), faults, base, codeAnswer, saveFault, nonces)
  }

  /** The renewal of `try_reauth`: the token presentation it writes and the outside calls it makes. */
  function RenewReaction(state: CurrentState, stored: Result<string, string>,
                         refreshAnswer: string -> Result<TokenData, AuthError>, nonce: string): Reaction
  {
    var renewed := IpcAuth.ReauthResult(stored, refreshAnswer);
    var written := if renewed.Ok? then [AuthenticatePayload(renewed.value.accessToken, nonce)] else [];
    Reaction(state, [], written, IpcAuth.ReauthCalls(stored), Calls(IpcAuth.ReauthCalls(stored)) + Writes(written))
  }

  /** After a failed renewal: report it, then ask the user to authorize and report a failed request. */
  function FallbackReaction(state: CurrentState, error: AuthError, faults: map<nat, string>, base: nat,
                            clientId: string, nonce: string): Reaction
  {
    var asked := AuthFailure(Error, LegacyAuth.WriteOutcome(IpcAuth.AuthorizeSendFailure, FaultAt(faults, base)));
    var reported := Notice(Error, AuthFault(error));
    Reaction(state, [reported] + asked, [AuthorizePayload(clientId, nonce)], [],
             [Emit(reported), Write(AuthorizePayload(clientId, nonce))] + Emits(asked))
  }

  /** Saving `token` to the configuration, reporting a failure. */
  function SaveReaction(state: CurrentState, token: string, saveFault: string -> Option<string>): Reaction
  {
    Reaction(state, SaveFailure(saveFault(token)), [], [SaveConfig(token)],
             [Call(SaveConfig(token))] + Emits(SaveFailure(saveFault(token))))
  }

  /** The refresh token `connect_ipc` saves: the rotated one after a renewal, otherwise the empty string. */
  function SavedToken(stored: Result<string, string>, refreshAnswer: string -> Result<TokenData, AuthError>,
                      writeFault: Option<string>): string
  {
    var reauth := LegacyAuth.LegacyReauthResult(stored, refreshAnswer, writeFault);
    if reauth.Ok? then reauth.value else ""
  }

  /**
   * What `connect_ipc` does after connecting: renew the authorization; when
   * that fails, report it and ask the user to authorize instead. Either way
   * a refresh token is then saved and a failed save is reported.
   */
  function SetupReaction(state: CurrentState, stored: Result<string, string>,
                         refreshAnswer: string -> Result<TokenData, AuthError>, saveFault: string -> Option<string>,
                         faults: map<nat, string>, base: nat, clientId: string, nonces: seq<string>): Reaction
    requires |nonces| == 2
  {
    Then(RecoveredReaction(state, stored, refreshAnswer, faults, base, clientId, nonces),
         SaveReaction(state, SavedToken(stored, refreshAnswer, FaultAt(faults, base)), saveFault))
  }

  /** The renewal, and after a failed renewal the fallback to asking for authorization. */
  function RecoveredReaction(state: CurrentState, stored: Result<string, string>,
                             refreshAnswer: string -> Result<TokenData, AuthError>,
                             faults: map<nat, string>, base: nat, clientId: string, nonces: seq<string>): Reaction
    requires |nonces| == 2
  {
    var reauth := LegacyAuth.LegacyReauthResult(stored, refreshAnswer, FaultAt(faults, base));
    var renew := RenewReaction(state, stored, refreshAnswer, nonces[0]);
    if reauth.Ok? then renew
    else Then(renew, FallbackReaction(state, reauth.error, faults, base + |renew.sent|, clientId, nonces[1]))
  }

  /**
   * The loop's side of the session: the shared connection, the outside
   * services, the application's client id, the remembered ids, every
   * notice emitted so far, and every effect so far in the order it happened.
   */
  class Session {
    const conn: Connection
    const services: Services
    const clientId: string
    var current: CurrentState
    var emitted: seq<Notice>
    var trace: seq<Effect>

    constructor (connection: Connection, outside: Services, id: string)
      ensures conn == connection && services == outside && clientId == id
      ensures current == CurrentState(Null, Null) && emitted == [] && trace == []
    {
      conn := connection;
      services := outside;
      clientId := id;
      current := CurrentState(Null, Null);
      emitted := [];
      trace := [];
    }

    /** Emits `notice` to the window. */
    method Notify(notice: Notice)
      modifies this
      ensures current == old(current) && emitted == old(emitted) + [notice] && trace == old(trace) + [Emit(notice)]
    {
      emitted := emitted + [notice];
      trace := trace + [Emit(notice)];
    }

    /** The session has done exactly what `rx` describes, and read nothing. */
    twostate predicate Reacted(rx: Reaction)
      reads this, conn, services
    {
      && current == rx.next
      && emitted == old(emitted) + rx.notices
      && conn.sent == old(conn.sent) + rx.sent
      && services.calls == old(services.calls) + rx.calls
      && trace == old(trace) + rx.trace
      && conn.inbox == old(conn.inbox) && conn.readCount == old(conn.readCount)
    }

    /**
     * `connect_ipc` from a failed or a successful connection attempt: a
     * failure is returned as `Connect` with nothing else done; otherwise the
     * renewal and the save of the refresh token follow, the loop started
     * afterwards remembers neither a channel nor a user, and the command
     * succeeds whatever the renewal and the save report.
     */
    method ConnectIpc(connectFault: Option<string>, nonces: seq<string>) returns (r: Outcome<IpcError>)
      requires |nonces| == 2
      modifies this, conn, services
      ensures connectFault.Some? ==> r == Fail(IpcError(Connect, connectFault.value, None)) && Reacted(Quiet(old(current)))
      ensures connectFault.None? ==> r == Pass && current == CurrentState(Null, Null)
      ensures connectFault.None? ==>
                Reacted(SetupReaction(CurrentState(Null, Null), services.stored, services.refreshAnswer,
                                      services.saveFault, conn.faults, |old(conn.sent)|, clientId, nonces))
    {
      if connectFault.Some? {
        return Fail(IpcError(Connect, connectFault.value, None));
      }
      current := CurrentState(Null, Null);
      Reauthenticate(nonces);
      return Pass;
    }

    /** Renewal with its fallback, and the save of the resulting refresh token. */
    method Reauthenticate(nonces: seq<string>)
      requires |nonces| == 2
      modifies this, conn, services
      ensures Reacted(SetupReaction(old(current), services.stored, services.refreshAnswer, services.saveFault,
                                    conn.faults, |old(conn.sent)|, clientId, nonces))
    {
      ghost var n0, s0, c0, t0 := emitted, conn.sent, services.calls, trace;
      ghost var a := RecoveredReaction(current, services.stored, services.refreshAnswer, conn.faults, |conn.sent|,
                                       clientId, nonces);
      var refreshToken := Recover(nonces);
      ghost var n1, s1, c1, t1 := emitted, conn.sent, services.calls, trace;
      ghost var b := SaveReaction(current, refreshToken, services.saveFault);
      SaveToken(refreshToken);
      ThenLogs(a, b, n0, n1, emitted, s0, s1, conn.sent, c0, c1, services.calls, t0, t1, trace);
    }

    /** The renewal and, when it fails, the fallback; `refreshToken` is what is then saved. */
    method Recover(nonces: seq<string>) returns (refreshToken: string)
      requires |nonces| == 2
      modifies this, conn, services
      ensures refreshToken == SavedToken(services.stored, services.refreshAnswer, FaultAt(conn.faults, |old(conn.sent)|))
      ensures Reacted(RecoveredReaction(old(current), services.stored, services.refreshAnswer,
                                        conn.faults, |old(conn.sent)|, clientId, nonces))
    {
      ghost var n0, s0, c0, t0 := emitted, conn.sent, services.calls, trace;
      ghost var a := RenewReaction(current, services.stored, services.refreshAnswer, nonces[0]);
      var reauth := Renew(nonces[0]);
      refreshToken := "";
      if reauth.Ok? {
        refreshToken := reauth.value;
      } else {
        ghost var n1, s1, c1, t1 := emitted, conn.sent, services.calls, trace;
        ghost var b := FallbackReaction(current, reauth.error, conn.faults, |conn.sent|, clientId, nonces[1]);
        AskAuthorization(reauth.error, nonces[1]);
        ThenLogs(a, b, n0, n1, emitted, s0, s1, conn.sent, c0, c1, services.calls, t0, t1, trace);
      }
    }

    /** The older `try_reauth`: read the stored token, refresh it, present the new access token. */
    method Renew(nonce: string) returns (reauth: Result<string, AuthError>)
      modifies this, conn, services
      ensures reauth == LegacyAuth.LegacyReauthResult(services.stored, services.refreshAnswer,
                                                      FaultAt(conn.faults, |old(conn.sent)|))
      ensures Reacted(RenewReaction(old(current), services.stored, services.refreshAnswer, nonce))
    {
      var sentBefore, calledBefore := |conn.sent|, |services.calls|;
      reauth := LegacyAuth.TryReauth(conn, services, nonce);
      trace := trace + Calls(services.calls[calledBefore..]) + Writes(conn.sent[sentBefore..]);
      assert services.calls[calledBefore..] == IpcAuth.ReauthCalls(services.stored);
    }

    /** The fallback after a failed renewal. */
    method AskAuthorization(error: AuthError, nonce: string)
      modifies this, conn
      ensures Reacted(FallbackReaction(old(current), error, conn.faults, |old(conn.sent)|, clientId, nonce))
    {
      Notify(Notice(Error, AuthFault(error)));
      var asked := LegacyAuth.SendAuth(conn, clientId, nonce);
      trace := trace + [Write(AuthorizePayload(clientId, nonce))];
      if asked.Fail? {
        Notify(Notice(Error, AuthFault(asked.error)));
      }
    }

    /** `set_config` with `token`, reporting a failure. */
    method SaveToken(token: string)
      modifies this, services
      ensures Reacted(SaveReaction(old(current), token, services.saveFault))
    {
      var saved := services.Save(token);
      trace := trace + [Call(SaveConfig(token))];
      if saved.Some? {
        Notify(Notice(Error, AuthFault(AuthError(ConfigSave, saved.value))));
      }
    }

    /** One pass of the loop: read a message and handle it. */
    method Step(nonces: seq<string>)
      requires |nonces| == 6 && !Panics(NextRead(conn.inbox))
      modifies this, conn, services
      ensures var rx := React(old(current), NextRead(old(conn.inbox)), conn.faults, |old(conn.sent)|,
                              services.codeAnswer, services.saveFault, nonces);
              && current == rx.next
              && emitted == old(emitted) + rx.notices
              && conn.sent == old(conn.sent) + rx.sent
              && services.calls == old(services.calls) + rx.calls
              && trace == old(trace) + rx.trace
      ensures conn.inbox == AfterRead(old(conn.inbox)) && conn.readCount == old(conn.readCount) + 1
    {
      var msg := conn.Read();
      Handle(Classify(msg), nonces);
    }

    /** The branches of the loop body. */
    method Handle(kind: Kind, nonces: seq<string>)
      requires |nonces| == 6 && Handled(kind)
      modifies this, conn, services
      ensures Reacted(KindReaction(old(current), kind, conn.faults, |old(conn.sent)|,
                                   services.codeAnswer, services.saveFault, nonces))
    {
      if IsEvent(kind) {
        HandleEvent(kind, nonces);
      } else {
        HandleReply(kind, nonces);
      }
    }

    /** The branches for a failed read, a reply and a host error. */
    method HandleReply(kind: Kind, nonces: seq<string>)
      requires |nonces| == 6 && Handled(kind) && !IsEvent(kind)
      modifies this, conn, services
      ensures Reacted(ReplyReaction(old(current), kind, conn.faults, |old(conn.sent)|,
                                    services.codeAnswer, services.saveFault, nonces))
    {
      match kind
      case ReadFailed =>
      case AuthorizeReply(code) => OnAuthorized(code.s, nonces[0]);
      case AuthenticateReply(userId) => OnAuthenticated(userId, nonces);
      case NotInChannel =>
        current := current.(channelId := Null);
        Notify(Notice(VcSelect, Data(SelectPayload(false))));
      case InChannel(channelId, name, voiceStates) => OnInChannel(channelId, name, voiceStates, nonces[..5]);
      case OtherReply =>
      case AuthorizeRefused =>
        Notify(Notice(CriticalError, IpcFault(IpcError(Authorize, AuthorizeRefusal, None))));
      case SubscribeRefused =>
        Notify(Notice(Error, IpcFault(IpcError(IpcErrorType.Subscribe, SubscribeRefusal, None))));
      case OtherError =>
    }

    /** The branches for a dispatched event. */
    method HandleEvent(kind: Kind, nonces: seq<string>)
      requires |nonces| == 6 && IsEvent(kind)
      modifies this, conn
      ensures Reacted(EventReaction(old(current), kind, conn.faults, |old(conn.sent)|, nonces))
    {
      match kind
      case SettingsUpdate(mute, deaf) =>
        Notify(Notice(VcMuteUpdate, Data(Obj(map["mute" := mute, "deaf" := deaf]))));
      case ChannelLeft => OnChannelLeft(nonces[..5]);
      case ChannelJoined(channelId) => OnChannelJoined(channelId, nonces);
      case MemberChanged(joined, data) =>
        if Get2(data, "user", "id") != current.userId {
          Notify(Notice(VcUser, Data(MemberNotice(joined, data))));
        }
      case MemberLeft(userId) =>
        if userId != current.userId {
          Notify(Notice(VcUser, Data(LeaveNotice)));
        }
      case Speaking(userId, speaking) =>
        Notify(Notice(VcSpeak, Data(SpeakNotice(userId, userId == current.userId, speaking))));
      case Ignored =>
    }

    /**
     * The reply to AUTHORIZE: trade the code for tokens (a failure is
     * critical and ends the handling), save the refresh token, present the
     * access token.
     */
    method OnAuthorized(code: string, nonce: string)
      modifies this, conn, services
      ensures Reacted(AuthorizedReaction(old(current), code, conn.faults, |old(conn.sent)|,
                                         services.codeAnswer, services.saveFault, nonce))
    {
      var tokens := services.Exchange(code);
      trace := trace + [Call(CodeGrant(code))];
      if tokens.Err? {
        Notify(Notice(CriticalError, AuthFault(tokens.error)));
        return;
      }
      var saved := services.Save(tokens.value.refreshToken);
      trace := trace + [Call(SaveConfig(tokens.value.refreshToken))];
      if saved.Some? {
        Notify(Notice(Error, AuthFault(AuthError(ConfigSave, saved.value))));
      }
      var presented := LegacyAuth.SendToken(conn, tokens.value.accessToken, nonce);
      trace := trace + [Write(AuthenticatePayload(tokens.value.accessToken, nonce))];
      if presented.Fail? {
        Notify(Notice(CriticalError, AuthFault(presented.error)));
      }
    }

    /** The reply to AUTHENTICATE: remember the user, subscribe to settings and channel changes, ask for the channel. */
    method OnAuthenticated(userId: Json, nonces: seq<string>)
      requires |nonces| == 6
      modifies this, conn
      ensures Reacted(AuthenticatedReaction(old(current), userId, conn.faults, |old(conn.sent)|, nonces))
    {
      ghost var n0, s0, c0, t0 := emitted, conn.sent, services.calls, trace;
      current := current.(userId := userId);
      ghost var a := SubscribeReaction(current, CriticalError, conn.faults, |conn.sent|, "VOICE_SETTINGS_UPDATE", nonces[0]);
      SubscribeReported("VOICE_SETTINGS_UPDATE", nonces[0]);
      ghost var n1, s1, c1, t1 := emitted, conn.sent, services.calls, trace;
      ghost var b := SubscribeReaction(current, CriticalError, conn.faults, |conn.sent|, "VOICE_CHANNEL_SELECT", nonces[1]);
      SubscribeReported("VOICE_CHANNEL_SELECT", nonces[1]);
      ThenLogs(a, b, n0, n1, emitted, s0, s1, conn.sent, c0, c1, services.calls, t0, t1, trace);
      ghost var n2, s2, c2, t2 := emitted, conn.sent, services.calls, trace;
      ghost var q := QueryReaction(current, CriticalError, conn.faults, |conn.sent|, nonces[2]);
      var _ := SendQuery(CriticalError, nonces[2]);
      ThenLogs(Then(a, b), q, n0, n2, emitted, s0, s2, conn.sent, c0, c2, services.calls, t0, t2, trace);
    }

    /** The legacy `subscribe` with `{}`, a failure reported as critical. */
    method SubscribeReported(eventName: string, nonce: string)
      modifies this, conn
      ensures Reacted(SubscribeReaction(old(current), CriticalError, conn.faults, |old(conn.sent)|, eventName, nonce))
    {
      var r := LegacyIpc.Subscribe(conn, eventName, EmptyObject, nonce);
      trace := trace + [Write(SubscribePayload(eventName, EmptyObject, true, nonce))];
      if r.Fail? {
        Notify(Notice(CriticalError, IpcFault(Public(r.error))));
      }
    }

    /** Writes the selected-channel query, a failure reported under `event`. */
    method SendQuery(event: EventName, nonce: string) returns (written: bool)
      modifies this, conn
      ensures Reacted(QueryReaction(old(current), event, conn.faults, |old(conn.sent)|, nonce))
      ensures written <==> |old(conn.sent)| !in conn.faults
    {
      var err := conn.Write(SelectedChannelQuery(nonce));
      trace := trace + [Write(SelectedChannelQuery(nonce))];
      if err.Some? {
        Notify(Notice(event, IpcFault(IpcError(EventSend, QueryFailure, None))));
        return false;
      }
      return true;
    }

    /** The legacy `set_vc_events`, a failure reported as an error. */
    method SetVcEventsReported(channelId: Json, isSubscribe: bool, nonces: seq<string>)
      requires |nonces| == 5
      modifies this, conn
      ensures Reacted(VcEventsReaction(old(current), conn.faults, |old(conn.sent)|, channelId, isSubscribe, nonces))
    {
      var sentBefore := |conn.sent|;
      var run := LegacyIpc.SetVcEvents(conn, channelId, isSubscribe, nonces);
      trace := trace + Writes(conn.sent[sentBefore..]);
      if run.Fail? {
        Notify(Notice(Error, IpcFault(Public(run.error))));
      }
    }

    /** The reply to the selected-channel query naming a channel: remember it, report it, subscribe to its events. */
    method OnInChannel(channelId: Json, name: Json, voiceStates: Json, nonces: seq<string>)
      requires |nonces| == 5
      modifies this, conn
      ensures Reacted(InChannelReaction(old(current), channelId, name, voiceStates, conn.faults, |old(conn.sent)|, nonces))
    {
      ghost var n0, s0, c0, t0 := emitted, conn.sent, services.calls, trace;
      current := current.(channelId := channelId);
      ghost var a := Announce(current, [Notice(VcSelect, Data(SelectPayload(true))),
                                        Notice(VcInfo, Data(Obj(map["name" := name, "users" := voiceStates])))]);
      Notify(Notice(VcSelect, Data(SelectPayload(true))));
      Notify(Notice(VcInfo, Data(Obj(map["name" := name, "users" := voiceStates]))));
      ghost var n1, s1, c1, t1 := emitted, conn.sent, services.calls, trace;
      ghost var b := VcEventsReaction(current, conn.faults, |conn.sent|, channelId, true, nonces);
      SetVcEventsReported(current.channelId, true, nonces);
      ThenLogs(a, b, n0, n1, emitted, s0, s1, conn.sent, c0, c1, services.calls, t0, t1, trace);
    }

    /** VOICE_CHANNEL_SELECT without a channel: forget it, report it, unsubscribe with the id just cleared. */
    method OnChannelLeft(nonces: seq<string>)
      requires |nonces| == 5
      modifies this, conn
      ensures Reacted(ChannelLeftReaction(old(current), conn.faults, |old(conn.sent)|, nonces))
    {
      ghost var n0, s0, c0, t0 := emitted, conn.sent, services.calls, trace;
      current := current.(channelId := Null);
      ghost var a := Announce(current, [Notice(VcSelect, Data(SelectPayload(false)))]);
      Notify(Notice(VcSelect, Data(SelectPayload(false))));
      ghost var n1, s1, c1, t1 := emitted, conn.sent, services.calls, trace;
      ghost var b := VcEventsReaction(current, conn.faults, |conn.sent|, Null, false, nonces);
      if current.channelId == Null {
        SetVcEventsReported(current.channelId, false, nonces);
      }
      ThenLogs(a, b, n0, n1, emitted, s0, s1, conn.sent, c0, c1, services.calls, t0, t1, trace);
    }

    /** VOICE_CHANNEL_SELECT naming a channel: remember it, report it, then follow it. */
    method OnChannelJoined(channelId: Json, nonces: seq<string>)
      requires |nonces| == 6
      modifies this, conn
      ensures Reacted(ChannelJoinedReaction(old(current), channelId, conn.faults, |old(conn.sent)|, nonces))
    {
      ghost var n0, s0, c0, t0 := emitted, conn.sent, services.calls, trace;
      current := current.(channelId := channelId);
      ghost var a := Announce(current, [Notice(VcSelect, Data(SelectPayload(true)))]);
      Notify(Notice(VcSelect, Data(SelectPayload(true))));
      ghost var n1, s1, c1, t1 := emitted, conn.sent, services.calls, trace;
      ghost var b := FollowChannelReaction(current, conn.faults, |conn.sent|, nonces);
      FollowChannel(nonces);
      ThenLogs(a, b, n0, n1, emitted, s0, s1, conn.sent, c0, c1, services.calls, t0, t1, trace);
    }

    /** The selected-channel query, then, if it was written, the subscription to the remembered channel's events. */
    method FollowChannel(nonces: seq<string>)
      requires |nonces| == 6
      modifies this, conn
      ensures Reacted(FollowChannelReaction(old(current), conn.faults, |old(conn.sent)|, nonces))
    {
      ghost var n0, s0, c0, t0 := emitted, conn.sent, services.calls, trace;
      ghost var a := QueryReaction(current, Error, conn.faults, |conn.sent|, nonces[0]);
      var written := SendQuery(Error, nonces[0]);
      if !written {
        return;
      }
      ghost var n1, s1, c1, t1 := emitted, conn.sent, services.calls, trace;
      ghost var b := VcEventsReaction(current, conn.faults, |conn.sent|, current.channelId, true, nonces[1..]);
      SetVcEventsReported(current.channelId, true, nonces[1..]);
      ThenLogs(a, b, n0, n1, emitted, s0, s1, conn.sent, c0, c1, services.calls, t0, t1, trace);
    }
  }
}
