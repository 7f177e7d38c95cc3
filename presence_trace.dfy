/**
 * The order of effects in src-tauri/src/main.rs. A `Reaction` records every
 * effect once in `trace`, in the order the loop causes it, and again in one
 * log per channel (`notices`, `sent`, `calls`). The per-channel logs are
 * shown to be the trace's projections; then the trace is used to say which
 * effect comes first where the order matters: whether the rotated refresh
 * token is saved before the new access token is presented.
 */
module PresenceTrace {
  import opened Wrappers
  import opened Json
  import opened Errors
  import opened Transport
  import opened Commands
  import opened Presence
  import LegacyIpc
  import LegacyAuth
  import IpcAuth

  /** Projecting a joined trace projects each part. */
  lemma TraceAppend(a: seq<Effect>, b: seq<Effect>)
    ensures Emitted(a + b) == Emitted(a) + Emitted(b)
    ensures Written(a + b) == Written(a) + Written(b)
    ensures Called(a + b) == Called(a) + Called(b)
  {
    EmittedAppend(a, b);
    WrittenAppend(a, b);
    CalledAppend(a, b);
  }

  lemma {:induction false} EmittedAppend(a: seq<Effect>, b: seq<Effect>)
    ensures Emitted(a + b) == Emitted(a) + Emitted(b)
  {
    if a == [] {
      assert a + b == b;
    } else {
      assert (a + b)[0] == a[0] && (a + b)[1..] == a[1..] + b;
      EmittedAppend(a[1..], b);
    }
  }

  lemma {:induction false} WrittenAppend(a: seq<Effect>, b: seq<Effect>)
    ensures Written(a + b) == Written(a) + Written(b)
  {
    if a == [] {
      assert a + b == b;
    } else {
      assert (a + b)[0] == a[0] && (a + b)[1..] == a[1..] + b;
      WrittenAppend(a[1..], b);
    }
  }

  lemma {:induction false} CalledAppend(a: seq<Effect>, b: seq<Effect>)
    ensures Called(a + b) == Called(a) + Called(b)
  {
    if a == [] {
      assert a + b == b;
    } else {
      assert (a + b)[0] == a[0] && (a + b)[1..] == a[1..] + b;
      CalledAppend(a[1..], b);
    }
  }

  /** Notices as effects project back to the notices, and to no write and no call. */
  lemma {:induction false} EmitsProject(notices: seq<Notice>)
    ensures Emitted(Emits(notices)) == notices && Written(Emits(notices)) == [] && Called(Emits(notices)) == []
  {
    if notices != [] {
      assert Emits(notices)[1..] == Emits(notices[1..]);
      EmitsProject(notices[1..]);
    }
  }

  /** Messages as writes project back to the messages, and to no notice and no call. */
  lemma {:induction false} WritesProject(messages: seq<Json>)
    ensures Written(Writes(messages)) == messages && Emitted(Writes(messages)) == [] && Called(Writes(messages)) == []
  {
    if messages != [] {
      assert Writes(messages)[1..] == Writes(messages[1..]);
      WritesProject(messages[1..]);
    }
  }

  /** Calls as effects project back to the calls, and to no notice and no write. */
  lemma {:induction false} CallsProject(calls: seq<ServiceCall>)
    ensures Called(Calls(calls)) == calls && Emitted(Calls(calls)) == [] && Written(Calls(calls)) == []
  {
    if calls != [] {
      assert Calls(calls)[1..] == Calls(calls[1..]);
      CallsProject(calls[1..]);
    }
  }

  /** The notices, writes and calls of `rx` are exactly those of its trace, each in trace order. */
  predicate Consistent(rx: Reaction)
  {
    Emitted(rx.trace) == rx.notices && Written(rx.trace) == rx.sent && Called(rx.trace) == rx.calls
  }

  /** One reaction followed by another keeps the logs and the trace in step. */
  lemma ThenConsistent(a: Reaction, b: Reaction)
    requires Consistent(a) && Consistent(b)
    ensures Consistent(Then(a, b))
  {
    TraceAppend(a.trace, b.trace);
  }

  /** A reaction that writes one message and then emits `notices`. */
  lemma WriteThenEmit(rx: Reaction, message: Json, notices: seq<Notice>)
    requires rx.trace == [Write(message)] + Emits(notices)
    requires rx.notices == notices && rx.sent == [message] && rx.calls == []
    ensures Consistent(rx)
  {
    TraceAppend([Write(message)], Emits(notices));
    EmitsProject(notices);
  }

  lemma AnnounceConsistent(state: CurrentState, notices: seq<Notice>)
    ensures Consistent(Announce(state, notices))
  {
    EmitsProject(notices);
  }

  lemma VcEventsConsistent(state: CurrentState, faults: map<nat, string>, base: nat, channelId: Json,
                           isSubscribe: bool, nonces: seq<string>)
    requires |nonces| == 5
    ensures Consistent(VcEventsReaction(state, faults, base, channelId, isSubscribe, nonces))
  {
    var run := LegacyIpc.LegacyRun(faults, base, channelId, isSubscribe, nonces);
    TraceAppend(Writes(run.sent), Emits(SubscriptionFailure(Error, run.outcome)));
    WritesProject(run.sent);
    EmitsProject(SubscriptionFailure(Error, run.outcome));
  }

  lemma QueryConsistent(state: CurrentState, event: EventName, faults: map<nat, string>, base: nat, nonce: string)
    ensures Consistent(QueryReaction(state, event, faults, base, nonce))
  {
    var rx := QueryReaction(state, event, faults, base, nonce);
    WriteThenEmit(rx, SelectedChannelQuery(nonce), rx.notices);
  }

  lemma SubscribeConsistent(state: CurrentState, event: EventName, faults: map<nat, string>, base: nat,
                            eventName: string, nonce: string)
    ensures Consistent(SubscribeReaction(state, event, faults, base, eventName, nonce))
  {
    var rx := SubscribeReaction(state, event, faults, base, eventName, nonce);
    WriteThenEmit(rx, SubscribePayload(eventName, EmptyObject, true, nonce), rx.notices);
  }

  /** Outside calls followed by notices project back to each. */
  lemma CallsThenEmits(calls: seq<ServiceCall>, notices: seq<Notice>)
    ensures var t := Calls(calls) + Emits(notices);
            Emitted(t) == notices && Written(t) == [] && Called(t) == calls
  {
    TraceAppend(Calls(calls), Emits(notices));
    CallsProject(calls);
    EmitsProject(notices);
  }

  /** Writes followed by notices project back to each. */
  lemma WritesThenEmits(messages: seq<Json>, notices: seq<Notice>)
    ensures var t := Writes(messages) + Emits(notices);
            Emitted(t) == notices && Written(t) == messages && Called(t) == []
  {
    TraceAppend(Writes(messages), Emits(notices));
    WritesProject(messages);
    EmitsProject(notices);
  }

  /** A reaction that calls, emits, writes and emits again, in that order. */
  lemma PhasedConsistent(rx: Reaction, calls: seq<ServiceCall>, early: seq<Notice>, messages: seq<Json>,
                         late: seq<Notice>)
    requires rx.trace == (Calls(calls) + Emits(early)) + (Writes(messages) + Emits(late))
    requires rx.calls == calls && rx.notices == early + late && rx.sent == messages
    ensures Consistent(rx)
  {
    CallsThenEmits(calls, early);
    WritesThenEmits(messages, late);
    TraceAppend(Calls(calls) + Emits(early), Writes(messages) + Emits(late));
  }

  lemma AuthorizedConsistent(state: CurrentState, code: string, faults: map<nat, string>, base: nat,
                             codeAnswer: string -> Result<TokenData, AuthError>, saveFault: string -> Option<string>,
                             nonce: string)
    ensures Consistent(AuthorizedReaction(state, code, faults, base, codeAnswer, saveFault, nonce))
  {
    var rx := AuthorizedReaction(state, code, faults, base, codeAnswer, saveFault, nonce);
    var tokens := codeAnswer(code);
    if tokens.Ok? {
      var saved := SaveFailure(saveFault(tokens.value.refreshToken));
      var presented := AuthFailure(CriticalError, LegacyAuth.WriteOutcome(IpcAuth.TokenSendFailure, FaultAt(faults, base)));
      var token := AuthenticatePayload(tokens.value.accessToken, nonce);
      var grants := [CodeGrant(code), SaveConfig(tokens.value.refreshToken)];
      assert Calls(grants) == [Call(CodeGrant(code)), Call(SaveConfig(tokens.value.refreshToken))];
      assert Writes([token]) == [Write(token)];
      PhasedConsistent(rx, grants, saved, [token], presented);
    } else {
      var refused := Notice(CriticalError, AuthFault(tokens.error));
      assert rx.trace == (Calls([CodeGrant(code)]) + Emits([refused])) + (Writes([]) + Emits([]));
      PhasedConsistent(rx, [CodeGrant(code)], [refused], [], []);
    }
  }

  lemma AuthenticatedConsistent(state: CurrentState, userId: Json, faults: map<nat, string>, base: nat,
                                nonces: seq<string>)
    requires |nonces| == 6
    ensures Consistent(AuthenticatedReaction(state, userId, faults, base, nonces))
  {
    var next := state.(userId := userId);
    var a := SubscribeReaction(next, CriticalError, faults, base, "VOICE_SETTINGS_UPDATE", nonces[0]);
    var b := SubscribeReaction(next, CriticalError, faults, base + 1, "VOICE_CHANNEL_SELECT", nonces[1]);
    SubscribeConsistent(next, CriticalError, faults, base, "VOICE_SETTINGS_UPDATE", nonces[0]);
    SubscribeConsistent(next, CriticalError, faults, base + 1, "VOICE_CHANNEL_SELECT", nonces[1]);
    QueryConsistent(next, CriticalError, faults, base + 2, nonces[2]);
    ThenConsistent(a, b);
    ThenConsistent(Then(a, b), QueryReaction(next, CriticalError, faults, base + 2, nonces[2]));
  }

  lemma FollowChannelConsistent(state: CurrentState, faults: map<nat, string>, base: nat, nonces: seq<string>)
    requires |nonces| == 6
    ensures Consistent(FollowChannelReaction(state, faults, base, nonces))
  {
    QueryConsistent(state, Error, faults, base, nonces[0]);
    if base !in faults {
      VcEventsConsistent(state, faults, base + 1, state.channelId, true, nonces[1..]);
      ThenConsistent(QueryReaction(state, Error, faults, base, nonces[0]),
                     VcEventsReaction(state, faults, base + 1, state.channelId, true, nonces[1..]));
    }
  }

  /**
   * Every message's reaction keeps its per-channel logs in step with its
   * trace: the notices, writes and calls are the trace's, in trace order.
   */
  lemma ReactConsistent(state: CurrentState, msg: Result<Json, string>, faults: map<nat, string>, base: nat,
                        codeAnswer: string -> Result<TokenData, AuthError>, saveFault: string -> Option<string>,
                        nonces: seq<string>)
    requires |nonces| == 6 && !Panics(msg)
    ensures Consistent(React(state, msg, faults, base, codeAnswer, saveFault, nonces))
  {
    var kind := Classify(msg);
    if IsEvent(kind) {
      EventConsistent(state, kind, faults, base, nonces);
    } else {
      ReplyConsistent(state, kind, faults, base, codeAnswer, saveFault, nonces);
    }
  }

  lemma ReplyConsistent(state: CurrentState, kind: Kind, faults: map<nat, string>, base: nat,
                        codeAnswer: string -> Result<TokenData, AuthError>, saveFault: string -> Option<string>,
                        nonces: seq<string>)
    requires |nonces| == 6 && Handled(kind) && !IsEvent(kind)
    ensures Consistent(ReplyReaction(state, kind, faults, base, codeAnswer, saveFault, nonces))
  {
    match kind
    case AuthorizeReply(code) => AuthorizedConsistent(state, code.s, faults, base, codeAnswer, saveFault, nonces[0]);
    case AuthenticateReply(userId) => AuthenticatedConsistent(state, userId, faults, base, nonces);
    case NotInChannel => AnnounceConsistent(state.(channelId := Null), [Notice(VcSelect, Data(SelectPayload(false)))]);
    case InChannel(channelId, name, voiceStates) =>
      var next := state.(channelId := channelId);
      var notices := [Notice(VcSelect, Data(SelectPayload(true))),
                      Notice(VcInfo, Data(Obj(map["name" := name, "users" := voiceStates])))];
      AnnounceConsistent(next, notices);
      VcEventsConsistent(next, faults, base, channelId, true, nonces[..5]);
      ThenConsistent(Announce(next, notices), VcEventsReaction(next, faults, base, channelId, true, nonces[..5]));
    case AuthorizeRefused =>
      AnnounceConsistent(state, [Notice(CriticalError, IpcFault(IpcError(Authorize, AuthorizeRefusal, None)))]);
    case SubscribeRefused =>
      AnnounceConsistent(state, [Notice(Error, IpcFault(IpcError(IpcErrorType.Subscribe, SubscribeRefusal, None)))]);
    case ReadFailed =>
    case OtherReply =>
    case OtherError =>
  }

  lemma EventConsistent(state: CurrentState, kind: Kind, faults: map<nat, string>, base: nat, nonces: seq<string>)
    requires |nonces| == 6 && IsEvent(kind)
    ensures Consistent(EventReaction(state, kind, faults, base, nonces))
  {
    match kind
    case SettingsUpdate(mute, deaf) =>
      AnnounceConsistent(state, [Notice(VcMuteUpdate, Data(Obj(map["mute" := mute, "deaf" := deaf])))]);
    case ChannelLeft =>
      var next := state.(channelId := Null);
      AnnounceConsistent(next, [Notice(VcSelect, Data(SelectPayload(false)))]);
      VcEventsConsistent(next, faults, base, Null, false, nonces[..5]);
      ThenConsistent(Announce(next, [Notice(VcSelect, Data(SelectPayload(false)))]),
                     VcEventsReaction(next, faults, base, Null, false, nonces[..5]));
    case ChannelJoined(channelId) =>
      var next := state.(channelId := channelId);
      AnnounceConsistent(next, [Notice(VcSelect, Data(SelectPayload(true)))]);
      FollowChannelConsistent(next, faults, base, nonces);
      ThenConsistent(Announce(next, [Notice(VcSelect, Data(SelectPayload(true)))]),
                     FollowChannelReaction(next, faults, base, nonces));
    case MemberChanged(joined, data) =>
      AnnounceConsistent(state, [Notice(VcUser, Data(MemberNotice(joined, data)))]);
    case MemberLeft(userId) => AnnounceConsistent(state, [Notice(VcUser, Data(LeaveNotice))]);
    case Speaking(userId, speaking) =>
      AnnounceConsistent(state, [Notice(VcSpeak, Data(SpeakNotice(userId, userId == state.userId, speaking)))]);
    case Ignored =>
  }

  lemma FallbackConsistent(state: CurrentState, error: AuthError, faults: map<nat, string>, base: nat,
                           clientId: string, nonce: string)
    ensures Consistent(FallbackReaction(state, error, faults, base, clientId, nonce))
  {
    var asked := AuthFailure(Error, LegacyAuth.WriteOutcome(IpcAuth.AuthorizeSendFailure, FaultAt(faults, base)));
    TraceAppend([Emit(Notice(Error, AuthFault(error))), Write(AuthorizePayload(clientId, nonce))], Emits(asked));
    EmitsProject(asked);
  }

  lemma SaveConsistent(state: CurrentState, token: string, saveFault: string -> Option<string>)
    ensures Consistent(SaveReaction(state, token, saveFault))
  {
    TraceAppend([Call(SaveConfig(token))], Emits(SaveFailure(saveFault(token))));
    EmitsProject(SaveFailure(saveFault(token)));
  }

  lemma RenewConsistent(state: CurrentState, stored: Result<string, string>,
                        refreshAnswer: string -> Result<TokenData, AuthError>, nonce: string)
    ensures Consistent(RenewReaction(state, stored, refreshAnswer, nonce))
  {
    var rx := RenewReaction(state, stored, refreshAnswer, nonce);
    TraceAppend(Calls(rx.calls), Writes(rx.sent));
    CallsProject(rx.calls);
    WritesProject(rx.sent);
  }

  /** `connect_ipc` keeps its per-channel logs in step with its trace. */
  lemma SetupConsistent(state: CurrentState, stored: Result<string, string>,
                        refreshAnswer: string -> Result<TokenData, AuthError>, saveFault: string -> Option<string>,
                        faults: map<nat, string>, base: nat, clientId: string, nonces: seq<string>)
    requires |nonces| == 2
    ensures Consistent(SetupReaction(state, stored, refreshAnswer, saveFault, faults, base, clientId, nonces))
  {
    var token := SavedToken(stored, refreshAnswer, FaultAt(faults, base));
    RecoveredConsistent(state, stored, refreshAnswer, faults, base, clientId, nonces);
    SaveConsistent(state, token, saveFault);
    ThenConsistent(RecoveredReaction(state, stored, refreshAnswer, faults, base, clientId, nonces),
                   SaveReaction(state, token, saveFault));
  }

  lemma RecoveredConsistent(state: CurrentState, stored: Result<string, string>,
                            refreshAnswer: string -> Result<TokenData, AuthError>,
                            faults: map<nat, string>, base: nat, clientId: string, nonces: seq<string>)
    requires |nonces| == 2
    ensures Consistent(RecoveredReaction(state, stored, refreshAnswer, faults, base, clientId, nonces))
  {
    var rx := RecoveredReaction(state, stored, refreshAnswer, faults, base, clientId, nonces);
    var renew := RenewReaction(state, stored, refreshAnswer, nonces[0]);
    RenewConsistent(state, stored, refreshAnswer, nonces[0]);
    if rx != renew {
      var reauth := LegacyAuth.LegacyReauthResult(stored, refreshAnswer, FaultAt(faults, base));
      var fallback := FallbackReaction(state, reauth.error, faults, base + |renew.sent|, clientId, nonces[1]);
      FallbackConsistent(state, reauth.error, faults, base + |renew.sent|, clientId, nonces[1]);
      ThenConsistent(renew, fallback);
    }
  }

  /** `first` happens somewhere in `trace` before `second` does. */
  predicate Precedes(trace: seq<Effect>, first: Effect, second: Effect)
  {
    exists i, j :: 0 <= i < j < |trace| && trace[i] == first && trace[j] == second
  }

  /**
   * The reply to AUTHORIZE trades the code, then saves the new refresh
   * token, and only then presents the new access token to the host; when the
   * trade fails nothing is saved and nothing is written.
   */
  lemma AuthorizedSavesBeforePresenting(state: CurrentState, code: string, faults: map<nat, string>, base: nat,
                                        codeAnswer: string -> Result<TokenData, AuthError>,
                                        saveFault: string -> Option<string>, nonce: string)
    ensures var rx := AuthorizedReaction(state, code, faults, base, codeAnswer, saveFault, nonce);
            var tokens := codeAnswer(code);
            && (tokens.Err? ==> rx.sent == [] && rx.calls == [CodeGrant(code)])
            && (tokens.Ok? ==>
                  && Precedes(rx.trace, Call(CodeGrant(code)), Call(SaveConfig(tokens.value.refreshToken)))
                  && Precedes(rx.trace, Call(SaveConfig(tokens.value.refreshToken)),
                              Write(AuthenticatePayload(tokens.value.accessToken, nonce))))
  {
    var rx := AuthorizedReaction(state, code, faults, base, codeAnswer, saveFault, nonce);
    var tokens := codeAnswer(code);
    if tokens.Ok? {
      var saved := SaveFailure(saveFault(tokens.value.refreshToken));
      var j := 2 + |saved|;
      assert rx.trace[0] == Call(CodeGrant(code));
      assert rx.trace[1] == Call(SaveConfig(tokens.value.refreshToken));
      assert rx.trace[j] == Write(AuthenticatePayload(tokens.value.accessToken, nonce));
    }
  }

  /**
   * As written, a successful renewal in `connect_ipc` presents the new access
   * token to the host before the rotated refresh token is saved, and never
   * the other way round: the older `try_reauth` writes AUTHENTICATE itself,
   * and the save follows it.
   */
  lemma SetupPresentsBeforeSaving(state: CurrentState, stored: Result<string, string>,
                                  refreshAnswer: string -> Result<TokenData, AuthError>,
                                  saveFault: string -> Option<string>,
                                  faults: map<nat, string>, base: nat, clientId: string, nonces: seq<string>)
    requires |nonces| == 2
    requires LegacyAuth.LegacyReauthResult(stored, refreshAnswer, FaultAt(faults, base)).Ok?
    ensures var rx := SetupReaction(state, stored, refreshAnswer, saveFault, faults, base, clientId, nonces);
            var tokens := refreshAnswer(stored.value).value;
            var saved := Call(SaveConfig(tokens.refreshToken));
            var presented := Write(AuthenticatePayload(tokens.accessToken, nonces[0]));
            Precedes(rx.trace, presented, saved) && !Precedes(rx.trace, saved, presented)
  {
    var rx := SetupReaction(state, stored, refreshAnswer, saveFault, faults, base, clientId, nonces);
    var tokens := refreshAnswer(stored.value).value;
    var saved := Call(SaveConfig(tokens.refreshToken));
    var presented := Write(AuthenticatePayload(tokens.accessToken, nonces[0]));
    var failure := SaveFailure(saveFault(tokens.refreshToken));
    var before := [Call(ReadStoredToken), Call(RefreshGrant(stored.value))];
    assert rx.trace == before + [presented] + [] + [saved] + Emits(failure);
    InOrder(before, presented, [], saved, Emits(failure));
  }

  /**
   * `connect_ipc` as evidently intended: renew with the newer `try_reauth`,
   * which writes nothing, save the rotated refresh token, and only then
   * present the new access token; a failed presentation is reported and
   * falls back to asking for authorization, as a failed renewal does.
   */
  function CorrectedSetupReaction(state: CurrentState, stored: Result<string, string>,
                                  refreshAnswer: string -> Result<TokenData, AuthError>,
                                  saveFault: string -> Option<string>,
                                  faults: map<nat, string>, base: nat, clientId: string, nonces: seq<string>): Reaction
    requires |nonces| == 2
  {
    var renewed := IpcAuth.ReauthResult(stored, refreshAnswer);
    var calls := IpcAuth.ReauthCalls(stored);
    var renewal := Reaction(state, [], [], calls, Calls(calls));
    if renewed.Err? then
      Then(Then(renewal, FallbackReaction(state, renewed.error, faults, base, clientId, nonces[1])),
           SaveReaction(state, "", saveFault))
    else
      var token := AuthenticatePayload(renewed.value.accessToken, nonces[0]);
      var presented := Then(Then(renewal, SaveReaction(state, renewed.value.refreshToken, saveFault)),
                            Reaction(state, [], [token], [], [Write(token)]));
      if base !in faults then presented
      else
        var refused := LegacyAuth.WriteOutcome(IpcAuth.TokenSendFailure, FaultAt(faults, base)).error;
        Then(presented, FallbackReaction(state, refused, faults, base + 1, clientId, nonces[1]))
  }

  /**
   * The corrected setup saves the rotated refresh token before it presents
   * the new access token, and never the other way round. When the
   * presentation goes through it makes the same calls, writes and notices as
   * the setup as written; only their order differs.
   */
  lemma CorrectedSetupSavesBeforePresenting(state: CurrentState, stored: Result<string, string>,
                                            refreshAnswer: string -> Result<TokenData, AuthError>,
                                            saveFault: string -> Option<string>,
                                            faults: map<nat, string>, base: nat, clientId: string, nonces: seq<string>)
    requires |nonces| == 2 && stored.Ok? && refreshAnswer(stored.value).Ok?
    ensures var rx := CorrectedSetupReaction(state, stored, refreshAnswer, saveFault, faults, base, clientId, nonces);
            var tokens := refreshAnswer(stored.value).value;
            var saved := Call(SaveConfig(tokens.refreshToken));
            var presented := Write(AuthenticatePayload(tokens.accessToken, nonces[0]));
            && Precedes(rx.trace, saved, presented) && !Precedes(rx.trace, presented, saved)
            && (base !in faults ==>
                  var asWritten := SetupReaction(state, stored, refreshAnswer, saveFault, faults, base, clientId, nonces);
                  rx.sent == asWritten.sent && rx.calls == asWritten.calls && rx.notices == asWritten.notices)
  {
    CorrectedSetupOrder(state, stored, refreshAnswer, saveFault, faults, base, clientId, nonces);
    if base !in faults {
      CorrectedSetupAgrees(state, stored, refreshAnswer, saveFault, faults, base, clientId, nonces);
    }
  }

  /** The order half of `CorrectedSetupSavesBeforePresenting`. */
  lemma CorrectedSetupOrder(state: CurrentState, stored: Result<string, string>,
                            refreshAnswer: string -> Result<TokenData, AuthError>,
                            saveFault: string -> Option<string>,
                            faults: map<nat, string>, base: nat, clientId: string, nonces: seq<string>)
    requires |nonces| == 2 && stored.Ok? && refreshAnswer(stored.value).Ok?
    ensures var rx := CorrectedSetupReaction(state, stored, refreshAnswer, saveFault, faults, base, clientId, nonces);
            var tokens := refreshAnswer(stored.value).value;
            var saved := Call(SaveConfig(tokens.refreshToken));
            var presented := Write(AuthenticatePayload(tokens.accessToken, nonces[0]));
            Precedes(rx.trace, saved, presented) && !Precedes(rx.trace, presented, saved)
  {
    var rx := CorrectedSetupReaction(state, stored, refreshAnswer, saveFault, faults, base, clientId, nonces);
    var tokens := refreshAnswer(stored.value).value;
    var saved := Call(SaveConfig(tokens.refreshToken));
    var presented := Write(AuthenticatePayload(tokens.accessToken, nonces[0]));
    var failure := SaveFailure(saveFault(tokens.refreshToken));
    var before := [Call(ReadStoredToken), Call(RefreshGrant(stored.value))];
    var after := if base !in faults then [] else
      var refused := LegacyAuth.WriteOutcome(IpcAuth.TokenSendFailure, FaultAt(faults, base)).error;
      FallbackReaction(state, refused, faults, base + 1, clientId, nonces[1]).trace;
    assert rx.trace == before + [saved] + Emits(failure) + [presented] + after;
    if base in faults {
      var refused := LegacyAuth.WriteOutcome(IpcAuth.TokenSendFailure, FaultAt(faults, base)).error;
      FallbackEffects(state, refused, faults, base + 1, clientId, nonces[1]);
      AuthenticatePayloadShape(tokens.accessToken, nonces[0]);
      AuthorizePayloadShape(clientId, nonces[1]);
      assert presented != Write(AuthorizePayload(clientId, nonces[1]));
    }
    InOrder(before, saved, Emits(failure), presented, after);
  }


  /** When the presentation goes through, the corrected setup has the same effects as the setup as written. */
  lemma CorrectedSetupAgrees(state: CurrentState, stored: Result<string, string>,
                             refreshAnswer: string -> Result<TokenData, AuthError>,
                             saveFault: string -> Option<string>,
                             faults: map<nat, string>, base: nat, clientId: string, nonces: seq<string>)
    requires |nonces| == 2 && stored.Ok? && refreshAnswer(stored.value).Ok? && base !in faults
    ensures var rx := CorrectedSetupReaction(state, stored, refreshAnswer, saveFault, faults, base, clientId, nonces);
            var asWritten := SetupReaction(state, stored, refreshAnswer, saveFault, faults, base, clientId, nonces);
            rx.sent == asWritten.sent && rx.calls == asWritten.calls && rx.notices == asWritten.notices
  {
  }

  /** The fallback emits notices and writes only the AUTHORIZE request. */
  lemma FallbackEffects(state: CurrentState, error: AuthError, faults: map<nat, string>, base: nat,
                        clientId: string, nonce: string)
    ensures forall e :: e in FallbackReaction(state, error, faults, base, clientId, nonce).trace ==>
              e.Emit? || e == Write(AuthorizePayload(clientId, nonce))
  {
  }

  /**
   * Two effects that each occur once in a trace, the first one before the
   * second, come in that order and never the other way round.
   */
  lemma InOrder(before: seq<Effect>, first: Effect, between: seq<Effect>, second: Effect, after: seq<Effect>)
    requires first != second
    requires first !in before + between + after && second !in before + between + after
    ensures var trace := before + [first] + between + [second] + after;
            Precedes(trace, first, second) && !Precedes(trace, second, first)
  {
    var trace := before + [first] + between + [second] + after;
    var rest := before + between + after;
    var i, j := |before|, |before| + 1 + |between|;
    assert trace[i] == first && trace[j] == second;
    forall k | 0 <= k < |trace| && k != i && k != j
      ensures trace[k] in rest
    {
      if k < i {
        assert trace[k] == rest[k];
      } else if k < j {
        assert trace[k] == rest[k - 1];
      } else {
        assert trace[k] == rest[k - 2];
      }
    }
  }
}
