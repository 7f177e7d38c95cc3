/**
 * What one pass of the loop in src-tauri/src/main.rs promises, stated about
 * `Presence.React` and the reactions it is built from: which messages move
 * the remembered ids, which ones write to the host, what the writes are, and
 * which notices reach the window.
 */
module PresenceFacts {
  import opened Wrappers
  import opened Json
  import opened Errors
  import opened Transport
  import opened Commands
  import opened Presence
  import VcEvents
  import LegacyIpc
  import LegacyAuth
  import IpcAuth
  import MemberList
  import AppView

  /**
   * The user id changes only on the reply to AUTHENTICATE, which sets it to
   * `data.user.id`; the channel id changes only on the reply to
   * GET_SELECTED_VOICE_CHANNEL and on VOICE_CHANNEL_SELECT, which set it to
   * the channel named, or to `null` when there is none.
   */
  lemma RememberedIds(state: CurrentState, msg: Result<Json, string>, faults: map<nat, string>, base: nat,
                      codeAnswer: string -> Result<TokenData, AuthError>, saveFault: string -> Option<string>,
                      nonces: seq<string>)
    requires |nonces| == 6 && !Panics(msg)
    ensures var rx := React(state, msg, faults, base, codeAnswer, saveFault, nonces);
            var kind := Classify(msg);
            && rx.next.userId == (if kind.AuthenticateReply? then kind.userId else state.userId)
            && rx.next.channelId ==
               (if kind.NotInChannel? || kind.ChannelLeft? then Null
                else if kind.InChannel? || kind.ChannelJoined? then kind.channelId
                else state.channelId)
  {
  }

  /** A failed read changes nothing, writes nothing and emits nothing: the loop just reads again. */
  lemma ReadFailureIsQuiet(state: CurrentState, msg: Result<Json, string>, faults: map<nat, string>, base: nat,
                           codeAnswer: string -> Result<TokenData, AuthError>, saveFault: string -> Option<string>,
                           nonces: seq<string>)
    requires |nonces| == 6 && msg.Err?
    ensures React(state, msg, faults, base, codeAnswer, saveFault, nonces) == Quiet(state)
  {
  }

  /**
   * Only the replies to AUTHORIZE, AUTHENTICATE and GET_SELECTED_VOICE_CHANNEL
   * (with a channel) and the VOICE_CHANNEL_SELECT event write to the host,
   * and only the reply to AUTHORIZE calls outside services.
   */
  lemma WritesOnlyOnCommands(state: CurrentState, msg: Result<Json, string>, faults: map<nat, string>, base: nat,
                             codeAnswer: string -> Result<TokenData, AuthError>, saveFault: string -> Option<string>,
                             nonces: seq<string>)
    requires |nonces| == 6 && !Panics(msg)
    ensures var rx := React(state, msg, faults, base, codeAnswer, saveFault, nonces);
            var kind := Classify(msg);
            && (rx.sent != [] ==>
                  kind.AuthorizeReply? || kind.AuthenticateReply? || kind.InChannel? || kind.ChannelLeft? || kind.ChannelJoined?)
            && (rx.calls != [] <==> kind.AuthorizeReply?)
  {
    var kind := Classify(msg);
    if kind.InChannel? || kind.ChannelLeft? || kind.ChannelJoined? {
    }
  }

  /**
   * The reply to AUTHENTICATE subscribes to VOICE_SETTINGS_UPDATE, then to
   * VOICE_CHANNEL_SELECT, both with `{}`, then asks for the selected channel,
   * whatever fails on the way; every failure is reported as critical.
   */
  lemma AuthenticatedWrites(state: CurrentState, userId: Json, faults: map<nat, string>, base: nat, nonces: seq<string>)
    requires |nonces| == 6
    ensures var rx := AuthenticatedReaction(state, userId, faults, base, nonces);
            && rx.sent == [SubscribePayload("VOICE_SETTINGS_UPDATE", EmptyObject, true, nonces[0]),
                           SubscribePayload("VOICE_CHANNEL_SELECT", EmptyObject, true, nonces[1]),
                           SelectedChannelQuery(nonces[2])]
            && rx.calls == []
            && (forall n :: n in rx.notices ==> n.event == CriticalError)
            && (rx.notices == [] <==> base !in faults && base + 1 !in faults && base + 2 !in faults)
  {
  }

  /** The reply to GET_SELECTED_VOICE_CHANNEL without data forgets the channel and tells the window, writing nothing. */
  lemma NotInChannelReport(state: CurrentState, msg: Result<Json, string>, faults: map<nat, string>, base: nat,
                           codeAnswer: string -> Result<TokenData, AuthError>, saveFault: string -> Option<string>,
                           nonces: seq<string>)
    requires |nonces| == 6 && Classify(msg).NotInChannel?
    ensures var rx := React(state, msg, faults, base, codeAnswer, saveFault, nonces);
            && rx.sent == [] && rx.calls == []
            && rx.next == state.(channelId := Null)
            && rx.notices == [Notice(VcSelect, Data(Obj(map["in_vc" := Bool(false)])))]
  {
  }

  /**
   * The reply to GET_SELECTED_VOICE_CHANNEL with data remembers the channel,
   * tells the window it is in a channel and what the channel is called and
   * who is in it, then subscribes to that channel's member and speaking
   * events with the first five nonces; it calls no outside service.
   */
  lemma InChannelReport(state: CurrentState, msg: Result<Json, string>, faults: map<nat, string>, base: nat,
                        codeAnswer: string -> Result<TokenData, AuthError>, saveFault: string -> Option<string>,
                        nonces: seq<string>)
    requires |nonces| == 6 && Classify(msg).InChannel?
    ensures var rx := React(state, msg, faults, base, codeAnswer, saveFault, nonces);
            var kind := Classify(msg);
            var run := LegacyIpc.LegacyRun(faults, base, kind.channelId, true, nonces[..5]);
            && rx.next == state.(channelId := kind.channelId)
            && rx.notices == [Notice(VcSelect, Data(Obj(map["in_vc" := Bool(true)]))),
                              Notice(VcInfo, Data(Obj(map["name" := kind.name, "users" := kind.voiceStates])))]
                             + SubscriptionFailure(Error, run.outcome)
            && rx.sent == run.sent
            && (run.outcome.Fail? <==> |rx.notices| == 3)
            && rx.calls == []
  {
  }

  /**
   * Every message of a subscription run names the channel it was given and
   * carries the command the run was asked for.
   */
  lemma RunNamesChannel(faults: map<nat, string>, base: nat, channelId: Json, isSubscribe: bool, nonces: seq<string>)
    requires |nonces| == 5
    ensures var sent := LegacyIpc.LegacyRun(faults, base, channelId, isSubscribe, nonces).sent;
            && 1 <= |sent| <= 5
            && forall m :: m in sent ==>
                 Get2(m, "args", "channel_id") == channelId && Get(m, "cmd") == Str(SubscriptionCommand(isSubscribe))
  {
    var sent := LegacyIpc.LegacyRun(faults, base, channelId, isSubscribe, nonces).sent;
    var batch := VcEvents.SubscriptionBatch(channelId, isSubscribe, nonces);
    LegacyIpc.LegacyRunShape(faults, base, channelId, isSubscribe, nonces);
    VcEvents.SubscriptionBatchShape(channelId, isSubscribe, nonces);
    forall m | m in sent
      ensures Get2(m, "args", "channel_id") == channelId && Get(m, "cmd") == Str(SubscriptionCommand(isSubscribe))
    {
      var i :| 0 <= i < |sent| && sent[i] == m;
      assert m == batch[i];
    }
  }

  /**
   * Leaving a channel unsubscribes with `channel_id: null`: the id is cleared
   * before the unsubscription reads it, so the messages never name the
   * channel that was left.
   */
  lemma LeftUnsubscribesNull(state: CurrentState, faults: map<nat, string>, base: nat, nonces: seq<string>)
    requires |nonces| == 5
    ensures var rx := ChannelLeftReaction(state, faults, base, nonces);
            && rx.next.channelId == Null
            && 1 <= |rx.sent|
            && forall m :: m in rx.sent ==>
                 Get2(m, "args", "channel_id") == Null && Get(m, "cmd") == Str("UNSUBSCRIBE")
  {
    RunNamesChannel(faults, base, Null, false, nonces);
  }

  /** Hence, after being in a channel, the unsubscription never names it. */
  lemma LeftChannelNeverNamed(state: CurrentState, faults: map<nat, string>, base: nat, nonces: seq<string>)
    requires |nonces| == 5 && state.channelId != Null
    ensures forall m :: m in ChannelLeftReaction(state, faults, base, nonces).sent ==>
              Get2(m, "args", "channel_id") != state.channelId
  {
    LeftUnsubscribesNull(state, faults, base, nonces);
  }

  /** Leaving a channel as evidently intended: the unsubscription names the channel being left. */
  function CorrectedChannelLeftReaction(state: CurrentState, faults: map<nat, string>, base: nat, nonces: seq<string>)
    : Reaction
    requires |nonces| == 5
  {
    var left := Announce(state.(channelId := Null), [Notice(VcSelect, Data(SelectPayload(false)))]);
    if state.channelId == Null then left
    else Then(left, VcEventsReaction(state.(channelId := Null), faults, base, state.channelId, false, nonces))
  }

  /**
   * The corrected leave forgets the channel. With no channel remembered it
   * writes nothing; otherwise it unsubscribes from exactly the events a join
   * subscribed to: the same messages with UNSUBSCRIBE for SUBSCRIBE, in the
   * same order, each naming the channel left.
   */
  lemma CorrectedLeaveUnsubscribesChannel(state: CurrentState, faults: map<nat, string>, base: nat, nonces: seq<string>)
    requires |nonces| == 5
    ensures var rx := CorrectedChannelLeftReaction(state, faults, base, nonces);
            var joined := VcEvents.SubscriptionBatch(state.channelId, true, nonces);
            && rx.next.channelId == Null
            && (state.channelId == Null <==> rx.sent == [])
            && (state.channelId != Null ==> 1 <= |rx.sent| <= |joined|)
            && (forall i :: 0 <= i < |rx.sent| ==>
                  rx.sent[i] == Obj(joined[i].fields["cmd" := Str("UNSUBSCRIBE")]))
            && forall m :: m in rx.sent ==> Get2(m, "args", "channel_id") == state.channelId
  {
    var rx := CorrectedChannelLeftReaction(state, faults, base, nonces);
    LegacyIpc.LegacyRunShape(faults, base, state.channelId, false, nonces);
    VcEvents.SubscribeUnsubscribeMirror(state.channelId, nonces);
    RunNamesChannel(faults, base, state.channelId, false, nonces);
  }

  /**
   * Joining a channel first asks for the selected channel; the channel's
   * events are subscribed, with its id, only when that request was written,
   * and a failed request is reported as an error.
   */
  lemma JoinedQueriesFirst(state: CurrentState, channelId: Json, faults: map<nat, string>, base: nat, nonces: seq<string>)
    requires |nonces| == 6
    ensures var rx := ChannelJoinedReaction(state, channelId, faults, base, nonces);
            && rx.next.channelId == channelId
            && 1 <= |rx.sent| && rx.sent[0] == SelectedChannelQuery(nonces[0])
            && rx.notices[0] == Notice(VcSelect, Data(SelectPayload(true)))
            && (base in faults ==>
                  rx.sent == [SelectedChannelQuery(nonces[0])] &&
                  rx.notices == [Notice(VcSelect, Data(SelectPayload(true))),
                                 Notice(Error, IpcFault(IpcError(EventSend, QueryFailure, None)))])
            && (base !in faults ==>
                  var run := LegacyIpc.LegacyRun(faults, base + 1, channelId, true, nonces[1..]);
                  && rx.sent[1..] == run.sent
                  && rx.notices == [Notice(VcSelect, Data(SelectPayload(true)))] + SubscriptionFailure(Error, run.outcome)
                  && forall m :: m in rx.sent[1..] ==>
                       Get2(m, "args", "channel_id") == channelId && Get(m, "cmd") == Str("SUBSCRIBE"))
  {
    if base !in faults {
      RunNamesChannel(faults, base + 1, channelId, true, nonces[1..]);
    }
  }

  /**
   * A member who joins or changes voice state is reported, with no write,
   * exactly when the member is not the user.
   */
  lemma MemberReportedUnlessSelf(state: CurrentState, msg: Result<Json, string>, faults: map<nat, string>, base: nat,
                                 codeAnswer: string -> Result<TokenData, AuthError>, saveFault: string -> Option<string>,
                                 nonces: seq<string>)
    requires |nonces| == 6 && Classify(msg).MemberChanged?
    ensures var rx := React(state, msg, faults, base, codeAnswer, saveFault, nonces);
            var data := Classify(msg).data;
            && rx.sent == [] && rx.calls == [] && rx.next == state
            && (rx.notices != [] <==> Get2(data, "user", "id") != state.userId)
            && (rx.notices != [] ==>
                  rx.notices == [Notice(VcUser, Data(MemberNotice(Classify(msg).joined, data)))] &&
                  Get2(MemberNotice(Classify(msg).joined, data), "data", "id") == Get2(data, "user", "id"))
  {
  }

  /**
   * A member who leaves is reported, with no write, exactly when the member
   * is not the user; the notice carries only the event name, so it does not
   * say who left.
   */
  lemma LeaveReportNamesNoOne(state: CurrentState, msg: Result<Json, string>, faults: map<nat, string>, base: nat,
                              codeAnswer: string -> Result<TokenData, AuthError>, saveFault: string -> Option<string>,
                              nonces: seq<string>)
    requires |nonces| == 6 && Classify(msg).MemberLeft?
    ensures var rx := React(state, msg, faults, base, codeAnswer, saveFault, nonces);
            && rx.sent == [] && rx.calls == [] && rx.next == state
            && (rx.notices != [] <==> Classify(msg).userId != state.userId)
            && (rx.notices != [] ==> rx.notices == [Notice(VcUser, Data(LeaveNotice))])
            && Get(LeaveNotice, "event") == Str("LEAVE") && Get(LeaveNotice, "data") == Null
  {
  }

  /** The LEAVE notice as evidently intended: it names the member who left. */
  function CorrectedLeaveNotice(userId: Json): Json
  {
    Obj(map["event" := Str("LEAVE"), "data" := Obj(map["id" := userId])])
  }

  /** The corrected notice is a LEAVE notice whose `data.id` is the departed member's id. */
  lemma CorrectedLeaveNoticeNamesMember(userId: Json)
    ensures Get(CorrectedLeaveNotice(userId), "event") == Str("LEAVE")
    ensures Get2(CorrectedLeaveNotice(userId), "data", "id") == userId
  {
  }

  /**
   * What the window's `leaveUser` finds in a LEAVE `vc_user` notice: the
   * `data.id` it filters by, or nothing when the notice has no `data`.
   */
  function LeaveTarget(notice: Json): Option<Json>
  {
    var data := Get(notice, "data");
    if data == Null then None else Some(Get(data, "id"))
  }

  /**
   * From the loop to the window: the LEAVE notice as written gives the
   * window no member, so it reaches `leaveUser` without `data`, which throws
   * on a non-empty list; the corrected notice gives it the member's id, and
   * the list then keeps exactly the other members.
   */
  lemma CorrectedLeaveReachesWindow(list: seq<MemberList.UserData>, d: MemberList.MemberData)
    ensures LeaveTarget(LeaveNotice) == None
    ensures list != [] ==> AppView.AfterMemberNotice(list, AppView.MemberNotice(AppView.Leave, None)).None?
    ensures LeaveTarget(CorrectedLeaveNotice(Str(d.id))) == Some(Str(d.id))
    ensures var r := AppView.AfterMemberNotice(list, AppView.MemberNotice(AppView.Leave, Some(d)));
            && r == Some(MemberList.LeaveUser(list, d.id))
            && (forall u :: u in r.value <==> u in list && u.id != d.id)
  {
    CorrectedLeaveNoticeNamesMember(Str(d.id));
    AppView.LeaveWithDataRemoves(list, d);
  }

  /**
   * A speaking change is always reported, with no write; `is_me` says
   * whether the speaker is the user, `speaking` whether speech started.
   */
  lemma SpeakingReport(state: CurrentState, msg: Result<Json, string>, faults: map<nat, string>, base: nat,
                       codeAnswer: string -> Result<TokenData, AuthError>, saveFault: string -> Option<string>,
                       nonces: seq<string>)
    requires |nonces| == 6 && Classify(msg).Speaking?
    ensures var rx := React(state, msg, faults, base, codeAnswer, saveFault, nonces);
            var kind := Classify(msg);
            && rx.sent == [] && rx.calls == [] && rx.next == state && |rx.notices| == 1
            && rx.notices[0].event == VcSpeak && rx.notices[0].payload.Data?
            && Get(rx.notices[0].payload.json, "user_id") == kind.userId
            && Get(rx.notices[0].payload.json, "is_me") == Bool(kind.userId == state.userId)
            && Get(rx.notices[0].payload.json, "speaking") == Bool(kind.speaking)
  {
  }

  /**
   * Errors the host reports: a refused authorization is critical, a failed
   * subscription is an error, any other is ignored; none writes anything.
   */
  lemma HostErrors(state: CurrentState, msg: Result<Json, string>, faults: map<nat, string>, base: nat,
                   codeAnswer: string -> Result<TokenData, AuthError>, saveFault: string -> Option<string>,
                   nonces: seq<string>)
    requires |nonces| == 6 && msg.Ok? && IsText(Get(msg.value, "evt"), "ERROR")
    ensures var rx := React(state, msg, faults, base, codeAnswer, saveFault, nonces);
            var cmd := Get(msg.value, "cmd");
            && rx.sent == [] && rx.calls == [] && rx.next == state
            && (IsText(cmd, "AUTHORIZE") ==>
                  rx.notices == [Notice(CriticalError, IpcFault(IpcError(Authorize, AuthorizeRefusal, None)))])
            && (IsText(cmd, "SUBSCRIBE") ==>
                  rx.notices == [Notice(Error, IpcFault(IpcError(IpcErrorType.Subscribe, SubscribeRefusal, None)))])
            && (!IsText(cmd, "AUTHORIZE") && !IsText(cmd, "SUBSCRIBE") ==> rx.notices == [])
  {
  }

  /**
   * `connect_ipc` saves the rotated refresh token exactly when the renewal
   * succeeded, and the empty string otherwise; the save is its last
   * outside call.
   */
  lemma SetupSavesRotatedToken(state: CurrentState, stored: Result<string, string>,
                               refreshAnswer: string -> Result<TokenData, AuthError>, saveFault: string -> Option<string>,
                               faults: map<nat, string>, base: nat, clientId: string, nonces: seq<string>)
    requires |nonces| == 2
    ensures var rx := SetupReaction(state, stored, refreshAnswer, saveFault, faults, base, clientId, nonces);
            var renewed := stored.Ok? && refreshAnswer(stored.value).Ok? && base !in faults;
            && 1 <= |rx.calls|
            && rx.calls[|rx.calls| - 1] ==
               SaveConfig(if renewed then refreshAnswer(stored.value).value.refreshToken else "")
            && rx.next == state
  {
  }

  /**
   * `connect_ipc` asks the user to authorize exactly when the renewal
   * failed, and then reports the failure before anything else.
   */
  lemma SetupAuthorizesOnlyOnFailure(state: CurrentState, stored: Result<string, string>,
                                     refreshAnswer: string -> Result<TokenData, AuthError>,
                                     saveFault: string -> Option<string>,
                                     faults: map<nat, string>, base: nat, clientId: string, nonces: seq<string>)
    requires |nonces| == 2
    ensures var rx := SetupReaction(state, stored, refreshAnswer, saveFault, faults, base, clientId, nonces);
            var reauth := LegacyAuth.LegacyReauthResult(stored, refreshAnswer, FaultAt(faults, base));
            && (AuthorizePayload(clientId, nonces[1]) in rx.sent <==> reauth.Err?)
            && (reauth.Err? ==> |rx.notices| >= 1 && rx.notices[0] == Notice(Error, AuthFault(reauth.error)))
            && (reauth.Ok? ==> rx.notices == SaveFailure(saveFault(reauth.value)))
  {
    var renew := RenewReaction(state, stored, refreshAnswer, nonces[0]);
    var reauth := LegacyAuth.LegacyReauthResult(stored, refreshAnswer, FaultAt(faults, base));
    if renew.sent != [] {
      var m := renew.sent[0];
      AuthenticatePayloadShape(IpcAuth.ReauthResult(stored, refreshAnswer).value.accessToken, nonces[0]);
      AuthorizePayloadShape(clientId, nonces[1]);
      assert m != AuthorizePayload(clientId, nonces[1]);
    }
  }
}
