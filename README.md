# discord-vc-status: the local-RPC session layer

This project models the part of discord-vc-status that talks to the Discord
desktop client over its local IPC endpoint and passes what it learns to the
window:

- the two IPC clients (`SendIPCClient::send`, `ReceiveIPCClient::send` and `subscribe`);
- the per-channel event subscriptions. This includes `set_vc_events` in both the newer
  (`ipc/vc.rs`) and the older (`ipc.rs`) helper sets;
- the authorization handshake in both its newer (`ipc/auth.rs`) and older (`auth.rs`) forms;
- the connection manager of `main.rs`. This covers `connect_ipc`, the renewal with its
  fallback to a fresh authorization, and one pass of the event loop with its remembered
  channel and user ids;
- the window's side (`vc.ts`, `App.tsx`), made of `formatUserData`, `isUserSpeaking` and
  the notice handlers that keep the member list.

Messages are a JSON datatype (`Json`). Indexing follows serde_json: a missing key, or
indexing something that is not an object, gives `null`. The Discord connection is a class
(`Transport.Connection`) with these parts:

- a log of attempted writes;
- a queue of pending reads;
- a map that says which numbered writes fail.

The outside services are oracles with a call log (`Transport.Services`):

- the stored refresh token;
- the OAuth token endpoint;
- the configuration store.

One pass of the loop is specified by `Presence.React`. It is a function from the
remembered state and the message read to a `Reaction`: the next state, the notices
emitted, the messages written, the outside calls made, and one ordered trace of all
three kinds of effect (`Presence.Effect`). The three logs are proved to be the trace's
projections (`PresenceTrace.Consistent`), so the trace also records how they interleave.
`Presence.Session.Step` is proved to do exactly that. `PresenceFacts` states what the loop promises for each kind of
message.

## Model

| member | source | states |
|---|---|---|
| IpcClient.CommandOutcome | src-tauri/src/ipc/client.rs:55-87 | The exchange succeeds exactly when the write goes through and the one reply read carries the request's non-null nonce; the reply is returned unchanged. Every failure keeps the request, tagged EventSend for a failed write, EventDecode for a failed read and EventReceive for a foreign reply. |
| IpcClient.NullNonceNeverAnswered | src-tauri/src/ipc/client.rs:77-84 | A request without a nonce always fails, whatever the reply. |
| IpcClient.AnswerCarriesNonce | src-tauri/src/ipc/client.rs:77-79 | An accepted reply carries exactly the request's nonce, and that nonce is not null. |
| IpcClient.NotifyOutcome | src-tauri/src/ipc/client.rs:95-105 | A one-way send passes exactly when the write goes through. Otherwise it fails with EventSend, the prefixed transport text and the payload. |
| IpcClient.SendIpcClient.constructor | src-tauri/src/ipc/client.rs:48-53 | The command client wraps the given connection. |
| IpcClient.SendIpcClient.Send | src-tauri/src/ipc/client.rs:55-87 | Writes the payload once. It reads one message only when the write went through, and the result is `CommandOutcome` of that write and read; no second message is read. |
| IpcClient.ReceiveIpcClient.constructor | src-tauri/src/ipc/client.rs:91-93 | The event client wraps the given connection. |
| IpcClient.ReceiveIpcClient.Send | src-tauri/src/ipc/client.rs:95-105 | Writes the payload once and never reads; the result is `NotifyOutcome`. |
| IpcClient.ReceiveIpcClient.Subscribe | src-tauri/src/ipc/client.rs:107-128 | Writes one SUBSCRIBE or UNSUBSCRIBE message for the event with the given args, and returns that write's outcome. |
| Commands.SubscriptionCommand | src-tauri/src/ipc/client.rs:113-117 | The command is SUBSCRIBE exactly when subscribing and UNSUBSCRIBE exactly otherwise. |
| Commands.SubscribePayloadShape | src-tauri/src/ipc/client.rs:118-123 | A subscription message has exactly the keys nonce, cmd, evt and args. The cmd follows the flag, evt names the event and args pass through unchanged. |
| Commands.AuthenticatePayloadShape | src-tauri/src/ipc/auth.rs:60-66 | The token presentation has exactly nonce, cmd AUTHENTICATE and args holding only the access token. |
| Commands.AuthorizePayloadShape | src-tauri/src/ipc/auth.rs:80-87 | The authorization request names the client id and asks for the scopes rpc and identify, in that order. |
| Commands.SelectedChannelQueryShape | src-tauri/src/main.rs:187-190 | The selected-channel query has only a nonce and its cmd. |
| IpcAuth.ReauthResult | src-tauri/src/ipc/auth.rs:26-57 | The renewal yields the endpoint's token pair exactly when the stored token was read and the refresh grant succeeded. An unreadable store is ConfigRead with the store's text; a refused grant is RefreshToken with the endpoint's message. |
| IpcAuth.ReauthCalls | src-tauri/src/ipc/auth.rs:27-42 | The store is always read first. The refresh grant follows, with the stored token, exactly when the read succeeded. |
| IpcAuth.TryReauth | src-tauri/src/ipc/auth.rs:26-57 | Returns `ReauthResult` and makes exactly the `ReauthCalls` calls. |
| IpcAuth.TokenOutcome | src-tauri/src/ipc/auth.rs:67-73 | Presenting a token passes exactly when the exchange succeeded. Otherwise it fails as IpcSend, the exchange's message behind the fixed prefix. |
| IpcAuth.SendToken | src-tauri/src/ipc/auth.rs:59-74 | Performs one AUTHENTICATE exchange with the access token; the result is `TokenOutcome` of that exchange. |
| IpcAuth.NotifyAuthOutcome | src-tauri/src/ipc/auth.rs:88-94 | A one-way handshake write passes exactly when the send passed. Otherwise it fails as IpcSend with the prefixed message. |
| IpcAuth.SendAuth | src-tauri/src/ipc/auth.rs:78-95 | Writes one AUTHORIZE request for the client id and never reads. |
| IpcAuth.SendTokenEvent | src-tauri/src/ipc/auth.rs:97-112 | Writes one AUTHENTICATE message without awaiting a reply. |
| IpcAuth.TokenSendersAgreeOnWrite | src-tauri/src/ipc/auth.rs:97-112 | The two token presentations fail alike on a write fault. The command client's succeeds only if the event client's does, and it does when the reply carries the nonce. |
| VcEvents.SubscriptionBatch | src-tauri/src/ipc/vc.rs:5-26 | One call sends five messages when nothing fails. |
| VcEvents.SubscriptionBatchShape | src-tauri/src/ipc/vc.rs:5-26 | The five messages name CREATE, UPDATE, DELETE, SPEAKING_START and SPEAKING_STOP in that order. All carry `{channel_id}` and the one command the flag selects, each with its own nonce. |
| VcEvents.SubscribeUnsubscribeMirror | src-tauri/src/ipc/vc.rs:19-21 | Unsubscribing a channel sends the subscription messages with only cmd changed to UNSUBSCRIBE. |
| VcEvents.FirstFault | src-tauri/src/ipc/vc.rs:19-26 | Finds the first failing write of a run. Every earlier write goes through, and the result is the run's length when none fails. |
| VcEvents.SetVcEvents | src-tauri/src/ipc/vc.rs:14-28 | Writes the batch up to and including the first failing write and returns that write's error unchanged. Earlier writes are not undone, and nothing is read. |
| VcEvents.VcRunStopsAt | src-tauri/src/ipc/vc.rs:20-25 | A run whose first failure is at index k sends the first k+1 messages and reports the k-th. |
| VcEvents.VcRunAllPass | src-tauri/src/ipc/vc.rs:19-27 | A run without failures sends all five messages and passes. |
| VcEvents.VcRunShape | src-tauri/src/ipc/vc.rs:14-28 | A run sends a prefix of the batch and passes exactly when none of the five writes fails. A failure carries the last message sent, whose write is the first that failed. |
| LegacyAuth.WriteOutcome | src-tauri/src/auth.rs:49-55 | A raw handshake write passes exactly when the transport accepts it. Otherwise it fails as IpcSend with the prefixed transport text. |
| LegacyAuth.SendAuth | src-tauri/src/auth.rs:39-56 | Writes one AUTHORIZE request for the client id on the shared connection. |
| LegacyAuth.SendToken | src-tauri/src/auth.rs:193-208 | Writes one AUTHENTICATE message with the access token on the shared connection. |
| LegacyAuth.LegacyReauthResult | src-tauri/src/auth.rs:156-191 | The older renewal yields the rotated refresh token exactly when the store was read, the grant succeeded and the token presentation was written. Each earlier failure keeps its own tag and text. |
| LegacyAuth.TryReauth | src-tauri/src/auth.rs:156-191 | Returns `LegacyReauthResult`. It makes the same outside calls as the newer renewal, and writes the AUTHENTICATE message exactly when the refresh succeeded. |
| LegacyAuth.LegacyReauthExtendsReauth | src-tauri/src/auth.rs:186-190 | The older renewal is the newer one followed by the token presentation. It fails with the newer one's error when that fails, and otherwise returns the rotated token exactly when the write goes through. |
| LegacyIpc.Subscribe | src-tauri/src/ipc.rs:33-53 | Writes one SUBSCRIBE message. A failure is tagged Subscribe, names the event, keeps the transport text and carries the message. |
| LegacyIpc.Unsubscribe | src-tauri/src/ipc.rs:55-75 | Writes one UNSUBSCRIBE message. A failure is still tagged Subscribe and says "unsubscribe". |
| LegacyIpc.ChainSent | src-tauri/src/ipc.rs:82-120 | From any position, the helpers send the messages up to and including the first failing write, and pass exactly when none fails. |
| LegacyIpc.ChainError | src-tauri/src/ipc.rs:82-120 | A failing run reports the first failing write: its message, its event name and its transport text. |
| LegacyIpc.ChainWhole | src-tauri/src/ipc.rs:77-163 | A whole run sends the prefix up to the first failure and reports that message, or sends everything and passes. |
| LegacyIpc.LegacyRunShape | src-tauri/src/ipc.rs:77-163 | One call sends a non-empty prefix of the five messages. It passes exactly when no write fails, having sent all five; a failure carries the last message sent. |
| LegacyIpc.LegacyAgreesWithLoop | src-tauri/src/ipc.rs:77-163 | The older written-out `set_vc_events` and the newer loop send the same messages and stop at the same write; the failure carries the same message. |
| LegacyIpc.SubscribeVcEvents | src-tauri/src/ipc.rs:82-120 | The SUBSCRIBE arm writes exactly the run of `LegacyRun` and returns its outcome. |
| LegacyIpc.UnsubscribeVcEvents | src-tauri/src/ipc.rs:121-160 | The UNSUBSCRIBE arm writes exactly the run of `LegacyRun` and returns its outcome. |
| LegacyIpc.SetVcEvents | src-tauri/src/ipc.rs:77-163 | Writes exactly the run of `LegacyRun` for the flag and returns its outcome, reading nothing. |
| Presence.Session.constructor | src-tauri/src/main.rs:109-114 | The loop starts with both remembered ids null and nothing emitted. |
| Presence.Session.ConnectIpc | src-tauri/src/main.rs:67-114 | A failed connection is returned as Connect with nothing else done. Otherwise the command succeeds after doing exactly `SetupReaction`, and the loop it starts remembers neither a channel nor a user. |
| Presence.Session.Reauthenticate | src-tauri/src/main.rs:82-106 | Renews, falls back to authorization on failure, then saves the resulting refresh token; the effects, in trace order, are exactly `SetupReaction`. |
| Presence.Session.Recover | src-tauri/src/main.rs:82-93 | Runs the older renewal and, when it fails, the authorization fallback. It returns the rotated refresh token after a successful renewal and the empty string otherwise. |
| Presence.Session.Renew | src-tauri/src/auth.rs:156-191 | Returns `LegacyReauthResult`, and appends the renewal's outside calls and then its writes to the trace. |
| Presence.Session.Notify | src-tauri/src/main.rs:45-55 | Emitting a notice appends it to the emitted log and to the trace, and changes nothing else. |
| Presence.Session.AskAuthorization | src-tauri/src/main.rs:85-92 | Reports the renewal failure, writes the AUTHORIZE request and reports a failed write. |
| Presence.Session.SaveToken | src-tauri/src/main.rs:95-106 | Saves the token once and reports a failed save as ConfigSave. |
| Presence.Session.Step | src-tauri/src/main.rs:115-123 | Reads exactly one message. The new ids, the notices, the writes, the outside calls and the order of all three in the trace are exactly what `React` gives for that message. |
| Presence.Session.Handle | src-tauri/src/main.rs:124-483 | Each kind of message has exactly the effects `KindReaction` gives. |
| Presence.Session.HandleReply | src-tauri/src/main.rs:124-285 | Replies and host errors have exactly the effects `ReplyReaction` gives. |
| Presence.Session.HandleEvent | src-tauri/src/main.rs:286-482 | Dispatched events have exactly the effects `EventReaction` gives, with no outside calls. |
| Presence.Session.OnAuthorized | src-tauri/src/main.rs:125-156 | Exchanges the code, saves the refresh token and presents the access token. A refused exchange is critical and stops the handling. |
| Presence.Session.OnAuthenticated | src-tauri/src/main.rs:157-208 | Remembers the user, then subscribes and queries as `AuthenticatedReaction` says. |
| Presence.Session.SubscribeReported | src-tauri/src/main.rs:160-172 | One SUBSCRIBE with `{}`; a failure is reported as critical without the transport text. |
| Presence.Session.SendQuery | src-tauri/src/main.rs:187-208 | Writes the selected-channel query. It reports a failure under the given notice and says whether the write went through. |
| Presence.Session.SetVcEventsReported | src-tauri/src/main.rs:239-252 | Runs the older `set_vc_events` and reports a failure as an error without the transport text. |
| Presence.Session.OnInChannel | src-tauri/src/main.rs:220-253 | Remembers the channel, emits vc_select and vc_info, then subscribes the channel's events. |
| Presence.Session.OnChannelLeft | src-tauri/src/main.rs:300-326 | Clears the channel, emits vc_select false, then unsubscribes using the id just cleared. |
| Presence.Session.OnChannelJoined | src-tauri/src/main.rs:327-375 | Remembers the channel, emits vc_select true, then follows it. |
| Presence.Session.FollowChannel | src-tauri/src/main.rs:335-374 | Writes the selected-channel query. It subscribes the remembered channel's events only when that write went through. |
| PresenceFacts.RememberedIds | src-tauri/src/main.rs:124-375 | The user id changes only on the AUTHENTICATE reply, to `data.user.id`. The channel id becomes null on "not in a channel" and on leaving, becomes the named channel on the selected-channel reply and on joining, and is otherwise unchanged. |
| PresenceFacts.ReadFailureIsQuiet | src-tauri/src/main.rs:116-122 | A failed read changes, writes and emits nothing, and the loop goes on. |
| PresenceFacts.WritesOnlyOnCommands | src-tauri/src/main.rs:124-483 | Only the AUTHORIZE and AUTHENTICATE replies, the selected-channel reply naming a channel and VOICE_CHANNEL_SELECT write to the host. Outside services are called exactly on the AUTHORIZE reply. |
| PresenceFacts.AuthenticatedWrites | src-tauri/src/main.rs:157-208 | After AUTHENTICATE the loop writes SUBSCRIBE VOICE_SETTINGS_UPDATE, SUBSCRIBE VOICE_CHANNEL_SELECT (both with `{}`) and the selected-channel query, in that order, whatever fails. Every failure is critical, and nothing is reported exactly when all three writes go through. |
| PresenceFacts.NotInChannelReport | src-tauri/src/main.rs:209-219 | A selected-channel reply without data clears the channel and emits only `vc_select {in_vc: false}`, writing nothing. |
| PresenceFacts.InChannelReport | src-tauri/src/main.rs:220-250 | A selected-channel reply with data remembers `data.id` and emits `vc_select {in_vc: true}` then `vc_info` with the channel's name and voice states. It then writes the channel's events in order, stopping at the first failed write, which is reported as an error as the third and last notice. It calls no outside service. |
| PresenceFacts.RunNamesChannel | src-tauri/src/ipc.rs:77-163 | Between one and five messages are sent, every one naming the given channel id and carrying the selected command. |
| PresenceFacts.LeftUnsubscribesNull | src-tauri/src/main.rs:300-326 | Leaving sends at least one UNSUBSCRIBE, and every one has `channel_id: null`. |
| PresenceFacts.LeftChannelNeverNamed | src-tauri/src/main.rs:302-313 | When the user was in a channel, no UNSUBSCRIBE sent on leaving names that channel. |
| PresenceFacts.CorrectedLeaveUnsubscribesChannel | src-tauri/src/main.rs:300-326 | The corrected leave clears the channel. With no channel remembered it writes nothing. Otherwise it sends, in order, a non-empty prefix of the join's subscription messages with UNSUBSCRIBE for SUBSCRIBE, every one naming the channel left. |
| PresenceFacts.JoinedQueriesFirst | src-tauri/src/main.rs:327-375 | Joining remembers the channel, emits vc_select true and writes the selected-channel query first. If that write fails, it reports the failure and writes nothing more. Otherwise the channel's events follow in order, stopping at the first failed write, which is reported as an error after vc_select. |
| PresenceFacts.MemberReportedUnlessSelf | src-tauri/src/main.rs:376-420 | A member joining or changing state is reported, without any write, exactly when the member is not the user. The notice's `data.id` is the member's id. |
| PresenceFacts.LeaveReportNamesNoOne | src-tauri/src/main.rs:421-432 | A member leaving is reported exactly when the member is not the user. The LEAVE notice has no `data`, so it names no one. |
| PresenceFacts.CorrectedLeaveNoticeNamesMember | src-tauri/src/main.rs:421-432 | The corrected LEAVE notice carries the departed member's id as `data.id`. |
| PresenceFacts.CorrectedLeaveReachesWindow | src/App.tsx:65-69 | The LEAVE notice as written reaches `leaveUser` without `data`, which throws on a non-empty list. The corrected notice hands it the member's id, and the list keeps exactly the other members. |
| PresenceFacts.SpeakingReport | src-tauri/src/main.rs:433-480 | A speaking change is always reported, without any write. The notice holds `user_id`, `is_me` (exactly when the speaker is the user) and `speaking` (true for SPEAKING_START). |
| PresenceFacts.HostErrors | src-tauri/src/main.rs:257-285 | A refused AUTHORIZE is reported as critical and a refused SUBSCRIBE as an error. Any other host error is ignored, and none of them writes. |
| PresenceFacts.SetupSavesRotatedToken | src-tauri/src/main.rs:82-106 | `connect_ipc` ends by saving the rotated refresh token when the renewal succeeded, and the empty string otherwise. |
| PresenceFacts.SetupAuthorizesOnlyOnFailure | src-tauri/src/main.rs:82-93 | The AUTHORIZE request is written exactly when the renewal failed, and that failure is the first notice. After a successful renewal, only a failed save is reported. |
| PresenceTrace.ThenConsistent | src-tauri/src/main.rs:124-483 | Doing one reaction after another keeps the logs the projections of the trace. |
| PresenceTrace.AuthorizedConsistent | src-tauri/src/main.rs:125-156 | The AUTHORIZE reply's notices, writes and calls are the projections of its trace. |
| PresenceTrace.AuthenticatedConsistent | src-tauri/src/main.rs:157-208 | The AUTHENTICATE reply's notices, writes and calls are the projections of its trace. |
| PresenceTrace.FollowChannelConsistent | src-tauri/src/main.rs:335-374 | Following a joined channel keeps its logs the projections of its trace. |
| PresenceTrace.ReplyConsistent | src-tauri/src/main.rs:124-285 | Every reply's logs are the projections of its trace. |
| PresenceTrace.EventConsistent | src-tauri/src/main.rs:286-482 | Every dispatched event's logs are the projections of its trace. |
| PresenceTrace.ReactConsistent | src-tauri/src/main.rs:115-483 | For every message read, or a failed read, the notices, writes and outside calls of one pass are exactly the trace's three projections. |
| PresenceTrace.RecoveredConsistent | src-tauri/src/main.rs:82-93 | The renewal with its fallback keeps its logs the projections of its trace. |
| PresenceTrace.SetupConsistent | src-tauri/src/main.rs:82-106 | The setup of `connect_ipc` keeps its logs the projections of its trace. |
| PresenceTrace.AuthorizedSavesBeforePresenting | src-tauri/src/main.rs:125-156 | On the AUTHORIZE reply, the code is traded, then the new refresh token is saved, and only after that is the access token written to the host. A refused trade makes no save and no write. |
| PresenceTrace.SetupPresentsBeforeSaving | src-tauri/src/main.rs:82-106 | After a successful older renewal, `connect_ipc` writes the new access token before it saves the rotated refresh token, and never saves first. |
| PresenceTrace.CorrectedSetupSavesBeforePresenting | src-tauri/src/main.rs:82-106 | The corrected setup saves the rotated refresh token before it presents the access token, never the reverse. When the presentation goes through, its notices, writes and calls are those of the setup as written. |
| MemberList.FormatUserData | src/utils/vc.ts:10-24 | A member is shown muted when any of the four flags is set, and deafened when either deafen flag is set; so deafened implies muted. Nobody is speaking yet, and the identity fields are copied. |
| MemberList.EntryAgreesWithFormat | src/App.tsx:25-37 | The handlers build rows by the same rule as `formatUserData`. |
| MemberList.Find | src/utils/vc.ts:5 | Finds the first entry with the id, and nothing exactly when no entry has it. |
| MemberList.IsUserSpeaking | src/utils/vc.ts:4-8 | Gives the speaking flag of the first entry with the id, and false when there is none. |
| MemberList.Without | src/App.tsx:67 | Filtering never lengthens the list and leaves no entry with the id. |
| MemberList.WithoutMembers | src/App.tsx:67 | Filtering keeps exactly the entries with another id. |
| MemberList.WithoutAppend | src/App.tsx:60 | Filtering distributes over concatenation, so kept entries keep their order. |
| MemberList.WithoutAbsent | src/App.tsx:56-57 | Filtering a list without the id changes nothing. |
| MemberList.FindWithout | src/App.tsx:67 | After filtering, the id is not found. |
| MemberList.JoinUser | src/App.tsx:25-40 | A join appends one non-speaking row after the existing ones, which are kept as they were; nothing is deduplicated. |
| MemberList.UpdateUser | src/App.tsx:42-63 | An unknown member is appended, not speaking. A known member has all its rows replaced by one new last row that keeps the first row's speaking flag. |
| MemberList.LeaveUser | src/App.tsx:65-69 | A leave is the filter `Without`: it keeps exactly the rows of other members, in their order and as often as before. |
| MemberList.LeaveUserKeepsOrder | src/App.tsx:65-69 | A leave decides row by row: on a concatenation it is the concatenation of the leaves, and a single row is dropped exactly when it has the id. |
| MemberList.SpeakUpdate | src/App.tsx:186-197 | Another member's speaking change moves that member's first row, with the new flag, behind all others. An unlisted id leaves the list unchanged. |
| MemberList.FindLast | src/utils/vc.ts:5 | An id whose only row is the last one is found there. |
| MemberList.SpeakThenAsk | src/App.tsx:189-194 | After a speaking change for a listed member, `isUserSpeaking` reports exactly the new flag. |
| MemberList.FindWithoutOther | src/App.tsx:194 | Filtering out one id does not change the lookup of another. |
| MemberList.FindAppendOther | src/App.tsx:194 | Appending a row with another id does not change the lookup of an id. |
| MemberList.SpeakLeavesOthers | src/App.tsx:189-194 | A speaking change for one member leaves what the list says about every other member unchanged. |
| AppView.AfterMemberNotice | src/App.tsx:169-180 | JOIN, UPDATE and LEAVE with data act as `JoinUser`, `UpdateUser` and `LeaveUser`. The handler throws exactly when data is absent, except for a LEAVE on an empty list. |
| AppView.View.constructor | src/App.tsx:14-20 | The window starts out of any channel, unmuted, not speaking, with an empty list and no name. |
| AppView.View.OnVcSelect | src/App.tsx:126-135 | Records whether the user is in a channel. Leaving clears the name, the list and the user's speaking flag; joining changes nothing else. |
| AppView.View.OnVcMuteUpdate | src/App.tsx:138-142 | Stores the deafen flag, and shows the user muted when muted or deafened. |
| AppView.View.OnVcUser | src/App.tsx:169-180 | Applies `AfterMemberNotice`. It reports a throw, in which case the list is unchanged, and touches nothing else. |
| AppView.View.OnVcSpeak | src/App.tsx:183-198 | The user's own notice sets the user's speaking flag. Another member's notice applies `SpeakUpdate` to the list. |
| AppView.LeaveWithoutDataKeepsMembers | src/App.tsx:65-69 | A LEAVE notice without data, received with a non-empty list, makes the handler throw. |
| AppView.LeaveWithDataRemoves | src/App.tsx:65-69 | A LEAVE notice naming a member removes exactly that member's rows, after which the member is not speaking. |

## Left out

- The HTTP requests of the token endpoint. They are oracles answering per refresh token or per code (`Services.refreshAnswer`, `Services.codeAnswer`). The `unwrap` on the token response body is not modelled.
- The keyring and configuration file. Reading the stored token is one oracle result and saving is one fault oracle; the file format is not modelled.
- Transport.Services: the stored token is a constant of the session, so a token saved by `SaveConfig` is never what a later `ReadStoredToken` returns. The original reads back the configuration it last wrote (src-tauri/src/auth.rs:157, src-tauri/src/main.rs:95); the model covers one `connect_ipc` and the loop after it, which never read the store again.
- The client id. It comes from the build environment and is a parameter here.
- Locks, the spawned task and `async`/`await`. A pass of the loop is one atomic step.
- Emitting to the window, the Tauri builder and `main()`. Notices are appended to `Session.emitted` and to the trace, and a failed emit (only logged) is not modelled.
- Logging, `println!` and `console.log`.
- Frame opcodes and the wire framing of the IPC library. `connect()` is modelled only as its outcome, a parameter of `ConnectIpc`.
- UUID generation. Nonces are parameters.
- JSON numbers are integers.
- Id comparison through `to_string()`. It is modelled as equality of the JSON values, which it agrees with for the strings Discord sends.
- Presence.Session.Step: an AUTHORIZE reply whose `data.code` is not a string makes the original loop panic on `unwrap` (src-tauri/src/main.rs:128). This is a precondition of `Step`, not a modelled crash.
- IpcClient.CommandOutcome: the EventReceive message of `SendIPCClient::send` embeds a rendering of the foreign reply. The model keeps only its fixed prefix, so the contract states the error type and payload but not that text.
- The type mismatches that would stop the original from compiling are taken as the evident intent: the connection manager passes `&cm.client` (a mutex) to helpers that take the IPC client, and it moves `current_state.channel_id` into `set_vc_events`. Both are modelled as using the shared connection and the current id's value.
- LegacyIpc.SetVcEvents: the two written-out arms are separate methods, `SubscribeVcEvents` and `UnsubscribeVcEvents`, to keep each proof small; the behaviour is unchanged.
- Presence.Session.Handle: the loop body is split into `HandleReply` and `HandleEvent`, and the joined-channel branch into `FollowChannel`. The split follows the original's branches and adds no behaviour.
- `getVCInfo` in src/App.tsx and the `get_vc_info` command it invokes. The command is not registered (src-tauri/src/main.rs:492 registers only `connect_ipc`), so the call always fails and is only logged. `AppView.View.OnVcSelect` therefore changes nothing else on joining.
- The `vc_info` handler of src/App.tsx. Its body is commented out.
- The error dispatch of `initIPC` (src/App.tsx:94-113), with its retry counter and its second `connect_ipc` call. They can never run past the `Connect` branch: `connect_ipc` returns only `Connect` errors (src-tauri/src/main.rs:73-79) and otherwise `Ok` (src-tauri/src/main.rs:106), and `Session.ConnectIpc` states exactly that.
- The always-true `userListRef.current` guard in the handlers.
- React's batching of state updates. Each handler reads the list as the previous handler left it.
- The activity, mute, deafen and leave commands, the Discord REST client (src-tauri/src/discord_api/api_client.rs) and the components under src/components. They are not part of this model.
- The newer `try_reauth` of src-tauri/src/ipc/auth.rs and the newer `set_vc_events` of src-tauri/src/ipc/vc.rs are not called by the connection manager. They are modelled and related to the older forms (`LegacyAuth.LegacyReauthExtendsReauth`, `LegacyIpc.LegacyAgreesWithLoop`).
- A member list in the backend. The backend remembers only the channel and user ids (src-tauri/src/main.rs:55-58); the list is kept in the window alone (src/App.tsx), and the model keeps it there.

## Findings

| source | as written | input that shows it | evidently intended | confidence | as-written member | corrected member |
|---|---|---|---|---|---|---|
| src-tauri/src/main.rs:421-432 | The `vc_user` LEAVE notice carries only `event`, with no `data`. The window's `leaveUser` (src/App.tsx:65-69) reads `data.id` for each listed member, so it throws on any non-empty list, and departed members are never removed. | VOICE_STATE_DELETE for another member while the window lists at least one member | The notice carries the departed member's id as `data.id`, so `leaveUser` removes exactly that member | not executed | PresenceFacts.LeaveReportNamesNoOne | PresenceFacts.CorrectedLeaveNoticeNamesMember |
| src-tauri/src/main.rs:302-313 | The remembered channel id is set to null before `set_vc_events(…, false)` reads it. The guard at line 307 is then always true, and every UNSUBSCRIBE carries `channel_id: null`, never the channel that was left. | VOICE_CHANNEL_SELECT with `data.channel_id: null` while the remembered channel is `"123"` | Unsubscribe the five events of the channel that was left, then forget it | not executed | PresenceFacts.LeftChannelNeverNamed | PresenceFacts.CorrectedLeaveUnsubscribesChannel |
| src-tauri/src/main.rs:82-106 | The older `try_reauth` writes AUTHENTICATE with the new access token (src-tauri/src/auth.rs:186) before `connect_ipc` saves the rotated refresh token (src-tauri/src/main.rs:95). A stop between the two leaves the store holding the refresh token that was just exchanged, not its replacement. | A successful renewal, then the process ends before `set_config` | Save the rotated refresh token first, then present the access token, as the AUTHORIZE reply does (src-tauri/src/main.rs:139-153) | not executed | PresenceTrace.SetupPresentsBeforeSaving | PresenceTrace.CorrectedSetupSavesBeforePresenting |

For the first finding, `AppView.LeaveWithoutDataKeepsMembers` shows the window's side of the failure. `PresenceFacts.CorrectedLeaveReachesWindow` follows both notices from the loop to the window: the one as written gives `leaveUser` no member, and the corrected one removes exactly the member it names. `PresenceTrace.CorrectedSetupReaction` is the corrected setup of the third finding; when its token presentation fails it reports the failure and falls back to asking for authorization, as a failed renewal does.
