/** The command messages this application writes to the host. */
module Commands {
  import opened Json

  /** The command that (un)subscribes an event: chosen by `isSubscribe` alone. */
  function SubscriptionCommand(isSubscribe: bool): (cmd: string)
    ensures isSubscribe <==> cmd == "SUBSCRIBE"
    ensures !isSubscribe <==> cmd == "UNSUBSCRIBE"
  {
    if isSubscribe then "SUBSCRIBE" else "UNSUBSCRIBE"
  }

  /** `{nonce, cmd: SUBSCRIBE | UNSUBSCRIBE, evt, args}` */
  function SubscribePayload(eventName: string, args: Json, isSubscribe: bool, nonce: string): Json
  {
    Obj(map[
      "nonce" := Str(nonce),
      "cmd" := Str(SubscriptionCommand(isSubscribe)),
      "evt" := Str(eventName),
      "args" := args])
  }

  /**
   * A subscription message carries exactly the keys nonce, cmd, evt and
   * args: `cmd` is SUBSCRIBE when `isSubscribe` holds and UNSUBSCRIBE
   * otherwise, `evt` names the event, `args` is passed through unchanged and
   * the nonce is present.
   */
  lemma SubscribePayloadShape(eventName: string, args: Json, isSubscribe: bool, nonce: string)
    ensures var m := SubscribePayload(eventName, args, isSubscribe, nonce);
            && m.Obj? && m.fields.Keys == {"nonce", "cmd", "evt", "args"}
            && (IsText(Get(m, "cmd"), "SUBSCRIBE") <==> isSubscribe)
            && (IsText(Get(m, "cmd"), "UNSUBSCRIBE") <==> !isSubscribe)
            && Get(m, "evt") == Str(eventName)
            && Get(m, "args") == args
            && Get(m, "nonce") == Str(nonce) != Null
  {
  }

  /** `{nonce, cmd: AUTHENTICATE, args: {access_token}}` */
  function AuthenticatePayload(accessToken: string, nonce: string): Json
  {
    Obj(map[
      "nonce" := Str(nonce),
      "cmd" := Str("AUTHENTICATE"),
      "args" := Obj(map["access_token" := Str(accessToken)])])
  }

  /** The OAuth scopes every authorization request asks for. */
  const Scopes: seq<string> := ["rpc", "identify"]

  /** `{nonce, cmd: AUTHORIZE, args: {client_id, scopes: ["rpc", "identify"]}}` */
  function AuthorizePayload(clientId: string, nonce: string): Json
  {
    Obj(map[
      "nonce" := Str(nonce),
      "cmd" := Str("AUTHORIZE"),
      "args" := Obj(map[
        "client_id" := Str(clientId),
        "scopes" := Arr([Str(Scopes[0]), Str(Scopes[1])])])])
  }

  /** `{nonce, cmd: GET_SELECTED_VOICE_CHANNEL}` */
  function SelectedChannelQuery(nonce: string): Json
  {
    Obj(map["nonce" := Str(nonce), "cmd" := Str("GET_SELECTED_VOICE_CHANNEL")])
  }

  /** The token presentation carries exactly nonce, cmd AUTHENTICATE and the access token as its only argument. */
  lemma AuthenticatePayloadShape(accessToken: string, nonce: string)
    ensures var m := AuthenticatePayload(accessToken, nonce);
            && m.Obj? && m.fields.Keys == {"nonce", "cmd", "args"}
            && Get(m, "nonce") == Str(nonce) && IsText(Get(m, "cmd"), "AUTHENTICATE")
            && Get(m, "args") == Obj(map["access_token" := Str(accessToken)])
  {
  }

  /** The authorization request names the client and asks for the scopes rpc and identify, in that order. */
  lemma AuthorizePayloadShape(clientId: string, nonce: string)
    ensures var m := AuthorizePayload(clientId, nonce);
            && m.Obj? && m.fields.Keys == {"nonce", "cmd", "args"}
            && Get(m, "nonce") == Str(nonce) && IsText(Get(m, "cmd"), "AUTHORIZE")
            && Get2(m, "args", "client_id") == Str(clientId)
            && Get2(m, "args", "scopes") == Arr([Str("rpc"), Str("identify")])
  {
  }

  /** The selected-channel query has no arguments: only a nonce and its command. */
  lemma SelectedChannelQueryShape(nonce: string)
    ensures var m := SelectedChannelQuery(nonce);
            && m.Obj? && m.fields.Keys == {"nonce", "cmd"}
            && Get(m, "nonce") == Str(nonce) && IsText(Get(m, "cmd"), "GET_SELECTED_VOICE_CHANNEL")
  {
  }
}
