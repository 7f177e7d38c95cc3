/**
 * The handshake steps of src-tauri/src/ipc/auth.rs: renewing the access
 * token from the stored refresh token, asking the user to authorize the
 * application, and presenting an access token to the host.
 */
module IpcAuth {
  import opened Wrappers
  import opened Json
  import opened Errors
  import opened Transport
  import opened Commands
  import opened IpcClient

  /** The text put in front of a failed AUTHENTICATE exchange. */
  const TokenSendFailure: string := "Failed to send access token to ipc.\n"

  /** The text put in front of a failed AUTHORIZE write. */
  const AuthorizeSendFailure: string := "Failed to send authorization request.\n"

  /** An IPC failure as the authentication layer reports it: tagged `IpcSend`, message prefixed. */
  function AsAuthFailure(prefix: string, e: IpcError): AuthError
  {
    AuthError(IpcSend, prefix + e.message)
  }

  /**
   * What `try_reauth` returns, given what reading the stored refresh token
   * yields and how the token endpoint answers a refresh grant.
   */
  function ReauthResult(stored: Result<string, string>, refresh: string -> Result<TokenData, AuthError>)
    : (r: Result<TokenData, AuthError>)
    ensures r.Err? && r.error.errorType == ConfigRead <==> stored.Err?
    ensures stored.Err? ==> r.error.message == stored.error
    ensures stored.Ok? && refresh(stored.value).Err? ==>
              r == Err(AuthError(RefreshToken, refresh(stored.value).error.message))
    ensures r.Ok? <==> stored.Ok? && refresh(stored.value).Ok?
    ensures r.Ok? ==> r.value == refresh(stored.value).value
  {
    if stored.Err? then Err(AuthError(ConfigRead, stored.error))
    else
      var tokens := refresh(stored.value);
      if tokens.Err? then Err(AuthError(RefreshToken, tokens.error.message))
      else Ok(tokens.value)
  }

  /** The outside calls `try_reauth` makes: the refresh grant only when the stored token was read. */
  function ReauthCalls(stored: Result<string, string>): (calls: seq<ServiceCall>)
    ensures 1 <= |calls| <= 2 && calls[0] == ReadStoredToken
    ensures |calls| == 2 <==> stored.Ok?
    ensures |calls| == 2 ==> calls[1] == RefreshGrant(stored.value)
  {
    if stored.Err? then [ReadStoredToken] else [ReadStoredToken, RefreshGrant(stored.value)]
  }

  /**
   * `SendIPCClient::try_reauth`: reads the stored refresh token and trades it
   * for a new token pair. The receiver's IPC connection is not used; only the
   * outside services are called.
   */
  method TryReauth(services: Services) returns (r: Result<TokenData, AuthError>)
    modifies services
    ensures r == ReauthResult(services.stored, services.refreshAnswer)
    ensures services.calls == old(services.calls) + ReauthCalls(services.stored)
  {
    var refreshToken := services.ReadStored();
    if refreshToken.Err? {
      return Err(AuthError(ConfigRead, refreshToken.error));
    }
    var tokens := services.Refresh(refreshToken.value);
    if tokens.Err? {
      return Err(AuthError(RefreshToken, tokens.error.message));
    }
    return Ok(tokens.value);
  }

  /** What a token presentation returns, given the outcome of its exchange. */
  function TokenOutcome(exchange: Result<Json, IpcError>): (r: Outcome<AuthError>)
    ensures r.Pass? <==> exchange.Ok?
    ensures r.Fail? ==> r.error.errorType == IpcSend && r.error.message == TokenSendFailure + exchange.error.message
  {
    if exchange.Err? then Fail(AsAuthFailure(TokenSendFailure, exchange.error)) else Pass
  }

  /**
   * `SendIPCClient::send_token`: an AUTHENTICATE exchange with the access
   * token; whatever the exchange fails with becomes `IpcSend`.
   */
  method SendToken(client: SendIpcClient, accessToken: string, nonce: string) returns (r: Outcome<AuthError>)
    modifies client.ipc
    ensures client.ipc.sent == old(client.ipc.sent) + [AuthenticatePayload(accessToken, nonce)]
    ensures r == TokenOutcome(CommandOutcome(AuthenticatePayload(accessToken, nonce),
                                             FaultAt(client.ipc.faults, |old(client.ipc.sent)|),
                                             NextRead(old(client.ipc.inbox))))
    ensures FaultAt(client.ipc.faults, |old(client.ipc.sent)|).Some? ==>
              client.ipc.readCount == old(client.ipc.readCount) && client.ipc.inbox == old(client.ipc.inbox)
    ensures FaultAt(client.ipc.faults, |old(client.ipc.sent)|).None? ==>
              client.ipc.readCount == old(client.ipc.readCount) + 1 &&
              client.ipc.inbox == AfterRead(old(client.ipc.inbox))
  {
    var authPayload := AuthenticatePayload(accessToken, nonce);
    var res := client.Send(authPayload);
    if res.Err? {
      return Fail(AuthError(IpcSend, TokenSendFailure + res.error.message));
    }
    return Pass;
  }

  /** What a one-way write of the authentication layer returns, given the write's outcome. */
  function NotifyAuthOutcome(prefix: string, sent: Outcome<IpcError>): (r: Outcome<AuthError>)
    ensures r.Pass? <==> sent.Pass?
    ensures r.Fail? ==> r.error.errorType == IpcSend && r.error.message == prefix + sent.error.message
  {
    if sent.Fail? then Fail(AsAuthFailure(prefix, sent.error)) else Pass
  }

  /**
   * `ReceiveIPCClient::send_auth`: asks the host to show the authorization
   * prompt for `clientId` with the scopes rpc and identify.
   */
  method SendAuth(client: ReceiveIpcClient, clientId: string, nonce: string) returns (r: Outcome<AuthError>)
    modifies client.ipc
    ensures client.ipc.sent == old(client.ipc.sent) + [AuthorizePayload(clientId, nonce)]
    ensures r == NotifyAuthOutcome(AuthorizeSendFailure,
                                   NotifyOutcome(AuthorizePayload(clientId, nonce),
                                                 FaultAt(client.ipc.faults, |old(client.ipc.sent)|)))
    ensures client.ipc.inbox == old(client.ipc.inbox) && client.ipc.readCount == old(client.ipc.readCount)
  {
    var payload := AuthorizePayload(clientId, nonce);
    var res := client.Send(payload);
    if res.Fail? {
      return Fail(AuthError(IpcSend, AuthorizeSendFailure + res.error.message));
    }
    return Pass;
  }

  /** `ReceiveIPCClient::send_token`: the same AUTHENTICATE message, written without awaiting a reply. */
  method SendTokenEvent(client: ReceiveIpcClient, accessToken: string, nonce: string) returns (r: Outcome<AuthError>)
    modifies client.ipc
    ensures client.ipc.sent == old(client.ipc.sent) + [AuthenticatePayload(accessToken, nonce)]
    ensures r == NotifyAuthOutcome(TokenSendFailure,
                                   NotifyOutcome(AuthenticatePayload(accessToken, nonce),
                                                 FaultAt(client.ipc.faults, |old(client.ipc.sent)|)))
    ensures client.ipc.inbox == old(client.ipc.inbox) && client.ipc.readCount == old(client.ipc.readCount)
  {
    var authPayload := AuthenticatePayload(accessToken, nonce);
    var res := client.Send(authPayload);
    if res.Fail? {
      return Fail(AuthError(IpcSend, TokenSendFailure + res.error.message));
    }
    return Pass;
  }

  /**
   * The two `send_token`s write the same message and fail alike on a write
   * fault; only the command client can also fail afterwards, on a missing or
   * mismatched reply.
   */
  lemma TokenSendersAgreeOnWrite(accessToken: string, nonce: string, writeFault: Option<string>,
                                 reply: Result<Json, string>)
    ensures var m := AuthenticatePayload(accessToken, nonce);
            var viaCommand := TokenOutcome(CommandOutcome(m, writeFault, reply));
            var viaEvent := NotifyAuthOutcome(TokenSendFailure, NotifyOutcome(m, writeFault));
            && (writeFault.Some? ==> viaCommand == viaEvent)
            && (viaCommand.Pass? ==> viaEvent.Pass?)
            && (viaEvent.Pass? && reply.Ok? && Get(reply.value, "nonce") == Str(nonce) ==> viaCommand.Pass?)
  {
  }
}
