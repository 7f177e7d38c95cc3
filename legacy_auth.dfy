/**
 * The older handshake helpers of src-tauri/src/auth.rs, which write straight
 * to the shared connection. Their renewal chain also presents the new access
 * token and hands back the new refresh token. The connection manager of
 * src-tauri/src/main.rs uses these.
 */
module LegacyAuth {
  import opened Wrappers
  import opened Json
  import opened Errors
  import opened Transport
  import opened Commands
  import IpcAuth

  /** What a raw write of the authentication layer returns: a transport failure becomes `IpcSend`. */
  function WriteOutcome(prefix: string, writeFault: Option<string>): (r: Outcome<AuthError>)
    ensures r.Pass? <==> writeFault.None?
    ensures r.Fail? ==> r.error == AuthError(IpcSend, prefix + writeFault.value)
  {
    if writeFault.Some? then Fail(AuthError(IpcSend, prefix + writeFault.value)) else Pass
  }

  /** `send_auth`: writes the AUTHORIZE request for `clientId`. */
  method SendAuth(conn: Connection, clientId: string, nonce: string) returns (r: Outcome<AuthError>)
    modifies conn
    ensures conn.sent == old(conn.sent) + [AuthorizePayload(clientId, nonce)]
    ensures r == WriteOutcome(IpcAuth.AuthorizeSendFailure, FaultAt(conn.faults, |old(conn.sent)|))
    ensures conn.inbox == old(conn.inbox) && conn.readCount == old(conn.readCount)
  {
    var payload := AuthorizePayload(clientId, nonce);
    var err := conn.Write(payload);
    if err.Some? {
      return Fail(AuthError(IpcSend, IpcAuth.AuthorizeSendFailure + err.value));
    }
    return Pass;
  }

  /** `send_token`: writes the AUTHENTICATE message carrying `accessToken`. */
  method SendToken(conn: Connection, accessToken: string, nonce: string) returns (r: Outcome<AuthError>)
    modifies conn
    ensures conn.sent == old(conn.sent) + [AuthenticatePayload(accessToken, nonce)]
    ensures r == WriteOutcome(IpcAuth.TokenSendFailure, FaultAt(conn.faults, |old(conn.sent)|))
    ensures conn.inbox == old(conn.inbox) && conn.readCount == old(conn.readCount)
  {
    var authPayload := AuthenticatePayload(accessToken, nonce);
    var err := conn.Write(authPayload);
    if err.Some? {
      return Fail(AuthError(IpcSend, IpcAuth.TokenSendFailure + err.value));
    }
    return Pass;
  }

  /**
   * What the older `try_reauth` returns, given the stored refresh token, the
   * token endpoint's answer to a refresh grant and the fault, if any, of the
   * one write it makes.
   */
  function LegacyReauthResult(stored: Result<string, string>, refresh: string -> Result<TokenData, AuthError>,
                              writeFault: Option<string>): (r: Result<string, AuthError>)
    ensures r.Ok? <==> stored.Ok? && refresh(stored.value).Ok? && writeFault.None?
    ensures r.Ok? ==> r.value == refresh(stored.value).value.refreshToken
    ensures stored.Err? ==> r == Err(AuthError(ConfigRead, stored.error))
    ensures stored.Ok? && refresh(stored.value).Err? ==>
              r == Err(AuthError(RefreshToken, refresh(stored.value).error.message))
    ensures stored.Ok? && refresh(stored.value).Ok? && writeFault.Some? ==>
              r == Err(WriteOutcome(IpcAuth.TokenSendFailure, writeFault).error)
  {
    if stored.Err? then Err(AuthError(ConfigRead, stored.error))
    else
      var tokens := refresh(stored.value);
      if tokens.Err? then Err(AuthError(RefreshToken, tokens.error.message))
      else if writeFault.Some? then Err(AuthError(IpcSend, IpcAuth.TokenSendFailure + writeFault.value))
      else Ok(tokens.value.refreshToken)
  }

  /**
   * `try_reauth`: reads the stored refresh token, trades it for a new pair,
   * presents the new access token and returns the new refresh token. Each
   * failure ends the chain; the token is written only after a successful
   * refresh.
   */
  method TryReauth(conn: Connection, services: Services, nonce: string) returns (r: Result<string, AuthError>)
    modifies conn, services
    ensures r == LegacyReauthResult(services.stored, services.refreshAnswer, FaultAt(conn.faults, |old(conn.sent)|))
    ensures services.calls == old(services.calls) + IpcAuth.ReauthCalls(services.stored)
    ensures var renewed := IpcAuth.ReauthResult(services.stored, services.refreshAnswer);
            conn.sent == old(conn.sent) + (if renewed.Ok? then [AuthenticatePayload(renewed.value.accessToken, nonce)] else [])
    ensures conn.inbox == old(conn.inbox) && conn.readCount == old(conn.readCount)
  {
    var config := services.ReadStored();
    if config.Err? {
      return Err(AuthError(ConfigRead, config.error));
    }
    var tokens := services.Refresh(config.value);
    if tokens.Err? {
      return Err(AuthError(RefreshToken, tokens.error.message));
    }
    var sent := SendToken(conn, tokens.value.accessToken, nonce);
    if sent.Fail? {
      return Err(sent.error);
    }
    return Ok(tokens.value.refreshToken);
  }

  /**
   * The older chain is the newer one followed by the token presentation: it
   * fails with the newer chain's error when that fails, and otherwise
   * succeeds exactly when the write goes through, returning the rotated
   * refresh token rather than the stored one.
   */
  lemma LegacyReauthExtendsReauth(stored: Result<string, string>, refresh: string -> Result<TokenData, AuthError>,
                                  writeFault: Option<string>)
    ensures var renewed := IpcAuth.ReauthResult(stored, refresh);
            var legacy := LegacyReauthResult(stored, refresh, writeFault);
            && (renewed.Err? ==> legacy == Err(renewed.error))
            && (renewed.Ok? && writeFault.None? ==> legacy == Ok(renewed.value.refreshToken))
            && (renewed.Ok? && writeFault.Some? ==>
                  legacy == Err(WriteOutcome(IpcAuth.TokenSendFailure, writeFault).error))
  {
  }
}
