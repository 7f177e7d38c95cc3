/**
 * The collaborators the session layer talks to but that are not modelled
 * themselves: the local IPC connection to the voice-chat host, and the
 * outside services (the stored refresh token, the OAuth token endpoint and
 * the configuration file).
 */
module Transport {
  import opened Wrappers
  import opened Json
  import opened Errors

  /** What a read returns once nothing more will arrive: the connection is closed. */
  const ClosedText: string := "connection closed"

  /** The result of the next read on a connection whose pending input is `inbox`. */
  function NextRead(inbox: seq<Result<Json, string>>): (r: Result<Json, string>)
    ensures inbox != [] ==> r == inbox[0]
    ensures inbox == [] ==> r == Err(ClosedText)
  {
    if inbox == [] then Err(ClosedText) else inbox[0]
  }

  /** The pending input after one read. */
  function AfterRead(inbox: seq<Result<Json, string>>): (r: seq<Result<Json, string>>)
    ensures inbox != [] ==> r == inbox[1..]
    ensures inbox == [] ==> r == []
  {
    if inbox == [] then [] else inbox[1..]
  }

  /** The outcome of the write numbered `k` (counting from zero) under `faults`. */
  function FaultAt(faults: map<nat, string>, k: nat): (r: Option<string>)
    ensures r.Some? <==> k in faults
    ensures r.Some? ==> r.value == faults[k]
  {
    if k in faults then Some(faults[k]) else None
  }

  /**
   * A message-oriented connection to the host (DiscordIpcClient). Every
   * attempted write is recorded in `sent`; the write numbered `k` fails with
   * the transport text `faults[k]` when `k` is a key of `faults`. Reads take
   * the next element of `inbox`, either a decoded message or a read failure.
   */
  class Connection {
    var sent: seq<Json>
    var inbox: seq<Result<Json, string>>
    var readCount: nat
    const faults: map<nat, string>

    constructor (input: seq<Result<Json, string>>, writeFaults: map<nat, string>)
      ensures sent == [] && inbox == input && readCount == 0 && faults == writeFaults
    {
      sent := [];
      inbox := input;
      readCount := 0;
      faults := writeFaults;
    }

    /** Hands `payload` to the transport; `err` is the transport's failure text. */
    method Write(payload: Json) returns (err: Option<string>)
      modifies this
      ensures sent == old(sent) + [payload]
      ensures err == FaultAt(faults, |old(sent)|)
      ensures inbox == old(inbox) && readCount == old(readCount)
    {
      err := FaultAt(faults, |sent|);
      sent := sent + [payload];
    }

    /** Blocks for the next message; a closed connection yields a read failure. */
    method Read() returns (r: Result<Json, string>)
      modifies this
      ensures r == NextRead(old(inbox)) && inbox == AfterRead(old(inbox))
      ensures readCount == old(readCount) + 1 && sent == old(sent)
    {
      r := NextRead(inbox);
      inbox := AfterRead(inbox);
      readCount := readCount + 1;
    }
  }

  /** One call to an outside service, as recorded by `Services`. */
  datatype ServiceCall =
    | ReadStoredToken
    | RefreshGrant(refreshToken: string)
    | CodeGrant(code: string)
    | SaveConfig(refreshToken: string)

  /**
   * The outside services as oracles: what reading the stored refresh token
   * yields, what the refresh grant and the authorization-code grant answer
   * for a given token or code, and whether saving a refresh token to the
   * configuration fails. `calls` records every call in order.
   */
  class Services {
    const stored: Result<string, string>
    const refreshAnswer: string -> Result<TokenData, AuthError>
    const codeAnswer: string -> Result<TokenData, AuthError>
    const saveFault: string -> Option<string>
    var calls: seq<ServiceCall>

    constructor (
      storedToken: Result<string, string>,
      onRefresh: string -> Result<TokenData, AuthError>,
      onCode: string -> Result<TokenData, AuthError>,
      onSave: string -> Option<string>)
      ensures stored == storedToken && refreshAnswer == onRefresh && codeAnswer == onCode
      ensures saveFault == onSave && calls == []
    {
      stored := storedToken;
      refreshAnswer := onRefresh;
      codeAnswer := onCode;
      saveFault := onSave;
      calls := [];
    }

    /** Reads the stored refresh token (keyring entry or configuration file). */
    method ReadStored() returns (r: Result<string, string>)
      modifies this
      ensures r == stored && calls == old(calls) + [ReadStoredToken]
    {
      r := stored;
      calls := calls + [ReadStoredToken];
    }

    /** Posts a refresh-token grant to the token endpoint. */
    method Refresh(refreshToken: string) returns (r: Result<TokenData, AuthError>)
      modifies this
      ensures r == refreshAnswer(refreshToken) && calls == old(calls) + [RefreshGrant(refreshToken)]
    {
      r := refreshAnswer(refreshToken);
      calls := calls + [RefreshGrant(refreshToken)];
    }

    /** Posts an authorization-code grant to the token endpoint. */
    method Exchange(code: string) returns (r: Result<TokenData, AuthError>)
      modifies this
      ensures r == codeAnswer(code) && calls == old(calls) + [CodeGrant(code)]
    {
      r := codeAnswer(code);
      calls := calls + [CodeGrant(code)];
    }

    /** Stores `refreshToken` in the configuration file; `err` is the store's failure text. */
    method Save(refreshToken: string) returns (err: Option<string>)
      modifies this
      ensures err == saveFault(refreshToken) && calls == old(calls) + [SaveConfig(refreshToken)]
    {
      err := saveFault(refreshToken);
      calls := calls + [SaveConfig(refreshToken)];
    }
  }
}
