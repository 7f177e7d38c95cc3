/**
 * The two IPC clients of src-tauri/src/ipc/client.rs. The command client
 * writes one request and takes the next message as its reply, accepting it
 * only when it carries the request's nonce; the event client only writes.
 */
module IpcClient {
  import opened Wrappers
  import opened Json
  import opened Errors
  import opened Transport
  import opened Commands

  /** The text both clients put in front of a transport failure. */
  function SendFailureText(transport: string): string
  {
    "Failed to decode response.\n" + transport
  }

  /** True when `reply` answers the request `payload`: a nonce is present and equal. */
  predicate Answers(reply: Json, payload: Json)
  {
    Get(reply, "nonce") != Null && Get(reply, "nonce") == Get(payload, "nonce")
  }

  /**
   * What the command client's `send` returns for `payload`, given the
   * outcome of its one write and of the one read that follows it.
   */
  function CommandOutcome(payload: Json, writeFault: Option<string>, reply: Result<Json, string>)
    : (r: Result<Json, IpcError>)
    ensures r.Ok? <==> writeFault.None? && reply.Ok? && Answers(reply.value, payload)
    ensures r.Ok? ==> r.value == reply.value
    ensures r.Err? ==> r.error.payload == Some(payload)
    ensures r.Err? && writeFault.Some? ==> r.error.errorType == EventSend
    ensures r.Err? && writeFault.None? && reply.Err? ==> r.error.errorType == EventDecode
    ensures r.Err? && writeFault.None? && reply.Ok? ==> r.error.errorType == EventReceive
  {
    if writeFault.Some? then
      Err(IpcError(EventSend, SendFailureText(writeFault.value), Some(payload)))
    else if reply.Err? then
      Err(IpcError(EventDecode, "Failed to decode response.\n" + reply.error, Some(payload)))
    else if Answers(reply.value, payload) then
      Ok(reply.value)
    else
      Err(IpcError(EventReceive, "Invalid message received.\n", Some(payload)))
  }

  /** A request without a nonce can never be answered. */
  lemma NullNonceNeverAnswered(payload: Json, writeFault: Option<string>, reply: Result<Json, string>)
    requires Get(payload, "nonce") == Null
    ensures CommandOutcome(payload, writeFault, reply).Err?
  {
  }

  /** A successful reply carries exactly the request's nonce. */
  lemma AnswerCarriesNonce(payload: Json, writeFault: Option<string>, reply: Result<Json, string>)
    requires CommandOutcome(payload, writeFault, reply).Ok?
    ensures Get(CommandOutcome(payload, writeFault, reply).value, "nonce") == Get(payload, "nonce") != Null
  {
  }

  /** The event client's `send`: one write, nothing awaited. */
  function NotifyOutcome(payload: Json, writeFault: Option<string>): (r: Outcome<IpcError>)
    ensures r.Pass? <==> writeFault.None?
    ensures r.Fail? ==> r.error == IpcError(EventSend, SendFailureText(writeFault.value), Some(payload))
  {
    if writeFault.Some? then Fail(IpcError(EventSend, SendFailureText(writeFault.value), Some(payload)))
    else Pass
  }

  /** The client that performs request/response exchanges (SendIPCClient). */
  class SendIpcClient {
    const ipc: Connection

    constructor (c: Connection)
      ensures ipc == c
    {
      ipc := c;
    }

    /**
     * Writes `payload` and, if that worked, reads exactly one message: the
     * reply is accepted only when it carries the request's nonce. The loop
     * of the original leaves on its first pass on every path, so no second
     * message is ever read.
     */
    method Send(payload: Json) returns (r: Result<Json, IpcError>)
      modifies ipc
      ensures ipc.sent == old(ipc.sent) + [payload]
      ensures r == CommandOutcome(payload, FaultAt(ipc.faults, |old(ipc.sent)|), NextRead(old(ipc.inbox)))
      ensures FaultAt(ipc.faults, |old(ipc.sent)|).Some? ==>
                ipc.readCount == old(ipc.readCount) && ipc.inbox == old(ipc.inbox)
      ensures FaultAt(ipc.faults, |old(ipc.sent)|).None? ==>
                ipc.readCount == old(ipc.readCount) + 1 && ipc.inbox == AfterRead(old(ipc.inbox))
    {
      var nonce := Get(payload, "nonce");
      var err := ipc.Write(payload);
      if err.Some? {
        return Err(IpcError(EventSend, SendFailureText(err.value), Some(payload)));
      }
      var received := ipc.Read();
      if received.Err? {
        return Err(IpcError(EventDecode, "Failed to decode response.\n" + received.error, Some(payload)));
      }
      var response := received.value;
      if Get(response, "nonce") != Null && Get(response, "nonce") == nonce {
        return Ok(response);
      }
      return Err(IpcError(EventReceive, "Invalid message received.\n", Some(payload)));
    }
  }

  /** The client that carries the handshake and the event stream (ReceiveIPCClient). */
  class ReceiveIpcClient {
    const ipc: Connection

    constructor (c: Connection)
      ensures ipc == c
    {
      ipc := c;
    }

    /** Writes `payload` once and never reads. */
    method Send(payload: Json) returns (r: Outcome<IpcError>)
      modifies ipc
      ensures ipc.sent == old(ipc.sent) + [payload]
      ensures r == NotifyOutcome(payload, FaultAt(ipc.faults, |old(ipc.sent)|))
      ensures ipc.inbox == old(ipc.inbox) && ipc.readCount == old(ipc.readCount)
    {
      var err := ipc.Write(payload);
      if err.Some? {
        return Fail(IpcError(EventSend, SendFailureText(err.value), Some(payload)));
      }
      return Pass;
    }

    /** Sends one SUBSCRIBE (or UNSUBSCRIBE) for `eventName` with `args`. */
    method Subscribe(eventName: string, args: Json, isSubscribe: bool, nonce: string) returns (r: Outcome<IpcError>)
      modifies ipc
      ensures ipc.sent == old(ipc.sent) + [SubscribePayload(eventName, args, isSubscribe, nonce)]
      ensures r == NotifyOutcome(SubscribePayload(eventName, args, isSubscribe, nonce),
                                 FaultAt(ipc.faults, |old(ipc.sent)|))
      ensures ipc.inbox == old(ipc.inbox) && ipc.readCount == old(ipc.readCount)
    {
      var payload := SubscribePayload(eventName, args, isSubscribe, nonce);
      r := Send(payload);
    }
  }
}
