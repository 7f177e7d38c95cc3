/**
 * The older subscription helpers of src-tauri/src/ipc.rs, which write
 * straight to the shared connection and report failures as `Subscribe`
 * errors that also keep the transport's text. The connection manager of
 * src-tauri/src/main.rs uses these.
 */
module LegacyIpc {
  import opened Wrappers
  import opened Json
  import opened Errors
  import opened Transport
  import opened Commands
  import VcEvents

  /** The failure of one subscribe or unsubscribe write. */
  function SubscriptionError(payload: Json, isSubscribe: bool, eventName: string, transport: string)
    : InternalIpcError
  {
    InternalIpcError(
      IpcErrorType.Subscribe,
      (if isSubscribe then "Failed to subscribe event: " else "Failed to unsubscribe event: ") + eventName,
      transport,
      Some(payload))
  }

  /** Writes `{nonce, cmd: "SUBSCRIBE", evt, args}`. */
  method Subscribe(conn: Connection, eventName: string, args: Json, nonce: string) returns (r: Outcome<InternalIpcError>)
    modifies conn
    ensures conn.sent == old(conn.sent) + [SubscribePayload(eventName, args, true, nonce)]
    ensures var fault := FaultAt(conn.faults, |old(conn.sent)|);
            r == if fault.Some?
                 then Fail(SubscriptionError(SubscribePayload(eventName, args, true, nonce), true, eventName, fault.value))
                 else Pass
    ensures conn.inbox == old(conn.inbox) && conn.readCount == old(conn.readCount)
  {
    var payload := SubscribePayload(eventName, args, true, nonce);
    var err := conn.Write(payload);
    if err.Some? {
      return Fail(InternalIpcError(IpcErrorType.Subscribe, "Failed to subscribe event: " + eventName, err.value, Some(payload)));
    }
    return Pass;
  }

  /** Writes `{nonce, cmd: "UNSUBSCRIBE", evt, args}`; a failure is still tagged `Subscribe`. */
  method Unsubscribe(conn: Connection, eventName: string, args: Json, nonce: string) returns (r: Outcome<InternalIpcError>)
    modifies conn
    ensures conn.sent == old(conn.sent) + [SubscribePayload(eventName, args, false, nonce)]
    ensures var fault := FaultAt(conn.faults, |old(conn.sent)|);
            r == if fault.Some?
                 then Fail(SubscriptionError(SubscribePayload(eventName, args, false, nonce), false, eventName, fault.value))
                 else Pass
    ensures conn.inbox == old(conn.inbox) && conn.readCount == old(conn.readCount)
  {
    var payload := SubscribePayload(eventName, args, false, nonce);
    var err := conn.Write(payload);
    if err.Some? {
      return Fail(InternalIpcError(IpcErrorType.Subscribe, "Failed to unsubscribe event: " + eventName, err.value, Some(payload)));
    }
    return Pass;
  }

  /**
   * Writes `batch[i..]` in turn, `batch[i]` being write number `base + i`,
   * and stops at the first failing write with that write's failure.
   */
  function Chain(faults: map<nat, string>, base: nat, batch: seq<Json>, names: seq<string>, isSubscribe: bool, i: nat)
    : VcEvents.Run<InternalIpcError>
    requires |batch| == |names| && i <= |batch|
    decreases |batch| - i
  {
    if i == |batch| then VcEvents.Run([], Pass)
    else if base + i in faults then
      VcEvents.Run([batch[i]], Fail(SubscriptionError(batch[i], isSubscribe, names[i], faults[base + i])))
    else
      var rest := Chain(faults, base, batch, names, isSubscribe, i + 1);
      VcEvents.Run([batch[i]] + rest.sent, rest.outcome)
  }

  /** What one call of the helpers sends and returns: the five events in order, from write number `base`. */
  function LegacyRun(faults: map<nat, string>, base: nat, channelId: Json, isSubscribe: bool, nonces: seq<string>)
    : VcEvents.Run<InternalIpcError>
    requires |nonces| == |VcEvents.VcEventNames|
  {
    Chain(faults, base, VcEvents.SubscriptionBatch(channelId, isSubscribe, nonces), VcEvents.VcEventNames, isSubscribe, 0)
  }

  /** A write that goes through moves from the chain to what has been sent. */
  lemma ChainStep(faults: map<nat, string>, base: nat, batch: seq<Json>, names: seq<string>, isSubscribe: bool, i: nat,
                  before: seq<Json>, after: seq<Json>)
    requires |batch| == |names| && i < |batch| && base + i !in faults && after == before + [batch[i]]
    ensures var run := Chain(faults, base, batch, names, isSubscribe, i);
            var rest := Chain(faults, base, batch, names, isSubscribe, i + 1);
            before + run.sent == after + rest.sent && run.outcome == rest.outcome
  {
  }

  /**
   * From `batch[i]` on, a chain sends the writes up to and including the
   * first failing one, and passes exactly when none fails.
   */
  lemma {:induction false} ChainSent(faults: map<nat, string>, base: nat, batch: seq<Json>, names: seq<string>, isSubscribe: bool, i: nat)
    requires |batch| == |names| && i <= |batch|
    ensures var run := Chain(faults, base, batch, names, isSubscribe, i);
            var k := VcEvents.FirstFault(faults, base + i, |batch| - i);
            && run.sent == batch[i..i + (if k < |batch| - i then k + 1 else |batch| - i)]
            && (run.outcome.Pass? <==> k == |batch| - i)
    decreases |batch| - i
  {
    if i == |batch| {
    } else if base + i in faults {
      assert batch[i..i + 1] == [batch[i]];
    } else {
      ChainSent(faults, base, batch, names, isSubscribe, i + 1);
      var k' := VcEvents.FirstFault(faults, base + (i + 1), |batch| - (i + 1));
      var j := (i + 1) + (if k' < |batch| - (i + 1) then k' + 1 else |batch| - (i + 1));
      assert [batch[i]] + batch[i + 1..j] == batch[i..j];
    }
  }

  /** A chain that fails reports the first failing write, naming its event and carrying its message. */
  lemma {:induction false} ChainError(faults: map<nat, string>, base: nat, batch: seq<Json>, names: seq<string>, isSubscribe: bool, i: nat)
    requires |batch| == |names| && i <= |batch|
    ensures var run := Chain(faults, base, batch, names, isSubscribe, i);
            var k := VcEvents.FirstFault(faults, base + i, |batch| - i);
            run.outcome.Fail? ==>
              k < |batch| - i &&
              run.outcome.error == SubscriptionError(batch[i + k], isSubscribe, names[i + k], faults[base + i + k])
    decreases |batch| - i
  {
    if i < |batch| && base + i !in faults {
      ChainError(faults, base, batch, names, isSubscribe, i + 1);
      var k' := VcEvents.FirstFault(faults, base + (i + 1), |batch| - (i + 1));
      assert i + 1 + k' == (i + 1) + k' && base + i + (1 + k') == base + (i + 1) + k';
    }
  }

  /** A whole chain sends the writes up to the first failing one and reports that one, or sends all and passes. */
  lemma ChainWhole(faults: map<nat, string>, base: nat, batch: seq<Json>, names: seq<string>, isSubscribe: bool)
    requires |batch| == |names|
    ensures var run := Chain(faults, base, batch, names, isSubscribe, 0);
            var k := VcEvents.FirstFault(faults, base, |batch|);
            && (k < |batch| ==> run.sent == batch[..k + 1] && run.outcome.Fail? && run.outcome.error.payload == Some(batch[k]))
            && (k == |batch| ==> run == VcEvents.Run(batch, Pass))
  {
    ChainSent(faults, base, batch, names, isSubscribe, 0);
    ChainError(faults, base, batch, names, isSubscribe, 0);
    assert base + 0 == base && |batch| - 0 == |batch|;
    assert batch[0..|batch|] == batch;
  }

  /**
   * One call of the helpers sends a non-empty prefix of the five messages;
   * it passes exactly when none of the five writes fails, having sent all
   * five, and otherwise reports the last message it sent.
   */
  lemma LegacyRunShape(faults: map<nat, string>, base: nat, channelId: Json, isSubscribe: bool, nonces: seq<string>)
    requires |nonces| == |VcEvents.VcEventNames|
    ensures var run := LegacyRun(faults, base, channelId, isSubscribe, nonces);
            var batch := VcEvents.SubscriptionBatch(channelId, isSubscribe, nonces);
            && 0 < |run.sent| && run.sent <= batch
            && (run.outcome.Pass? <==> VcEvents.NoFaults(faults, base, |batch|))
            && (run.outcome.Pass? ==> run.sent == batch)
            && (run.outcome.Fail? ==> run.outcome.error.payload == Some(run.sent[|run.sent| - 1]))
  {
    ChainWhole(faults, base, VcEvents.SubscriptionBatch(channelId, isSubscribe, nonces), VcEvents.VcEventNames, isSubscribe);
  }

  /**
   * The older and the newer `set_vc_events` send the same messages and stop
   * at the same write; only the error they report differs.
   */
  lemma LegacyAgreesWithLoop(faults: map<nat, string>, base: nat, channelId: Json, isSubscribe: bool, nonces: seq<string>)
    requires |nonces| == |VcEvents.VcEventNames|
    ensures var legacy := LegacyRun(faults, base, channelId, isSubscribe, nonces);
            var loop := VcEvents.VcRun(faults, base, channelId, isSubscribe, nonces);
            && legacy.sent == loop.sent
            && legacy.outcome.Pass? == loop.outcome.Pass?
            && (legacy.outcome.Fail? ==> legacy.outcome.error.payload == loop.outcome.error.payload)
  {
    ChainWhole(faults, base, VcEvents.SubscriptionBatch(channelId, isSubscribe, nonces), VcEvents.VcEventNames, isSubscribe);
  }

  /**
   * Issues SUBSCRIBE (or UNSUBSCRIBE) for CREATE, UPDATE, DELETE,
   * SPEAKING_START and SPEAKING_STOP with `{channel_id}`, written out one
   * call after another; the first failure is returned and nothing after it
   * is attempted.
   */
  method SubscribeVcEvents(conn: Connection, channelId: Json, nonces: seq<string>) returns (r: Outcome<InternalIpcError>)
    requires |nonces| == |VcEvents.VcEventNames|
    modifies conn
    ensures var run := LegacyRun(conn.faults, |old(conn.sent)|, channelId, true, nonces);
            conn.sent == old(conn.sent) + run.sent && r == run.outcome
    ensures conn.inbox == old(conn.inbox) && conn.readCount == old(conn.readCount)
  {
    ghost var base, batch := |conn.sent|, VcEvents.SubscriptionBatch(channelId, true, nonces);
    var args := VcEvents.ChannelArgs(channelId);
    ghost var sent := conn.sent;
    r := Subscribe(conn, "VOICE_STATE_CREATE", args, nonces[0]);
    if r.Fail? { return; }
    ChainStep(conn.faults, base, batch, VcEvents.VcEventNames, true, 0, sent, conn.sent);
    sent := conn.sent;
    r := Subscribe(conn, "VOICE_STATE_UPDATE", args, nonces[1]);
    if r.Fail? { return; }
    ChainStep(conn.faults, base, batch, VcEvents.VcEventNames, true, 1, sent, conn.sent);
    sent := conn.sent;
    r := Subscribe(conn, "VOICE_STATE_DELETE", args, nonces[2]);
    if r.Fail? { return; }
    ChainStep(conn.faults, base, batch, VcEvents.VcEventNames, true, 2, sent, conn.sent);
    sent := conn.sent;
    r := Subscribe(conn, "SPEAKING_START", args, nonces[3]);
    if r.Fail? { return; }
    ChainStep(conn.faults, base, batch, VcEvents.VcEventNames, true, 3, sent, conn.sent);
    sent := conn.sent;
    r := Subscribe(conn, "SPEAKING_STOP", args, nonces[4]);
    if r.Fail? { return; }
    ChainStep(conn.faults, base, batch, VcEvents.VcEventNames, true, 4, sent, conn.sent);
  }

  /** The UNSUBSCRIBE arm, written out like the SUBSCRIBE arm with the unsubscribe helper. */
  method UnsubscribeVcEvents(conn: Connection, channelId: Json, nonces: seq<string>) returns (r: Outcome<InternalIpcError>)
    requires |nonces| == |VcEvents.VcEventNames|
    modifies conn
    ensures var run := LegacyRun(conn.faults, |old(conn.sent)|, channelId, false, nonces);
            conn.sent == old(conn.sent) + run.sent && r == run.outcome
    ensures conn.inbox == old(conn.inbox) && conn.readCount == old(conn.readCount)
  {
    ghost var base, batch := |conn.sent|, VcEvents.SubscriptionBatch(channelId, false, nonces);
    var args := VcEvents.ChannelArgs(channelId);
    ghost var sent := conn.sent;
    r := Unsubscribe(conn, "VOICE_STATE_CREATE", args, nonces[0]);
    if r.Fail? { return; }
    ChainStep(conn.faults, base, batch, VcEvents.VcEventNames, false, 0, sent, conn.sent);
    sent := conn.sent;
    r := Unsubscribe(conn, "VOICE_STATE_UPDATE", args, nonces[1]);
    if r.Fail? { return; }
    ChainStep(conn.faults, base, batch, VcEvents.VcEventNames, false, 1, sent, conn.sent);
    sent := conn.sent;
    r := Unsubscribe(conn, "VOICE_STATE_DELETE", args, nonces[2]);
    if r.Fail? { return; }
    ChainStep(conn.faults, base, batch, VcEvents.VcEventNames, false, 2, sent, conn.sent);
    sent := conn.sent;
    r := Unsubscribe(conn, "SPEAKING_START", args, nonces[3]);
    if r.Fail? { return; }
    ChainStep(conn.faults, base, batch, VcEvents.VcEventNames, false, 3, sent, conn.sent);
    sent := conn.sent;
    r := Unsubscribe(conn, "SPEAKING_STOP", args, nonces[4]);
    if r.Fail? { return; }
    ChainStep(conn.faults, base, batch, VcEvents.VcEventNames, false, 4, sent, conn.sent);
  }

  /** `set_vc_events`: chooses the arm by `isSubscribe`; both send the same five events with `{channel_id}`. */
  method SetVcEvents(conn: Connection, channelId: Json, isSubscribe: bool, nonces: seq<string>)
    returns (r: Outcome<InternalIpcError>)
    requires |nonces| == |VcEvents.VcEventNames|
    modifies conn
    ensures var run := LegacyRun(conn.faults, |old(conn.sent)|, channelId, isSubscribe, nonces);
            conn.sent == old(conn.sent) + run.sent && r == run.outcome
    ensures conn.inbox == old(conn.inbox) && conn.readCount == old(conn.readCount)
  {
    if isSubscribe {
      r := SubscribeVcEvents(conn, channelId, nonces);
    } else {
      r := UnsubscribeVcEvents(conn, channelId, nonces);
    }
  }
}
