/**
 * The per-channel voice events of src-tauri/src/ipc/vc.rs: five events that
 * are always subscribed, or unsubscribed, together and in a fixed order.
 */
module VcEvents {
  import opened Wrappers
  import opened Json
  import opened Errors
  import opened Transport
  import opened Commands
  import opened IpcClient

  const VcEventNames: seq<string> :=
    ["VOICE_STATE_CREATE", "VOICE_STATE_UPDATE", "VOICE_STATE_DELETE", "SPEAKING_START", "SPEAKING_STOP"]

  /** `{"channel_id": channelId}` */
  function ChannelArgs(channelId: Json): Json
  {
    Obj(map["channel_id" := channelId])
  }

  /** The five messages one call sends when nothing fails, in order. */
  function SubscriptionBatch(channelId: Json, isSubscribe: bool, nonces: seq<string>): (batch: seq<Json>)
    requires |nonces| == |VcEventNames|
    ensures |batch| == |VcEventNames|
  {
    var args := ChannelArgs(channelId);
    [ SubscribePayload(VcEventNames[0], args, isSubscribe, nonces[0]),
      SubscribePayload(VcEventNames[1], args, isSubscribe, nonces[1]),
      SubscribePayload(VcEventNames[2], args, isSubscribe, nonces[2]),
      SubscribePayload(VcEventNames[3], args, isSubscribe, nonces[3]),
      SubscribePayload(VcEventNames[4], args, isSubscribe, nonces[4]) ]
  }

  /**
   * The batch names the five events in the order CREATE, UPDATE, DELETE,
   * SPEAKING_START, SPEAKING_STOP, all with `{channel_id}` as arguments, all
   * with the one command `isSubscribe` selects, each with its own nonce.
   */
  lemma SubscriptionBatchShape(channelId: Json, isSubscribe: bool, nonces: seq<string>)
    requires |nonces| == |VcEventNames|
    ensures var batch := SubscriptionBatch(channelId, isSubscribe, nonces);
            && |batch| == 5
            && Get(batch[0], "evt") == Str("VOICE_STATE_CREATE")
            && Get(batch[1], "evt") == Str("VOICE_STATE_UPDATE")
            && Get(batch[2], "evt") == Str("VOICE_STATE_DELETE")
            && Get(batch[3], "evt") == Str("SPEAKING_START")
            && Get(batch[4], "evt") == Str("SPEAKING_STOP")
            && forall i :: 0 <= i < |batch| ==>
                 && Get(batch[i], "args") == ChannelArgs(channelId)
                 && Get2(batch[i], "args", "channel_id") == channelId
                 && Get(batch[i], "cmd") == Str(SubscriptionCommand(isSubscribe))
                 && Get(batch[i], "nonce") == Str(nonces[i])
  {
  }

  /**
   * Subscribing and unsubscribing the same channel send the same events with
   * the same arguments and nonces; the two batches differ in `cmd` alone.
   */
  lemma SubscribeUnsubscribeMirror(channelId: Json, nonces: seq<string>)
    requires |nonces| == |VcEventNames|
    ensures forall i :: 0 <= i < |VcEventNames| ==>
              SubscriptionBatch(channelId, false, nonces)[i] ==
              Obj(SubscriptionBatch(channelId, true, nonces)[i].fields["cmd" := Str("UNSUBSCRIBE")])
  {
    forall i | 0 <= i < |VcEventNames|
      ensures SubscriptionBatch(channelId, false, nonces)[i] ==
              Obj(SubscriptionBatch(channelId, true, nonces)[i].fields["cmd" := Str("UNSUBSCRIBE")])
    {
      var on := SubscribePayload(VcEventNames[i], ChannelArgs(channelId), true, nonces[i]);
      var off := SubscribePayload(VcEventNames[i], ChannelArgs(channelId), false, nonces[i]);
      assert off.fields == on.fields["cmd" := Str("UNSUBSCRIBE")];
    }
  }

  /** No write numbered from `base` up to, but excluding, `base + n` fails under `faults`. */
  predicate NoFaults(faults: map<nat, string>, base: nat, n: nat)
  {
    forall w :: base <= w < base + n ==> w !in faults
  }

  /**
   * The index of the first of `n` consecutive writes, starting with write
   * number `base`, that fails under `faults`; `n` when none fails.
   */
  function FirstFault(faults: map<nat, string>, base: nat, n: nat): (k: nat)
    ensures k <= n
    ensures NoFaults(faults, base, k)
    ensures k < n ==> base + k in faults
    decreases n
  {
    if n == 0 || base in faults then 0 else 1 + FirstFault(faults, base + 1, n - 1)
  }

  /** The messages a run of consecutive writes sent, and what the run returned. */
  datatype Run<E> = Run(sent: seq<Json>, outcome: Outcome<E>)

  /**
   * What `set_vc_events` sends and returns when its first write is write
   * number `base`: the batch up to and including the first failing write,
   * and that write's failure unchanged.
   */
  function VcRun(faults: map<nat, string>, base: nat, channelId: Json, isSubscribe: bool, nonces: seq<string>)
    : Run<IpcError>
    requires |nonces| == |VcEventNames|
  {
    var batch := SubscriptionBatch(channelId, isSubscribe, nonces);
    var k := FirstFault(faults, base, |batch|);
    if k < |batch| then
      Run(batch[..k + 1], Fail(IpcError(EventSend, SendFailureText(faults[base + k]), Some(batch[k]))))
    else
      Run(batch, Pass)
  }

  /**
   * Sends SUBSCRIBE (or UNSUBSCRIBE) for each of the five events with
   * `{channel_id}`, stopping at the first failure, which it returns; the
   * writes already made are not undone.
   */
  method SetVcEvents(client: ReceiveIpcClient, channelId: Json, isSubscribe: bool, nonces: seq<string>)
    returns (r: Outcome<IpcError>)
    requires |nonces| == |VcEventNames|
    modifies client.ipc
    ensures var run := VcRun(client.ipc.faults, |old(client.ipc.sent)|, channelId, isSubscribe, nonces);
            client.ipc.sent == old(client.ipc.sent) + run.sent && r == run.outcome
    ensures client.ipc.inbox == old(client.ipc.inbox) && client.ipc.readCount == old(client.ipc.readCount)
  {
    ghost var base := |client.ipc.sent|;
    ghost var batch := SubscriptionBatch(channelId, isSubscribe, nonces);
    for i := 0 to |VcEventNames|
      invariant client.ipc.sent == old(client.ipc.sent) + batch[..i]
      invariant NoFaults(client.ipc.faults, base, i)
      invariant client.ipc.inbox == old(client.ipc.inbox) && client.ipc.readCount == old(client.ipc.readCount)
    {
      var res := client.Subscribe(VcEventNames[i], ChannelArgs(channelId), isSubscribe, nonces[i]);
      if res.Fail? {
        VcRunStopsAt(client.ipc.faults, base, channelId, isSubscribe, nonces, i);
        assert batch[..i] + [batch[i]] == batch[..i + 1];
        return res;
      }
    }
    VcRunAllPass(client.ipc.faults, base, channelId, isSubscribe, nonces);
    assert batch[..|VcEventNames|] == batch;
    return Pass;
  }

  /** A run whose first failing write is the one at index `k` stops there and reports it. */
  lemma VcRunStopsAt(faults: map<nat, string>, base: nat, channelId: Json, isSubscribe: bool, nonces: seq<string>, k: nat)
    requires |nonces| == |VcEventNames| && k < |VcEventNames|
    requires NoFaults(faults, base, k) && base + k in faults
    ensures var batch := SubscriptionBatch(channelId, isSubscribe, nonces);
            VcRun(faults, base, channelId, isSubscribe, nonces) ==
              Run(batch[..k + 1], Fail(IpcError(EventSend, SendFailureText(faults[base + k]), Some(batch[k]))))
  {
    assert FirstFault(faults, base, |VcEventNames|) == k;
  }

  /** A run in which no write fails sends the whole batch and passes. */
  lemma VcRunAllPass(faults: map<nat, string>, base: nat, channelId: Json, isSubscribe: bool, nonces: seq<string>)
    requires |nonces| == |VcEventNames| && NoFaults(faults, base, |VcEventNames|)
    ensures VcRun(faults, base, channelId, isSubscribe, nonces) == Run(SubscriptionBatch(channelId, isSubscribe, nonces), Pass)
  {
    assert FirstFault(faults, base, |VcEventNames|) == |VcEventNames|;
  }

  /**
   * What a run promises: it sends a prefix of the batch; it passes exactly
   * when none of the five writes fails, having sent the whole batch; when it
   * fails, its last message is the first write that failed, every write
   * before it went through, and the error carries that message.
   */
  lemma VcRunShape(faults: map<nat, string>, base: nat, channelId: Json, isSubscribe: bool, nonces: seq<string>)
    requires |nonces| == |VcEventNames|
    ensures var run := VcRun(faults, base, channelId, isSubscribe, nonces);
            var batch := SubscriptionBatch(channelId, isSubscribe, nonces);
            && run.sent <= batch
            && (run.outcome.Pass? <==> NoFaults(faults, base, |VcEventNames|))
            && (run.outcome.Pass? ==> run.sent == batch)
            && (run.outcome.Fail? ==>
                  && 0 < |run.sent|
                  && base + |run.sent| - 1 in faults
                  && NoFaults(faults, base, |run.sent| - 1)
                  && run.outcome.error ==
                     IpcError(EventSend, SendFailureText(faults[base + |run.sent| - 1]), Some(run.sent[|run.sent| - 1])))
  {
  }
}
