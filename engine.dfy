/** The WebRTC engine as the session sees it: a handful of calls that each
    succeed or fail, chosen by the engine and not by the session. Every call
    is appended to a ghost log, so that what the session asked of the engine,
    in which order and with what result, can be stated and checked. Nothing of
    the engine's own behaviour (ICE, DTLS, SCTP) is modelled. */
module Engine {
  import opened Util

  /** A peer connection handle (`PRtcPeerConnection`). */
  type PeerConnection = nat

  /** A data channel handle (`PRtcDataChannel`) and the name it carries. */
  datatype DataChannel = DataChannel(id: nat, name: string)

  /** `RtcDataChannelInit`: reliability options of a created channel;
      an absent value is `NULLABLE_SET_EMPTY`. */
  datatype ChannelInit = ChannelInit(
    ordered: bool,
    maxPacketLifeTime: Option<nat>,
    maxRetransmits: Option<nat>)

  /** The ICE part of `RtcConfiguration`, in units of 100 ns. */
  datatype RtcConfiguration = RtcConfiguration(
    iceLocalCandidateGatheringTimeout: nat,
    iceCandidateNominationTimeout: nat,
    iceConnectionCheckTimeout: nat)

  /** `RTC_PEER_CONNECTION_STATE`. */
  datatype ConnectionState =
    | StateNone | StateNew | StateConnecting | StateConnected
    | StateDisconnected | StateFailed | StateClosed

  /** The session's handlers that can be registered with the engine. */
  datatype Callback =
    | IceCandidate | ConnectionStateChange | RemoteDataChannel
    | ServerChannelOpen | MessageEcho | MessageBurst

  /** One call the session made into the engine, with its outcome. */
  datatype Call =
    | MemAlloc(size: nat, ok: bool)
    | DeserializeOffer(json: string, ok: bool)
    | CreatePeerConnection(config: RtcConfiguration, created: Option<PeerConnection>)
    | PeerConnectionOn(pc: PeerConnection, callback: Callback)
    | CreateDataChannel(pc: PeerConnection, name: string, init: Option<ChannelInit>, channel: Option<DataChannel>)
    | DataChannelOnOpen(target: DataChannel, callback: Callback)
    | DataChannelOnMessage(target: DataChannel, callback: Callback)
    | SetRemoteDescription(pc: PeerConnection, ok: bool)
    | SetLocalDescription(pc: PeerConnection, ok: bool)
    | CreateAnswer(pc: PeerConnection, ok: bool)
    | SerializeAnswer(answer: Option<string>)
    | Send(target: DataChannel, isBinary: bool, payload: seq<byte>, ok: bool)
    | FreePeerConnection(pc: PeerConnection)

  /** Whether a call reported success; the registrations and the free
      cannot fail. */
  predicate Succeeded(c: Call) {
    match c
    case MemAlloc(_, ok) => ok
    case DeserializeOffer(_, ok) => ok
    case CreatePeerConnection(_, created) => created.Some?
    case CreateDataChannel(_, _, _, channel) => channel.Some?
    case SetRemoteDescription(_, ok) => ok
    case SetLocalDescription(_, ok) => ok
    case CreateAnswer(_, ok) => ok
    case SerializeAnswer(answer) => answer.Some?
    case Send(_, _, _, ok) => ok
    case _ => true
  }

  /** How many of `calls` are sends that succeeded. */
  function SuccessfulSends(calls: seq<Call>): (n: nat)
    ensures n <= |calls|
    ensures (forall i | 0 <= i < |calls| :: calls[i].Send? && calls[i].ok) ==> n == |calls|
  {
    if calls == [] then 0
    else
      var last := calls[|calls| - 1];
      SuccessfulSends(calls[..|calls| - 1]) + (if last.Send? && last.ok then 1 else 0)
  }

  /** `calls` are exactly one send per payload, in order, on `channel`, all
      with the same binary flag. */
  ghost predicate SendsInOrder(calls: seq<Call>, channel: DataChannel, isBinary: bool, payloads: seq<seq<byte>>) {
    && |calls| == |payloads|
    && forall k | 0 <= k < |calls| ::
         calls[k].Send? && calls[k].target == channel && calls[k].isBinary == isBinary
         && calls[k].payload == payloads[k]
  }

  /** One more send extends the order of sends by the next payload and, if
      it succeeded, the count of successful ones. */
  lemma SendsSnoc(calls: seq<Call>, channel: DataChannel, isBinary: bool, payloads: seq<seq<byte>>, i: nat, ok: bool)
    requires i < |payloads| && SendsInOrder(calls, channel, isBinary, payloads[..i])
    ensures var c := Call.Send(channel, isBinary, payloads[i], ok);
            && SendsInOrder(calls + [c], channel, isBinary, payloads[..i + 1])
            && SuccessfulSends(calls + [c]) == SuccessfulSends(calls) + (if ok then 1 else 0)
  {
    var c := Call.Send(channel, isBinary, payloads[i], ok);
    assert payloads[..i + 1] == payloads[..i] + [payloads[i]];
    assert (calls + [c])[..|calls|] == calls;
  }

  /** The engine. Each method returns an outcome the engine chooses freely
      and logs the call. */
  class Engine {
    ghost var log: seq<Call>

    constructor ()
      ensures log == []
    {
      log := [];
    }

    /** `MEMALLOC`, which can return NULL. */
    method MemAlloc(size: nat) returns (ok: bool)
      modifies this
      ensures log == old(log) + [Call.MemAlloc(size, ok)]
    {
      ok :| true;
      log := log + [Call.MemAlloc(size, ok)];
    }

    /** `deserializeSessionDescriptionInit` of an offer. */
    method DeserializeOffer(json: string) returns (ok: bool)
      modifies this
      ensures log == old(log) + [Call.DeserializeOffer(json, ok)]
    {
      ok :| true;
      log := log + [Call.DeserializeOffer(json, ok)];
    }

    /** `createPeerConnection`; on failure no handle is written back. */
    method CreatePeerConnection(config: RtcConfiguration) returns (pc: Option<PeerConnection>)
      modifies this
      ensures log == old(log) + [Call.CreatePeerConnection(config, pc)]
    {
      var ok: bool :| true;
      if ok {
        var handle: nat :| true;
        pc := Some(handle);
      } else {
        pc := None;
      }
      log := log + [Call.CreatePeerConnection(config, pc)];
    }

    /** `peerConnectionOnIceCandidate` and its two siblings. */
    method PeerConnectionOn(pc: PeerConnection, callback: Callback)
      modifies this
      ensures log == old(log) + [Call.PeerConnectionOn(pc, callback)]
    {
      log := log + [Call.PeerConnectionOn(pc, callback)];
    }

    /** `createDataChannel`; a created channel carries the requested name. */
    method CreateDataChannel(pc: PeerConnection, name: string, init: Option<ChannelInit>)
      returns (channel: Option<DataChannel>)
      modifies this
      ensures channel.Some? ==> channel.value.name == name
      ensures log == old(log) + [Call.CreateDataChannel(pc, name, init, channel)]
    {
      var ok: bool :| true;
      if ok {
        var id: nat :| true;
        channel := Some(DataChannel(id, name));
      } else {
        channel := None;
      }
      log := log + [Call.CreateDataChannel(pc, name, init, channel)];
    }

    method DataChannelOnOpen(channel: DataChannel, callback: Callback)
      modifies this
      ensures log == old(log) + [Call.DataChannelOnOpen(channel, callback)]
    {
      log := log + [Call.DataChannelOnOpen(channel, callback)];
    }

    method DataChannelOnMessage(channel: DataChannel, callback: Callback)
      modifies this
      ensures log == old(log) + [Call.DataChannelOnMessage(channel, callback)]
    {
      log := log + [Call.DataChannelOnMessage(channel, callback)];
    }

    method SetRemoteDescription(pc: PeerConnection) returns (ok: bool)
      modifies this
      ensures log == old(log) + [Call.SetRemoteDescription(pc, ok)]
    {
      ok :| true;
      log := log + [Call.SetRemoteDescription(pc, ok)];
    }

    method SetLocalDescription(pc: PeerConnection) returns (ok: bool)
      modifies this
      ensures log == old(log) + [Call.SetLocalDescription(pc, ok)]
    {
      ok :| true;
      log := log + [Call.SetLocalDescription(pc, ok)];
    }

    method CreateAnswer(pc: PeerConnection) returns (ok: bool)
      modifies this
      ensures log == old(log) + [Call.CreateAnswer(pc, ok)]
    {
      ok :| true;
      log := log + [Call.CreateAnswer(pc, ok)];
    }

    /** `serializeSessionDescriptionInit` of the answer: the JSON text, or
        nothing on failure. */
    method SerializeAnswer() returns (answer: Option<string>)
      modifies this
      ensures log == old(log) + [Call.SerializeAnswer(answer)]
    {
      answer := *;
      log := log + [Call.SerializeAnswer(answer)];
    }

    /** `dataChannelSend`. */
    method Send(channel: DataChannel, isBinary: bool, payload: seq<byte>) returns (ok: bool)
      modifies this
      ensures log == old(log) + [Call.Send(channel, isBinary, payload, ok)]
    {
      ok :| true;
      log := log + [Call.Send(channel, isBinary, payload, ok)];
    }

    /** `freePeerConnection`, which also clears the caller's handle. */
    method FreePeerConnection(pc: PeerConnection)
      modifies this
      ensures log == old(log) + [Call.FreePeerConnection(pc)]
    {
      log := log + [Call.FreePeerConnection(pc)];
    }

    /** One poll interval of the ICE wait: the ICE candidate callback the
        engine delivered meanwhile, if any (`None` inside is the NULL
        candidate that ends gathering). */
    method Sleep() returns (delivered: Option<Option<string>>)
    {
      delivered := *;
    }
  }
}
