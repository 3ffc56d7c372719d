/** The data-channel test server's session: the single peer connection it
    negotiates, the scenario it runs, its server-created channels and the
    per-channel statistics its handlers keep, with the HTTP operations
    `POST /offer`, `POST /reset` and `GET /results` and the engine callbacks
    as methods of one object. Callbacks are taken as atomic steps. */
module Session {
  import opened Util
  import opened Stats
  import opened Engine
  import opened Scenario
  import opened Results

  /** An HTTP request: its query parameters (first value per name) and body. */
  datatype Request = Request(params: map<string, string>, body: string)

  datatype Response = Response(status: nat, body: string)

  /** The `test` parameter of `POST /offer`, `echo` when it is absent. */
  function TestName(req: Request): (r: string)
    ensures "test" in req.params ==> r == req.params["test"]
    ensures r == "echo" <==> ("test" !in req.params || req.params["test"] == "echo")
  {
    if "test" in req.params then req.params["test"] else "echo"
  }

  /** Time in the engine's unit, 100 ns. */
  const HUNDREDS_OF_NANOS_IN_A_MILLISECOND: nat := 10000
  const HUNDREDS_OF_NANOS_IN_A_SECOND: nat := 10000000

  /** The ICE wait sleeps 100 ms per poll. */
  const ICE_POLL_INTERVAL: nat := 100 * HUNDREDS_OF_NANOS_IN_A_MILLISECOND

  /** 10 s of ICE wait at one poll per 100 ms. */
  const ICE_POLL_LIMIT: nat := 10 * HUNDREDS_OF_NANOS_IN_A_SECOND / ICE_POLL_INTERVAL

  const RESET_OK: string := "{\"status\": \"ok\"}"

  /** The ICE timeouts the server configures: 500 ms of local candidate
      gathering, 10 s for nomination and for connectivity checks. */
  function LocalRtcConfiguration(): (r: RtcConfiguration)
    ensures r.iceLocalCandidateGatheringTimeout == 5 * ICE_POLL_INTERVAL
    ensures r.iceCandidateNominationTimeout == r.iceConnectionCheckTimeout == ICE_POLL_LIMIT * ICE_POLL_INTERVAL
  {
    RtcConfiguration(500 * HUNDREDS_OF_NANOS_IN_A_MILLISECOND,
                     10 * HUNDREDS_OF_NANOS_IN_A_SECOND, 10 * HUNDREDS_OF_NANOS_IN_A_SECOND)
  }

  /** Where `handleOffer` stopped. */
  datatype OfferStage =
    | Conflict | AllocFailed | ParseFailed | CreateFailed
    | RemoteFailed | LocalFailed | IceTimeout | AnswerFailed | SerializeFailed
    | Answered

  /** The stages reached after the scenario was configured on a new peer
      connection. */
  predicate Configured(stage: OfferStage) {
    !(stage.Conflict? || stage.AllocFailed? || stage.ParseFailed? || stage.CreateFailed?)
  }

  /** The JSON bodies of the error responses. */
  const ALREADY_CONNECTED: string := "{\"error\": \"Already connected\"}"
  const ALLOC_FAILED: string := "{\"error\": \"Memory allocation failed\"}"
  const INVALID_SDP: string := "{\"error\": \"Invalid SDP\"}"
  const CREATE_PC_FAILED: string := "{\"error\": \"Failed to create peer connection\"}"
  const REMOTE_DESC_FAILED: string := "{\"error\": \"Failed to set remote description\"}"
  const LOCAL_DESC_FAILED: string := "{\"error\": \"Failed to set local description\"}"
  const ICE_TIMEOUT: string := "{\"error\": \"ICE gathering timeout\"}"
  const ANSWER_FAILED: string := "{\"error\": \"Failed to create answer\"}"
  const SERIALIZE_FAILED: string := "{\"error\": \"Failed to serialize answer\"}"

  /** The response of each way `handleOffer` can fail. */
  function ErrorResponse(stage: OfferStage): (r: Response)
    requires stage != Answered
    ensures r.status == 409 <==> stage == Conflict
    ensures r.status == 400 <==> stage == ParseFailed
    ensures r.status == 504 <==> stage == IceTimeout
    ensures r.status == 500 <==> stage.AllocFailed? || stage.CreateFailed? || stage.RemoteFailed?
                                  || stage.LocalFailed? || stage.AnswerFailed? || stage.SerializeFailed?
  {
    match stage
    case Conflict => Response(409, ALREADY_CONNECTED)
    case AllocFailed => Response(500, ALLOC_FAILED)
    case ParseFailed => Response(400, INVALID_SDP)
    case CreateFailed => Response(500, CREATE_PC_FAILED)
    case RemoteFailed => Response(500, REMOTE_DESC_FAILED)
    case LocalFailed => Response(500, LOCAL_DESC_FAILED)
    case IceTimeout => Response(504, ICE_TIMEOUT)
    case AnswerFailed => Response(500, ANSWER_FAILED)
    case SerializeFailed => Response(500, SERIALIZE_FAILED)
  }

  /** Each failure has its own response, so a client can tell them apart. */
  lemma ErrorResponsesDistinct(s1: OfferStage, s2: OfferStage)
    requires s1 != Answered && s2 != Answered && s1 != s2
    ensures ErrorResponse(s1) != ErrorResponse(s2)
  {
  }

  /** The stages at which no peer connection was created. */
  predicate EarlyFailure(stage: OfferStage) {
    stage.AllocFailed? || stage.ParseFailed? || stage.CreateFailed?
  }

  /** The engine calls of a `handleOffer` that failed before a peer
      connection existed; the SDP copy is the body plus its terminator. */
  function StartCalls(body: string, config: RtcConfiguration, stage: OfferStage): (r: seq<Call>)
    requires EarlyFailure(stage)
    ensures 1 <= |r| <= 3 && r[0] == MemAlloc(|body| + 1, !stage.AllocFailed?)
    ensures forall i | 0 <= i < |r| - 1 :: Succeeded(r[i])
    ensures !Succeeded(r[|r| - 1])
    ensures forall pc: PeerConnection :: r[..|r| - 1] == Prologue(body, config, pc)[..|r| - 1]
  {
    match stage
    case AllocFailed => [MemAlloc(|body| + 1, false)]
    case ParseFailed => [MemAlloc(|body| + 1, true), DeserializeOffer(body, false)]
    case CreateFailed =>
      [MemAlloc(|body| + 1, true), DeserializeOffer(body, true), CreatePeerConnection(config, None)]
  }

  /** The engine calls `handleOffer` makes before configuring the scenario. */
  function Prologue(body: string, config: RtcConfiguration, pc: PeerConnection): (r: seq<Call>)
    ensures |r| == 6 && forall i | 0 <= i < 6 :: Succeeded(r[i])
    ensures r[2] == CreatePeerConnection(config, Some(pc))
    ensures forall i | 3 <= i < 6 :: r[i].PeerConnectionOn? && r[i].pc == pc
    ensures {r[3].callback, r[4].callback, r[5].callback} == {IceCandidate, ConnectionStateChange, RemoteDataChannel}
  {
    [ MemAlloc(|body| + 1, true), DeserializeOffer(body, true), CreatePeerConnection(config, Some(pc)),
      PeerConnectionOn(pc, IceCandidate), PeerConnectionOn(pc, ConnectionStateChange),
      PeerConnectionOn(pc, RemoteDataChannel) ]
  }

  /** The engine calls from `setRemoteDescription` on, up to where the
      handshake stopped; every failure ends with freeing the connection. */
  function StageTail(pc: PeerConnection, stage: OfferStage, answer: string): (r: seq<Call>)
    requires Configured(stage)
    ensures |r| >= 2 && r[0].SetRemoteDescription? && r[0].pc == pc
    ensures stage == Answered ==>
              && (forall i | 0 <= i < |r| :: Succeeded(r[i]))
              && r[|r| - 1] == SerializeAnswer(Some(answer))
    ensures stage != Answered ==> forall i | 0 <= i < |r| - 2 :: Succeeded(r[i])
    ensures stage != Answered && stage != IceTimeout ==> !Succeeded(r[|r| - 2])
    ensures stage == IceTimeout ==> r[|r| - 2] == SetLocalDescription(pc, true)
  {
    match stage
    case RemoteFailed =>
      [SetRemoteDescription(pc, false), FreePeerConnection(pc)]
    case LocalFailed =>
      [SetRemoteDescription(pc, true), SetLocalDescription(pc, false), FreePeerConnection(pc)]
    case IceTimeout =>
      [SetRemoteDescription(pc, true), SetLocalDescription(pc, true), FreePeerConnection(pc)]
    case AnswerFailed =>
      [SetRemoteDescription(pc, true), SetLocalDescription(pc, true), CreateAnswer(pc, false),
       FreePeerConnection(pc)]
    case SerializeFailed =>
      [SetRemoteDescription(pc, true), SetLocalDescription(pc, true), CreateAnswer(pc, true),
       SerializeAnswer(None), FreePeerConnection(pc)]
    case Answered =>
      [SetRemoteDescription(pc, true), SetLocalDescription(pc, true), CreateAnswer(pc, true),
       SerializeAnswer(Some(answer))]
  }

  /** From `setRemoteDescription` on, the handshake frees the connection at
      its very end exactly when it fails, and never before. */
  lemma TailFreesOnFailure(pc: PeerConnection, stage: OfferStage, answer: string)
    requires Configured(stage)
    ensures var tail := StageTail(pc, stage, answer);
            && |tail| >= 2
            && (tail[|tail| - 1] == FreePeerConnection(pc) <==> stage != Answered)
            && forall i | 0 <= i < |tail| - 1 :: !tail[i].FreePeerConnection?
  {
  }

  /** The failures before and at `createPeerConnection` free nothing. */
  lemma EarlyFailuresFreeNothing(body: string, config: RtcConfiguration, stage: OfferStage)
    requires EarlyFailure(stage)
    ensures var calls := StartCalls(body, config, stage);
            && (calls[|calls| - 1].CreatePeerConnection? <==> stage == CreateFailed)
            && forall i | 0 <= i < |calls| :: !calls[i].FreePeerConnection?
  {
  }

  /** The ICE flag after a handshake that stopped at `stage`: untouched
      before the wait, false on its timeout, true once it succeeded. */
  function IceFlagAfter(stage: OfferStage, before: bool): (r: bool)
    requires Configured(stage)
    ensures stage == Answered ==> r
    ensures stage == IceTimeout ==> !r
    ensures stage.RemoteFailed? || stage.LocalFailed? ==> r == before
    ensures stage.AnswerFailed? || stage.SerializeFailed? ==> r
    ensures before && stage != IceTimeout ==> r
  {
    if stage.RemoteFailed? || stage.LocalFailed? then before else !stage.IceTimeout?
  }

  /** The sends an open action counts: every send of a single-send action,
      only the successful ones of a burst. */
  function OpenSent(action: OpenAction, calls: seq<Call>): (n: nat)
    ensures n <= |calls|
    ensures action != SendBurst ==> n == |calls|
    ensures (forall i | 0 <= i < |calls| :: calls[i].Send? && calls[i].ok) ==> n == |calls|
  {
    if action == SendBurst then SuccessfulSends(calls) else |calls|
  }

  /** The channel one call created, if it is a successful creation. */
  function CreatedBy(c: Call): seq<DataChannel> {
    if c.CreateDataChannel? && c.channel.Some? then [c.channel.value] else []
  }

  /** The channels `calls` created, in creation order. */
  ghost function Created(calls: seq<Call>): seq<DataChannel> {
    if calls == [] then [] else CreatedBy(calls[0]) + Created(calls[1..])
  }

  lemma {:induction false} CreatedConcat(a: seq<Call>, b: seq<Call>)
    ensures Created(a + b) == Created(a) + Created(b)
  {
    if a != [] {
      assert (a + b)[0] == a[0];
      assert (a + b)[1..] == a[1..] + b;
      CreatedConcat(a[1..], b);
      AppendAssoc(CreatedBy(a[0]), Created(a[1..]), Created(b));
    } else {
      assert a + b == b;
    }
  }

  lemma {:induction false} CreatedNone(calls: seq<Call>)
    requires forall i | 0 <= i < |calls| :: !calls[i].CreateDataChannel?
    ensures Created(calls) == []
  {
    if calls != [] {
      CreatedNone(calls[1..]);
    }
  }

  /** Neither the prologue nor the handshake creates a channel. */
  lemma NoCreationsOutsideConfig(body: string, config: RtcConfiguration, pc: PeerConnection,
                                 stage: OfferStage, answer: string)
    requires Configured(stage)
    ensures Created(Prologue(body, config, pc)) == []
    ensures Created(StageTail(pc, stage, answer)) == []
  {
    CreatedNone(Prologue(body, config, pc));
    var tail := StageTail(pc, stage, answer);
    assert forall i | 0 <= i < |tail| :: !tail[i].CreateDataChannel? by {
      match stage
      case RemoteFailed =>
      case LocalFailed =>
      case IceTimeout =>
      case AnswerFailed =>
      case SerializeFailed =>
      case Answered =>
    }
    CreatedNone(tail);
  }

  /** The calls of one `createChannel`: the creation, then, if it succeeded,
      binding the open handler and the echo handler to the new channel. */
  function CreationCalls(pc: PeerConnection, req: ChannelRequest, channel: Option<DataChannel>): (r: seq<Call>)
    ensures |r| == if channel.Some? then 3 else 1
    ensures r[0] == CreateDataChannel(pc, req.name, req.init, channel)
    ensures channel.Some? ==> r[1] == DataChannelOnOpen(channel.value, ServerChannelOpen)
                              && r[2] == DataChannelOnMessage(channel.value, MessageEcho)
  {
    [CreateDataChannel(pc, req.name, req.init, channel)]
    + match channel
      case None => []
      case Some(c) => [DataChannelOnOpen(c, ServerChannelOpen), DataChannelOnMessage(c, MessageEcho)]
  }

  /** `calls` are the `createChannel` calls for `reqs`, in order. */
  ghost predicate CreationTrace(calls: seq<Call>, pc: PeerConnection, reqs: seq<ChannelRequest>)
    decreases |reqs|
  {
    if reqs == [] then calls == []
    else
      && |calls| >= 1
      && calls[0].CreateDataChannel?
      && var k := if calls[0].channel.Some? then 3 else 1;
         && |calls| >= k
         && calls[..k] == CreationCalls(pc, reqs[0], calls[0].channel)
         && CreationTrace(calls[k..], pc, reqs[1..])
  }

  lemma CreationCallsTrace(pc: PeerConnection, req: ChannelRequest, channel: Option<DataChannel>)
    ensures CreationTrace(CreationCalls(pc, req, channel), pc, [req])
    ensures Created(CreationCalls(pc, req, channel)) == if channel.Some? then [channel.value] else []
  {
    var calls := CreationCalls(pc, req, channel);
    var k := if channel.Some? then 3 else 1;
    assert calls[..k] == calls && calls[k..] == [];
    assert [req][1..] == [];
    CreatedConcat([calls[0]], calls[1..]);
    CreatedNone(calls[1..]);
    assert calls == [calls[0]] + calls[1..];
  }

  lemma {:induction false} CreationTraceConcat(a: seq<Call>, b: seq<Call>, pc: PeerConnection,
                                               r1: seq<ChannelRequest>, r2: seq<ChannelRequest>)
    requires CreationTrace(a, pc, r1) && CreationTrace(b, pc, r2)
    ensures CreationTrace(a + b, pc, r1 + r2)
    decreases |r1|
  {
    if r1 == [] {
      assert a + b == b && r1 + r2 == r2;
    } else {
      var k := if a[0].channel.Some? then 3 else 1;
      SliceConcat(a, b, k);
      SliceConcat(r1, r2, 1);
      CreationTraceConcat(a[k..], b, pc, r1[1..], r2);
    }
  }

  /** One more `createChannel` extends a creation trace by the next request. */
  lemma CreationStep(trace: seq<Call>, step: seq<Call>, pc: PeerConnection, reqs: seq<ChannelRequest>, i: nat)
    requires i < |reqs| && CreationTrace(trace, pc, reqs[..i]) && CreationTrace(step, pc, [reqs[i]])
    ensures CreationTrace(trace + step, pc, reqs[..i + 1])
    ensures Created(trace + step) == Created(trace) + Created(step)
  {
    assert reqs[..i + 1] == reqs[..i] + [reqs[i]];
    CreationTraceConcat(trace, step, pc, reqs[..i], [reqs[i]]);
    CreatedConcat(trace, step);
  }

  /** `calls` are what `handleOffer` asks of the engine after the peer
      connection `pc` exists: the scenario's channel creations, then the
      handshake up to `stage`. */
  ghost predicate NegotiationTrace(calls: seq<Call>, pc: PeerConnection, testName: string,
                                   stage: OfferStage, answer: string)
    requires Configured(stage)
  {
    var tail := StageTail(pc, stage, answer);
    && |calls| >= |tail|
    && CreationTrace(calls[..|calls| - |tail|], pc, Topology(testName))
    && calls[|calls| - |tail|..] == tail
  }

  /** `calls` are what `handleOffer` asks of the engine when it gets past
      `createPeerConnection` and stops at `stage`. */
  ghost predicate OfferTrace(calls: seq<Call>, body: string, config: RtcConfiguration,
                             testName: string, stage: OfferStage, answer: string)
    requires Configured(stage)
  {
    && |calls| >= 6
    && calls[2].CreatePeerConnection? && calls[2].created.Some?
    && calls[..6] == Prologue(body, config, calls[2].created.value)
    && NegotiationTrace(calls[6..], calls[2].created.value, testName, stage, answer)
  }

  /** The scenario's creations followed by the handshake form a negotiation,
      and only the creations create channels. */
  lemma ComposeNegotiation(pc: PeerConnection, testName: string, stage: OfferStage, answer: string,
                           configured: seq<Call>)
    requires Configured(stage) && CreationTrace(configured, pc, Topology(testName))
    ensures var calls := configured + StageTail(pc, stage, answer);
            && NegotiationTrace(calls, pc, testName, stage, answer)
            && Created(calls) == Created(configured)
  {
    var tail := StageTail(pc, stage, answer);
    var calls := configured + tail;
    assert calls[..|calls| - |tail|] == configured;
    assert calls[|calls| - |tail|..] == tail;
    NoCreationsOutsideConfig([], LocalRtcConfiguration(), pc, stage, answer);
    CreatedConcat(configured, tail);
  }

  /** The prologue followed by a negotiation is a whole `handleOffer` trace
      past `createPeerConnection`; the prologue creates no channel. */
  lemma ComposeOffer(body: string, config: RtcConfiguration, testName: string, pc: PeerConnection,
                     stage: OfferStage, answer: string, rest: seq<Call>)
    requires Configured(stage) && NegotiationTrace(rest, pc, testName, stage, answer)
    ensures var calls := Prologue(body, config, pc) + rest;
            && OfferTrace(calls, body, config, testName, stage, answer)
            && Created(calls) == Created(rest)
            && calls[2].created == Some(pc)
  {
    var prologue := Prologue(body, config, pc);
    var calls := prologue + rest;
    assert calls[..6] == prologue;
    assert calls[6..] == rest;
    NoCreationsOutsideConfig(body, config, pc, stage, answer);
    CreatedConcat(prologue, rest);
  }

  class TestSession {
    const rtcConfig: RtcConfiguration
    const engine: Engine
    /** `serverChannels`: slots for MAX_TEST_CHANNELS channel handles, NULL
        when never filled. */
    const serverChannels: array<Option<DataChannel>>
    var peerConnection: Option<PeerConnection>
    var connectionState: ConnectionState
    var iceGatheringDone: bool
    var serverChannelCount: nat
    var currentTest: string
    var channelStats: seq<ChannelStats>

    ghost predicate Valid()
      reads this
    {
      && serverChannels.Length == MAX_TEST_CHANNELS
      && serverChannelCount <= MAX_TEST_CHANNELS
      && UniqueNames(channelStats)
    }

    /** The state the server starts in and `handleReset` returns to. */
    ghost predicate Idle()
      reads this
    {
      && peerConnection.None?
      && !iceGatheringDone
      && connectionState == StateNone
      && currentTest == ""
      && serverChannelCount == 0
      && channelStats == []
    }

    /** The first `serverChannelCount` slots hold `created`, in order. */
    ghost predicate ChannelTable(created: seq<DataChannel>)
      reads this, serverChannels
    {
      && serverChannelCount == |created| <= serverChannels.Length
      && forall i | 0 <= i < |created| :: serverChannels[i] == Some(created[i])
    }

    constructor (engine: Engine)
      ensures Valid() && Idle()
      ensures this.engine == engine && rtcConfig == LocalRtcConfiguration()
      ensures fresh(serverChannels)
      ensures forall i | 0 <= i < serverChannels.Length :: serverChannels[i] == None
    {
      this.engine := engine;
      rtcConfig := LocalRtcConfiguration();
      serverChannels := new Option<DataChannel>[MAX_TEST_CHANNELS](_ => None);
      peerConnection := None;
      connectionState := StateNone;
      iceGatheringDone := false;
      serverChannelCount := 0;
      currentTest := "";
      channelStats := [];
    }

    /** `findOrCreateStats`: a linear search by name, appending a fresh
        entry when there is none. */
    method FindOrCreateStats(name: string) returns (index: nat)
      requires Valid()
      modifies this`channelStats
      ensures Valid()
      ensures channelStats == FindOrCreate(old(channelStats), name).registry
      ensures index == FindOrCreate(old(channelStats), name).index
    {
      var i := 0;
      while i < |channelStats|
        invariant i <= |channelStats|
        invariant forall j | 0 <= j < i :: channelStats[j].name != name
      {
        if channelStats[i].name == name {
          return i;
        }
        i := i + 1;
      }
      channelStats := channelStats + [Fresh(name)];
      index := |channelStats| - 1;
    }

    /** `onIceCandidate`: a NULL candidate marks the end of gathering. */
    method OnIceCandidate(candidate: Option<string>)
      modifies this`iceGatheringDone
      ensures iceGatheringDone == (old(iceGatheringDone) || candidate.None?)
    {
      if candidate.None? {
        iceGatheringDone := true;
      }
    }

    /** `onConnectionStateChange`. */
    method OnConnectionStateChange(newState: ConnectionState)
      modifies this`connectionState
      ensures connectionState == newState
    {
      connectionState := newState;
    }

    /** The common start of the message handlers: find or create the
        channel's entry, then count the message and its bytes. */
    method CountReceived(name: string, length: nat) returns (index: nat, ghost found: Found)
      requires Valid()
      modifies this`channelStats
      ensures Valid()
      ensures found == FindOrCreate(old(channelStats), name) && index == found.index
      ensures channelStats == found.registry[index := found.registry[index].(
                messagesReceived := found.registry[index].messagesReceived + 1,
                bytesReceived := found.registry[index].bytesReceived + length)]
    {
      index := FindOrCreateStats(name);
      found := FindOrCreate(old(channelStats), name);
      channelStats := channelStats[index := channelStats[index].(
        messagesReceived := channelStats[index].messagesReceived + 1,
        bytesReceived := channelStats[index].bytesReceived + length)];
    }

    /** `onDataChannelMessageEcho`: count the message, send it back once
        with the same flag and length, count the resend if it went out. */
    method OnDataChannelMessageEcho(channel: DataChannel, isBinary: bool, message: seq<byte>)
      requires Valid()
      modifies this`channelStats, engine
      ensures Valid()
      ensures |engine.log| == |old(engine.log)| + 1 && old(engine.log) <= engine.log
      ensures var sent := engine.log[|old(engine.log)|];
              && sent.Send? && sent.target == channel && sent.isBinary == isBinary
              && sent.payload == message
              && channelStats == Record(old(channelStats), channel.name,
                                        Delta(1, if sent.ok then 1 else 0, |message|, false))
    {
      var i, found := CountReceived(channel.name, |message|);
      ghost var counted := channelStats;
      // An empty message goes out from a one-byte placeholder, with length 0.
      var buffer := if |message| == 0 then [0 as byte] else message;
      var ok := engine.Send(channel, isBinary, buffer[..|message|]);
      if ok {
        channelStats := AddSent(channelStats, i, 1);
      } else {
        AddSentZero(counted, i);
      }
      ghost var n := if ok then 1 else 0;
      RecordReceived(old(channelStats), channel.name, found, counted, channelStats, n, |message|);
    }

    /** Sends `payloads` in order as text on `channel`, going on after a
        failed send, and counts the successful ones in entry `index`. */
    method SendCounted(channel: DataChannel, index: nat, payloads: seq<seq<byte>>)
      requires Valid() && index < |channelStats|
      modifies this`channelStats, engine
      ensures Valid()
      ensures old(engine.log) <= engine.log
      ensures var calls := engine.log[|old(engine.log)|..];
              && SendsInOrder(calls, channel, false, payloads)
              && channelStats == AddSent(old(channelStats), index, SuccessfulSends(calls))
    {
      ghost var log0 := engine.log;
      ghost var sent: seq<Call> := [];
      AddSentZero(channelStats, index);
      var i := 0;
      while i < |payloads|
        invariant 0 <= i <= |payloads|
        invariant engine.log == log0 + sent
        invariant SendsInOrder(sent, channel, false, payloads[..i])
        invariant channelStats == AddSent(old(channelStats), index, SuccessfulSends(sent))
      {
        var ok := engine.Send(channel, false, payloads[i]);
        ghost var c := Call.Send(channel, false, payloads[i], ok);
        SendsSnoc(sent, channel, false, payloads, i, ok);
        AppendAssoc(log0, sent, [c]);
        if ok {
          channelStats := AddSent(channelStats, index, 1);
          AddSentTwice(old(channelStats), index, SuccessfulSends(sent), 1);
        }
        sent := sent + [c];
        i := i + 1;
      }
      assert payloads[..i] == payloads;
      assert engine.log[|log0|..] == sent;
    }

    /** `onDataChannelMessageBurst`: count the message; one of at least
        five bytes triggers the fifty `server-msg-<i>` sends. */
    method OnDataChannelMessageBurst(channel: DataChannel, isBinary: bool, message: seq<byte>)
      requires Valid()
      modifies this`channelStats, engine
      ensures Valid()
      ensures old(engine.log) <= engine.log
      ensures var calls := engine.log[|old(engine.log)|..];
              && SendsInOrder(calls, channel, false,
                   if |message| >= BURST_TRIGGER_LEN then ServerMsgPayloads(BURST_COUNT) else [])
              && channelStats == Record(old(channelStats), channel.name,
                                        Delta(1, SuccessfulSends(calls), |message|, false))
    {
      var i, found := CountReceived(channel.name, |message|);
      ghost var counted := channelStats;
      ghost var base := |engine.log|;
      if |message| >= BURST_TRIGGER_LEN {
        SendCounted(channel, i, ServerMsgPayloads(BURST_COUNT));
      }
      ghost var n := SuccessfulSends(engine.log[base..]);
      if |message| < BURST_TRIGGER_LEN {
        assert engine.log[base..] == [];
        AddSentZero(counted, i);
      }
      RecordReceived(old(channelStats), channel.name, found, counted, channelStats, n, |message|);
    }

    /** The 1024-byte pattern buffer of `server-sends-binary`. */
    method FillPattern() returns (pattern: array<byte>)
      ensures pattern.Length == PATTERN_LEN && pattern[..] == BinaryPattern()
    {
      pattern := new byte[PATTERN_LEN];
      var i := 0;
      while i < PATTERN_LEN
        invariant 0 <= i <= PATTERN_LEN
        invariant forall k | 0 <= k < i :: pattern[k] as int == k % 256
      {
        pattern[i] := (i % 256) as byte;
        i := i + 1;
      }
      assert pattern[..] == BinaryPattern();
    }

    /** `onServerChannelOpen`: mark the channel open, then act on the
        current scenario. */
    method OnServerChannelOpen(channel: DataChannel)
      requires Valid()
      modifies this`channelStats, engine
      ensures Valid()
      ensures old(engine.log) <= engine.log
      ensures var calls := engine.log[|old(engine.log)|..];
              var action := OpenActionOf(currentTest);
              && SendsInOrder(calls, channel, OpenIsBinary(action), OpenPayloads(action))
              && channelStats == Record(old(channelStats), channel.name, Delta(0, OpenSent(action, calls), 0, true))
    {
      ghost var log0 := engine.log;
      var i, found := MarkOpen(channel.name);
      ghost var marked := channelStats;
      assert engine.log == log0;
      ghost var calls := RunOpenAction(channel, i);
      assert engine.log[|log0|..] == calls;
      RecordOpened(old(channelStats), channel.name, found, marked, channelStats,
                   OpenSent(OpenActionOf(currentTest), calls));
    }

    /** The start of the open handlers: find or create the channel's entry
        and mark it open. */
    method MarkOpen(name: string) returns (index: nat, ghost found: Found)
      requires Valid()
      modifies this`channelStats
      ensures Valid()
      ensures found == FindOrCreate(old(channelStats), name) && index == found.index
      ensures channelStats == found.registry[index := found.registry[index].(isOpen := true)]
    {
      index := FindOrCreateStats(name);
      found := FindOrCreate(old(channelStats), name);
      channelStats := channelStats[index := channelStats[index].(isOpen := true)];
    }

    /** The scenario part of `onServerChannelOpen`, on entry `index`. The
        single sends of `server-creates-dc` and `server-sends-binary` are
        counted whether or not they succeed. */
    method RunOpenAction(channel: DataChannel, index: nat) returns (ghost calls: seq<Call>)
      requires Valid() && index < |channelStats|
      modifies this`channelStats, engine
      ensures Valid()
      ensures engine.log == old(engine.log) + calls
      ensures var action := OpenActionOf(currentTest);
              && SendsInOrder(calls, channel, OpenIsBinary(action), OpenPayloads(action))
              && channelStats == AddSent(old(channelStats), index, OpenSent(action, calls))
    {
      ghost var log0 := engine.log;
      match OpenActionOf(currentTest) {
      case SendHello =>
        SendAndCount(channel, index, false, Ascii(HELLO));
      case SendPattern =>
        var pattern := FillPattern();
        SendAndCount(channel, index, true, pattern[..]);
      case SendBurst =>
        SendCounted(channel, index, ServerBurstPayloads(BURST_COUNT));
      case NoAction =>
        AddSentZero(channelStats, index);
      }
      calls := engine.log[|log0|..];
    }

    /** One send whose status is not checked: it is counted as sent either way. */
    method SendAndCount(channel: DataChannel, index: nat, isBinary: bool, payload: seq<byte>)
      requires Valid() && index < |channelStats|
      modifies this`channelStats, engine
      ensures Valid()
      ensures |engine.log| == |old(engine.log)| + 1 && old(engine.log) <= engine.log
      ensures SendsInOrder(engine.log[|old(engine.log)|..], channel, isBinary, [payload])
      ensures channelStats == AddSent(old(channelStats), index, 1)
    {
      var status := engine.Send(channel, isBinary, payload);
      channelStats := AddSent(channelStats, index, 1);
    }

    /** `onDataChannel`: a channel the browser opened is marked open and
        always gets the echo handler, whatever the scenario. */
    method OnDataChannel(channel: DataChannel)
      requires Valid()
      modifies this`channelStats, engine
      ensures Valid()
      ensures channelStats == Record(old(channelStats), channel.name, Delta(0, 0, 0, true))
      ensures engine.log == old(engine.log) + [DataChannelOnMessage(channel, MessageEcho)]
    {
      var i := FindOrCreateStats(channel.name);
      channelStats := channelStats[i := channelStats[i].(isOpen := true)];
      engine.DataChannelOnMessage(channel, MessageEcho);
    }

    /** The `createChannel` step of `configureForTest`: nothing once the
        table is full; otherwise one creation, and on success the channel is
        stored, bound to the open and echo handlers, and counted. */
    method CreateChannel(name: string, init: Option<ChannelInit>, ghost created: seq<DataChannel>)
      returns (ghost calls: seq<Call>)
      requires Valid() && peerConnection.Some? && ChannelTable(created)
      modifies this`serverChannelCount, serverChannels, engine
      ensures Valid()
      ensures engine.log == old(engine.log) + calls
      ensures old(serverChannelCount) <= serverChannelCount <= old(serverChannelCount) + 1
      ensures forall i | serverChannelCount <= i < MAX_TEST_CHANNELS :: serverChannels[i] == old(serverChannels[i])
      ensures if old(serverChannelCount) >= MAX_TEST_CHANNELS then
                && calls == [] && serverChannelCount == old(serverChannelCount)
                && serverChannels[..] == old(serverChannels[..]) && ChannelTable(created)
              else
                && CreationTrace(calls, peerConnection.value, [ChannelRequest(name, init)])
                && ChannelTable(created + Created(calls))
    {
      var idx := serverChannelCount;
      if idx >= MAX_TEST_CHANNELS {
        return [];
      }
      var pc := peerConnection.value;
      var channel := engine.CreateDataChannel(pc, name, init);
      if channel.Some? {
        StoreChannel(channel.value, created);
      }
      calls := CreationCalls(pc, ChannelRequest(name, init), channel);
      CreationCallsTrace(pc, ChannelRequest(name, init), channel);
    }

    /** A created channel goes into the next free slot, gets the open and
        echo handlers, and is counted. */
    method StoreChannel(channel: DataChannel, ghost created: seq<DataChannel>)
      requires Valid() && ChannelTable(created) && serverChannelCount < MAX_TEST_CHANNELS
      modifies this`serverChannelCount, serverChannels, engine
      ensures Valid()
      ensures serverChannelCount == old(serverChannelCount) + 1
      ensures ChannelTable(created + [channel])
      ensures forall i | serverChannelCount <= i < MAX_TEST_CHANNELS :: serverChannels[i] == old(serverChannels[i])
      ensures engine.log == old(engine.log)
                + [DataChannelOnOpen(channel, ServerChannelOpen), DataChannelOnMessage(channel, MessageEcho)]
    {
      serverChannels[serverChannelCount] := Some(channel);
      engine.DataChannelOnOpen(channel, ServerChannelOpen);
      engine.DataChannelOnMessage(channel, MessageEcho);
      serverChannelCount := serverChannelCount + 1;
    }

    /** `createChannel` on the empty table of a scenario with one server
        channel. */
    method CreateFirstChannel(name: string, init: Option<ChannelInit>) returns (ghost calls: seq<Call>)
      requires Valid() && peerConnection.Some? && serverChannelCount == 0
      modifies this`serverChannelCount, serverChannels, engine
      ensures Valid()
      ensures engine.log == old(engine.log) + calls
      ensures CreationTrace(calls, peerConnection.value, [ChannelRequest(name, init)])
      ensures ChannelTable(Created(calls))
      ensures forall i | serverChannelCount <= i < MAX_TEST_CHANNELS :: serverChannels[i] == old(serverChannels[i])
    {
      calls := CreateChannel(name, init, []);
      assert [] + Created(calls) == Created(calls);
    }

    /** `configureForTest`: record the scenario, restart the channel count,
        and create the scenario's server channels in order. */
    method ConfigureForTest(testName: string) returns (ghost calls: seq<Call>)
      requires Valid() && peerConnection.Some?
      modifies this`currentTest, this`serverChannelCount, serverChannels, engine
      ensures Valid()
      ensures currentTest == testName
      ensures engine.log == old(engine.log) + calls
      ensures CreationTrace(calls, peerConnection.value, Topology(testName))
      ensures ChannelTable(Created(calls))
      ensures forall i | serverChannelCount <= i < MAX_TEST_CHANNELS :: serverChannels[i] == old(serverChannels[i])
    {
      currentTest := testName;
      serverChannelCount := 0;
      if testName == SERVER_CREATES_DC {
        calls := CreateFirstChannel(DC_CHANNEL, None);
      } else if testName == SERVER_CREATES_UNORDERED {
        calls := CreateFirstChannel(UNORDERED_CHANNEL, Some(ChannelInit(false, None, None)));
      } else if testName == SERVER_CREATES_MAXRETRANSMITS {
        calls := CreateFirstChannel(MAXRETRANSMIT_CHANNEL, Some(ChannelInit(true, None, Some(3))));
      } else if testName == SERVER_CREATES_MAXLIFETIME {
        calls := CreateFirstChannel(MAXLIFETIME_CHANNEL, Some(ChannelInit(true, Some(1000), None)));
      } else if testName == SERVER_CREATES_MULTI {
        calls := CreateMultiChannels();
      } else if testName == BIDIRECTIONAL {
        calls := CreateFirstChannel(BIDIRECTIONAL_CHANNEL, None);
      } else if testName == SERVER_SENDS_BINARY {
        calls := CreateFirstChannel(BINARY_CHANNEL, None);
      } else if testName == BURST {
        calls := CreateFirstChannel(BURST_CHANNEL, None);
      } else {
        calls := [];
      }
    }

    /** The `server-creates-multi` branch of `configureForTest`: `srv-0` to
        `srv-4` with default options, on an empty table. */
    method CreateMultiChannels() returns (ghost calls: seq<Call>)
      requires Valid() && peerConnection.Some? && serverChannelCount == 0
      modifies this`serverChannelCount, serverChannels, engine
      ensures Valid()
      ensures engine.log == old(engine.log) + calls
      ensures CreationTrace(calls, peerConnection.value, MultiTopology())
      ensures ChannelTable(Created(calls))
      ensures forall i | serverChannelCount <= i < MAX_TEST_CHANNELS :: serverChannels[i] == old(serverChannels[i])
    {
      ghost var pc := peerConnection.value;
      ghost var log0 := engine.log;
      ghost var reqs := MultiTopology();
      ghost var trace: seq<Call> := [];
      var i := 0;
      while i < 5
        invariant 0 <= i <= 5
        invariant Valid() && peerConnection == Some(pc)
        invariant engine.log == log0 + trace
        invariant CreationTrace(trace, pc, reqs[..i])
        invariant ChannelTable(Created(trace))
        invariant serverChannelCount <= i
        invariant forall k | serverChannelCount <= k < MAX_TEST_CHANNELS :: serverChannels[k] == old(serverChannels[k])
      {
        ghost var step := CreateChannel(MultiName(i), None, Created(trace));
        assert reqs[i] == MultiRequest(i);
        CreationStep(trace, step, pc, reqs, i);
        AppendAssoc(log0, trace, step);
        trace := trace + step;
        i := i + 1;
      }
      assert reqs[..5] == reqs;
      calls := trace;
    }

    /** The ICE wait: poll until gathering is done or the deadline passes;
        the engine may deliver candidate callbacks during each sleep. */
    method WaitForIceGathering() returns (ghost polls: nat)
      modifies this`iceGatheringDone
      ensures polls <= ICE_POLL_LIMIT
      ensures old(iceGatheringDone) ==> iceGatheringDone && polls == 0
      ensures !iceGatheringDone ==> polls == ICE_POLL_LIMIT
    {
      var elapsed := 0;
      while !iceGatheringDone && elapsed < ICE_POLL_LIMIT
        invariant elapsed <= ICE_POLL_LIMIT
        invariant old(iceGatheringDone) ==> iceGatheringDone && elapsed == 0
      {
        var delivered := engine.Sleep();
        if delivered.Some? {
          OnIceCandidate(delivered.value);
        }
        elapsed := elapsed + 1;
      }
      polls := elapsed;
    }

    /** The cleanup of every failure after the peer connection exists: free
        it, clear the handle, answer with the failure's error. */
    method Fail(pc: PeerConnection, stage: OfferStage) returns (res: Response)
      requires stage != Answered
      modifies this`peerConnection, engine
      ensures peerConnection.None?
      ensures engine.log == old(engine.log) + [FreePeerConnection(pc)]
      ensures res == ErrorResponse(stage)
    {
      engine.FreePeerConnection(pc);
      peerConnection := None;
      res := ErrorResponse(stage);
    }

    /** `handleOffer` from `setRemoteDescription` on: each failure frees the
        connection and answers with its own error. */
    method CompleteHandshake(pc: PeerConnection) returns (res: Response, stage: OfferStage)
      requires peerConnection == Some(pc)
      modifies this`peerConnection, this`iceGatheringDone, engine
      ensures Configured(stage)
      ensures engine.log == old(engine.log) + StageTail(pc, stage, res.body)
      ensures stage != Answered ==> res == ErrorResponse(stage)
      ensures stage == Answered ==> res.status == 200
      ensures peerConnection == if stage == Answered then Some(pc) else None
      ensures iceGatheringDone == IceFlagAfter(stage, old(iceGatheringDone))
      ensures old(iceGatheringDone) ==> stage != IceTimeout
    {
      ghost var log0 := engine.log;
      var ok := engine.SetRemoteDescription(pc);
      if !ok {
        stage := RemoteFailed;
        res := Fail(pc, stage);
        assert engine.log == log0 + [SetRemoteDescription(pc, false), FreePeerConnection(pc)];
        return;
      }
      ok := engine.SetLocalDescription(pc);
      ghost var log1 := engine.log;
      assert log1 == log0 + [SetRemoteDescription(pc, true), SetLocalDescription(pc, ok)];
      if !ok {
        stage := LocalFailed;
        res := Fail(pc, stage);
        assert engine.log == log1 + [FreePeerConnection(pc)];
        return;
      }
      ghost var polls := WaitForIceGathering();
      if !iceGatheringDone {
        stage := IceTimeout;
        res := Fail(pc, stage);
        assert engine.log == log1 + [FreePeerConnection(pc)];
        return;
      }
      ok := engine.CreateAnswer(pc);
      ghost var log2 := engine.log;
      assert log2 == log1 + [CreateAnswer(pc, ok)];
      if !ok {
        stage := AnswerFailed;
        res := Fail(pc, stage);
        assert engine.log == log2 + [FreePeerConnection(pc)];
        return;
      }
      var answer := engine.SerializeAnswer();
      ghost var log3 := engine.log;
      assert log3 == log2 + [SerializeAnswer(answer)];
      if answer.None? {
        stage := SerializeFailed;
        res := Fail(pc, stage);
        assert engine.log == log3 + [FreePeerConnection(pc)];
        return;
      }
      stage := Answered;
      res := Response(200, answer.value);
    }

    /** The first steps of `handleOffer` on a free session: copy the SDP
        text, parse the offer, create the peer connection with the local ICE
        timeouts and register its three callbacks. */
    method StartPeerConnection(body: string) returns (failure: Option<OfferStage>, ghost calls: seq<Call>)
      requires peerConnection.None?
      modifies this`peerConnection, engine
      ensures failure.Some? ==> EarlyFailure(failure.value)
      ensures failure.None? <==> peerConnection.Some?
      ensures engine.log == old(engine.log) + calls
      ensures match failure
              case Some(stage) => calls == StartCalls(body, rtcConfig, stage)
              case None => calls == Prologue(body, rtcConfig, peerConnection.value)
    {
      var sdpCopied := engine.MemAlloc(|body| + 1);
      if !sdpCopied {
        failure, calls := Some(AllocFailed), [MemAlloc(|body| + 1, false)];
        return;
      }
      var parsed := engine.DeserializeOffer(body);
      if !parsed {
        failure, calls := Some(ParseFailed), [MemAlloc(|body| + 1, true), DeserializeOffer(body, false)];
        return;
      }
      var created := engine.CreatePeerConnection(rtcConfig);
      peerConnection := created;
      if created.None? {
        failure, calls := Some(CreateFailed), StartCalls(body, rtcConfig, CreateFailed);
        return;
      }
      var pc := created.value;
      engine.PeerConnectionOn(pc, IceCandidate);
      engine.PeerConnectionOn(pc, ConnectionStateChange);
      engine.PeerConnectionOn(pc, RemoteDataChannel);
      failure, calls := None, Prologue(body, rtcConfig, pc);
    }

    /** `handleOffer` (`POST /offer?test=<name>`): refused while a peer
        connection exists, otherwise negotiated from scratch. `calls` are
        the engine calls it made. */
    method HandleOffer(req: Request) returns (res: Response, stage: OfferStage, ghost calls: seq<Call>)
      requires Valid()
      modifies this`peerConnection, this`currentTest, this`serverChannelCount, this`iceGatheringDone,
               serverChannels, engine
      ensures Valid()
      ensures engine.log == old(engine.log) + calls
      ensures (stage == Conflict) == old(peerConnection).Some?
      ensures stage != Answered ==> res == ErrorResponse(stage)
      ensures stage == Answered ==> res.status == 200
      ensures stage == Conflict ==> calls == []
      ensures !Configured(stage) ==>
                && peerConnection == old(peerConnection) && currentTest == old(currentTest)
                && serverChannelCount == old(serverChannelCount)
                && iceGatheringDone == old(iceGatheringDone)
                && serverChannels[..] == old(serverChannels[..])
      ensures EarlyFailure(stage) ==> calls == StartCalls(req.body, rtcConfig, stage)
      ensures Configured(stage) ==>
                && OfferTrace(calls, req.body, rtcConfig, TestName(req), stage, res.body)
                && currentTest == TestName(req)
                && ChannelTable(Created(calls))
                && peerConnection == if stage == Answered then calls[2].created else None
      ensures Configured(stage) ==> iceGatheringDone == IceFlagAfter(stage, old(iceGatheringDone))
      ensures old(iceGatheringDone) ==> stage != IceTimeout
    {
      var testName := "echo";
      if "test" in req.params {
        testName := req.params["test"];
      }
      if peerConnection.Some? {
        stage := Conflict;
        res := ErrorResponse(stage);
        calls := [];
        return;
      }
      res, stage, calls := OfferOnFreeSession(req.body, testName);
    }

    /** `handleOffer` past its conflict check. */
    method OfferOnFreeSession(body: string, testName: string)
      returns (res: Response, stage: OfferStage, ghost calls: seq<Call>)
      requires Valid() && peerConnection.None?
      modifies this`peerConnection, this`currentTest, this`serverChannelCount, this`iceGatheringDone,
               serverChannels, engine
      ensures Valid()
      ensures engine.log == old(engine.log) + calls
      ensures stage != Conflict
      ensures stage != Answered ==> res == ErrorResponse(stage)
      ensures stage == Answered ==> res.status == 200
      ensures !Configured(stage) ==>
                && peerConnection.None? && currentTest == old(currentTest)
                && serverChannelCount == old(serverChannelCount)
                && iceGatheringDone == old(iceGatheringDone)
                && serverChannels[..] == old(serverChannels[..])
      ensures EarlyFailure(stage) ==> calls == StartCalls(body, rtcConfig, stage)
      ensures Configured(stage) ==>
                && OfferTrace(calls, body, rtcConfig, testName, stage, res.body)
                && currentTest == testName
                && ChannelTable(Created(calls))
                && peerConnection == if stage == Answered then calls[2].created else None
      ensures Configured(stage) ==> iceGatheringDone == IceFlagAfter(stage, old(iceGatheringDone))
      ensures old(iceGatheringDone) ==> stage != IceTimeout
    {
      var failure;
      ghost var started;
      failure, started := StartPeerConnection(body);
      if failure.Some? {
        stage := failure.value;
        res := ErrorResponse(stage);
        calls := started;
        return;
      }
      ghost var pc := peerConnection.value;
      ghost var rest;
      res, stage, rest := Negotiate(testName);
      AppendAssoc(old(engine.log), started, rest);
      calls := started + rest;
      ComposeOffer(body, rtcConfig, testName, pc, stage, res.body, rest);
    }

    /** The rest of `handleOffer` once the peer connection exists: configure
        the scenario, then complete the handshake. */
    method Negotiate(testName: string) returns (res: Response, stage: OfferStage, ghost calls: seq<Call>)
      requires Valid() && peerConnection.Some?
      modifies this`currentTest, this`serverChannelCount, this`peerConnection, this`iceGatheringDone,
               serverChannels, engine
      ensures Valid()
      ensures Configured(stage)
      ensures engine.log == old(engine.log) + calls
      ensures stage != Answered ==> res == ErrorResponse(stage)
      ensures stage == Answered ==> res.status == 200
      ensures NegotiationTrace(calls, old(peerConnection).value, testName, stage, res.body)
      ensures ChannelTable(Created(calls))
      ensures currentTest == testName
      ensures peerConnection == if stage == Answered then old(peerConnection) else None
      ensures iceGatheringDone == IceFlagAfter(stage, old(iceGatheringDone))
      ensures old(iceGatheringDone) ==> stage != IceTimeout
    {
      var pc := peerConnection.value;
      ghost var configured := ConfigureForTest(testName);
      res, stage := CompleteHandshake(pc);
      AppendAssoc(old(engine.log), configured, StageTail(pc, stage, res.body));
      calls := configured + StageTail(pc, stage, res.body);
      ComposeNegotiation(pc, testName, stage, res.body, configured);
    }

    /** `handleReset` (`POST /reset`): free any connection and return to the
        idle state; always answers 200. */
    method HandleReset() returns (res: Response)
      requires Valid()
      modifies this, engine
      ensures Valid() && Idle()
      ensures res == Response(200, RESET_OK)
      ensures engine.log == old(engine.log)
                + if old(peerConnection).Some? then [FreePeerConnection(old(peerConnection).value)] else []
    {
      if peerConnection.Some? {
        engine.FreePeerConnection(peerConnection.value);
        peerConnection := None;
      }
      iceGatheringDone := false;
      connectionState := StateNone;
      currentTest := "";
      serverChannelCount := 0;
      channelStats := [];
      res := Response(200, RESET_OK);
    }

    /** `handleResults` (`GET /results`): the scenario and every registry
        entry, in registry order; nothing changes. */
    method HandleResults() returns (res: Response)
      ensures res == Response(200, ResultsJson(currentTest, channelStats))
    {
      var listing := "";
      var i := 0;
      while i < |channelStats|
        invariant 0 <= i <= |channelStats|
        invariant listing == ChannelsJson(channelStats[..i])
      {
        ChannelsJsonPrefix(channelStats, i);
        if i > 0 {
          listing := listing + ",";
        }
        listing := listing + ChannelJson(channelStats[i]);
        i := i + 1;
      }
      assert channelStats[..i] == channelStats;
      var json := ResultsHead(currentTest) + listing + "]}";
      res := Response(200, json);
    }
  }

  /** Resetting twice is resetting once: the second reset frees nothing and
      answers the same. */
  method ResetTwice(session: TestSession) returns (first: Response, second: Response)
    requires session.Valid()
    modifies session, session.engine
    ensures session.Valid() && session.Idle() && first == second
    ensures session.engine.log == old(session.engine.log)
              + if old(session.peerConnection).Some? then [FreePeerConnection(old(session.peerConnection).value)] else []
  {
    first := session.HandleReset();
    second := session.HandleReset();
  }
}
