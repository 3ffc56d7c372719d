/** The test scenarios as data: which server channels each scenario name asks
    for (with their reliability options), and what the server sends when one
    of its channels opens or when a burst is triggered. */
module Scenario {
  import opened Util
  import opened Engine

  /** `MAX_TEST_CHANNELS`, the size of the server channel table. */
  const MAX_TEST_CHANNELS: nat := 16

  /** Messages sent by the burst handler and by the `burst` open action. */
  const BURST_COUNT: nat := 50

  /** The shortest inbound message that triggers the burst handler. */
  const BURST_TRIGGER_LEN: nat := 5

  /** Length of the binary pattern of `server-sends-binary`. */
  const PATTERN_LEN: nat := 1024

  const HELLO: string := "hello from server"

  const MSG_PREFIX: string := "server-msg-"
  const BURST_PREFIX: string := "server-burst-"

  /** `"server-msg-%d"`: plain ASCII, the number right after the prefix, and
      short enough for the 64-byte buffer it is printed into. */
  function ServerMsg(i: nat): (s: string)
    ensures IsAscii(s) && |s| > |MSG_PREFIX|
    ensures s[..|MSG_PREFIX|] == MSG_PREFIX && s[|MSG_PREFIX|..] == Decimal(i)
    ensures i < BURST_COUNT ==> |s| < 64
  {
    MSG_PREFIX + Decimal(i)
  }

  /** `"server-burst-%d"`, likewise. */
  function ServerBurst(i: nat): (s: string)
    ensures IsAscii(s) && |s| > |BURST_PREFIX|
    ensures s[..|BURST_PREFIX|] == BURST_PREFIX && s[|BURST_PREFIX|..] == Decimal(i)
    ensures i < BURST_COUNT ==> |s| < 64
  {
    BURST_PREFIX + Decimal(i)
  }

  /** The payloads of the burst handler, `server-msg-0` to `server-msg-(n-1)`. */
  function ServerMsgPayloads(n: nat): (r: seq<seq<byte>>)
    ensures |r| == n
  {
    seq(n, i requires 0 <= i < n => Ascii(ServerMsg(i)))
  }

  /** The payloads of the `burst` open action, `server-burst-0` to
      `server-burst-(n-1)`. */
  function ServerBurstPayloads(n: nat): (r: seq<seq<byte>>)
    ensures |r| == n
  {
    seq(n, i requires 0 <= i < n => Ascii(ServerBurst(i)))
  }

  /** The 1024-byte binary pattern: byte i is i mod 256. */
  function BinaryPattern(): (r: seq<byte>)
    ensures |r| == PATTERN_LEN
    ensures forall i | 0 <= i < |r| :: r[i] as int == i % 256
  {
    seq(PATTERN_LEN, i requires 0 <= i < PATTERN_LEN => (i % 256) as byte)
  }

  /** Every numbered message of a burst is distinct from every other, so a
      receiver can tell which ones arrived and in which order. */
  lemma ServerMsgsDistinct(i: nat, j: nat)
    requires i != j
    ensures Ascii(ServerMsg(i)) != Ascii(ServerMsg(j))
    ensures Ascii(ServerBurst(i)) != Ascii(ServerBurst(j))
  {
    AsciiInjective(ServerMsg(i), ServerMsg(j));
    AsciiInjective(ServerBurst(i), ServerBurst(j));
    DecimalInjective(i, j);
    PrefixCancel(MSG_PREFIX, Decimal(i), Decimal(j));
    PrefixCancel(BURST_PREFIX, Decimal(i), Decimal(j));
  }

  /** The scenario names that select a topology or an open action. */
  const SERVER_CREATES_DC: string := "server-creates-dc"
  const SERVER_CREATES_UNORDERED: string := "server-creates-unordered"
  const SERVER_CREATES_MAXRETRANSMITS: string := "server-creates-maxretransmits"
  const SERVER_CREATES_MAXLIFETIME: string := "server-creates-maxlifetime"
  const SERVER_CREATES_MULTI: string := "server-creates-multi"
  const BIDIRECTIONAL: string := "bidirectional"
  const SERVER_SENDS_BINARY: string := "server-sends-binary"
  const BURST: string := "burst"

  /** One `createChannel(name, pInit)` request; `init == None` is a NULL
      `pInit` (the engine's defaults). */
  datatype ChannelRequest = ChannelRequest(name: string, init: Option<ChannelInit>)

  /** The names of the single server channels of the scenarios. */
  const DC_CHANNEL: string := "server-channel"
  const UNORDERED_CHANNEL: string := "unordered-srv"
  const MAXRETRANSMIT_CHANNEL: string := "maxretransmit-srv"
  const MAXLIFETIME_CHANNEL: string := "maxlifetime-srv"
  const BIDIRECTIONAL_CHANNEL: string := "server-ch"
  const BINARY_CHANNEL: string := "binary-srv"
  const BURST_CHANNEL: string := "burst-srv"

  const MULTI_PREFIX: string := "srv-"

  /** `"srv-%d"`: the number right after the prefix; the five names fit the
      32-byte buffer they are printed into. */
  function MultiName(i: nat): (s: string)
    ensures |s| > |MULTI_PREFIX|
    ensures s[..|MULTI_PREFIX|] == MULTI_PREFIX && s[|MULTI_PREFIX|..] == Decimal(i)
    ensures i < 5 ==> |s| < 32
  {
    MULTI_PREFIX + Decimal(i)
  }

  /** The `i`-th channel of `server-creates-multi`, with default options. */
  function MultiRequest(i: nat): ChannelRequest {
    ChannelRequest(MultiName(i), None)
  }

  /** The server channels a scenario creates, in creation order. */
  function Topology(testName: string): (r: seq<ChannelRequest>)
    ensures |r| <= 5 < MAX_TEST_CHANNELS
    ensures forall i, j | 0 <= i < j < |r| :: r[i].name != r[j].name
  {
    if testName == SERVER_CREATES_DC then
      [ChannelRequest(DC_CHANNEL, None)]
    else if testName == SERVER_CREATES_UNORDERED then
      [ChannelRequest(UNORDERED_CHANNEL, Some(ChannelInit(false, None, None)))]
    else if testName == SERVER_CREATES_MAXRETRANSMITS then
      [ChannelRequest(MAXRETRANSMIT_CHANNEL, Some(ChannelInit(true, None, Some(3))))]
    else if testName == SERVER_CREATES_MAXLIFETIME then
      [ChannelRequest(MAXLIFETIME_CHANNEL, Some(ChannelInit(true, Some(1000), None)))]
    else if testName == SERVER_CREATES_MULTI then
      MultiTopology()
    else if testName == BIDIRECTIONAL then
      [ChannelRequest(BIDIRECTIONAL_CHANNEL, None)]
    else if testName == SERVER_SENDS_BINARY then
      [ChannelRequest(BINARY_CHANNEL, None)]
    else if testName == BURST then
      [ChannelRequest(BURST_CHANNEL, None)]
    else
      []
  }

  /** `server-creates-multi`: `srv-0` to `srv-4`, default options. */
  function MultiTopology(): (r: seq<ChannelRequest>)
    ensures |r| == 5
    ensures forall i | 0 <= i < 5 :: r[i] == MultiRequest(i)
    ensures forall i, j | 0 <= i < j < |r| :: r[i].name != r[j].name
  {
    var r := seq(5, i requires 0 <= i < 5 => MultiRequest(i));
    assert forall i, j | 0 <= i < j < 5 :: r[i].name != r[j].name by {
      forall i, j | 0 <= i < j < 5 ensures r[i].name != r[j].name {
        DecimalInjective(i, j);
        PrefixCancel(MULTI_PREFIX, Decimal(i), Decimal(j));
      }
    }
    r
  }

  /** The names that have a topology; every other name, `echo` included,
      creates no server channel. */
  const KnownScenarios: set<string> := {
    SERVER_CREATES_DC, SERVER_CREATES_UNORDERED, SERVER_CREATES_MAXRETRANSMITS,
    SERVER_CREATES_MAXLIFETIME, SERVER_CREATES_MULTI, BIDIRECTIONAL, SERVER_SENDS_BINARY, BURST
  }

  /** The scenarios' reliability options and channel counts. */
  lemma TopologyTable(testName: string)
    ensures testName == SERVER_CREATES_MAXRETRANSMITS ==>
      Topology(testName) == [ChannelRequest(MAXRETRANSMIT_CHANNEL, Some(ChannelInit(true, None, Some(3))))]
    ensures testName == SERVER_CREATES_MAXLIFETIME ==>
      Topology(testName) == [ChannelRequest(MAXLIFETIME_CHANNEL, Some(ChannelInit(true, Some(1000), None)))]
    ensures testName == SERVER_CREATES_UNORDERED ==>
      |Topology(testName)| == 1 && Topology(testName)[0].init.Some? && !Topology(testName)[0].init.value.ordered
    ensures testName == SERVER_CREATES_MULTI ==>
      |Topology(testName)| == 5 && forall i | 0 <= i < 5 :: Topology(testName)[i].name == MultiName(i)
    ensures (testName in KnownScenarios) == (Topology(testName) != [])
  {
  }

  /** What the open handler of a server channel does, by scenario. */
  datatype OpenAction = SendHello | SendPattern | SendBurst | NoAction

  function OpenActionOf(testName: string): (r: OpenAction)
    ensures r == NoAction <==> !(testName == SERVER_CREATES_DC || testName == SERVER_SENDS_BINARY || testName == BURST)
    ensures r != NoAction ==> testName in KnownScenarios && |Topology(testName)| == 1
  {
    if testName == SERVER_CREATES_DC then SendHello
    else if testName == SERVER_SENDS_BINARY then SendPattern
    else if testName == BURST then SendBurst
    else NoAction
  }

  /** The sends of an open action, in order, and whether they are binary. */
  function OpenPayloads(a: OpenAction): (r: seq<seq<byte>>)
    ensures a == SendHello ==> r == [Ascii(HELLO)]
    ensures a == SendPattern ==> r == [BinaryPattern()]
    ensures a == SendBurst ==> |r| == BURST_COUNT && forall i | 0 <= i < |r| :: r[i] == Ascii(ServerBurst(i))
    ensures a == NoAction <==> r == []
  {
    match a
    case SendHello => [Ascii(HELLO)]
    case SendPattern => [BinaryPattern()]
    case SendBurst => ServerBurstPayloads(BURST_COUNT)
    case NoAction => []
  }

  /** Only the pattern goes out as binary; hello and the burst are text. */
  function OpenIsBinary(a: OpenAction): (r: bool)
    ensures r <==> a == SendPattern
    ensures r ==> |OpenPayloads(a)| == 1 && |OpenPayloads(a)[0]| == PATTERN_LEN
  {
    a == SendPattern
  }
}
