/** The JSON text of `GET /results`: the current scenario name and one object
    per registry entry, in registry order. Names are inserted without
    escaping, as the server does. */
module Results {
  import opened Util
  import opened Stats

  function BoolText(b: bool): string {
    if b then "true" else "false"
  }

  const NAME_OPEN: string := "{\"name\": \""

  /** The object the server prints for one channel: the name verbatim right
      after the opening key, the closing brace last. */
  function ChannelJson(c: ChannelStats): (r: string)
    ensures |r| > |NAME_OPEN| + |c.name|
    ensures r[..|NAME_OPEN|] == NAME_OPEN && r[|NAME_OPEN|..|NAME_OPEN| + |c.name|] == c.name
    ensures r[|r| - 1] == '}'
  {
    NAME_OPEN + c.name
    + "\", \"messagesReceived\": " + Decimal(c.messagesReceived)
    + ", \"messagesSent\": " + Decimal(c.messagesSent)
    + ", \"bytesReceived\": " + Decimal(c.bytesReceived)
    + ", \"opened\": " + BoolText(c.isOpen) + "}"
  }

  /** The comma between two listed channels. */
  function Sep(between: bool): string {
    if between then "," else ""
  }

  /** `parts`, separated by commas. */
  function Join(parts: seq<string>): string {
    if parts == [] then ""
    else Join(parts[..|parts| - 1]) + Sep(|parts| > 1) + parts[|parts| - 1]
  }

  /** The objects of the channels of `s`, one per entry, in order. */
  function Objects(s: seq<ChannelStats>): (r: seq<string>)
    ensures |r| == |s|
  {
    seq(|s|, i requires 0 <= i < |s| => ChannelJson(s[i]))
  }

  /** The channel objects of `s`, separated by commas. */
  function ChannelsJson(s: seq<ChannelStats>): string {
    Join(Objects(s))
  }

  /** Appending a part appends it after a comma. */
  lemma JoinSnoc(parts: seq<string>, p: string)
    ensures Join(parts + [p]) == Join(parts) + Sep(parts != []) + p
  {
    assert (parts + [p])[..|parts|] == parts;
  }

  lemma {:induction false} JoinConcat(a: seq<string>, b: seq<string>)
    ensures Join(a + b) == Join(a) + Sep(a != [] && b != []) + Join(b)
  {
    if b == [] {
      assert a + b == a;
    } else if a == [] {
      assert a + b == b;
    } else {
      var init, last := b[..|b| - 1], b[|b| - 1];
      assert b == init + [last];
      if init == [] {
        JoinSnoc(a, last);
        JoinSnoc([], last);
      } else {
        JoinConcat(a, init);
        JoinConcatStep(a, init, last);
      }
    }
  }

  /** The inductive step of `JoinConcat`: one more part at the end. */
  lemma JoinConcatStep(a: seq<string>, init: seq<string>, last: string)
    requires a != [] && init != []
    requires Join(a + init) == Join(a) + "," + Join(init)
    ensures Join(a + (init + [last])) == Join(a) + "," + Join(init + [last])
  {
    AppendAssoc(a, init, [last]);
    JoinSnoc(a + init, last);
    JoinSnoc(init, last);
    Regroup(Join(a), ",", Join(init), ",", last);
  }

  lemma Regroup(x: string, s: string, y: string, t: string, z: string)
    ensures (x + s + y) + t + z == x + s + (y + t + z)
  {
  }

  const TEST_OPEN: string := "{\"test\": \""

  /** The text before the listing: the scenario name verbatim after the
      opening key, then the opening of the channel array. */
  function ResultsHead(test: string): (r: string)
    ensures |r| > |TEST_OPEN| + |test|
    ensures r[..|TEST_OPEN|] == TEST_OPEN && r[|TEST_OPEN|..|TEST_OPEN| + |test|] == test
    ensures r[|r| - 1] == '['
  {
    TEST_OPEN + test + "\", \"channels\": ["
  }

  /** The whole `/results` text: the head, the channel listing, and the
      closing of the array and the object. */
  function ResultsJson(test: string, s: seq<ChannelStats>): (r: string)
    ensures |r| == |ResultsHead(test)| + |ChannelsJson(s)| + 2
    ensures r[..|ResultsHead(test)|] == ResultsHead(test)
    ensures r[|ResultsHead(test)|..|r| - 2] == ChannelsJson(s)
    ensures r[|r| - 2..] == "]}"
  {
    ResultsHead(test) + ChannelsJson(s) + "]}"
  }

  /** The listing of a registry is the listing of its first part followed by
      the listing of the rest: channels come out in registry order, each
      exactly once. */
  lemma ChannelsJsonConcat(a: seq<ChannelStats>, b: seq<ChannelStats>)
    ensures ChannelsJson(a + b) == ChannelsJson(a) + Sep(a != [] && b != []) + ChannelsJson(b)
  {
    assert Objects(a + b) == Objects(a) + Objects(b);
    JoinConcat(Objects(a), Objects(b));
  }

  /** The listing of the first i + 1 entries extends that of the first i. */
  lemma ChannelsJsonPrefix(s: seq<ChannelStats>, i: nat)
    requires i < |s|
    ensures ChannelsJson(s[..i + 1]) == ChannelsJson(s[..i]) + Sep(i > 0) + ChannelJson(s[i])
  {
    assert s[..i + 1] == s[..i] + [s[i]];
    assert Objects(s[..i + 1]) == Objects(s[..i]) + [ChannelJson(s[i])];
    JoinSnoc(Objects(s[..i]), ChannelJson(s[i]));
  }

  /** The listing of one channel is its object. */
  lemma ChannelsJsonSingle(c: ChannelStats)
    ensures ChannelsJson([c]) == ChannelJson(c)
  {
    assert Objects([c]) == [] + [ChannelJson(c)];
    JoinSnoc([], ChannelJson(c));
  }

  /** What an idle server reports. */
  lemma IdleResults()
    ensures ResultsJson("", []) == "{\"test\": \"\", \"channels\": []}"
  {
  }
}
