/** The per-channel statistics registry: an ordered sequence of entries, one
    per channel name observed in the current session, in first-observed
    order. `findOrCreateStats` is a linear find-or-append by name; every event
    handler then adjusts the counters of the entry it got back. `Record`
    describes that whole step (find-or-create, then add a `Delta`). */
module Stats {
  import opened Util

  datatype ChannelStats = ChannelStats(
    name: string,
    messagesReceived: nat,
    messagesSent: nat,
    bytesReceived: nat,
    isOpen: bool)

  /** The entry appended for a name seen for the first time. */
  function Fresh(name: string): ChannelStats {
    ChannelStats(name, 0, 0, 0, false)
  }

  ghost predicate UniqueNames(s: seq<ChannelStats>) {
    forall i, j | 0 <= i < j < |s| :: s[i].name != s[j].name
  }

  /** The position of the first entry called `name`, if any. */
  function IndexOf(s: seq<ChannelStats>, name: string): (r: Option<nat>)
    ensures r.Some? ==> r.value < |s| && s[r.value].name == name
    ensures r.Some? ==> forall j | 0 <= j < r.value :: s[j].name != name
    ensures r.None? <==> forall j | 0 <= j < |s| :: s[j].name != name
  {
    if s == [] then None
    else if s[0].name == name then Some(0)
    else match IndexOf(s[1..], name)
      case None => None
      case Some(k) => Some(k + 1)
  }

  /** The entry a handler would find for `name`: the registered one, or the
      fresh one it would append. */
  function Lookup(s: seq<ChannelStats>, name: string): ChannelStats {
    match IndexOf(s, name)
    case Some(i) => s[i]
    case None => Fresh(name)
  }

  datatype Found = Found(registry: seq<ChannelStats>, index: nat)

  /** `findOrCreateStats`: the registry afterwards and the position of the
      entry handed back. */
  function FindOrCreate(s: seq<ChannelStats>, name: string): (r: Found)
    ensures r.index < |r.registry| && r.registry[r.index] == Lookup(s, name)
    ensures r.registry[r.index].name == name
    ensures (r.registry == s) <==> IndexOf(s, name).Some?
    ensures IndexOf(s, name).Some? ==> r.index == IndexOf(s, name).value
    ensures IndexOf(s, name).None? ==> r.registry == s + [Fresh(name)] && r.index == |s|
    ensures UniqueNames(s) ==> UniqueNames(r.registry)
  {
    match IndexOf(s, name)
    case Some(i) => Found(s, i)
    case None => Found(s + [Fresh(name)], |s|)
  }

  /** Finding a name a second time changes nothing and hands back the same
      entry. */
  lemma FindOrCreateIdempotent(s: seq<ChannelStats>, name: string)
    ensures var f := FindOrCreate(s, name);
            FindOrCreate(f.registry, name) == f
  {
    var f := FindOrCreate(s, name);
    if IndexOf(s, name).None? {
      var k := IndexOf(f.registry, name);
      assert f.registry[|s|].name == name;
      assert k.Some? && k.value == |s|;
    }
  }

  /** What one handler invocation adds to an entry. */
  datatype Delta = Delta(received: nat, sent: nat, bytes: nat, opens: bool)

  function Apply(c: ChannelStats, d: Delta): ChannelStats {
    c.(messagesReceived := c.messagesReceived + d.received,
       messagesSent := c.messagesSent + d.sent,
       bytesReceived := c.bytesReceived + d.bytes,
       isOpen := c.isOpen || d.opens)
  }

  /** Two deltas applied one after the other, as one. */
  function Combine(d1: Delta, d2: Delta): Delta {
    Delta(d1.received + d2.received, d1.sent + d2.sent, d1.bytes + d2.bytes, d1.opens || d2.opens)
  }

  lemma ApplyCombine(c: ChannelStats, d1: Delta, d2: Delta)
    ensures Apply(Apply(c, d1), d2) == Apply(c, Combine(d1, d2))
  {
  }

  /** Find-or-create the entry named `name`, then add `d` to it. */
  function Record(s: seq<ChannelStats>, name: string, d: Delta): (r: seq<ChannelStats>)
    ensures |r| == |s| + (if IndexOf(s, name).Some? then 0 else 1)
    ensures forall i | 0 <= i < |s| && i != FindOrCreate(s, name).index :: r[i] == s[i]
    ensures r[FindOrCreate(s, name).index] == Apply(Lookup(s, name), d)
    ensures UniqueNames(s) ==> UniqueNames(r)
  {
    var f := FindOrCreate(s, name);
    f.registry[f.index := Apply(f.registry[f.index], d)]
  }

  /** `n` more sends counted in entry `index`. */
  function AddSent(s: seq<ChannelStats>, index: nat, n: nat): (r: seq<ChannelStats>)
    requires index < |s|
    ensures |r| == |s|
  {
    s[index := s[index].(messagesSent := s[index].messagesSent + n)]
  }

  lemma AddSentZero(s: seq<ChannelStats>, index: nat)
    requires index < |s|
    ensures AddSent(s, index, 0) == s
  {
  }

  lemma AddSentTwice(s: seq<ChannelStats>, index: nat, a: nat, b: nat)
    requires index < |s|
    ensures AddSent(AddSent(s, index, a), index, b) == AddSent(s, index, a + b)
  {
  }

  /** `Record` as the message handlers write it: on the entry `FindOrCreate`
      hands back, count the message and its bytes, then the sends. */
  lemma RecordReceived(s: seq<ChannelStats>, name: string, found: Found, counted: seq<ChannelStats>,
                       final: seq<ChannelStats>, sent: nat, bytes: nat)
    requires found == FindOrCreate(s, name)
    requires counted == found.registry[found.index := found.registry[found.index].(
               messagesReceived := found.registry[found.index].messagesReceived + 1,
               bytesReceived := found.registry[found.index].bytesReceived + bytes)]
    requires final == AddSent(counted, found.index, sent)
    ensures final == Record(s, name, Delta(1, sent, bytes, false))
  {
  }

  /** `Record` as the open handler writes it: mark the entry open, then
      count the sends. */
  lemma RecordOpened(s: seq<ChannelStats>, name: string, found: Found, marked: seq<ChannelStats>,
                     final: seq<ChannelStats>, sent: nat)
    requires found == FindOrCreate(s, name)
    requires marked == found.registry[found.index := found.registry[found.index].(isOpen := true)]
    requires final == AddSent(marked, found.index, sent)
    ensures final == Record(s, name, Delta(0, sent, 0, true))
  {
  }

  /** After `Record` the name is found where `FindOrCreate` put it. */
  lemma RecordIndex(s: seq<ChannelStats>, name: string, d: Delta)
    ensures IndexOf(Record(s, name, d), name) == Some(FindOrCreate(s, name).index)
  {
    var f := FindOrCreate(s, name);
    var r := Record(s, name, d);
    assert r[f.index].name == name;
  }

  /** After `Record`, looking the name up gives the old entry plus the delta,
      and every other name looks up exactly as before. */
  lemma RecordLookup(s: seq<ChannelStats>, name: string, d: Delta, other: string)
    ensures Lookup(Record(s, name, d), name) == Apply(Lookup(s, name), d)
    ensures other != name ==> Lookup(Record(s, name, d), other) == Lookup(s, other)
  {
    var f := FindOrCreate(s, name);
    var r := Record(s, name, d);
    RecordIndex(s, name, d);
    if other != name {
      var ko := IndexOf(s, other);
      var kr := IndexOf(r, other);
      match ko
      case Some(i) =>
        assert r[i] == s[i];
        assert kr.Some? && kr.value == i;
      case None =>
        forall j | 0 <= j < |r| ensures r[j].name != other {
          if j < |s| && j != f.index { assert r[j] == s[j]; }
        }
    }
  }

  /** Two events on the same channel add up: recording `d1` then `d2` is
      recording their sum once. */
  lemma RecordTwice(s: seq<ChannelStats>, name: string, d1: Delta, d2: Delta)
    ensures Record(Record(s, name, d1), name, d2) == Record(s, name, Combine(d1, d2))
  {
    var f := FindOrCreate(s, name);
    var x := f.registry[f.index];
    var r1 := Record(s, name, d1);
    RecordIndex(s, name, d1);
    assert FindOrCreate(r1, name) == Found(r1, f.index);
    ApplyCombine(x, d1, d2);
    assert r1[f.index := Apply(r1[f.index], d2)] == f.registry[f.index := Apply(x, Combine(d1, d2))];
  }
}
