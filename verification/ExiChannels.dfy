// Value channels (Efficient XML Interchange 1.0, sections 9.1 to 9.3): within a block the values are
// grouped by qualified name, each group in document order, and the groups follow one another or are
// spread over streams. The event records carry the groups as linked lists through one array.
module ExiChannels {
  import opened Common
  import opened ExiBits
  import opened ExiValues
  import opened ExiStrings
  import opened Utf8

  /** Per event of a block: the qualified name of its channel, if its value travels in one. */
  type Keys = seq<Option<nat>>

  /** The events of a channel, in document order. */
  function Members(keys: Keys, qname: nat): seq<nat> {
    if |keys| == 0 then []
    else
      var front := Members(keys[..|keys| - 1], qname);
      if keys[|keys| - 1] == Some(qname) then front + [|keys| - 1] else front
  }

  /** The channels, in the order of their first events. */
  function Order(keys: Keys): seq<nat> {
    if |keys| == 0 then []
    else
      var front := Order(keys[..|keys| - 1]);
      match keys[|keys| - 1]
      case None => front
      case Some(qname) => if qname in front then front else front + [qname]
  }

  /** How many values travel in channels. */
  function Channelled(keys: Keys): nat {
    if |keys| == 0 then 0 else Channelled(keys[..|keys| - 1]) + if keys[|keys| - 1].Some? then 1 else 0
  }

  lemma ChannelledNext(keys: Keys, key: Option<nat>)
    ensures Channelled(keys + [key]) == Channelled(keys) + if key.Some? then 1 else 0
  {
    assert (keys + [key])[..|keys|] == keys;
  }

  predicate Rising(s: seq<nat>) {
    forall i, j :: 0 <= i < j < |s| ==> s[i] < s[j]
  }

  /** A channel's events are exactly those with its name, in rising order. */
  lemma {:induction false} MembersAre(keys: Keys, qname: nat)
    ensures Rising(Members(keys, qname))
    ensures forall i: nat :: i in Members(keys, qname) <==> i < |keys| && keys[i] == Some(qname)
  {
    if |keys| > 0 {
      var front := keys[..|keys| - 1];
      MembersAre(front, qname);
      forall j | 0 <= j < |Members(front, qname)|
        ensures Members(front, qname)[j] < |front|
      {
        assert Members(front, qname)[j] in Members(front, qname);
      }
      forall i: nat
        ensures i in Members(keys, qname) <==> i < |keys| && keys[i] == Some(qname)
      {
        if i < |front| { assert front[i] == keys[i]; }
      }
    }
  }

  /** Channels are listed once, have an event, and are ordered by their first one. */
  lemma {:induction false} OrderIs(keys: Keys)
    ensures forall q: nat :: q in Order(keys) <==> |Members(keys, q)| > 0
    ensures forall a, b :: 0 <= a < b < |Order(keys)| ==>
              Order(keys)[a] != Order(keys)[b] && Members(keys, Order(keys)[a])[0] < Members(keys, Order(keys)[b])[0]
  {
    if |keys| > 0 {
      var n := |keys| - 1;
      var front := keys[..n];
      OrderIs(front);
      forall a, b | 0 <= a < b < |Order(keys)|
        ensures Order(keys)[a] != Order(keys)[b] && Members(keys, Order(keys)[a])[0] < Members(keys, Order(keys)[b])[0]
      {
        var p, q := Order(keys)[a], Order(keys)[b];
        assert p == Order(front)[a] && p in Order(front);
        MembersAre(front, p);
        assert Members(front, p)[0] in Members(front, p);
        if b < |Order(front)| { assert q == Order(front)[b] && q in Order(front); }
      }
    }
  }

  //
  // The block under construction
  //

  /** The link value that ends a list, and the channel index of an event without a channel. */
  const END: nat := SIZE_MAX

  datatype EventRecord = EventRecord(channelIndex: nat, nextInChannel: nat, value: Text)
  datatype Channel = Channel(qnameId: nat, firstEvent: nat, lastEvent: nat)

  /** Event j of a channel is linked to the next one, and knows its channel. */
  predicate LinkOk(events: seq<EventRecord>, members: seq<nat>, c: nat, j: nat)
    requires j < |members|
  {
    && members[j] < |events| && events[members[j]].channelIndex == c
    && events[members[j]].nextInChannel == if j + 1 < |members| then members[j + 1] else END
  }

  /** The list of channel c runs through its events and ends. */
  ghost predicate ChannelOk(keys: Keys, events: seq<EventRecord>, channels: seq<Channel>, c: nat)
    requires c < |Order(keys)| <= |channels|
  {
    var q := Order(keys)[c];
    var members := Members(keys, q);
    && |members| > 0 && channels[c] == Channel(q, members[0], members[|members| - 1])
    && forall j: nat :: j < |members| ==> LinkOk(events, members, c, j)
  }

  ghost predicate Threaded(keys: Keys, events: seq<EventRecord>, channels: seq<Channel>) {
    && |keys| <= |events| < END && |Order(keys)| <= |channels|
    && forall c: nat :: c < |Order(keys)| ==> ChannelOk(keys, events, channels, c)
  }

  lemma {:induction false} OrderBounded(keys: Keys)
    ensures |Order(keys)| <= |keys|
  {
    if |keys| > 0 { OrderBounded(keys[..|keys| - 1]); }
  }

  lemma MembersNext(keys: Keys, key: Option<nat>, q: nat)
    ensures Members(keys + [key], q) == if key == Some(q) then Members(keys, q) + [|keys|] else Members(keys, q)
  {
    assert (keys + [key])[..|keys|] == keys;
  }

  lemma OrderNext(keys: Keys, key: Option<nat>)
    ensures Order(keys + [key]) ==
              if key.None? || key.value in Order(keys) then Order(keys) else Order(keys) + [key.value]
  {
    assert (keys + [key])[..|keys|] == keys;
  }

  /** A list is not affected by what happens to later records. */
  lemma ListKeeps(keys: Keys, more: Keys, events: seq<EventRecord>, events': seq<EventRecord>, channels: seq<Channel>,
                  channels': seq<Channel>, c: nat)
    requires c < |Order(keys)| <= |channels| && ChannelOk(keys, events, channels, c)
    requires c < |Order(more)| <= |channels'| && Order(more)[c] == Order(keys)[c] && channels'[c] == channels[c]
    requires Members(more, Order(keys)[c]) == Members(keys, Order(keys)[c])
    requires |keys| <= |events| <= |events'| && events'[..|keys|] == events[..|keys|]
    ensures ChannelOk(more, events', channels', c)
  {
    hide Members; hide Order;
    var members := Members(keys, Order(keys)[c]);
    MembersAre(keys, Order(keys)[c]);
    forall j: nat | j < |members|
      ensures LinkOk(events', members, c, j)
    {
      assert LinkOk(events, members, c, j) && members[j] in members;
      assert events'[members[j]] == events'[..|keys|][members[j]] == events[..|keys|][members[j]];
    }
  }

  /** A record without a channel leaves every list as it was. */
  lemma PlainKeeps(keys: Keys, events: seq<EventRecord>, channels: seq<Channel>)
    requires Threaded(keys, events, channels) && |keys| < |events|
    ensures Threaded(keys + [None], events[|keys| := EventRecord(END, END, [])], channels)
  {
    hide Members; hide Order; hide ChannelOk;
    var more, events' := keys + [None], events[|keys| := EventRecord(END, END, [])];
    OrderNext(keys, None);
    forall c: nat | c < |Order(more)|
      ensures ChannelOk(more, events', channels, c)
    {
      MembersNext(keys, None, Order(keys)[c]);
      ListKeeps(keys, more, events, events', channels, channels, c);
    }
  }

  /** A new channel starts with the record. */
  lemma NewChannelKeeps(keys: Keys, events: seq<EventRecord>, channels: seq<Channel>, q: nat)
    requires Threaded(keys, events, channels) && |keys| < |events| && q !in Order(keys) && |Order(keys)| < |channels|
    ensures var n, c := |keys|, |Order(keys)|;
      Threaded(keys + [Some(q)], events[n := EventRecord(c, END, [])], channels[c := Channel(q, n, n)])
  {
    hide Members; hide Order; hide ChannelOk;
    var n, c := |keys|, |Order(keys)|;
    var more, events', channels' := keys + [Some(q)], events[n := EventRecord(c, END, [])], channels[c := Channel(q, n, n)];
    OrderNext(keys, Some(q));
    NewChannelAlone(keys, events', channels', q);
    forall d: nat | d < |Order(more)|
      ensures ChannelOk(more, events', channels', d)
    {
      if d < c {
        assert Order(keys)[d] in Order(keys);
        MembersNext(keys, Some(q), Order(keys)[d]);
        ListKeeps(keys, more, events, events', channels, channels', d);
      }
    }
  }

  lemma NewChannelAlone(keys: Keys, events: seq<EventRecord>, channels: seq<Channel>, q: nat)
    requires q !in Order(keys) && |keys| < |events| && |Order(keys)| < |channels|
    requires var n, c := |keys|, |Order(keys)|; events[n] == EventRecord(c, END, []) && channels[c] == Channel(q, n, n)
    ensures |Order(keys + [Some(q)])| == |Order(keys)| + 1 && ChannelOk(keys + [Some(q)], events, channels, |Order(keys)|)
  {
    hide Members; hide Order;
    OrderNext(keys, Some(q));
    OrderIs(keys);
    MembersNext(keys, Some(q), q);
    assert |Members(keys, q)| == 0;
  }

  /** The record is linked behind the last one of its channel; no other list changes. */
  lemma AppendKeeps(keys: Keys, events: seq<EventRecord>, channels: seq<Channel>, c: nat)
    requires Threaded(keys, events, channels) && |keys| < |events| && c < |Order(keys)|
    ensures var n, previous := |keys|, channels[c].lastEvent;
      && previous < n
      && var linked := events[n := EventRecord(c, END, [])];
         Threaded(keys + [Some(Order(keys)[c])], linked[previous := linked[previous].(nextInChannel := n)],
                  channels[c := channels[c].(lastEvent := n)])
  {
    hide Members; hide Order;
    var n, previous, q := |keys|, channels[c].lastEvent, Order(keys)[c];
    assert ChannelOk(keys, events, channels, c);
    var own := Members(keys, q);
    MembersAre(keys, q);
    assert previous == own[|own| - 1] && previous in own;
    var linked := events[n := EventRecord(c, END, [])];
    var more, events' := keys + [Some(q)], linked[previous := linked[previous].(nextInChannel := n)];
    var channels' := channels[c := channels[c].(lastEvent := n)];
    OrderNext(keys, Some(q));
    OrderIs(keys);
    forall d: nat | d < |Order(more)|
      ensures ChannelOk(more, events', channels', d)
    {
      var p := Order(keys)[d];
      assert ChannelOk(keys, events, channels, d);
      MembersNext(keys, Some(q), p);
      MembersAre(keys, p);
      var members, longer := Members(keys, p), Members(more, p);
      forall j: nat | j < |longer|
        ensures LinkOk(events', longer, d, j)
      {
        if j < |members| {
          assert LinkOk(events, members, d, j) && members[j] in members;
          assert longer[j] == members[j];
          if d == c && j + 1 < |members| { assert members[j] < own[|own| - 1]; }
        }
      }
    }
  }

  //
  // Reading orders
  //

  /** Channels with more values than this have a stream of their own. */
  const SMALL_CHANNEL: nat := 100

  predicate IsSmall(keys: Keys, q: nat) {
    |Members(keys, q)| <= SMALL_CHANNEL
  }

  /** The events of some channels, channel by channel. */
  function Plan(keys: Keys, qs: seq<nat>): seq<nat> {
    if |qs| == 0 then [] else Plan(keys, qs[..|qs| - 1]) + Members(keys, qs[|qs| - 1])
  }

  /** The small channels among some, or the others. */
  function Sized(keys: Keys, qs: seq<nat>, small: bool): seq<nat> {
    if |qs| == 0 then []
    else
      var front := Sized(keys, qs[..|qs| - 1], small);
      if IsSmall(keys, qs[|qs| - 1]) == small then front + [qs[|qs| - 1]] else front
  }

  /** The values assigned so far, where the input stands, and the string tables. */
  datatype Progress = Progress(values: seq<Text>, pos: nat, tables: Tables)

  predicate PlanOk(keys: Keys, plan: seq<nat>, room: nat) {
    |keys| <= room && forall k :: 0 <= k < |plan| ==> plan[k] < |keys| && keys[plan[k]].Some?
  }

  /** Reading one value, as a function. */
  ghost function StringRead(data: seq<byte>, mode: InputMode, pos: nat, l: Limits, t: Tables, qname: nat): Option<(Text, nat, Tables)> {
    if value: Text, end: nat, t': Tables :| Reads(data, mode, pos, l, t, qname, value, end, t') then Some((value, end, t')) else None
  }

  lemma StringReadIs(data: seq<byte>, mode: InputMode, pos: nat, l: Limits, t: Tables, qname: nat, value: Text, end: nat, t': Tables)
    requires Reads(data, mode, pos, l, t, qname, value, end, t')
    ensures StringRead(data, mode, pos, l, t, qname) == Some((value, end, t'))
  {
    hide Reads;
    var r := StringRead(data, mode, pos, l, t, qname).value;
    ReadsOnce(data, mode, pos, l, t, qname, value, end, t', r.0, r.1, r.2);
  }

  lemma UnreadableIs(data: seq<byte>, mode: InputMode, pos: nat, l: Limits, t: Tables, qname: nat)
    requires Unreadable(data, mode, pos, l, t, qname)
    ensures StringRead(data, mode, pos, l, t, qname) == None
  {
    hide Reads;
  }

  /** Reading a value for each event of the plan in turn. */
  ghost function PlanRead(data: seq<byte>, mode: InputMode, l: Limits, from: Progress, keys: Keys, plan: seq<nat>): (r: Option<Progress>)
    requires PlanOk(keys, plan, |from.values|)
    ensures r.Some? ==> |r.value.values| == |from.values|
  {
    hide StringRead;
    if |plan| == 0 then Some(from)
    else
      match PlanRead(data, mode, l, from, keys, plan[..|plan| - 1])
      case None => None
      case Some(p) =>
        var i := plan[|plan| - 1];
        match StringRead(data, mode, p.pos, l, p.tables, keys[i].value)
        case None => None
        case Some(r) => Some(Progress(p.values[i := r.0], r.1, r.2))
  }

  lemma {:induction false} PlanReadSplit(data: seq<byte>, mode: InputMode, l: Limits, from: Progress, keys: Keys,
                                         a: seq<nat>, b: seq<nat>)
    requires PlanOk(keys, a, |from.values|) && PlanOk(keys, b, |from.values|)
    ensures PlanOk(keys, a + b, |from.values|)
    ensures PlanRead(data, mode, l, from, keys, a + b) ==
              match PlanRead(data, mode, l, from, keys, a)
              case None => None
              case Some(p) => PlanRead(data, mode, l, p, keys, b)
  {
    hide StringRead;
    if |b| == 0 {
      assert a + b == a;
    } else {
      var front := b[..|b| - 1];
      PlanReadSplit(data, mode, l, from, keys, a, front);
      assert (a + b)[..|a + b| - 1] == a + front;
    }
  }

  lemma MembersPlanOk(keys: Keys, q: nat, room: nat)
    requires |keys| <= room
    ensures PlanOk(keys, Members(keys, q), room)
  {
    MembersAre(keys, q);
    forall k | 0 <= k < |Members(keys, q)|
      ensures Members(keys, q)[k] < |keys| && keys[Members(keys, q)[k]].Some?
    {
      assert Members(keys, q)[k] in Members(keys, q);
    }
  }

  lemma {:induction false} PlanIsOk(keys: Keys, qs: seq<nat>, room: nat)
    requires |keys| <= room
    ensures PlanOk(keys, Plan(keys, qs), room)
  {
    hide Members;
    if |qs| > 0 {
      PlanIsOk(keys, qs[..|qs| - 1], room);
      MembersPlanOk(keys, qs[|qs| - 1], room);
    }
  }

  function ValuesOf(events: seq<EventRecord>): (r: seq<Text>)
    ensures |r| == |events|
  {
    seq(|events|, i requires 0 <= i < |events| => events[i].value)
  }

  lemma ValueKeeps(keys: Keys, events: seq<EventRecord>, channels: seq<Channel>, i: nat, value: Text)
    requires Threaded(keys, events, channels) && i < |events|
    ensures Threaded(keys, events[i := events[i].(value := value)], channels)
    ensures ValuesOf(events[i := events[i].(value := value)]) == ValuesOf(events)[i := value]
  {
    hide Members; hide Order;
    var events' := events[i := events[i].(value := value)];
    forall c: nat | c < |Order(keys)|
      ensures ChannelOk(keys, events', channels, c)
    {
      assert ChannelOk(keys, events, channels, c);
      var members := Members(keys, Order(keys)[c]);
      forall j: nat | j < |members|
        ensures LinkOk(events', members, c, j)
      {
        assert LinkOk(events, members, c, j);
      }
    }
  }

  lemma PlanReadNext(data: seq<byte>, mode: InputMode, l: Limits, from: Progress, keys: Keys, plan: seq<nat>, j: nat)
    requires PlanOk(keys, plan, |from.values|) && j < |plan|
    ensures PlanOk(keys, plan[..j], |from.values|) && PlanOk(keys, plan[..j + 1], |from.values|)
    ensures PlanRead(data, mode, l, from, keys, plan[..j + 1]) ==
              match PlanRead(data, mode, l, from, keys, plan[..j])
              case None => None
              case Some(p) =>
                match StringRead(data, mode, p.pos, l, p.tables, keys[plan[j]].value)
                case None => None
                case Some(r) => Some(Progress(p.values[plan[j] := r.0], r.1, r.2))
  {
    hide StringRead;
    assert plan[..j + 1][..j] == plan[..j];
  }

  /** A plan that fails part of the way fails. */
  lemma PlanStops(data: seq<byte>, mode: InputMode, l: Limits, from: Progress, keys: Keys, a: seq<nat>, plan: seq<nat>)
    requires a <= plan && PlanOk(keys, plan, |from.values|)
    requires PlanOk(keys, a, |from.values|) && PlanRead(data, mode, l, from, keys, a) == None
    ensures PlanRead(data, mode, l, from, keys, plan) == None
  {
    hide PlanRead;
    var b := plan[|a|..];
    assert a + b == plan;
    forall k | 0 <= k < |b|
      ensures b[k] < |keys| && keys[b[k]].Some?
    {
      assert b[k] == plan[|a| + k];
    }
    PlanReadSplit(data, mode, l, from, keys, a, b);
  }

  //
  // The two branches over a whole block
  //

  /** Where one inflated stream lies in the inflated data. */
  datatype Span = Span(offset: nat, length: nat)

  function StreamAt(inflated: seq<byte>, spans: seq<Span>, k: nat): Option<seq<byte>> {
    if k >= |spans| || spans[k].offset > |inflated| || spans[k].length > |inflated| - spans[k].offset then None
    else Some(inflated[spans[k].offset..spans[k].offset + spans[k].length])
  }

  predicate AtEnd(data: seq<byte>, pos: nat) {
    pos / 8 >= |data|
  }

  /** A stream that holds the values of the plan and nothing else. */
  ghost function StreamRead(stream: Option<seq<byte>>, l: Limits, from: Progress, keys: Keys, plan: seq<nat>): (r: Option<Progress>)
    requires PlanOk(keys, plan, |from.values|)
    ensures r.Some? ==> |r.value.values| == |from.values|
  {
    match stream
    case None => None
    case Some(data) =>
      match PlanRead(data, ByteAligned, l, from.(pos := 0), keys, plan)
      case None => None
      case Some(p) => if AtEnd(data, p.pos) then Some(p.(pos := 0)) else None
  }

  /** One stream for each of the channels, the first at index k. */
  ghost function BigRead(inflated: seq<byte>, spans: seq<Span>, k: nat, l: Limits, from: Progress, keys: Keys,
                         qs: seq<nat>): (r: Option<Progress>)
    requires |keys| <= |from.values|
    ensures r.Some? ==> |r.value.values| == |from.values|
  {
    hide StreamRead;
    if |qs| == 0 then Some(from)
    else
      match BigRead(inflated, spans, k, l, from, keys, qs[..|qs| - 1])
      case None => None
      case Some(p) =>
        MembersPlanOk(keys, qs[|qs| - 1], |p.values|);
        StreamRead(StreamAt(inflated, spans, k + |qs| - 1), l, p, keys, Members(keys, qs[|qs| - 1]))
  }

  /** The small channels together in one stream, if there are any, then a stream for each other channel. */
  ghost function SplitRead(inflated: seq<byte>, spans: seq<Span>, k: nat, l: Limits, from: Progress, keys: Keys): (r: Option<Progress>)
    requires |keys| <= |from.values|
    ensures r.Some? ==> |r.value.values| == |from.values|
  {
    hide StreamRead;
    var smalls := Sized(keys, Order(keys), true);
    PlanIsOk(keys, smalls, |from.values|);
    var first := if smalls == [] then Some(from) else StreamRead(StreamAt(inflated, spans, k), l, from, keys, Plan(keys, smalls));
    match first
    case None => None
    case Some(p) => BigRead(inflated, spans, k + (if smalls == [] then 0 else 1), l, p, keys, Sized(keys, Order(keys), false))
  }

  lemma SizedNext(keys: Keys, qs: seq<nat>, c: nat, small: bool)
    requires c < |qs|
    ensures Sized(keys, qs[..c + 1], small) ==
              if IsSmall(keys, qs[c]) == small then Sized(keys, qs[..c], small) + [qs[c]] else Sized(keys, qs[..c], small)
  {
    assert qs[..c + 1][..c] == qs[..c];
  }

  lemma {:induction false} SizedGrows(keys: Keys, qs: seq<nat>, c: nat, small: bool)
    requires c <= |qs|
    ensures Sized(keys, qs[..c], small) <= Sized(keys, qs, small)
    decreases |qs|
  {
    hide IsSmall;
    if c < |qs| {
      SizedGrows(keys, qs[..|qs| - 1], c, small);
      assert qs[..|qs| - 1][..c] == qs[..c];
    } else {
      assert qs[..c] == qs;
    }
  }

  lemma PlanNext(keys: Keys, qs: seq<nat>, q: nat)
    ensures Plan(keys, qs + [q]) == Plan(keys, qs) + Members(keys, q)
  {
    assert (qs + [q])[..|qs|] == qs;
  }

  lemma {:induction false} PlanAppend(keys: Keys, a: seq<nat>, b: seq<nat>)
    ensures Plan(keys, a + b) == Plan(keys, a) + Plan(keys, b)
  {
    hide Members;
    if |b| == 0 {
      assert a + b == a;
    } else {
      PlanAppend(keys, a, b[..|b| - 1]);
      assert (a + b)[..|a + b| - 1] == a + b[..|b| - 1];
    }
  }

  lemma PlanGrows(keys: Keys, a: seq<nat>, qs: seq<nat>)
    requires a <= qs
    ensures Plan(keys, a) <= Plan(keys, qs)
  {
    PlanAppend(keys, a, qs[|a|..]);
    assert a + qs[|a|..] == qs;
  }

  class ReorderedBlock {
    const events: array<EventRecord>
    const channels: array<Channel>
    var eventCount: nat
    var channelCount: nat
    var valueCount: nat
    ghost var keys: Keys

    constructor (maxEvents: nat)
      requires maxEvents < END
      ensures Valid() && keys == [] && fresh(events) && fresh(channels) && events.Length == maxEvents
    {
      events := new EventRecord[maxEvents](_ => EventRecord(END, END, []));
      channels := new Channel[maxEvents](_ => Channel(0, END, END));
      eventCount, channelCount, valueCount, keys := 0, 0, 0, [];
    }

    ghost predicate Valid()
      reads this, events, channels
    {
      && Threaded(keys, events[..], channels[..]) && events.Length == channels.Length
      && eventCount == |keys| && channelCount == |Order(keys)| && valueCount == Channelled(keys)
    }

    /** Begin the next block. */
    method Clear()
      requires Valid()
      modifies this
      ensures Valid() && keys == []
    {
      eventCount, channelCount, valueCount, keys := 0, 0, 0, [];
    }

    /** Record one event; a value event joins the channel of its name. */
    method AddRecord(key: Option<nat>) returns (status: Status)
      requires Valid()
      modifies this, events, channels
      ensures Valid()
      ensures status == Success <==> |old(keys)| < events.Length
      ensures keys == if status == Success then old(keys) + [key] else old(keys)
      ensures status == Success ==> ValuesOf(events[..]) == old(ValuesOf(events[..]))[|old(keys)| := []]
    {
      hide Threaded; hide ChannelOk; hide Members;
      ThreadedSizes(keys, events[..], channels[..]);
      if eventCount >= events.Length {
        return InvalidNetworkResponse;
      }
      OrderBounded(keys);
      OrderNext(keys, key);
      ChannelledNext(keys, key);
      if key.None? {
        PlainKeeps(keys, events[..], channels[..]);
        events[eventCount] := EventRecord(END, END, []);
      } else {
        var channelIndex := FindChannel(key.value);
        if channelIndex == channelCount {
          NewChannelKeeps(keys, events[..], channels[..], key.value);
          channels[channelIndex] := Channel(key.value, eventCount, eventCount);
          channelCount := channelCount + 1;
          events[eventCount] := EventRecord(channelIndex, END, []);
        } else {
          AppendKeeps(keys, events[..], channels[..], channelIndex);
          var previous := channels[channelIndex].lastEvent;
          events[eventCount] := EventRecord(channelIndex, END, []);
          events[previous] := events[previous].(nextInChannel := eventCount);
          channels[channelIndex] := channels[channelIndex].(lastEvent := eventCount);
        }
      }
      if key.Some? { valueCount := valueCount + 1; }
      eventCount := eventCount + 1;
      keys := keys + [key];
      status := Success;
    }

    method FindChannel(qnameId: nat) returns (channelIndex: nat)
      requires Valid()
      ensures channelIndex <= channelCount
      ensures channelIndex < channelCount ==> Order(keys)[channelIndex] == qnameId
      ensures channelIndex == channelCount ==> qnameId !in Order(keys)
    {
      hide Members; hide Order; hide LinkOk;
      channelIndex := 0;
      while channelIndex < channelCount && channels[channelIndex].qnameId != qnameId
        invariant channelIndex <= channelCount
        invariant forall c: nat :: c < channelIndex ==> Order(keys)[c] != qnameId
      {
        assert ChannelOk(keys, events[..], channels[..], channelIndex);
        channelIndex := channelIndex + 1;
      }
      if channelIndex < channelCount { assert ChannelOk(keys, events[..], channels[..], channelIndex); }
    }

    ghost function ProgressAt(input: ExiInput, table: ValueTable): Progress
      reads this, events, input, table, table.literals
    {
      Progress(ValuesOf(events[..]), input.bitOffset, TablesOf(table))
    }

    ghost predicate Ready(input: ExiInput, table: ValueTable)
      reads this, events, channels, input, table, table.literals, table.globalEntries, table.localEntries
    {
      Valid() && input.Valid() && table.Valid()
    }

    /** One value for each event of the channel's list, in the order of the list. */
    method ReadChannelValues(input: ExiInput, table: ValueTable, channelIndex: nat) returns (status: Status)
      requires Ready(input, table) && channelIndex < |Order(keys)|
      modifies events, input, table, table.literals, table.globalEntries, table.localEntries
      ensures Ready(input, table)
      ensures var plan := Members(keys, Order(keys)[channelIndex]);
        && PlanOk(keys, plan, events.Length)
        && var r := PlanRead(input.data, input.mode, LimitsOf(table), old(ProgressAt(input, table)), keys, plan);
           if status == Success then r == Some(ProgressAt(input, table)) else r == None
    {
      hide Threaded; hide Members; hide Order; hide Ring; hide StringRead; hide PlanRead; hide PlanOk; hide Reads; hide Channelled;
      ghost var from := ProgressAt(input, table);
      ghost var plan := Members(keys, Order(keys)[channelIndex]);
      ThreadedSizes(keys, events[..], channels[..]);
      MembersPlanOk(keys, Order(keys)[channelIndex], events.Length);
      ThreadedChannel(keys, events[..], channels[..], channelIndex);
      PlanReadNone(input.data, input.mode, LimitsOf(table), from, keys);
      var eventIndex := channels[channelIndex].firstEvent;
      ghost var j: nat := 0;
      assert plan[..0] == [];
      while eventIndex != END
        invariant Ready(input, table) && j <= |plan|
        invariant eventIndex == if j < |plan| then plan[j] else END
        invariant PlanOk(keys, plan[..j], events.Length)
        invariant PlanRead(input.data, input.mode, LimitsOf(table), from, keys, plan[..j]) == Some(ProgressAt(input, table))
        decreases |plan| - j
      {
        ThreadedLink(keys, events[..], channels[..], channelIndex, j);
        PlanReadNext(input.data, input.mode, LimitsOf(table), from, keys, plan, j);
        ghost var before := ProgressAt(input, table);
        var value;
        status, value := ReadValueString(input, table, channels[channelIndex].qnameId);
        if status != Success {
          UnreadableIs(input.data, input.mode, before.pos, LimitsOf(table), before.tables, Order(keys)[channelIndex]);
          PlanStops(input.data, input.mode, LimitsOf(table), from, keys, plan[..j + 1], plan);
          return;
        }
        StringReadIs(input.data, input.mode, before.pos, LimitsOf(table), before.tables, Order(keys)[channelIndex], value,
                     input.bitOffset, TablesOf(table));
        ValueKeeps(keys, events[..], channels[..], eventIndex, value);
        events[eventIndex] := events[eventIndex].(value := value);
        eventIndex := events[eventIndex].nextInChannel;
        j := j + 1;
      }
      assert plan[..j] == plan;
      status := Success;
    }

    method CountChannel(channelIndex: nat) returns (count: nat)
      requires Valid() && channelIndex < |Order(keys)|
      ensures count == |Members(keys, Order(keys)[channelIndex])|
    {
      hide Threaded; hide Members; hide Order;
      ghost var plan := Members(keys, Order(keys)[channelIndex]);
      ThreadedSizes(keys, events[..], channels[..]);
      ThreadedChannel(keys, events[..], channels[..], channelIndex);
      count := 0;
      var eventIndex := channels[channelIndex].firstEvent;
      while eventIndex != END
        invariant count <= |plan| && eventIndex == if count < |plan| then plan[count] else END
        decreases |plan| - count
      {
        ThreadedLink(keys, events[..], channels[..], channelIndex, count);
        count := count + 1;
        eventIndex := events[eventIndex].nextInChannel;
      }
      if count < |plan| { ThreadedLink(keys, events[..], channels[..], channelIndex, count); }
    }

    /** Without streams, or with few values: every channel in order from the one input. */
    method ReadAllChannels(input: ExiInput, table: ValueTable) returns (status: Status)
      requires Ready(input, table)
      modifies events, input, table, table.literals, table.globalEntries, table.localEntries
      ensures Ready(input, table)
      ensures PlanOk(keys, Plan(keys, Order(keys)), events.Length)
      ensures var r := PlanRead(input.data, input.mode, LimitsOf(table), old(ProgressAt(input, table)), keys, Plan(keys, Order(keys)));
        if status == Success then r == Some(ProgressAt(input, table)) else r == None
    {
      hide Threaded; hide Members; hide Order; hide Ring; hide PlanRead; hide PlanOk; hide Plan; hide Channelled;
      ghost var from := ProgressAt(input, table);
      ghost var qs := Order(keys);
      ThreadedSizes(keys, events[..], channels[..]);
      PlanIsOk(keys, qs, events.Length);
      PlanReadNone(input.data, input.mode, LimitsOf(table), from, keys);
      NoPlan(keys, qs[..0]);
      for channelIndex := 0 to channelCount
        invariant Ready(input, table)
        invariant PlanOk(keys, Plan(keys, qs[..channelIndex]), events.Length)
        invariant PlanRead(input.data, input.mode, LimitsOf(table), from, keys, Plan(keys, qs[..channelIndex]))
                  == Some(ProgressAt(input, table))
      {
        ghost var before := ProgressAt(input, table);
        status := ReadChannelValues(input, table, channelIndex);
        PlanStep(input.data, input.mode, LimitsOf(table), from, before, keys, qs[..channelIndex], qs[channelIndex]);
        assert qs[..channelIndex] + [qs[channelIndex]] == qs[..channelIndex + 1];
        if status != Success {
          PlanGrows(keys, qs[..channelIndex + 1], qs);
          PlanStops(input.data, input.mode, LimitsOf(table), from, keys, Plan(keys, qs[..channelIndex + 1]), Plan(keys, qs));
          return;
        }
      }
      assert qs[..channelCount] == qs;
      status := Success;
    }

    /** The small channels in order from the one stream. */
    method ReadSmallChannels(input: ExiInput, table: ValueTable) returns (status: Status)
      requires Ready(input, table)
      modifies events, input, table, table.literals, table.globalEntries, table.localEntries
      ensures Ready(input, table)
      ensures PlanOk(keys, Plan(keys, Sized(keys, Order(keys), true)), events.Length)
      ensures var r := PlanRead(input.data, input.mode, LimitsOf(table), old(ProgressAt(input, table)), keys,
                                Plan(keys, Sized(keys, Order(keys), true)));
        if status == Success then r == Some(ProgressAt(input, table)) else r == None
    {
      hide Threaded; hide Members; hide Order; hide Ring; hide PlanRead; hide PlanOk; hide Plan; hide Channelled; hide Sized;
      ghost var from := ProgressAt(input, table);
      ghost var qs := Order(keys);
      ghost var smalls := Sized(keys, qs, true);
      ThreadedSizes(keys, events[..], channels[..]);
      PlanIsOk(keys, smalls, events.Length);
      PlanReadNone(input.data, input.mode, LimitsOf(table), from, keys);
      NoneSized(keys, qs[..0]);
      NoPlan(keys, Sized(keys, qs[..0], true));
      for channelIndex := 0 to channelCount
        invariant Ready(input, table)
        invariant PlanOk(keys, Plan(keys, Sized(keys, qs[..channelIndex], true)), events.Length)
        invariant PlanRead(input.data, input.mode, LimitsOf(table), from, keys, Plan(keys, Sized(keys, qs[..channelIndex], true)))
                  == Some(ProgressAt(input, table))
      {
        SizedNext(keys, qs, channelIndex, true);
        var channelValueCount := CountChannel(channelIndex);
        if channelValueCount <= SMALL_CHANNEL {
          ghost var before := ProgressAt(input, table);
          status := ReadChannelValues(input, table, channelIndex);
          PlanStep(input.data, input.mode, LimitsOf(table), from, before, keys, Sized(keys, qs[..channelIndex], true), qs[channelIndex]);
          if status != Success {
            SizedGrows(keys, qs, channelIndex + 1, true);
            PlanGrows(keys, Sized(keys, qs[..channelIndex + 1], true), smalls);
            PlanStops(input.data, input.mode, LimitsOf(table), from, keys, Plan(keys, Sized(keys, qs[..channelIndex + 1], true)),
                      Plan(keys, smalls));
            return;
          }
        }
      }
      assert qs[..channelCount] == qs;
      status := Success;
    }

    /** Position 0 of a stream not yet opened. */
    ghost function Between(table: ValueTable): Progress
      reads this, events, table, table.literals
    {
      Progress(ValuesOf(events[..]), 0, TablesOf(table))
    }

    ghost predicate Idle(table: ValueTable)
      reads this, events, channels, table, table.literals, table.globalEntries, table.localEntries
    {
      Valid() && table.Valid()
    }

    method CountSmall() returns (smallChannelCount: nat)
      requires Valid()
      ensures smallChannelCount == |Sized(keys, Order(keys), true)|
    {
      hide Threaded; hide Members; hide Order; hide Sized;
      smallChannelCount := 0;
      ghost var qs := Order(keys);
      NoneSized(keys, qs[..0]);
      for channelIndex := 0 to channelCount
        invariant smallChannelCount == |Sized(keys, qs[..channelIndex], true)|
      {
        SizedNext(keys, qs, channelIndex, true);
        var channelValueCount := CountChannel(channelIndex);
        if channelValueCount <= SMALL_CHANNEL {
          smallChannelCount := smallChannelCount + 1;
        }
      }
      assert qs[..channelCount] == qs;
    }

    /** A stream for each channel that is not small. */
    method ReadBigChannels(inflated: seq<byte>, spans: seq<Span>, first: nat, table: ValueTable) returns (status: Status, next: nat)
      requires Idle(table)
      modifies events, table, table.literals, table.globalEntries, table.localEntries
      ensures Idle(table) && events.Length >= |keys|
      ensures status == Success ==> next == first + |Sized(keys, Order(keys), false)|
      ensures var r := BigRead(inflated, spans, first, LimitsOf(table), old(Between(table)), keys, Sized(keys, Order(keys), false));
        if status == Success then r == Some(Between(table)) else r == None
    {
      hide Threaded; hide Members; hide Order; hide Ring; hide PlanRead; hide PlanOk; hide Sized; hide BigRead; hide StreamAt; hide AtEnd;
      hide Channelled;
      ghost var from := Between(table);
      ghost var qs := Order(keys);
      ghost var bigs := Sized(keys, qs, false);
      ghost var l := LimitsOf(table);
      ThreadedSizes(keys, events[..], channels[..]);
      NoneSized(keys, qs[..0]);
      BigReadNone(inflated, spans, first, l, from, keys);
      next := first;
      for channelIndex := 0 to channelCount
        invariant Idle(table)
        invariant next == first + |Sized(keys, qs[..channelIndex], false)|
        invariant BigRead(inflated, spans, first, l, from, keys, Sized(keys, qs[..channelIndex], false)) == Some(Between(table))
      {
        SizedNext(keys, qs, channelIndex, false);
        var channelValueCount := CountChannel(channelIndex);
        if channelValueCount > SMALL_CHANNEL {
          ghost var before := Between(table);
          BigReadNext(inflated, spans, first, l, from, before, keys, Sized(keys, qs[..channelIndex], false), qs[channelIndex]);
          SizedGrows(keys, qs, channelIndex + 1, false);
          var stream := StreamAt(inflated, spans, next);
          if stream.Some? {
            var channelInput := new ExiInput(stream.value, ByteAligned, 0);
            status := ReadChannelValues(channelInput, table, channelIndex);
            if status == Success && !AtEnd(stream.value, channelInput.bitOffset) {
              status := InvalidNetworkResponse;
            }
          } else {
            status := InvalidNetworkResponse;
          }
          if status != Success {
            BigStops(inflated, spans, first, l, from, keys, Sized(keys, qs[..channelIndex + 1], false), bigs);
            return;
          }
          next := next + 1;
        }
      }
      assert qs[..channelCount] == qs;
      status := Success;
    }

    /** The values of a block in streams of their own. */
    method ReadSplitChannels(inflated: seq<byte>, spans: seq<Span>, first: nat, table: ValueTable) returns (status: Status, next: nat)
      requires Idle(table)
      modifies events, table, table.literals, table.globalEntries, table.localEntries
      ensures Idle(table) && events.Length >= |keys|
      ensures status == Success ==> next == first + Streams(keys)
      ensures var r := SplitRead(inflated, spans, first, LimitsOf(table), old(Between(table)), keys);
        if status == Success then r == Some(Between(table)) else r == None
    {
      hide Threaded; hide Members; hide Order; hide Ring; hide PlanRead; hide PlanOk; hide Sized; hide BigRead; hide StreamAt; hide AtEnd;
      hide Plan; hide Channelled;
      ThreadedSizes(keys, events[..], channels[..]);
      ghost var from := Between(table);
      next := first;
      var smallChannelCount := CountSmall();
      if smallChannelCount != 0 {
        var stream := StreamAt(inflated, spans, next);
        if stream.None? {
          return InvalidNetworkResponse, next;
        }
        var channelInput := new ExiInput(stream.value, ByteAligned, 0);
        status := ReadSmallChannels(channelInput, table);
        if status != Success {
          return;
        }
        if !AtEnd(stream.value, channelInput.bitOffset) {
          return InvalidNetworkResponse, next;
        }
        next := next + 1;
      }
      status, next := ReadBigChannels(inflated, spans, next, table);
    }

    /** After the structure of a block: assign the values, from the one input or from the block's streams. */
    method ReadBlockValues(input: ExiInput, useStreams: bool, inflated: seq<byte>, spans: seq<Span>, first: nat, table: ValueTable)
      returns (status: Status, next: nat)
      requires Ready(input, table)
      modifies events, input, table, table.literals, table.globalEntries, table.localEntries
      ensures Ready(input, table) && events.Length >= |keys|
      ensures !useStreams || Channelled(keys) <= SMALL_CHANNEL ==>
                var plan := Plan(keys, Order(keys));
                && next == first && PlanOk(keys, plan, events.Length)
                && var r := PlanRead(input.data, input.mode, LimitsOf(table), old(ProgressAt(input, table)), keys, plan);
                   if status == Success then r == Some(ProgressAt(input, table)) else r == None
      ensures useStreams && Channelled(keys) > SMALL_CHANNEL ==>
                && input.bitOffset == old(input.bitOffset)
                && (status == Success ==> next == first + Streams(keys))
                && var r := SplitRead(inflated, spans, first, LimitsOf(table), old(Between(table)), keys);
                   if status == Success then r == Some(Between(table)) else r == None
    {
      hide Threaded; hide Members; hide Order; hide Ring; hide PlanRead; hide PlanOk; hide Plan; hide SplitRead;
      hide Streams; hide Channelled;
      ThreadedSizes(keys, events[..], channels[..]);
      next := first;
      if !useStreams || valueCount <= SMALL_CHANNEL {
        status := ReadAllChannels(input, table);
      } else {
        status, next := ReadSplitChannels(inflated, spans, first, table);
      }
    }
  }

  /** How many streams the values of the block take. */
  function Streams(keys: Keys): nat {
    (if Sized(keys, Order(keys), true) == [] then 0 else 1) + |Sized(keys, Order(keys), false)|
  }

  lemma BigReadNone(inflated: seq<byte>, spans: seq<Span>, k: nat, l: Limits, from: Progress, keys: Keys)
    requires |keys| <= |from.values|
    ensures BigRead(inflated, spans, k, l, from, keys, []) == Some(from)
  {
  }

  lemma BigReadNext(inflated: seq<byte>, spans: seq<Span>, k: nat, l: Limits, from: Progress, p: Progress, keys: Keys,
                    qs: seq<nat>, q: nat)
    requires |keys| <= |from.values| == |p.values| && BigRead(inflated, spans, k, l, from, keys, qs) == Some(p)
    ensures PlanOk(keys, Members(keys, q), |p.values|)
    ensures BigRead(inflated, spans, k, l, from, keys, qs + [q])
         == StreamRead(StreamAt(inflated, spans, k + |qs|), l, p, keys, Members(keys, q))
  {
    hide StreamRead; hide Members; hide PlanOk;
    MembersPlanOk(keys, q, |p.values|);
    assert (qs + [q])[..|qs|] == qs;
  }

  lemma {:induction false} BigStops(inflated: seq<byte>, spans: seq<Span>, k: nat, l: Limits, from: Progress, keys: Keys,
                                    a: seq<nat>, qs: seq<nat>)
    requires |keys| <= |from.values| && a <= qs && BigRead(inflated, spans, k, l, from, keys, a) == None
    ensures BigRead(inflated, spans, k, l, from, keys, qs) == None
    decreases |qs|
  {
    hide StreamRead; hide Members;
    if |a| < |qs| {
      BigStops(inflated, spans, k, l, from, keys, a, qs[..|qs| - 1]);
    } else {
      assert a == qs;
    }
  }

  lemma NoPlan(keys: Keys, qs: seq<nat>)
    requires |qs| == 0
    ensures Plan(keys, qs) == []
  {
  }

  lemma NoneSized(keys: Keys, qs: seq<nat>)
    requires |qs| == 0
    ensures Sized(keys, qs, true) == [] && Sized(keys, qs, false) == []
  {
  }

  /** One more channel. */
  lemma PlanStep(data: seq<byte>, mode: InputMode, l: Limits, from: Progress, p: Progress, keys: Keys, qs: seq<nat>, q: nat)
    requires |keys| <= |from.values| == |p.values| && PlanOk(keys, Plan(keys, qs), |from.values|)
    requires PlanRead(data, mode, l, from, keys, Plan(keys, qs)) == Some(p)
    ensures PlanOk(keys, Members(keys, q), |p.values|) && PlanOk(keys, Plan(keys, qs + [q]), |from.values|)
    ensures PlanRead(data, mode, l, from, keys, Plan(keys, qs + [q])) == PlanRead(data, mode, l, p, keys, Members(keys, q))
  {
    hide PlanRead; hide Members; hide PlanOk;
    MembersPlanOk(keys, q, |from.values|);
    PlanReadSplit(data, mode, l, from, keys, Plan(keys, qs), Members(keys, q));
    PlanNext(keys, qs, q);
  }

  lemma PlanReadNone(data: seq<byte>, mode: InputMode, l: Limits, from: Progress, keys: Keys)
    requires |keys| <= |from.values|
    ensures PlanOk(keys, [], |from.values|) && PlanRead(data, mode, l, from, keys, []) == Some(from)
  {
  }

  lemma ThreadedChannel(keys: Keys, events: seq<EventRecord>, channels: seq<Channel>, c: nat)
    requires Threaded(keys, events, channels) && c < |Order(keys)|
    ensures var members := Members(keys, Order(keys)[c]);
      c < |channels| && |members| > 0 && channels[c] == Channel(Order(keys)[c], members[0], members[|members| - 1])
  {
    hide Members; hide Order;
    assert ChannelOk(keys, events, channels, c);
  }

  lemma ThreadedLink(keys: Keys, events: seq<EventRecord>, channels: seq<Channel>, c: nat, j: nat)
    requires Threaded(keys, events, channels) && c < |Order(keys)| && j < |Members(keys, Order(keys)[c])|
    ensures var members := Members(keys, Order(keys)[c]);
      && members[j] < |keys| <= |events| && keys[members[j]] == Some(Order(keys)[c])
      && events[members[j]].nextInChannel == if j + 1 < |members| then members[j + 1] else END
    ensures c < |channels| && channels[c].qnameId == Order(keys)[c]
  {
    hide Members; hide Order;
    var members := Members(keys, Order(keys)[c]);
    assert ChannelOk(keys, events, channels, c) && LinkOk(events, members, c, j);
    MembersAre(keys, Order(keys)[c]);
    assert members[j] in members;
  }

  lemma ThreadedSizes(keys: Keys, events: seq<EventRecord>, channels: seq<Channel>)
    requires Threaded(keys, events, channels)
    ensures |keys| <= |events| < END && |Order(keys)| <= |channels|
  {
  }

  //
  // The writer, and what reading in channel order gives back
  //

  /** Every value event is in the plan of all channels exactly once, and nothing else is. */
  ghost predicate Once(keys: Keys, plan: seq<nat>) {
    && (forall i: nat :: i in plan <==> i < |keys| && keys[i].Some?)
    && (forall a, b :: 0 <= a < b < |plan| ==> plan[a] != plan[b])
  }

  predicate Distinct(qs: seq<nat>) {
    forall a, b :: 0 <= a < b < |qs| ==> qs[a] != qs[b]
  }

  lemma {:induction false} PlanHas(keys: Keys, qs: seq<nat>)
    requires Distinct(qs)
    ensures forall i: nat :: i in Plan(keys, qs) <==> i < |keys| && keys[i].Some? && keys[i].value in qs
    ensures forall a, b :: 0 <= a < b < |Plan(keys, qs)| ==> Plan(keys, qs)[a] != Plan(keys, qs)[b]
  {
    hide Members;
    if |qs| > 0 {
      var front, q := qs[..|qs| - 1], qs[|qs| - 1];
      PlanHas(keys, front);
      MembersAre(keys, q);
      assert qs == front + [q];
      var p, m := Plan(keys, front), Members(keys, q);
      forall a, b | 0 <= a < b < |p + m|
        ensures (p + m)[a] != (p + m)[b]
      {
        if a < |p| <= b {
          assert p[a] in p && m[b - |p|] in m;
        } else if |p| <= a {
          assert m[a - |p|] < m[b - |p|];
        }
      }
    }
  }

  lemma {:induction false} SizedHas(keys: Keys, qs: seq<nat>, small: bool)
    requires Distinct(qs)
    ensures forall q :: q in Sized(keys, qs, small) <==> q in qs && IsSmall(keys, q) == small
    ensures Distinct(Sized(keys, qs, small))
  {
    hide IsSmall;
    if |qs| > 0 {
      var front := qs[..|qs| - 1];
      SizedHas(keys, front, small);
      assert qs == front + [qs[|qs| - 1]];
    }
  }

  lemma OrderHas(keys: Keys)
    ensures Distinct(Order(keys))
    ensures forall i: nat :: i < |keys| && keys[i].Some? ==> keys[i].value in Order(keys)
  {
    hide Members; hide Order;
    OrderIs(keys);
    forall i: nat | i < |keys| && keys[i].Some?
      ensures keys[i].value in Order(keys)
    {
      MembersAre(keys, keys[i].value);
    }
  }

  /** In both branches each value event is read exactly once. */
  lemma EachValueOnce(keys: Keys)
    ensures Once(keys, Plan(keys, Order(keys)))
    ensures Once(keys, Plan(keys, Sized(keys, Order(keys), true)) + Plan(keys, Sized(keys, Order(keys), false)))
  {
    hide Members; hide Order; hide Sized; hide Plan; hide IsSmall;
    OrderHas(keys);
    PlanHas(keys, Order(keys));
    SizedHas(keys, Order(keys), true);
    SizedHas(keys, Order(keys), false);
    PlanHas(keys, Sized(keys, Order(keys), true));
    PlanHas(keys, Sized(keys, Order(keys), false));
    var a, b := Plan(keys, Sized(keys, Order(keys), true)), Plan(keys, Sized(keys, Order(keys), false));
    forall i, j | 0 <= i < j < |a + b|
      ensures (a + b)[i] != (a + b)[j]
    {
      if i < |a| <= j { assert a[i] in a && b[j - |a|] in b; }
    }
  }

  /** What a writer emits for the events of the plan, whose texts are given by event. */
  ghost function PlanWritten(mode: InputMode, l: Limits, t: Tables, keys: Keys, plan: seq<nat>,
                             texts: seq<seq<CodePoint>>): Option<(seq<bool>, Tables)>
    requires PlanOk(keys, plan, |texts|)
  {
    hide Written;
    if |plan| == 0 then Some(([], t))
    else
      match PlanWritten(mode, l, t, keys, plan[..|plan| - 1], texts)
      case None => None
      case Some(front) =>
        var i := plan[|plan| - 1];
        match Written(mode, l, front.1, keys[i].value, texts[i])
        case None => None
        case Some(w) => Some((front.0 + w.0, w.1))
  }

  /** The events of the plan hold their texts; the others hold what they held. */
  ghost predicate Restored(plan: seq<nat>, texts: seq<seq<CodePoint>>, before: seq<Text>, after: seq<Text>) {
    && |before| == |after| && |texts| <= |after|
    && forall i: nat :: i < |after| ==>
         if i in plan then i < |texts| && after[i] == Encode(texts[i]) else after[i] == before[i]
  }

  predicate XmlText(text: seq<CodePoint>) {
    (forall k :: 0 <= k < |text| ==> XmlChar(text[k])) && |text| + 2 < 0x1_0000_0000
  }

  predicate AllSendable(texts: seq<seq<CodePoint>>) {
    forall i :: 0 <= i < |texts| ==> XmlText(texts[i])
  }

  lemma WrittenGrows(mode: InputMode, l: Limits, t: Tables, qname: nat, cs: seq<CodePoint>)
    requires Written(mode, l, t, qname, cs).Some?
    ensures |Written(mode, l, t, qname, cs).value.1.history| <= |t.history| + 1
  {
    hide LocalWritten; hide GlobalWritten; hide LiteralWritten; hide Stored; hide LiveValue; hide HasOwnHit;
  }

  /** Reading back a plan: every value of it is restored, and reader and writer hold the same tables. */
  lemma {:induction false} PlanInverts(data: seq<byte>, mode: InputMode, l: Limits, from: Progress, keys: Keys,
                                       plan: seq<nat>, texts: seq<seq<CodePoint>>)
    requires PlanOk(keys, plan, |texts|) && |texts| <= |from.values| && AllSendable(texts)
    requires |from.tables.history| + |plan| <= 0x8000_0000 && Aligned(mode, from.pos)
    requires PlanWritten(mode, l, from.tables, keys, plan, texts).Some?
    requires Stand(data, from.pos, PlanWritten(mode, l, from.tables, keys, plan, texts).value.0)
    ensures var w := PlanWritten(mode, l, from.tables, keys, plan, texts).value;
      && Aligned(mode, from.pos + |w.0|) && |w.1.history| <= |from.tables.history| + |plan|
      && var r := PlanRead(data, mode, l, from, keys, plan);
         r.Some? && r.value.pos == from.pos + |w.0| && r.value.tables == w.1 && Restored(plan, texts, from.values, r.value.values)
  {
    hide Written; hide StringRead; hide Stand; hide XmlText; hide Encode; hide Reads; hide Restored;
    if |plan| == 0 {
      NothingRestored(texts, from.values);
    } else {
      var front, i := plan[..|plan| - 1], plan[|plan| - 1];
      var f := PlanWritten(mode, l, from.tables, keys, front, texts).value;
      var w := Written(mode, l, f.1, keys[i].value, texts[i]).value;
      assert plan == front + [i];
      StandSplit(data, from.pos, f.0, w.0);
      PlanInverts(data, mode, l, from, keys, front, texts);
      assert XmlText(texts[i]);
      TextSendable(f.1.history, texts[i]);
      WrittenGrows(mode, l, f.1, keys[i].value, texts[i]);
      StringInverts(data, mode, from.pos + |f.0|, l, f.1, keys[i].value, texts[i]);
      StringReadIs(data, mode, from.pos + |f.0|, l, f.1, keys[i].value, Encode(texts[i]), from.pos + |f.0| + |w.0|, w.1);
      RestoredNext(front, i, texts, from.values, PlanRead(data, mode, l, from, keys, front).value.values);
    }
  }

  lemma RestoredNext(front: seq<nat>, i: nat, texts: seq<seq<CodePoint>>, before: seq<Text>, mid: seq<Text>)
    requires Restored(front, texts, before, mid) && i < |texts| <= |mid|
    ensures Restored(front + [i], texts, before, mid[i := Encode(texts[i])])
  {
    hide Encode;
  }

  lemma TextSendable(h: History, text: seq<CodePoint>)
    requires XmlText(text) && |h| <= 0x8000_0000
    ensures Sendable(h, text)
  {
  }

  /**
   * One stream: a block whose values were written channel by channel is restored. Afterwards every value
   * event holds its own text, so that replaying the events in their order replays the original block.
   */
  lemma BlockRestored(data: seq<byte>, mode: InputMode, l: Limits, from: Progress, keys: Keys, texts: seq<seq<CodePoint>>)
    requires |texts| == |keys| <= |from.values| && AllSendable(texts)
    requires |from.tables.history| + |Plan(keys, Order(keys))| <= 0x8000_0000 && Aligned(mode, from.pos)
    requires PlanOk(keys, Plan(keys, Order(keys)), |texts|)
    requires PlanWritten(mode, l, from.tables, keys, Plan(keys, Order(keys)), texts).Some?
    requires Stand(data, from.pos, PlanWritten(mode, l, from.tables, keys, Plan(keys, Order(keys)), texts).value.0)
    ensures var r := PlanRead(data, mode, l, from, keys, Plan(keys, Order(keys)));
      && r.Some? && r.value.tables == PlanWritten(mode, l, from.tables, keys, Plan(keys, Order(keys)), texts).value.1
      && forall i: nat :: i < |keys| ==>
           r.value.values[i] == if keys[i].Some? then Encode(texts[i]) else from.values[i]
  {
    hide PlanRead; hide PlanWritten; hide Plan; hide Order; hide Stand; hide Encode; hide AllSendable;
    PlanInverts(data, mode, l, from, keys, Plan(keys, Order(keys)), texts);
    EachValueOnce(keys);
  }

  //
  // The same over streams
  //

  /** The stream at index k is these bits and no more. */
  predicate StreamIs(inflated: seq<byte>, spans: seq<Span>, k: nat, bits: seq<bool>) {
    var stream := StreamAt(inflated, spans, k);
    stream.Some? && Stand(stream.value, 0, bits) && |bits| == 8 * |stream.value|
  }

  /** The streams from index k on are what a writer emits for the channels, one stream each. */
  ghost predicate BigStands(inflated: seq<byte>, spans: seq<Span>, k: nat, l: Limits, t: Tables, keys: Keys, qs: seq<nat>,
                            texts: seq<seq<CodePoint>>, t': Tables)
    requires |keys| == |texts|
    decreases |qs|
  {
    hide PlanWritten;
    if |qs| == 0 then t' == t
    else
      var at, front, q := k + |qs| - 1, qs[..|qs| - 1], qs[|qs| - 1];
      exists mid: Tables :: BigStands(inflated, spans, k, l, t, keys, front, texts, mid)
                            && ChannelStands(inflated, spans, at, l, mid, keys, q, texts, t')
  }

  ghost predicate ChannelStands(inflated: seq<byte>, spans: seq<Span>, k: nat, l: Limits, t: Tables, keys: Keys, q: nat,
                                texts: seq<seq<CodePoint>>, t': Tables)
    requires |keys| == |texts|
  {
    MembersPlanOk(keys, q, |texts|);
    PlanStands(inflated, spans, k, l, t, keys, Members(keys, q), texts, t')
  }

  ghost predicate PlanStands(inflated: seq<byte>, spans: seq<Span>, k: nat, l: Limits, t: Tables, keys: Keys, plan: seq<nat>,
                             texts: seq<seq<CodePoint>>, t': Tables)
    requires PlanOk(keys, plan, |texts|)
  {
    var w := PlanWritten(ByteAligned, l, t, keys, plan, texts);
    w.Some? && w.value.1 == t' && StreamIs(inflated, spans, k, w.value.0)
  }

  lemma StreamInverts(inflated: seq<byte>, spans: seq<Span>, k: nat, l: Limits, from: Progress, keys: Keys, plan: seq<nat>,
                      texts: seq<seq<CodePoint>>, t': Tables)
    requires PlanOk(keys, plan, |texts|) && |texts| <= |from.values| && AllSendable(texts)
    requires |from.tables.history| + |plan| <= 0x8000_0000
    requires PlanStands(inflated, spans, k, l, from.tables, keys, plan, texts, t')
    ensures |t'.history| <= |from.tables.history| + |plan|
    ensures var r := StreamRead(StreamAt(inflated, spans, k), l, from, keys, plan);
      r.Some? && r.value.pos == 0 && r.value.tables == t' && Restored(plan, texts, from.values, r.value.values)
  {
    hide PlanRead; hide PlanWritten; hide Stand; hide Encode; hide AllSendable; hide StreamAt;
    var data := StreamAt(inflated, spans, k).value;
    PlanInverts(data, ByteAligned, l, from.(pos := 0), keys, plan, texts);
  }

  lemma RestoredTwice(a: seq<nat>, b: seq<nat>, texts: seq<seq<CodePoint>>, before: seq<Text>, mid: seq<Text>, after: seq<Text>)
    requires Restored(a, texts, before, mid) && Restored(b, texts, mid, after)
    ensures Restored(a + b, texts, before, after)
  {
    hide Encode;
  }

  lemma {:induction false} BigInverts(inflated: seq<byte>, spans: seq<Span>, k: nat, l: Limits, from: Progress, keys: Keys, qs: seq<nat>,
                                      texts: seq<seq<CodePoint>>, t': Tables)
    requires |keys| == |texts| <= |from.values| && AllSendable(texts) && from.pos == 0
    requires |from.tables.history| + |Plan(keys, qs)| <= 0x8000_0000
    requires BigStands(inflated, spans, k, l, from.tables, keys, qs, texts, t')
    ensures |t'.history| <= |from.tables.history| + |Plan(keys, qs)|
    ensures var r := BigRead(inflated, spans, k, l, from, keys, qs);
      r.Some? && r.value.pos == 0 && r.value.tables == t' && Restored(Plan(keys, qs), texts, from.values, r.value.values)
    decreases |qs|
  {
    hide PlanStands; hide StreamRead; hide Members; hide Restored; hide AllSendable; hide PlanOk; hide StreamAt;
    if |qs| == 0 {
      NothingRestored(texts, from.values);
    } else {
      var front, q := qs[..|qs| - 1], qs[|qs| - 1];
      var mid: Tables :| BigStands(inflated, spans, k, l, from.tables, keys, front, texts, mid)
        && ChannelStands(inflated, spans, k + |qs| - 1, l, mid, keys, q, texts, t');
      BigInverts(inflated, spans, k, l, from, keys, front, texts, mid);
      var p := BigRead(inflated, spans, k, l, from, keys, front).value;
      MembersPlanOk(keys, q, |texts|);
      MembersPlanOk(keys, q, |p.values|);
      StreamInverts(inflated, spans, k + |qs| - 1, l, p, keys, Members(keys, q), texts, t');
      var r := StreamRead(StreamAt(inflated, spans, k + |qs| - 1), l, p, keys, Members(keys, q)).value;
      RestoredTwice(Plan(keys, front), Members(keys, q), texts, from.values, p.values, r.values);
    }
  }

  lemma NothingRestored(texts: seq<seq<CodePoint>>, values: seq<Text>)
    requires |texts| <= |values|
    ensures Restored([], texts, values, values)
  {
  }

  /** The streams from index k on are what a writer emits for a block of many values. */
  ghost predicate SplitStands(inflated: seq<byte>, spans: seq<Span>, k: nat, l: Limits, t: Tables, keys: Keys,
                              texts: seq<seq<CodePoint>>, t': Tables)
    requires |keys| == |texts|
  {
    var smalls, bigs := Sized(keys, Order(keys), true), Sized(keys, Order(keys), false);
    PlanIsOk(keys, smalls, |texts|);
    if smalls == [] then BigStands(inflated, spans, k, l, t, keys, bigs, texts, t')
    else
      exists mid: Tables :: PlanStands(inflated, spans, k, l, t, keys, Plan(keys, smalls), texts, mid)
                            && BigStands(inflated, spans, k + 1, l, mid, keys, bigs, texts, t')
  }

  /** Many values: small channels in one stream and a stream for each other channel restore the block as well. */
  lemma SplitRestored(inflated: seq<byte>, spans: seq<Span>, k: nat, l: Limits, from: Progress, keys: Keys,
                      texts: seq<seq<CodePoint>>, t': Tables)
    requires |texts| == |keys| <= |from.values| && AllSendable(texts) && from.pos == 0
    requires |from.tables.history| + |keys| <= 0x8000_0000
    requires SplitStands(inflated, spans, k, l, from.tables, keys, texts, t')
    ensures var r := SplitRead(inflated, spans, k, l, from, keys);
      && r.Some? && r.value.tables == t'
      && forall i: nat :: i < |keys| ==>
           r.value.values[i] == if keys[i].Some? then Encode(texts[i]) else from.values[i]
  {
    hide PlanStands; hide StreamRead; hide Members; hide AllSendable; hide PlanOk; hide StreamAt; hide Order; hide Sized;
    hide Plan; hide BigRead; hide BigStands; hide Encode;
    var smalls, bigs := Sized(keys, Order(keys), true), Sized(keys, Order(keys), false);
    EachValueOnce(keys);
    PlanIsOk(keys, smalls, |texts|);
    PlanIsOk(keys, smalls, |from.values|);
    PlanBounded(keys);
    if smalls == [] {
      NoPlan(keys, smalls);
      BigInverts(inflated, spans, k, l, from, keys, bigs, texts, t');
      assert [] + Plan(keys, bigs) == Plan(keys, bigs);
    } else {
      var mid: Tables :| PlanStands(inflated, spans, k, l, from.tables, keys, Plan(keys, smalls), texts, mid)
        && BigStands(inflated, spans, k + 1, l, mid, keys, bigs, texts, t');
      StreamInverts(inflated, spans, k, l, from, keys, Plan(keys, smalls), texts, mid);
      var p := StreamRead(StreamAt(inflated, spans, k), l, from, keys, Plan(keys, smalls)).value;
      BigInverts(inflated, spans, k + 1, l, p, keys, bigs, texts, t');
      var r := BigRead(inflated, spans, k + 1, l, p, keys, bigs).value;
      RestoredTwice(Plan(keys, smalls), Plan(keys, bigs), texts, from.values, p.values, r.values);
    }
  }

  /** The tables grow by at most one entry for each value of the block. */
  lemma SplitGrows(inflated: seq<byte>, spans: seq<Span>, k: nat, l: Limits, from: Progress, keys: Keys,
                   texts: seq<seq<CodePoint>>, t': Tables)
    requires |texts| == |keys| <= |from.values| && AllSendable(texts) && from.pos == 0
    requires |from.tables.history| + |keys| <= 0x8000_0000
    requires SplitStands(inflated, spans, k, l, from.tables, keys, texts, t')
    ensures |t'.history| <= |from.tables.history| + |keys|
  {
    hide PlanStands; hide StreamRead; hide Members; hide AllSendable; hide PlanOk; hide StreamAt; hide Order; hide Sized;
    hide Plan; hide BigRead; hide BigStands; hide Restored;
    var smalls, bigs := Sized(keys, Order(keys), true), Sized(keys, Order(keys), false);
    PlanIsOk(keys, smalls, |texts|);
    PlanIsOk(keys, smalls, |from.values|);
    PlanBounded(keys);
    if smalls == [] {
      BigInverts(inflated, spans, k, l, from, keys, bigs, texts, t');
    } else {
      var mid: Tables :| PlanStands(inflated, spans, k, l, from.tables, keys, Plan(keys, smalls), texts, mid)
        && BigStands(inflated, spans, k + 1, l, mid, keys, bigs, texts, t');
      StreamInverts(inflated, spans, k, l, from, keys, Plan(keys, smalls), texts, mid);
      var p := StreamRead(StreamAt(inflated, spans, k), l, from, keys, Plan(keys, smalls)).value;
      BigInverts(inflated, spans, k + 1, l, p, keys, bigs, texts, t');
    }
  }

  /** The plans are no longer than the block. */
  lemma PlanBounded(keys: Keys)
    ensures |Plan(keys, Sized(keys, Order(keys), true))| + |Plan(keys, Sized(keys, Order(keys), false))| <= |keys|
  {
    hide Order; hide Sized; hide Plan;
    EachValueOnce(keys);
    var plan := Plan(keys, Sized(keys, Order(keys), true)) + Plan(keys, Sized(keys, Order(keys), false));
    forall k | 0 <= k < |plan|
      ensures plan[k] < |keys|
    {
      assert plan[k] in plan;
    }
    DistinctBounded(plan, |keys|);
  }
}
